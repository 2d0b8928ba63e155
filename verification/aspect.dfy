/** The pre-call hook of the equipment-loss aspect as a transition of the state store.
    A rejection (`sys.require` failing or `sys.revert`) aborts the whole call, so it is
    modelled as an outcome that carries no store: the caller keeps the one it had. */
module Aspect {
  import opened U64
  import opened Bytes
  import opened LossCurves
  import opened LossState

  /** The method selectors of `Transfer` and `TransferFrom`; their hashing is not modelled. */
  datatype Selectors = Selectors(transfer: seq<Byte>, transferFrom: seq<Byte>)

  /** The aspect properties read by the hook. An unset `calFuncType` reads as 0. */
  datatype Config = Config(calFuncType: u64, needDestroy: bool)

  /** What the hook learns about an intercepted call: the callee, the transaction's call
      data, and the method selector the host library parses from that call data. */
  datatype CallInput = CallInput(to: Address, txData: seq<Byte>, methodSig: seq<Byte>)

  /** Result of getNftLossNum: either nothing to compute, or the asset and its loaded values. */
  datatype LossInfo = Skip | Evaluate(nftIndex: seq<Byte>, transferTimes: u64, currentLoss: u64)

  datatype Rejection = AlreadyDestroyed | LossLimitReached

  datatype Outcome = Ok(store: Store) | Reject(reason: Rejection)

  /** The message the host reports for each rejection; the two reasons are told apart by it. */
  function Message(reason: Rejection): (m: string)
    ensures reason == AlreadyDestroyed ==> m == "the equipment already destroy"
    ensures reason == LossLimitReached ==> m == "The loss limit of this nft has been reached"
  {
    match reason
    case AlreadyDestroyed => "the equipment already destroy"
    case LossLimitReached => "The loss limit of this nft has been reached"
  }

  /** Different rejection reasons give different messages. */
  lemma MessagesDistinct(a: Rejection, b: Rejection)
    requires a != b
    ensures Message(a) != Message(b)
  {
    var destroyed := Message(AlreadyDestroyed);
    var limit := Message(LossLimitReached);
    assert |destroyed| == 29 && |limit| == 43;
  }

  /** The call is one of the two tracked transfer methods. */
  predicate IsTransferCall(sel: Selectors, input: CallInput) {
    input.methodSig == sel.transfer || input.methodSig == sel.transferFrom
  }

  /** The asset a transfer call moves: its token index is the ABI word at bytes 36..68 for
      `Transfer` and at bytes 68..100 for `TransferFrom` (Transfer wins if both match). */
  function TargetKey(sel: Selectors, input: CallInput): AssetKey
    requires IsTransferCall(sel, input)
  {
    if input.methodSig == sel.transfer then AssetKey(input.to, Slice(input.txData, 36, 68))
    else AssetKey(input.to, Slice(input.txData, 68, 100))
  }

  /** getNftLossNum: detects a transfer and loads the asset's transfer count and current loss.
      An asset never transferred before (count 0) loads as pristine, whatever loss is stored. */
  function GetNftLossNum(sel: Selectors, store: Store, contract: Address, input: CallInput): (r: LossInfo)
    ensures r.Skip? <==> !IsTransferCall(sel, input)
    ensures r.Evaluate? && input.methodSig == sel.transfer ==>
              r.nftIndex == Slice(input.txData, 36, 68)
    ensures r.Evaluate? && input.methodSig != sel.transfer ==>
              r.nftIndex == Slice(input.txData, 68, 100)
    ensures r.Evaluate? ==>
              r.transferTimes == Get(store, AssetKey(contract, r.nftIndex)).transferTimes
    ensures r.Evaluate? && r.transferTimes == 0 ==> r.currentLoss == MaxLoss
    ensures r.Evaluate? && r.transferTimes != 0 ==>
              r.currentLoss == Get(store, AssetKey(contract, r.nftIndex)).currentLoss
  {
    if !IsTransferCall(sel, input) then Skip
    else
      var nftIndex := TargetKey(sel, input).index;
      var rec := Get(store, AssetKey(contract, nftIndex));
      if rec.transferTimes == 0 then Evaluate(nftIndex, rec.transferTimes, MaxLoss)
      else Evaluate(nftIndex, rec.transferTimes, rec.currentLoss)
  }

  /** The loss a transfer call would leave its asset with, from the loaded values and the
      curve the configuration selects. */
  function PostLoss(sel: Selectors, cfg: Config, store: Store, input: CallInput): u64
    requires IsTransferCall(sel, input)
  {
    var info := GetNftLossNum(sel, store, input.to, input);
    Apply(SelectLossFunc(cfg.calFuncType), info.transferTimes, info.currentLoss)
  }

  /** preContractCall. Calls other than the two transfers pass through untouched. For a
      transfer, a destroyed asset is refused; otherwise the next loss is computed and a loss
      at the floor is refused. The destroy step written after the revert can never run,
      because the revert has already aborted the call, so `needDestroy` is never consulted. */
  function PreContractCall(sel: Selectors, cfg: Config, store: Store, input: CallInput): (r: Outcome)
    ensures !IsTransferCall(sel, input) ==> r == Ok(store)
    ensures IsTransferCall(sel, input) && IsDestroyEquipment(store, TargetKey(sel, input)) ==>
              r == Reject(AlreadyDestroyed)
    ensures IsTransferCall(sel, input) && !IsDestroyEquipment(store, TargetKey(sel, input)) ==>
              && (PostLoss(sel, cfg, store, input) == MinLoss ==> r == Reject(LossLimitReached))
              && (PostLoss(sel, cfg, store, input) > MinLoss ==> r.Ok?)
    ensures r.Reject? ==> IsTransferCall(sel, input)
    ensures r.Ok? && IsTransferCall(sel, input) ==>
              var key := TargetKey(sel, input);
              && !IsDestroyEquipment(store, key)
              && PostLoss(sel, cfg, store, input) > MinLoss
              && r.store == Commit(store, key, Wrap(Get(store, key).transferTimes + 1),
                                   PostLoss(sel, cfg, store, input))
  {
    var contractAddress := input.to;
    match GetNftLossNum(sel, store, contractAddress, input)
    case Skip => Ok(store)
    case Evaluate(nftIndex, transferTimes, currentLoss) =>
      var key := AssetKey(contractAddress, nftIndex);
      if IsDestroyEquipment(store, key) then Reject(AlreadyDestroyed)
      else
        var postLoss := Apply(SelectLossFunc(cfg.calFuncType), transferTimes, currentLoss);
        if postLoss <= MinLoss then Reject(LossLimitReached)
        else Ok(Commit(store, key, Wrap(transferTimes + 1), postLoss))
  }

  /** The store once the call has finished: a rejected call commits nothing. */
  function After(store: Store, r: Outcome): (s: Store)
    ensures r.Reject? ==> s == store
  {
    match r
    case Ok(s') => s'
    case Reject(_) => store
  }

  /** Loading an asset right after its count and loss were committed reads back the committed
      count, and the committed loss unless the count is 0, when the asset loads as pristine. */
  lemma LoadAfterCommit(sel: Selectors, store: Store, input: CallInput, transferTimes: u64, currentLoss: u64)
    requires IsTransferCall(sel, input)
    ensures var info := GetNftLossNum(sel, Commit(store, TargetKey(sel, input), transferTimes, currentLoss),
                                      input.to, input);
            && info.Evaluate?
            && AssetKey(input.to, info.nftIndex) == TargetKey(sel, input)
            && info.transferTimes == transferTimes
            && info.currentLoss == (if transferTimes == 0 then MaxLoss else currentLoss)
  {
  }

  /** The hook never sets a destroy flag: every asset's flag after the call is what it was. */
  lemma DestroyFlagNeverSet(sel: Selectors, cfg: Config, store: Store, input: CallInput, k: AssetKey)
    ensures IsDestroyEquipment(After(store, PreContractCall(sel, cfg, store, input)), k)
            == IsDestroyEquipment(store, k)
  {
  }

  /** The `needDestroy` property has no influence on the outcome. */
  lemma NeedDestroyIgnored(sel: Selectors, cfg: Config, store: Store, input: CallInput, b: bool)
    ensures PreContractCall(sel, cfg.(needDestroy := b), store, input)
            == PreContractCall(sel, cfg, store, input)
  {
  }

  /** A destroyed asset is frozen: no call changes any of its slots. */
  lemma DestroyedIsTerminal(sel: Selectors, cfg: Config, store: Store, input: CallInput, k: AssetKey)
    requires IsDestroyEquipment(store, k)
    ensures Get(After(store, PreContractCall(sel, cfg, store, input)), k) == Get(store, k)
  {
  }

  /** Once an asset is destroyed, every transfer of it is refused, whatever the configuration. */
  lemma TransferAfterDestroyRejected(sel: Selectors, cfg: Config, store: Store, input: CallInput)
    requires IsTransferCall(sel, input)
    ensures PreContractCall(sel, cfg, DestroyEquipment(store, TargetKey(sel, input)), input)
            == Reject(AlreadyDestroyed)
  {
  }

  /** The state every reachable store satisfies under a fixed configuration: losses stay
      within [MinLoss, MaxLoss], and under the linear curve no asset has more than ten transfers. */
  ghost predicate Inv(cfg: Config, store: Store) {
    forall k :: k in store ==>
      && store[k].currentLoss <= MaxLoss
      && (SelectLossFunc(cfg.calFuncType) == Linear ==> store[k].transferTimes <= 10)
  }

  /** Under the invariant, a committed loss lies in [1, MaxLoss] and the invariant is kept. */
  lemma PreContractCallKeepsInv(sel: Selectors, cfg: Config, store: Store, input: CallInput)
    requires Inv(cfg, store)
    ensures Inv(cfg, After(store, PreContractCall(sel, cfg, store, input)))
    ensures PreContractCall(sel, cfg, store, input).Ok? && IsTransferCall(sel, input) ==>
              1 <= Get(After(store, PreContractCall(sel, cfg, store, input)), TargetKey(sel, input)).currentLoss
                <= MaxLoss
  {
  }

  /** Under the stepwise curve every accepted transfer of an asset that has been transferred
      before strictly lowers its stored loss; its first transfer takes it from pristine to 90. */
  lemma StepTransferLowersLoss(sel: Selectors, cfg: Config, store: Store, input: CallInput)
    requires IsTransferCall(sel, input)
    requires SelectLossFunc(cfg.calFuncType) == Step
    requires PreContractCall(sel, cfg, store, input).Ok?
    ensures var key := TargetKey(sel, input);
            var after := Get(PreContractCall(sel, cfg, store, input).store, key);
            && (Get(store, key).transferTimes != 0 ==> after.currentLoss < Get(store, key).currentLoss)
            && (Get(store, key).transferTimes == 0 ==> after.currentLoss == 90)
  {
  }
}
