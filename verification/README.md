# Equipment-loss aspect, modelled in Dafny

The equipment-loss aspect is a pre-call hook that wears down an NFT each time it is
transferred. Before a `Transfer` or `TransferFrom` call runs, the hook loads the asset's
transfer count and current loss value. It refuses an asset whose destroy flag is set. Then
it computes the next loss with the decay curve that the `calFuncType` property selects. It
refuses the transfer if that loss has reached the floor. Otherwise it stores the incremented
count and the new loss.

The model strips out the host runtime. State is an immutable map from asset key
`(contract, index)` to a record `{transferTimes, currentLoss, destroyed}`. The aspect
properties form a `Config` record. The hook is the pure function
`Aspect.PreContractCall(sel, cfg, store, input)`, which returns either `Ok(newStore)` or
`Reject(reason)`. A rejection (`sys.require` or `sys.revert`) aborts the whole call, so it
carries no store and the caller keeps the store it had.

Modules, one per concern:

- `U64` (`u64.dfy`): 64-bit unsigned values and their wrap-around.
- `Bytes` (`bytes.dfy`): bytes and the clamping `slice` of a JavaScript typed array.
- `LossCurves` (`loss_curves.dfy`): the loss constants, the linear and stepwise curves, and
  the curve selection.
- `LossState` (`loss_state.dfy`): the per-asset record store, plus destroy and commit.
- `Aspect` (`aspect.dfy`): transfer detection, record loading and the pre-call hook.
- `Replay` (`replay.dfy`): sequences of calls, and the whole life of an asset under the
  linear curve.

Behaviour that follows the code as written:

- **Linear curve in u64.** In `calLineLoss`, `100 - 10 * transferTimes` is computed in
  u64. Past ten transfers it wraps to a value near 2^64 instead of going negative. The
  `> 0 ? … : 0` that follows therefore never clamps anything. The curve equals
  `max(0, 100 - 10·t)` only for `t ≤ 10`, which is the only range a fixed linear
  configuration ever reaches (`Aspect.PreContractCallKeepsInv`). The model computes the
  wrap-around explicitly, and `LossCurves.LineLossWrapsPastTen` states what it yields.
- **Dead destroy branch.** The code that sets the destroy flag (lines 62-66) comes after
  `sys.revert`, which has already aborted the call, so it never runs. The hook therefore
  never sets a destroy flag, and it never reads `needDestroy`.
- **Five linear transfers.** Five transfers of a fresh asset leave loss 60, not 50. The
  first transfer is priced at transfer count 0 (loss 100), so after `1 ≤ n ≤ 10` transfers
  the loss is `110 - 10n`. `Replay.FiveLinearTransfers` proves the value 60.
- **Exactly ten transfers.** From a fresh asset under the linear curve, exactly ten
  transfers succeed and the eleventh is refused for reaching the loss limit.

## Model

| member | source | states |
|---|---|---|
| U64.Wrap | aspect/index.ts:70 | a u64 slot holds a value congruent to the written integer modulo 2^64, and exactly that integer when it fits |
| Bytes.Slice | aspect/index.ts:82-85 | the index bytes are `data[from..to]` when the call data is long enough, a shorter tail when it ends inside the range, and empty when it ends before it |
| LossCurves.LineLoss | aspect/index.ts:125-129 | for at most ten transfers the linear loss is exactly `100 - 10·t`, never above 100, and 0 exactly at ten transfers |
| LossCurves.LineLossIgnoresCurrentLoss | aspect/index.ts:125 | the linear curve does not depend on the current loss |
| LossCurves.LineLossWrapsPastTen | aspect/index.ts:127-128 | past ten transfers (while `10·t` fits in u64) the u64 subtraction wraps, and the result is `2^64 + 100 - 10·t`, above 100 |
| LossCurves.StepLoss | aspect/index.ts:132-135 | the stepwise loss is the floor of 9/10 of the current loss: strictly below it when it is positive, and 0 when it is 1 |
| LossCurves.StepLossIgnoresTransferTimes | aspect/index.ts:132 | the stepwise curve does not depend on the transfer count |
| LossCurves.SelectLossFunc | aspect/index.ts:112-122 | `calFuncType` 2 selects the stepwise curve; every other value (1, 0/unset, anything else) selects the linear one |
| LossState.DestroyEquipment | aspect/index.ts:138-140 | destroying sets the asset's flag, keeps its count and loss, and leaves every other asset as it was |
| LossState.DestroyEquipmentIdempotent | aspect/index.ts:139 | destroying an asset twice is the same as destroying it once |
| LossState.IsDestroyEquipment | aspect/index.ts:143-145 | an asset reads as destroyed exactly when its flag slot was written true; an unwritten slot reads as not destroyed |
| LossState.Commit | aspect/index.ts:69-71 | a commit writes the count and loss of one asset, keeps its destroy flag, and leaves every other asset as it was |
| Aspect.Message | aspect/index.ts:52-60 | the two rejection reasons carry the messages "the equipment already destroy" and "The loss limit of this nft has been reached" |
| Aspect.MessagesDistinct | aspect/index.ts:52-60 | the two rejection reasons are told apart by their messages |
| Aspect.LoadAfterCommit | aspect/index.ts:90-108 | loading a transfer's asset right after a commit reads back the committed count, and the committed loss unless the count is 0, when it loads as 100 |
| Aspect.GetNftLossNum | aspect/index.ts:75-109 | only `Transfer` and `TransferFrom` calls are evaluated, with the index at bytes 36..68 or 68..100 respectively; the stored count is returned as is, and the loss is 100 when the count is 0 and the stored loss otherwise |
| Aspect.PreContractCall | aspect/index.ts:43-72 | a non-transfer call returns the store unchanged; a destroyed asset is refused with "already destroy"; otherwise a curve loss of 0 is refused with "loss limit reached" and a positive one is accepted, and on success only the asset's record changes, to count+1 (mod 2^64) and the positive new loss, with the flag still clear |
| Aspect.DestroyFlagNeverSet | aspect/index.ts:59-67 | after any call, every asset's destroy flag is what it was before |
| Aspect.NeedDestroyIgnored | aspect/index.ts:62-66 | the outcome does not depend on the `needDestroy` property |
| Aspect.DestroyedIsTerminal | aspect/index.ts:51-52 | no call changes any slot of a destroyed asset |
| Aspect.TransferAfterDestroyRejected | aspect/index.ts:51-52 | after `destroyEquipment` has set an asset's flag (lines 138-145), every transfer of it is refused with "already destroy", whatever the configuration |
| Aspect.PreContractCallKeepsInv | aspect/index.ts:56-71 | under a fixed configuration, losses stay within [0, 100] and linear counts stay at most 10; every committed loss lies in [1, 100] |
| Aspect.StepTransferLowersLoss | aspect/index.ts:132-135 | under the stepwise curve an accepted transfer strictly lowers a previously transferred asset's stored loss, and sets a fresh asset's loss to 90 |
| Replay.RunKeepsInv | aspect/index.ts:43-72 | any sequence of calls under a fixed configuration keeps losses within [0, 100] and linear counts at most 10 |
| Replay.RunKeepsDestroyFlags | aspect/index.ts:59-67 | no sequence of calls sets or clears any destroy flag |
| Replay.WornOutStaysPut | aspect/index.ts:59-60 | under the linear curve, an asset with ten transfers has the same transfer call refused however many times it is made, and the store does not change |
| Replay.LinearStep | aspect/index.ts:69-71 | under the linear curve, a transfer of an active asset with `t < 10` transfers is accepted and sets it to `t+1` transfers and loss `100 - 10·t` |
| Replay.LinearRun | aspect/index.ts:56-71 | under the linear curve, the same transfer call made `n ≥ 1` times on an active asset starting at `t < 10` accepts `min(t+n,10) - t` of them and leave it at `min(t+n,10)` transfers with loss `110 - 10·min(t+n,10)` |
| Replay.FreshLinearLife | aspect/index.ts:95-101 | from a fresh asset, whatever loss its slot holds, the same linear transfer call made `n` times leaves `(n, 110 - 10n)` when `1 ≤ n ≤ 10`, and exactly `min(n, 10)` of the calls are accepted for any `n` |
| Replay.EleventhLinearTransferRejected | aspect/index.ts:59-60 | after the same linear transfer call is made ten times on a fresh asset, an eleventh is refused with "loss limit reached" |
| Replay.FiveLinearTransfers | aspect/index.ts:92-101 | the same linear transfer call made five times on a fresh asset leave it at five transfers and loss 60 |

## Left out

- Host plumbing is not modelled: the runtime context, protobuf decoding, the state
  accessors, the property reader, `entryPoint`, and `execute`/`allocate`. The store and the
  configuration are explicit parameters instead.
- Method-selector hashing (`computeMethodSig`, keccak-256) and `parseMethodSig` are not
  modelled. The two selectors are a `Selectors` parameter. The selector parsed from the call
  data is a field of `CallInput`.
- Hex encoding (`uint8ArrayToHex`) and the storage key strings are not modelled. This
  includes the destroy key, which has no `:` between contract and index. The model keys all
  three slots of an asset by the pair `(contract, index)`.
- LossCurves.StepLoss: computes `⌊9·c/10⌋` in integers. The source multiplies a u64 by the
  f64 literal `0.9` and returns the product as u64. Floating-point rounding for large
  losses is not modelled.
- The governance check `isOwner` (always true) and the empty `postContractCall` are not
  modelled.
- Transaction commit and rollback are modelled only as "a rejected call leaves the store as
  it was". Concurrency is not modelled.
