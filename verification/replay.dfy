/** Sequences of intercepted calls, each either committed or rolled back, and the life of
    one asset under the linear curve. */
module Replay {
  import opened U64
  import opened LossCurves
  import opened LossState
  import opened Aspect

  function Min(a: int, b: int): int {
    if a <= b then a else b
  }

  /** Where a sequence of calls leaves the store, and how many of the calls went through. */
  datatype Tally = Tally(store: Store, accepted: nat)

  /** One more call on top of a tally: a rejected call leaves the store as it was. */
  function Next(sel: Selectors, cfg: Config, t: Tally, input: CallInput): (r: Tally)
    ensures r.accepted == t.accepted || r.accepted == t.accepted + 1
    ensures r.accepted == t.accepted ==> r.store == t.store
  {
    var o := PreContractCall(sel, cfg, t.store, input);
    Tally(After(t.store, o), if o.Ok? then t.accepted + 1 else t.accepted)
  }

  /** The hook applied to `inputs` in order, starting from `store`. */
  function Run(sel: Selectors, cfg: Config, store: Store, inputs: seq<CallInput>): (r: Tally)
    ensures r.accepted <= |inputs|
    decreases |inputs|
  {
    if |inputs| == 0 then Tally(store, 0)
    else
      var first := Next(sel, cfg, Tally(store, 0), inputs[0]);
      var rest := Run(sel, cfg, first.store, inputs[1..]);
      Tally(rest.store, first.accepted + rest.accepted)
  }

  /** `n` repetitions of the same call. */
  function Copies(input: CallInput, n: nat): (s: seq<CallInput>)
    ensures |s| == n
    ensures forall i :: 0 <= i < n ==> s[i] == input
  {
    if n == 0 then [] else [input] + Copies(input, n - 1)
  }

  /** The same call made `n` times, starting from `store`. */
  function Repeat(sel: Selectors, cfg: Config, store: Store, input: CallInput, n: nat): Tally
    decreases n
  {
    if n == 0 then Tally(store, 0)
    else
      var first := Next(sel, cfg, Tally(store, 0), input);
      var rest := Repeat(sel, cfg, first.store, input, n - 1);
      Tally(rest.store, first.accepted + rest.accepted)
  }

  /** Repeating a call is running the sequence of its copies. */
  lemma {:induction false} RepeatIsRunOfCopies(sel: Selectors, cfg: Config, store: Store, input: CallInput, n: nat)
    ensures Repeat(sel, cfg, store, input, n) == Run(sel, cfg, store, Copies(input, n))
    decreases n
  {
    if n > 0 {
      var first := Next(sel, cfg, Tally(store, 0), input);
      assert Copies(input, n)[0] == input;
      assert Copies(input, n)[1..] == Copies(input, n - 1);
      RepeatIsRunOfCopies(sel, cfg, first.store, input, n - 1);
    }
  }

  /** Any run keeps the invariant of the configuration it runs under. */
  lemma {:induction false} RunKeepsInv(sel: Selectors, cfg: Config, store: Store, inputs: seq<CallInput>)
    requires Inv(cfg, store)
    ensures Inv(cfg, Run(sel, cfg, store, inputs).store)
    decreases |inputs|
  {
    if |inputs| > 0 {
      PreContractCallKeepsInv(sel, cfg, store, inputs[0]);
      RunKeepsInv(sel, cfg, After(store, PreContractCall(sel, cfg, store, inputs[0])), inputs[1..]);
    }
  }

  /** No run ever sets or clears a destroy flag. */
  lemma {:induction false} RunKeepsDestroyFlags(sel: Selectors, cfg: Config, store: Store,
                                                inputs: seq<CallInput>, k: AssetKey)
    ensures IsDestroyEquipment(Run(sel, cfg, store, inputs).store, k) == IsDestroyEquipment(store, k)
    decreases |inputs|
  {
    if |inputs| > 0 {
      DestroyFlagNeverSet(sel, cfg, store, inputs[0], k);
      RunKeepsDestroyFlags(sel, cfg, After(store, PreContractCall(sel, cfg, store, inputs[0])), inputs[1..], k);
    }
  }

  /** Under the linear curve an asset with ten recorded transfers is worn out: the same
      transfer call made any number of times is refused each time and the store stays as it is. */
  lemma {:induction false} WornOutStaysPut(sel: Selectors, cfg: Config, store: Store, input: CallInput, n: nat)
    requires IsTransferCall(sel, input)
    requires SelectLossFunc(cfg.calFuncType) == Linear
    requires Get(store, TargetKey(sel, input)).transferTimes == 10
    ensures Repeat(sel, cfg, store, input, n) == Tally(store, 0)
    decreases n
  {
    if n > 0 {
      assert PreContractCall(sel, cfg, store, input).Reject?;
      WornOutStaysPut(sel, cfg, store, input, n - 1);
    }
  }

  /** One linear transfer of an active asset with `t < 10` recorded transfers: it is
      accepted and rewrites only that asset, to `t + 1` transfers and loss `100 - 10t`. */
  lemma LinearStep(sel: Selectors, cfg: Config, store: Store, input: CallInput)
    requires IsTransferCall(sel, input)
    requires SelectLossFunc(cfg.calFuncType) == Linear
    requires !IsDestroyEquipment(store, TargetKey(sel, input))
    requires Get(store, TargetKey(sel, input)).transferTimes < 10
    ensures var key := TargetKey(sel, input);
            var t := Get(store, key).transferTimes;
            PreContractCall(sel, cfg, store, input) == Ok(store[key := Record(t + 1, 100 - 10 * t, false)])
  {
  }

  /** Under the linear curve, the same transfer call made `n >= 1` times on an active asset
      with `t < 10` recorded transfers: exactly `min(t + n, 10) - t` are accepted, which leave
      the asset at `min(t + n, 10)` transfers and loss `110 - 10 * min(t + n, 10)`. */
  lemma {:induction false} LinearRun(sel: Selectors, cfg: Config, store: Store, input: CallInput,
                                     t0: u64, n: nat)
    requires IsTransferCall(sel, input)
    requires SelectLossFunc(cfg.calFuncType) == Linear
    requires !IsDestroyEquipment(store, TargetKey(sel, input))
    requires Get(store, TargetKey(sel, input)).transferTimes == t0 < 10
    requires 1 <= n
    ensures Repeat(sel, cfg, store, input, n)
            == Tally(store[TargetKey(sel, input) := Record(Min(t0 + n, 10), 110 - 10 * Min(t0 + n, 10), false)],
                     Min(t0 + n, 10) - t0)
    decreases n
  {
    var key := TargetKey(sel, input);
    var t := Min(t0 + n, 10);
    var goal := store[key := Record(t, 110 - 10 * t, false)];
    var s1 := store[key := Record(t0 + 1, 100 - 10 * t0, false)];
    LinearStep(sel, cfg, store, input);
    assert Next(sel, cfg, Tally(store, 0), input) == Tally(s1, 1);
    var rest := Repeat(sel, cfg, s1, input, n - 1);
    assert Repeat(sel, cfg, store, input, n) == Tally(rest.store, 1 + rest.accepted);
    assert Get(s1, key) == Record(t0 + 1, 100 - 10 * t0, false);
    if n == 1 {
      assert rest == Tally(goal, t - t0 - 1);
    } else if t0 + 1 < 10 {
      var last := Record(t, 110 - 10 * t, false);
      assert rest == Tally(s1[key := last], t - (t0 + 1)) by {
        LinearRun(sel, cfg, s1, input, t0 + 1, n - 1);
        assert Min(t0 + 1 + (n - 1), 10) == t;
      }
      assert s1[key := last] == goal by {
        OverwriteRecord(store, key, Record(t0 + 1, 100 - 10 * t0, false), last);
      }
    } else {
      WornOutStaysPut(sel, cfg, s1, input, n - 1);
      assert rest == Tally(goal, t - t0 - 1);
    }
    assert Repeat(sel, cfg, store, input, n) == Tally(goal, t - t0);
  }

  /** From a fresh asset (no recorded transfer, whatever loss its slot holds) under the
      linear curve, with the same transfer call made `n` times: for `1 <= n <= 10` all go
      through and leave it at `n` transfers and loss `110 - 10n`, and for any `n` no more
      than ten go through. */
  lemma FreshLinearLife(sel: Selectors, cfg: Config, store: Store, input: CallInput, n: nat)
    requires IsTransferCall(sel, input)
    requires SelectLossFunc(cfg.calFuncType) == Linear
    requires Get(store, TargetKey(sel, input)).transferTimes == 0
    requires !IsDestroyEquipment(store, TargetKey(sel, input))
    ensures 1 <= n <= 10 ==>
              Run(sel, cfg, store, Copies(input, n)).store
              == store[TargetKey(sel, input) := Record(n, 110 - 10 * n, false)]
    ensures Run(sel, cfg, store, Copies(input, n)).accepted == Min(n, 10)
  {
    var key := TargetKey(sel, input);
    var r := Repeat(sel, cfg, store, input, n);
    assert Run(sel, cfg, store, Copies(input, n)) == r by {
      RepeatIsRunOfCopies(sel, cfg, store, input, n);
    }
    if n == 0 {
      assert r == Tally(store, 0);
    } else {
      assert r == Tally(store[key := Record(Min(n, 10), 110 - 10 * Min(n, 10), false)], Min(n, 10)) by {
        LinearRun(sel, cfg, store, input, 0, n);
      }
    }
  }

  /** After ten transfers of a fresh asset under the linear curve, the eleventh is refused
      for reaching the loss limit. */
  lemma EleventhLinearTransferRejected(sel: Selectors, cfg: Config, store: Store, input: CallInput)
    requires IsTransferCall(sel, input)
    requires SelectLossFunc(cfg.calFuncType) == Linear
    requires Get(store, TargetKey(sel, input)).transferTimes == 0
    requires !IsDestroyEquipment(store, TargetKey(sel, input))
    ensures PreContractCall(sel, cfg, Run(sel, cfg, store, Copies(input, 10)).store, input)
            == Reject(LossLimitReached)
  {
    var key := TargetKey(sel, input);
    var s10 := store[key := Record(10, 10, false)];
    assert Run(sel, cfg, store, Copies(input, 10)).store == s10 by {
      FreshLinearLife(sel, cfg, store, input, 10);
    }
    assert Get(s10, key).transferTimes == 10;
  }

  /** Five transfers of a fresh asset under the linear curve leave it at five transfers and
      loss 60: the first transfer is priced at transfer count 0, so it costs nothing. */
  lemma FiveLinearTransfers(sel: Selectors, cfg: Config, store: Store, input: CallInput)
    requires IsTransferCall(sel, input)
    requires SelectLossFunc(cfg.calFuncType) == Linear
    requires Get(store, TargetKey(sel, input)).transferTimes == 0
    requires !IsDestroyEquipment(store, TargetKey(sel, input))
    ensures Get(Run(sel, cfg, store, Copies(input, 5)).store, TargetKey(sel, input)) == Record(5, 60, false)
  {
    FreshLinearLife(sel, cfg, store, input, 5);
  }
}
