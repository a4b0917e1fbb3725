/**
 * The control flow of `platform_init` (platform/platform_config.c), stated on
 * values. The foreign calls it makes (clock bring-up, `nhal_pin_init`,
 * `nhal_pin_set_config`) are an `Oracle`: what each of them would answer in
 * this run. `LoopFrom` follows the source's loop step by step; the lemmas
 * below characterise its outcome in closed form by the first failing index.
 */
module InitSequence {
  import opened Nhal
  import opened PlatformConfigH

  /**
   * The answers of the foreign collaborators in one run: the status word of
   * `stm32f103_clock_init` (zero is success) and, per table index, the result
   * of `nhal_pin_init` and of `nhal_pin_set_config`. Each index is passed to
   * each driver call at most once per run, so one answer per index is general.
   */
  datatype Oracle = Oracle(
    clockStatus: int,
    pinInitResult: nat -> NhalResult,
    setConfigResult: nat -> NhalResult)

  /** What a run produces: the returned code, the driver calls in order, and every resource's stage. */
  datatype Outcome = Outcome(result: NhalResult, calls: seq<DriverCall>, stages: seq<Stage>)

  /** Both driver calls for index `i` succeed. */
  predicate PinSucceeds(o: Oracle, i: nat) {
    o.pinInitResult(i) == NhalOk && o.setConfigResult(i) == NhalOk
  }

  /** The pin loop from index `i` on, starting from stages `st`, exactly as the source runs it. */
  function LoopFrom(o: Oracle, i: nat, st: seq<Stage>): (out: Outcome)
    requires |st| == PinTotalNum
    ensures |out.stages| == PinTotalNum
    decreases PinTotalNum - i
  {
    if i >= PinTotalNum then Outcome(NhalOk, [], st)
    else
      var initResult := o.pinInitResult(i);
      if initResult != NhalOk then Outcome(initResult, [InitCall(i)], st)
      else
        var bound := st[i := AfterPinInit(st[i])];
        var configResult := o.setConfigResult(i);
        if configResult != NhalOk then Outcome(configResult, [InitCall(i), ConfigCall(i)], bound)
        else
          var rest := LoopFrom(o, i + 1, bound[i := AfterSetConfig(bound[i])]);
          Outcome(rest.result, [InitCall(i), ConfigCall(i)] + rest.calls, rest.stages)
  }

  /** `platform_init`: a failed clock bring-up returns at once; otherwise the pin loop runs. */
  function PlatformInitSpec(o: Oracle, st: seq<Stage>): (out: Outcome)
    requires |st| == PinTotalNum
    ensures |out.stages| == PinTotalNum
  {
    if o.clockStatus != 0 then Outcome(NhalErrHwFailure, [], st)
    else LoopFrom(o, 0, st)
  }

  // ---------------------------------------------------------------------------
  // Reference definitions, independent of the loop

  /** The least index at or above `i` whose init or set-config fails, or `PinTotalNum` if none does. */
  function FirstFailure(o: Oracle, i: nat): (k: nat)
    requires i <= PinTotalNum
    ensures i <= k <= PinTotalNum
    ensures forall j :: i <= j < k ==> PinSucceeds(o, j)
    ensures k < PinTotalNum ==> !PinSucceeds(o, k)
    decreases PinTotalNum - i
  {
    if i == PinTotalNum || !PinSucceeds(o, i) then i
    else FirstFailure(o, i + 1)
  }

  /** The driver result that stops the loop at index `k`: init's if it failed, else set-config's. */
  function FailCause(o: Oracle, k: nat): (cause: NhalResult) {
    if o.pinInitResult(k) != NhalOk then o.pinInitResult(k) else o.setConfigResult(k)
  }

  /** The `p`-th driver call of a run that never stops: init 0, set-config 0, init 1, set-config 1, ... */
  function NthCall(p: nat): (c: DriverCall) {
    if p % 2 == 0 then InitCall(p / 2) else ConfigCall(p / 2)
  }

  /** The first `n` calls of the never-stopping run. */
  function CanonicalCalls(n: nat): (cs: seq<DriverCall>) {
    seq(n, p requires 0 <= p < n => NthCall(p))
  }

  /** A shorter run's calls are a prefix of a longer run's: the fixed order is never reordered. */
  lemma CanonicalCallsPrefix(m: nat, n: nat)
    requires m <= n
    ensures CanonicalCalls(m) == CanonicalCalls(n)[..m]
  {
  }

  /** Extending the canonical prefix by index `i`'s init, and then by its set-config. */
  lemma CanonicalCallsStep(i: nat)
    ensures CanonicalCalls(2 * i) + [InitCall(i)] == CanonicalCalls(2 * i + 1)
    ensures CanonicalCalls(2 * i) + [InitCall(i), ConfigCall(i)] == CanonicalCalls(2 * i + 2)
  {
    assert NthCall(2 * i) == InitCall(i);
    assert NthCall(2 * i + 1) == ConfigCall(i);
  }

  /** How many driver calls a loop started at `i` makes when it stops at `k`. */
  function CallCount(o: Oracle, i: nat, k: nat): (n: nat)
    requires i <= k
  {
    2 * (k - i) + (if k >= PinTotalNum then 0 else if o.pinInitResult(k) != NhalOk then 1 else 2)
  }

  /** The stage index `j` should be in after a loop from `i` that stops at `k`, started from `st`. */
  function StageAfter(o: Oracle, st: seq<Stage>, i: nat, k: nat, j: nat): (s: Stage)
    requires j < |st|
  {
    if j < i || j > k then st[j]
    else if j < k then Configured
    else if o.pinInitResult(k) == NhalOk then AfterPinInit(st[j])
    else st[j]
  }

  // ---------------------------------------------------------------------------
  // The loop agrees with the reference definitions

  /** The loop returns `NHAL_OK` exactly when no index fails, and otherwise the failing call's own result. */
  lemma {:induction false} LoopFromResult(o: Oracle, i: nat, st: seq<Stage>)
    requires i <= PinTotalNum && |st| == PinTotalNum
    ensures var k := FirstFailure(o, i);
      && (LoopFrom(o, i, st).result == NhalOk <==> k == PinTotalNum)
      && (k < PinTotalNum ==> LoopFrom(o, i, st).result == FailCause(o, k))
    decreases PinTotalNum - i
  {
    if i < PinTotalNum && PinSucceeds(o, i) {
      var bound := st[i := AfterPinInit(st[i])];
      LoopFromResult(o, i + 1, bound[i := AfterSetConfig(bound[i])]);
    }
  }

  /** The loop makes the calls of the never-stopping run, from `2 * i` on, up to where it stops. */
  lemma {:induction false} LoopFromCalls(o: Oracle, i: nat, st: seq<Stage>)
    requires i <= PinTotalNum && |st| == PinTotalNum
    ensures var calls := LoopFrom(o, i, st).calls;
      && |calls| == CallCount(o, i, FirstFailure(o, i))
      && forall p :: 0 <= p < |calls| ==> calls[p] == NthCall(2 * i + p)
    decreases PinTotalNum - i
  {
    if i < PinTotalNum && PinSucceeds(o, i) {
      var bound := st[i := AfterPinInit(st[i])];
      var next := bound[i := AfterSetConfig(bound[i])];
      LoopFromCalls(o, i + 1, next);
      var calls := LoopFrom(o, i, st).calls;
      var rest := LoopFrom(o, i + 1, next).calls;
      assert calls == [InitCall(i), ConfigCall(i)] + rest;
      forall p | 2 <= p < |calls|
        ensures calls[p] == NthCall(2 * i + p)
      {
        assert calls[p] == rest[p - 2];
        assert 2 * (i + 1) + (p - 2) == 2 * i + p;
      }
    }
  }

  /** Below `i` and above the stopping index nothing changes; in between every resource is configured. */
  lemma {:induction false} LoopFromStages(o: Oracle, i: nat, st: seq<Stage>)
    requires i <= PinTotalNum && |st| == PinTotalNum
    ensures var stages := LoopFrom(o, i, st).stages;
      forall j :: 0 <= j < PinTotalNum ==> stages[j] == StageAfter(o, st, i, FirstFailure(o, i), j)
    decreases PinTotalNum - i
  {
    if i < PinTotalNum && PinSucceeds(o, i) {
      var bound := st[i := AfterPinInit(st[i])];
      var next := bound[i := AfterSetConfig(bound[i])];
      LoopFromStages(o, i + 1, next);
    }
  }

  // ---------------------------------------------------------------------------
  // What `platform_init` promises

  /** The driver calls go up the indices, init before set-config for each, each at most once. */
  lemma NthCallAscending(p: nat, q: nat)
    requires p < q
    ensures NthCall(p).index <= NthCall(q).index
    ensures NthCall(p).index == NthCall(q).index ==> NthCall(p).InitCall? && NthCall(q).ConfigCall?
  {
  }

  /**
   * Every run makes a prefix of the driver calls in the fixed ascending order:
   * indices never go down, and for one index init comes before set-config.
   */
  lemma CallsInOrder(o: Oracle, st: seq<Stage>)
    requires |st| == PinTotalNum
    ensures var calls := PlatformInitSpec(o, st).calls;
      forall p :: 0 <= p < |calls| ==> calls[p] == NthCall(p)
    ensures var calls := PlatformInitSpec(o, st).calls;
      forall p, q :: 0 <= p < q < |calls| ==>
        && calls[p].index <= calls[q].index
        && (calls[p].index == calls[q].index ==> calls[p].InitCall? && calls[q].ConfigCall?)
  {
    if o.clockStatus == 0 {
      LoopFromCalls(o, 0, st);
    }
    var calls := PlatformInitSpec(o, st).calls;
    forall p, q | 0 <= p < q < |calls|
      ensures calls[p].index <= calls[q].index
      ensures calls[p].index == calls[q].index ==> calls[p].InitCall? && calls[q].ConfigCall?
    {
      NthCallAscending(p, q);
    }
  }

  /**
   * `NHAL_OK` is returned exactly when the clock comes up and every pin's init and
   * set-config succeed; then every driver call was made and every resource is configured.
   */
  lemma InitSucceedsIff(o: Oracle, st: seq<Stage>)
    requires |st| == PinTotalNum
    ensures var out := PlatformInitSpec(o, st);
      out.result == NhalOk <==> o.clockStatus == 0 && forall j :: 0 <= j < PinTotalNum ==> PinSucceeds(o, j)
    ensures var out := PlatformInitSpec(o, st);
      out.result == NhalOk ==>
        && |out.calls| == 2 * PinTotalNum
        && forall j :: 0 <= j < PinTotalNum ==> out.stages[j] == Configured
  {
    if o.clockStatus == 0 {
      LoopFromResult(o, 0, st);
      LoopFromCalls(o, 0, st);
      LoopFromStages(o, 0, st);
    }
  }

  /** A failed clock bring-up returns `NHAL_ERR_HW_FAILURE` before any driver call and changes no stage. */
  lemma ClockFailureStopsFirst(o: Oracle, st: seq<Stage>)
    requires |st| == PinTotalNum
    ensures o.clockStatus != 0 <==> PlatformInitSpec(o, st).calls == []
    ensures o.clockStatus != 0 ==> PlatformInitSpec(o, st) == Outcome(NhalErrHwFailure, [], st)
  {
    if o.clockStatus == 0 {
      LoopFromCalls(o, 0, st);
    }
  }

  /**
   * Fail fast without rollback: when the pin loop fails, it fails at the first
   * failing index `k`, returns that call's own result, calls set-config at `k`
   * only if init at `k` succeeded, touches no index above `k`, and leaves every
   * index below `k` configured and every index above `k` as it was.
   */
  lemma FailFast(o: Oracle, st: seq<Stage>)
    requires |st| == PinTotalNum
    requires o.clockStatus == 0
    requires PlatformInitSpec(o, st).result != NhalOk
    ensures var k := FirstFailure(o, 0); var out := PlatformInitSpec(o, st);
      && k < PinTotalNum
      && out.result == FailCause(o, k)
      && (forall c :: c in out.calls ==> c.index <= k)
      && (ConfigCall(k) in out.calls <==> o.pinInitResult(k) == NhalOk)
      && (forall j :: 0 <= j < k ==> out.stages[j] == Configured)
      && (forall j :: k < j < PinTotalNum ==> out.stages[j] == st[j])
  {
    LoopFromResult(o, 0, st);
    LoopFromCalls(o, 0, st);
    LoopFromStages(o, 0, st);
    var k := FirstFailure(o, 0);
    var calls := PlatformInitSpec(o, st).calls;
    forall c | c in calls
      ensures c.index <= k
    {
      var p :| 0 <= p < |calls| && calls[p] == c;
      assert c == NthCall(p);
    }
    if o.pinInitResult(k) == NhalOk {
      assert calls[2 * k + 1] == NthCall(2 * k + 1);
    }
  }

  /** Stages only move forward: no run takes a resource back to an earlier stage. */
  lemma StagesOnlyAdvance(o: Oracle, st: seq<Stage>)
    requires |st| == PinTotalNum
    ensures var out := PlatformInitSpec(o, st);
      forall j :: 0 <= j < PinTotalNum ==> Rank(st[j]) <= Rank(out.stages[j])
  {
    if o.clockStatus == 0 {
      LoopFromStages(o, 0, st);
    }
  }

  // ---------------------------------------------------------------------------
  // The two end-to-end runs of a fresh board

  /** All driver calls succeed on a fresh board: `NHAL_OK`, all eight calls in order, every resource configured. */
  lemma AllSucceed(o: Oracle)
    requires o.clockStatus == 0
    requires forall j :: 0 <= j < PinTotalNum ==> PinSucceeds(o, j)
    ensures var out := PlatformInitSpec(o, [Declared, Declared, Declared, Declared]);
      && out.result == NhalOk
      && out.calls == [InitCall(0), ConfigCall(0), InitCall(1), ConfigCall(1),
                       InitCall(2), ConfigCall(2), InitCall(3), ConfigCall(3)]
      && out.stages == [Configured, Configured, Configured, Configured]
  {
    var st := [Declared, Declared, Declared, Declared];
    InitSucceedsIff(o, st);
    CallsInOrder(o, st);
    var out := PlatformInitSpec(o, st);
    assert |out.stages| == 4;
  }

  /**
   * Set-config fails with `e` on the third resource (index 2) of a fresh board:
   * `e` is returned, resources 0 and 1 are configured, resource 2 is bound but
   * not configured, and resource 3 was never touched.
   */
  lemma ConfigFailsAtIndexTwo(o: Oracle, e: NhalResult)
    requires o.clockStatus == 0
    requires forall j :: 0 <= j < PinTotalNum ==> o.pinInitResult(j) == NhalOk
    requires o.setConfigResult(0) == NhalOk && o.setConfigResult(1) == NhalOk
    requires o.setConfigResult(2) == e && e != NhalOk
    ensures var out := PlatformInitSpec(o, [Declared, Declared, Declared, Declared]);
      && out.result == e
      && out.calls == [InitCall(0), ConfigCall(0), InitCall(1), ConfigCall(1), InitCall(2), ConfigCall(2)]
      && out.stages == [Configured, Configured, ContextBound, Declared]
  {
    var st := [Declared, Declared, Declared, Declared];
    assert FirstFailure(o, 0) == 2 by {
      assert PinSucceeds(o, 0) && PinSucceeds(o, 1) && !PinSucceeds(o, 2);
    }
    LoopFromResult(o, 0, st);
    LoopFromCalls(o, 0, st);
    LoopFromStages(o, 0, st);
    var out := PlatformInitSpec(o, st);
    assert |out.calls| == 6;
    assert |out.stages| == 4;
  }
}
