/**
 * The board-support registry of platform/platform_config.c: the static
 * identity, configuration, implementation-config and context tables of the
 * Blue Pill board, the steps that fill them, the initialisation sequencer and
 * the bounds-checked accessor.
 */
module PlatformConfig {
  import opened Nhal
  import opened PlatformConfigH
  import opened InitSequence

  // ---------------------------------------------------------------------------
  // The static declarations of the board

  /** The physical pin each role is wired to. */
  function DeclaredPinId(f: PinFunc): (id: PinId) {
    match f
    case LedBuiltin => PinId(PortC, 13)
    case UserButton => PinId(PortA, 0)
    case DebugOutput => PinId(PortA, 1)
    case TestInput => PinId(PortA, 2)
  }

  /** The electrical configuration of each role; `impl_config` points at the role's own slot. */
  function DeclaredConfig(f: PinFunc): (cfg: PinConfig) {
    match f
    case LedBuiltin => PinConfig(Output, PullNone, Some(Ordinal(f)))
    case UserButton => PinConfig(Input, PullUp, Some(Ordinal(f)))
    case DebugOutput => PinConfig(Output, PullNone, Some(Ordinal(f)))
    case TestInput => PinConfig(Input, PullUp, Some(Ordinal(f)))
  }

  /** The implementation-specific options every role gets (`.reserved = 0`). */
  const DeclaredImplConfig: ImplConfig := ImplConfig(0)

  /** The neutral context `setup_pin_contexts` writes into slot `i`: bound to identity slot `i`, nothing else set. */
  function ContextShell(i: PinIndex): (ctx: PinContext) {
    PinContext(Some(i), None, None, TriggerNone, false, false)
  }

  /** No two roles share a physical pin, so the identity table is one-to-one. */
  lemma DeclaredPinIdsDistinct(f: PinFunc, g: PinFunc)
    ensures DeclaredPinId(f) == DeclaredPinId(g) <==> f == g
  {
  }

  /** Outputs float (no pull resistor), inputs are pulled up, and each config refers to its own options slot. */
  lemma DeclaredConfigShape(f: PinFunc)
    ensures DeclaredConfig(f).direction == Output <==> DeclaredConfig(f).pullMode == PullNone
    ensures DeclaredConfig(f).direction == Input <==> DeclaredConfig(f).pullMode == PullUp
    ensures DeclaredConfig(f).implConfig == Some(Ordinal(f))
  {
  }

  // ---------------------------------------------------------------------------
  // The accessor

  /**
   * `platform_get_pin_ctx`: the slot of the context table for `pinFunc`, or
   * `None` (the C `NULL`) for the sentinel and any value above it. It reads
   * no state: the C returns the address of a static table element.
   */
  function GetPinCtx(pinFunc: nat): (slot: Option<PinIndex>)
    ensures slot.None? <==> pinFunc >= PinTotalNum
    ensures slot.Some? ==> slot.value == pinFunc
  {
    if pinFunc >= PinTotalNum then None else Some(pinFunc)
  }

  /** Distinct valid ids give distinct contexts, and every role has a context. */
  lemma GetPinCtxInjective(a: nat, b: nat, f: PinFunc)
    ensures GetPinCtx(a).Some? && a != b ==> GetPinCtx(a) != GetPinCtx(b)
    ensures GetPinCtx(Ordinal(f)) == Some(Ordinal(f))
  {
  }

  // ---------------------------------------------------------------------------
  // The tables and the sequencer

  /**
   * The static storage of the board layer. The four arrays are the C tables
   * `pin_ids`, `pin_configs`, `pin_impl_configs` and `pin_contexts`; the ghost
   * fields record what the driver has done: every resource's stage and the
   * driver calls made so far, in order.
   */
  class Platform {
    const pinIds: array<PinId>
    const pinConfigs: array<PinConfig>
    const pinImplConfigs: array<ImplConfig>
    const pinContexts: array<PinContext>
    ghost var stages: seq<Stage>
    ghost var calls: seq<DriverCall>

    /** Every table has one slot per logical pin. */
    ghost predicate Valid()
      reads this
    {
      && pinIds.Length == PinTotalNum
      && pinConfigs.Length == PinTotalNum
      && pinImplConfigs.Length == PinTotalNum
      && pinContexts.Length == PinTotalNum
      && |stages| == PinTotalNum
    }

    /** The identity, configuration and options tables hold the board's declarations. */
    ghost predicate TablesPopulated()
      reads this, pinIds, pinConfigs, pinImplConfigs
      requires Valid()
    {
      forall f: PinFunc ::
        && pinIds[Ordinal(f)] == DeclaredPinId(f)
        && pinConfigs[Ordinal(f)] == DeclaredConfig(f)
        && pinImplConfigs[Ordinal(f)] == DeclaredImplConfig
    }

    /** Every context is the neutral shell bound to its own identity slot. */
    ghost predicate ContextsShelled()
      reads this, pinContexts
      requires Valid()
    {
      forall i: PinIndex :: pinContexts[i] == ContextShell(i)
    }

    /** The board is ready: tables populated, contexts bound to their identities, every resource configured. */
    ghost predicate Ready()
      reads this, pinIds, pinConfigs, pinImplConfigs, pinContexts
    {
      && Valid()
      && TablesPopulated()
      && ContextsShelled()
      && forall i :: 0 <= i < PinTotalNum ==> stages[i] == Configured
    }

    /** Zero-initialised static storage: nothing declared into the tables yet, no driver call made. */
    constructor ()
      ensures Valid()
      ensures fresh(pinIds) && fresh(pinConfigs) && fresh(pinImplConfigs) && fresh(pinContexts)
      ensures forall i :: 0 <= i < PinTotalNum ==> stages[i] == Declared
      ensures calls == []
    {
      pinIds := new PinId[PinTotalNum](_ => PinId(PortA, 0));
      pinConfigs := new PinConfig[PinTotalNum](_ => PinConfig(Input, PullNone, None));
      pinImplConfigs := new ImplConfig[PinTotalNum](_ => ImplConfig(0));
      pinContexts := new PinContext[PinTotalNum](_ => PinContext(None, None, None, TriggerNone, false, false));
      stages := seq(PinTotalNum, _ => Declared);
      calls := [];
    }

    /**
     * `setup_pin_mappings`: writes every role's identity, configuration and
     * options. The new contents do not depend on the old ones, so a second
     * call leaves the tables as the first left them.
     */
    method SetupPinMappings()
      requires Valid()
      modifies pinIds, pinConfigs, pinImplConfigs
      ensures Valid() && TablesPopulated()
    {
      var led, button, debug, test := Ordinal(LedBuiltin), Ordinal(UserButton), Ordinal(DebugOutput), Ordinal(TestInput);

      pinIds[led] := PinId(PortC, 13);
      pinConfigs[led] := PinConfig(Output, PullNone, Some(led));
      pinImplConfigs[led] := ImplConfig(0);

      pinIds[button] := PinId(PortA, 0);
      pinConfigs[button] := PinConfig(Input, PullUp, Some(button));
      pinImplConfigs[button] := ImplConfig(0);

      pinIds[debug] := PinId(PortA, 1);
      pinConfigs[debug] := PinConfig(Output, PullNone, Some(debug));
      pinImplConfigs[debug] := ImplConfig(0);

      pinIds[test] := PinId(PortA, 2);
      pinConfigs[test] := PinConfig(Input, PullUp, Some(test));
      pinImplConfigs[test] := ImplConfig(0);
    }

    /** `setup_pin_contexts`: gives every context the neutral shell, referring to its own identity slot. */
    method SetupPinContexts()
      requires Valid()
      modifies pinContexts
      ensures Valid() && ContextsShelled()
    {
      for i := 0 to PinTotalNum
        invariant forall j :: 0 <= j < i ==> pinContexts[j] == ContextShell(j)
      {
        pinContexts[i] := ContextShell(i);
      }
    }

    /**
     * `nhal_pin_init` on context `slot`, as an oracle: it returns the answer
     * the oracle gives and, on success, binds the resource. The context it is
     * handed must already refer to identity slot `slot`, and that slot must
     * hold the role's declared pin.
     */
    method PinInit(o: Oracle, slot: PinIndex) returns (r: NhalResult)
      requires Valid()
      requires pinContexts[slot].pinId == Some(slot)
      requires pinIds[slot] == DeclaredPinId(RoleOf(slot))
      modifies this
      ensures Valid()
      ensures r == o.pinInitResult(slot)
      ensures calls == old(calls) + [InitCall(slot)]
      ensures stages == if r == NhalOk then old(stages)[slot := AfterPinInit(old(stages)[slot])] else old(stages)
    {
      r := o.pinInitResult(slot);
      calls := calls + [InitCall(slot)];
      if r == NhalOk {
        stages := stages[slot := AfterPinInit(stages[slot])];
      }
    }

    /**
     * `nhal_pin_set_config` on context `slot` with configuration `slot`, as an
     * oracle: it returns the answer the oracle gives and, on success, marks
     * the resource configured. The context must refer to identity slot
     * `slot`, and configuration slot `slot` and the options slot it points at
     * must hold the role's declarations.
     */
    method SetConfig(o: Oracle, slot: PinIndex) returns (r: NhalResult)
      requires Valid()
      requires pinContexts[slot].pinId == Some(slot)
      requires pinConfigs[slot] == DeclaredConfig(RoleOf(slot))
      requires pinImplConfigs[slot] == DeclaredImplConfig
      modifies this
      ensures Valid()
      ensures r == o.setConfigResult(slot)
      ensures calls == old(calls) + [ConfigCall(slot)]
      ensures stages == if r == NhalOk then old(stages)[slot := AfterSetConfig(old(stages)[slot])] else old(stages)
    {
      r := o.setConfigResult(slot);
      calls := calls + [ConfigCall(slot)];
      if r == NhalOk {
        stages := stages[slot := AfterSetConfig(stages[slot])];
      }
    }

    /**
     * The pin loop of `platform_init`: for each index in ascending order,
     * init then set-config, returning the first failing result unchanged.
     * With k the first failing index, it returns that call's result (or
     * `NHAL_OK` if there is none), makes the calls of the fixed ascending
     * order up to the failing one, and leaves the stages `StageAfter` gives.
     * It needs the tables populated and the context shells built before the
     * first driver call. Only the driver's ghost state changes; the tables are
     * left as they are.
     */
    method InitPins(o: Oracle) returns (r: NhalResult)
      requires Valid() && TablesPopulated() && ContextsShelled()
      modifies this
      ensures Valid() && TablesPopulated() && ContextsShelled()
      ensures var k := FirstFailure(o, 0);
        && r == (if k < PinTotalNum then FailCause(o, k) else NhalOk)
        && calls == old(calls) + CanonicalCalls(CallCount(o, 0, k))
        && forall j :: 0 <= j < PinTotalNum ==> stages[j] == StageAfter(o, old(stages), 0, k, j)
    {
      for i := 0 to PinTotalNum
        invariant Valid() && TablesPopulated() && ContextsShelled()
        invariant forall j :: 0 <= j < i ==> PinSucceeds(o, j)
        invariant calls == old(calls) + CanonicalCalls(2 * i)
        invariant forall j :: 0 <= j < PinTotalNum ==> stages[j] == if j < i then Configured else old(stages)[j]
      {
        CanonicalCallsStep(i);
        r := PinInit(o, i);
        if r != NhalOk {
          assert FirstFailure(o, 0) == i;
          return;
        }
        r := SetConfig(o, i);
        if r != NhalOk {
          assert FirstFailure(o, 0) == i;
          return;
        }
      }
      r := NhalOk;
    }

    /**
     * `platform_init`. A failed clock bring-up returns `NHAL_ERR_HW_FAILURE`
     * with the tables untouched; otherwise the tables are populated, the
     * context shells built, and the pins initialised and configured in
     * ascending order, stopping at the first failing driver call. Result,
     * driver calls and stages are those of `PlatformInitSpec`.
     */
    method PlatformInit(o: Oracle) returns (r: NhalResult)
      requires Valid()
      modifies this, pinIds, pinConfigs, pinImplConfigs, pinContexts
      ensures Valid()
      ensures var out := PlatformInitSpec(o, old(stages));
        && r == out.result
        && calls == old(calls) + out.calls
        && stages == out.stages
      ensures o.clockStatus != 0 ==> unchanged(pinIds, pinConfigs, pinImplConfigs, pinContexts)
      ensures o.clockStatus == 0 ==> TablesPopulated() && ContextsShelled()
      ensures r == NhalOk <==> o.clockStatus == 0 && forall j :: 0 <= j < PinTotalNum ==> PinSucceeds(o, j)
      ensures r == NhalOk ==> Ready()
      ensures o.clockStatus == 0 && r != NhalOk ==>
        var k := FirstFailure(o, 0);
        && k < PinTotalNum
        && r == FailCause(o, k)
        && (forall j :: 0 <= j < k ==> stages[j] == Configured)
        && (forall j :: k < j < PinTotalNum ==> stages[j] == old(stages)[j])
    {
      InitSucceedsIff(o, old(stages));
      if o.clockStatus != 0 {
        return NhalErrHwFailure;
      }
      // The debug UART bring-up has no effect on the outcome and is not modelled.
      SetupPinMappings();
      SetupPinContexts();
      r := InitPins(o);
      LoopFromResult(o, 0, old(stages));
      LoopFromCalls(o, 0, old(stages));
      LoopFromStages(o, 0, old(stages));
      ghost var out := PlatformInitSpec(o, old(stages));
      assert out.calls == CanonicalCalls(CallCount(o, 0, FirstFailure(o, 0)));
      assert stages == out.stages;
      if r != NhalOk {
        FailFast(o, old(stages));
      }
    }

    /**
     * Once the board is ready, the accessor hands out, for every role, a
     * context bound to the role's declared pin whose resource is configured.
     */
    lemma ReadyContext(f: PinFunc)
      requires Ready()
      ensures var slot := GetPinCtx(Ordinal(f));
        && slot.Some?
        && pinContexts[slot.value].pinId == Some(slot.value)
        && pinIds[slot.value] == DeclaredPinId(f)
        && pinConfigs[slot.value] == DeclaredConfig(f)
        && stages[slot.value] == Configured
    {
    }
  }
}
