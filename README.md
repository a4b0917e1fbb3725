# Blue Pill board-support registry and initialisation sequencer

This project models the board layer of a Blue Pill (STM32F103C8T6) application
built on the NHAL pin driver library. The layer names four hardware roles
(built-in LED, user button, debug output, test input) and keeps four static
tables indexed by role:

- the physical pin of each role (`pin_ids`);
- its electrical configuration (`pin_configs`);
- its driver-specific options (`pin_impl_configs`);
- its runtime context (`pin_contexts`).

`platform_init` first brings up the clock. It then fills the tables, gives
every context a neutral shell, and calls the driver's `nhal_pin_init` and
`nhal_pin_set_config` for each role in ascending order. It stops at the first
failure. `platform_get_pin_ctx` is a bounds-checked lookup into the context
table.

Files:

- `Nhal.dfy` (module `Nhal`): the driver-boundary types. These are result
  codes, pin identities, configurations, contexts, the per-resource stage
  (`Declared`, `ContextBound`, `Configured`) and the record of a driver call.
- `PlatformConfigH.dfy` (module `PlatformConfigH`): the `pin_func_t`
  enumeration as a datatype, with its integer values and the `PIN_TOTAL_NUM`
  sentinel (`PinTotalNum`).
- `InitSequence.dfy` (module `InitSequence`): the control flow of
  `platform_init` as functions over an `Oracle`. `LoopFrom` follows the loop
  step by step. The lemmas describe its outcome in closed form, using the
  first failing index (`FirstFailure`) and the fixed call order (`NthCall`).
- `PlatformConfig.dfy` (module `PlatformConfig`): the board's declarations and
  the accessor `GetPinCtx`. It also holds class `Platform`, which owns the four
  tables as arrays. Its methods model `setup_pin_mappings`,
  `setup_pin_contexts` and `platform_init`. The stages and the driver-call
  trace are ghost fields of the class. The loop method `InitPins` is proved
  against the closed form. `PlatformInit` is tied to `PlatformInitSpec`
  through the `LoopFrom` lemmas.

The foreign calls are parameters. An `Oracle` gives the clock bring-up's status
word and, for each table index, what `nhal_pin_init` and `nhal_pin_set_config`
return. A run calls each driver function at most once per index, so one answer
per index covers every possible driver behaviour within a run. A successful
`nhal_pin_init` moves a resource from `Declared` to `ContextBound`. A successful
`nhal_pin_set_config` moves it to `Configured`. A failed call leaves the stage
as it was. Stages never move backwards.

Pointers are slot indices. A configuration's `impl_config` is the index of its
options slot, and a context's `pin_id` is the index of its identity slot.
`GetPinCtx` returns the index of the context slot, or `None` where the C
returns `NULL`. `pin_func_t` values are natural numbers: every enumerator is
non-negative, so GCC gives the enumeration an unsigned type.

Three points of the code shape the model:

- `platform_init` returns only the driver's result code. It does not say
  which index failed. The model returns that code, and the failing index
  appears only in the lemmas, as `FirstFailure`.
- The clock comes up before any table is written, so a clock failure returns
  with the tables untouched. `PlatformInit` states this order.
- The header documents the accessor as returning an *initialised* context. The
  code checks only the bounds. After a failed `platform_init`, it still hands
  out contexts that are not `Configured`. `GetPinCtx` models the bounds check,
  and `ReadyContext` states the documented promise under the condition that
  `platform_init` returned `NHAL_OK`.

## Model

| member | source | states |
|---|---|---|
| PlatformConfigH.Ordinal | include/platform_config.h:25-31 | every role's enumerator value is below the sentinel `PIN_TOTAL_NUM` (4) |
| PlatformConfigH.FromOrdinal | include/platform_config.h:25-31 | a `pin_func_t` value names a role exactly when it is below the sentinel, and then the role's value is that number |
| PlatformConfigH.OrdinalRoundTrip | include/platform_config.h:25-30 | the four roles have four distinct values, and each value maps back to its own role |
| PlatformConfigH.OrdinalOnto | include/platform_config.h:25-31 | the roles' values are exactly 0..3: a number below the sentinel is some role's value, and the sentinel is none |
| PlatformConfig.DeclaredPinIdsDistinct | platform/platform_config.c:25-89 | LED→(C,13), button→(A,0), debug→(A,1), test input→(A,2) are four different physical pins, so the identity table is one-to-one |
| PlatformConfig.DeclaredConfigShape | platform/platform_config.c:32-84 | outputs (LED, debug) have no pull resistor and inputs (button, test) are pulled up; each `impl_config` refers to the options slot of the same index |
| PlatformConfig.GetPinCtx | platform/platform_config.c:137-143 | `None` (NULL) exactly for ids at or above `PIN_TOTAL_NUM`; otherwise the context slot at index `id`; reads no state |
| PlatformConfig.GetPinCtxInjective | platform/platform_config.c:137-143 | distinct valid ids give distinct contexts, and every role's id gives a context |
| PlatformConfig.Platform.constructor | platform/platform_config.c:14-22 | static storage: four tables of `PIN_TOTAL_NUM` slots, every resource `Declared`, no driver call made yet |
| PlatformConfig.Platform.SetupPinMappings | platform/platform_config.c:25-89 | afterwards every role's identity, configuration and options slot hold its declaration; the new contents do not depend on the old ones, so a second run leaves the tables identical; contexts, stages and driver calls are untouched |
| PlatformConfig.Platform.SetupPinContexts | platform/platform_config.c:91-102 | afterwards every context `i` refers to identity slot `i` and has no callback, no user data, trigger NONE, and interrupt neither configured nor enabled; only the context table changes |
| PlatformConfig.Platform.PinInit | platform/platform_config.c:123-126 | may only be called on a context that refers to its own identity slot, which holds the role's declared pin; returns the driver's answer for `nhal_pin_init` on slot `i`, records the call, and binds the resource only on success |
| PlatformConfig.Platform.SetConfig | platform/platform_config.c:128-131 | may only be called with context `i` bound to identity slot `i` and configuration and options slot `i` holding the role's declarations; returns the driver's answer for `nhal_pin_set_config` on slot `i`, records the call, and configures the resource only on success |
| PlatformConfig.Platform.InitPins | platform/platform_config.c:122-134 | needs the tables populated and the context shells built before the first driver call, and keeps them so; for k the first failing index, it returns that call's result unchanged (or `NHAL_OK` if none fails); it appends exactly the calls of the fixed ascending order up to and including the failing one, with set-config at k only if init at k succeeded; indices below k end `Configured` and indices above k keep their stage; the tables are not changed |
| PlatformConfig.Platform.PlatformInit | platform/platform_config.c:104-135 | result, calls and stages equal `PlatformInitSpec`; a clock failure leaves all tables unchanged; `NHAL_OK` exactly when the clock status is 0 and every pin's init and set-config succeed, and then the board is `Ready`; on a pin failure at the first failing index k the driver's own result is returned, indices below k are `Configured` and indices above k are unchanged |
| PlatformConfig.Platform.ReadyContext | include/platform_config.h:44-50 | on a ready board, every role's context refers to its own identity slot, which holds the role's declared pin; the configuration slot holds the role's declared configuration, and the resource is `Configured` |
| InitSequence.LoopFrom | platform/platform_config.c:122-134 | the loop from index `i`, step by step as the source runs it; the outcome keeps one stage per resource |
| InitSequence.PlatformInitSpec | platform/platform_config.c:104-135 | `platform_init`'s outcome: a clock failure returns `NHAL_ERR_HW_FAILURE` at once, otherwise the pin loop from index 0; one stage per resource |
| InitSequence.FirstFailure | platform/platform_config.c:122-132 | the least index at or above `i` whose init or set-config fails, or `PIN_TOTAL_NUM`: every index before it succeeds, and it fails when below the sentinel |
| InitSequence.LoopFromResult | platform/platform_config.c:122-134 | the loop returns `NHAL_OK` exactly when no index fails; otherwise it returns the failing call's own result unchanged (init's if init failed, else set-config's) |
| InitSequence.LoopFromCalls | platform/platform_config.c:122-132 | the loop's calls are the fixed ascending sequence init i, set-config i, init i+1, …, cut off right after the failing call; the number of calls is exact |
| InitSequence.LoopFromStages | platform/platform_config.c:122-132 | every index below the failure ends `Configured`; the failing index is bound only if its init succeeded; every index above it keeps its stage |
| InitSequence.CanonicalCallsPrefix | platform/platform_config.c:122-132 | the fixed call order is never reordered: the first m calls of a longer run are exactly the calls of the shorter run |
| InitSequence.NthCallAscending | platform/platform_config.c:122-132 | in the fixed call order, indices never go down, and for one index init comes before set-config |
| InitSequence.CallsInOrder | platform/platform_config.c:122-132 | every run's calls are a prefix of the fixed order; indices ascend, and init precedes set-config for each index |
| InitSequence.InitSucceedsIff | platform/platform_config.c:110-134 | `NHAL_OK` exactly when the clock status is 0 and every pin's init and set-config succeed; then all 2·`PIN_TOTAL_NUM` calls were made and every resource ends `Configured` |
| InitSequence.ClockFailureStopsFirst | platform/platform_config.c:110-112 | a run makes no driver call exactly when the clock fails; then it returns `NHAL_ERR_HW_FAILURE` and changes no stage |
| InitSequence.FailFast | platform/platform_config.c:122-132 | a failing pin loop stops at the first failing index k and returns that call's result; set-config at k happens exactly when init at k succeeded; no index above k is touched; indices below k stay `Configured` (no rollback); indices above k keep their stage |
| InitSequence.StagesOnlyAdvance | platform/platform_config.c:122-132 | no run moves a resource back to an earlier stage |
| InitSequence.AllSucceed | platform/platform_config.c:104-135 | on a fresh board where everything succeeds: `NHAL_OK`, the eight calls in exact order, and all four resources `Configured` |
| InitSequence.ConfigFailsAtIndexTwo | platform/platform_config.c:128-131 | on a fresh board where set-config fails with `e` at index 2: `e` is returned, after six calls in order; resources 0 and 1 are `Configured`, 2 is `ContextBound` and 3 is `Declared` |

## Left out

- Clock bring-up (`stm32f103_get_default_72mhz_config`, `stm32f103_clock_init`) is modelled only by the status word it returns. The clock configuration itself is hardware-specific.
- The debug UART (`stm32f103_uart_debug_init`) is I/O, and the code ignores its result. It has no effect on the outcome.
- The internals of `nhal_pin_init` and `nhal_pin_set_config` belong to a foreign library. They are oracle answers. The model does not capture any write the driver makes into a context's fields. A failed driver call is assumed to leave the resource's stage unchanged.
- The values of the STM32F103 port and pin constants and the NHAL enumerations come from headers that are not part of this model. Ports, directions, pull modes and trigger modes are symbolic. Trigger modes other than NONE are an opaque code.
- Platform.constructor: the values of zero-initialised static storage before `setup_pin_mappings` depend on the C enumerations' zero values, which the model does not know. The constructor therefore promises nothing about the initial table contents.
- Register effects, interrupt delivery and callbacks are not modelled, and neither is concurrent access to a context. The callback fields are only set to their neutral values.
- Proofs treat the accessor's result as a slot index. Aliasing of the returned pointer and writes through it by application code are not modelled.
- `src/main.c` is a demonstration application (blink loop, delays, pin state I/O, halting on failure). It is not part of this model.
- A stage is the state of the driver and hardware, not of the context record. `setup_pin_contexts` resets the contexts but not the stages. If `platform_init` is called a second time, a resource keeps the stage it reached in the first call, even when its context has just been reset and its init now fails. `src/main.c` calls `platform_init` only once.
- Negative `pin_func_t` values are not modelled, because the enumeration is unsigned.
