/**
 * The public interface of the board layer (include/platform_config.h): the
 * closed set of logical pin roles, their integer values, and the sentinel
 * that gives the size of every table.
 */
module PlatformConfigH {
  import opened Nhal

  /** `PIN_TOTAL_NUM`: the number of logical pins, and the size of every table. */
  const PinTotalNum: nat := 4

  /** A valid table index, that is a value of `pin_func_t` below the sentinel. */
  type PinIndex = n: nat | n < PinTotalNum

  /** The logical pin roles of the board, in declaration order. */
  datatype PinFunc = LedBuiltin | UserButton | DebugOutput | TestInput

  /** The integer value of a role in `pin_func_t` (enumerators count up from 0). */
  function Ordinal(f: PinFunc): (n: nat)
    ensures n < PinTotalNum
  {
    match f
    case LedBuiltin => 0
    case UserButton => 1
    case DebugOutput => 2
    case TestInput => 3
  }

  /** The role a `pin_func_t` value names, or `None` for the sentinel and anything above it. */
  function FromOrdinal(n: nat): (r: Option<PinFunc>)
    ensures r.Some? <==> n < PinTotalNum
    ensures r.Some? ==> Ordinal(r.value) == n
  {
    if n == 0 then Some(LedBuiltin)
    else if n == 1 then Some(UserButton)
    else if n == 2 then Some(DebugOutput)
    else if n == 3 then Some(TestInput)
    else None
  }

  /** The role whose value is table index `i`. */
  function RoleOf(i: PinIndex): (f: PinFunc)
    ensures Ordinal(f) == i
  {
    FromOrdinal(i).value
  }

  /** Distinct roles have distinct values, and every value names its own role back. */
  lemma OrdinalRoundTrip(f: PinFunc, g: PinFunc)
    ensures FromOrdinal(Ordinal(f)) == Some(f)
    ensures f != g ==> Ordinal(f) != Ordinal(g)
  {
    match f
    case LedBuiltin =>
    case UserButton =>
    case DebugOutput =>
    case TestInput =>
  }

  /** The roles cover the table indices exactly: every index below the sentinel is one role's value. */
  lemma OrdinalOnto(n: nat)
    ensures n < PinTotalNum <==> exists f: PinFunc :: Ordinal(f) == n
  {
    if n < PinTotalNum {
      assert Ordinal(FromOrdinal(n).value) == n;
    }
  }
}
