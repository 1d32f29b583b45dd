/**
  The breakpoints and options of the debugger feature.
 */
module DebuggerTypes {
  /** What the configuration keeps of a breakpoint. */
  datatype Breakpoint = Breakpoint(
    filename: string, lineNumber: int, isEnabled: bool, breakpointType: string, exception_: string,
    expression: string, function_: string, hitCondition: string, hitValue: int)

  const NO_BREAKPOINT := Breakpoint("", 0, false, "", "", "", "", "", 0)

  /** `breakpointId` is the engine's name for the breakpoint, `transactionId` that of the command that set it. */
  datatype BreakpointWithHandle = BreakpointWithHandle(
    breakpoint: Breakpoint, breakpointId: string, hitCount: int, handle: int, transactionId: string)

  datatype Options = Options(
    port: int, maxChildren: int, maxDepth: int, doListenOnAppReady: bool, doBreakOnStart: bool,
    sourceCodeMappings: map<string, string>)

  // ---------------------------------------------------------------- numbers in names

  function Digit(d: nat): char
    requires d < 10
  {
    "0123456789"[d]
  }

  /** The conversion %d of a number that is not negative. */
  function Decimal(n: nat): (s: string)
    ensures s != ""
  {
    if n < 10 then [Digit(n)] else Decimal(n / 10) + [Digit(n % 10)]
  }

  /** The number that a string of digits is read as. */
  function ValueOf(s: string): int {
    if s == "" then 0 else 10 * ValueOf(s[..|s| - 1]) + (s[|s| - 1] as int - '0' as int)
  }

  /** It is written in digits, without a leading zero, and read back. */
  lemma {:induction false} DecimalReads(n: nat)
    ensures ValueOf(Decimal(n)) == n
    ensures forall k :: 0 <= k < |Decimal(n)| ==> '0' <= Decimal(n)[k] <= '9'
    ensures n > 0 ==> Decimal(n)[0] != '0'
  {
    var s := Decimal(n);
    if n >= 10 {
      DecimalReads(n / 10);
      assert s[..|s| - 1] == Decimal(n / 10);
    } else {
      assert s[..0] == "" && ValueOf("") == 0;
    }
  }

  /** Different numbers are written differently. */
  lemma DecimalInjective(a: nat, b: nat)
    requires Decimal(a) == Decimal(b)
    ensures a == b
  {
    DecimalReads(a);
    DecimalReads(b);
  }
}
