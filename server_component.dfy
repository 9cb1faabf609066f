/**
 * The constant tables every AAFS server component knows: opcodes, special
 * execution times and result codes, and the functions that name them.
 */
module ServerComponent {

  //----- Opcodes -----

  const OPCODE_MIN := 1
  const OPCODE_NO_OP := 1
  const OPCODE_SHUTDOWN := 2
  const OPCODE_CON_MESSAGE := 3
  const OPCODE_GEN_FORECAST := 4
  const OPCODE_GEN_PDL_REPORT := 5
  const OPCODE_GEN_EXPIRE := 6
  const OPCODE_INTAKE_SYNC := 7
  const OPCODE_INTAKE_PDL := 8
  const OPCODE_ANALYST_INTERVENE := 9
  const OPCODE_UNKNOWN := 10
  const OPCODE_MAX := 10

  //----- Special execution times -----

  const EXEC_TIME_ACTIVE := 0
  const EXEC_TIME_MIN_WAITING := 1
  const EXEC_TIME_MIN_PROMPT := 10000000
  const EXEC_TIME_MAX_PROMPT := 19000000
  const EXEC_TIME_SHUTDOWN := 20000000
  const EXEC_TIME_FAR_FUTURE := 1000000000000000

  //----- Result codes -----

  const RESCODE_MIN := 1
  const RESCODE_SUCCESS := 1
  const RESCODE_TASK_CORRUPT := 2
  const RESCODE_TIMELINE_CORRUPT := 3
  const RESCODE_TIMELINE_NOT_FOUND := 4
  const RESCODE_TIMELINE_NOT_ACTIVE := 5
  const RESCODE_TIMELINE_TASK_MISMATCH := 6
  const RESCODE_TIMELINE_COMCAT_FAIL := 7
  const RESCODE_TIMELINE_WITHDRAW := 8
  const RESCODE_TIMELINE_FORESHOCK := 9
  const RESCODE_TIMELINE_NOT_PDL_PEND := 10
  const RESCODE_TIMELINE_PDL_FAIL := 11
  const RESCODE_TIMELINE_EXISTS := 12
  const RESCODE_TASK_RETRY_SUCCESS := 13
  const RESCODE_TIMELINE_STATE_UPDATE := 14
  const RESCODE_INTAKE_COMCAT_FAIL := 15
  const RESCODE_TIMELINE_ANALYST_SET := 16
  const RESCODE_TIMELINE_ANALYST_FAIL := 17
  const RESCODE_TIMELINE_ANALYST_NONE := 18
  const RESCODE_MAX := 18

  /** Special result code: delete the current task without logging it. */
  const RESCODE_DELETE := -1
  /** Special result code: stage the current task so that it executes again. */
  const RESCODE_STAGE := -2

  //----- Special ids -----

  const EVID_SHUTDOWN := "===shutdown==="
  const SUBID_AAFS := "AAFS"

  //----- Decimal rendering of an int, as Java's string concatenation does it -----

  function DigitChar(d: nat): (c: char)
    requires d < 10
    ensures '0' <= c <= '9' && (c as int) - ('0' as int) == d
  {
    ('0' as int + d) as char
  }

  function NatToString(n: nat): string
    decreases n
  {
    if n < 10 then [DigitChar(n)] else NatToString(n / 10) + [DigitChar(n % 10)]
  }

  function IntToString(x: int): string
  {
    if x < 0 then "-" + NatToString(-x) else NatToString(x)
  }

  predicate AllDigits(s: string)
  {
    forall i :: 0 <= i < |s| ==> '0' <= s[i] <= '9'
  }

  /** The value of a string of decimal digits. */
  function DigitsValue(s: string): int
    requires AllDigits(s)
  {
    if |s| == 0 then 0 else DigitsValue(s[..|s| - 1]) * 10 + ((s[|s| - 1] as int) - ('0' as int))
  }

  /** The rendering of a natural number is a non-empty digit string that reads back as that number. */
  lemma {:induction false} NatToStringReadsBack(n: nat)
    ensures |NatToString(n)| > 0 && AllDigits(NatToString(n))
    ensures DigitsValue(NatToString(n)) == n
  {
    if n >= 10 {
      NatToStringReadsBack(n / 10);
      var s := NatToString(n);
      assert s[..|s| - 1] == NatToString(n / 10);
    }
  }

  /** Distinct ints are rendered as distinct strings. */
  lemma IntToStringInjective(x: int, y: int)
    requires IntToString(x) == IntToString(y)
    ensures x == y
  {
    NatToStringReadsBack(if x < 0 then -x else x);
    NatToStringReadsBack(if y < 0 then -y else y);
    assert IntToString(x)[0] == '-' <==> x < 0;
    assert IntToString(y)[0] == '-' <==> y < 0;
    if x < 0 {
      assert NatToString(-x) == IntToString(x)[1..];
      assert NatToString(-y) == IntToString(y)[1..];
    }
  }

  //----- Names -----

  /** The text of an invalid code: the prefix, the decimal value, and a closing parenthesis. */
  function InvalidName(prefix: string, x: int): string
  {
    prefix + IntToString(x) + ")"
  }

  lemma InvalidNameInjective(prefix: string, x: int, y: int)
    requires InvalidName(prefix, x) == InvalidName(prefix, y)
    ensures x == y
  {
    var a, b := InvalidName(prefix, x), InvalidName(prefix, y);
    assert IntToString(x) == a[|prefix|..|a| - 1];
    assert IntToString(y) == b[|prefix|..|b| - 1];
    IntToStringInjective(x, y);
  }

  predicate IsOpcode(x: int)
  {
    OPCODE_MIN <= x <= OPCODE_MAX
  }

  /** The name of an opcode, or OPCODE_INVALID(x) for any other value. */
  function OpcodeName(x: int): (r: string)
    ensures |r| > 0 && (IsOpcode(x) <==> r[|r| - 1] != ')')
    ensures !IsOpcode(x) ==> r == InvalidName("OPCODE_INVALID(", x)
  {
    match x
    case 1 => "OPCODE_NO_OP"
    case 2 => "OPCODE_SHUTDOWN"
    case 3 => "OPCODE_CON_MESSAGE"
    case 4 => "OPCODE_GEN_FORECAST"
    case 5 => "OPCODE_GEN_PDL_REPORT"
    case 6 => "OPCODE_GEN_EXPIRE"
    case 7 => "OPCODE_INTAKE_SYNC"
    case 8 => "OPCODE_INTAKE_PDL"
    case 9 => "OPCODE_ANALYST_INTERVENE"
    case 10 => "OPCODE_UNKNOWN"
    case _ => InvalidName("OPCODE_INVALID(", x)
  }

  /** Every value, valid or not, gets its own opcode name. */
  lemma OpcodeNameInjective(x: int, y: int)
    requires OpcodeName(x) == OpcodeName(y)
    ensures x == y
  {
    if !IsOpcode(x) && !IsOpcode(y) {
      InvalidNameInjective("OPCODE_INVALID(", x, y);
    }
  }

  predicate IsLoggedRescode(x: int)
  {
    RESCODE_MIN <= x <= RESCODE_MAX
  }

  /** A code with a name of its own: a logged code or one of the two special codes. */
  predicate IsKnownRescode(x: int)
  {
    IsLoggedRescode(x) || x == RESCODE_DELETE || x == RESCODE_STAGE
  }

  /** The name of a result code, or RESCODE_INVALID(x) for any other value. */
  function RescodeName(x: int): (r: string)
    ensures |r| > 0 && (IsKnownRescode(x) <==> r[|r| - 1] != ')')
    ensures !IsKnownRescode(x) ==> r == InvalidName("RESCODE_INVALID(", x)
  {
    match x
    case 1 => "RESCODE_SUCCESS"
    case 2 => "RESCODE_TASK_CORRUPT"
    case 3 => "RESCODE_TIMELINE_CORRUPT"
    case 4 => "RESCODE_TIMELINE_NOT_FOUND"
    case 5 => "RESCODE_TIMELINE_NOT_ACTIVE"
    case 6 => "RESCODE_TIMELINE_TASK_MISMATCH"
    case 7 => "RESCODE_TIMELINE_COMCAT_FAIL"
    case 8 => "RESCODE_TIMELINE_WITHDRAW"
    case 9 => "RESCODE_TIMELINE_FORESHOCK"
    case 10 => "RESCODE_TIMELINE_NOT_PDL_PEND"
    case 11 => "RESCODE_TIMELINE_PDL_FAIL"
    case 12 => "RESCODE_TIMELINE_EXISTS"
    case 13 => "RESCODE_TASK_RETRY_SUCCESS"
    case 14 => "RESCODE_TIMELINE_STATE_UPDATE"
    case 15 => "RESCODE_INTAKE_COMCAT_FAIL"
    case 16 => "RESCODE_TIMELINE_ANALYST_SET"
    case 17 => "RESCODE_TIMELINE_ANALYST_FAIL"
    case 18 => "RESCODE_TIMELINE_ANALYST_NONE"
    case -1 => "RESCODE_DELETE"
    case -2 => "RESCODE_STAGE"
    case _ => InvalidName("RESCODE_INVALID(", x)
  }

  /**
   * The known code a name of at least 13 characters stands for, read off its
   * length and the letters where names of equal length first differ.
   */
  ghost function KnownRescodeOf(s: string): int
    requires |s| >= 13
  {
    match |s|
    case 13 => RESCODE_STAGE
    case 14 => RESCODE_DELETE
    case 15 => RESCODE_SUCCESS
    case 20 => RESCODE_TASK_CORRUPT
    case 23 => RESCODE_TIMELINE_EXISTS
    case 24 => RESCODE_TIMELINE_CORRUPT
    case 25 => if s[17] == 'W' then RESCODE_TIMELINE_WITHDRAW else RESCODE_TIMELINE_PDL_FAIL
    case 26 =>
      if s[8] == 'I' then RESCODE_INTAKE_COMCAT_FAIL
      else if s[9] == 'A' then RESCODE_TASK_RETRY_SUCCESS
      else if s[17] == 'N' then RESCODE_TIMELINE_NOT_FOUND
      else RESCODE_TIMELINE_FORESHOCK
    case 27 => RESCODE_TIMELINE_NOT_ACTIVE
    case 28 => if s[17] == 'C' then RESCODE_TIMELINE_COMCAT_FAIL else RESCODE_TIMELINE_ANALYST_SET
    case 29 =>
      if s[17] == 'N' then RESCODE_TIMELINE_NOT_PDL_PEND
      else if s[17] == 'S' then RESCODE_TIMELINE_STATE_UPDATE
      else if s[25] == 'F' then RESCODE_TIMELINE_ANALYST_FAIL
      else RESCODE_TIMELINE_ANALYST_NONE
    case 30 => RESCODE_TIMELINE_TASK_MISMATCH
    case _ => 0
  }

  lemma KnownRescodeNameDecodes(x: int)
    requires IsKnownRescode(x)
    ensures |RescodeName(x)| >= 13 && KnownRescodeOf(RescodeName(x)) == x
  {
  }

  /** Every value, known or not, gets its own result-code name. */
  lemma RescodeNameInjective(x: int, y: int)
    requires RescodeName(x) == RescodeName(y)
    ensures x == y
  {
    if !IsKnownRescode(x) && !IsKnownRescode(y) {
      InvalidNameInjective("RESCODE_INVALID(", x, y);
    } else if IsKnownRescode(x) && IsKnownRescode(y) {
      KnownRescodeNameDecodes(x);
      KnownRescodeNameDecodes(y);
    }
  }

  /** The two special codes lie outside the range of logged codes, so they are never logged. */
  lemma SpecialCodesNotLogged()
    ensures !IsLoggedRescode(RESCODE_DELETE) && !IsLoggedRescode(RESCODE_STAGE)
    ensures RESCODE_DELETE != RESCODE_STAGE
  {
  }

  /** The special execution times are strictly ordered. */
  lemma ExecTimesOrdered()
    ensures EXEC_TIME_ACTIVE < EXEC_TIME_MIN_WAITING < EXEC_TIME_MIN_PROMPT
    ensures EXEC_TIME_MIN_PROMPT < EXEC_TIME_MAX_PROMPT < EXEC_TIME_SHUTDOWN < EXEC_TIME_FAR_FUTURE
  {
  }

  /** Every named opcode constant lies in [OPCODE_MIN, OPCODE_MAX]. */
  lemma OpcodesInRange()
    ensures IsOpcode(OPCODE_NO_OP) && IsOpcode(OPCODE_SHUTDOWN) && IsOpcode(OPCODE_CON_MESSAGE)
    ensures IsOpcode(OPCODE_GEN_FORECAST) && IsOpcode(OPCODE_GEN_PDL_REPORT) && IsOpcode(OPCODE_GEN_EXPIRE)
    ensures IsOpcode(OPCODE_INTAKE_SYNC) && IsOpcode(OPCODE_INTAKE_PDL)
    ensures IsOpcode(OPCODE_ANALYST_INTERVENE) && IsOpcode(OPCODE_UNKNOWN)
  {
  }
}
