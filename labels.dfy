/** The label and CSS-class helpers of the entry list: `getLevelClass`,
    `getThreadClass` and `getThreadText`. Their callers cast the raw `l` and `w`
    fields of an entry without checking them, so the helpers here accept any string
    and any integer. */
module Labels {

  import opened Options
  import opened Entries

  const LevelClassPrefix: string := "col-level-"
  const ThreadClassPrefix: string := "col-thread-"

  /** `getLevelClass(level)`: the template string `col-level-${level}`, which is the
      fixed prefix followed by the level verbatim. */
  function LevelClass(level: string): (c: string)
    ensures |c| == |LevelClassPrefix| + |level|
    ensures c[..|LevelClassPrefix|] == LevelClassPrefix
    ensures c[|LevelClassPrefix|..] == level
  {
    LevelClassPrefix + level
  }

  /** The class names of two levels coincide only when the levels do: every level
      gets a style of its own. */
  lemma LevelClassInjective(a: string, b: string)
    ensures LevelClass(a) == LevelClass(b) <==> a == b
  {
  }

  // Decimal rendering of integers, as a template string shows a JavaScript number
  // that holds an integer.

  predicate IsDigit(c: char)
  {
    '0' <= c <= '9'
  }

  function DigitChar(d: int): (c: char)
    requires 0 <= d <= 9
    ensures IsDigit(c)
  {
    ['0', '1', '2', '3', '4', '5', '6', '7', '8', '9'][d]
  }

  function DigitValue(c: char): (d: int)
    requires IsDigit(c)
    ensures 0 <= d <= 9
  {
    c as int - '0' as int
  }

  /** The digits of `n`, most significant first, with no leading zero. */
  function NatDecimal(n: nat): (s: string)
    ensures |s| >= 1
    ensures forall i :: 0 <= i < |s| ==> IsDigit(s[i])
    ensures |s| > 1 ==> s[0] != '0'
  {
    if n < 10 then [DigitChar(n)] else NatDecimal(n / 10) + [DigitChar(n % 10)]
  }

  /** `${n}` for an integer `n`: a minus sign before the digits of a negative number. */
  function IntDecimal(n: int): (s: string)
    ensures IsSignedDecimal(s)
    ensures s[0] == '-' <==> n < 0
  {
    if n < 0 then "-" + NatDecimal(-n) else NatDecimal(n)
  }

  /** Reads a non-empty string of digits back as a number: the partner of `NatDecimal`. */
  function ParseNat(s: string): nat
    requires |s| >= 1 && forall i :: 0 <= i < |s| ==> IsDigit(s[i])
  {
    if |s| == 1 then DigitValue(s[0])
    else ParseNat(s[..|s| - 1]) * 10 + DigitValue(s[|s| - 1])
  }

  /** A non-empty string of digits, optionally after a minus sign. */
  predicate IsSignedDecimal(s: string)
  {
    |s| >= 1 &&
    (s[0] == '-' ==> |s| >= 2 && forall i :: 1 <= i < |s| ==> IsDigit(s[i])) &&
    (s[0] != '-' ==> forall i :: 0 <= i < |s| ==> IsDigit(s[i]))
  }

  /** Reads an optionally signed decimal back as an integer: the partner of `IntDecimal`. */
  function ParseInt(s: string): int
    requires IsSignedDecimal(s)
  {
    if s[0] == '-' then -(ParseNat(s[1..]) as int) else ParseNat(s)
  }

  lemma {:induction false} ParseNatDecimal(n: nat)
    ensures ParseNat(NatDecimal(n)) == n
  {
    if n >= 10 {
      var s := NatDecimal(n);
      assert s[..|s| - 1] == NatDecimal(n / 10);
      ParseNatDecimal(n / 10);
    }
  }

  lemma ParseIntDecimal(n: int)
    ensures ParseInt(IntDecimal(n)) == n
  {
    if n < 0 {
      var digits := NatDecimal(-n);
      assert IntDecimal(n) == "-" + digits;
      assert ("-" + digits)[1..] == digits;
      ParseNatDecimal(-n);
    } else {
      ParseNatDecimal(n);
    }
  }

  /** `getThreadClass(thread)`: the template string `col-thread-${thread}`, which is
      the fixed prefix followed by the code in decimal; the code reads back from it. */
  function ThreadClass(thread: int): (c: string)
    ensures |c| > |ThreadClassPrefix| && c[..|ThreadClassPrefix|] == ThreadClassPrefix
    ensures IsSignedDecimal(c[|ThreadClassPrefix|..])
    ensures ParseInt(c[|ThreadClassPrefix|..]) == thread
  {
    var c := ThreadClassPrefix + IntDecimal(thread);
    assert c[|ThreadClassPrefix|..] == IntDecimal(thread);
    ParseIntDecimal(thread);
    c
  }

  /** The class names of two worker codes coincide only when the codes do. */
  lemma ThreadClassInjective(a: int, b: int)
    ensures ThreadClass(a) == ThreadClass(b) <==> a == b
  {
  }

  /** `getThreadText(thread)`: the display label of a worker; `None` (`undefined`,
      the switch falling through) for any code outside the enumeration. */
  function ThreadText(thread: int): (r: Option<string>)
    ensures r.Some? <==> thread in WorkerCodes
  {
    match thread
    case 0 => Some("\U{26EA} MAIN")
    case 1 => Some("\U{1F47D} STRA")
    case 2 => Some("\U{1F4DE} COMM")
    case 3 => Some("\U{231B} API")
    case _ => None
  }

  /** The four workers have four different labels. */
  lemma ThreadTextDistinct(a: Worker, b: Worker)
    ensures ThreadText(a) == ThreadText(b) <==> a == b
  {
  }

}
