/** Python's int() applied to a string, restricted to plain decimal literals:
    an optional '+' or '-' followed by one or more ASCII digits. */
module Literals {
  import opened Outcomes

  predicate IsDigit(c: char) { '0' <= c <= '9' }

  function DigitValue(c: char): (d: nat)
    requires IsDigit(c)
    ensures d < 10
  {
    c as int - '0' as int
  }

  predicate AllDigits(s: string) {
    forall i :: 0 <= i < |s| ==> IsDigit(s[i])
  }

  function Pow10(n: nat): nat {
    if n == 0 then 1 else 10 * Pow10(n - 1)
  }

  /** Positional value of a digit string: the first digit weighs 10^(|s|-1). */
  function DigitsValue(s: string): nat
    requires AllDigits(s)
  {
    if s == [] then 0 else DigitValue(s[0]) * Pow10(|s| - 1) + DigitsValue(s[1..])
  }

  predicate HasSign(s: string) {
    |s| > 0 && (s[0] == '+' || s[0] == '-')
  }

  /** The string without its leading sign, if it has one. */
  function Unsigned(s: string): string {
    if HasSign(s) then s[1..] else s
  }

  /** CPython's default limit on the number of digits int() converts from a
      decimal string (sys.get_int_max_str_digits()); longer strings raise ValueError. */
  const MaxStrDigits := 4300

  /** The strings int() accepts in this model. */
  predicate IsIntLiteral(s: string) {
    0 < |Unsigned(s)| <= MaxStrDigits && AllDigits(Unsigned(s))
  }

  /** The integer a decimal literal denotes. */
  function LiteralValue(s: string): int
    requires IsIntLiteral(s)
  {
    var v: int := DigitsValue(Unsigned(s));
    if s[0] == '-' then -v else v
  }

  /** A digit followed by a digit string is a digit string. */
  lemma AllDigitsCons(s: string)
    requires |s| > 0
    ensures AllDigits(s) <==> IsDigit(s[0]) && AllDigits(s[1..])
  {
    if IsDigit(s[0]) && AllDigits(s[1..]) {
      forall i | 0 < i < |s| ensures IsDigit(s[i]) {
        assert s[i] == s[1..][i - 1];
      }
    }
  }

  /** One step of the left-to-right fold moves the leading digit into the accumulator. */
  lemma FoldStep(acc: nat, d: nat, n: nat, rest: nat)
    ensures (10 * acc + d) * Pow10(n) + rest == acc * Pow10(n + 1) + (d * Pow10(n) + rest)
  {
    assert Pow10(n + 1) == 10 * Pow10(n);
    assert (10 * acc + d) * Pow10(n) == acc * (10 * Pow10(n)) + d * Pow10(n);
  }

  /** Reads digits from left to right, folding each into the accumulator
      as acc * 10 + digit; fails on the first non-digit. */
  function ScanDigits(s: string, acc: nat): (r: Option<nat>)
    ensures r.Some? <==> AllDigits(s)
    ensures r.Some? ==> r.value == acc * Pow10(|s|) + DigitsValue(s)
  {
    if s == [] then Some(acc)
    else
      AllDigitsCons(s);
      if !IsDigit(s[0]) then None
      else
        var r := ScanDigits(s[1..], 10 * acc + DigitValue(s[0]));
        if r.None? then r
        else
          FoldStep(acc, DigitValue(s[0]), |s| - 1, DigitsValue(s[1..]));
          r
  }

  /** int(s): the literal's value, or None where int() raises ValueError. */
  function ParseInt(s: string): (r: Option<int>)
    ensures r.Some? <==> IsIntLiteral(s)
    ensures r.Some? ==> r.value == LiteralValue(s)
  {
    var digits := Unsigned(s);
    if digits == [] || |digits| > MaxStrDigits then None
    else match ScanDigits(digits, 0)
      case None => None
      case Some(v) =>
        var n: int := v;
        Some(if s[0] == '-' then -n else n)
  }

  /** A digit string over the digit limit is refused, however it is signed. */
  lemma TooManyDigitsRejected(s: string)
    requires |Unsigned(s)| > MaxStrDigits
    ensures ParseInt(s) == None
  {
  }

  /** Sample inputs: a plain literal, signed ones, leading zeros, and rejects. */
  lemma ParseIntExamples()
    ensures ParseInt("42") == Some(42)
    ensures ParseInt("-7") == Some(-7)
    ensures ParseInt("+007") == Some(7)
    ensures ParseInt("abc") == None
    ensures ParseInt("3.14") == None
    ensures ParseInt("") == None
    ensures ParseInt("-") == None
  {
    assert !IsDigit("abc"[0]);
    assert !IsDigit("3.14"[1]);
    assert DigitsValue("42") == 42 by {
      assert "42"[1..] == "2";
      assert "2"[1..] == "";
    }
    assert Unsigned("-7") == "7";
    assert DigitsValue("7") == 7 by { assert "7"[1..] == ""; }
    assert Unsigned("+007") == "007";
    assert DigitsValue("007") == 7 by {
      assert "007"[1..] == "07";
      assert "07"[1..] == "7";
      assert "7"[1..] == "";
    }
  }
}
