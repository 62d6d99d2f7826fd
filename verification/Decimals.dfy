/** Unsigned decimal numbers: as printf writes them, and as dpkg reads the digits of a version. */
module Decimals {

  predicate IsDigit(c: char) {
    '0' <= c <= '9'
  }

  predicate AllDigits(s: string) {
    forall i | 0 <= i < |s| :: IsDigit(s[i])
  }

  /** Numeric value; an empty part counts as zero. */
  function Value(digits: string): nat {
    if digits == "" then 0
    else
      var c := digits[|digits| - 1];
      10 * Value(digits[..|digits| - 1]) + if IsDigit(c) then c as int - '0' as int else 0
  }

  function Digits(n: nat): (s: string)
    ensures s != "" && AllDigits(s)
  {
    (if n < 10 then "" else Digits(n / 10)) + [LastOf(n)]
  }

  function LastOf(n: nat): (c: char)
    ensures IsDigit(c) && c as int == '0' as int + n % 10
  {
    ('0' as int + n % 10) as char
  }

  /** The positional system, from the left. */
  lemma OneMoreDigit(s: string, c: char)
    ensures Value("") == 0
    ensures '0' <= c <= '9' ==> Value(s + [c]) == 10 * Value(s) + (c as int - '0' as int)
  {
    assert (s + [c])[..|s|] == s;
  }

  /** What is written reads as what was to be written, and is the shortest text that does. */
  lemma {:induction false} DigitsRead(n: nat)
    ensures Value(Digits(n)) == n
    ensures forall i | 0 <= i < |Digits(n)| :: '0' <= Digits(n)[i] <= '9'
    ensures |Digits(n)| > 1 || n > 0 ==> Digits(n)[0] != '0'
  {
    if n < 10 {
      OneMoreDigit("", LastOf(n));
      assert "" + [LastOf(n)] == [LastOf(n)];
    } else {
      DigitsRead(n / 10);
      OneMoreDigit(Digits(n / 10), LastOf(n));
    }
  }

  lemma {:induction false} ZerosIgnored(s: string)
    ensures Value("0" + s) == Value(s)
  {
    if s == "" {
      OneMoreDigit("", '0');
      assert "" + ['0'] == "0" + s;
    } else {
      assert ("0" + s)[..|s|] == "0" + s[..|s| - 1];
      ZerosIgnored(s[..|s| - 1]);
    }
  }

  /** Of two texts of one length the first different digit decides. */
  lemma {:induction false} FirstDigitDecides(a: string, b: string, i: nat)
    requires AllDigits(a) && AllDigits(b) && |a| == |b| && i < |a|
    requires a[..i] == b[..i] && a[i] < b[i]
    ensures Value(a) < Value(b)
    decreases |a|
  {
    if i < |a| - 1 {
      var a', b' := a[..|a| - 1], b[..|b| - 1];
      assert a'[..i] == a[..i] && b'[..i] == b[..i];
      FirstDigitDecides(a', b', i);
    }
  }
}
