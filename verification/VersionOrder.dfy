/** How dpkg orders version strings that have neither an epoch nor a revision: section 5.6.12 of the
    Debian Policy Manual.  Proved to be a total preorder, with the facts about prefixes and suffixes
    that package versions built by appending rely on. */
module VersionOrder {
  import opened Decimals

  predicate IsLetter(c: char) {
    'A' <= c <= 'Z' || 'a' <= c <= 'z'
  }

  /** Letters sort before non-letters, a tilde before everything, even the end of a part, which weighs 0. */
  function Weight(c: char): int {
    if c == '~' then -1 else if IsLetter(c) then c as int else c as int + 256
  }

  /** Length of the initial part without digits. */
  function TextLen(s: string): (n: nat)
    ensures n <= |s|
    ensures forall i | 0 <= i < n :: !IsDigit(s[i])
    ensures n < |s| ==> IsDigit(s[n])
  {
    if s == "" || IsDigit(s[0]) then 0 else 1 + TextLen(s[1..])
  }

  /** Length of the initial part of digits. */
  function DigitLen(s: string): (n: nat)
    ensures n <= |s|
    ensures forall i | 0 <= i < n :: IsDigit(s[i])
    ensures n < |s| ==> !IsDigit(s[n])
  {
    if s == "" || !IsDigit(s[0]) then 0 else 1 + DigitLen(s[1..])
  }

  /** The three parts one round of the comparison looks at and leaves. */
  function Text(s: string): string {
    s[..TextLen(s)]
  }

  function Number(s: string): string {
    var r := s[TextLen(s)..];
    r[..DigitLen(r)]
  }

  function Rest(s: string): string {
    var r := s[TextLen(s)..];
    r[DigitLen(r)..]
  }

  function Sign(a: int, b: int): int {
    if a < b then -1 else if a > b then 1 else 0
  }

  function FirstWeight(s: string): int {
    if s == "" then 0 else Weight(s[0])
  }

  function CompareText(a: string, b: string): int
    decreases |a| + |b|
  {
    if FirstWeight(a) != FirstWeight(b) then Sign(FirstWeight(a), FirstWeight(b))
    else if a == "" || b == "" then 0
    else CompareText(a[1..], b[1..])
  }

  function Compare(a: string, b: string): int
    decreases |a| + |b|
  {
    if a == "" && b == "" then 0
    else
      var text := CompareText(Text(a), Text(b));
      var number := Sign(Value(Number(a)), Value(Number(b)));
      if text != 0 then text
      else if number != 0 then number
      else
        RestShorter(a, b);
        Compare(Rest(a), Rest(b))
  }

  lemma RestShorter(a: string, b: string)
    requires a != "" || b != ""
    ensures |Rest(a)| + |Rest(b)| < |a| + |b|
  {
  }

  /** One round, also for empty strings. */
  lemma Round(a: string, b: string)
    ensures Compare(a, b) ==
            var text := CompareText(Text(a), Text(b));
            var number := Sign(Value(Number(a)), Value(Number(b)));
            if text != 0 then text else if number != 0 then number else Compare(Rest(a), Rest(b))
  {
    if a == "" && b == "" {
      assert Text(a) == Number(a) == Rest(a) == "";
    }
  }

  // ---------------------------------------------------------------- a total preorder

  lemma {:induction false} TextAntisymmetric(a: string, b: string)
    ensures CompareText(a, b) == -CompareText(b, a)
    decreases |a| + |b|
  {
    if FirstWeight(a) == FirstWeight(b) && a != "" && b != "" {
      TextAntisymmetric(a[1..], b[1..]);
    }
  }

  lemma {:induction false} TextTransitive(a: string, b: string, c: string)
    requires CompareText(a, b) <= 0 && CompareText(b, c) <= 0
    ensures CompareText(a, c) <= 0
    ensures CompareText(a, c) == 0 ==> CompareText(a, b) == 0 && CompareText(b, c) == 0
    decreases |a| + |b| + |c|
  {
    if a != "" && b != "" && c != "" && FirstWeight(a) == FirstWeight(b) == FirstWeight(c) {
      TextTransitive(a[1..], b[1..], c[1..]);
    }
  }

  lemma {:induction false} Antisymmetric(a: string, b: string)
    ensures Compare(a, b) == -Compare(b, a)
    decreases |a| + |b|
  {
    hide Compare, CompareText, Text, Number, Rest, Value;
    TextAntisymmetric(Text(a), Text(b));
    Round(a, b);
    Round(b, a);
    if a == "" && b == "" {
      EmptyEqual();
    } else {
      RestShorter(a, b);
      Antisymmetric(Rest(a), Rest(b));
    }
  }

  lemma {:induction false} Transitive(a: string, b: string, c: string)
    requires Compare(a, b) <= 0 && Compare(b, c) <= 0
    ensures Compare(a, c) <= 0
    ensures Compare(a, c) == 0 ==> Compare(a, b) == 0 && Compare(b, c) == 0
    decreases |a| + |b| + |c|
  {
    hide Compare, CompareText, Text, Number, Rest, Value;
    Round(a, b);
    Round(b, c);
    Round(a, c);
    TextTransitive(Text(a), Text(b), Text(c));
    if CompareText(Text(a), Text(c)) == 0 && Value(Number(a)) == Value(Number(b)) == Value(Number(c)) {
      if a == "" && b == "" && c == "" {
        EmptyEqual();
      } else {
        Consumed(a);
        Consumed(b);
        Consumed(c);
        Transitive(Rest(a), Rest(b), Rest(c));
      }
    }
  }

  lemma EmptyEqual()
    ensures Compare("", "") == 0
  {
  }

  lemma Consumed(s: string)
    ensures |Rest(s)| <= |s| && (s != "" ==> |Rest(s)| < |s|)
  {
  }

  // ---------------------------------------------------------------- appending

  predicate HasDigit(s: string) {
    TextLen(s) < |s|
  }

  lemma {:induction false} TextLenAppend(s: string, x: string)
    ensures TextLen(s + x) == if HasDigit(s) then TextLen(s) else |s| + TextLen(x)
  {
    if s == "" {
      assert s + x == x;
    } else if !IsDigit(s[0]) {
      assert (s + x)[1..] == s[1..] + x;
      TextLenAppend(s[1..], x);
    }
  }

  lemma {:induction false} DigitLenAppend(s: string, x: string)
    ensures DigitLen(s + x) == if DigitLen(s) < |s| then DigitLen(s) else |s| + DigitLen(x)
  {
    if s == "" {
      assert s + x == x;
    } else if IsDigit(s[0]) {
      assert (s + x)[1..] == s[1..] + x;
      DigitLenAppend(s[1..], x);
    }
  }

  /** A string with a digit keeps its first round when something is appended that does not carry on its
      last number. */
  lemma AppendRound(s: string, x: string)
    requires HasDigit(s) && (Rest(s) == "" ==> x == "" || !IsDigit(x[0]))
    ensures Text(s + x) == Text(s) && Number(s + x) == Number(s) && Rest(s + x) == Rest(s) + x
    ensures |Rest(s)| < |s|
  {
    var r := s[TextLen(s)..];
    TextLenAppend(s, x);
    DigitLenAppend(r, x);
    hide TextLen, DigitLen;
    SplitAppend(s, x, TextLen(s));
    SplitAppend(r, x, DigitLen(r));
  }

  lemma SplitAppend(s: string, x: string, n: nat)
    requires n <= |s|
    ensures (s + x)[..n] == s[..n] && (s + x)[n..] == s[n..] + x
  {
  }

  lemma SplitAt(s: string, n: nat)
    requires n <= |s|
    ensures s == s[..n] + s[n..]
  {
  }

  /** Appending to a string without digits. */
  lemma AppendText(s: string, x: string)
    requires !HasDigit(s)
    ensures Text(s + x) == s + Text(x) && Number(s + x) == Number(x) && Rest(s + x) == Rest(x)
  {
    TextLenAppend(s, x);
    assert (s + x)[TextLen(s + x)..] == x[TextLen(x)..];
  }

  lemma {:induction false} TextCancel(p: string, a: string, b: string)
    ensures CompareText(p + a, p + b) == CompareText(a, b)
  {
    if p == "" {
      assert p + a == a && p + b == b;
    } else {
      assert (p + a)[1..] == p[1..] + a && (p + b)[1..] == p[1..] + b;
      TextCancel(p[1..], a, b);
    }
  }

  lemma SameText(s: string)
    ensures CompareText(s, s) == 0
  {
    TextCancel(s, "", "");
    assert s + "" == s;
  }

  predicate EndsInText(p: string) {
    p == "" || !IsDigit(p[|p| - 1])
  }

  lemma RestKeepsEnd(p: string)
    requires HasDigit(p) && EndsInText(p)
    ensures EndsInText(Rest(p)) && Rest(p) != "" && |Rest(p)| < |p|
  {
  }

  /** A common beginning that does not end inside a number does not matter. */
  lemma {:induction false} PrefixCancel(p: string, a: string, b: string)
    requires EndsInText(p)
    ensures Compare(p + a, p + b) == Compare(a, b)
    decreases |p|
  {
    Round(p + a, p + b);
    if HasDigit(p) {
      RestKeepsEnd(p);
      AppendRound(p, a);
      AppendRound(p, b);
      SameText(Text(p));
      PrefixCancel(Rest(p), a, b);
    } else {
      AppendText(p, a);
      AppendText(p, b);
      TextCancel(p, Text(a), Text(b));
      Round(a, b);
    }
  }

  predicate StartsWithPlus(x: string) {
    x != "" && x[0] == '+'
  }

  /** A '+' suffix sorts above the string it is appended to, whatever that is. */
  lemma {:induction false} PlusAbove(s: string, x: string)
    requires StartsWithPlus(x)
    ensures Compare(s, s + x) == -1
    decreases |s|
  {
    Round(s, s + x);
    SameText(Text(s));
    if HasDigit(s) {
      AppendRound(s, x);
      PlusAbove(Rest(s), x);
    } else {
      AppendText(s, x);
      TextCancel(s, "", Text(x));
      assert Text(s) == s && s + "" == s;
      assert Text(x)[0] == '+';
    }
  }

  // ---------------------------------------------------------------- the policy's order, part by part

  /** Where both go on with a character that is no digit, these decide if they differ: a tilde is first,
      then letters, then the rest, by their codes. */
  lemma CharactersDecide(c: char, a: string, d: char, b: string)
    requires !('0' <= c <= '9') && !('0' <= d <= '9') && c != d
    ensures var letter, letter' := 'A' <= c <= 'Z' || 'a' <= c <= 'z', 'A' <= d <= 'Z' || 'a' <= d <= 'z';
            Compare([c] + a, [d] + b) ==
            if c == '~' || (d != '~' && (if letter == letter' then c < d else letter)) then -1 else 1
  {
    var s, t := [c] + a, [d] + b;
    Round(s, t);
    assert Text(s)[0] == c && Text(t)[0] == d;
  }

  /** Where one has ended, or goes on with a number, and the other has a character that is no digit: only a
      tilde is before that. */
  lemma EndDecides(s: string, d: char, b: string)
    requires (s == "" || '0' <= s[0] <= '9') && !('0' <= d <= '9')
    ensures Compare(s, [d] + b) == if d == '~' then 1 else -1
  {
    var t := [d] + b;
    Round(s, t);
    assert Text(s) == "" && Text(t)[0] == d;
  }

  /** Where neither does, the numbers decide if they differ, and the end counts as zero; if not, whatever
      follows them. */
  lemma NumbersDecide(m: string, a: string, n: string, b: string)
    requires AllDigits(m) && (a == "" || (m != "" && !IsDigit(a[0])))
    requires AllDigits(n) && (b == "" || (n != "" && !IsDigit(b[0])))
    ensures Compare(m + a, n + b) ==
            if Value(m) < Value(n) then -1 else if Value(m) > Value(n) then 1 else Compare(a, b)
  {
    SplitNumber(m, a);
    SplitNumber(n, b);
    hide Text, Number, Rest, Value, Compare;
    Round(m + a, n + b);
    SameText("");
  }

  lemma SplitNumber(m: string, a: string)
    requires AllDigits(m) && (a == "" || (m != "" && !IsDigit(a[0])))
    ensures Text(m + a) == "" && Number(m + a) == m && Rest(m + a) == a
  {
    AllOfThem(m);
    DigitLenAppend(m, a);
    assert TextLen(m + a) == 0;
    assert (m + a)[0..] == m + a && (m + a)[..|m|] == m && (m + a)[|m|..] == a;
  }

  lemma {:induction false} AllOfThem(s: string)
    requires AllDigits(s)
    ensures DigitLen(s) == |s|
  {
    if s != "" {
      AllOfThem(s[1..]);
    }
  }

  /** The policy's own example of a sorted list. */
  lemma PolicyExample()
    ensures Compare("~~", "~~a") == Compare("~~a", "~") == Compare("~", "") == Compare("", "a") == -1
  {
    hide Compare;
    EndDecides("", 'a', "");
    EndDecides("", '~', "a");
    EndDecides("", '~', "");
    PrefixCancel("~~", "", "a");
    PrefixCancel("~", "~a", "");
    Antisymmetric("", "~a");
    Antisymmetric("", "~");
    assert "~~" + "" == "~~" && "~~" + "a" == "~~a" && "~" + "~a" == "~~a" && "~" + "" == "~";
    assert ['a'] + "" == "a" && ['~'] + "a" == "~a" && ['~'] + "" == "~";
  }
}
