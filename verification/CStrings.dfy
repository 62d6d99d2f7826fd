/** Character buffers as C sees them. */
module CStrings {

  /** A terminated string's characters: none of them is the terminator. */
  type Text = s: string | '\0' !in s witness ""

  /** What a C function sees of a buffer. */
  function CString(s: seq<char>): (t: Text) {
    if s == [] || s[0] == '\0' then [] else [s[0]] + CString(s[1..])
  }

  lemma {:induction false} CStringTerminated(s: seq<char>, rest: seq<char>)
    ensures CString(s + ['\0'] + rest) == CString(s)
  {
    var all := s + ['\0'] + rest;
    if s != [] {
      assert all[1..] == s[1..] + ['\0'] + rest;
      CStringTerminated(s[1..], rest);
    }
  }

  lemma {:induction false} CStringWhole(s: Text)
    ensures CString(s) == s
  {
    if s != [] {
      CStringWhole(s[1..]);
    }
  }

  /** The first `n` characters, or all of them. */
  function Clipped(s: string, n: nat): string {
    if |s| <= n then s else s[..n]
  }

  /** The buffer holds the text as far as it has room, terminated. */
  ghost predicate Holds(buf: seq<char>, s: string) {
    |buf| > 0 && var n := |Clipped(s, |buf| - 1)|; buf[..n] == Clipped(s, |buf| - 1) && buf[n] == '\0'
  }

  lemma HeldString(buf: seq<char>, s: Text)
    requires |buf| > 0
    requires var n := if |s| < |buf| then |s| else |buf| - 1; buf[..n] == s[..n] && buf[n] == '\0'
    ensures CString(buf) == if |s| < |buf| then s else s[..|buf| - 1]
    ensures CString(buf) == Clipped(s, |buf| - 1)
  {
    hide CString;
    var t := Clipped(s, |buf| - 1);
    CutAt(buf, t);
    CStringTerminated(t, buf[|t| + 1..]);
    NoTerminator(s, |buf| - 1);
    CStringWhole(t);
  }

  lemma NoTerminator(s: Text, n: nat)
    ensures '\0' !in Clipped(s, n)
  {
  }

  lemma CutAt(buf: seq<char>, t: string)
    requires |t| < |buf| && buf[..|t|] == t && buf[|t|] == '\0'
    ensures buf == t + ['\0'] + buf[|t| + 1..]
  {
  }

  lemma HoldsIs(buf: seq<char>, s: string)
    requires |buf| > 0
    ensures var n := if |s| < |buf| then |s| else |buf| - 1;
            Holds(buf, s) <==> buf[..n] == s[..n] && buf[n] == '\0'
  {
  }

  /** snprintf into `size` characters from `at` on: it writes what fits, terminated, and says how long the
      whole text is; or it fails, says -1, and writes nothing. */
  method Snprintf(buf: array<char>, at: nat, size: nat, text: string, fails: bool) returns (written: int)
    requires at + size <= buf.Length && size > 0
    modifies buf
    ensures fails ==> written == -1 && buf[..] == old(buf[..])
    ensures !fails ==>
              var n := if |text| < size then |text| else size - 1;
              written == |text| && buf[..at] == old(buf[..at]) && buf[at..at + n] == text[..n] && buf[at + n] == '\0'
    ensures buf[at + size..] == old(buf[at + size..])
  {
    if fails {
      return -1;
    }
    var n := if |text| < size then |text| else size - 1;
    forall i | 0 <= i < n {
      buf[at + i] := text[i];
    }
    buf[at + n] := '\0';
    written := |text|;
  }
}
