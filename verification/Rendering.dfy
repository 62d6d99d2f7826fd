/** What kafka_info shows: bounded rendering of the parameters with secrets redacted
    (kafka_table_describe_params and kafka_table_get_brokers in kafka-table.c, kafka-cmd-info.c). */
module Rendering {
  import opened CStrings
  import opened Decimals
  import opened Options
  import Protocol

  type Shown = (Text, Text)   // a parameter's name and value

  // ---------------------------------------------------------------- secrets

  /** strstr(s, part) != NULL */
  predicate Mentions(s: string, part: string) {
    part <= s || (s != [] && Mentions(s[1..], part))
  }

  lemma {:induction false} MentionsWhere(s: string, part: string)
    ensures Mentions(s, part) <==> exists i | 0 <= i <= |s| :: part <= s[i..]
  {
    if part <= s {
      assert s[0..] == s;
    } else if s != [] {
      MentionsWhere(s[1..], part);
      assert forall i | 0 < i <= |s| :: s[i..] == s[1..][i - 1..];
      if Mentions(s, part) {
        var i :| 0 <= i <= |s[1..]| && part <= s[1..][i..];
        assert part <= s[i + 1..];
      }
    }
  }

  /** kafka_param_is_secret */
  predicate IsSecret(name: string) {
    Mentions(name, "password") || Mentions(name, "secret")
  }

  lemma SecretExactly(name: string)
    ensures IsSecret(name) <==>
              || (exists i | 0 <= i <= |name| :: "password" <= name[i..])
              || (exists i | 0 <= i <= |name| :: "secret" <= name[i..])
  {
    MentionsWhere(name, "password");
    MentionsWhere(name, "secret");
  }

  const REDACTED: Text := "********"

  // ---------------------------------------------------------------- the parameter list

  function Line(p: Shown): Text {
    "  " + p.0 + " = " + (if IsSecret(p.0) then REDACTED else p.1) + "\n"
  }

  function Lines(l: seq<Shown>): Text {
    if l == [] then "" else Lines(l[..|l| - 1]) + Line(l[|l| - 1])
  }

  /** One line for each entry, in order, and what is on it. */
  lemma LineShown(l: seq<Shown>, name: Text, value: Text)
    ensures Lines([]) == ""
    ensures var hidden := (exists i | 0 <= i <= |name| :: "password" <= name[i..]) || (exists i | 0 <= i <= |name| :: "secret" <= name[i..]);
            Lines(l + [(name, value)]) == Lines(l) + ("  " + name + " = " + (if hidden then "********" else value) + "\n")
  {
    SecretExactly(name);
    assert (l + [(name, value)])[..|l|] == l;
  }

  lemma {:induction false} LinesGrow(l: seq<Shown>, n: nat)
    requires n <= |l|
    ensures Lines(l[..n]) <= Lines(l)
    decreases |l|
  {
    if n == |l| {
      assert l[..n] == l;
    } else {
      LinesGrow(l[..|l| - 1], n);
      assert l[..|l| - 1][..n] == l[..n];
    }
  }

  /** The entries up to the first whose rendering fails. */
  function Rendered(n: nat, fails: nat -> bool): (k: nat)
    ensures k <= n && (forall i | 0 <= i < k :: !fails(i)) && (k < n ==> fails(k))
  {
    if n == 0 then 0
    else
      var k := Rendered(n - 1, fails);
      if k < n - 1 || fails(n - 1) then k else n
  }

  lemma FullFirst(n: nat, fails: nat -> bool, i: nat)
    requires i <= n && forall j | 0 <= j < i :: !fails(j)
    ensures i <= Rendered(n, fails)
  {
  }

  /** A buffer that is full holds as much of any longer text. */
  lemma FullEnough(buf: seq<char>, l: seq<Shown>, i: nat, k: nat)
    requires i <= k <= |l| && Holds(buf, Lines(l[..i])) && |Lines(l[..i])| + 1 >= |buf|
    ensures Holds(buf, Lines(l[..k]))
  {
    LinesGrow(l[..k], i);
    assert l[..k][..i] == l[..i];
    assert Clipped(Lines(l[..i]), |buf| - 1) == Clipped(Lines(l[..k]), |buf| - 1);
  }

  /** The next entry's text goes after what is there, whether it fits or not. */
  lemma NextLine(before: seq<char>, now: seq<char>, t: string, line: string)
    requires |now| == |before| && Holds(before, t) && |t| + 1 < |before|
    requires now[..|t|] == before[..|t|] && Holds(now[|t|..], line)
    ensures Holds(now, t + line)
  {
    var rest := Clipped(line, |now| - |t| - 1);
    assert Clipped(t + line, |now| - 1) == t + rest;
    assert now[..|t| + |rest|] == now[..|t|] + now[|t|..][..|rest|];
  }

  lemma NextLines(l: seq<Shown>, i: nat)
    requires i < |l|
    ensures Lines(l[..0]) == "" && Lines(l[..i + 1]) == Lines(l[..i]) + Line(l[i])
  {
    assert l[..i + 1][..i] == l[..i];
  }

  /** One round of the loop in kafka_table_describe_params. */
  method AppendLine(params: seq<Shown>, i: nat, buf: array<char>, used: nat, fails: bool) returns (written: int)
    requires i < |params| && used == |Lines(params[..i])| && used + 1 < buf.Length && Holds(buf[..], Lines(params[..i]))
    modifies buf
    ensures fails ==> written == -1 && Holds(buf[..], Lines(params[..i]))
    ensures !fails ==> written == |Line(params[i])| && used + written == |Lines(params[..i + 1])| && Holds(buf[..], Lines(params[..i + 1]))
  {
    hide Lines, Line, Clipped;
    ghost var before := buf[..];
    written := Snprintf(buf, used, buf.Length - used, Line(params[i]), fails);
    NextLines(params, i);
    if !fails {
      assert buf[..][used..] == buf[used..] && buf[..used] == buf[..][..used];
      HoldsIs(buf[used..], Line(params[i]));
      NextLine(before, buf[..], Lines(params[..i]), Line(params[i]));
    }
  }

  /** kafka_table_describe_params: `used` may run past the end of the buffer, the writes never do. */
  method DescribeParams(params: seq<Shown>, buf: array?<char>, fails: nat -> bool) returns (count: int)
    modifies buf
    ensures buf == null || buf.Length == 0 ==> count == 0
    ensures buf != null && buf.Length > 0 ==> count == Protocol.ToInt32(|params|)
    ensures buf != null && buf.Length > 0 ==>
              var text := Lines(params[..Rendered(|params|, fails)]);
              var n := if |text| < buf.Length then |text| else buf.Length - 1;
              buf[..n] == text[..n] && buf[n] == '\0'
  {
    hide Line, Rendered, Protocol.ToInt32, Holds, Clipped;
    if buf == null || buf.Length == 0 {
      return 0;
    }
    buf[0] := '\0';
    var used := 0;
    var i := 0;
    assert params[..0] == [];
    HoldsIs(buf[..], "");
    while i < |params| && used + 1 < buf.Length
      invariant i <= |params| && used == |Lines(params[..i])|
      invariant forall j | 0 <= j < i :: !fails(j)
      invariant Holds(buf[..], Lines(params[..i]))
    {
      var written := AppendLine(params, i, buf, used, fails(i));
      if written < 0 {
        break;
      }
      used := used + written;
      i := i + 1;
    }
    Filled(buf[..], params, i, fails);
    HoldsIs(buf[..], Lines(params[..Rendered(|params|, fails)]));
    count := Protocol.ToInt32(|params|);
  }

  /** Whichever way the loop ended. */
  lemma Filled(buf: seq<char>, l: seq<Shown>, i: nat, fails: nat -> bool)
    requires i <= |l| && Holds(buf, Lines(l[..i])) && forall j | 0 <= j < i :: !fails(j)
    requires i == |l| || fails(i) || |Lines(l[..i])| + 1 >= |buf|
    ensures Holds(buf, Lines(l[..Rendered(|l|, fails)]))
  {
    hide Lines, Clipped;
    FullFirst(|l|, fails, i);
    if |Lines(l[..i])| + 1 >= |buf| {
      FullEnough(buf, l, i, Rendered(|l|, fails));
    }
  }

  // ---------------------------------------------------------------- kafka_info

  const KAFKA_MAX_SETUP_VAR_LEN: nat := 512
  const KAFKA_INFO_MAX_LEN: nat := 1024

  /** %d */
  function Decimal(n: int): Text {
    if n < 0 then "-" + Digits(-n) else Digits(n)
  }

  /** The answer when `k` entries of the list were rendered: each part cut to its buffer, the whole not yet. */
  function InfoText(version: Text, brokers: Option<Text>, params: seq<Shown>, k: nat): string
    requires k <= |params|
  {
    "Version: " + version
    + "\nBrokers: " + (if brokers.Some? then Clipped(brokers.value, KAFKA_MAX_SETUP_VAR_LEN) else "Not connected")
    + "\nParameters: " + Decimal(Protocol.ToInt32(|params|))
    + "\n" + Clipped(Lines(params[..k]), KAFKA_INFO_MAX_LEN / 2 - 1)
  }

  /** kafka_table_get_brokers */
  method GetBrokers(brokers: Option<Text>, buf: array?<char>) returns (res: int)
    modifies buf
    ensures res == 1 <==> brokers.Some? && buf != null && buf.Length > 0
    ensures res == 0 || res == 1
    ensures buf != null && buf.Length > 0 ==>
              var text := if brokers.Some? then brokers.value else "";
              var n := if |text| < buf.Length then |text| else buf.Length - 1;
              buf[..n] == text[..n] && buf[n] == '\0'
  {
    if buf == null || buf.Length == 0 {
      return 0;
    }
    if brokers.Some? {
      var _ := Snprintf(buf, 0, buf.Length, brokers.value, false);
      res := 1;
    } else {
      buf[0] := '\0';
      res := 0;
    }
  }

  /** kafka_info: the text as far as the result buffer goes, and exactly the length of that. */
  method Info(version: Text, connected: Option<Text>, list: seq<Shown>, buf: array<char>, fails: nat -> bool, failed: bool)
    returns (length: nat)
    requires buf.Length == KAFKA_INFO_MAX_LEN
    modifies buf
    ensures failed ==> length == 0 && buf[..] == old(buf[..])
    ensures !failed ==>
              var k := Rendered(|list|, fails);
              var text := "Version: " + version
                          + "\nBrokers: " + (if connected.None? then "Not connected"
                                             else if |connected.value| <= 512 then connected.value else connected.value[..512])
                          + "\nParameters: " + Decimal(Protocol.ToInt32(|list|))
                          + "\n" + (if |Lines(list[..k])| <= 511 then Lines(list[..k]) else Lines(list[..k])[..511]);
              && text == InfoText(version, connected, list, k)
              && length == (if |text| <= 1023 then |text| else 1023)
              && buf[..length] == text[..length] && buf[length] == '\0'
  {
    hide Lines, Clipped, CString, Digits, Rendered, Protocol.ToInt32, Holds;
    var brokers := new char[KAFKA_MAX_SETUP_VAR_LEN + 1];
    var params := new char[KAFKA_INFO_MAX_LEN / 2];
    var got := GetBrokers(connected, brokers);
    ghost var held := if connected.Some? then connected.value else "";
    HeldString(brokers[..], held);
    var brk: Text := if got == 0 then "Not connected" else CString(brokers[..]);
    var nparams := DescribeParams(list, params, fails);
    ghost var lines := Lines(list[..Rendered(|list|, fails)]);
    HeldString(params[..], lines);
    var text := "Version: " + version + "\nBrokers: " + brk + "\nParameters: " + Decimal(nparams) + "\n" + CString(params[..]);
    var written := Snprintf(buf, 0, KAFKA_INFO_MAX_LEN, text, failed);
    length := if written < 0 then 0 else if written >= KAFKA_INFO_MAX_LEN then KAFKA_INFO_MAX_LEN - 1 else written;
  }

  // ---------------------------------------------------------------- what is not shown

  /** Nothing kafka_info answers depends on the value of an entry whose name contains one of the two words
      somewhere. */
  lemma SecretsStay(version: Text, brokers: Option<Text>, l: seq<Shown>, l': seq<Shown>, k: nat)
    requires |l| == |l'| && k <= |l|
    requires forall i | 0 <= i < |l| ::
               && l[i].0 == l'[i].0
               && (|| l[i].1 == l'[i].1
                   || (exists j | 0 <= j <= |l[i].0| :: "password" <= l[i].0[j..])
                   || (exists j | 0 <= j <= |l[i].0| :: "secret" <= l[i].0[j..]))
    ensures InfoText(version, brokers, l, k) == InfoText(version, brokers, l', k) && Lines(l) == Lines(l')
  {
    forall i | 0 <= i < |l|
      ensures IsSecret(l[i].0) || l[i].1 == l'[i].1
    {
      SecretExactly(l[i].0);
    }
    SameLines(l, l');
    SameLines(l[..k], l'[..k]);
  }

  lemma {:induction false} SameLines(l: seq<Shown>, l': seq<Shown>)
    requires |l| == |l'| && forall i | 0 <= i < |l| :: l[i].0 == l'[i].0 && (IsSecret(l[i].0) || l[i].1 == l'[i].1)
    ensures Lines(l) == Lines(l')
    decreases |l|
  {
    if l != [] {
      SameLines(l[..|l| - 1], l'[..|l| - 1]);
    }
  }

  lemma LinesEnd(l: seq<Shown>)
    requires l != []
    ensures Lines(l) == Lines(l[..|l| - 1]) + Line(l[|l| - 1])
  {
  }

  lemma {:induction false} LinesSplit(l: seq<Shown>, more: seq<Shown>)
    ensures Lines(l + more) == Lines(l) + Lines(more)
    decreases |more|
  {
    if more == [] {
      assert l + more == l;
    } else {
      hide Lines, Line;
      var front := more[..|more| - 1];
      var last := more[|more| - 1];
      var all := l + more;
      assert all[..|all| - 1] == l + front && all[|all| - 1] == last;
      LinesEnd(all);
      LinesEnd(more);
      LinesSplit(l, front);
      Associative(Lines(l), Lines(front), Line(last));
    }
  }

  lemma Associative(a: string, b: string, c: string)
    ensures (a + b) + c == a + (b + c)
  {
  }

  /** And nothing else is held back: changing one value changes the full text, unless the entry's name
      contains one of the two words. */
  lemma RedactsOnlySecrets(l: seq<Shown>, i: nat, value: Text)
    requires i < |l|
    ensures Lines(l[i := (l[i].0, value)]) == Lines(l) <==>
              || value == l[i].1
              || (exists j | 0 <= j <= |l[i].0| :: "password" <= l[i].0[j..])
              || (exists j | 0 <= j <= |l[i].0| :: "secret" <= l[i].0[j..])
  {
    SecretExactly(l[i].0);
    Redacts(l, i, value);
  }

  lemma Redacts(l: seq<Shown>, i: nat, value: Text)
    requires i < |l|
    ensures Lines(l[i := (l[i].0, value)]) == Lines(l) <==> IsSecret(l[i].0) || value == l[i].1
  {
    hide IsSecret;
    var one, other := [l[i]], [(l[i].0, value)];
    var rest := l[i + 1..];
    assert l == l[..i] + (one + rest) && l[i := (l[i].0, value)] == l[..i] + (other + rest);
    LinesSplit(l[..i], one + rest);
    LinesSplit(l[..i], other + rest);
    LinesSplit(one, rest);
    LinesSplit(other, rest);
    assert one[..0] == other[..0] == [];
    assert Lines(one) == Line(l[i]) && Lines(other) == Line((l[i].0, value));
    hide Lines;
    if !IsSecret(l[i].0) && value != l[i].1 {
      var a, b := Line(l[i]) + Lines(rest), Line((l[i].0, value)) + Lines(rest);
      LineDiffers(l[i].0, l[i].1, value, Lines(rest));
      CancelFront(Lines(l[..i]), a, b);
    }
  }

  lemma LineDiffers(name: Text, v: Text, w: Text, rest: Text)
    requires !IsSecret(name) && v != w
    ensures Line((name, v)) + rest != Line((name, w)) + rest
  {
    hide IsSecret;
    var front := "  " + name + " = ";
    var back := "\n" + rest;
    assert Line((name, v)) + rest == front + (v + back);
    assert Line((name, w)) + rest == front + (w + back);
    CancelBack(v, w, back);
    CancelFront(front, v + back, w + back);
  }

  lemma CancelBack(a: string, b: string, back: string)
    requires a != b
    ensures a + back != b + back
  {
    if |a| == |b| {
      assert a == (a + back)[..|a|];
      assert b == (b + back)[..|a|];
    }
  }

  lemma CancelFront(front: string, a: string, b: string)
    requires a != b
    ensures front + a != front + b
  {
    assert a == (front + a)[|front|..] && b == (front + b)[|front|..];
  }
}
