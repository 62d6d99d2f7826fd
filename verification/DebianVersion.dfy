/** build-deb.sh, lines 44-70: from `git describe` to a Debian version, and how dpkg orders the result. */
module DebianVersion {
  import opened Options
  import opened VersionOrder
  import opened Decimals

  // ---------------------------------------------------------------- the two patterns

  predicate IsTagChar(c: char) {
    IsDigit(c) || c == '.'
  }

  predicate IsHex(c: char) {
    IsDigit(c) || 'a' <= c <= 'f'
  }

  predicate AllHex(s: string) {
    forall i | 0 <= i < |s| :: IsHex(s[i])
  }

  /** [0-9][0-9.]* */
  predicate IsTag(s: string) {
    s != "" && IsDigit(s[0]) && forall i | 0 <= i < |s| :: IsTagChar(s[i])
  }

  function TagLen(s: string): (n: nat)
    ensures n <= |s|
    ensures forall i | 0 <= i < n :: IsTagChar(s[i])
    ensures n < |s| ==> !IsTagChar(s[n])
  {
    if s == "" || !IsTagChar(s[0]) then 0 else 1 + TagLen(s[1..])
  }

  /** The optional leading v of both patterns. */
  function DropV(s: string): string {
    if s != "" && s[0] == 'v' then s[1..] else s
  }

  datatype Post = Post(tag: string, distance: string, hash: string)

  /** -([0-9]+)-g([0-9a-f]+)$ with its two groups. */
  function MatchTail(s: string): Option<(string, string)> {
    if s == "" || s[0] != '-' then None
    else
      var d := DigitLen(s[1..]);
      var hash := s[1..][d..];
      if d == 0 || |hash| < 3 || hash[0] != '-' || hash[1] != 'g' || !AllHex(hash[2..]) then None
      else Some((s[1..][..d], hash[2..]))
  }

  /** ^v?([0-9][0-9.]*)-([0-9]+)-g([0-9a-f]+)$ with its three groups. */
  function MatchPost(describe: string): Option<Post> {
    var s := DropV(describe);
    var tail := MatchTail(s[TagLen(s)..]);
    if !IsTag(s[..TagLen(s)]) || tail.None? then None
    else Some(Post(s[..TagLen(s)], tail.value.0, tail.value.1))
  }

  /** ^v?([0-9][0-9.]*)$ with its group. */
  function MatchTag(describe: string): Option<string> {
    if IsTag(DropV(describe)) then Some(DropV(describe)) else None
  }

  predicate GoodPost(p: Post) {
    IsTag(p.tag) && p.distance != "" && AllDigits(p.distance) && p.hash != "" && AllHex(p.hash)
  }

  function TailText(distance: string, hash: string): string {
    "-" + distance + "-g" + hash
  }

  function PostText(p: Post): string {
    p.tag + TailText(p.distance, p.hash)
  }

  lemma {:induction false} TagLenAppend(s: string, x: string)
    requires x == "" || !IsTagChar(x[0])
    requires forall i | 0 <= i < |s| :: IsTagChar(s[i])
    ensures TagLen(s + x) == |s|
  {
    if s == "" {
      assert s + x == x;
    } else {
      assert (s + x)[1..] == s[1..] + x;
      TagLenAppend(s[1..], x);
    }
  }

  /** The pattern matches exactly the texts it describes, and its groups are the parts they are made of. */
  lemma MatchPostExact(describe: string, tag: string, distance: string, hash: string)
    ensures MatchPost(describe) == Some(Post(tag, distance, hash)) <==>
              && (describe == tag + "-" + distance + "-g" + hash || describe == "v" + tag + "-" + distance + "-g" + hash)
              && tag != "" && tag[0] != '.' && (forall i | 0 <= i < |tag| :: '0' <= tag[i] <= '9' || tag[i] == '.')
              && distance != "" && (forall i | 0 <= i < |distance| :: '0' <= distance[i] <= '9')
              && hash != "" && (forall i | 0 <= i < |hash| :: '0' <= hash[i] <= '9' || 'a' <= hash[i] <= 'f')
  {
    var p := Post(tag, distance, hash);
    if MatchPost(describe) == Some(p) {
      MatchedText(describe);
      WithOrWithoutV(describe, PostText(p));
      PostSpelled(p);
    }
    if GoodPost(p) && (describe == tag + "-" + distance + "-g" + hash || describe == "v" + tag + "-" + distance + "-g" + hash) {
      PostSpelled(p);
      WithOrWithoutV(describe, PostText(p));
      TextMatches(describe, p);
    }
  }

  lemma PostSpelled(p: Post)
    ensures PostText(p) == p.tag + "-" + p.distance + "-g" + p.hash
    ensures "v" + PostText(p) == "v" + p.tag + "-" + p.distance + "-g" + p.hash
  {
    assert PostText(p) == p.tag + "-" + p.distance + "-g" + p.hash;
  }

  /** What the optional v leaves. */
  lemma WithOrWithoutV(describe: string, s: string)
    requires s != "" && s[0] != 'v'
    ensures DropV(describe) == s <==> describe == s || describe == "v" + s
  {
  }

  /** And so does the other pattern. */
  lemma MatchTagExact(describe: string, tag: string)
    ensures MatchTag(describe) == Some(tag) <==>
              && (describe == tag || describe == "v" + tag)
              && tag != "" && tag[0] != '.' && forall i | 0 <= i < |tag| :: '0' <= tag[i] <= '9' || tag[i] == '.'
  {
    if IsTag(tag) {
      WithOrWithoutV(describe, tag);
    }
  }

  lemma MatchedTail(s: string)
    requires MatchTail(s).Some?
    ensures var (distance, hash) := MatchTail(s).value;
            && s == TailText(distance, hash)
            && distance != "" && AllDigits(distance) && hash != "" && AllHex(hash)
  {
    var d := DigitLen(s[1..]);
    var tail := s[1..][d..];
    assert s == "-" + s[1..][..d] + tail;
    assert tail == "-g" + tail[2..];
  }

  lemma TailMatches(distance: string, hash: string)
    requires distance != "" && AllDigits(distance) && hash != "" && AllHex(hash)
    ensures MatchTail(TailText(distance, hash)) == Some((distance, hash))
  {
    var s := TailText(distance, hash);
    var tail := "-g" + hash;
    AllOfThem(distance);
    DigitLenAppend(distance, tail);
    hide DigitLen;
    assert s[1..] == distance + tail;
    assert s[1..][..|distance|] == distance && s[1..][|distance|..] == tail;
    assert tail[2..] == hash;
  }

  lemma MatchedText(describe: string)
    requires MatchPost(describe).Some?
    ensures var p := MatchPost(describe).value; GoodPost(p) && DropV(describe) == PostText(p)
  {
    hide MatchTail, TailText, TagLen, DropV, AllHex, AllDigits;
    var s := DropV(describe);
    var n := TagLen(s);
    MatchedTail(s[n..]);
    SplitAt(s, n);
  }

  lemma TextMatches(describe: string, p: Post)
    requires GoodPost(p) && DropV(describe) == PostText(p)
    ensures MatchPost(describe) == Some(p)
  {
    var s := DropV(describe);
    var more := TailText(p.distance, p.hash);
    TagLenAppend(p.tag, more);
    TailMatches(p.distance, p.hash);
    hide TagLen, MatchTail, TailText;
    assert s[..|p.tag|] == p.tag && s[|p.tag|..] == more;
  }

  // ---------------------------------------------------------------- the rewriting

  const DIRTY := "-dirty"

  predicate IsDirty(describe: string) {
    |describe| >= |DIRTY| && describe[|describe| - |DIRTY|..] == DIRTY
  }

  function Undirtied(describe: string): string {
    if IsDirty(describe) then describe[..|describe| - |DIRTY|] else describe
  }

  function Base(describe: string): string {
    match MatchPost(describe)
    case Some(p) => p.tag + "+" + p.distance + ".g" + p.hash
    case None =>
      match MatchTag(describe)
      case Some(tag) => tag
      case None => "0.0.0+git." + describe
  }

  /** The version written to the changelog; none when there is no git information. */
  function Rewrite(describe: string): Option<string> {
    if describe == "" then None
    else Some(Base(Undirtied(describe)) + if IsDirty(describe) then "+dirty" else "")
  }

  /** The script's own sequence of assignments. */
  method DeriveVersion(output: string) returns (result: Option<string>)
    ensures result == Rewrite(output)
  {
    var describe := output;
    if describe == "" {
      return None;
    }
    var dirty := "";
    if IsDirty(describe) {
      dirty := "+dirty";
      describe := describe[..|describe| - |DIRTY|];
    }
    var version := "";
    var post := MatchPost(describe);
    if post.Some? {
      version := post.value.tag + "+" + post.value.distance + ".g" + post.value.hash;
    } else {
      var tag := MatchTag(describe);
      if tag.Some? {
        version := tag.value;
      } else {
        version := "0.0.0+git." + describe;
      }
    }
    version := version + dirty;
    result := Some(version);
  }

  // ---------------------------------------------------------------- what git describe prints

  /** A commit as `git describe --tags --always --dirty` names it. */
  datatype Commit =
    | Tagged(v: bool, tag: string)
    | PostTag(v: bool, post: Post)
    | Untagged(hash: string)

  /** A dotted number that git takes for the name of a tag: a name must not end in a dot, nor have two dots
      in a row. */
  predicate IsGitTag(tag: string) {
    IsTag(tag) && !EndsInDot(tag) && forall i | 0 < i < |tag| :: tag[i - 1] != '.' || tag[i] != '.'
  }

  predicate EndsInDot(tag: string) {
    tag != "" && tag[|tag| - 1] == '.'
  }

  /** A commit whose parts the script's patterns describe. */
  predicate Readable(c: Commit) {
    match c
    case Tagged(_, tag) => IsTag(tag)
    case PostTag(_, post) => GoodPost(post)
    case Untagged(hash) => hash != "" && AllHex(hash)
  }

  /** One that git can name. */
  predicate GoodCommit(c: Commit) {
    Readable(c) && IsGitTag(TagOf(c))
  }

  function V(v: bool): string {
    if v then "v" else ""
  }

  function Describe(c: Commit, dirty: bool): string {
    (match c
     case Tagged(v, tag) => V(v) + tag
     case PostTag(v, post) => V(v) + PostText(post)
     case Untagged(hash) => hash)
    + if dirty then DIRTY else ""
  }

  /** The suffix the script puts behind the tag. */
  function Suffix(c: Commit, dirty: bool): string {
    (match c
     case Tagged(_, _) => ""
     case PostTag(_, post) => "+" + post.distance + ".g" + post.hash
     case Untagged(hash) => "+git." + hash)
    + if dirty then "+dirty" else ""
  }

  function TagOf(c: Commit): string {
    match c
    case Tagged(_, tag) => tag
    case PostTag(_, post) => post.tag
    case Untagged(_) => "0.0.0"
  }

  lemma DirtyRecognised(s: string, dirty: bool)
    requires s != "" && s[|s| - 1] != 'y'
    ensures IsDirty(s + if dirty then DIRTY else "") == dirty
    ensures Undirtied(s + if dirty then DIRTY else "") == s
  {
    var text := s + if dirty then DIRTY else "";
    if dirty {
      assert text[|text| - |DIRTY|..] == DIRTY;
      assert text[..|text| - |DIRTY|] == s;
    } else {
      assert text == s;
      assert |s| >= |DIRTY| ==> s[|s| - |DIRTY|..][|DIRTY| - 1] == s[|s| - 1];
    }
  }

  /** A hash with a letter in it, and only such a hash, is told from a tag. */
  predicate HasLetter(hash: string) {
    exists i :: 0 <= i < |hash| && !IsDigit(hash[i])
  }

  lemma BaseTagged(v: bool, tag: string)
    requires IsTag(tag)
    ensures Base(V(v) + tag) == tag
  {
    assert DropV(V(v) + tag) == tag;
    assert forall i | 0 <= i < |tag| :: IsTagChar(tag[i]);
    assert '-' !in V(v) + tag;
    NoPost(V(v) + tag);
    hide MatchPost;
  }

  lemma BasePost(v: bool, post: Post)
    requires GoodPost(post)
    ensures Base(V(v) + PostText(post)) == post.tag + "+" + post.distance + ".g" + post.hash
  {
    assert DropV(V(v) + PostText(post)) == PostText(post);
    hide MatchPost, PostText;
    TextMatches(V(v) + PostText(post), post);
  }

  lemma BaseUntagged(hash: string)
    requires hash != "" && AllHex(hash) && HasLetter(hash)
    ensures Base(hash) == "0.0.0+git." + hash
  {
    HexHasNoHyphen(hash);
    NoPost(hash);
    var i :| 0 <= i < |hash| && !IsDigit(hash[i]);
    assert !IsTagChar(hash[i]) && DropV(hash) == hash;
    hide MatchPost;
  }

  /** Rewriting takes the text apart into what it was made of: the tag keeps its dots, the rest becomes a
      suffix, and a leading v is gone. */
  lemma RewriteDescribe(c: Commit, dirty: bool)
    requires Readable(c) && (c.Untagged? ==> HasLetter(c.hash))
    ensures Rewrite(Describe(c, dirty)) == Some(TagOf(c) + Suffix(c, dirty))
  {
    var s := Describe(c, false);
    assert Base(s) == TagOf(c) + Suffix(c, false) by {
      BaseDescribe(c);
    }
    CleanDescribe(c);
    DirtyRecognised(s, dirty);
    SuffixSplits(c, dirty);
    hide Base, Describe, Suffix, IsDirty, Undirtied;
  }

  /** The four lines of the script's own table, for all texts: on a tag, */
  lemma OnTag(v: bool, tag: string, dirty: bool)
    requires tag != "" && tag[0] != '.' && forall i | 0 <= i < |tag| :: '0' <= tag[i] <= '9' || tag[i] == '.'
    ensures Rewrite((if v then "v" else "") + tag + if dirty then "-dirty" else "")
         == Some(tag + if dirty then "+dirty" else "")
  {
    RewriteDescribe(Tagged(v, tag), dirty);
    TagDescribed(v, tag, dirty);
    hide Rewrite, Describe, Suffix;
  }

  lemma TagDescribed(v: bool, tag: string, dirty: bool)
    ensures Describe(Tagged(v, tag), dirty) == (if v then "v" else "") + tag + if dirty then "-dirty" else ""
    ensures TagOf(Tagged(v, tag)) + Suffix(Tagged(v, tag), dirty) == tag + if dirty then "+dirty" else ""
  {
    assert "" + (if dirty then "+dirty" else "") == if dirty then "+dirty" else "";
  }

  /** after a tag, */
  lemma AfterTag(v: bool, tag: string, distance: string, hash: string, dirty: bool)
    requires tag != "" && tag[0] != '.' && forall i | 0 <= i < |tag| :: '0' <= tag[i] <= '9' || tag[i] == '.'
    requires distance != "" && forall i | 0 <= i < |distance| :: '0' <= distance[i] <= '9'
    requires hash != "" && forall i | 0 <= i < |hash| :: '0' <= hash[i] <= '9' || 'a' <= hash[i] <= 'f'
    ensures Rewrite((if v then "v" else "") + tag + "-" + distance + "-g" + hash + if dirty then "-dirty" else "")
         == Some(tag + "+" + distance + ".g" + hash + if dirty then "+dirty" else "")
  {
    var p := Post(tag, distance, hash);
    PartsDescribed(v, p, dirty);
    assert Readable(PostTag(v, p));
    hide Describe, Suffix, TagOf, Rewrite, Readable;
    RewriteDescribe(PostTag(v, p), dirty);
  }

  lemma PartsDescribed(v: bool, p: Post, dirty: bool)
    ensures Describe(PostTag(v, p), dirty)
         == (if v then "v" else "") + p.tag + "-" + p.distance + "-g" + p.hash + if dirty then "-dirty" else ""
    ensures TagOf(PostTag(v, p)) + Suffix(PostTag(v, p), dirty)
         == p.tag + "+" + p.distance + ".g" + p.hash + if dirty then "+dirty" else ""
  {
    PostSpelled(p);
    PostSpelledAfter(if v then "v" else "", p);
    hide PostText;
    var end := if dirty then "+dirty" else "";
    Associated(p.tag, "+" + p.distance + ".g" + p.hash, end);
    assert p.tag + ("+" + p.distance + ".g" + p.hash) == p.tag + "+" + p.distance + ".g" + p.hash;
  }

  lemma PostSpelledAfter(front: string, p: Post)
    ensures front + PostText(p) == front + p.tag + "-" + p.distance + "-g" + p.hash
  {
    assert PostText(p) == p.tag + ("-" + p.distance + "-g" + p.hash);
    assert front + p.tag + "-" + p.distance + "-g" + p.hash == front + (p.tag + "-" + p.distance + "-g" + p.hash);
  }

  lemma Associated(a: string, b: string, c: string)
    ensures a + (b + c) == a + b + c
  {
  }

  /** and everything else, dirty or not. */
  lemma OffTag(s: string, dirty: bool)
    requires MatchPost(s).None? && MatchTag(s).None?
    requires dirty || (s != "" && (|s| >= 6 ==> s[|s| - 6..] != "-dirty"))
    ensures Rewrite("") == None
    ensures Rewrite(s + if dirty then "-dirty" else "") == Some("0.0.0+git." + s + if dirty then "+dirty" else "")
  {
    hide MatchPost, MatchTag;
    var text := s + if dirty then "-dirty" else "";
    if dirty {
      assert text[|s|..] == "-dirty" && text[..|s|] == s;
    } else {
      assert text == s;
    }
  }

  lemma BaseDescribe(c: Commit)
    requires Readable(c) && (c.Untagged? ==> HasLetter(c.hash))
    ensures Base(Describe(c, false)) == TagOf(c) + Suffix(c, false)
  {
    hide Base;
    match c
    case Tagged(v, tag) =>
      BaseTagged(v, tag);
      assert Describe(c, false) == V(v) + tag;
    case PostTag(v, post) =>
      BasePost(v, post);
      assert Describe(c, false) == V(v) + PostText(post);
    case Untagged(hash) =>
      BaseUntagged(hash);
      assert Describe(c, false) == hash;
  }

  lemma SuffixSplits(c: Commit, dirty: bool)
    ensures Describe(c, dirty) == Describe(c, false) + if dirty then DIRTY else ""
    ensures TagOf(c) + Suffix(c, dirty) == TagOf(c) + Suffix(c, false) + if dirty then "+dirty" else ""
  {
  }

  lemma CleanDescribe(c: Commit)
    requires Readable(c)
    ensures var s := Describe(c, false); s != "" && s[|s| - 1] != 'y'
  {
  }

  /** Without a hyphen there are no commits after a tag. */
  lemma NoPost(s: string)
    requires '-' !in s
    ensures MatchPost(s).None?
  {
    if MatchPost(s).Some? {
      PostHasHyphen(s);
      assert false;
    }
  }

  lemma PostHasHyphen(s: string)
    requires MatchPost(s).Some?
    ensures '-' in s
  {
    MatchedText(s);
    var p := MatchPost(s).value;
    assert PostText(p)[|p.tag|] == '-';
    assert '-' in DropV(s);
  }

  lemma BaseNumber(hash: string)
    requires hash != "" && AllDigits(hash)
    ensures Base(hash) == hash
  {
    BaseTagged(false, hash);
    assert V(false) + hash == hash;
  }

  /** An untagged commit is recognised as one exactly when its hash has a letter; an all-digit hash is
      taken for a tag. */
  lemma UntaggedExactly(hash: string)
    requires hash != "" && AllHex(hash)
    ensures Rewrite(hash) == Some("0.0.0+git." + hash) <==> HasLetter(hash)
    ensures !HasLetter(hash) ==> Rewrite(hash) == Some(hash)
  {
    assert IsHex(hash[|hash| - 1]);
    DirtyRecognised(hash, false);
    assert hash + "" == hash;
    assert "0.0.0+git." + hash != hash;
    if HasLetter(hash) {
      BaseUntagged(hash);
    } else {
      BaseNumber(hash);
    }
    hide Base, IsDirty, Undirtied;
    assert Base(hash) + "" == Base(hash);
  }

  // ---------------------------------------------------------------- a native package's version

  lemma HexHasNoHyphen(s: string)
    requires AllHex(s)
    ensures '-' !in s
  {
  }

  /** A native package's version must not contain a hyphen.  It does exactly when the description, less
      its dirty mark, has one and is not a tag with commits after it. */
  lemma HyphenFree(describe: string)
    requires describe != ""
    ensures var clean := if |describe| >= 6 && describe[|describe| - 6..] == "-dirty" then describe[..|describe| - 6] else describe;
            '-' in Rewrite(describe).value <==> '-' in clean && MatchPost(clean).None?
  {
    assert Undirtied(describe) == if |describe| >= 6 && describe[|describe| - 6..] == "-dirty" then describe[..|describe| - 6] else describe;
    BaseHyphen(Undirtied(describe));
    hide Base, IsDirty, Undirtied;
  }

  lemma BaseHyphen(clean: string)
    ensures '-' in Base(clean) <==> '-' in clean && MatchPost(clean).None?
  {
    if MatchPost(clean).Some? {
      MatchedText(clean);
      var p := MatchPost(clean).value;
      hide MatchPost;
      HexHasNoHyphen(p.hash);
      HexHasNoHyphen(p.distance);
      TagHasNoHyphen(p.tag);
    } else if MatchTag(clean).Some? {
      hide MatchPost;
      TagHasNoHyphen(DropV(clean));
      assert '-' in clean ==> '-' in DropV(clean);
    } else {
      hide MatchPost, MatchTag;
    }
  }

  lemma TagHasNoHyphen(s: string)
    requires IsTag(s)
    ensures '-' !in s
  {
  }

  /** It always starts with a digit. */
  lemma StartsWithDigit(describe: string)
    requires describe != ""
    ensures var version := Rewrite(describe).value; version != "" && '0' <= version[0] <= '9'
  {
    var clean := Undirtied(describe);
    if MatchPost(clean).Some? {
      MatchedText(clean);
    }
  }

  // ---------------------------------------------------------------- the order of the versions

  predicate Before(a: string, b: string) {
    Compare(a, b) < 0
  }

  predicate TagChars(s: string) {
    forall i | 0 <= i < |s| :: IsTagChar(s[i])
  }

  /** The part of a tag after its first number. */
  lemma TagRest(t: string)
    requires TagChars(t) && t != "" && !EndsInDot(t)
    ensures HasDigit(t) && TagChars(Rest(t)) && !EndsInDot(Rest(t)) && |Rest(t)| < |t|
    ensures Rest(t) != "" ==> !IsDigit(Rest(t)[0])
  {
    assert IsDigit(t[|t| - 1]);
  }

  lemma RestOfTag(u: string)
    ensures TagChars(u) ==> TagChars(Rest(u))
    ensures Rest(u) != "" ==> !IsDigit(Rest(u)[0])
  {
  }

  /** The heart of it: where t runs out and u goes on, u goes on with a dot, and '+' sorts before a dot. */
  lemma {:induction false} PlusBelow(t: string, x: string, u: string)
    requires TagChars(t) && !EndsInDot(t) && TagChars(u) && StartsWithPlus(x) && Before(t, u)
    requires t == "" ==> u == "" || !IsDigit(u[0])
    ensures Before(t + x, u)
    decreases |t|
  {
    if t == "" {
      EmptyPlusBelow(x, u);
      assert t + x == x;
    } else {
      hide Compare, CompareText, Value, TagChars, EndsInDot;
      TagRest(t);
      RestOfTag(u);
      AppendRound(t, x);
      Round(t, u);
      Round(t + x, u);
      if CompareText(Text(t), Text(u)) == 0 && Value(Number(t)) == Value(Number(u)) {
        PlusBelow(Rest(t), x, Rest(u));
      }
    }
  }

  lemma EmptyPlusBelow(x: string, u: string)
    requires TagChars(u) && StartsWithPlus(x) && Before("", u) && (u == "" || !IsDigit(u[0]))
    ensures Before(x, u)
  {
    assert u != "" && u[0] == '.';
    Round(x, u);
    assert Text(x)[0] == '+' && Text(u)[0] == '.';
  }

  /** Behind a dot at the end of a tag, a '+' suffix sorts above what should have been the next release. */
  lemma {:induction false} DotPlusAbove(t: string, x: string)
    requires TagChars(t) && EndsInDot(t) && StartsWithPlus(x)
    ensures Before(t, t + "1") && Before(t + "1", t + x)
  {
    PrefixCancel(t, "", "1");
    PrefixCancel(t, "1", x);
    assert t + "" == t;
    OneAbove();
    OneBelowPlus(x);
  }

  lemma OneAbove()
    ensures Compare("", "1") == -1
  {
    assert Text("1") == "" && Number("1") == "1" && Value("1") == 10 * Value("") + 1;
    Round("", "1");
  }

  lemma OneBelowPlus(x: string)
    requires StartsWithPlus(x)
    ensures Compare("1", x) == -1
  {
    assert Text("1") == "" && Text(x)[0] == '+';
    Round("1", x);
  }

  /** Any '+' suffix on a text the script takes for a tag sorts strictly above that text; and below every
      such text that is above it exactly when it does not end in a dot.  The script's pattern would allow
      one that does, but git has no such tag. */
  lemma SuffixedTag(t: string, x: string)
    requires IsTag(t) && StartsWithPlus(x)
    ensures Before(t, t + x)
    ensures (forall u | IsTag(u) && Before(t, u) :: Before(t + x, u)) <==> !EndsInDot(t)
  {
    PlusAbove(t, x);
    if EndsInDot(t) {
      DotPlusAbove(t, x);
      Antisymmetric(t + "1", t + x);
      assert IsTag(t + "1");
    } else {
      forall u | IsTag(u) && Before(t, u)
        ensures Before(t + x, u)
      {
        PlusBelow(t, x, u);
      }
    }
  }

  /** Among the tags, a suffixed build of t stands exactly where t stands, just above it. */
  lemma BetweenTags(t: string, x: string, u: string)
    requires IsTag(t) && !EndsInDot(t) && IsTag(u) && StartsWithPlus(x)
    ensures Before(t + x, u) <==> Before(t, u)
    ensures Compare(u, t) <= 0 ==> Before(u, t + x)
  {
    PlusAbove(t, x);
    Antisymmetric(t, u);
    Antisymmetric(t + x, u);
    if Before(t, u) {
      PlusBelow(t, x, u);
    } else {
      Transitive(u, t, t + x);
    }
  }

  /** Package versions of two releases, in the order of their tags, whatever was built on top of the
      first, dirty or not: a build of t never reaches t', nor any build of t'. */
  lemma BuildsFollowTags(c: Commit, dirty: bool, c': Commit, dirty': bool)
    requires GoodCommit(c) && Readable(c') && (c.Untagged? ==> HasLetter(c.hash)) && (c'.Untagged? ==> HasLetter(c'.hash))
    requires Before(TagOf(c), TagOf(c'))
    ensures var version, version' := Rewrite(Describe(c, dirty)), Rewrite(Describe(c', dirty'));
            version.Some? && version'.Some? && Before(version.value, version'.value)
  {
    RewriteDescribe(c, dirty);
    RewriteDescribe(c', dirty');
    SuffixShape(c, dirty);
    SuffixShape(c', dirty');
    hide Suffix, Describe, Rewrite, Compare, Readable, HasLetter, IsTag, EndsInDot;
    var (t, x) := (TagOf(c), Suffix(c, dirty));
    var (t', x') := (TagOf(c'), Suffix(c', dirty'));
    if x == "" {
      assert t + x == t;
    } else {
      BetweenTags(t, x, t');
    }
    if x' == "" {
      assert t' + x' == t';
    } else {
      PlusAbove(t', x');
      Transitive(t + x, t', t' + x');
    }
  }

  lemma SuffixShape(c: Commit, dirty: bool)
    requires Readable(c)
    ensures IsTag(TagOf(c))
    ensures Suffix(c, dirty) == "" || StartsWithPlus(Suffix(c, dirty))
  {
  }

  /** Clean or dirty builds after one tag sort by their distance from it. */
  lemma BuildsByDistance(p: Post, q: Post, v: bool, w: bool, dirty: bool, dirty': bool)
    requires GoodPost(p) && GoodPost(q) && p.tag == q.tag && Value(p.distance) < Value(q.distance)
    ensures var version, version' := Rewrite(Describe(PostTag(v, p), dirty)), Rewrite(Describe(PostTag(w, q), dirty'));
            version.Some? && version'.Some? && Before(version.value, version'.value)
  {
    RewriteDescribe(PostTag(v, p), dirty);
    RewriteDescribe(PostTag(w, q), dirty');
    var a := ".g" + p.hash + if dirty then "+dirty" else "";
    var b := ".g" + q.hash + if dirty' then "+dirty" else "";
    SuffixParts(p, v, dirty);
    SuffixParts(q, w, dirty');
    hide Suffix, Describe, Rewrite, Compare, Value;
    PrefixCancel(p.tag + "+", p.distance + a, q.distance + b);
    NumbersFirst(p.distance, a, q.distance, b);
  }

  lemma SuffixParts(p: Post, v: bool, dirty: bool)
    ensures TagOf(PostTag(v, p)) + Suffix(PostTag(v, p), dirty)
         == (p.tag + "+") + (p.distance + (".g" + p.hash + if dirty then "+dirty" else ""))
  {
  }

  lemma NumbersFirst(d: string, a: string, e: string, b: string)
    requires d != "" && AllDigits(d) && e != "" && AllDigits(e) && Value(d) < Value(e)
    requires a != "" && !IsDigit(a[0]) && b != "" && !IsDigit(b[0])
    ensures Compare(d + a, e + b) == -1
  {
    SplitNumber(d, a);
    SplitNumber(e, b);
    Round(d + a, e + b);
  }

  /** A commit without a tag, recognised as such, sorts below a tag exactly when the tag is above 0.0.0. */
  lemma UntaggedBelow(hash: string, dirty: bool, u: string)
    requires hash != "" && AllHex(hash) && HasLetter(hash) && IsTag(u)
    ensures var version := Rewrite(Describe(Untagged(hash), dirty));
            version.Some? && (Before(version.value, u) <==> Before("0.0.0", u))
  {
    RewriteDescribe(Untagged(hash), dirty);
    SuffixShape(Untagged(hash), dirty);
    BetweenTags("0.0.0", Suffix(Untagged(hash), dirty), u);
  }

  /** An all-digit hash is taken for a tag, and then the commit outranks every release whose first number
      is smaller. */
  lemma DigitHashOutranks(hash: string, u: string)
    requires hash != "" && AllDigits(hash) && IsTag(u) && Value(Number(u)) < Value(hash)
    ensures Rewrite(hash) == Some(hash) && Before(u, hash)
  {
    assert AllHex(hash) && !HasLetter(hash) && hash + "" == hash;
    UntaggedExactly(hash);
    SplitNumber(hash, "");
    assert Text(u) == "";
    Round(u, hash);
  }

  /** An all-digit hash is rewritten as a tag, dirty or not. */
  lemma NumberRewritten(hash: string, dirty: bool)
    requires hash != "" && AllDigits(hash)
    ensures IsGitTag(hash) && !HasLetter(hash)
    ensures Rewrite(Describe(Untagged(hash), dirty)) == Some(hash + if dirty then "+dirty" else "")
  {
    RewriteDescribe(Tagged(false, hash), dirty);
    assert V(false) + hash == hash;
    assert "" + (if dirty then "+dirty" else "") == if dirty then "+dirty" else "";
  }

  /** How a number is read in front of a dot. */
  lemma ZeroDot(more: string)
    ensures var s := "0" + ("." + more); Text(s) == "" && Value(Number(s)) == 0 && Rest(s) == "." + more
  {
    SplitNumber("0", "." + more);
    assert Value("0") == 10 * Value("");
  }

  lemma DotLast(s: string)
    requires s != "" && s[0] == '.'
    ensures Before("", s)
  {
    hide Compare;
    Round("", s);
    assert Text("") == "" && Text(s)[0] == '.';
  }

  lemma ZeroBelow(hash: string)
    requires hash != "" && AllDigits(hash) && Value(hash) == 0
    ensures Before(hash, "0.0.0")
  {
    hide Compare, Value;
    SplitNumber(hash, "");
    assert hash + "" == hash && "0" + ("." + "0.0") == "0.0.0";
    ZeroDot("0.0");
    assert Rest(hash) == "";
    hide Text, Number, Rest, CompareText;
    Round(hash, "0.0.0");
    EmptyTexts();
    DotLast("." + "0.0");
  }

  lemma EmptyTexts()
    ensures CompareText("", "") == 0
  {
  }

  lemma ZeroBeforeOne()
    ensures Compare("0", "1") == -1
  {
    SplitNumber("0", "");
    SplitNumber("1", "");
    assert "0" + "" == "0" && "1" + "" == "1";
    assert Value("0") == 10 * Value("") && Value("1") == 10 * Value("") + 1;
    hide Compare, Value;
    Round("0", "1");
  }

  lemma SmallTag()
    ensures IsGitTag("0.0.1") && Before("0.0.0", "0.0.1") && Value(Number("0.0.1")) == 0
  {
    hide Compare, Value, Text, Number, Rest;
    ZeroDot("0.1");
    assert "0" + ("." + "0.1") == "0.0.1";
    ZeroBeforeOne();
    PrefixCancel("0.0.", "0", "1");
    assert "0.0." + "0" == "0.0.0" && "0.0." + "1" == "0.0.1";
  }

  /** A commit no tag reaches sorts below every tag above 0.0.0 exactly when its hash has a letter or is
      nothing but zeros. */
  lemma UntaggedBelowExactly(hash: string, dirty: bool)
    requires hash != "" && AllHex(hash)
    ensures var version := Rewrite(Describe(Untagged(hash), dirty));
            && version.Some?
            && ((forall u | IsGitTag(u) && Before("0.0.0", u) :: Before(version.value, u))
                <==> HasLetter(hash) || Value(hash) == 0)
            && ((forall u | IsTag(u) && Before("0.0.0", u) :: Before(version.value, u))
                <==> HasLetter(hash) || Value(hash) == 0)
  {
    hide Rewrite, Describe, Compare;
    if HasLetter(hash) {
      forall u | IsTag(u)
        ensures Rewrite(Describe(Untagged(hash), dirty)).Some?
        ensures Before(Rewrite(Describe(Untagged(hash), dirty)).value, u) <==> Before("0.0.0", u)
      {
        UntaggedBelow(hash, dirty, u);
      }
      SmallTag();
    } else {
      NumberBelowExactly(hash, dirty);
    }
  }

  lemma NumberBelowExactly(hash: string, dirty: bool)
    requires hash != "" && AllDigits(hash)
    ensures var version := Rewrite(Describe(Untagged(hash), dirty));
            && version.Some?
            && ((forall u | IsGitTag(u) && Before("0.0.0", u) :: Before(version.value, u)) <==> Value(hash) == 0)
            && ((forall u | IsTag(u) && Before("0.0.0", u) :: Before(version.value, u)) <==> Value(hash) == 0)
  {
    NumberRewritten(hash, dirty);
    hide Rewrite, Describe, AllDigits, Value, Before, IsTag, IsGitTag;
    NumberOrder(hash, if dirty then "+dirty" else "");
  }

  /** The same, of the number itself. */
  lemma NumberOrder(hash: string, x: string)
    requires hash != "" && AllDigits(hash) && x in {"", "+dirty"}
    ensures (forall u | IsGitTag(u) && Before("0.0.0", u) :: Before(hash + x, u)) <==> Value(hash) == 0
    ensures (forall u | IsTag(u) && Before("0.0.0", u) :: Before(hash + x, u)) <==> Value(hash) == 0
  {
    hide Compare, Value, AllDigits, IsTag, IsGitTag, Number;
    SmallTag();
    TagOfGit("0.0.1");
    if Value(hash) == 0 {
      forall u | IsTag(u) && Before("0.0.0", u)
        ensures Before(hash + x, u)
      {
        ZerosBelow(hash, x, u);
      }
      forall u | IsGitTag(u) && Before("0.0.0", u)
        ensures Before(hash + x, u)
      {
        TagOfGit(u);
      }
    } else {
      NumberAbove(hash, x);
    }
  }

  lemma TagOfGit(u: string)
    ensures IsGitTag(u) ==> IsTag(u)
  {
  }

  lemma ZerosBelow(hash: string, x: string, u: string)
    requires hash != "" && AllDigits(hash) && Value(hash) == 0 && x in {"", "+dirty"}
    requires IsTag(u) && Before("0.0.0", u)
    ensures Before(hash + x, u)
  {
    hide Compare, Value;
    ZeroBelow(hash);
    Transitive(hash, "0.0.0", u);
    if x != "" {
      BetweenTags(hash, x, u);
    } else {
      assert hash + x == hash;
    }
  }

  lemma NumberAbove(hash: string, x: string)
    requires hash != "" && AllDigits(hash) && Value(hash) != 0 && x in {"", "+dirty"}
    requires Value(Number("0.0.1")) == 0
    ensures Before("0.0.1", hash + x) && !Before(hash + x, "0.0.1")
  {
    SplitNumber(hash, x);
    assert Text("0.0.1") == "";
    Round("0.0.1", hash + x);
    Antisymmetric("0.0.1", hash + x);
  }

  lemma {:induction false} ValuePrefix(a: string, b: string)
    ensures Value(a + b) >= Value(a)
    decreases |b|
  {
    if b == "" {
      assert a + b == a;
    } else {
      assert (a + b)[..|a + b| - 1] == a + b[..|b| - 1];
      ValuePrefix(a, b[..|b| - 1]);
    }
  }

  /** So the claim that an untagged build sorts below any tagged one fails for this hash and release 1.0. */
  lemma DigitHashExample()
    ensures Rewrite("1234567") == Some("1234567") && Before("1.0", "1234567")
  {
    var hash := "1234567";
    ValuePrefix("12", "34567");
    assert hash == "12" + "34567" && "12"[..1] == "1";
    assert Value("1") == 10 * Value("") + 1 && Value("12") == 10 * Value("1") + 2;
    SplitNumber("1", ".0");
    assert "1.0" == "1" + ".0";
    hide Rewrite, Compare, Value;
    DigitHashOutranks(hash, "1.0");
  }
}
