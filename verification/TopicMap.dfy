/** The topic array as a map from names to records. */
module TopicMap {
  import opened Delivery
  import opened GrowArray
  import opened Options
  import opened Protocol
  import opened Invariant
  import opened Safety

  function NameOf(k: Kafka, i: nat): string
    requires i < |k.topics| && k.topics[i] < |k.records|
  {
    k.records[k.topics[i]].name
  }

  ghost function Names(k: Kafka): set<string> {
    set i | 0 <= i < |k.topics| && k.topics[i] < |k.records| :: NameOf(k, i)
  }

  /** What kafka_table_find_locked answers, for every name at once. */
  ghost function Table(k: Kafka): map<string, Rid> {
    map name | name in Names(k) :: Answer(k, name)
  }

  ghost function Answer(k: Kafka, name: string): Rid
    requires name in Names(k)
  {
    var i :| 0 <= i < |k.topics| && k.topics[i] < |k.records| && NameOf(k, i) == name;
    assert Named(k, k.topics[i], name);
    k.topics[Lookup(k, name)]
  }

  ghost predicate WellNamed(k: Kafka) {
    && NameInv(k.records, k.topics)
    && forall i | 0 <= i < |k.topics| :: k.topics[i] < |k.records|
  }

  /** With distinct names, every entry of the array is the one its name finds. */
  lemma EntryFound(k: Kafka, i: nat)
    requires WellNamed(k) && i < |k.topics|
    ensures Lookup(k, NameOf(k, i)) == i
    ensures NameOf(k, i) in Table(k) && Table(k)[NameOf(k, i)] == k.topics[i]
  {
    var name := NameOf(k, i);
    assert Named(k, k.topics[i], name);
    assert name in Names(k);
    assert forall m | 0 <= m < i :: k.records[k.topics[m]].name != k.records[k.topics[i]].name;
  }

  lemma NameIndex(k: Kafka, name: string) returns (i: nat)
    requires name in Names(k)
    ensures i < |k.topics| && k.topics[i] < |k.records| && NameOf(k, i) == name
  {
    i :| 0 <= i < |k.topics| && k.topics[i] < |k.records| && NameOf(k, i) == name;
  }

  /** A map is the table as soon as it answers every entry and nothing else. */
  lemma TableIs(k: Kafka, m: map<string, Rid>)
    requires WellNamed(k)
    requires forall i | 0 <= i < |k.topics| :: NameOf(k, i) in m && m[NameOf(k, i)] == k.topics[i]
    requires forall name | name in m :: name in Names(k)
    ensures Table(k) == m
  {
    forall name | name in Names(k)
      ensures name in m && Table(k)[name] == m[name]
    {
      var i := NameIndex(k, name);
      EntryFound(k, i);
    }
  }

  /** What a step does to the table. */
  datatype Change = Same | Added(name: string, rid: Rid) | Removed(name: string) | Cleared

  function Changed(m: map<string, Rid>, change: Change): map<string, Rid> {
    match change
    case Same => m
    case Added(name, rid) => m[name := rid]
    case Removed(name) => m - {name}
    case Cleared => map[]
  }

  function ChangeOf(k: Kafka, p: Pc, c: Choice): Change {
    match p
    case Inside(Create(topic, _)) =>
      if !Has(k, topic) && k.producer.Some? && c.granted && k.producer.value.rk && topic != "" && c.built
      then Added(topic, |k.records|) else Same
    case Taking(idx) => if idx < |k.topics| && k.topics[idx] < |k.records| then Change.Removed(NameOf(k, idx)) else Same
    case AllFreeing(i) => if i < |k.topics| then Same else Cleared
    case _ => Same
  }

  lemma AddedTable(k: Kafka, made: Topic)
    requires WellNamed(k) && WellNamed(Registering(k, made)) && !Has(k, made.name)
    ensures made.name !in Table(k)
    ensures Table(Registering(k, made)) == Table(k)[made.name := |k.records|]
  {
    if made.name in Table(k) {
      var i := NameIndex(k, made.name);
      assert Named(k, k.topics[i], made.name);
    }
    var k' := Registering(k, made);
    var m := Table(k)[made.name := |k.records|];
    assert NameOf(k', |k.topics|) == made.name;
    forall i | 0 <= i < |k'.topics|
      ensures NameOf(k', i) in m && m[NameOf(k', i)] == k'.topics[i]
    {
      if i < |k.topics| {
        EntryFound(k, i);
        assert NameOf(k', i) == NameOf(k, i);
      }
    }
    forall name | name in m
      ensures name in Names(k')
    {
      if name != made.name {
        var i := NameIndex(k, name);
        assert NameOf(k', i) == name;
      }
    }
    TableIs(k', m);
  }

  lemma RemovedTable(k: Kafka, idx: nat)
    requires WellNamed(k) && idx < |k.topics| && WellNamed(StepTake(k, idx).0)
    ensures NameOf(k, idx) in Table(k)
    ensures Table(StepTake(k, idx).0) == Table(k) - {NameOf(k, idx)}
  {
    hide Table;
    EntryFound(k, idx);
    var k' := StepTake(k, idx).0;
    var m := Table(k) - {NameOf(k, idx)};
    forall i | 0 <= i < |k'.topics|
      ensures NameOf(k', i) in m && m[NameOf(k', i)] == k'.topics[i]
    {
      MovedEntry(k, idx, i);
    }
    forall name | name in m
      ensures name in Names(k')
    {
      var i := TableIndex(k, name);
      assert NameOf(k', if i == |k.topics| - 1 then idx else i) == name;
    }
    TableIs(k', m);
  }

  lemma TableIndex(k: Kafka, name: string) returns (i: nat)
    requires name in Table(k)
    ensures i < |k.topics| && k.topics[i] < |k.records| && NameOf(k, i) == name
  {
    i := NameIndex(k, name);
  }

  /** After the swap each entry is one of the old ones, under another name than the one removed. */
  lemma MovedEntry(k: Kafka, idx: nat, i: nat)
    requires WellNamed(k) && idx < |k.topics| && i < |k.topics| - 1
    ensures var k' := StepTake(k, idx).0;
            && k'.topics[i] < |k'.records|
            && NameOf(k', i) in Table(k) && NameOf(k', i) != NameOf(k, idx) && Table(k)[NameOf(k', i)] == k'.topics[i]
  {
    hide Table;
    EntryFound(k, if i == idx then |k.topics| - 1 else i);
  }

  lemma SameTable(k: Kafka, k': Kafka)
    requires WellNamed(k) && k'.topics == k.topics && |k'.records| >= |k.records|
    requires forall r | 0 <= r < |k.records| :: k'.records[r].name == k.records[r].name
    ensures Table(k') == Table(k)
  {
    assert forall i | 0 <= i < |k.topics| :: NameOf(k', i) == NameOf(k, i);
    assert WellNamed(k');
    forall i | 0 <= i < |k.topics|
      ensures NameOf(k', i) in Table(k) && Table(k)[NameOf(k', i)] == k'.topics[i]
    {
      EntryFound(k, i);
    }
    forall name | name in Table(k)
      ensures name in Names(k')
    {
      var i := NameIndex(k, name);
      assert NameOf(k', i) == name;
    }
    TableIs(k', Table(k));
  }

  // ---------------------------------------------------------------- what stays

  /** Names and owners are never changed. */
  lemma StepNames(k: Kafka, p: Pc, c: Choice)
    requires Ready(k, p, c)
    ensures |Step(k, p, c).0.records| >= |k.records|
    ensures forall r | 0 <= r < |k.records| :: Step(k, p, c).0.records[r].name == k.records[r].name
  {
    hide SwapRemove, Has, Lookup, Busy, Replay, ToInt32;
  }

  lemma NamesStay(s: State, a: Action)
    requires Enabled(s, a)
    ensures |Do(s, a).k.records| >= |s.k.records|
    ensures forall r | 0 <= r < |s.k.records| :: Do(s, a).k.records[r].name == s.k.records[r].name
  {
    match a
    case Work(t, c) =>
      hide Step;
      StepNames(s.k, s.pc[t], c);
    case _ =>
  }

  /** The record whose memory an action changes, if any: a callback's, or one whose handle is released. */
  function Rewrites(s: State, a: Action): Option<Rid> {
    match a
    case Deliver(_, r, _, _) => Some(r)
    case Work(t, _) =>
      if t !in s.pc then None
      else (match s.pc[t]
            case Disposing(r) => Some(r)
            case AllDisposing(i) => if i < |s.k.topics| then Some(s.k.topics[i]) else None
            case _ => None)
    case _ => None
  }

  lemma StepRecords(k: Kafka, p: Pc, c: Choice)
    requires Ready(k, p, c) && !p.Disposing? && !p.AllDisposing?
    ensures k.records <= Step(k, p, c).0.records
  {
    hide SwapRemove, Has, Lookup, Busy, Replay, ToInt32;
  }

  /** Every other record keeps its identity, its handle and its counters. */
  lemma OthersStay(s: State, a: Action, r: Rid)
    requires Enabled(s, a) && r < |s.k.records| && Rewrites(s, a) != Some(r)
    ensures r < |Do(s, a).k.records| && Do(s, a).k.records[r] == s.k.records[r]
  {
    match a
    case Work(t, c) =>
      var p := s.pc[t];
      StepCases(s.k, p, c);
      hide Step;
      if !p.Disposing? && !p.AllDisposing? {
        StepRecords(s.k, p, c);
      }
    case _ =>
  }

  lemma StepTopics(k: Kafka, p: Pc, c: Choice)
    requires Ready(k, p, c) && ChangeOf(k, p, c).Same?
    ensures Step(k, p, c).0.topics == k.topics
  {
    hide Has, Lookup, Busy, Replay, ToInt32;
  }

  lemma InvWellNamed(s: State)
    requires Inv(s)
    ensures WellNamed(s.k)
  {
  }

  lemma AddingStep(k: Kafka, p: Pc, c: Choice)
    requires Ready(k, p, c) && ChangeOf(k, p, c).Added?
    ensures Step(k, p, c).0 == Registering(k, Topic(p.op.topic, true, k.producer.value.id, []))
    ensures !Has(k, p.op.topic)
  {
    hide Lookup;
  }

  /** In every run each step leaves the map alone, adds one new name, removes one name, or empties it at
      the end of a teardown; and what it does to the array is what it does to the map. */
  lemma OneKeyPerStep(s: State, t: Tid, c: Choice)
    requires Reachable(s) && Enabled(s, Work(t, c))
    ensures var change := ChangeOf(s.k, s.pc[t], c);
            && Table(Do(s, Work(t, c)).k) == Changed(Table(s.k), change)
            && (change.Added? ==> change.name !in Table(s.k) && change.rid == |s.k.records|)
            && (change.Removed? ==> change.name in Table(s.k))
  {
    hide Reachable, Inv, Step, Table;
    ReachableInv(s);
    var k := s.k;
    var p := s.pc[t];
    var s' := Do(s, Work(t, c));
    ActionInv(s, Work(t, c));
    InvWellNamed(s);
    InvWellNamed(s');
    match ChangeOf(k, p, c)
    case Same =>
      StepTopics(k, p, c);
      StepNames(k, p, c);
      SameTable(k, s'.k);
    case Added(name, _) =>
      AddingStep(k, p, c);
      AddedTable(k, Topic(name, true, k.producer.value.id, []));
    case Removed(_) =>
      StepCases(k, p, c);
      RemovedTable(k, p.idx);
    case Cleared =>
      StepCases(k, p, c);
      EmptyTable(s'.k);
  }

  lemma EmptyTable(k: Kafka)
    requires k.topics == []
    ensures Table(k) == map[]
  {
    assert Names(k) == {};
  }

  /** No other thread, and no callback, changes the map. */
  lemma OtherActionsKeepTable(s: State, a: Action)
    requires Reachable(s) && Enabled(s, a) && !a.Work?
    ensures Table(Do(s, a).k) == Table(s.k)
  {
    hide Reachable, Inv, Table;
    ReachableInv(s);
    InvWellNamed(s);
    NamesStay(s, a);
    SameTable(s.k, Do(s, a).k);
  }

  /** The map has as many keys as the array has entries, and no record has two names. */
  lemma TableSize(s: State)
    requires Reachable(s)
    ensures |Table(s.k)| == |s.k.topics|
    ensures forall n, m | n in Table(s.k) && m in Table(s.k) && n != m :: Table(s.k)[n] != Table(s.k)[m]
  {
    ReachableInv(s);
    InvWellNamed(s);
    assert Distinct(s.k.topics);
    hide Inv;
    CountNames(s.k, |s.k.topics|);
    NamesUpTo(s.k);
    forall n, m | n in Table(s.k) && m in Table(s.k) && n != m
      ensures Table(s.k)[n] != Table(s.k)[m]
    {
      var i := NameIndex(s.k, n);
      var j := NameIndex(s.k, m);
      EntryFound(s.k, i);
      EntryFound(s.k, j);
    }
  }

  function FirstNames(k: Kafka, n: nat): set<string>
    requires n <= |k.topics|
  {
    set i | 0 <= i < n && k.topics[i] < |k.records| :: NameOf(k, i)
  }

  lemma NamesUpTo(k: Kafka)
    ensures FirstNames(k, |k.topics|) == Names(k) == Table(k).Keys
  {
  }

  lemma {:induction false} CountNames(k: Kafka, n: nat)
    requires WellNamed(k) && n <= |k.topics|
    ensures |FirstNames(k, n)| == n
  {
    if n > 0 {
      CountNames(k, n - 1);
      OneMoreName(k, n);
    } else {
      assert FirstNames(k, 0) == {};
    }
  }

  lemma OneMoreName(k: Kafka, n: nat)
    requires WellNamed(k) && 0 < n <= |k.topics|
    ensures |FirstNames(k, n)| == |FirstNames(k, n - 1)| + 1
  {
    var before := FirstNames(k, n - 1);
    var name := NameOf(k, n - 1);
    forall x | x in FirstNames(k, n)
      ensures x in before + {name}
    {
      var i :| 0 <= i < n && k.topics[i] < |k.records| && x == NameOf(k, i);
      assert i < n - 1 ==> NameOf(k, i) in before;
    }
    assert FirstNames(k, n) == before + {name};
    assert name !in before;
  }

  // ---------------------------------------------------------------- the lookup

  /** A name is found exactly if some entry's record has it, letter by letter, and then the first is found. */
  lemma FoundExactly(k: Kafka, name: string)
    ensures Has(k, name) <==> exists r | r in k.topics :: r < |k.records| && k.records[r].name == name
    ensures var i := Lookup(k, name);
            && i <= |k.topics|
            && (i < |k.topics| ==> Has(k, name) && k.topics[i] < |k.records| && k.records[k.topics[i]].name == name)
            && forall j | 0 <= j < i :: k.topics[j] < |k.records| ==> k.records[k.topics[j]].name != name
  {
    var i := Lookup(k, name);
    if i < |k.topics| {
      assert k.topics[i] in k.topics;
    }
    if r :| r in k.topics && r < |k.records| && k.records[r].name == name {
      var j :| 0 <= j < |k.topics| && k.topics[j] == r;
      assert Named(k, k.topics[j], name);
    }
  }
}
