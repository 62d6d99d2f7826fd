/** What follows for every run of the system: no freed record is ever used, records and messages are
    conserved, and the topic array is a map from names to records. */
module Safety {
  import opened Delivery
  import opened GrowArray
  import opened Options
  import opened Protocol
  import opened Invariant

  /** A state some run leads to, whatever the sessions, librdkafka and the scheduler do. */
  ghost predicate Reachable(s: State) {
    exists s0, run :: Reaches(s0, run, s)
  }

  ghost predicate Reaches(s0: State, run: seq<Action>, s: State) {
    Initial(s0) && IsRun(s0, run) && After(s0, run) == s
  }

  lemma ReachableInv(s: State)
    requires Reachable(s)
    ensures Inv(s)
  {
    var s0, run :| Reaches(s0, run, s);
    InitialInv(s0);
    RunInv(s0, run);
  }

  // ---------------------------------------------------------------- no use after free

  function Listed(a: seq<Rid>): set<Rid> {
    set r | r in a
  }

  /** The records whose memory the next step of a session reads, writes or frees. */
  function Uses(k: Kafka, p: Pc): set<Rid> {
    match p
    case Inside(Connect) => {}
    case Inside(DismissAll) => {}
    case Inside(_) => Listed(k.topics)       // compares every name
    case Producing(r, _) => {r}
    case StatsFlushing(r, _) => {r}
    case StatsFirst(r, _, _) => {r}
    case StatsSecond(r, _, _, _) => {r}
    case Disposing(r) => {r}
    case Freeing(r) => {r}
    case AllDisposing(i) => if i < |k.topics| then {k.topics[i]} else {}
    case AllFreeing(i) => if i < |k.topics| then {k.topics[i]} else {}
    case ReapFree(i, _) => if i < |k.retired| then {k.retired[i]} else {}
    case AllReaping(i) => if i < |k.retired| then {k.retired[i]} else {}
    case _ => {}
  }

  function Touched(s: State, a: Action): set<Rid> {
    match a
    case Work(t, _) => if t in s.pc then Uses(s.k, s.pc[t]) else {}
    case Deliver(_, r, _, _) => {r}
    case _ => {}
  }

  ghost predicate Alive(k: Kafka, rs: set<Rid>) {
    forall r | r in rs :: r < |k.records| && k.places[r] != Freed
  }

  /** A registered record has a live handle and borrows the live producer, while nobody writes. */
  lemma BorrowedAlive(k: Kafka, r: Rid)
    requires TableInv(k, Idle) && r in k.topics
    ensures Feedable(k, r)
  {
    var i :| 0 <= i < |k.topics| && k.topics[i] == r;
    assert r < |k.records| && k.records[r].handle;
  }

  lemma WriterUsesAlive(k: Kafka, w: Pc)
    requires TableInv(k, w) && Holds(w) == Write
    ensures Alive(k, Uses(k, w))
  {
  }

  lemma ReaderUsesAlive(k: Kafka, p: Pc)
    requires TableInv(k, Idle) && Holds(p) == Read
    requires InUse(p).Some? ==> InUse(p).value in k.topics
    ensures Alive(k, Uses(k, p))
  {
  }

  /** Every record a step reads, writes or frees was allocated and is not freed: no use after free and
      no double free, by sessions or by callbacks. */
  lemma NoUseAfterFree(s: State, a: Action)
    requires Reachable(s) && Enabled(s, a)
    ensures Alive(s.k, Touched(s, a))
  {
    ReachableInv(s);
    match a
    case Work(t, _) =>
      hide TableInv, Uses;
      var p := s.pc[t];
      if Holds(p) == Write {
        WriterUsesAlive(s.k, p);
      } else if Holds(p) == Read {
        ReaderUsesAlive(s.k, p);
      }
    case _ =>
  }

  /** Every message in the out queue names a record that callbacks may still write to. */
  lemma QueuedRecordsExist(s: State, r: Rid)
    requires Reachable(s) && r in s.k.queue
    ensures r < |s.k.records| && s.k.places[r] in {Registered, Held, Parked, Leaked}
  {
    ReachableInv(s);
  }

  // ---------------------------------------------------------------- why the check before the free holds

  /** While a session holds the lock for writing the out queue can only shrink. */
  lemma QueueShrinksUnderWriter(s: State, a: Action)
    requires Inv(s) && Enabled(s, a) && s.writer.Some?
    ensures Do(s, a).k.queue <= s.k.queue
  {
    hide TableInv;
    match a
    case Work(t, c) =>
      if Holds(s.pc[t]) == Write {
        WriterQueue(s.k, s.pc[t], c);
      }
    case _ =>
  }

  lemma WriterQueue(k: Kafka, w: Pc, c: Choice)
    requires Holds(w) == Write && Ready(k, w, c)
    ensures Step(k, w, c).0.queue <= k.queue
  {
    hide SwapRemove, Has, Lookup;
  }

  /** So a queue found empty under the write lock is empty until the lock is released. */
  lemma {:induction false} EmptyStaysEmpty(s: State, run: seq<Action>, t: Tid)
    requires Inv(s) && IsRun(s, run) && s.writer == Some(t) && |s.k.queue| == 0
    requires Unlock(t) !in run
    ensures After(s, run).writer == Some(t) && |After(s, run).k.queue| == 0
    decreases |run|
  {
    if run != [] {
      var a := run[0];
      hide TableInv;
      QueueShrinksUnderWriter(s, a);
      ActionInv(s, a);
      KeepsWriter(s, a, t);
      EmptyStaysEmpty(Do(s, a), run[1..], t);
    }
  }

  lemma KeepsWriter(s: State, a: Action, t: Tid)
    requires LockInv(s) && Enabled(s, a) && s.writer == Some(t) && a != Unlock(t)
    ensures Do(s, a).writer == Some(t)
  {
    hide Step;
  }

  /** How a record's place may change. */
  predicate Evolves(p: Place, q: Place) {
    || p == q
    || (p == Registered && (q == Held || q == Freed))
    || (p == Held && (q == Parked || q == Leaked || q == Freed))
    || (p == Parked && q == Freed)
  }

  predicate MovesRecords(w: Pc) {
    w.Taking? || w.Deciding? || w.Freeing? || w.ReapFree? || w.AllFreeing? || w.AllReaping?
  }

  lemma StepPlaces(k: Kafka, w: Pc, c: Choice)
    requires TableInv(k, w) && Holds(w) == Write && Ready(k, w, c)
    ensures |Step(k, w, c).0.records| >= |k.records|
    ensures forall r | 0 <= r < |k.records| :: Evolves(k.places[r], Step(k, w, c).0.places[r])
  {
    if MovesRecords(w) {
      StepCases(k, w, c);
      HandFacts(k, w);
      hide TableInv, Step, SwapRemove, Busy;
    } else {
      hide TableInv;
      StepKeepsPlaces(k, w, c);
    }
  }

  /** The steps that change places are the ones that take, settle or free a record. */
  lemma StepKeepsPlaces(k: Kafka, w: Pc, c: Choice)
    requires Ready(k, w, c) && !MovesRecords(w)
    ensures k.places <= Step(k, w, c).0.places
  {
    hide SwapRemove, Has, Lookup, Busy, Replay;
  }

  lemma HandFacts(k: Kafka, w: Pc)
    requires TableInv(k, w)
    ensures InHand(w).Some? ==> InHand(w).value < |k.places| && k.places[InHand(w).value] == Held
    ensures forall i | FreedTopics(w) <= i < |k.topics| :: k.topics[i] < |k.places| && k.places[k.topics[i]] == Registered
    ensures forall i | FreedRetired(w) <= i < |k.retired| :: k.retired[i] < |k.places| && k.places[k.retired[i]] == Parked
  {
  }

  lemma ReaderPlaces(k: Kafka, p: Pc, c: Choice)
    requires Holds(p) == Read && Ready(k, p, c)
    ensures Step(k, p, c).0.places == k.places && |Step(k, p, c).0.records| == |k.records|
  {
    hide Has, Lookup, Replay;
  }

  /** A record leaves the array once, is freed at most once, and never comes back. */
  lemma PlacesEvolve(s: State, a: Action)
    requires Inv(s) && Enabled(s, a)
    ensures |Do(s, a).k.records| >= |s.k.records|
    ensures forall r | 0 <= r < |s.k.records| ::
              var p, q := s.k.places[r], Do(s, a).k.places[r];
              || p == q
              || (p == Registered && (q == Held || q == Freed))
              || (p == Held && (q == Parked || q == Leaked || q == Freed))
              || (p == Parked && q == Freed)
  {
    hide TableInv, Step;
    match a
    case Work(t, c) =>
      if Holds(s.pc[t]) == Write {
        StepPlaces(s.k, s.pc[t], c);
      } else {
        ReaderPlaces(s.k, s.pc[t], c);
        Unmoved(s.k.places);
      }
    case _ =>
      Unmoved(s.k.places);
  }

  /** Memory is given up on in one place only: for a record that has been taken out, with messages in flight,
      and no room to remember it. */
  lemma LeaksOnlyThen(s: State, a: Action, r: Rid)
    requires Inv(s) && Enabled(s, a) && r < |s.k.records|
    ensures r < |Do(s, a).k.places|
    ensures Do(s, a).k.places[r] == Leaked && s.k.places[r] != Leaked ==>
              a.Work? && s.pc[a.t] == Deciding(r) && |s.k.queue| > 0 && !a.choice.granted
  {
    hide Step, TableInv, Ready;
    if a.Work? && Holds(s.pc[a.t]) == Write {
      WriterIs(s, a.t);
      LeakStep(s.k, s.pc[a.t], a.choice, r);
    } else if a.Work? {
      hide LockInv, ReaderInv;
      ReadyHolds(s.k, s.pc[a.t], a.choice);
      ReaderPlaces(s.k, s.pc[a.t], a.choice);
    }
  }

  lemma LeakStep(k: Kafka, w: Pc, c: Choice, r: Rid)
    requires TableInv(k, w) && Ready(k, w, c) && r < |k.places|
    ensures r < |Step(k, w, c).0.places|
    ensures Step(k, w, c).0.places[r] == Leaked && k.places[r] != Leaked ==>
              w == Deciding(r) && |k.queue| > 0 && !c.granted
  {
    if w.Deciding? {
      hide Step, Ready;
      DecideLeaks(k, w.rid, c, r);
    } else if MovesRecords(w) {
      StepCases(k, w, c);
      hide TableInv, Step, SwapRemove, Busy, Ready;
    } else {
      hide TableInv;
      StepKeepsPlaces(k, w, c);
    }
  }

  lemma DecideLeaks(k: Kafka, rid: Rid, c: Choice, r: Rid)
    requires TableInv(k, Deciding(rid)) && Ready(k, Deciding(rid), c) && r < |k.places|
    ensures r < |Step(k, Deciding(rid), c).0.places|
    ensures Step(k, Deciding(rid), c).0.places[r] == Leaked && k.places[r] != Leaked ==>
              r == rid && |k.queue| > 0 && !c.granted
  {
    StepCases(k, Deciding(rid), c);
    HandFacts(k, Deciding(rid));
    QueueNeedsProducer(k, Deciding(rid));
    hide TableInv, Step, Ready;
  }

  lemma Unmoved(places: seq<Place>)
    ensures forall r | 0 <= r < |places| :: Evolves(places[r], places[r])
  {
  }

  /** From the moment a record has left the topic array, its messages in flight only become fewer. */
  lemma {:induction false} OnlyDrains(s: State, run: seq<Action>, r: Rid)
    requires Inv(s) && IsRun(s, run) && r < |s.k.records| && s.k.places[r] != Registered
    ensures r < |After(s, run).k.records| && After(s, run).k.places[r] != Registered
    ensures After(s, run).k.queue[r] <= s.k.queue[r]
    decreases |run|
  {
    if run != [] {
      hide TableInv;
      PlacesEvolve(s, run[0]);
      DrainsStep(s, run[0], r);
      ActionInv(s, run[0]);
      OnlyDrains(Do(s, run[0]), run[1..], r);
    }
  }

  lemma DrainsStep(s: State, a: Action, r: Rid)
    requires Inv(s) && Enabled(s, a) && r < |s.k.records| && s.k.places[r] != Registered
    ensures Do(s, a).k.queue[r] <= s.k.queue[r]
  {
    hide Inv, Step, Ready;
    match a
    case Work(t, c) => WorkDrains(s, t, c, r);
    case _ =>
  }

  lemma WorkDrains(s: State, t: Tid, c: Choice, r: Rid)
    requires Inv(s) && t in s.pc && Ready(s.k, s.pc[t], c) && r < |s.k.records| && s.k.places[r] != Registered
    ensures Step(s.k, s.pc[t], c).0.queue[r] <= s.k.queue[r]
  {
    hide Inv, Step, Ready;
    ReadyHolds(s.k, s.pc[t], c);
    if Holds(s.pc[t]) == Write {
      WriterQueue(s.k, s.pc[t], c);
    } else {
      if s.pc[t].Producing? {
        ProducesToRegistered(s, t);
      }
      ReaderQueue(s.k, s.pc[t], c, r);
    }
  }

  lemma ReadyHolds(k: Kafka, p: Pc, c: Choice)
    requires Ready(k, p, c)
    ensures Holds(p) != Unlocked
  {
  }

  lemma ReaderQueue(k: Kafka, p: Pc, c: Choice, r: Rid)
    requires Holds(p) == Read && Ready(k, p, c) && (p.Producing? ==> p.rid != r)
    ensures Step(k, p, c).0.queue[r] <= k.queue[r]
  {
    hide Has, Lookup, Replay, ToInt32;
  }

  lemma ProducesToRegistered(s: State, t: Tid)
    requires Inv(s) && t in s.pc && s.pc[t].Producing?
    ensures s.pc[t].rid < |s.k.records| && s.k.places[s.pc[t].rid] == Registered
  {
    assert Holds(s.pc[t]) == Read;
    assert s.pc[t].rid in s.k.topics;
  }

  // ---------------------------------------------------------------- conservation of records

  function Created(k: Kafka): set<Rid> {
    set r {:trigger k.records[r]} | 0 <= r < |k.records|
  }

  function At(k: Kafka, place: Place): set<Rid> {
    set r | 0 <= r < |k.places| && k.places[r] == place
  }

  /** What the arrays hold, beyond what a teardown loop has already freed. */
  function Entries(a: seq<Rid>, gone: nat): set<Rid> {
    set i | gone <= i < |a| :: a[i]
  }

  /** Every record created is in the topic array, in the retired array, in the hand of the writer, leaked
      or freed, and in one of these only; no array lists a record twice. */
  lemma RecordConservation(s: State)
    requires Reachable(s)
    ensures var k := s.k;
            var w := WriterPc(s);
            var registered := Entries(k.topics, FreedTopics(w));
            var retired := Entries(k.retired, FreedRetired(w));
            var held := if InHand(w).Some? then {InHand(w).value} else {};
            && Created(k) == registered + retired + held + At(k, Leaked) + At(k, Freed)
            && registered !! retired !! held !! At(k, Leaked) !! At(k, Freed)
            && Distinct(k.topics) && Distinct(k.retired)
  {
    ReachableInv(s);
    var k := s.k;
    var w := WriterPc(s);
    EntriesAt(k, k.topics, FreedTopics(w), Registered);
    EntriesAt(k, k.retired, FreedRetired(w), Parked);
    assert At(k, Held) == if InHand(w).Some? then {InHand(w).value} else {};
    PlacesPartition(k);
    hide Entries, At, Created, MessageInv, NameInv, HandleInv, HandInv, ConnectInv;
  }

  lemma EntriesAt(k: Kafka, a: seq<Rid>, gone: nat, place: Place)
    requires Stored(k.places, a, gone, place) && place != Freed
    ensures Entries(a, gone) == At(k, place)
  {
    var e := Entries(a, gone);
    forall r | r in At(k, place)
      ensures r in e
    {
      assert r in a;
    }
  }

  lemma PlacesPartition(k: Kafka)
    ensures Created(k) == At(k, Registered) + At(k, Parked) + At(k, Held) + At(k, Leaked) + At(k, Freed)
    ensures At(k, Registered) !! At(k, Parked) !! At(k, Held) !! At(k, Leaked) !! At(k, Freed)
  {
  }

  lemma NothingKept(k: Kafka, i: nat)
    requires TableInv(k, AllReaping(i)) && i >= |k.retired|
    ensures k.producer.None? && k.topics == [] && |k.queue| == 0
    ensures Created(k) == At(k, Leaked) + At(k, Freed)
    ensures forall r | 0 <= r < |k.places| :: k.places[r] == Leaked || k.places[r] == Freed
  {
    AllGone(k.places, k.retired, i, Parked);
    PlacesPartition(k);
    assert At(k, Registered) == {} && At(k, Parked) == {} && At(k, Held) == {};
    assert forall r | 0 <= r < |k.places| :: r in Created(k);
  }

  /** When kafka_table_dismiss_all is about to release the lock, whatever was not leaked is freed. */
  lemma TeardownComplete(s: State, t: Tid, c: Choice)
    requires Reachable(s) && t in s.pc && s.pc[t].AllReaping? && s.pc[t].i >= |s.k.retired|
    ensures Enabled(s, Work(t, c))
    ensures var s' := Do(s, Work(t, c));
            && s'.pc[t] == Leave(Write, Returned(Status(0)))
            && s'.k.producer.None? && s'.k.topics == [] && s'.k.retired == [] && |s'.k.queue| == 0
            && (forall r | 0 <= r < |s'.k.places| :: s'.k.places[r] == Leaked || s'.k.places[r] == Freed)
            && Created(s'.k) == At(s'.k, Leaked) + At(s'.k, Freed)
  {
    hide Reachable, TableInv, LockInv, ReaderInv, Step;
    ReachableInv(s);
    WriterIs(s, t);
    StepCases(s.k, s.pc[t], c);
    match s.pc[t]
    case AllReaping(i) =>
      NothingKept(s.k, i);
  }

  lemma WriterIs(s: State, t: Tid)
    requires LockInv(s) && t in s.pc && Holds(s.pc[t]) == Write
    ensures WriterPc(s) == s.pc[t]
  {
  }

  // ---------------------------------------------------------------- conservation of messages

  /** Produce calls of a run that queued a message for a record. */
  function Produced(s: State, run: seq<Action>, r: Rid): nat
    requires IsRun(s, run)
    decreases |run|
  {
    if run == [] then 0
    else (if Queues(s, run[0]) == Some(r) then 1 else 0) + Produced(Do(s, run[0]), run[1..], r)
  }

  /** The record an action queues a message for. */
  function Queues(s: State, a: Action): Option<Rid> {
    if a.Work? && a.t in s.pc && s.pc[a.t].Producing? && a.choice.outcome.Queued? then Some(s.pc[a.t].rid) else None
  }

  function Accepted(k: Kafka, r: Rid): nat {
    if r < |k.accounts| then k.accounts[r].accepted else 0
  }

  lemma AcceptedStep(s: State, a: Action, r: Rid)
    requires Enabled(s, a)
    ensures Accepted(Do(s, a).k, r) == Accepted(s.k, r) + if Queues(s, a) == Some(r) then 1 else 0
  {
    match a
    case Work(t, c) => StepAccepted(s.k, s.pc[t], c, r);
    case _ =>
  }

  lemma StepAccepted(k: Kafka, p: Pc, c: Choice, r: Rid)
    requires Ready(k, p, c)
    ensures Accepted(Step(k, p, c).0, r) == Accepted(k, r) + if p.Producing? && c.outcome.Queued? && p.rid == r then 1 else 0
  {
    hide SwapRemove, Has, Lookup, Busy, Replay, ToInt32;
  }

  lemma {:induction false} AcceptedRun(s: State, run: seq<Action>, r: Rid)
    requires IsRun(s, run)
    ensures Accepted(After(s, run).k, r) == Accepted(s.k, r) + Produced(s, run, r)
    decreases |run|
  {
    if run != [] {
      hide Do, Enabled;
      AcceptedStep(s, run[0], r);
      AcceptedRun(Do(s, run[0]), run[1..], r);
    }
  }

  /** In every run, for every record, retired ones included: the messages the run queued for it are those
      reported as delivered, reported as failed, still in flight, or dropped when the producer was
      destroyed; and the counters kafka_stats() shows are those numbers modulo 2^32. */
  lemma DeliveryAccounting(s: State, run: seq<Action>, r: Rid)
    requires Initial(s) && IsRun(s, run) && r < |After(s, run).k.records|
    ensures var k := After(s, run).k;
            var history := k.records[r].history;
            && Produced(s, run, r) == Successes(history) + Failures(history) + k.queue[r] + k.accounts[r].dropped
            && CountersOf(k, r).transferred == Successes(history) % U32_LIMIT
            && CountersOf(k, r).failed == Failures(history) % U32_LIMIT
            && (k.producer.Some? && k.places[r] == Registered ==> k.accounts[r].dropped == 0)
  {
    InitialInv(s);
    RunInv(s, run);
    AcceptedRun(s, run, r);
    CountersCount(After(s, run).k.records[r].history);
  }

  // ---------------------------------------------------------------- the state of the module

  /** Connected or not, between calls and during them. */
  lemma ModuleState(s: State)
    requires Reachable(s)
    ensures s.k.producer.None? && s.writer.None? ==> s.k.topics == [] && s.k.retired == []
    ensures s.k.producer.None? ==> s.k.queue == multiset{}
    ensures s.k.producer.Some? ==> s.k.producer.value.rk && !s.k.producer.value.conf
    ensures s.k.producer.Some? && s.writer.None? ==>
              var p := s.k.producer.value; p.started && p.running && p.poller.Polling?
    ensures s.writer.None? ==> forall r | r in s.k.topics :: Feedable(s.k, r)
  {
    ReachableInv(s);
    forall r | s.writer.None? && r in s.k.topics
      ensures Feedable(s.k, r)
    {
      var i :| 0 <= i < |s.k.topics| && s.k.topics[i] == r;
    }
  }

  /** The guard of tek_kafka_topic_feed never turns away a topic that was found. */
  lemma GuardNeverRejects(s: State, t: Tid, c: Choice)
    requires Reachable(s) && Enabled(s, Work(t, c)) && s.pc[t].Inside? && s.pc[t].op.Send?
    ensures Has(s.k, s.pc[t].op.topic) <==> Do(s, Work(t, c)).pc[t].Producing?
  {
    hide Reachable, Inv, Lookup, Feedable, Ready;
    ReachableInv(s);
    ReadersTable(s, t);
    var i := Lookup(s.k, s.pc[t].op.topic);
    if i < |s.k.topics| {
      BorrowedAlive(s.k, s.k.topics[i]);
    }
  }

  /** While a session holds the lock for reading, the table is as it is while nobody writes, and the record
      the session uses is registered. */
  lemma ReadersTable(s: State, t: Tid)
    requires Inv(s) && t in s.pc && Holds(s.pc[t]) == Read
    ensures TableInv(s.k, Idle)
    ensures InUse(s.pc[t]).Some? ==> InUse(s.pc[t]).value in s.k.topics
  {
    hide TableInv;
  }

  // ---------------------------------------------------------------- the lock, the callbacks, the decision

  /** Two sessions are inside the lock at once only if both are sending or reading counters; a session can
      enter to do so whenever nobody writes, and for anything else only when nobody is inside. */
  lemma LockExcludes(s: State, t: Tid, u: Tid)
    requires Reachable(s) && t in s.pc && u in s.pc && t != u
    ensures s.writer == Some(t) ==> s.readers == {} && Holds(s.pc[u]) == Unlocked
    ensures t in s.readers ==> s.writer.None? && Holds(s.pc[u]) != Write
    ensures s.pc[t].Wait? ==>
              (Enabled(s, Acquire(t)) <==>
                 s.writer.None? && (s.pc[t].op.Exists? || s.pc[t].op.Send? || s.pc[t].op.Stats? || s.readers == {}))
  {
    hide Reachable, TableInv, ReaderInv;
    ReachableInv(s);
  }

  /** A report of a failure is counted as a failure, and of a success as a success, on the record its message
      names and on no other; the message leaves the queue, and nothing else happens to the table. */
  lemma DeliverCounts(s: State, agent: Agent, r: Rid, err: int, now: int, x: Rid)
    requires Enabled(s, Deliver(agent, r, err, now)) && x < |s.k.records|
    ensures var k' := Do(s, Deliver(agent, r, err, now)).k;
            && |k'.records| == |s.k.records|
            && Failures(k'.records[x].history) == Failures(s.k.records[x].history) + (if x == r && err != NO_ERROR then 1 else 0)
            && Successes(k'.records[x].history) == Successes(s.k.records[x].history) + (if x == r && err == NO_ERROR then 1 else 0)
            && k'.queue == s.k.queue - multiset{r} && r in s.k.queue
            && k' == s.k.(records := k'.records, queue := k'.queue)
            && k'.records[x] == s.k.records[x].(history := k'.records[x].history)
  {
    ReportsExtend(s.k.records[r].history, Report(err, now));
    hide Failures, Successes;
  }

  /** Where a session's own call to librdkafka may serve reports: the polls of the produce loop, the three
      flushes, and the destruction of the producer. */
  lemma CallbackPoints(s: State, t: Tid, r: Rid, err: int, now: int)
    requires t in s.pc && r < |s.k.records| && r in s.k.queue && s.k.producer.Some? && s.k.producer.value.rk
    ensures Enabled(s, Deliver(Session(t), r, err, now)) <==>
              match s.pc[t] {
                case Retrying(_, _) => true
                case Draining(_, _) => true
                case Flushing(_) => true
                case AllFlushing => true
                case StatsFlushing(_, _) => true
                case AllDestroying => true
                case _ => false
              }
  {
  }

  /** A record that has been taken out is freed exactly if the out queue is empty when it is looked at;
      otherwise it is parked, or leaked for want of memory. */
  lemma DecidesByQueue(s: State, t: Tid, c: Choice)
    requires Reachable(s) && Enabled(s, Work(t, c)) && s.pc[t].Deciding?
    ensures var s' := Do(s, Work(t, c));
            && (s'.pc[t] == Freeing(s.pc[t].rid) <==> |s.k.queue| == 0)
            && (|s.k.queue| == 0 ==> s'.k == s.k)
            && (|s.k.queue| > 0 ==>
                  && s'.pc[t] == ReapCheck(Returned(Status(0)))
                  && s'.k.places[s.pc[t].rid] == (if c.granted then Parked else Leaked)
                  && s'.k.retired == s.k.retired + (if c.granted then [s.pc[t].rid] else []))
  {
    ReachableInv(s);
    hide LockInv, ReaderInv;
    StepCases(s.k, s.pc[t], c);
    hide Step;
    QueueNeedsProducer(s.k, WriterPc(s));
    hide TableInv;
  }

  lemma QueueNeedsProducer(k: Kafka, w: Pc)
    requires TableInv(k, w)
    ensures |k.queue| > 0 ==> k.producer.Some? && k.producer.value.rk
  {
    hide PlaceInv, MessageInv, NameInv, HandleInv;
  }

  /** Retired records are freed, one after the other and all of them, exactly if the out queue is empty when
      the lock holder looks. */
  lemma ReapsByQueue(s: State, t: Tid, c: Choice)
    requires Reachable(s) && Enabled(s, Work(t, c)) && s.pc[t].ReapCheck?
    ensures var s' := Do(s, Work(t, c));
            && s'.k == s.k
            && (|s.k.queue| == 0 && s.k.retired != [] ==> s'.pc[t] == ReapFree(0, s.pc[t].next))
            && (|s.k.queue| > 0 || s.k.retired == [] ==> s'.pc[t] == Leave(Write, s.pc[t].next))
  {
    ReachableInv(s);
    hide LockInv, ReaderInv;
    QueueNeedsProducer(s.k, WriterPc(s));
    hide TableInv;
  }
}
