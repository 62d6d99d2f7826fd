/** What every state the system can reach satisfies, and the proof that every action keeps it. */
module Invariant {
  import opened Delivery
  import opened GrowArray
  import opened Options
  import opened Protocol

  // ---------------------------------------------------------------- the lock

  /** A session takes the lock only when it holds none, and gives back what it took. */
  ghost predicate LockInv(s: State) {
    && (forall t :: t in s.readers <==> t in s.pc && Holds(s.pc[t]) == Read)
    && (forall t :: s.writer == Some(t) <==> t in s.pc && Holds(s.pc[t]) == Write)
    && (s.writer.Some? ==> s.readers == {})
    && (forall t | t in s.pc :: Balanced(s.pc[t]))
  }

  /** Where a session goes once it has released the lock, it does not believe to hold it. */
  predicate Balanced(p: Pc) {
    (p.Leave? || p.ReapCheck? || p.ReapFree? ==> Holds(p.next) == Unlocked && Balanced(p.next))
    && (p.Leave? ==> p.mode != Unlocked)
  }

  /** The program point of the session that holds the lock for writing, if any. */
  function WriterPc(s: State): Pc {
    if s.writer.Some? && s.writer.value in s.pc then s.pc[s.writer.value] else Idle
  }

  // ---------------------------------------------------------------- the table, seen by the writer

  /** How far a teardown loop has come. */
  function FreedTopics(w: Pc): nat {
    if w.AllFreeing? then w.i else 0
  }

  function FreedRetired(w: Pc): nat {
    if w.ReapFree? || w.AllReaping? then w.i else 0
  }

  /** The record a dismissing session has taken out of the array. */
  function InHand(w: Pc): Option<Rid> {
    if w.Disposing? || w.Deciding? || w.Freeing? then Some(w.rid) else None
  }

  /** Every producer-wide resource is gone and the records are being freed. */
  predicate TornDown(w: Pc) {
    w.AllFreeing? || w.AllReaping?
  }

  /** The out queue was found empty and the writer is acting on it. */
  predicate SawEmpty(w: Pc) {
    w.ReapFree? || w.Freeing? || TornDown(w)
  }

  /** Index up to which kafka_table_dismiss_all has released the handles. */
  function DisposedTopics(k: Kafka, w: Pc): nat {
    if w.AllDisposing? then w.i
    else if w.AllStopping? || w.AllJoining? || w.AllDestroying? || w.AllFreeing? then |k.topics|
    else 0
  }

  ghost predicate Distinct(a: seq<Rid>) {
    forall i, j | 0 <= i < j < |a| :: a[i] != a[j]
  }

  /** An array of records, of which the first `gone` have been freed: it holds exactly the records
      with that place. */
  ghost predicate Stored(places: seq<Place>, a: seq<Rid>, gone: nat, place: Place) {
    && gone <= |a|
    && Distinct(a)
    && (forall i | 0 <= i < |a| :: a[i] < |places| && places[a[i]] == if i < gone then Freed else place)
    && (forall r | 0 <= r < |places| && places[r] == place :: r in a)
  }

  /** The record in a writer's hand, if any, is the only one that is in neither array nor settled. */
  ghost predicate HandInv(places: seq<Place>, hand: Option<Rid>) {
    && (forall r | 0 <= r < |places| && places[r] == Held :: hand == Some(r))
    && (hand.Some? ==> hand.value < |places| && places[hand.value] == Held)
  }

  /** Queued messages point at records that still exist. */
  ghost predicate QueueInv(places: seq<Place>, queue: multiset<Rid>) {
    forall r | r in queue :: r < |places| && places[r] != Freed
  }

  /** Messages were dropped only for records that no later producer can meet. */
  ghost predicate DropInv(places: seq<Place>, accounts: seq<Account>) {
    forall r | 0 <= r < |places| && r < |accounts| && accounts[r].dropped > 0 :: places[r] == Leaked || places[r] == Freed
  }

  /** No message is lost or counted twice. */
  ghost predicate AccountInv(records: seq<Topic>, accounts: seq<Account>, queue: multiset<Rid>) {
    forall r | 0 <= r < |records| && r < |accounts| ::
      accounts[r].accepted == Reports(records[r].history) + queue[r] + accounts[r].dropped
  }

  /** No two registered records have the same name. */
  ghost predicate NameInv(records: seq<Topic>, topics: seq<Rid>) {
    forall i, j | 0 <= i < j < |topics| && topics[i] < |records| && topics[j] < |records| ::
      records[topics[i]].name != records[topics[j]].name
  }

  /** A registered record has its librdkafka handle and borrows the one producer there is. */
  ghost predicate HandleInv(records: seq<Topic>, topics: seq<Rid>, disposed: nat, owner: Option<nat>) {
    forall i | 0 <= i < |topics| && topics[i] < |records| ::
      && (records[topics[i]].handle <==> disposed <= i)
      && (owner.Some? ==> records[topics[i]].owner == owner.value)
  }

  function ProducerId(k: Kafka): Option<nat> {
    if k.producer.Some? then Some(k.producer.value.id) else None
  }

  ghost predicate ProducerInv(p: Producer, nextId: nat, w: Pc) {
    && p.rk && !p.conf && p.id < nextId
    && (p.started <==> !w.AllDestroying?)
    && (p.running <==> !(w.AllJoining? || w.AllDestroying?))
    && (p.poller.Exited? ==> !p.running)
    && (w.AllDestroying? ==> p.poller.Exited?)
  }

  /** What kafka_table_t.producer being NULL or not says about everything else. */
  ghost predicate ConnectInv(k: Kafka, w: Pc) {
    && k.limit > 0
    && (k.producer.Some? ==> ProducerInv(k.producer.value, k.nextId, w))
    && (k.producer.None? ==> |k.queue| == 0 && (TornDown(w) || (k.topics == [] && k.retired == [])))
    && (TornDown(w) ==> k.producer.None?)
    && (w.AllReaping? ==> k.topics == [])
    && (w.Flushing? || w.Taking? ==> w.idx < |k.topics|)
    && (w.AllDisposing? ==> w.i <= |k.topics|)
    && (InHand(w).Some? || w.AllFlushing? || w.AllStopping? || w.AllJoining? || w.AllDestroying? ==> k.producer.Some?)
    && (SawEmpty(w) ==> |k.queue| == 0)
  }

  /** Each record is in the array its place names, and in no other. */
  ghost predicate PlaceInv(k: Kafka, w: Pc) {
    && Stored(k.places, k.topics, FreedTopics(w), Registered)
    && Stored(k.places, k.retired, FreedRetired(w), Parked)
    && HandInv(k.places, InHand(w))
  }

  ghost predicate MessageInv(k: Kafka) {
    && QueueInv(k.places, k.queue)
    && AccountInv(k.records, k.accounts, k.queue)
    && (k.producer.Some? ==> DropInv(k.places, k.accounts))
  }

  ghost predicate TableInv(k: Kafka, w: Pc) {
    && PlaceInv(k, w)
    && MessageInv(k)
    && NameInv(k.records, k.topics)
    && HandleInv(k.records, k.topics, DisposedTopics(k, w), ProducerId(k))
    && ConnectInv(k, w)
  }

  // ---------------------------------------------------------------- sessions under the read lock

  /** The record a session under the read lock is using. */
  function InUse(p: Pc): Option<Rid> {
    if p.Producing? || p.Retrying? || p.Draining? || p.StatsFlushing? || p.StatsFirst? || p.StatsSecond? then Some(p.rid)
    else None
  }

  ghost predicate ReaderInv(s: State) {
    forall t | t in s.pc && InUse(s.pc[t]).Some? :: InUse(s.pc[t]).value in s.k.topics
  }

  ghost predicate Inv(s: State) {
    LockInv(s) && ReaderInv(s) && TableInv(s.k, WriterPc(s))
  }

  lemma InitialInv(s: State)
    requires Initial(s)
    ensures Inv(s)
  {
  }

  // ---------------------------------------------------------------- entering and leaving

  /** Points of a writer at which the table is as it is while nobody writes. */
  predicate Neutral(w: Pc) {
    w.Idle? || w.Inside? || w.Leave? || w.ReapCheck?
  }

  lemma NeutralInv(k: Kafka, w: Pc, w': Pc)
    requires TableInv(k, w) && Neutral(w) && Neutral(w')
    ensures TableInv(k, w')
  {
    hide Stored, HandInv, QueueInv, AccountInv, DropInv, NameInv, HandleInv;
  }

  lemma GotoLock(s: State, t: Tid, p: Pc)
    requires LockInv(s) && t in s.pc && Holds(p) == Holds(s.pc[t]) && Balanced(p)
    ensures LockInv(Goto(s, t, p))
    ensures WriterPc(Goto(s, t, p)) == if Holds(p) == Write then p else WriterPc(s)
  {
  }

  lemma BeginInv(s: State, t: Tid, op: Op)
    requires Inv(s) && Enabled(s, Begin(t, op))
    ensures Inv(Do(s, Begin(t, op)))
  {
    hide TableInv;
    GotoLock(s, t, Do(s, Begin(t, op)).pc[t]);
  }

  lemma FinishInv(s: State, t: Tid)
    requires Inv(s) && Enabled(s, Finish(t))
    ensures Inv(Do(s, Finish(t)))
  {
    hide TableInv;
    GotoLock(s, t, Idle);
  }

  lemma AcquireLock(s: State, t: Tid)
    requires LockInv(s) && Enabled(s, Acquire(t))
    ensures LockInv(Do(s, Acquire(t)))
  {
    var s' := Do(s, Acquire(t));
    assert forall u | u in s.pc :: u != t ==> s'.pc[u] == s.pc[u];
  }

  lemma AcquireInv(s: State, t: Tid)
    requires Inv(s) && Enabled(s, Acquire(t))
    ensures Inv(Do(s, Acquire(t)))
  {
    hide TableInv;
    AcquireLock(s, t);
    NeutralInv(s.k, WriterPc(s), WriterPc(Do(s, Acquire(t))));
  }

  lemma UnlockLock(s: State, t: Tid)
    requires LockInv(s) && Enabled(s, Unlock(t))
    ensures LockInv(Do(s, Unlock(t)))
  {
    var s' := Do(s, Unlock(t));
    assert forall u | u in s.pc :: u != t ==> s'.pc[u] == s.pc[u];
  }

  lemma UnlockInv(s: State, t: Tid)
    requires Inv(s) && Enabled(s, Unlock(t))
    ensures Inv(Do(s, Unlock(t)))
  {
    hide TableInv;
    UnlockLock(s, t);
    NeutralInv(s.k, WriterPc(s), WriterPc(Do(s, Unlock(t))));
  }

  // ---------------------------------------------------------------- callbacks and the poll thread

  lemma ServedMessages(k: Kafka, r: Rid, err: int, now: int)
    requires MessageInv(k) && r in k.queue && r < |k.records|
    ensures MessageInv(Served(k, r, err, now))
  {
    hide Successes, Failures;
    ReportsExtend(k.records[r].history, Report(err, now));
  }

  lemma ServedInv(k: Kafka, w: Pc, r: Rid, err: int, now: int)
    requires TableInv(k, w) && r in k.queue && r < |k.records|
    ensures TableInv(Served(k, r, err, now), w)
  {
    hide PlaceInv, MessageInv;
    var k' := Served(k, r, err, now);
    ServedMessages(k, r, err, now);
    SamePlaces(k, w, k', w);
  }

  lemma SamePlaces(k: Kafka, v: Pc, k': Kafka, w: Pc)
    requires PlaceInv(k, v) && FreedTopics(v) == FreedTopics(w) && FreedRetired(v) == FreedRetired(w) && InHand(v) == InHand(w)
    requires k'.places == k.places && k'.topics == k.topics && k'.retired == k.retired
    ensures PlaceInv(k', w)
  {
    hide Stored, HandInv;
  }

  lemma DeliverInv(s: State, agent: Agent, r: Rid, err: int, now: int)
    requires Inv(s) && Enabled(s, Deliver(agent, r, err, now))
    ensures Inv(Do(s, Deliver(agent, r, err, now)))
  {
    hide TableInv;
    ServedInv(s.k, WriterPc(s), r, err, now);
  }

  lemma PollExitTable(k: Kafka, w: Pc)
    requires TableInv(k, w) && k.producer.Some? && !k.producer.value.running
    ensures TableInv(k.(producer := Some(k.producer.value.(poller := Exited))), w)
  {
    hide Stored, HandInv, QueueInv, AccountInv, DropInv, NameInv, HandleInv;
  }

  lemma PollExitInv(s: State)
    requires Inv(s) && Enabled(s, PollExit)
    ensures Inv(Do(s, PollExit))
  {
    hide TableInv;
    PollExitTable(s.k, WriterPc(s));
  }

  // ---------------------------------------------------------------- moving records about

  lemma StoredAppend(places: seq<Place>, a: seq<Rid>, r: Rid, place: Place)
    requires Stored(places, a, 0, place) && r < |places| && places[r] != place
    requires place != Freed
    ensures Stored(places[r := place], a + [r], 0, place)
  {
    var b := a + [r];
    assert b[|a|] == r;
    forall x | 0 <= x < |places| && places[r := place][x] == place
      ensures x in b
    {
      if x != r {
        assert x in a;
      }
    }
  }

  /** A record that is of no concern to an array may change its place, unless it joins the array. */
  lemma StoredElsewhere(places: seq<Place>, a: seq<Rid>, gone: nat, place: Place, r: Rid, to: Place)
    requires Stored(places, a, gone, place) && r < |places|
    requires r !in a && to != place
    ensures Stored(places[r := to], a, gone, place)
  {
    forall i | 0 <= i < |a|
      ensures places[r := to][a[i]] == places[a[i]]
    {
      assert a[i] in a;
    }
  }

  lemma StoredRemove(places: seq<Place>, a: seq<Rid>, place: Place, i: nat, to: Place)
    requires Stored(places, a, 0, place) && i < |a| && to != place && a[i] < |places|
    ensures Stored(places[a[i] := to], SwapRemove(a, i), 0, place)
  {
    var b := SwapRemove(a, i);
    var last := |a| - 1;
    forall x | 0 <= x < |places| && places[a[i] := to][x] == place
      ensures x in b
    {
      var j :| 0 <= j < |a| && a[j] == x;
      if j == last {
        assert b[i] == x;
      } else {
        assert b[j] == x;
      }
    }
  }

  lemma StoredFree(places: seq<Place>, a: seq<Rid>, i: nat, place: Place)
    requires Stored(places, a, i, place) && i < |a| && a[i] < |places| && place != Freed
    ensures Stored(places[a[i] := Freed], a, i + 1, place)
  {
  }

  /** Once every entry is freed the array can be forgotten. */
  lemma StoredEmpty(places: seq<Place>, a: seq<Rid>, place: Place)
    requires Stored(places, a, |a|, place) && place != Freed
    ensures Stored(places, [], 0, place)
  {
    assert forall r | 0 <= r < |places| && r in a :: places[r] == Freed;
  }

  /** A record in the one array is not in the other. */
  lemma StoredApart(places: seq<Place>, a: seq<Rid>, gone: nat, place: Place, r: Rid)
    requires Stored(places, a, gone, place) && r < |places| && places[r] != place && places[r] != Freed
    ensures r !in a
  {
  }

  /** `Step` by cases. */
  lemma StepCases(k: Kafka, p: Pc, c: Choice)
    requires Ready(k, p, c)
    ensures p.Producing? ==> Step(k, p, c) == StepProduce(k, p.rid, p.len, c.outcome)
    ensures p.Taking? ==> Step(k, p, c) == StepTake(k, p.idx)
    ensures p.Disposing? ==> Step(k, p, c) == (Dispose(k, p.rid), Deciding(p.rid))
    ensures p.Deciding? ==> Step(k, p, c) == StepDecide(k, p.rid, c)
    ensures p.Freeing? ==> Step(k, p, c) == (Move(k, p.rid, Freed), ReapCheck(Returned(Status(0))))
    ensures p.ReapFree? ==> Step(k, p, c) == StepReapFree(k, p.i, p.next)
    ensures p.AllDisposing? ==> Step(k, p, c) == StepAllDispose(k, p.i)
    ensures p.AllDestroying? ==> Step(k, p, c) == StepDestroy(k)
    ensures p.AllFreeing? ==> Step(k, p, c) == StepAllFree(k, p.i)
    ensures p.AllReaping? ==> Step(k, p, c) == StepAllReap(k, p.i)
  {
    hide StepProduce, StepTake, Dispose, StepDecide, Move, StepReapFree, StepAllDispose, StepDestroy, StepAllFree, StepAllReap;
  }

  // ---------------------------------------------------------------- the steps of a writer

  /** While nothing is registered or retired, every record that ever lost a message is gone for good. */
  lemma NothingLeft(k: Kafka, w: Pc)
    requires PlaceInv(k, w) && Neutral(w) && k.topics == [] && k.retired == []
    ensures DropInv(k.places, k.accounts)
  {
    assert forall r | 0 <= r < |k.places| ::
        k.places[r] != Registered && k.places[r] != Parked && k.places[r] != Held;
  }

  lemma ConnectStep(k: Kafka, w: Pc, c: Choice)
    requires TableInv(k, w) && w == Inside(Connect)
    ensures TableInv(Step(k, w, c).0, Step(k, w, c).1)
  {
    if k.producer.Some? || !c.built {
      NeutralInv(k, w, Leave(Write, Returned(Status(-1))));
      hide TableInv;
    } else {
      ConnectedTable(k, w);
      hide TableInv;
    }
  }

  /** The table with a new producer. */
  lemma ConnectedTable(k: Kafka, w: Pc)
    requires TableInv(k, w) && w == Inside(Connect) && k.producer.None?
    ensures var made := Producer(k.nextId, true, false, true, true, Polling);
            TableInv(k.(producer := Some(made), nextId := k.nextId + 1), Leave(Write, Returned(Status(0))))
  {
    NothingLeft(k, w);
    assert HandleInv(k.records, [], 0, Some(k.nextId));
    hide Stored, HandInv, QueueInv, AccountInv, DropInv, NameInv, HandleInv;
  }

  /** The table with one more record, registered under a new name. */
  function Registering(k: Kafka, made: Topic): Kafka {
    k.(records := k.records + [made], places := k.places + [Registered], accounts := k.accounts + [Account(0, 0)],
       topics := k.topics + [|k.records|])
  }

  lemma CreateStep(k: Kafka, w: Pc, c: Choice)
    requires TableInv(k, w) && w.Inside? && w.op.Create?
    ensures TableInv(Step(k, w, c).0, Step(k, w, c).1)
  {
    hide TableInv;
    var (k', w') := Step(k, w, c);
    if k' == k {
      NeutralInv(k, w, w');
    } else {
      RegisteringInv(k, w, Topic(w.op.topic, true, k.producer.value.id, []));
      NeutralInv(k', w, w');
    }
  }

  lemma RegisteringInv(k: Kafka, w: Pc, made: Topic)
    requires TableInv(k, w) && Neutral(w) && k.producer.Some?
    requires !Has(k, made.name) && made.handle && made.owner == k.producer.value.id && made.history == []
    ensures TableInv(Registering(k, made), w)
  {
    TopicsInRange(k, w);
    hide Stored, HandInv, QueueInv, AccountInv, DropInv, NameInv, HandleInv, Has;
    CreatePlaces(k);
    CreateMessages(k, made);
    CreateNames(k, made);
    CreateHandles(k, made);
  }

  lemma TopicsInRange(k: Kafka, w: Pc)
    requires PlaceInv(k, w)
    ensures forall i | 0 <= i < |k.topics| :: k.topics[i] < |k.records|
    ensures forall i | 0 <= i < |k.retired| :: k.retired[i] < |k.records|
  {
  }

  lemma CreatePlaces(k: Kafka)
    requires PlaceInv(k, Idle)
    ensures Stored(k.places + [Registered], k.topics + [|k.places|], 0, Registered)
    ensures Stored(k.places + [Registered], k.retired, 0, Parked)
    ensures HandInv(k.places + [Registered], None)
  {
    var n := |k.places|;
    var places := k.places + [Registered];
    var topics := k.topics + [n];
    assert topics[|k.topics|] == n;
    assert forall i | 0 <= i < |k.topics| :: topics[i] == k.topics[i] && topics[i] < n;
    forall r | 0 <= r < |places| && places[r] == Registered
      ensures r in topics
    {
      if r < n {
        assert r in k.topics;
      }
    }
  }

  lemma CreateMessages(k: Kafka, made: Topic)
    requires MessageInv(k) && made.history == []
    ensures QueueInv(k.places + [Registered], k.queue)
    ensures AccountInv(k.records + [made], k.accounts + [Account(0, 0)], k.queue)
    ensures DropInv(k.places, k.accounts) ==> DropInv(k.places + [Registered], k.accounts + [Account(0, 0)])
  {
    assert |k.places| !in k.queue;
  }

  lemma CreateNames(k: Kafka, made: Topic)
    requires NameInv(k.records, k.topics) && !Has(k, made.name)
    requires forall i | 0 <= i < |k.topics| :: k.topics[i] < |k.records|
    ensures NameInv(k.records + [made], k.topics + [|k.records|])
  {
    var topics := k.topics + [|k.records|];
    forall i, j | 0 <= i < j < |topics|
      ensures (k.records + [made])[topics[i]].name != (k.records + [made])[topics[j]].name
    {
      if j == |k.topics| {
        assert !Named(k, k.topics[i], made.name);
      }
    }
  }

  lemma CreateHandles(k: Kafka, made: Topic)
    requires HandleInv(k.records, k.topics, 0, ProducerId(k))
    requires made.handle && (k.producer.Some? ==> made.owner == k.producer.value.id)
    requires forall i | 0 <= i < |k.topics| :: k.topics[i] < |k.records|
    ensures HandleInv(k.records + [made], k.topics + [|k.records|], 0, ProducerId(k))
  {
  }

  lemma TakeStep(k: Kafka, w: Pc, c: Choice)
    requires TableInv(k, w) && w.Taking? && Ready(k, w, c)
    ensures TableInv(Step(k, w, c).0, Step(k, w, c).1)
  {
    StepCases(k, w, c);
    hide Step;
    TopicsInRange(k, w);
    TakePlaces(k, w.idx);
    TakeNames(k, w.idx);
    hide Stored, HandInv, QueueInv, AccountInv, DropInv, NameInv, HandleInv, SwapRemove;
    MovedMessages(k, k.topics[w.idx], Held);
    TakenConnect(k, w);
  }

  lemma TakenConnect(k: Kafka, w: Pc)
    requires ConnectInv(k, w) && w.Taking? && k.topics[w.idx] < |k.records|
    ensures ConnectInv(StepTake(k, w.idx).0, StepTake(k, w.idx).1)
  {
  }

  lemma TakePlaces(k: Kafka, idx: nat)
    requires PlaceInv(k, Taking(idx)) && idx < |k.topics| && k.topics[idx] < |k.places|
    ensures k.places[k.topics[idx]] == Registered
    ensures PlaceInv(StepTake(k, idx).0, StepTake(k, idx).1)
  {
    StoredRemove(k.places, k.topics, Registered, idx, Held);
    StoredApart(k.places, k.retired, 0, Parked, k.topics[idx]);
    StoredElsewhere(k.places, k.retired, 0, Parked, k.topics[idx], Held);
  }

  /** Moving a record that is not freed, to a place where it is not freed, concerns no message. */
  lemma MovedMessages(k: Kafka, r: Rid, to: Place)
    requires MessageInv(k) && r < |k.places|
    requires to != Freed || |k.queue| == 0
    requires k.places[r] != Leaked && k.places[r] != Freed
    ensures MessageInv(Move(k, r, to))
  {
  }

  lemma TakeNames(k: Kafka, idx: nat)
    requires idx < |k.topics|
    requires NameInv(k.records, k.topics) && HandleInv(k.records, k.topics, 0, ProducerId(k))
    requires forall i | 0 <= i < |k.topics| :: k.topics[i] < |k.records|
    ensures NameInv(k.records, SwapRemove(k.topics, idx))
    ensures HandleInv(k.records, SwapRemove(k.topics, idx), 0, ProducerId(k))
  {
  }

  lemma DisposeMessages(k: Kafka, r: Rid)
    requires MessageInv(k) && r < |k.records|
    ensures MessageInv(Dispose(k, r))
  {
    hide Successes, Failures;
    ReportsExtend(k.records[r].history, Disposed);
  }

  lemma DisposeStep(k: Kafka, w: Pc, c: Choice)
    requires TableInv(k, w) && w.Disposing? && Ready(k, w, c)
    ensures TableInv(Step(k, w, c).0, Step(k, w, c).1)
  {
    StepCases(k, w, c);
    hide Step;
    HandApart(k, w);
    hide PlaceInv, MessageInv, NameInv, HandleInv;
    DisposeMessages(k, w.rid);
    SamePlaces(k, w, Dispose(k, w.rid), Deciding(w.rid));
    DisposeNames(k, w.rid);
  }

  /** What a writer has in hand is in no array. */
  lemma HandApart(k: Kafka, w: Pc)
    requires PlaceInv(k, w) && InHand(w).Some?
    ensures var r := InHand(w).value; r < |k.places| && k.places[r] == Held && r !in k.topics && r !in k.retired
  {
  }

  /** The record in hand finds its place. */
  lemma HandSettles(k: Kafka, w: Pc, to: Place)
    requires PlaceInv(k, w) && InHand(w).Some? && to != Held
    ensures var r := InHand(w).value;
            && r < |k.places|
            && HandInv(k.places[r := to], None)
            && (to != Registered ==> Stored(k.places[r := to], k.topics, 0, Registered))
            && (to != Parked ==> Stored(k.places[r := to], k.retired, 0, Parked))
  {
    HandApart(k, w);
    var r := InHand(w).value;
    if to != Registered {
      StoredElsewhere(k.places, k.topics, 0, Registered, r, to);
    }
    if to != Parked {
      StoredElsewhere(k.places, k.retired, 0, Parked, r, to);
    }
  }

  lemma DisposeNames(k: Kafka, r: Rid)
    requires r < |k.records| && r !in k.topics
    requires NameInv(k.records, k.topics) && HandleInv(k.records, k.topics, 0, ProducerId(k))
    ensures NameInv(Dispose(k, r).records, k.topics) && HandleInv(Dispose(k, r).records, k.topics, 0, ProducerId(k))
  {
  }

  lemma DecideStep(k: Kafka, w: Pc, c: Choice)
    requires TableInv(k, w) && w.Deciding? && Ready(k, w, c)
    ensures TableInv(Step(k, w, c).0, Step(k, w, c).1)
  {
    StepCases(k, w, c);
    hide Step;
    if Busy(k) {
      hide TableInv;
      SettledInv(k, w.rid, c.granted);
    } else {
      hide PlaceInv, MessageInv, NameInv, HandleInv;
      SamePlaces(k, w, k, Freeing(w.rid));
    }
  }

  lemma SettledInv(k: Kafka, r: Rid, granted: bool)
    requires TableInv(k, Deciding(r)) && r < |k.records| && Busy(k)
    ensures TableInv(StepDecide(k, r, Choice(granted, false, Queued)).0, ReapCheck(Returned(Status(0))))
  {
    var to := if granted then Parked else Leaked;
    HandApart(k, Deciding(r));
    hide Stored, HandInv, QueueInv, AccountInv, DropInv, NameInv, HandleInv;
    HandSettles(k, Deciding(r), to);
    MovedMessages(k, r, to);
    if granted {
      StoredAppend(k.places, k.retired, r, Parked);
    }
  }

  lemma FreeStep(k: Kafka, w: Pc, c: Choice)
    requires TableInv(k, w) && w.Freeing? && Ready(k, w, c)
    ensures TableInv(Step(k, w, c).0, Step(k, w, c).1)
  {
    StepCases(k, w, c);
    hide Step;
    HandApart(k, w);
    hide Stored, HandInv, QueueInv, AccountInv, DropInv, NameInv, HandleInv;
    HandSettles(k, w, Freed);
    MovedMessages(k, w.rid, Freed);
  }

  /** One more retired record is freed. */
  lemma RetiredFreed(k: Kafka, w: Pc, i: nat)
    requires PlaceInv(k, w) && FreedRetired(w) == i && FreedTopics(w) == 0 && InHand(w).None? && i < |k.retired|
    ensures var r := k.retired[i];
            && r < |k.places| && k.places[r] == Parked
            && Stored(k.places[r := Freed], k.topics, 0, Registered)
            && Stored(k.places[r := Freed], k.retired, i + 1, Parked)
            && HandInv(k.places[r := Freed], None)
  {
    var r := k.retired[i];
    StoredFree(k.places, k.retired, i, Parked);
    StoredApart(k.places, k.topics, 0, Registered, r);
    StoredElsewhere(k.places, k.topics, 0, Registered, r, Freed);
  }

  lemma ReapFreeStep(k: Kafka, w: Pc, c: Choice)
    requires TableInv(k, w) && w.ReapFree? && Ready(k, w, c)
    ensures TableInv(Step(k, w, c).0, Step(k, w, c).1)
  {
    StepCases(k, w, c);
    hide Step, TableInv;
    if w.i < |k.retired| {
      ReapOne(k, w.i, w.next);
    } else {
      ReapDone(k, w.i, w.next);
    }
  }

  lemma ReapOne(k: Kafka, i: nat, next: Pc)
    requires TableInv(k, ReapFree(i, next)) && i < |k.retired| && k.retired[i] < |k.records|
    ensures TableInv(Move(k, k.retired[i], Freed), ReapFree(i + 1, next))
  {
    RetiredFreed(k, ReapFree(i, next), i);
    hide Stored, HandInv, QueueInv, AccountInv, DropInv, NameInv, HandleInv;
    MovedMessages(k, k.retired[i], Freed);
  }

  lemma ReapDone(k: Kafka, i: nat, next: Pc)
    requires TableInv(k, ReapFree(i, next)) && i >= |k.retired|
    ensures TableInv(k.(retired := []), Leave(Write, next))
  {
    AllGone(k.places, k.retired, i, Parked);
    hide Stored, HandInv, QueueInv, AccountInv, DropInv, NameInv, HandleInv;
  }

  lemma AllGone(places: seq<Place>, a: seq<Rid>, gone: nat, place: Place)
    requires Stored(places, a, gone, place) && gone >= |a| && place != Freed
    ensures Stored(places, [], 0, place)
  {
    StoredEmpty(places, a, place);
  }

  lemma AllDisposeStep(k: Kafka, w: Pc, c: Choice)
    requires TableInv(k, w) && w.AllDisposing? && Ready(k, w, c)
    ensures TableInv(Step(k, w, c).0, Step(k, w, c).1)
  {
    hide TableInv, Dispose, Ready, Step;
    StepCases(k, w, c);
    match w {
      case AllDisposing(i) =>
        if i < |k.topics| {
          AllDisposeOne(k, i);
        } else {
          AllDisposeDone(k, w);
        }
    }
  }

  lemma AllDisposeDone(k: Kafka, w: Pc)
    requires TableInv(k, w) && w.AllDisposing? && w.i >= |k.topics|
    ensures TableInv(k, if k.producer.Some? then AllStopping else AllFreeing(0))
  {
    hide Stored, HandInv, QueueInv, AccountInv, DropInv, NameInv, HandleInv;
  }

  lemma AllDisposeOne(k: Kafka, i: nat)
    requires TableInv(k, AllDisposing(i)) && i < |k.topics|
    ensures k.topics[i] < |k.records| && TableInv(Dispose(k, k.topics[i]), AllDisposing(i + 1))
  {
    TopicsInRange(k, AllDisposing(i));
    AllDisposeHandles(k, i);
    hide PlaceInv, MessageInv, NameInv, HandleInv;
    DisposeMessages(k, k.topics[i]);
    SamePlaces(k, AllDisposing(i), Dispose(k, k.topics[i]), AllDisposing(i + 1));
  }

  lemma AllDisposeHandles(k: Kafka, i: nat)
    requires i < |k.topics| && k.topics[i] < |k.records| && PlaceInv(k, AllDisposing(i))
    requires NameInv(k.records, k.topics) && HandleInv(k.records, k.topics, i, ProducerId(k))
    ensures NameInv(Dispose(k, k.topics[i]).records, k.topics)
    ensures HandleInv(Dispose(k, k.topics[i]).records, k.topics, i + 1, ProducerId(k))
  {
  }

  lemma StopStep(k: Kafka, w: Pc, c: Choice)
    requires TableInv(k, w) && (w.AllStopping? || w.AllJoining?) && Ready(k, w, c)
    ensures TableInv(Step(k, w, c).0, Step(k, w, c).1)
  {
    hide Stored, HandInv, QueueInv, AccountInv, DropInv, NameInv, HandleInv;
  }

  lemma DestroyStep(k: Kafka, w: Pc, c: Choice)
    requires TableInv(k, w) && w.AllDestroying? && Ready(k, w, c)
    ensures TableInv(Step(k, w, c).0, Step(k, w, c).1)
  {
    StepCases(k, w, c);
    hide Step;
    SamePlaces(k, w, Step(k, w, c).0, AllFreeing(0));
  }

  /** One more registered record is freed. */
  lemma RegisteredFreed(k: Kafka, i: nat)
    requires PlaceInv(k, AllFreeing(i)) && i < |k.topics|
    ensures var r := k.topics[i];
            && r < |k.places| && k.places[r] == Registered
            && Stored(k.places[r := Freed], k.topics, i + 1, Registered)
            && Stored(k.places[r := Freed], k.retired, 0, Parked)
            && HandInv(k.places[r := Freed], None)
  {
    var r := k.topics[i];
    StoredFree(k.places, k.topics, i, Registered);
    StoredApart(k.places, k.retired, 0, Parked, r);
    StoredElsewhere(k.places, k.retired, 0, Parked, r, Freed);
  }

  lemma AllFreeStep(k: Kafka, w: Pc, c: Choice)
    requires TableInv(k, w) && w.AllFreeing? && Ready(k, w, c)
    ensures TableInv(Step(k, w, c).0, Step(k, w, c).1)
  {
    StepCases(k, w, c);
    hide Step, TableInv;
    if w.i < |k.topics| {
      AllFreeOne(k, w.i);
    } else {
      AllFreeDone(k, w);
    }
  }

  lemma AllFreeOne(k: Kafka, i: nat)
    requires TableInv(k, AllFreeing(i)) && i < |k.topics| && k.topics[i] < |k.records|
    ensures TableInv(Move(k, k.topics[i], Freed), AllFreeing(i + 1))
  {
    RegisteredFreed(k, i);
    hide Stored, HandInv, QueueInv, AccountInv, DropInv, NameInv, HandleInv;
    MovedMessages(k, k.topics[i], Freed);
  }

  lemma AllFreeDone(k: Kafka, w: Pc)
    requires TableInv(k, w) && w.AllFreeing? && w.i >= |k.topics|
    ensures TableInv(k.(topics := []), AllReaping(0))
  {
    AllGone(k.places, k.topics, w.i, Registered);
    hide Stored, HandInv, QueueInv, AccountInv, DropInv;
  }

  lemma AllReapStep(k: Kafka, w: Pc, c: Choice)
    requires TableInv(k, w) && w.AllReaping? && Ready(k, w, c)
    ensures TableInv(Step(k, w, c).0, Step(k, w, c).1)
  {
    StepCases(k, w, c);
    hide Step;
    if w.i < |k.retired| {
      RetiredFreed(k, w, w.i);
      hide Stored, HandInv, QueueInv, AccountInv, DropInv, NameInv, HandleInv;
      MovedMessages(k, k.retired[w.i], Freed);
    } else {
      AllGone(k.places, k.retired, w.i, Parked);
      hide Stored, HandInv, QueueInv, AccountInv, DropInv, NameInv, HandleInv;
    }
  }

  lemma WriterStep(k: Kafka, w: Pc, c: Choice)
    requires TableInv(k, w) && Holds(w) == Write && Ready(k, w, c)
    ensures TableInv(Step(k, w, c).0, Step(k, w, c).1)
  {
    hide TableInv;
    match w
    case Inside(Connect) => ConnectStep(k, w, c);
    case Inside(Create(_, _)) => CreateStep(k, w, c);
    case Inside(_) => EntryStep(k, w, c);
    case ReapCheck(_) => ReapCheckStep(k, w, c);
    case ReapFree(_, _) => ReapFreeStep(k, w, c);
    case Flushing(_) => FlushStep(k, w, c);
    case Taking(_) => TakeStep(k, w, c);
    case Disposing(_) => DisposeStep(k, w, c);
    case Deciding(_) => DecideStep(k, w, c);
    case Freeing(_) => FreeStep(k, w, c);
    case AllFlushing => FlushStep(k, w, c);
    case AllDisposing(_) => AllDisposeStep(k, w, c);
    case AllStopping => StopStep(k, w, c);
    case AllJoining => StopStep(k, w, c);
    case AllDestroying => DestroyStep(k, w, c);
    case AllFreeing(_) => AllFreeStep(k, w, c);
    case AllReaping(_) => AllReapStep(k, w, c);
  }

  /** Dismissing: the lookup, and the empty-table case of tearing everything down. */
  lemma EntryStep(k: Kafka, w: Pc, c: Choice)
    requires TableInv(k, w) && (w == Inside(DismissAll) || (w.Inside? && w.op.Dismiss?))
    ensures TableInv(Step(k, w, c).0, Step(k, w, c).1)
  {
    hide TableInv, Lookup;
    if w.op.Dismiss? {
      assert Step(k, w, c) == StepDismiss(k, w.op.topic);
      EntersAt(k, w, StepDismiss(k, w.op.topic).1);
    } else {
      EntersAt(k, w, Step(k, w, c).1);
    }
  }

  lemma EntersAt(k: Kafka, w: Pc, w': Pc)
    requires TableInv(k, w) && Neutral(w)
    requires || (w'.Flushing? && w'.idx < |k.topics|)
             || w'.ReapCheck?
             || (w'.AllFlushing? && k.producer.Some?)
             || w' == AllDisposing(0)
    ensures TableInv(k, w')
  {
    hide Stored, HandInv, MessageInv, NameInv, HandleInv;
  }

  lemma ReapCheckStep(k: Kafka, w: Pc, c: Choice)
    requires TableInv(k, w) && w.ReapCheck?
    ensures TableInv(Step(k, w, c).0, Step(k, w, c).1)
  {
    hide Stored, HandInv, QueueInv, AccountInv, DropInv, NameInv, HandleInv;
  }

  lemma FlushStep(k: Kafka, w: Pc, c: Choice)
    requires TableInv(k, w) && (w.Flushing? || w.AllFlushing?) && Ready(k, w, c)
    ensures TableInv(Step(k, w, c).0, Step(k, w, c).1)
  {
    hide Stored, HandInv, QueueInv, AccountInv, DropInv, NameInv, HandleInv;
  }

  // ---------------------------------------------------------------- the steps of a reader

  /** Except for producing, a reader changes nothing. */
  lemma QuietReader(k: Kafka, p: Pc, c: Choice)
    requires Holds(p) == Read && Ready(k, p, c) && !p.Producing?
    requires InUse(p).Some? ==> InUse(p).value in k.topics
    ensures Step(k, p, c).0 == k
    ensures InUse(Step(k, p, c).1).Some? ==> InUse(Step(k, p, c).1).value in k.topics
  {
    hide Replay, ToInt32, Has;
  }

  lemma ProduceStep(k: Kafka, p: Pc, c: Choice)
    requires TableInv(k, Idle) && p.Producing? && Ready(k, p, c) && p.rid in k.topics
    ensures TableInv(Step(k, p, c).0, Idle)
    ensures Step(k, p, c).0.topics == k.topics
    ensures InUse(Step(k, p, c).1).Some? ==> InUse(Step(k, p, c).1).value == p.rid
  {
    StepCases(k, p, c);
    hide Step, TableInv;
    if c.outcome.Queued? {
      QueuedInv(k, p.rid, p.len);
    }
  }

  lemma QueuedInv(k: Kafka, r: Rid, len: nat)
    requires TableInv(k, Idle) && r < |k.records| && r in k.topics
    ensures TableInv(StepProduce(k, r, len, Queued).0, Idle)
  {
    assert k.places[r] == Registered && k.producer.Some?;
    hide PlaceInv, NameInv, HandleInv;
    SamePlaces(k, Idle, StepProduce(k, r, len, Queued).0, Idle);
    hide Successes, Failures;
  }

  /** A reader changes nothing but the queue and the account of the record it produces to. */
  lemma ReaderStep(k: Kafka, p: Pc, c: Choice)
    requires TableInv(k, Idle) && Holds(p) == Read && Ready(k, p, c)
    requires InUse(p).Some? ==> InUse(p).value in k.topics
    ensures TableInv(Step(k, p, c).0, Idle)
    ensures Step(k, p, c).0.topics == k.topics
    ensures InUse(Step(k, p, c).1).Some? ==> InUse(Step(k, p, c).1).value in k.topics
  {
    hide TableInv, Step;
    if p.Producing? {
      ProduceStep(k, p, c);
    } else {
      QuietReader(k, p, c);
    }
  }

  // ---------------------------------------------------------------- all actions

  lemma WriterHolds(k: Kafka, p: Pc, c: Choice)
    requires Ready(k, p, c) && Balanced(p) && Holds(p) == Write
    ensures Holds(Step(k, p, c).1) == Write && Balanced(Step(k, p, c).1)
  {
    hide Move, Dispose, SwapRemove, Has, Lookup, Busy;
  }

  lemma ReaderHolds(k: Kafka, p: Pc, c: Choice)
    requires Ready(k, p, c) && Holds(p) == Read
    ensures Holds(Step(k, p, c).1) == Read && Balanced(Step(k, p, c).1)
  {
    hide Has, Lookup, Replay, ToInt32;
  }

  lemma StepHolds(k: Kafka, p: Pc, c: Choice)
    requires Ready(k, p, c) && Balanced(p)
    ensures Holds(Step(k, p, c).1) == Holds(p) && Balanced(Step(k, p, c).1)
  {
    hide Step, Balanced;
    if Holds(p) == Write {
      WriterHolds(k, p, c);
    } else {
      ReaderHolds(k, p, c);
    }
  }

  lemma WorkInv(s: State, t: Tid, c: Choice)
    requires Inv(s) && Enabled(s, Work(t, c))
    ensures Inv(Do(s, Work(t, c)))
  {
    hide TableInv, Step;
    var (k', p') := Step(s.k, s.pc[t], c);
    StepHolds(s.k, s.pc[t], c);
    GotoLock(s, t, p');
    if Holds(s.pc[t]) == Write {
      WriterStep(s.k, s.pc[t], c);
      WriterUsesNothing(p');
    } else {
      ReaderStep(s.k, s.pc[t], c);
    }
  }

  lemma WriterUsesNothing(p: Pc)
    requires Holds(p) == Write
    ensures InUse(p).None?
  {
  }

  /** Every action keeps the invariant. */
  lemma ActionInv(s: State, a: Action)
    requires Inv(s) && Enabled(s, a)
    ensures Inv(Do(s, a))
  {
    hide Inv, Enabled, Do;
    match a
    case Begin(t, op) => BeginInv(s, t, op);
    case Acquire(t) => AcquireInv(s, t);
    case Work(t, c) => WorkInv(s, t, c);
    case Unlock(t) => UnlockInv(s, t);
    case Finish(t) => FinishInv(s, t);
    case Deliver(agent, r, err, now) => DeliverInv(s, agent, r, err, now);
    case PollExit => PollExitInv(s);
  }

  /** So it holds at the end of every run, and hence in every state the system can reach. */
  lemma {:induction false} RunInv(s: State, run: seq<Action>)
    requires Inv(s) && IsRun(s, run)
    ensures Inv(After(s, run))
    decreases |run|
  {
    if run != [] {
      hide Inv;
      ActionInv(s, run[0]);
      RunInv(Do(s, run[0]), run[1..]);
    }
  }
}
