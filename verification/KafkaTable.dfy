/** The table as the code keeps it: arrays, counts and capacities updated in place under the lock
    (kafka-table.c), with every record access and every free checked against the memory it touches.

    Each method performs a run of the protocol: `world` is the protocol's state, `trace` the actions
    since the module was loaded, and `Valid` says that the fields are what that state says.  While a
    method holds the lock, callbacks keep coming: `meanwhile(i)` is what the poll thread serves at the
    method's i-th pause. */
module KafkaTable {
  import opened Delivery
  import opened GrowArray
  import opened Options
  import opened Protocol
  import opened Invariant
  import opened Safety
  import opened Sessions
  import opened Callbacks
  import opened TopicMap
  import opened Handles

  /** One round of the retry loop: what the produce call answers, and what the poll after it serves. */
  datatype Attempt = Attempt(answer: Outcome, polled: seq<Callback>)

  /** Nothing but callbacks has happened to the table. */
  ghost predicate OnlyServed(k: Kafka, k': Kafka) {
    && k'.producer == k.producer && k'.nextId == k.nextId && k'.limit == k.limit
    && k'.topics == k.topics && k'.retired == k.retired && k'.places == k.places && k'.accounts == k.accounts
    && k'.queue <= k.queue
    && |k'.records| == |k.records|
    && (forall r | 0 <= r < |k.records| ::
          k'.records[r].name == k.records[r].name && k.records[r].history <= k'.records[r].history)
  }

  lemma {:induction false} HistoryCounts(before: seq<Event>, now: seq<Event>)
    requires before <= now
    ensures Successes(before) <= Successes(now) && Failures(before) <= Failures(now)
    decreases |now|
  {
    if before != now {
      HistoryCounts(before, now[..|now| - 1]);
    }
  }

  /** Callbacks only add to what has been reported on a record. */
  lemma ServedCounts(k: Kafka, k': Kafka, r: Rid)
    requires OnlyServed(k, k')
    ensures Accepted(k', r) == Accepted(k, r)
    ensures Delivered(k, r) <= Delivered(k', r) && Undelivered(k, r) <= Undelivered(k', r)
  {
    if r < |k.records| {
      HistoryCounts(k.records[r].history, k'.records[r].history);
    }
  }

  function HeapOf(k: Kafka): set<Rid> {
    set r | 0 <= r < |k.places| && k.places[r] != Freed
  }

  /** The first entry with the name is the one the lookup finds. */
  lemma LookupIs(k: Kafka, name: string, i: nat)
    requires i <= |k.topics| && (i < |k.topics| ==> Named(k, k.topics[i], name))
    requires forall j | 0 <= j < i :: !Named(k, k.topics[j], name)
    ensures Lookup(k, name) == i
  {
    var found := Lookup(k, name);
    assert found < |k.topics| ==> Named(k, k.topics[found], name);
  }

  /** More actions have happened, and no call has been finished by its caller in the meantime. */
  ghost predicate Extends(before: seq<Action>, now: seq<Action>) {
    before <= now && forall i | |before| <= i < |now| :: !now[i].Finish?
  }

  lemma Chained(first: seq<Action>, second: seq<Action>, third: seq<Action>)
    requires Extends(first, second) && Extends(second, third)
    ensures Extends(first, third)
  {
  }

  lemma HeapMoved(k: Kafka, r: Rid, to: Place)
    requires r < |k.places|
    ensures HeapOf(Move(k, r, to)) == if to == Freed then HeapOf(k) - {r} else HeapOf(k) + {r}
  {
  }

  class KafkaTables {
    const topics: Slots<Rid>
    const retired: Slots<Rid>
    var producer: Option<Producer>
    var nextId: nat
    var records: seq<Topic>       // the memory of the records, by address
    var heap: set<Rid>       // the addresses that are not freed
    var queue: multiset<Rid>      // librdkafka's out queue
    const limit: nat              // queue.buffering.max.messages
    ghost var start: State
    ghost var trace: seq<Action>
    ghost var world: State

    ghost function Footprint(): set<object>
      reads this, topics, retired
    {
      {this, topics, retired, topics.data, retired.data}
    }

    /** The protocol's state is one its actions have led to. */
    ghost predicate Lives()
      reads this
    {
      Reaches(start, trace, world)
    }

    /** What the fields hold is what the protocol's state says. */
    ghost predicate Ties()
      reads this, topics, retired, topics.data, retired.data
      requires topics.Valid() && retired.Valid()
    {
      && world.k.topics == topics.Contents() && world.k.retired == retired.Contents()
      && world.k.producer == producer && world.k.nextId == nextId && world.k.limit == limit
      && world.k.records == records && world.k.queue == queue
      && heap == HeapOf(world.k)
    }

    ghost predicate Arrays()
      reads this, topics, retired, topics.data, retired.data
    {
      && topics != retired && topics.data != retired.data
      && topics.Valid() && retired.Valid()
    }

    ghost predicate Valid()
      reads this, topics, retired, topics.data, retired.data
    {
      Arrays() && Lives() && Inv(world) && Ties()
    }

    /** What a caller of Valid needs to see of it. */
    lemma Mirrors()
      requires Valid()
      ensures Lives() && Inv(world)
      ensures world.k.producer == producer && world.k.nextId == nextId && world.k.records == records && world.k.queue == queue
      ensures topics.Valid() && world.k.topics == topics.Contents()
      ensures heap == HeapOf(world.k)
    {
      hide Inv, Reaches, HeapOf;
    }

    constructor (limit: nat, ghost sessions: set<Tid>)
      requires limit > 0
      ensures Valid() && trace == [] && fresh(Footprint())
      ensures world.pc == map t | t in sessions :: Idle
    {
      hide Inv;
      topics := new Slots();
      retired := new Slots();
      producer, nextId, records, heap, queue := None, 0, [], {}, multiset{};
      this.limit := limit;
      var s := State({}, None, map t | t in sessions :: Idle, Tables(None, 0, [], [], [], multiset{}, limit, [], []));
      start, trace, world := s, [], s;
      new;
      InitialInv(world);
    }

    /** Every read of a record's memory goes through here. */
    function Load(r: Rid): Topic
      requires r in heap && r < |records|
      reads this
    {
      records[r]
    }

    /** And every write. */
    method Store(r: Rid, tt: Topic)
      requires r in heap && r < |records|
      modifies `records
      ensures records == old(records)[r := tt]
    {
      records := records[r := tt];
    }

    /** rd_kafka_produce, on a live topic handle: one more message with the record's address. */
    method Enqueue(r: Rid, tt: Topic)
      requires tt.handle
      modifies `queue
      ensures queue == old(queue) + multiset{r}
    {
      queue := queue + multiset{r};
    }

    /** One action of the protocol. */
    ghost method Advance(a: Action)
      requires Lives() && Inv(world) && Enabled(world, a)
      modifies `world, `trace
      ensures Lives() && Inv(world)
      ensures world == Do(old(world), a) && trace == old(trace) + [a]
    {
      hide Inv, Do, Enabled, Initial;
      ActionInv(world, a);
      OneRun(world, a);
      RunConcat(start, trace, [a]);
      world := Do(world, a);
      trace := trace + [a];
    }

    static lemma OneRun(s: State, a: Action)
      requires Enabled(s, a)
      ensures IsRun(s, [a]) && After(s, [a]) == Do(s, a)
    {
      hide Do, Enabled;
      var s' := Do(s, a);
      assert [a][1..] == [] && IsRun(s', []) && After(s', []) == s';
    }

    /** rd_kafka_poll or rd_kafka_flush on some thread: any finite number of outstanding reports. */
    method Serve(ghost agent: Agent, callbacks: seq<Callback>)
      requires Valid() && CanServe(world, agent)
      modifies `records, `queue, `world, `trace
      ensures Valid() && Extends(old(trace), trace)
      ensures world == old(world).(k := world.k) && OnlyServed(old(world.k), world.k)
      ensures queue == Remaining(old(queue), callbacks) && |records| == old(|records|)
      ensures forall r | 0 <= r < |records| ::
                records[r] == old(records[r]).(history := old(records[r].history) + Heard(old(queue), callbacks, r))
      ensures records == HeardBy(old(records), old(queue), callbacks)
    {
      hide Inv, Reaches, HeapOf, Used, Valid, OnlyServed, Remaining, Heard;
      SameServed(world.k);
      NoneServed(queue, records);
      assert callbacks[..0] == [];
      for i := 0 to |callbacks|
        invariant Valid() && Extends(old(trace), trace)
        invariant world == old(world).(k := world.k) && OnlyServed(old(world.k), world.k)
        invariant queue == Remaining(old(queue), callbacks[..i])
        invariant records == HeardBy(old(records), old(queue), callbacks[..i])
      {
        ghost var k := world.k;
        var c := callbacks[i];
        assert callbacks[..i + 1] == callbacks[..i] + [c];
        MoreHeard(old(records), old(queue), callbacks[..i], c);
        if c.rid in queue {
          StillServes(old(world), world, agent);
          ServeOne(agent, c);
          ServedTwice(old(world.k), k, world.k);
        }
      }
      assert callbacks[..|callbacks|] == callbacks;
    }

    static lemma SameServed(k: Kafka)
      ensures OnlyServed(k, k)
    {
    }

    static lemma ServedTwice(k: Kafka, k1: Kafka, k2: Kafka)
      requires OnlyServed(k, k1) && OnlyServed(k1, k2)
      ensures OnlyServed(k, k2)
    {
    }

    /** The records, each with what it hears. */
    static ghost function HeardBy(records: seq<Topic>, q: multiset<Rid>, cs: seq<Callback>): seq<Topic> {
      seq(|records|, r requires 0 <= r < |records| => records[r].(history := records[r].history + Heard(q, cs, r)))
    }

    static lemma NoneServed(q: multiset<Rid>, records: seq<Topic>)
      ensures Remaining(q, []) == q && HeardBy(records, q, []) == records
    {
      forall r | 0 <= r < |records|
        ensures HeardBy(records, q, [])[r] == records[r]
      {
        assert records[r].history + [] == records[r].history;
      }
    }

    static lemma StillServes(s: State, s': State, agent: Agent)
      requires CanServe(s, agent) && s' == s.(k := s'.k) && OnlyServed(s.k, s'.k)
      ensures CanServe(s', agent)
    {
    }

    static lemma MoreHeard(records: seq<Topic>, q: multiset<Rid>, cs: seq<Callback>, c: Callback)
      ensures c.rid in Remaining(q, cs) ==>
                && Remaining(q, cs + [c]) == Remaining(q, cs) - multiset{c.rid}
                && var before := HeardBy(records, q, cs);
                HeardBy(records, q, cs + [c]) == if c.rid >= |records| then before
                  else before[c.rid := before[c.rid].(history := before[c.rid].history + [Report(c.err, c.now)])]
      ensures c.rid !in Remaining(q, cs) ==>
                Remaining(q, cs + [c]) == Remaining(q, cs) && HeardBy(records, q, cs + [c]) == HeardBy(records, q, cs)
    {
      hide Remaining, Heard;
      OneReport(q, cs, c, 0);
      var before, after := HeardBy(records, q, cs), HeardBy(records, q, cs + [c]);
      forall r | 0 <= r < |records|
        ensures after[r] == if c.rid in Remaining(q, cs) && r == c.rid
                            then before[r].(history := before[r].history + [Report(c.err, c.now)]) else before[r]
      {
        HeardOf(records, q, cs, c, r);
      }
    }

    static lemma HeardOf(records: seq<Topic>, q: multiset<Rid>, cs: seq<Callback>, c: Callback, r: Rid)
      requires r < |records|
      ensures var before := HeardBy(records, q, cs)[r];
              HeardBy(records, q, cs + [c])[r]
              == if c.rid in Remaining(q, cs) && r == c.rid then before.(history := before.history + [Report(c.err, c.now)]) else before
    {
      hide Remaining, Heard;
      OneReport(q, cs, c, r);
      assert (records[r].history + Heard(q, cs, r)) + [Report(c.err, c.now)] == records[r].history + (Heard(q, cs, r) + [Report(c.err, c.now)]);
    }

    /** dr_msg_cb for one report: it writes to the record the message names. */
    method ServeOne(ghost agent: Agent, c: Callback)
      requires Valid() && CanServe(world, agent) && c.rid in queue
      modifies `records, `queue, `world, `trace
      ensures Valid() && Extends(old(trace), trace)
      ensures c.rid in heap && queue == old(queue) - multiset{c.rid} && c.rid < old(|records|)
      ensures records == old(records)[c.rid := old(records[c.rid]).(history := old(records[c.rid].history) + [Report(c.err, c.now)])]
      ensures world == old(world).(k := world.k) && OnlyServed(old(world.k), world.k)
    {
      hide Inv, Reaches, Used, Step;
      QueuedAlive(world, c.rid);
      assert c.rid in heap;
      var tt := Load(c.rid);
      Store(c.rid, tt.(history := tt.history + [Report(c.err, c.now)]));
      queue := queue - multiset{c.rid};
      Advance(Deliver(agent, c.rid, c.err, c.now));
      assert HeapOf(world.k) == HeapOf(old(world.k));
    }

    static lemma QueuedAlive(s: State, r: Rid)
      requires Inv(s) && r in s.k.queue
      ensures r < |s.k.records| && s.k.places[r] != Freed
      ensures s.k.producer.Some? && s.k.producer.value.rk
    {
    }

    /** One step of the session's own code, under the lock. */
    ghost method Stepped(t: Tid, c: Choice)
      requires Lives() && Inv(world) && t in world.pc && Ready(world.k, world.pc[t], c)
      modifies `world, `trace
      ensures Lives() && Inv(world) && Extends(old(trace), trace)
      ensures world == old(world).(k := Step(old(world.k), old(world.pc[t]), c).0,
                                   pc := old(world.pc)[t := Step(old(world.k), old(world.pc[t]), c).1])
    {
      hide Inv, Reaches, Step;
      Advance(Work(t, c));
    }

    /** A step that leaves the table alone. */
    ghost method Passed(t: Tid, c: Choice)
      requires Valid() && t in world.pc && Ready(world.k, world.pc[t], c)
      requires Step(world.k, world.pc[t], c).0 == world.k
      modifies `world, `trace
      ensures Valid() && Extends(old(trace), trace)
      ensures world == old(world).(pc := old(world.pc)[t := Step(old(world.k), old(world.pc[t]), c).1])
    {
      hide Inv, Reaches, Step, HeapOf;
      Stepped(t, c);
    }

    /** The poll thread serves some reports, if it is there. */
    method Pause(callbacks: seq<Callback>)
      requires Valid()
      modifies `records, `queue, `world, `trace
      ensures Valid() && Extends(old(trace), trace)
      ensures world == old(world).(k := world.k) && OnlyServed(old(world.k), world.k)
      ensures |records| == old(|records|)
      ensures if producer.Some? && producer.value.poller.Polling? then
                && queue == Remaining(old(queue), callbacks)
                && forall r | 0 <= r < |records| ::
                     records[r] == old(records[r]).(history := old(records[r].history) + Heard(old(queue), callbacks, r))
              else queue == old(queue) && records == old(records)
    {
      if producer.Some? && producer.value.poller.Polling? {
        Serve(PollThread, callbacks);
      }
    }

    static lemma EntriesAlive(s: State)
      requires Inv(s)
      ensures !WriterPc(s).AllFreeing? ==> forall r | r in s.k.topics :: r < |s.k.records| && r in HeapOf(s.k)
      ensures FreedRetired(WriterPc(s)) == 0 ==> forall r | r in s.k.retired :: r < |s.k.records| && r in HeapOf(s.k)
    {
    }

    /** kafka_table_find_locked: it reads the name of every record up to the one it looks for. */
    method FindLocked(name: string) returns (i: nat)
      requires Valid() && !WriterPc(world).AllFreeing?
      ensures i == Lookup(world.k, name) && i <= topics.count
      ensures i < topics.count ==> topics.data[i] < |records| && records[topics.data[i]].name == name
      ensures forall j | 0 <= j < i :: topics.data[j] < |records| && records[topics.data[j]].name != name
    {
      hide Inv, Reaches, Lookup;
      EntriesAlive(world);
      i := 0;
      while i < topics.count
        invariant i <= topics.count
        invariant forall j | 0 <= j < i :: !Named(world.k, world.k.topics[j], name)
        invariant forall j | 0 <= j < i :: topics.data[j] < |records| && records[topics.data[j]].name != name
      {
        assert world.k.topics[i] == topics.data[i];
        assert topics.data[i] in heap;
        if Load(topics.data[i]).name == name {
          break;
        }
        i := i + 1;
      }
      LookupIs(world.k, name, i);
    }

    /** tek_kafka_topic_free */
    method TopicFree(r: Rid)
      requires r in heap
      modifies `heap
      ensures heap == old(heap) - {r}
    {
      heap := heap - {r};
    }

    /** kafka_table_reap_retired_locked: all retired records are freed, or none. */
    method ReapRetiredLocked(t: Tid)
      requires Valid() && t in world.pc && world.pc[t].ReapCheck?
      modifies `heap, retired`count, retired`ops, `world, `trace
      ensures Valid() && Extends(old(trace), trace)
      ensures world == old(world).(k := world.k, pc := old(world.pc)[t := Leave(Write, old(world.pc[t].next))])
      ensures world.k == old(world.k).(retired := world.k.retired, places := world.k.places)
      ensures |queue| > 0 ==> retired.Contents() == old(retired.Contents()) && heap == old(heap)
      ensures |queue| == 0 ==> retired.Contents() == [] && heap == old(heap) - (set r | r in old(retired.Contents()))
    {
      hide Inv, Reaches, Step, Used;
      BusyIs(world);
      ghost var c := Choice(true, true, Queued);
      StepIs(world.k, world.pc[t], c);
      if retired.count == 0 {
        Stepped(t, c);
        return;
      }
      if producer.Some? && producer.value.rk && |queue| > 0 {
        Stepped(t, c);
        return;
      }
      Stepped(t, c);
      FreeRetired(t);
    }

    /** Messages are outstanding only at a live producer. */
    static lemma BusyIs(s: State)
      requires Inv(s)
      ensures Busy(s.k) <==> |s.k.queue| > 0
    {
      QueueNeedsProducer(s.k, WriterPc(s));
      hide TableInv, LockInv, ReaderInv;
    }

    /** The loop of kafka_table_reap_retired_locked. */
    method FreeRetired(t: Tid)
      requires Valid() && t in world.pc && world.pc[t].ReapFree? && world.pc[t].i == 0
      modifies `heap, retired`count, retired`ops, `world, `trace
      ensures Valid() && Extends(old(trace), trace)
      ensures world == old(world).(k := world.k, pc := old(world.pc)[t := Leave(Write, old(world.pc[t].next))])
      ensures world.k == old(world.k).(retired := [], places := world.k.places)
      ensures retired.Contents() == [] && heap == old(heap) - (set r | r in old(retired.Contents()))
    {
      hide Inv, Reaches, Step, Used;
      ghost var next := world.pc[t].next;
      ghost var c := Choice(true, true, Queued);
      ghost var r := retired.Contents();
      var i := 0;
      while i < retired.count
        invariant Arrays() && Lives() && Inv(world) && Ties() && Extends(old(trace), trace)
        invariant i <= retired.count && retired.Contents() == r
        invariant world == old(world).(k := world.k, pc := old(world.pc)[t := ReapFree(i, next)])
        invariant world.k == old(world.k).(places := world.k.places)
        invariant heap == old(heap) - (set j | 0 <= j < i :: r[j])
      {
        assert r[i] == retired.data[i];
        FreeOneRetired(t, i);
        i := i + 1;
      }
      StepIs(world.k, world.pc[t], c);
      assert (set j | 0 <= j < |r| :: r[j]) == set x | x in r;
      retired.Empty();
      Stepped(t, c);
    }

    method FreeOneRetired(t: Tid, i: nat)
      requires Arrays() && Lives() && Inv(world) && Ties()
      requires t in world.pc && world.pc[t].ReapFree? && world.pc[t].i == i < retired.count
      modifies `heap, `world, `trace
      ensures Arrays() && Lives() && Inv(world) && Ties() && Extends(old(trace), trace)
      ensures var p := old(world.pc[t]); world == old(world).(k := world.k, pc := old(world.pc)[t := ReapFree(i + 1, p.next)])
      ensures world.k == old(world.k).(places := world.k.places)
      ensures heap == old(heap) - {retired.data[i]}
    {
      hide Inv, Reaches, Step;
      ghost var c := Choice(true, true, Queued);
      ReapAlive(world, t);
      StepIs(world.k, world.pc[t], c);
      HeapMoved(world.k, retired.data[i], Freed);
      assert retired.Contents()[i] == retired.data[i] == world.k.retired[i];
      TopicFree(retired.data[i]);
      Stepped(t, c);
    }

    /** `Step` by cases, for the points of this file. */
    static lemma StepIs(k: Kafka, p: Pc, c: Choice)
      requires p.ReapCheck? || (p.ReapFree? && Ready(k, p, c))
      ensures Ready(k, p, c)
      ensures p.ReapCheck? ==> Step(k, p, c) == StepReapCheck(k, p.next)
      ensures p.ReapFree? ==> Step(k, p, c) == StepReapFree(k, p.i, p.next)
    {
    }

    static lemma ReapAlive(s: State, t: Tid)
      requires Inv(s) && t in s.pc && s.pc[t].ReapFree? && s.pc[t].i < |s.k.retired|
      ensures var r := s.k.retired[s.pc[t].i]; r < |s.k.records| && r in HeapOf(s.k)
    {
      WriterIs(s, t);
    }

    // -------------------------------------------------------------- entering and leaving

    static lemma WriterIsAt(s: State, t: Tid)
      requires Inv(s) && t in s.pc && Holds(s.pc[t]) == Write
      ensures WriterPc(s) == s.pc[t] && s.writer == Some(t)
    {
      hide TableInv;
    }

    static lemma ReaderNoWriter(s: State, t: Tid)
      requires Inv(s) && t in s.pc && Holds(s.pc[t]) == Read
      ensures WriterPc(s) == Idle && s.writer.None?
    {
      hide TableInv;
    }

    ghost method Enter(t: Tid)
      requires Valid() && t in world.pc && world.pc[t].Wait? && world.writer.None?
      requires LockMode(world.pc[t].op) == Write ==> world.readers == {}
      modifies `world, `trace
      ensures Valid() && Extends(old(trace), trace)
      ensures world.k == old(world.k) && world.pc == old(world.pc)[t := Inside(old(world.pc[t].op))]
      ensures old(LockMode(world.pc[t].op)) == Write ==> world.readers == old(world.readers)
      ensures old(LockMode(world.pc[t].op)) == Read ==> world.writer.None? && world.readers == old(world.readers) + {t}
    {
      hide Inv, Reaches;
      Advance(Acquire(t));
    }

    /** The session calls in, gets the lock, and the poll thread goes on. */
    method Lock(t: Tid, ghost op: Op, callbacks: seq<Callback>)
      requires Valid() && t in world.pc && world.pc[t] == Idle && Entry(op) && op != Op.Dismiss("")
      requires world.writer.None? && (LockMode(op) == Write ==> world.readers == {})
      modifies `records, `queue, `world, `trace
      ensures Valid() && Extends(old(trace), trace)
      ensures world.pc == old(world.pc)[t := Inside(op)] && OnlyServed(old(world.k), world.k)
      ensures if producer.Some? && producer.value.poller.Polling? then queue == Remaining(old(queue), callbacks) else queue == old(queue)
      ensures LockMode(op) == Write ==> world.readers == {}
      ensures LockMode(op) == Read ==> world.writer.None?
    {
      hide Inv, Reaches, HeapOf, Remaining, Heard;
      Call(t, op);
      Enter(t);
      Pause(callbacks);
    }

    ghost method Exit(t: Tid)
      requires Valid() && t in world.pc && world.pc[t].Leave?
      modifies `world, `trace
      ensures Valid() && Extends(old(trace), trace)
      ensures world.k == old(world.k) && world.pc == old(world.pc)[t := old(world.pc[t].next)]
      ensures world.readers == old(world.readers) - {t}
      ensures world.writer.None?
    {
      hide Inv, Reaches, Do;
      LeavesFree(world, t);
      Advance(Unlock(t));
    }

    static lemma LeavesFree(s: State, t: Tid)
      requires Inv(s) && t in s.pc && s.pc[t].Leave?
      ensures Enabled(s, Unlock(t))
      ensures Do(s, Unlock(t)) == State(s.readers - {t}, None, s.pc[t := s.pc[t].next], s.k)
    {
      hide TableInv, ReaderInv;
      assert s.pc[t].mode != Unlocked && Holds(s.pc[t]) == s.pc[t].mode;
      assert s.pc[t].mode == Write ==> s.readers - {t} == s.readers;
    }

    ghost method Call(t: Tid, op: Op)
      requires Valid() && t in world.pc && world.pc[t] == Idle && Entry(op)
      modifies `world, `trace
      ensures Valid() && trace == old(trace) + [Begin(t, op)]
      ensures world == old(world).(pc := old(world.pc)[t := if op == Op.Dismiss("") then Returned(Status(-1)) else Wait(op)])
    {
      hide Inv, Reaches;
      Advance(Begin(t, op));
    }

    // -------------------------------------------------------------- dismissing a topic

    /** tek_kafka_topic_dispose: the handle goes, the record stays. */
    method TopicDispose(t: Tid, r: Rid)
      requires Valid() && t in world.pc && world.pc[t] == Disposing(r)
      modifies `records, `world, `trace
      ensures Valid() && Extends(old(trace), trace)
      ensures world == old(world).(k := world.k, pc := old(world.pc)[t := Deciding(r)])
      ensures world.k == old(world.k).(records := world.k.records)
      ensures r < |old(records)|
      ensures records == old(records)[r := old(records)[r].(handle := false, history := old(records)[r].history + [Disposed])]
    {
      hide Inv, Reaches, Step;
      ghost var c := Choice(true, true, Queued);
      HandAlive(world, t);
      assert r in heap;
      StepOf(world.k, world.pc[t], c);
      var tt := Load(r);
      Store(r, tt.(handle := false, history := tt.history + [Disposed]));
      Stepped(t, c);
      assert HeapOf(world.k) == HeapOf(old(world.k));
    }

    static lemma HandAlive(s: State, t: Tid)
      requires Inv(s) && t in s.pc && InHand(s.pc[t]).Some?
      ensures var r := InHand(s.pc[t]).value; r < |s.k.records| && r in HeapOf(s.k)
    {
      hide TableInv, HeapOf;
      WriterIsAt(s, t);
      WriterAlive(s.k, s.pc[t]);
    }

    /** The record a dismissing session holds, or is about to take, is allocated. */
    static lemma WriterAlive(k: Kafka, w: Pc)
      requires TableInv(k, w)
      ensures InHand(w).Some? ==> InHand(w).value < |k.records| && InHand(w).value in HeapOf(k)
      ensures w.Taking? ==> w.idx < |k.topics| && k.topics[w.idx] < |k.records| && k.topics[w.idx] in HeapOf(k)
    {
      hide MessageInv, NameInv, HandleInv;
    }

    static lemma StepOf(k: Kafka, p: Pc, c: Choice)
      requires p.Disposing? || p.Deciding? || p.Freeing? ==> p.rid < |k.records|
      requires p.Taking? ==> p.idx < |k.topics| && k.topics[p.idx] < |k.records|
      requires p.Taking? || p.Disposing? || p.Deciding? || p.Freeing? || p.Flushing?
      ensures Ready(k, p, c)
      ensures p.Flushing? ==> Step(k, p, c) == (k, Taking(p.idx))
      ensures p.Taking? ==> Step(k, p, c) == StepTake(k, p.idx)
      ensures p.Disposing? ==> Step(k, p, c) == (Dispose(k, p.rid), Deciding(p.rid))
      ensures p.Deciding? ==> Step(k, p, c) == StepDecide(k, p.rid, c)
      ensures p.Freeing? ==> Step(k, p, c) == (Move(k, p.rid, Freed), ReapCheck(Returned(Status(0))))
    {
      hide StepTake, StepDecide, Dispose, Move;
    }

    /** The last part of kafka_table_remove_locked: the record is parked, leaked or freed. */
    method Settle(t: Tid, r: Rid, granted: bool, meanwhile: seq<Callback>)
      requires Valid() && t in world.pc && world.pc[t] == Deciding(r)
      modifies `records, `queue, `heap, `world, `trace, retired, retired.data
      ensures Valid() && Extends(old(trace), trace) && (retired.data == old(retired.data) || fresh(retired.data))
      ensures world == old(world).(k := world.k, pc := old(world.pc)[t := ReapCheck(Returned(Status(0)))])
      ensures world.k.topics == old(world.k.topics) && world.k.producer == old(world.k.producer)
      ensures world.k.queue <= old(world.k.queue)
      ensures old(|queue|) > 0 ==>
                && heap == old(heap)
                && retired.Contents() == old(retired.Contents()) + if granted || old(retired.count < retired.data.Length) then [r] else []
      ensures old(|queue|) == 0 ==> heap == old(heap) - {r} && retired.Contents() == old(retired.Contents())
    {
      hide Inv, Reaches, Step;
      HandAlive(world, t);
      BusyIs(world);
      if producer.Some? && producer.value.rk && |queue| > 0 {
        Park(t, r, granted);
        return;
      }
      ghost var c := Choice(true, true, Queued);
      StepOf(world.k, world.pc[t], c);
      Stepped(t, c);
      Pause(meanwhile);
      FreeHand(t, r);
    }

    method Park(t: Tid, r: Rid, granted: bool)
      requires Valid() && t in world.pc && world.pc[t] == Deciding(r) && |queue| > 0
      modifies `world, `trace, retired, retired.data
      ensures Valid() && Extends(old(trace), trace) && (retired.data == old(retired.data) || fresh(retired.data))
      ensures world == old(world).(k := world.k, pc := old(world.pc)[t := ReapCheck(Returned(Status(0)))])
      ensures world.k == old(world.k).(places := world.k.places, retired := world.k.retired)
      ensures retired.Contents() == old(retired.Contents()) + if granted || old(retired.count < retired.data.Length) then [r] else []
    {
      hide Inv, Reaches, Step, Used, Do, Lookup, SwapRemove, Replay;
      HandAlive(world, t);
      BusyIs(world);
      var ok := retired.Grow(granted);
      ghost var c := Choice(ok, true, Queued);
      StepOf(world.k, world.pc[t], c);
      HeapMoved(world.k, r, if ok then Parked else Leaked);
      if ok {
        retired.Append(r);
      }
      Stepped(t, c);
    }

    method FreeHand(t: Tid, r: Rid)
      requires Valid() && t in world.pc && world.pc[t] == Freeing(r)
      modifies `heap, `world, `trace
      ensures Valid() && Extends(old(trace), trace)
      ensures world == old(world).(k := world.k, pc := old(world.pc)[t := ReapCheck(Returned(Status(0)))])
      ensures world.k == old(world.k).(places := world.k.places) && heap == old(heap) - {r}
    {
      hide Inv, Reaches, Step;
      ghost var c := Choice(true, true, Queued);
      HandAlive(world, t);
      StepOf(world.k, world.pc[t], c);
      HeapMoved(world.k, r, Freed);
      TopicFree(r);
      Stepped(t, c);
    }

    static lemma TakingAlive(s: State, t: Tid)
      requires Inv(s) && t in s.pc && s.pc[t].Taking?
      ensures var idx := s.pc[t].idx; idx < |s.k.topics| && s.k.topics[idx] < |s.k.records| && s.k.topics[idx] in HeapOf(s.k)
    {
      hide TableInv, HeapOf;
      WriterIsAt(s, t);
      WriterAlive(s.k, s.pc[t]);
    }

    /** kafka_table_remove_locked */
    method RemoveLocked(t: Tid, idx: nat, granted: bool, meanwhile: nat -> seq<Callback>)
      requires Valid() && t in world.pc && world.pc[t] == Taking(idx) && idx < topics.count
      modifies `records, `queue, `heap, `world, `trace, topics`count, topics`ops, topics.data, retired, retired.data
      ensures Valid() && Extends(old(trace), trace) && (retired.data == old(retired.data) || fresh(retired.data))
      ensures world == old(world).(k := world.k, pc := old(world.pc)[t := ReapCheck(Returned(Status(0)))])
      ensures topics.Contents() == SwapRemove(old(topics.Contents()), idx)
      ensures world.k.producer == old(world.k.producer) && world.k.queue <= old(world.k.queue)
      ensures |queue| > 0 ==> heap == old(heap)
      ensures old(|queue|) == 0 ==> heap == old(heap) - {old(topics.data[idx])} && retired.Contents() == old(retired.Contents())
    {
      hide Inv, Reaches, Step, Used, HeapOf, Lives, Remaining, Heard, SwapRemove, OnlyServed;
      var tt := TakeOut(t, idx);
      Pause(meanwhile(1));
      FewerLeft(world.k.queue, old(world.k.queue));
      GiveUp(t, tt, granted, meanwhile);
    }

    /** The record is out of the array: its handle is released and it is settled. */
    method GiveUp(t: Tid, tt: Rid, granted: bool, meanwhile: nat -> seq<Callback>)
      requires Valid() && t in world.pc && world.pc[t] == Disposing(tt)
      modifies `records, `queue, `heap, `world, `trace, retired, retired.data
      ensures Valid() && Extends(old(trace), trace) && (retired.data == old(retired.data) || fresh(retired.data))
      ensures world == old(world).(k := world.k, pc := old(world.pc)[t := ReapCheck(Returned(Status(0)))])
      ensures world.k.topics == old(world.k.topics)
      ensures world.k.producer == old(world.k.producer) && world.k.queue <= old(world.k.queue)
      ensures |queue| > 0 ==> heap == old(heap)
      ensures old(|queue|) == 0 ==> heap == old(heap) - {tt} && retired.Contents() == old(retired.Contents())
    {
      hide Inv, Reaches, Step, Used, HeapOf, Lives, Remaining, Heard;
      TopicDispose(t, tt);
      Pause(meanwhile(2));
      FewerLeft(world.k.queue, old(world.k.queue));
      Settle(t, tt, granted, meanwhile(3));
      FewerLeft(world.k.queue, old(world.k.queue));
    }

    static lemma FewerLeft(q: multiset<Rid>, was: multiset<Rid>)
      requires q <= was
      ensures |q| <= |was|
    {
      assert was == q + (was - q);
    }

    method TakeOut(t: Tid, idx: nat) returns (tt: Rid)
      requires Valid() && t in world.pc && world.pc[t] == Taking(idx) && idx < topics.count
      modifies `world, `trace, topics`count, topics`ops, topics.data
      ensures Valid() && Extends(old(trace), trace) && topics.data == old(topics.data)
      ensures tt == old(topics.data[idx])
      ensures world == old(world).(k := world.k, pc := old(world.pc)[t := Disposing(tt)])
      ensures topics.Contents() == SwapRemove(old(topics.Contents()), idx)
      ensures world.k == old(world.k).(topics := world.k.topics, places := world.k.places)
    {
      hide Inv, Reaches, Step;
      ghost var c := Choice(true, true, Queued);
      TakingAlive(world, t);
      StepOf(world.k, world.pc[t], c);
      tt := topics.data[idx];
      assert tt == world.k.topics[idx];
      HeapMoved(world.k, tt, Held);
      topics.Remove(idx);
      Stepped(t, c);
    }

    static lemma DismissEntry(k: Kafka, topic: string, c: Choice)
      ensures Ready(k, Inside(Op.Dismiss(topic)), c)
      ensures Step(k, Inside(Op.Dismiss(topic)), c) == StepDismiss(k, topic)
    {
    }

    /** kafka_table_dismiss: exactly the entry with that name leaves the array. */
    method Dismiss(t: Tid, topic: string, granted: bool, flushed: seq<Callback>, meanwhile: nat -> seq<Callback>)
      returns (res: int)
      requires Valid() && t in world.pc && world.pc[t] == Idle && world.writer.None? && world.readers == {}
      modifies `records, `queue, `heap, `world, `trace, topics`count, topics`ops, topics.data, retired, retired.data
      ensures Valid() && Extends(old(trace), trace) && (retired.data == old(retired.data) || fresh(retired.data))
      ensures world.pc == old(world.pc)[t := Returned(Status(res))] && world.writer.None? && world.readers == {}
      ensures topic != "" && old(Has(world.k, topic)) ==>
                res == 0 && topics.Contents() == SwapRemove(old(topics.Contents()), old(Lookup(world.k, topic)))
      ensures topic == "" || !old(Has(world.k, topic)) ==> res == -1 && topics.Contents() == old(topics.Contents())
      ensures topic != "" && |queue| == 0 ==> retired.Contents() == []
      ensures |queue| > 0 ==> heap == old(heap)
      ensures topic != "" && old(Has(world.k, topic)) ==>
                var left := Remaining(Remaining(old(queue), meanwhile(0)), flushed);
                && queue <= left
                && (|left| == 0 ==>
                      heap == old(heap) - {old(world.k.topics[Lookup(world.k, topic)])} - (set r | r in old(retired.Contents())))
    {
      hide Inv, Reaches, Lookup, HeapOf, Lives, Used, Has, SwapRemove;
      if topic == "" {
        Call(t, Op.Dismiss(topic));
        res := -1;
      } else {
        res := DismissNamed(t, topic, granted, flushed, meanwhile);
      }
    }

    method DismissNamed(t: Tid, topic: string, granted: bool, flushed: seq<Callback>, meanwhile: nat -> seq<Callback>)
      returns (res: int)
      requires Valid() && t in world.pc && world.pc[t] == Idle && world.writer.None? && world.readers == {} && topic != ""
      modifies `records, `queue, `heap, `world, `trace, topics`count, topics`ops, topics.data, retired, retired.data
      ensures Valid() && Extends(old(trace), trace) && (retired.data == old(retired.data) || fresh(retired.data))
      ensures world.pc == old(world.pc)[t := Returned(Status(res))] && world.writer.None? && world.readers == {}
      ensures old(Has(world.k, topic)) ==>
                res == 0 && topics.Contents() == SwapRemove(old(topics.Contents()), old(Lookup(world.k, topic)))
      ensures !old(Has(world.k, topic)) ==> res == -1 && topics.Contents() == old(topics.Contents())
      ensures |queue| == 0 ==> retired.Contents() == []
      ensures |queue| > 0 ==> heap == old(heap)
      ensures old(Has(world.k, topic)) ==>
                var left := Remaining(Remaining(old(queue), meanwhile(0)), flushed);
                && queue <= left
                && (|left| == 0 ==>
                      heap == old(heap) - {old(world.k.topics[Lookup(world.k, topic)])} - (set r | r in old(retired.Contents())))
    {
      hide Inv, Reaches, Lookup, HeapOf, Lives, Used, Has, SwapRemove, Extends, Remaining, Heard, Valid;
      Polls(topic);
      Lock(t, Op.Dismiss(topic), meanwhile(0));
      ghost var before := trace;
      SameLookup(old(world.k), world.k, topic);
      res := DismissInside(t, topic, granted, flushed, meanwhile);
      Chained(old(trace), before, trace);
      before := trace;
      Exit(t);
      Chained(old(trace), before, trace);
    }

    /** While anything is registered and nobody writes, the poll thread is there. */
    static lemma HasPolls(s: State, name: string)
      requires Inv(s) && s.writer.None? && Has(s.k, name)
      ensures s.k.producer.Some? && s.k.producer.value.poller.Polling?
    {
      assert s.k.topics != [];
      hide PlaceInv, MessageInv, NameInv, HandleInv, LockInv, ReaderInv, Has;
    }

    lemma Polls(name: string)
      requires Valid() && world.writer.None?
      ensures Has(world.k, name) ==> producer.Some? && producer.value.poller.Polling?
    {
      hide Has, Inv, Reaches;
      if Has(world.k, name) {
        HasPolls(world, name);
      }
    }

    method DismissInside(t: Tid, topic: string, granted: bool, flushed: seq<Callback>, meanwhile: nat -> seq<Callback>)
      returns (res: int)
      requires Valid() && t in world.pc && world.pc[t] == Inside(Op.Dismiss(topic))
      modifies `records, `queue, `heap, `world, `trace, topics`count, topics`ops, topics.data, retired, retired.data
      ensures Valid() && Extends(old(trace), trace) && (retired.data == old(retired.data) || fresh(retired.data))
      ensures world == old(world).(k := world.k, pc := old(world.pc)[t := Leave(Write, Returned(Status(res)))])
      ensures old(Has(world.k, topic)) ==>
                res == 0 && topics.Contents() == SwapRemove(old(topics.Contents()), old(Lookup(world.k, topic)))
      ensures !old(Has(world.k, topic)) ==> res == -1 && topics.Contents() == old(topics.Contents())
      ensures |queue| == 0 ==> retired.Contents() == []
      ensures |queue| > 0 ==> heap == old(heap)
      ensures old(Has(world.k, topic)) ==>
                var left := Remaining(old(queue), flushed);
                && queue <= left
                && (|left| == 0 ==>
                      heap == old(heap) - {old(world.k.topics[Lookup(world.k, topic)])} - (set r | r in old(retired.Contents())))
    {
      hide Inv, Reaches, Lookup, HeapOf, Lives, Used, Has, SwapRemove, Remaining;
      res := DismissLocked(t, topic, granted, flushed, meanwhile);
      ReapRetiredLocked(t);
      if old(Has(world.k, topic)) {
        FewerLeft(queue, Remaining(old(queue), flushed));
      }
    }

    method DismissLocked(t: Tid, topic: string, granted: bool, flushed: seq<Callback>, meanwhile: nat -> seq<Callback>)
      returns (res: int)
      requires Valid() && t in world.pc && world.pc[t] == Inside(Op.Dismiss(topic))
      modifies `records, `queue, `heap, `world, `trace, topics`count, topics`ops, topics.data, retired, retired.data
      ensures Valid() && Extends(old(trace), trace) && (retired.data == old(retired.data) || fresh(retired.data))
      ensures world == old(world).(k := world.k, pc := old(world.pc)[t := ReapCheck(Returned(Status(res)))])
      ensures old(Has(world.k, topic)) ==>
                res == 0 && topics.Contents() == SwapRemove(old(topics.Contents()), old(Lookup(world.k, topic)))
      ensures !old(Has(world.k, topic)) ==>
                res == -1 && topics.Contents() == old(topics.Contents()) && heap == old(heap) && world.k == old(world.k)
      ensures old(Has(world.k, topic)) ==>
                var left := Remaining(old(queue), flushed);
                && queue <= left && (|queue| > 0 ==> heap == old(heap))
                && (|left| == 0 ==>
                      && heap == old(heap) - {old(world.k.topics[Lookup(world.k, topic)])}
                      && retired.Contents() == old(retired.Contents()))
    {
      hide Inv, Reaches, Step, Lookup, Do, Enabled, Remaining, HeapOf, Lives, Used, Extends;
      ghost var c := Choice(true, true, Queued);
      WriterIsAt(world, t);
      var i := FindLocked(topic);
      DismissEntry(world.k, topic, c);
      Stepped(t, c);
      if i == topics.count {
        return -1;
      }
      ghost var log := trace;
      FlushEntry(t, flushed);
      Chained(old(trace), log, trace);
      log := trace;
      RemoveLocked(t, i, granted, meanwhile);
      Chained(old(trace), log, trace);
      return 0;
    }

    /** The flush before an entry is taken out. */
    method FlushEntry(t: Tid, flushed: seq<Callback>)
      requires Valid() && t in world.pc && world.pc[t].Flushing? && CanServe(world, Session(t))
      modifies `records, `queue, `world, `trace
      ensures Valid() && Extends(old(trace), trace)
      ensures world == old(world).(k := world.k, pc := old(world.pc)[t := Taking(old(world.pc[t].idx))])
      ensures OnlyServed(old(world.k), world.k) && queue == Remaining(old(queue), flushed) && world.k.queue == queue
    {
      hide Inv, Reaches, Step, Lookup, Do, Enabled, Remaining, Heard, HeapOf, Lives, Used;
      ghost var c := Choice(true, true, Queued);
      Serve(Session(t), flushed);
      StepOf(world.k, world.pc[t], c);
      Stepped(t, c);
    }

    static lemma SameLookup(k: Kafka, k': Kafka, name: string)
      requires OnlyServed(k, k')
      ensures Lookup(k', name) == Lookup(k, name) && Has(k', name) == Has(k, name)
    {
      LookupIs(k', name, Lookup(k, name));
    }

    // -------------------------------------------------------------- connecting and creating a topic

    static lemma EntryStep(k: Kafka, op: Op, c: Choice)
      ensures Ready(k, Inside(op), c)
      ensures op.Connect? ==> Step(k, Inside(op), c) == StepConnect(k, c)
      ensures op.Create? ==> Step(k, Inside(op), c) == StepCreate(k, op.topic, op.len, c)
      ensures op.Exists? ==> Step(k, Inside(op), c) == StepExists(k, op.topic, op.len)
      ensures op.Send? ==> Step(k, Inside(op), c) == StepSend(k, op.topic, op.len)
      ensures op.Stats? ==> Step(k, Inside(op), c) == StepStats(k, op.topic)
      ensures op.DismissAll? ==> Step(k, Inside(op), c) == (k, if k.producer.Some? then AllFlushing else AllDisposing(0))
    {
      hide StepConnect, StepCreate, StepExists, StepSend, StepStats;
    }

    /** kafka_table_connect, once the broker list is known not to be empty; `built` says whether creating,
        configuring and running the producer succeeded. */
    method Connect(t: Tid, built: bool, meanwhile: seq<Callback>) returns (res: int)
      requires Valid() && t in world.pc && world.pc[t] == Idle && world.writer.None? && world.readers == {}
      modifies `producer, `nextId, `records, `queue, `world, `trace
      ensures Valid() && Extends(old(trace), trace)
      ensures world.pc == old(world.pc)[t := Returned(Status(res))] && world.writer.None? && world.readers == {}
      ensures res == 0 <==> old(producer).None? && built
      ensures res == 0 ==> producer == Some(Producer(old(nextId), true, false, true, true, Polling))
      ensures res != 0 ==> res == -1 && producer == old(producer)
      ensures world.k == old(world.k).(producer := producer, nextId := nextId, records := world.k.records, queue := world.k.queue)
    {
      hide Inv, Reaches, Step, Used;
      Lock(t, Op.Connect, meanwhile);
      ghost var c := Choice(true, built, Queued);
      EntryStep(world.k, Op.Connect, c);
      res := -1;
      if producer.None? && built {
        producer := Some(Producer(nextId, true, false, true, true, Polling));
        nextId := nextId + 1;
        res := 0;
      }
      Stepped(t, c);
      Exit(t);
    }

    /** When a record that is not there yet can be made. */
    static predicate Creatable(producer: Option<Producer>, topic: string, room: bool, built: bool) {
      producer.Some? && room && producer.value.rk && topic != "" && built
    }

    /** The allocation and registration of kafka_table_create. */
    method Register(t: Tid, topic: string, ghost len: nat, granted: bool, built: bool) returns (res: int)
      requires Valid() && t in world.pc && world.pc[t] == Inside(Op.Create(topic, len)) && !Has(world.k, topic)
      modifies `records, `heap, `world, `trace, topics, topics.data
      ensures Valid() && Extends(old(trace), trace) && (topics.data == old(topics.data) || fresh(topics.data))
      ensures world == old(world).(k := world.k, pc := old(world.pc)[t := ReapCheck(if res == 0 then Wait(Op.Send(topic, len)) else Returned(Sent(-1)))])
      ensures world.k.retired == old(world.k.retired) && world.k.queue == old(world.k.queue) && world.k.producer == old(world.k.producer)
      ensures res == 0 || res == -1
      ensures res == 0 <==> Creatable(old(producer), topic, granted || old(topics.count < topics.data.Length), built)
      ensures res == -1 ==> world.k == old(world.k) && records == old(records)
      ensures res == 0 ==> old(producer).Some?
                           && topics.Contents() == old(topics.Contents()) + [|old(records)|]
                           && records == old(records) + [Topic(topic, true, old(producer).value.id, [])]
                           && heap == old(heap) + {|old(records)|}
    {
      hide Inv, Reaches, Step, Used, Has, Lookup;
      if producer.None? {
        Rejected(t, topic, len, Choice(granted, built, Queued));
        return -1;
      }
      var ok := topics.Grow(granted);
      ghost var c := Choice(ok, built, Queued);
      if !ok || !producer.value.rk || topic == "" || !built {
        Rejected(t, topic, len, c);
        return -1;
      }
      Insert(t, topic, len, c);
      return 0;
    }

    /** tek_kafka_topic_create has made the record: it is entered in the array. */
    method Insert(t: Tid, topic: string, ghost len: nat, ghost c: Choice)
      requires Valid() && t in world.pc && world.pc[t] == Inside(Op.Create(topic, len)) && !Has(world.k, topic)
      requires topics.count < topics.data.Length && c.granted && Creatable(producer, topic, true, c.built)
      modifies `records, `heap, `world, `trace, topics, topics.data
      ensures Valid() && Extends(old(trace), trace) && topics.data == old(topics.data)
      ensures world == old(world).(k := world.k, pc := old(world.pc)[t := ReapCheck(Wait(Op.Send(topic, len)))])
      ensures world.k.retired == old(world.k.retired) && world.k.queue == old(world.k.queue) && world.k.producer == old(world.k.producer)
      ensures topics.Contents() == old(topics.Contents()) + [|old(records)|]
      ensures records == old(records) + [Topic(topic, true, producer.value.id, [])] && heap == old(heap) + {|old(records)|}
    {
      hide Inv, Reaches, Step, Used, Has, Lookup;
      EntryStep(world.k, Op.Create(topic, len), c);
      HeapGrows(world.k, Topic(topic, true, producer.value.id, []));
      topics.Append(|records|);
      heap := heap + {|records|};
      records := records + [Topic(topic, true, producer.value.id, [])];
      Stepped(t, c);
    }

    ghost method Rejected(t: Tid, topic: string, len: nat, c: Choice)
      requires Valid() && t in world.pc && world.pc[t] == Inside(Op.Create(topic, len)) && !Has(world.k, topic)
      requires producer.None? || !c.granted || !producer.value.rk || topic == "" || !c.built
      modifies `world, `trace
      ensures Valid() && Extends(old(trace), trace)
      ensures world == old(world).(pc := old(world.pc)[t := ReapCheck(Returned(Sent(-1)))])
    {
      hide Inv, Reaches, Step, Has, Lookup;
      EntryStep(world.k, Op.Create(topic, len), c);
      Stepped(t, c);
    }

    static lemma HeapGrows(k: Kafka, made: Topic)
      ensures HeapOf(Registering(k, made)) == HeapOf(k) + {|k.records|}
    {
      var k' := Registering(k, made);
      assert forall r | 0 <= r < |k.places| :: k'.places[r] == k.places[r];
    }

    /** kafka_table_create: lookup and insertion under one write lock; it succeeds without doing anything
        when the topic is already there. */
    method Create(t: Tid, topic: string, ghost len: nat, granted: bool, built: bool, meanwhile: seq<Callback>) returns (res: int)
      requires Valid() && t in world.pc && world.pc[t] == Wait(Op.Create(topic, len)) && world.writer.None? && world.readers == {}
      modifies `records, `queue, `heap, `world, `trace, topics, topics.data, retired`count, retired`ops
      ensures Valid() && Extends(old(trace), trace) && (topics.data == old(topics.data) || fresh(topics.data))
      ensures world.pc == old(world.pc)[t := if res == 0 then Wait(Op.Send(topic, len)) else Returned(Sent(-1))]
      ensures world.writer.None? && world.readers == {} && world.k.producer == old(world.k.producer)
      ensures res == 0 <==> (old(Has(world.k, topic)) ||
                             (old(producer).Some? && (granted || old(topics.count < topics.data.Length))
                              && old(producer).value.rk && topic != "" && built))
      ensures topics.Contents() == old(topics.Contents()) + if res == 0 && !old(Has(world.k, topic)) then [|old(records)|] else []
      ensures res == 0 && !old(Has(world.k, topic)) ==>
                && old(producer).Some? && |records| == |old(records)| + 1
                && records[|old(records)|] == Topic(topic, true, old(producer).value.id, [])
      ensures res == 0 || (res == -1 && |records| == |old(records)|)
      ensures res == 0 ==> Has(world.k, topic)
      ensures |queue| == 0 ==> retired.Contents() == []
      ensures |queue| > 0 ==> retired.Contents() == old(retired.Contents())
    {
      hide Inv, Reaches, Lookup, HeapOf, Lives, Used, Has, Extends;
      EnterCreate(t, topic, len, meanwhile);
      ghost var before := trace;
      SameLookup(old(world.k), world.k, topic);
      res := CreateLocked(t, topic, len, granted, built);
      Chained(old(trace), before, trace);
      before := trace;
      Exit(t);
      Chained(old(trace), before, trace);
    }

    method EnterCreate(t: Tid, topic: string, ghost len: nat, meanwhile: seq<Callback>)
      requires Valid() && t in world.pc && world.pc[t] == Wait(Op.Create(topic, len)) && world.writer.None? && world.readers == {}
      modifies `records, `queue, `world, `trace
      ensures Valid() && Extends(old(trace), trace)
      ensures world.pc == old(world.pc)[t := Inside(Op.Create(topic, len))] && world.readers == {}
      ensures OnlyServed(old(world.k), world.k)
    {
      hide Inv, Reaches, HeapOf, Lives, Used, Has, Remaining, Heard;
      Enter(t);
      Pause(meanwhile);
    }

    method CreateLocked(t: Tid, topic: string, ghost len: nat, granted: bool, built: bool) returns (res: int)
      requires Valid() && t in world.pc && world.pc[t] == Inside(Op.Create(topic, len))
      modifies `records, `heap, `world, `trace, topics, topics.data, retired`count, retired`ops
      ensures Valid() && Extends(old(trace), trace) && (topics.data == old(topics.data) || fresh(topics.data))
      ensures world == old(world).(k := world.k, pc := old(world.pc)[t := Leave(Write, if res == 0 then Wait(Op.Send(topic, len)) else Returned(Sent(-1)))])
      ensures world.k.producer == old(world.k.producer) && world.k.queue == old(world.k.queue)
      ensures res == 0 <==> old(Has(world.k, topic)) || Creatable(old(producer), topic, granted || old(topics.count < topics.data.Length), built)
      ensures topics.Contents() == old(topics.Contents()) + if res == 0 && !old(Has(world.k, topic)) then [|old(records)|] else []
      ensures res == 0 && !old(Has(world.k, topic)) ==>
                old(producer).Some? && records == old(records) + [Topic(topic, true, old(producer).value.id, [])]
      ensures res == 0 || (res == -1 && |records| == |old(records)|)
      ensures res == 0 ==> Has(world.k, topic)
      ensures |queue| == 0 ==> retired.Contents() == []
      ensures |queue| > 0 ==> retired.Contents() == old(retired.Contents())
    {
      hide Inv, Reaches, Lookup, HeapOf, Lives, Used, Has;
      res := FindOrRegister(t, topic, len, granted, built);
      ghost var k := world.k;
      ReapRetiredLocked(t);
      if res == 0 {
        HasStays(k, world.k, topic);
      }
    }

    static lemma HasNamed(k: Kafka, i: nat, name: string)
      requires i < |k.topics| && Named(k, k.topics[i], name)
      ensures Has(k, name)
    {
      hide Named;
    }

    static lemma HasStays(k: Kafka, k': Kafka, name: string)
      requires Has(k, name) && k'.topics == k.topics && k'.records == k.records
      ensures Has(k', name)
    {
      HasNamed(k', Lookup(k, name), name);
    }

    method FindOrRegister(t: Tid, topic: string, ghost len: nat, granted: bool, built: bool) returns (res: int)
      requires Valid() && t in world.pc && world.pc[t] == Inside(Op.Create(topic, len))
      modifies `records, `heap, `world, `trace, topics, topics.data
      ensures Valid() && Extends(old(trace), trace) && (topics.data == old(topics.data) || fresh(topics.data))
      ensures world == old(world).(k := world.k, pc := old(world.pc)[t := ReapCheck(if res == 0 then Wait(Op.Send(topic, len)) else Returned(Sent(-1)))])
      ensures world.k.producer == old(world.k.producer)
      ensures res == 0 <==> old(Has(world.k, topic)) || Creatable(old(producer), topic, granted || old(topics.count < topics.data.Length), built)
      ensures topics.Contents() == old(topics.Contents()) + if res == 0 && !old(Has(world.k, topic)) then [|old(records)|] else []
      ensures res == 0 && !old(Has(world.k, topic)) ==>
                old(producer).Some? && records == old(records) + [Topic(topic, true, old(producer).value.id, [])]
      ensures res == 0 || (res == -1 && |records| == |old(records)|)
      ensures res == 0 ==> Has(world.k, topic)
    {
      hide Inv, Reaches, Step, Lookup;
      WriterIsAt(world, t);
      var i := FindLocked(topic);
      if i < topics.count {
        ghost var c := Choice(granted, built, Queued);
        EntryStep(world.k, Op.Create(topic, len), c);
        Stepped(t, c);
        res := 0;
      } else {
        res := Register(t, topic, len, granted, built);
        if res == 0 {
          HasNamed(world.k, |world.k.topics| - 1, topic);
        }
      }
    }

    // -------------------------------------------------------------- tearing everything down

    static lemma TeardownStep(k: Kafka, p: Pc, c: Choice)
      requires p.AllFlushing? || p.AllDisposing? || p.AllStopping? || p.AllJoining? || p.AllDestroying? || p.AllFreeing? || p.AllReaping?
      requires Ready(k, p, c)
      ensures p.AllFlushing? ==> Step(k, p, c) == (k, AllDisposing(0))
      ensures p.AllDisposing? ==> Step(k, p, c) == StepAllDispose(k, p.i)
      ensures p.AllStopping? ==> Step(k, p, c) == (k.(producer := Some(k.producer.value.(running := false))), AllJoining)
      ensures p.AllJoining? ==> Step(k, p, c) == (k.(producer := Some(k.producer.value.(started := false))), AllDestroying)
      ensures p.AllDestroying? ==> Step(k, p, c) == StepDestroy(k)
      ensures p.AllFreeing? ==> Step(k, p, c) == StepAllFree(k, p.i)
      ensures p.AllReaping? ==> Step(k, p, c) == StepAllReap(k, p.i)
    {
      hide StepAllDispose, StepDestroy, StepAllFree, StepAllReap;
    }

    /** What a teardown loop is about to touch is allocated. */
    static lemma TeardownAlive(s: State, t: Tid)
      requires Inv(s) && t in s.pc
      ensures s.pc[t].AllDisposing? || s.pc[t].AllFreeing? ==> InReach(s.k, s.k.topics, s.pc[t].i)
      ensures s.pc[t].AllReaping? ==> InReach(s.k, s.k.retired, s.pc[t].i)
    {
      hide TableInv, InReach;
      if s.pc[t].AllDisposing? || s.pc[t].AllFreeing? || s.pc[t].AllReaping? {
        WriterIsAt(s, t);
        LoopAlive(s.k, s.pc[t]);
      }
    }

    static ghost predicate InReach(k: Kafka, a: seq<Rid>, i: nat) {
      i <= |a| && (i < |a| ==> a[i] < |k.records| && a[i] in HeapOf(k))
    }

    static lemma LoopAlive(k: Kafka, w: Pc)
      requires TableInv(k, w)
      ensures w.AllDisposing? || w.AllFreeing? ==> InReach(k, k.topics, w.i)
      ensures w.AllReaping? ==> InReach(k, k.retired, w.i)
    {
      hide MessageInv, NameInv, HandleInv;
    }

    /** Release the librdkafka handles while the producer is still alive. */
    method DisposeAll(t: Tid, meanwhile: nat -> seq<Callback>)
      requires Valid() && t in world.pc && world.pc[t] == AllDisposing(0)
      modifies `records, `queue, `world, `trace
      ensures Valid() && Extends(old(trace), trace)
      ensures world == old(world).(k := world.k, pc := old(world.pc)[t := if producer.Some? then AllStopping else AllFreeing(0)])
      ensures world.k == old(world.k).(records := world.k.records, queue := world.k.queue) && world.k.queue <= old(world.k.queue)
    {
      hide Inv, Reaches, Step, HeapOf, Valid, Used, Remaining, Heard;
      ghost var c := Choice(true, true, Queued);
      var i := 0;
      while i < topics.count
        invariant Valid() && Extends(old(trace), trace) && i <= topics.count
        invariant world == old(world).(k := world.k, pc := old(world.pc)[t := AllDisposing(i)])
        invariant world.k == old(world.k).(records := world.k.records, queue := world.k.queue) && world.k.queue <= old(world.k.queue)
      {
        DisposeOne(t, i);
        Pause(meanwhile(i));
        i := i + 1;
      }
      Mirrors();
      TeardownStep(world.k, world.pc[t], c);
      Passed(t, c);
    }

    method DisposeOne(t: Tid, i: nat)
      requires Valid() && t in world.pc && world.pc[t] == AllDisposing(i) && i < topics.count
      modifies `records, `world, `trace
      ensures Valid() && Extends(old(trace), trace)
      ensures world == old(world).(k := world.k, pc := old(world.pc)[t := AllDisposing(i + 1)])
      ensures world.k == old(world.k).(records := world.k.records)
      ensures var r := topics.data[i];
              && r < |old(records)|
              && records == old(records)[r := old(records)[r].(handle := false, history := old(records)[r].history + [Disposed])]
    {
      hide Inv, Reaches, Step;
      ghost var c := Choice(true, true, Queued);
      TeardownAlive(world, t);
      var r := topics.data[i];
      assert r == world.k.topics[i] && r in heap;
      TeardownStep(world.k, world.pc[t], c);
      var tt := Load(r);
      Store(r, tt.(handle := false, history := tt.history + [Disposed]));
      Stepped(t, c);
      assert HeapOf(world.k) == HeapOf(old(world.k));
    }

    /** tek_kafka_producer_dispose, on a producer that runs: stop and join the poll thread, destroy rk. */
    method ProducerDispose(t: Tid, served: seq<Callback>, meanwhile: seq<Callback>)
      requires Valid() && t in world.pc && world.pc[t] == AllStopping && producer.Some?
      modifies `producer, `records, `queue, `world, `trace
      ensures Valid() && Extends(old(trace), trace)
      ensures world == old(world).(k := world.k, pc := old(world.pc)[t := AllFreeing(0)])
      ensures producer.None? && |queue| == 0
      ensures DropsAtMost(old(world.k), world.k, old(queue))
      ensures world.k.topics == old(world.k.topics) && world.k.retired == old(world.k.retired) && world.k.places == old(world.k.places)
    {
      hide Inv, Reaches, HeapOf, Valid, Remaining, Heard;
      StopPolling(t);
      Pause(meanwhile);
      Join(t);
      Serve(Session(t), served);
      Destroy(t);
    }

    method StopPolling(t: Tid)
      requires Valid() && t in world.pc && world.pc[t] == AllStopping && producer.Some?
      modifies `producer, `world, `trace
      ensures Valid() && Extends(old(trace), trace)
      ensures world == old(world).(k := world.k, pc := old(world.pc)[t := AllJoining])
      ensures world.k == old(world.k).(producer := producer) && producer.Some?
    {
      hide Inv, Reaches, Step;
      ghost var c := Choice(true, true, Queued);
      producer := Some(producer.value.(running := false));
      TeardownStep(world.k, world.pc[t], c);
      Stepped(t, c);
      assert HeapOf(world.k) == HeapOf(old(world.k));
    }

    /** pthread_join: it returns once the poll thread has left its loop. */
    method Join(t: Tid)
      requires Valid() && t in world.pc && world.pc[t] == AllJoining
      modifies `producer, `world, `trace
      ensures Valid() && Extends(old(trace), trace)
      ensures world == old(world).(k := world.k, pc := old(world.pc)[t := AllDestroying])
      ensures world.k == old(world.k).(producer := producer) && producer.Some?
    {
      hide Inv, Reaches, Step;
      ghost var c := Choice(true, true, Queued);
      NotRunning(world, t);
      if producer.value.poller.Polling? {
        producer := Some(producer.value.(poller := Exited));
        Advance(PollExit);
      }
      assert HeapOf(world.k) == HeapOf(old(world.k));
      TeardownStep(world.k, world.pc[t], c);
      producer := Some(producer.value.(started := false));
      Stepped(t, c);
    }

    static lemma NotRunning(s: State, t: Tid)
      requires Inv(s) && t in s.pc && s.pc[t].AllJoining?
      ensures s.k.producer.Some? && !s.k.producer.value.running
    {
      WriterIsAt(s, t);
    }

    method Destroy(t: Tid)
      requires Valid() && t in world.pc && world.pc[t] == AllDestroying && producer.Some?
      modifies `producer, `queue, `world, `trace
      ensures Valid() && Extends(old(trace), trace)
      ensures world == old(world).(k := world.k, pc := old(world.pc)[t := AllFreeing(0)])
      ensures producer.None? && |queue| == 0
      ensures |world.k.accounts| == |old(world.k.accounts)|
      ensures forall r | 0 <= r < |world.k.accounts| ::
                world.k.accounts[r] == old(world.k.accounts[r]).(dropped := old(world.k.accounts[r].dropped) + old(queue)[r])
      ensures world.k == old(world.k).(producer := None, queue := multiset{}, accounts := world.k.accounts)
    {
      hide Inv, Reaches, Step;
      ghost var c := Choice(true, true, Queued);
      TeardownStep(world.k, world.pc[t], c);
      producer := None;
      queue := multiset{};
      Stepped(t, c);
      assert HeapOf(world.k) == HeapOf(old(world.k));
    }

    method FreeAllTopics(t: Tid)
      requires Valid() && t in world.pc && world.pc[t] == AllFreeing(0)
      modifies `heap, `world, `trace, topics
      ensures Valid() && Extends(old(trace), trace) && fresh(topics.data)
      ensures world == old(world).(k := world.k, pc := old(world.pc)[t := AllReaping(0)])
      ensures world.k == old(world.k).(topics := [], places := world.k.places)
      ensures topics.Contents() == [] && topics.data.Length == 0
    {
      hide Inv, Reaches, Step;
      ghost var c := Choice(true, true, Queued);
      var i := 0;
      while i < topics.count
        invariant Valid() && Extends(old(trace), trace) && i <= topics.count
        invariant world == old(world).(k := world.k, pc := old(world.pc)[t := AllFreeing(i)])
        invariant world.k == old(world.k).(places := world.k.places)
      {
        TeardownAlive(world, t);
        FreeTopicEntry(t, i);
        i := i + 1;
      }
      TeardownStep(world.k, world.pc[t], c);
      topics.Release();
      Stepped(t, c);
    }

    method FreeTopicEntry(t: Tid, i: nat)
      requires Valid() && t in world.pc && world.pc[t] == AllFreeing(i) && i < topics.count
      modifies `heap, `world, `trace
      ensures Valid() && Extends(old(trace), trace)
      ensures world == old(world).(k := world.k, pc := old(world.pc)[t := AllFreeing(i + 1)])
      ensures world.k == old(world.k).(places := world.k.places)
    {
      hide Inv, Reaches, Step;
      ghost var c := Choice(true, true, Queued);
      TeardownAlive(world, t);
      assert topics.data[i] == world.k.topics[i];
      HeapMoved(world.k, topics.data[i], Freed);
      TeardownStep(world.k, world.pc[t], c);
      TopicFree(topics.data[i]);
      Stepped(t, c);
    }

    method FreeAllRetired(t: Tid)
      requires Valid() && t in world.pc && world.pc[t] == AllReaping(0)
      modifies `heap, `world, `trace, retired
      ensures Valid() && Extends(old(trace), trace) && fresh(retired.data)
      ensures world == old(world).(k := world.k, pc := old(world.pc)[t := Leave(Write, Returned(Status(0)))])
      ensures world.k == old(world.k).(retired := [], places := world.k.places)
      ensures retired.Contents() == [] && retired.data.Length == 0
      ensures Created(world.k) == At(world.k, Leaked) + At(world.k, Freed)
    {
      hide Inv, Reaches, Step;
      ghost var c := Choice(true, true, Queued);
      var i := 0;
      while i < retired.count
        invariant Valid() && Extends(old(trace), trace) && i <= retired.count
        invariant world == old(world).(k := world.k, pc := old(world.pc)[t := AllReaping(i)])
        invariant world.k == old(world.k).(places := world.k.places)
      {
        FreeRetiredEntry(t, i);
        i := i + 1;
      }
      TeardownStep(world.k, world.pc[t], c);
      WriterIsAt(world, t);
      LastOnes(world, t, i);
      retired.Release();
      Stepped(t, c);
    }

    static lemma LastOnes(s: State, t: Tid, i: nat)
      requires Inv(s) && WriterPc(s) == AllReaping(i) && i >= |s.k.retired|
      ensures Created(s.k) == At(s.k, Leaked) + At(s.k, Freed)
    {
      NothingKept(s.k, i);
    }

    method FreeRetiredEntry(t: Tid, i: nat)
      requires Valid() && t in world.pc && world.pc[t] == AllReaping(i) && i < retired.count
      modifies `heap, `world, `trace
      ensures Valid() && Extends(old(trace), trace)
      ensures world == old(world).(k := world.k, pc := old(world.pc)[t := AllReaping(i + 1)])
      ensures world.k == old(world.k).(places := world.k.places)
    {
      hide Inv, Reaches, Step;
      ghost var c := Choice(true, true, Queued);
      TeardownAlive(world, t);
      assert retired.data[i] == world.k.retired[i];
      HeapMoved(world.k, retired.data[i], Freed);
      TeardownStep(world.k, world.pc[t], c);
      TopicFree(retired.data[i]);
      Stepped(t, c);
    }

    /** kafka_table_dismiss_all: flush once, release every handle, destroy the producer, free every record. */
    method DismissAll(t: Tid, flushed: seq<Callback>, served: seq<Callback>, meanwhile: nat -> seq<Callback>, joining: seq<Callback>)
      requires Valid() && t in world.pc && world.pc[t] == Idle && world.writer.None? && world.readers == {}
      modifies `producer, `records, `queue, `heap, `world, `trace, topics, retired
      ensures Valid() && Extends(old(trace), trace) && fresh(topics.data) && fresh(retired.data)
      ensures world.pc == old(world.pc)[t := Returned(Status(0))] && world.writer.None? && world.readers == {}
      ensures producer.None? && |queue| == 0
      ensures |world.k.accounts| == |old(world.k.accounts)|
      ensures forall r | 0 <= r < |world.k.accounts| ::
                && world.k.accounts[r].accepted == old(world.k.accounts[r].accepted)
                && world.k.accounts[r].dropped <= old(world.k.accounts[r].dropped) + Remaining(old(queue), flushed)[r]
      ensures topics.Contents() == [] && retired.Contents() == [] && topics.data.Length == retired.data.Length == 0
      ensures Created(world.k) == At(world.k, Leaked) + At(world.k, Freed) && heap == At(world.k, Leaked)
      ensures forall r | 0 <= r < |records| :: !records[r].handle
    {
      hide Inv, Reaches, HeapOf, Created, At, OnlyServed, Remaining;
      Disconnect(t, flushed, served, meanwhile, joining);
      FreeEverything(t);
      Exit(t);
      NoHandles();
    }

    lemma NoHandles()
      requires Valid() && world.k.producer.None?
      ensures forall r | 0 <= r < |records| :: !records[r].handle
    {
      forall r | 0 <= r < |records|
        ensures !records[r].handle
      {
        NoneLeft(world, r);
      }
    }

    /** Everything up to the point from where no callback can run any more. */
    method Disconnect(t: Tid, flushed: seq<Callback>, served: seq<Callback>, meanwhile: nat -> seq<Callback>, joining: seq<Callback>)
      requires Valid() && t in world.pc && world.pc[t] == Idle && world.writer.None? && world.readers == {}
      modifies `producer, `records, `queue, `world, `trace
      ensures Valid() && Extends(old(trace), trace)
      ensures world.pc == old(world.pc)[t := AllFreeing(0)] && world.readers == {}
      ensures producer.None? && |queue| == 0
      ensures DropsAtMost(old(world.k), world.k, Remaining(old(queue), flushed))
    {
      hide Inv, Reaches, HeapOf, Valid, Lives, Remaining, Heard, DropsAtMost, Extends;
      ReleaseAll(t, flushed, meanwhile);
      ghost var k, log := world.k, trace;
      if producer.Some? {
        ProducerDispose(t, served, joining);
        DropsFewer(old(world.k), k, world.k, k.queue, Remaining(old(queue), flushed));
        Chained(old(trace), log, trace);
      } else {
        DropsNothing(old(world.k), k, Remaining(old(queue), flushed));
      }
    }

    ghost method OpenAll(t: Tid)
      requires Valid() && t in world.pc && world.pc[t] == Idle && world.writer.None? && world.readers == {}
      modifies `world, `trace
      ensures Valid() && Extends(old(trace), trace)
      ensures world.k == old(world.k) && world.pc == old(world.pc)[t := Inside(Op.DismissAll)] && world.readers == {}
    {
      hide Inv, Reaches, HeapOf, Valid, Lives;
      Call(t, Op.DismissAll);
      Enter(t);
    }

    /** The flush, and then every handle. */
    method ReleaseAll(t: Tid, flushed: seq<Callback>, meanwhile: nat -> seq<Callback>)
      requires Valid() && t in world.pc && world.pc[t] == Idle && world.writer.None? && world.readers == {}
      modifies `records, `queue, `world, `trace
      ensures Valid() && Extends(old(trace), trace)
      ensures world.pc == old(world.pc)[t := if producer.Some? then AllStopping else AllFreeing(0)]
      ensures world.readers == {} && world.k.queue == queue && world.k.accounts == old(world.k.accounts)
      ensures queue <= Remaining(old(queue), flushed) && (producer.None? ==> |queue| == 0)
    {
      hide Inv, Reaches, HeapOf, Valid, Lives, Remaining, Heard, Extends;
      OpenAll(t);
      ghost var log := trace;
      Mirrors();
      Unqueued();
      FlushAll(t, flushed);
      Chained(old(trace), log, trace);
      log := trace;
      NothingRemains(old(queue), flushed);
      Mirrors();
      DisposeAll(t, meanwhile);
      Chained(old(trace), log, trace);
      Mirrors();
      Unqueued();
    }

    method FreeEverything(t: Tid)
      requires Valid() && t in world.pc && world.pc[t] == AllFreeing(0)
      modifies `heap, `world, `trace, topics, retired
      ensures Valid() && Extends(old(trace), trace) && fresh(topics.data) && fresh(retired.data)
      ensures world == old(world).(k := world.k, pc := old(world.pc)[t := Leave(Write, Returned(Status(0)))])
      ensures world.k.accounts == old(world.k.accounts) && world.k.records == old(world.k.records)
      ensures topics.Contents() == [] && retired.Contents() == [] && topics.data.Length == retired.data.Length == 0
      ensures Created(world.k) == At(world.k, Leaked) + At(world.k, Freed) && heap == At(world.k, Leaked)
    {
      hide Inv, Reaches, Created, At;
      FreeAllTopics(t);
      FreeAllRetired(t);
      LeakedHeap(world.k);
    }

    /** One flush covers every topic. */
    method FlushAll(t: Tid, flushed: seq<Callback>)
      requires Valid() && t in world.pc && world.pc[t] == Inside(Op.DismissAll)
      modifies `records, `queue, `world, `trace
      ensures Valid() && Extends(old(trace), trace)
      ensures world == old(world).(k := world.k, pc := old(world.pc)[t := AllDisposing(0)])
      ensures OnlyServed(old(world.k), world.k)
      ensures queue == if producer.Some? then Remaining(old(queue), flushed) else old(queue)
    {
      hide Inv, Reaches, Step, Used, Remaining, Heard;
      ghost var c := Choice(true, true, Queued);
      EntryStep(world.k, Op.DismissAll, c);
      Stepped(t, c);
      if producer.Some? {
        Serve(Session(t), flushed);
        TeardownStep(world.k, world.pc[t], c);
        Stepped(t, c);
      }
    }

    lemma Unqueued()
      requires Valid()
      ensures producer.None? ==> |queue| == 0
    {
    }

    /** Nothing but the messages of `q` has been dropped. */
    static ghost predicate DropsAtMost(k: Kafka, k': Kafka, q: multiset<Rid>) {
      && |k'.accounts| == |k.accounts|
      && forall r | 0 <= r < |k.accounts| ::
           k'.accounts[r].accepted == k.accounts[r].accepted && k'.accounts[r].dropped <= k.accounts[r].dropped + q[r]
    }

    static lemma DropsFewer(k0: Kafka, k: Kafka, k': Kafka, q: multiset<Rid>, more: multiset<Rid>)
      requires k.accounts == k0.accounts && DropsAtMost(k, k', q) && q <= more
      ensures DropsAtMost(k0, k', more)
    {
    }

    static lemma DropsNothing(k0: Kafka, k: Kafka, q: multiset<Rid>)
      requires k.accounts == k0.accounts
      ensures DropsAtMost(k0, k, q)
    {
    }

    static lemma NothingRemains(q: multiset<Rid>, cs: seq<Callback>)
      ensures |q| == 0 ==> Remaining(q, cs) == q
    {
    }

    static lemma LeakedHeap(k: Kafka)
      requires Created(k) == At(k, Leaked) + At(k, Freed)
      ensures HeapOf(k) == At(k, Leaked)
    {
      forall r | r in HeapOf(k)
        ensures r in At(k, Leaked)
      {
        assert r in Created(k);
      }
    }

    // -------------------------------------------------------------- sending

    /** kafka_table_exists */
    method Exists(t: Tid, topic: string, ghost len: nat) returns (res: bool)
      requires Valid() && t in world.pc && world.pc[t] == Wait(Op.Exists(topic, len)) && world.writer.None?
      modifies `world, `trace
      ensures Valid() && Extends(old(trace), trace) && world.writer.None? && world.readers == old(world.readers) - {t}
      ensures world.pc == old(world.pc)[t := Wait(if res then Op.Send(topic, len) else Op.Create(topic, len))] && world.k == old(world.k)
      ensures res <==> Has(world.k, topic)
      ensures res <==> exists r | r in topics.Contents() :: r < |records| && records[r].name == topic
    {
      hide Inv, Reaches, Step, Lookup, HeapOf, Valid;
      ghost var c := Choice(true, true, Queued);
      Enter(t);
      Mirrors();
      ReaderNoWriter(world, t);
      var i := FindLocked(topic);
      EntryStep(world.k, Op.Exists(topic, len), c);
      Passed(t, c);
      Exit(t);
      res := i < topics.count;
      FoundExactly(world.k, topic);
      Mirrors();
    }

    static lemma SendingStep(k: Kafka, p: Pc, c: Choice)
      requires p.Retrying? || p.Draining? || (p.Producing? && Ready(k, p, c))
      ensures Ready(k, p, c)
      ensures p.Producing? ==> Step(k, p, c) == StepProduce(k, p.rid, p.len, c.outcome)
      ensures p.Retrying? ==> Step(k, p, c) == (k, Producing(p.rid, p.len))
      ensures p.Draining? ==> Step(k, p, c) == (k, Leave(Read, Returned(SendResult(p.len))))
    {
      hide StepProduce, SendResult;
    }

    static lemma InUseAlive(s: State, t: Tid)
      requires Inv(s) && t in s.pc && InUse(s.pc[t]).Some?
      ensures var r := InUse(s.pc[t]).value; r < |s.k.records| && r in HeapOf(s.k) && Feedable(s.k, r)
    {
      ReaderHolding(s.pc[t]);
      hide Inv, HeapOf, Holds, InUse;
      ReadersTable(s, t);
      ReaderNoWriter(s, t);
      EntriesAlive(s);
      BorrowedAlive(s.k, InUse(s.pc[t]).value);
    }

    static lemma ReaderHolding(p: Pc)
      ensures InUse(p).Some? ==> Holds(p) == Read
    {
    }

    /** rd_kafka_produce: one message with the record's address, or none.  A full queue is reported as such. */
    method Produce(t: Tid, r: Rid, len: nat, answer: Outcome) returns (outcome: Outcome)
      requires Valid() && t in world.pc && world.pc[t] == Producing(r, len)
      modifies `queue, `world, `trace
      ensures Valid() && Extends(old(trace), trace) && r in heap
      ensures world == old(world).(k := world.k, pc := old(world.pc)[t :=
                if outcome == Queued then Draining(r, len) else if outcome == QueueFull then Retrying(r, len)
                else Leave(Read, Returned(Sent(-1)))])
      ensures outcome == Queued ==> queue == old(queue) + multiset{r} && Accepted(world.k, r) == Accepted(old(world.k), r) + 1
      ensures outcome != Queued ==> world.k == old(world.k) && queue == old(queue)
      ensures outcome == Refused <==> answer == Refused
      ensures outcome == QueueFull <==> answer != Refused && (old(|queue|) >= limit || (answer == QueueFull && old(|queue|) > 0))
      ensures outcome == QueueFull ==> |queue| > 0
      ensures world.k.topics == old(world.k.topics)
    {
      hide Inv, Reaches, Step;
      InUseAlive(world, t);
      LimitPositive(world);
      outcome := if answer == Refused then Refused
                 else if |queue| >= limit || (answer == QueueFull && |queue| > 0) then QueueFull
                 else Queued;
      ghost var c := Choice(true, true, outcome);
      SendingStep(world.k, world.pc[t], c);
      var tt := Load(r);
      if outcome == Queued {
        Enqueue(r, tt);
      }
      Stepped(t, c);
    }

    static lemma LimitPositive(s: State)
      requires Inv(s)
      ensures s.k.limit > 0
    {
    }

    /** Polling in front of a full queue serves at least one report, sooner or later. */
    method PollProgress(t: Tid)
      requires Valid() && t in world.pc && world.pc[t].Retrying? && |queue| > 0
      modifies `records, `queue, `world, `trace
      ensures Valid() && Extends(old(trace), trace)
      ensures world == old(world).(k := world.k) && OnlyServed(old(world.k), world.k)
      ensures |queue| < old(|queue|)
    {
      hide Inv, Reaches;
      var r :| r in queue;
      ServeOne(Session(t), Callback(r, NO_ERROR, 0));
    }

    /** The reports of these rounds' polls. */
    static function Polled(attempts: seq<Attempt>): seq<Callback> {
      if attempts == [] then [] else Polled(attempts[..|attempts| - 1]) + attempts[|attempts| - 1].polled
    }

    static lemma NextPolled(attempts: seq<Attempt>, i: nat)
      requires i < |attempts|
      ensures Polled(attempts[..i + 1]) == Polled(attempts[..i]) + attempts[i].polled
    {
      assert attempts[..i + 1][..i] == attempts[..i];
    }

    /** What librdkafka answers in a round: a refusal where it refuses, queue-full where the queue is full or
        librdkafka says so of one that is not empty, and otherwise the message is taken. */
    static ghost predicate Answers(outcome: Outcome, i: nat, attempts: seq<Attempt>, q: multiset<Rid>, limit: nat) {
      && (outcome.Refused? <==> i < |attempts| && attempts[i].answer.Refused?)
      && (i <= |attempts| ==>
            var left := Remaining(q, Polled(attempts[..i]));
            outcome.QueueFull? <==>
              !outcome.Refused? && (|left| >= limit || (i < |attempts| && attempts[i].answer.QueueFull? && |left| > 0)))
    }

    /** The rounds of the loop: queue-full but for the last, which was taken or refused. */
    static ghost predicate InRounds(rounds: seq<Outcome>, attempts: seq<Attempt>, q: multiset<Rid>, limit: nat, ok: bool) {
      && rounds != [] && rounds[|rounds| - 1] == (if ok then Queued else Refused)
      && (forall i | 0 <= i < |rounds| - 1 :: rounds[i].QueueFull?)
      && (forall i | 0 <= i < |rounds| :: Answers(rounds[i], i, attempts, q, limit))
    }

    /** What the polls of the rounds, and the message if it was taken, leave behind. */
    static ghost predicate LeavesBehind(n: nat, attempts: seq<Attempt>, r: Rid, ok: bool, q: multiset<Rid>, records: seq<Topic>,
                                        q': multiset<Rid>, records': seq<Topic>) {
      n < |attempts| ==>
        var left := Remaining(q, Polled(attempts[..n]));
        var heard := HeardBy(records, q, Polled(attempts[..n]));
        if ok then
          && q' == Remaining(left + multiset{r}, attempts[n].polled)
          && records' == HeardBy(heard, left + multiset{r}, attempts[n].polled)
        else q' == left && records' == heard
    }

    /** tek_kafka_topic_feed_key: retry while the queue is full.  `attempts` is what happens in the first
        rounds; after them librdkafka refuses nothing and every poll serves a report. */
    method FeedKey(t: Tid, r: Rid, len: nat, attempts: seq<Attempt>) returns (ok: bool, ghost rounds: seq<Outcome>)
      requires Valid() && t in world.pc && world.pc[t] == Producing(r, len)
      modifies `records, `queue, `world, `trace
      ensures Valid() && Extends(old(trace), trace)
      ensures world == old(world).(k := world.k, pc := old(world.pc)[t := Leave(Read, Returned(if ok then SendResult(len) else Sent(-1)))])
      ensures Accepted(world.k, r) == Accepted(old(world.k), r) + if ok then 1 else 0
      ensures rounds != [] && rounds[|rounds| - 1] == (if ok then Queued else Refused)
      ensures forall i | 0 <= i < |rounds| - 1 :: rounds[i].QueueFull?
      ensures forall i | 0 <= i < |rounds| :: rounds[i].Refused? <==> i < |attempts| && attempts[i].answer.Refused?
      ensures InRounds(rounds, attempts, old(queue), limit, ok)
      ensures LeavesBehind(|rounds| - 1, attempts, r, ok, old(queue), old(records), queue, records)
    {
      hide Inv, Reaches, Step, HeapOf, SendResult, Valid, Answers, LeavesBehind, PolledSoFar, Accepted, Remaining, Polled, HeardBy;
      var i := 0;
      rounds := [];
      StartRounds(queue, records, attempts);
      while true
        invariant Valid() && Extends(old(trace), trace) && i <= |attempts| && (i < |attempts| ==> |rounds| == i) && |rounds| >= i
        invariant world == old(world).(k := world.k, pc := old(world.pc)[t := Producing(r, len)])
        invariant Accepted(world.k, r) == Accepted(old(world.k), r)
        invariant forall j | 0 <= j < |rounds| :: rounds[j].QueueFull? && Answers(rounds[j], j, attempts, old(queue), limit)
        invariant PolledSoFar(|rounds|, attempts, old(queue), old(records), queue, records)
        decreases |attempts| - i, |queue|
      {
        var outcome := FeedRound(t, r, len, attempts, i, |rounds|, old(queue), old(records));
        rounds := rounds + [outcome];
        if outcome != QueueFull {
          RefusedWhere(rounds, attempts, old(queue), limit);
          return outcome == Queued, rounds;
        }
        i := if i < |attempts| then i + 1 else i;
      }
    }

    /** After `n` rounds that were queue-full. */
    static ghost predicate PolledSoFar(n: nat, attempts: seq<Attempt>, q: multiset<Rid>, records: seq<Topic>, q': multiset<Rid>, records': seq<Topic>) {
      n <= |attempts| ==>
        q' == Remaining(q, Polled(attempts[..n])) && records' == HeardBy(records, q, Polled(attempts[..n]))
    }

    /** One round of the loop: the produce call and the poll after it. */
    method FeedRound(t: Tid, r: Rid, len: nat, attempts: seq<Attempt>, i: nat, ghost n: nat, ghost q: multiset<Rid>, ghost was: seq<Topic>)
      returns (outcome: Outcome)
      requires Valid() && t in world.pc && world.pc[t] == Producing(r, len)
      requires i <= |attempts| && i <= n && (i < |attempts| ==> n == i) && PolledSoFar(n, attempts, q, was, queue, records)
      modifies `records, `queue, `world, `trace
      ensures Valid() && Extends(old(trace), trace)
      ensures world == old(world).(k := world.k, pc := old(world.pc)[t :=
                if outcome == QueueFull then Producing(r, len)
                else Leave(Read, Returned(if outcome == Queued then SendResult(len) else Sent(-1)))])
      ensures Accepted(world.k, r) == Accepted(old(world.k), r) + if outcome == Queued then 1 else 0
      ensures Answers(outcome, n, attempts, q, limit)
      ensures outcome == QueueFull ==> PolledSoFar(n + 1, attempts, q, was, queue, records)
      ensures outcome == QueueFull && i == |attempts| ==> |queue| < old(|queue|)
      ensures outcome != QueueFull ==> LeavesBehind(n, attempts, r, outcome == Queued, q, was, queue, records)
    {
      hide Inv, Reaches, Step, HeapOf, SendResult, Valid, Remaining, HeardBy, Polled, OnlyServed, Accepted, Extends;
      hide PolledSoFar, LeavesBehind, Answers;
      var a := if i < |attempts| then attempts[i] else Attempt(Queued, []);
      outcome := Produce(t, r, len, a.answer);
      ghost var k, log := world.k, trace;
      RoundAnswered(outcome, i, n, attempts, a.answer, old(queue), limit, q, was, records);
      RoundLeft(n, attempts, r, q, was, old(queue), records);
      if outcome == Queued {
        Drain(t, r, len, a.polled);
        ServedCounts(k, world.k, r);
        Chained(old(trace), log, trace);
      } else if outcome == QueueFull {
        Retry(t, r, len, i < |attempts|, a.polled);
        ServedCounts(k, world.k, r);
        Chained(old(trace), log, trace);
      }
      if n >= |attempts| {
        RoundsOver(n, attempts, r, outcome == Queued, q, was, queue, records);
      }
    }

    static lemma RoundAnswered(outcome: Outcome, i: nat, n: nat, attempts: seq<Attempt>, answer: Outcome, now: multiset<Rid>, limit: nat,
                               q: multiset<Rid>, was: seq<Topic>, records: seq<Topic>)
      requires i <= |attempts| && i <= n && (i < |attempts| ==> n == i) && PolledSoFar(n, attempts, q, was, now, records)
      requires answer == if i < |attempts| then attempts[i].answer else Queued
      requires outcome == Refused <==> answer == Refused
      requires outcome == QueueFull <==> answer != Refused && (|now| >= limit || (answer == QueueFull && |now| > 0))
      ensures Answers(outcome, n, attempts, q, limit)
    {
      hide Remaining, HeardBy, Polled;
    }

    /** What a round leaves behind, in terms of what it found. */
    static lemma RoundLeft(n: nat, attempts: seq<Attempt>, r: Rid, q: multiset<Rid>, was: seq<Topic>, now: multiset<Rid>, records: seq<Topic>)
      requires PolledSoFar(n, attempts, q, was, now, records)
      ensures n < |attempts| ==>
                var polled := attempts[n].polled;
                && LeavesBehind(n, attempts, r, true, q, was, Remaining(now + multiset{r}, polled), HeardBy(records, now + multiset{r}, polled))
                && LeavesBehind(n, attempts, r, false, q, was, now, records)
                && PolledSoFar(n + 1, attempts, q, was, Remaining(now, polled), HeardBy(records, now, polled))
    {
      hide Remaining, HeardBy, Polled;
      NextRound(q, was, attempts, n);
    }

    /** Beyond the rounds that are given, nothing is said. */
    static lemma RoundsOver(n: nat, attempts: seq<Attempt>, r: Rid, ok: bool, q: multiset<Rid>, was: seq<Topic>, q': multiset<Rid>, records': seq<Topic>)
      requires n >= |attempts|
      ensures LeavesBehind(n, attempts, r, ok, q, was, q', records') && PolledSoFar(n + 1, attempts, q, was, q', records')
    {
    }

    static lemma StartRounds(q: multiset<Rid>, records: seq<Topic>, attempts: seq<Attempt>)
      ensures PolledSoFar(0, attempts, q, records, q, records)
    {
      assert attempts[..0] == [];
      NoneServed(q, records);
    }

    static lemma NextRound(q: multiset<Rid>, records: seq<Topic>, attempts: seq<Attempt>, i: nat)
      ensures i < |attempts| ==>
                var left := Remaining(q, Polled(attempts[..i]));
                && Remaining(left, attempts[i].polled) == Remaining(q, Polled(attempts[..i + 1]))
                && HeardBy(HeardBy(records, q, Polled(attempts[..i])), left, attempts[i].polled)
                   == HeardBy(records, q, Polled(attempts[..i + 1]))
    {
      if i < |attempts| {
        NextPolled(attempts, i);
        HeardConcat(records, q, Polled(attempts[..i]), attempts[i].polled);
      }
    }

    static lemma HeardConcat(records: seq<Topic>, q: multiset<Rid>, cs: seq<Callback>, more: seq<Callback>)
      ensures Remaining(Remaining(q, cs), more) == Remaining(q, cs + more)
      ensures HeardBy(HeardBy(records, q, cs), Remaining(q, cs), more) == HeardBy(records, q, cs + more)
    {
      hide Remaining, Heard;
      RemainingConcat(q, cs, more, 0);
      forall r | 0 <= r < |records|
        ensures HeardBy(HeardBy(records, q, cs), Remaining(q, cs), more)[r] == HeardBy(records, q, cs + more)[r]
      {
        RemainingConcat(q, cs, more, r);
        var h := records[r].history;
        assert (h + Heard(q, cs, r)) + Heard(Remaining(q, cs), more, r) == h + (Heard(q, cs, r) + Heard(Remaining(q, cs), more, r));
      }
    }

    method Drain(t: Tid, r: Rid, len: nat, polled: seq<Callback>)
      requires Valid() && t in world.pc && world.pc[t] == Draining(r, len)
      modifies `records, `queue, `world, `trace
      ensures Valid() && Extends(old(trace), trace)
      ensures world == old(world).(k := world.k, pc := old(world.pc)[t := Leave(Read, Returned(SendResult(len)))])
      ensures OnlyServed(old(world.k), world.k)
      ensures queue == Remaining(old(queue), polled) && records == HeardBy(old(records), old(queue), polled)
    {
      hide Inv, Reaches, Step, HeapOf, SendResult, Valid, Remaining;
      ghost var c := Choice(true, true, Queued);
      Serve(Session(t), polled);
      SendingStep(world.k, world.pc[t], c);
      Passed(t, c);
    }

    method Retry(t: Tid, r: Rid, len: nat, early: bool, polled: seq<Callback>)
      requires Valid() && t in world.pc && world.pc[t] == Retrying(r, len) && |queue| > 0
      modifies `records, `queue, `world, `trace
      ensures Valid() && Extends(old(trace), trace)
      ensures world == old(world).(k := world.k, pc := old(world.pc)[t := Producing(r, len)])
      ensures OnlyServed(old(world.k), world.k)
      ensures early ==> queue == Remaining(old(queue), polled) && records == HeardBy(old(records), old(queue), polled)
      ensures !early ==> |queue| < old(|queue|)
    {
      hide Inv, Reaches, Step, HeapOf, Valid, Remaining;
      ghost var c := Choice(true, true, Queued);
      if early {
        Serve(Session(t), polled);
      } else {
        PollProgress(t);
      }
      SendingStep(world.k, world.pc[t], c);
      Passed(t, c);
    }

    /** kafka_table_send: the number of bytes, or -1.  `rounds` is what librdkafka answered in each round of
        the produce loop, if it came to that. */
    method Send(t: Tid, topic: string, len: nat, attempts: seq<Attempt>) returns (res: int, ghost rounds: seq<Outcome>)
      requires Valid() && t in world.pc && world.pc[t] == Wait(Op.Send(topic, len)) && world.writer.None?
      modifies `records, `queue, `world, `trace
      ensures Valid() && Extends(old(trace), trace) && world.writer.None? && world.readers == old(world.readers) - {t}
      ensures world.pc == old(world.pc)[t := Returned(Sent(res))]
      ensures rounds != [] <==> old(Has(world.k, topic))
      ensures rounds == [] ==> res == -1 && world.k == old(world.k)
      ensures forall i | 0 <= i < |rounds| - 1 :: rounds[i].QueueFull?
      ensures forall i | 0 <= i < |rounds| :: rounds[i].Refused? <==> i < |attempts| && attempts[i].answer.Refused?
      ensures forall i | 0 <= i < |rounds| && i <= |attempts| ::
                var left := Remaining(old(queue), Polled(attempts[..i]));
                rounds[i].QueueFull? <==>
                  !rounds[i].Refused? && (|left| >= limit || (i < |attempts| && attempts[i].answer.QueueFull? && |left| > 0))
      ensures rounds != [] ==>
                var last := rounds[|rounds| - 1];
                && (last.Queued? || last.Refused?)
                && res == (if last.Queued? && ToInt32(len) >= 0 then ToInt32(len) else -1)
                && var r := old(world.k.topics[Lookup(world.k, topic)]);
                && Accepted(world.k, r) == Accepted(old(world.k), r) + (if last.Queued? then 1 else 0)
                && (|rounds| <= |attempts| ==>
                      var n := |rounds| - 1;
                      var before := Polled(attempts[..n]);
                      var sent := Remaining(old(queue), before) + multiset{r};
                      && queue == (if last.Queued? then Remaining(sent, attempts[n].polled) else Remaining(old(queue), before))
                      && |records| == |old(records)|
                      && forall x | 0 <= x < |records| ::
                           records[x].history == old(records[x].history) + Heard(old(queue), before, x)
                                                 + if last.Queued? then Heard(sent, attempts[n].polled, x) else [])
    {
      hide Inv, Reaches, Step, Lookup, HeapOf, Accepted, Valid, Has, Answers, LeavesBehind, Remaining, Polled, Heard, Extends;
      ghost var c := Choice(true, true, Queued);
      Enter(t);
      Mirrors();
      ReaderNoWriter(world, t);
      var i := FindLocked(topic);
      HasIndex(world.k, topic);
      ghost var log := trace;
      if i == topics.count {
        EntryStep(world.k, Op.Send(topic, len), c);
        NotSending(world.k, topic, len);
        Passed(t, c);
        res, rounds := -1, [];
      } else {
        assert topics.data[i] == world.k.topics[i];
        res, rounds := Feed(t, topic, topics.data[i], len, attempts);
        RoundsSay(rounds, attempts, old(queue), limit);
        LeftSays(|rounds| - 1, attempts, topics.data[i], rounds[|rounds| - 1].Queued?, old(queue), old(records), queue, records);
      }
      Chained(old(trace), log, trace);
      log := trace;
      Exit(t);
      Chained(old(trace), log, trace);
    }

    static lemma HasIndex(k: Kafka, name: string)
      ensures Has(k, name) <==> Lookup(k, name) < |k.topics|
    {
    }

    static lemma NotSending(k: Kafka, topic: string, len: nat)
      requires !Has(k, topic)
      ensures StepSend(k, topic, len) == (k, Leave(Read, Returned(Sent(-1))))
    {
    }

    static lemma LeftSays(n: nat, attempts: seq<Attempt>, r: Rid, ok: bool, q: multiset<Rid>, records: seq<Topic>, q': multiset<Rid>, records': seq<Topic>)
      requires LeavesBehind(n, attempts, r, ok, q, records, q', records')
      ensures n < |attempts| ==>
                var before := Polled(attempts[..n]);
                var sent := Remaining(q, before) + multiset{r};
                && q' == (if ok then Remaining(sent, attempts[n].polled) else Remaining(q, before))
                && |records'| == |records|
                && forall x | 0 <= x < |records'| ::
                     records'[x].history == records[x].history + Heard(q, before, x) + if ok then Heard(sent, attempts[n].polled, x) else []
    {
      hide Remaining, Polled, Heard;
    }

    static lemma RefusedWhere(rounds: seq<Outcome>, attempts: seq<Attempt>, q: multiset<Rid>, limit: nat)
      requires forall i | 0 <= i < |rounds| :: Answers(rounds[i], i, attempts, q, limit)
      ensures forall i | 0 <= i < |rounds| :: rounds[i].Refused? <==> i < |attempts| && attempts[i].answer.Refused?
    {
      hide Remaining, Polled;
    }

    static lemma RoundsSay(rounds: seq<Outcome>, attempts: seq<Attempt>, q: multiset<Rid>, limit: nat)
      requires forall i | 0 <= i < |rounds| :: Answers(rounds[i], i, attempts, q, limit)
      ensures forall i | 0 <= i < |rounds| :: rounds[i].Refused? <==> i < |attempts| && attempts[i].answer.Refused?
      ensures forall i | 0 <= i < |rounds| && i <= |attempts| ::
                var left := Remaining(q, Polled(attempts[..i]));
                rounds[i].QueueFull? <==>
                  !rounds[i].Refused? && (|left| >= limit || (i < |attempts| && attempts[i].answer.QueueFull? && |left| > 0))
    {
      hide Remaining, Polled;
    }

    /** tek_kafka_topic_feed, with its guard, and the result its caller makes of it. */
    method Feed(t: Tid, ghost topic: string, tt: Rid, len: nat, attempts: seq<Attempt>) returns (res: int, ghost rounds: seq<Outcome>)
      requires Valid() && t in world.pc && world.pc[t] == Inside(Op.Send(topic, len))
      requires Has(world.k, topic) && tt == world.k.topics[Lookup(world.k, topic)]
      modifies `records, `queue, `world, `trace
      ensures Valid() && Extends(old(trace), trace)
      ensures world == old(world).(k := world.k, pc := old(world.pc)[t := Leave(Read, Returned(Sent(res)))])
      ensures rounds != [] && InRounds(rounds, attempts, old(queue), limit, rounds[|rounds| - 1].Queued?)
      ensures var ok := rounds[|rounds| - 1].Queued?;
              && res == (if ok && ToInt32(len) >= 0 then ToInt32(len) else -1)
              && Accepted(world.k, tt) == Accepted(old(world.k), tt) + (if ok then 1 else 0)
              && LeavesBehind(|rounds| - 1, attempts, tt, ok, old(queue), old(records), queue, records)
    {
      hide Inv, Reaches, Step, Lookup, HeapOf, Accepted, Valid, ToInt32, Answers, LeavesBehind;
      ghost var c := Choice(true, true, Queued);
      Mirrors();
      EntryStep(world.k, Op.Send(topic, len), c);
      ReaderNoWriter(world, t);
      EntriesAlive(world);
      assert tt in world.k.topics;
      if !Load(tt).handle || producer.None? || !producer.value.rk {
        Passed(t, c);
        FoundFeedable(old(world), t, Lookup(old(world.k), topic));
        return -1, [];
      }
      FoundFeedable(world, t, Lookup(world.k, topic));
      Passed(t, c);
      var ok;
      ok, rounds := FeedKey(t, tt, len, attempts);
      res := if ok && ToInt32(len) >= 0 then ToInt32(len) else -1;
    }

    static lemma FoundFeedable(s: State, t: Tid, i: nat)
      requires Inv(s) && t in s.pc && Holds(s.pc[t]) == Read && i < |s.k.topics|
      ensures Feedable(s.k, s.k.topics[i])
    {
      ReaderNoWriter(s, t);
    }

    // -------------------------------------------------------------- statistics

    static lemma StatsStepIs(k: Kafka, p: Pc, c: Choice)
      requires p.StatsFlushing? || p.StatsFirst? || p.StatsSecond?
      requires p.StatsFlushing? ==> Borrows(k, p.rid)
      requires p.rid < |k.records|
      ensures Ready(k, p, c)
      ensures p.StatsFlushing? ==> Step(k, p, c) == (k, StatsFirst(p.rid, p.base, |k.queue| == 0))
      ensures p.StatsFirst? ==> Step(k, p, c) == (k, StatsSecond(p.rid, p.base, p.drained, CountersOf(k, p.rid).transferred))
      ensures p.StatsSecond? ==> Step(k, p, c) == (k, Leave(Read, Returned(Counts(p.loaded, CountersOf(k, p.rid).failed))))
    {
      hide CountersOf;
    }

    /** kafka_topic_get_stats: flush, then two separate loads.  A topic that is not there counts nothing;
        otherwise the first number is the successes reported by the end of the flush, the second the failures
        reported by the second load; they add up to at most the messages accepted, and to exactly those when
        the flush left nothing in the queue. */
    method GetStats(t: Tid, topic: string, flushed: seq<Callback>, between: seq<Callback>)
      returns (transferred: nat, failed: nat, remaining: nat)
      requires Valid() && t in world.pc && world.pc[t] == Wait(Op.Stats(topic)) && world.writer.None?
      modifies `records, `queue, `world, `trace
      ensures Valid() && Extends(old(trace), trace) && world.writer.None? && world.readers == old(world.readers) - {t}
      ensures world.pc == old(world.pc)[t := Returned(Counts(transferred, failed))]
      ensures !old(Has(world.k, topic)) ==> transferred == failed == 0
      ensures old(Has(world.k, topic)) ==>
                var r := old(world.k.topics[Lookup(world.k, topic)]);
                && SumsUp(world.k, r, transferred, failed, remaining == 0)
                && remaining == |Remaining(old(queue), flushed)|
                && r < |old(records)|
                && var reported := old(records)[r].history + Heard(old(queue), flushed, r);
                && transferred == Successes(reported) % 0x1_0000_0000
                && failed == Failures(reported + Heard(Remaining(old(queue), flushed), between, r)) % 0x1_0000_0000
    {
      hide Inv, Reaches, Step, Lookup, HeapOf, CountersOf, Accepted, Valid, SumsUp, StepStats, Has, Remaining, Heard, Successes, Failures;
      ghost var c := Choice(true, true, Queued);
      Enter(t);
      Mirrors();
      ReaderNoWriter(world, t);
      var i := FindLocked(topic);
      EntryStep(world.k, Op.Stats(topic), c);
      StatsOf(world.k, i, topic);
      if i == topics.count {
        transferred, failed, remaining := 0, 0, 0;
        Passed(t, c);
      } else {
        var tt := topics.data[i];
        assert tt == world.k.topics[i];
        Passed(t, c);
        transferred, failed, remaining := LoadCounters(t, tt, flushed, between);
      }
      Exit(t);
    }

    static lemma StatsOf(k: Kafka, i: nat, topic: string)
      requires i == Lookup(k, topic)
      ensures Has(k, topic) <==> i < |k.topics|
      ensures StepStats(k, topic) == (k, if i < |k.topics| then StatsFlushing(k.topics[i], Accepted(k, k.topics[i]))
                                         else Leave(Read, Returned(Counts(0, 0))))
    {
    }

    static ghost predicate SumsUp(k: Kafka, r: Rid, transferred: nat, failed: nat, drained: bool) {
      Delivered(k, r) < U32_LIMIT && Undelivered(k, r) < U32_LIMIT ==>
        && failed == Undelivered(k, r)
        && transferred + failed <= Accepted(k, r)
        && (drained ==> transferred + failed == Accepted(k, r))
    }

    method LoadCounters(t: Tid, tt: Rid, flushed: seq<Callback>, between: seq<Callback>)
      returns (transferred: nat, failed: nat, remaining: nat)
      requires Valid() && t in world.pc && world.pc[t] == StatsFlushing(tt, Accepted(world.k, tt))
      modifies `records, `queue, `world, `trace
      ensures Valid() && Extends(old(trace), trace)
      ensures world == old(world).(k := world.k, pc := old(world.pc)[t := Leave(Read, Returned(Counts(transferred, failed)))])
      ensures SumsUp(world.k, tt, transferred, failed, remaining == 0)
      ensures remaining == |Remaining(old(queue), flushed)| && tt < |old(records)|
      ensures var reported := old(records)[tt].history + Heard(old(queue), flushed, tt);
              && transferred == Successes(reported) % 0x1_0000_0000
              && failed == Failures(reported + Heard(Remaining(old(queue), flushed), between, tt)) % 0x1_0000_0000
    {
      hide Inv, Reaches, Step, HeapOf, Replay, Valid, Lives, Accepted, Counting, CountersOf, Remaining, Heard, Successes, Failures, Extends;
      Mirrors();
      InUseAlive(world, t);
      ghost var c := Choice(true, true, Queued);
      ghost var before := Accepted(world.k, tt);
      Serve(Session(t), flushed);
      ServedCounts(old(world.k), world.k, tt);
      ghost var log := trace;
      remaining := |queue|;
      transferred := LoadFirst(t, tt, before);
      Chained(old(trace), log, trace);
      log := trace;
      ghost var k := world.k;
      Mirrors();
      ReaderPolls(world, t);
      Pause(between);
      Chained(old(trace), log, trace);
      log := trace;
      ServedCounts(k, world.k, tt);
      CountingGrows(k, world.k, world.pc[t], tt, before);
      failed := LoadSecond(t, tt, before);
      Chained(old(trace), log, trace);
    }

    /** While a record is in use, the poll thread is there. */
    static lemma ReaderPolls(s: State, t: Tid)
      requires Inv(s) && t in s.pc && InUse(s.pc[t]).Some?
      ensures s.k.producer.Some? && s.k.producer.value.poller.Polling?
    {
      ReaderHolding(s.pc[t]);
      ReadersTable(s, t);
      hide Holds;
      BorrowedAlive(s.k, InUse(s.pc[t]).value);
      hide PlaceInv, MessageInv, NameInv, HandleInv, LockInv, ReaderInv;
    }

    /** The flush has returned: the first load. */
    method LoadFirst(t: Tid, tt: Rid, ghost before: nat) returns (transferred: nat)
      requires Valid() && t in world.pc && world.pc[t] == StatsFlushing(tt, before) && before <= Accepted(world.k, tt)
      modifies `world, `trace
      ensures Valid() && Extends(old(trace), trace)
      ensures world == old(world).(pc := old(world.pc)[t := StatsSecond(tt, before, |queue| == 0, transferred)])
      ensures Counting(world.k, world.pc[t], tt, before)
      ensures tt < |records| && transferred == Successes(records[tt].history) % 0x1_0000_0000
    {
      hide Inv, Reaches, Step, HeapOf, Replay, Valid, Lives, TableInv, Successes, Failures;
      ghost var c := Choice(true, true, Queued);
      Mirrors();
      InUseAlive(world, t);
      CountingHolds(world, t, tt, before);
      StatsStepIs(world.k, world.pc[t], c);
      StatsStep(world.k, world.pc[t], c, tt, before);
      Passed(t, c);
      StatsStepIs(world.k, world.pc[t], c);
      StatsStep(world.k, world.pc[t], c, tt, before);
      assert CountersOf(world.k, tt) == Replay(records[tt].history);
      CountersCount(records[tt].history);
      transferred := Replay(Load(tt).history).transferred;
      Passed(t, c);
    }

    method LoadSecond(t: Tid, tt: Rid, ghost before: nat) returns (failed: nat)
      requires Valid() && t in world.pc && world.pc[t].StatsSecond? && world.pc[t].rid == tt && Counting(world.k, world.pc[t], tt, before)
      modifies `world, `trace
      ensures Valid() && Extends(old(trace), trace)
      ensures world == old(world).(pc := old(world.pc)[t := Leave(Read, Returned(Counts(old(world.pc[t].loaded), failed)))])
      ensures Delivered(world.k, tt) < U32_LIMIT && Undelivered(world.k, tt) < U32_LIMIT ==>
                var sum := old(world.pc[t].loaded) + failed;
                sum <= Accepted(world.k, tt) && (old(world.pc[t].drained) ==> before <= sum) && failed == Undelivered(world.k, tt)
      ensures tt < |records| && failed == Failures(records[tt].history) % 0x1_0000_0000
    {
      hide Inv, Reaches, Step, HeapOf, Replay, Valid, Lives, TableInv, Counting;
      ghost var c := Choice(true, true, Queued);
      Mirrors();
      CountingHolds(world, t, tt, before);
      InUseAlive(world, t);
      StatsStepIs(world.k, world.pc[t], c);
      SecondLoad(world.k, world.pc[t], c, tt, before);
      assert CountersOf(world.k, tt) == Replay(records[tt].history);
      CountersCount(records[tt].history);
      failed := Replay(Load(tt).history).failed;
      Passed(t, c);
    }
  }
}
