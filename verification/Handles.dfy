/** librdkafka's topic handles: each is released exactly once, before its record is freed, parked or leaked,
    and before the producer is destroyed. */
module Handles {
  import opened Delivery
  import opened GrowArray
  import opened Protocol
  import opened Invariant
  import opened Safety

  /** How often a record has been disposed. */
  function Disposals(history: seq<Event>): nat {
    if history == [] then 0
    else Disposals(history[..|history| - 1]) + if history[|history| - 1].Disposed? then 1 else 0
  }

  lemma DisposalsExtend(history: seq<Event>, e: Event)
    ensures Disposals(history + [e]) == Disposals(history) + if e.Disposed? then 1 else 0
  {
    assert (history + [e])[..|history|] == history;
  }

  /** One record: it has its handle until it is disposed, which happens once, and before it is settled. */
  predicate Once(tt: Topic, place: Place) {
    && Disposals(tt.history) == (if tt.handle then 0 else 1)
    && (place in {Parked, Leaked, Freed} ==> !tt.handle)
  }

  ghost predicate HandlesInv(k: Kafka, w: Pc) {
    && (forall r | 0 <= r < |k.records| :: Once(k.records[r], k.places[r]))
    && (w.Disposing? ==> w.rid < |k.records| && k.records[w.rid].handle)
    && (w.Deciding? || w.Freeing? ==> w.rid < |k.records| && !k.records[w.rid].handle)
  }

  /** The registered records a writer is about to dispose, take out or free. */
  lemma EntryHandles(k: Kafka, w: Pc)
    requires TableInv(k, w)
    ensures w.Taking? ==> w.idx < |k.topics| && k.topics[w.idx] < |k.records| && k.records[k.topics[w.idx]].handle
    ensures w.AllDisposing? && w.i < |k.topics| ==> k.topics[w.i] < |k.records| && k.records[k.topics[w.i]].handle
    ensures w.AllFreeing? && w.i < |k.topics| ==> k.topics[w.i] < |k.records| && !k.records[k.topics[w.i]].handle
    ensures w.AllStopping? || w.AllJoining? || w.AllDestroying? ==>
              forall i | 0 <= i < |k.topics| :: k.topics[i] < |k.records| && !k.records[k.topics[i]].handle
  {
    hide MessageInv, NameInv;
  }

  /** Moving one record. */
  lemma MovedHandles(k: Kafka, w: Pc, w': Pc, r: Rid, place: Place)
    requires HandlesInv(k, w) && r < |k.records| && (place in {Parked, Leaked, Freed} ==> !k.records[r].handle)
    requires w'.Disposing? ==> w'.rid < |k.records| && k.records[w'.rid].handle
    requires w'.Deciding? || w'.Freeing? ==> w'.rid < |k.records| && !k.records[w'.rid].handle
    ensures HandlesInv(Move(k, r, place), w')
  {
    hide Disposals;
  }

  lemma SameHandles(k: Kafka, w: Pc, k': Kafka, w': Pc)
    requires HandlesInv(k, w) && k'.records == k.records && k'.places == k.places
    requires w' == w || (!w'.Disposing? && !w'.Deciding? && !w'.Freeing?)
             || (w.Deciding? && w'.Freeing? && w'.rid == w.rid)
    ensures HandlesInv(k', w')
  {
  }

  lemma HandHandles(k: Kafka, w: Pc, c: Choice)
    requires TableInv(k, w) && HandlesInv(k, w) && (w.Taking? || w.Deciding? || w.Freeing?) && Ready(k, w, c)
    ensures HandlesInv(Step(k, w, c).0, Step(k, w, c).1)
  {
    EntryHandles(k, w);
    StepCases(k, w, c);
    var (k', w') := Step(k, w, c);
    hide TableInv, Step, Busy, SwapRemove, HandlesInv, Move;
    HandReleased(k, w);
    if w.Taking? {
      MovedHandles(k, w, w', k.topics[w.idx], Held);
      SameHandles(Move(k, k.topics[w.idx], Held), w', k', w');
    } else if w.Freeing? {
      MovedHandles(k, w, w', w.rid, Freed);
    } else if !Busy(k) {
      SameHandles(k, w, k', w');
    } else {
      MovedHandles(k, w, w', w.rid, if c.granted then Parked else Leaked);
      SameHandles(Move(k, w.rid, if c.granted then Parked else Leaked), w', k', w');
    }
  }

  lemma HandReleased(k: Kafka, w: Pc)
    requires HandlesInv(k, w)
    ensures w.Deciding? || w.Freeing? ==> w.rid < |k.records| && !k.records[w.rid].handle
  {
  }

  lemma LoopHandles(k: Kafka, w: Pc, c: Choice)
    requires TableInv(k, w) && HandlesInv(k, w) && (w.ReapFree? || w.AllFreeing? || w.AllReaping?) && Ready(k, w, c)
    ensures HandlesInv(Step(k, w, c).0, Step(k, w, c).1)
  {
    EntryHandles(k, w);
    RetiredReleased(k, w);
    StepCases(k, w, c);
    var (k', w') := Step(k, w, c);
    hide TableInv, Step, HandlesInv, Move;
    var a := if w.AllFreeing? then k.topics else k.retired;
    if w.i < |a| {
      MovedHandles(k, w, w', a[w.i], Freed);
    } else {
      SameHandles(k, w, k', w');
    }
  }

  lemma RetiredReleased(k: Kafka, w: Pc)
    requires TableInv(k, w) && HandlesInv(k, w)
    ensures (w.ReapFree? || w.AllReaping?) && w.i < |k.retired| ==> k.retired[w.i] < |k.records| && !k.records[k.retired[w.i]].handle
  {
    HandFacts(k, w);
    hide TableInv;
  }

  /** Releasing a handle. */
  lemma DisposerHandles(k: Kafka, w: Pc, c: Choice)
    requires TableInv(k, w) && HandlesInv(k, w) && (w.Disposing? || w.AllDisposing?) && Ready(k, w, c)
    ensures HandlesInv(Step(k, w, c).0, Step(k, w, c).1)
  {
    EntryHandles(k, w);
    StepCases(k, w, c);
    HandHeld(k, w);
    var (k', w') := Step(k, w, c);
    hide TableInv, Step, HandlesInv, Dispose;
    if w.Disposing? {
      Released(k, w, w.rid, w');
    } else if w.i < |k.topics| {
      Released(k, w, k.topics[w.i], w');
    } else {
      SameHandles(k, w, k', w');
    }
  }

  lemma HandHeld(k: Kafka, w: Pc)
    requires HandlesInv(k, w)
    ensures w.Disposing? ==> w.rid < |k.records| && k.records[w.rid].handle
  {
  }

  lemma Released(k: Kafka, w: Pc, r: Rid, w': Pc)
    requires HandlesInv(k, w) && r < |k.records| && k.records[r].handle
    requires (w.Disposing? && w.rid == r && w' == Deciding(r)) || (w.AllDisposing? && w'.AllDisposing?)
    ensures HandlesInv(Dispose(k, r), w')
  {
    DisposalsExtend(k.records[r].history, Disposed);
    hide Disposals;
  }

  lemma WriterHandles(k: Kafka, w: Pc, c: Choice)
    requires TableInv(k, w) && HandlesInv(k, w) && Holds(w) == Write && Ready(k, w, c)
    ensures HandlesInv(Step(k, w, c).0, Step(k, w, c).1)
  {
    hide TableInv;
    if w.Taking? || w.Deciding? || w.Freeing? {
      HandHandles(k, w, c);
    } else if MovesRecords(w) {
      LoopHandles(k, w, c);
    } else if w.Disposing? || w.AllDisposing? {
      DisposerHandles(k, w, c);
    } else {
      OtherWriter(k, w, c);
      hide Step, Ready;
    }
  }

  /** The other points of a writer leave the records alone, but for a new one. */
  lemma OtherWriter(k: Kafka, w: Pc, c: Choice)
    requires Ready(k, w, c) && Holds(w) == Write && !MovesRecords(w) && !w.Disposing? && !w.AllDisposing?
    ensures var (k', w') := Step(k, w, c);
            && k.records <= k'.records && k.places <= k'.places
            && (forall r | |k.records| <= r < |k'.records| :: k'.records[r].handle && k'.records[r].history == [] && k'.places[r] == Registered)
            && !w'.Disposing? && !w'.Deciding? && !w'.Freeing?
  {
    hide Has, Lookup, Busy;
  }

  lemma ReaderRecords(k: Kafka, p: Pc, c: Choice)
    requires Ready(k, p, c) && Holds(p) == Read
    ensures Step(k, p, c).0.records == k.records && Step(k, p, c).0.places == k.places
  {
    hide Has, Lookup, Replay, ToInt32;
  }

  lemma HandlesAction(s: State, a: Action)
    requires Inv(s) && Enabled(s, a) && HandlesInv(s.k, WriterPc(s))
    ensures HandlesInv(Do(s, a).k, WriterPc(Do(s, a)))
  {
    hide Inv, Do, Enabled, HandlesInv, WriterPc;
    match a
    case Work(t, c) => HandlesWork(s, t, c);
    case Deliver(agent, r, err, now) => HandlesDeliver(s, agent, r, err, now);
    case _ =>
      QuietAction(s, a);
      SameHandles(s.k, WriterPc(s), Do(s, a).k, WriterPc(Do(s, a)));
  }

  lemma HandlesDeliver(s: State, agent: Agent, r: Rid, err: int, now: int)
    requires Enabled(s, Deliver(agent, r, err, now)) && HandlesInv(s.k, WriterPc(s))
    ensures HandlesInv(Do(s, Deliver(agent, r, err, now)).k, WriterPc(Do(s, Deliver(agent, r, err, now))))
  {
    var tt := s.k.records[r];
    DisposalsExtend(tt.history, Report(err, now));
    DeliverKeeps(s, agent, r, err, now);
    hide Do, Enabled, WriterPc, Disposals, HandlesInv;
    var tt' := tt.(history := tt.history + [Report(err, now)]);
    OneHeard(s.k, WriterPc(s), r, tt');
    SameHandles(s.k.(records := s.k.records[r := tt']), WriterPc(s), Do(s, Deliver(agent, r, err, now)).k, WriterPc(s));
  }

  lemma DeliverKeeps(s: State, agent: Agent, r: Rid, err: int, now: int)
    requires Enabled(s, Deliver(agent, r, err, now))
    ensures r < |s.k.records|
    ensures var s' := Do(s, Deliver(agent, r, err, now));
            && s'.k.records == s.k.records[r := s.k.records[r].(history := s.k.records[r].history + [Report(err, now)])]
            && s'.k.places == s.k.places && WriterPc(s') == WriterPc(s)
  {
  }

  lemma OneHeard(k: Kafka, w: Pc, r: Rid, tt: Topic)
    requires HandlesInv(k, w) && r < |k.records| && tt.handle == k.records[r].handle
    requires Disposals(tt.history) == Disposals(k.records[r].history)
    ensures HandlesInv(k.(records := k.records[r := tt]), w)
  {
    hide Disposals;
  }

  /** Beginning and ending a call, taking and releasing the lock, and the end of the poll thread. */
  lemma QuietAction(s: State, a: Action)
    requires Inv(s) && Enabled(s, a) && !a.Work? && !a.Deliver?
    ensures Do(s, a).k.records == s.k.records && Do(s, a).k.places == s.k.places
    ensures var w' := WriterPc(Do(s, a)); w' == WriterPc(s) || (!w'.Disposing? && !w'.Deciding? && !w'.Freeing?)
  {
    hide TableInv, ReaderInv, Ready, Step;
  }

  lemma HandlesWork(s: State, t: Tid, c: Choice)
    requires Inv(s) && Enabled(s, Work(t, c)) && HandlesInv(s.k, WriterPc(s))
    ensures HandlesInv(Do(s, Work(t, c)).k, WriterPc(Do(s, Work(t, c))))
  {
    hide TableInv, Step, Ready;
    ReadyHolds(s.k, s.pc[t], c);
    if Holds(s.pc[t]) == Write {
      WriterIs(s, t);
      WriterHandles(s.k, s.pc[t], c);
    } else {
      ReaderRecords(s.k, s.pc[t], c);
    }
  }

  lemma {:induction false} HandlesRun(s: State, run: seq<Action>)
    requires Inv(s) && IsRun(s, run) && HandlesInv(s.k, WriterPc(s))
    ensures HandlesInv(After(s, run).k, WriterPc(After(s, run)))
    decreases |run|
  {
    if run != [] {
      hide Inv, Do, Enabled, HandlesInv, WriterPc;
      HandlesAction(s, run[0]);
      ActionInv(s, run[0]);
      HandlesRun(Do(s, run[0]), run[1..]);
    }
  }

  lemma HandlesReached(s: State)
    requires Reachable(s)
    ensures HandlesInv(s.k, WriterPc(s))
  {
    var s0, run :| Reaches(s0, run, s);
    InitialInv(s0);
    HandlesRun(s0, run);
  }

  /** In every run each record's handle is released at most once, has been before the record is parked, leaked
      or freed, and the disposal is reported to the throttle when it is. */
  lemma ReleasedOnce(s: State, r: Rid)
    requires Reachable(s) && r < |s.k.records|
    ensures Disposals(s.k.records[r].history) == if s.k.records[r].handle then 0 else 1
    ensures s.k.places[r] in {Parked, Leaked, Freed} ==> !s.k.records[r].handle
  {
    HandlesReached(s);
  }

  /** When the producer is destroyed, and from then on until there is another, no handle of any record ever
      created is left. */
  lemma NoneLeft(s: State, r: Rid)
    requires Reachable(s) && r < |s.k.records|
    requires WriterPc(s).AllDestroying? || s.k.producer.None?
    ensures !s.k.records[r].handle && Disposals(s.k.records[r].history) == 1
  {
    HandlesReached(s);
    ReachableInv(s);
    hide Disposals;
    var w := WriterPc(s);
    EntryHandles(s.k, w);
    TornHandles(s.k, w, r);
  }

  lemma TornHandles(k: Kafka, w: Pc, r: Rid)
    requires TableInv(k, w) && HandlesInv(k, w) && r < |k.records| && (w.AllDestroying? || k.producer.None?)
    ensures !k.records[r].handle
  {
    hide Disposals;
    if k.places[r] == Registered {
      assert r in k.topics;
      var i :| 0 <= i < |k.topics| && k.topics[i] == r;
      assert DisposedTopics(k, w) == |k.topics|;
    } else {
      assert k.places[r] != Held;
    }
  }
}
