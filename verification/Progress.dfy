/** No reachable deadlock: from every reachable state the threads can go on until every session has
    returned, so no session is ever stuck for good, neither waiting for the lock, nor in the queue-full
    loop under the read lock, nor joining the poll thread under the write lock. */
module Progress {
  import opened Delivery
  import opened Options
  import opened Protocol
  import opened Invariant
  import opened Safety

  /** One session has moved, and perhaps the poll thread; the other sessions are where they were. */
  ghost predicate Advances(s: State, run: seq<Action>, t: Tid) {
    && IsRun(s, run)
    && Inv(After(s, run))
    && After(s, run).pc.Keys == s.pc.Keys
    && forall u | u in s.pc && u != t :: After(s, run).pc[u] == s.pc[u]
  }

  const HELPFUL: Choice := Choice(true, true, Queued)

  /** The number of lock sections a session still has to enter or leave, and its return. */
  function Stage(p: Pc): nat {
    match p
    case Idle => 0
    case Returned(_) => 1
    case Wait(Exists(_, _)) => 7
    case Wait(Create(_, _)) => 5
    case Wait(_) => 3
    case Inside(Exists(_, _)) => 6
    case Inside(Create(_, _)) => 4
    case Leave(_, next) => Stage(next) + 1
    case ReapCheck(next) => Stage(next) + 1
    case ReapFree(_, next) => Stage(next) + 1
    case _ => 2
  }

  /** How much a session has to do before it can release the lock. */
  function Left(k: Kafka, p: Pc): nat {
    var n := |k.topics|;
    var m := |k.retired|;
    match p
    case Inside(Connect) => 1
    case Inside(Exists(_, _)) => 1
    case Inside(Create(_, _)) => m + 3
    case Inside(Send(_, _)) => |k.queue| + 4
    case Inside(Dismiss(_)) => m + 9
    case Inside(DismissAll) => m + 2 * n + 8
    case Inside(Stats(_)) => 4
    case ReapCheck(_) => m + 2
    case ReapFree(i, _) => if i <= m then m - i + 1 else 0
    case Producing(_, _) => |k.queue| + 2
    case Retrying(_, _) => |k.queue| + 3
    case Draining(_, _) => 1
    case Flushing(_) => m + 8
    case Taking(_) => m + 7
    case Disposing(_) => m + 6
    case Deciding(_) => m + 5
    case Freeing(_) => m + 3
    case AllFlushing => m + 2 * n + 7
    case AllDisposing(i) => if i <= n then m + 2 * n - i + 6 else 0
    case AllStopping => m + n + 5
    case AllJoining => m + n + 4
    case AllDestroying => m + n + 3
    case AllFreeing(i) => if i <= n then m + n - i + 2 else 0
    case AllReaping(i) => if i <= m then m - i + 1 else 0
    case StatsFlushing(_, _) => 3
    case StatsFirst(_, _, _) => 2
    case StatsSecond(_, _, _, _) => 1
    case _ => 0
  }

  /** The poll thread has to leave its loop before the join returns. */
  predicate Joins(k: Kafka, w: Pc) {
    w.AllJoining? && k.producer.Some? && k.producer.value.poller.Polling?
  }

  lemma WriterReady(k: Kafka, w: Pc)
    requires TableInv(k, w) && Holds(w) == Write && !w.Leave? && !Joins(k, w)
    ensures Ready(k, w, HELPFUL)
  {
    TopicsInRange(k, w);
    hide Stored, NameInv, HandleInv, MessageInv;
  }

  lemma ReaderReady(k: Kafka, p: Pc)
    requires TableInv(k, Idle) && Holds(p) == Read && !p.Leave?
    requires InUse(p).Some? ==> InUse(p).value in k.topics
    requires p.Producing? ==> |k.queue| < k.limit
    ensures Ready(k, p, HELPFUL)
  {
    TopicsInRange(k, Idle);
    if InUse(p).Some? {
      BorrowedAlive(k, InUse(p).value);
    }
    hide TableInv;
  }

  lemma WriterLess(k: Kafka, w: Pc)
    requires Ready(k, w, HELPFUL) && Holds(w) == Write && TableInv(k, w)
    ensures Left(Step(k, w, HELPFUL).0, Step(k, w, HELPFUL).1) < Left(k, w)
    ensures Stage(Step(k, w, HELPFUL).1) <= Stage(w)
  {
    hide TableInv;
    WriterBounds(k, w);
    if MovesRecords(w) {
      MoverLess(k, w);
    } else {
      OtherLess(k, w);
    }
  }

  lemma MoverLess(k: Kafka, w: Pc)
    requires Ready(k, w, HELPFUL) && MovesRecords(w)
    requires w.ReapFree? || w.AllReaping? ==> w.i <= |k.retired|
    requires w.AllFreeing? ==> w.i <= |k.topics|
    ensures Left(Step(k, w, HELPFUL).0, Step(k, w, HELPFUL).1) < Left(k, w)
    ensures Stage(Step(k, w, HELPFUL).1) <= Stage(w)
  {
    StepCases(k, w, HELPFUL);
    hide Step;
    if w.Taking? || w.Deciding? || w.Freeing? {
      hide Busy;
    } else {
      LoopLess(k, w);
    }
  }

  lemma LoopLess(k: Kafka, w: Pc)
    requires Ready(k, w, HELPFUL) && (w.ReapFree? || w.AllFreeing? || w.AllReaping?)
    requires w.ReapFree? || w.AllReaping? ==> w.i <= |k.retired|
    requires w.AllFreeing? ==> w.i <= |k.topics|
    ensures Left(Step(k, w, HELPFUL).0, Step(k, w, HELPFUL).1) < Left(k, w)
    ensures Stage(Step(k, w, HELPFUL).1) <= Stage(w)
  {
    StepCases(k, w, HELPFUL);
    hide Step;
  }

  lemma OtherLess(k: Kafka, w: Pc)
    requires Ready(k, w, HELPFUL) && Holds(w) == Write && !MovesRecords(w)
    requires w.AllDisposing? ==> w.i <= |k.topics|
    ensures Left(Step(k, w, HELPFUL).0, Step(k, w, HELPFUL).1) < Left(k, w)
    ensures Stage(Step(k, w, HELPFUL).1) <= Stage(w)
  {
    hide Ready, Step, Left, Stage;
    if w.Inside? {
      EntryLess(k, w);
    } else if w.Disposing? || w.AllDisposing? || w.AllDestroying? {
      ReleaseLess(k, w);
    } else {
      OtherPoints(k, w);
      SmallLess(k, w);
    }
  }

  lemma OtherPoints(k: Kafka, w: Pc)
    requires Ready(k, w, HELPFUL) && Holds(w) == Write && !MovesRecords(w)
    ensures w.Inside? || w.Disposing? || w.AllDisposing? || w.AllDestroying?
            || w.ReapCheck? || w.Flushing? || w.AllFlushing? || w.AllStopping? || w.AllJoining?
  {
  }

  lemma ReleaseLess(k: Kafka, w: Pc)
    requires Ready(k, w, HELPFUL) && (w.Disposing? || w.AllDisposing? || w.AllDestroying?)
    requires w.AllDisposing? ==> w.i <= |k.topics|
    ensures Left(Step(k, w, HELPFUL).0, Step(k, w, HELPFUL).1) < Left(k, w)
    ensures Stage(Step(k, w, HELPFUL).1) <= Stage(w)
  {
    StepCases(k, w, HELPFUL);
    hide Step, Busy, Ready;
  }

  lemma EntryLess(k: Kafka, w: Pc)
    requires w.Inside? && Holds(w) == Write
    ensures Left(Step(k, w, HELPFUL).0, Step(k, w, HELPFUL).1) < Left(k, w)
    ensures Stage(Step(k, w, HELPFUL).1) <= Stage(w)
  {
    hide Lookup, Has;
  }

  lemma SmallLess(k: Kafka, w: Pc)
    requires Ready(k, w, HELPFUL)
    requires w.ReapCheck? || w.Flushing? || w.AllFlushing? || w.AllStopping? || w.AllJoining?
    ensures Left(Step(k, w, HELPFUL).0, Step(k, w, HELPFUL).1) < Left(k, w)
    ensures Stage(Step(k, w, HELPFUL).1) <= Stage(w)
  {
    StepCases(k, w, HELPFUL);
    hide Step, Busy;
  }

  lemma WriterBounds(k: Kafka, w: Pc)
    requires TableInv(k, w)
    ensures w.ReapFree? || w.AllReaping? ==> w.i <= |k.retired|
    ensures w.AllDisposing? || w.AllFreeing? ==> w.i <= |k.topics|
  {
  }

  lemma ReaderLess(k: Kafka, p: Pc)
    requires Ready(k, p, HELPFUL) && Holds(p) == Read
    ensures Left(Step(k, p, HELPFUL).0, Step(k, p, HELPFUL).1) < Left(k, p)
    ensures Stage(Step(k, p, HELPFUL).1) <= Stage(p)
  {
    hide Lookup, Has, Replay, ToInt32;
    if p.Inside? {
      ReaderEnters(k, p.op);
    } else {
      ReaderMoves(k, p);
    }
    hide Step, Left, Stage;
  }

  lemma ReaderEnters(k: Kafka, op: Op)
    requires LockMode(op) == Read
    ensures var p := Inside(op);
            && Left(Step(k, p, HELPFUL).0, Step(k, p, HELPFUL).1) < Left(k, p)
            && Stage(Step(k, p, HELPFUL).1) <= Stage(p)
  {
    hide Lookup, Has, Feedable;
  }

  lemma ReaderMoves(k: Kafka, p: Pc)
    requires Ready(k, p, HELPFUL) && Holds(p) == Read && !p.Inside?
    ensures Left(Step(k, p, HELPFUL).0, Step(k, p, HELPFUL).1) < Left(k, p)
    ensures Stage(Step(k, p, HELPFUL).1) <= Stage(p)
  {
    hide Replay, ToInt32, Feedable, Borrows;
  }

  /** A session that holds the lock, is not about to release it, and is not held up by the poll thread
      or a full queue, can take a step that brings it closer to the release. */
  lemma HelpfulStep(s: State, t: Tid)
    requires Inv(s) && t in s.pc && Holds(s.pc[t]) != Unlocked && !s.pc[t].Leave?
    requires !Joins(s.k, s.pc[t]) && (s.pc[t].Producing? ==> |s.k.queue| < s.k.limit)
    ensures Enabled(s, Work(t, HELPFUL))
    ensures var s' := Do(s, Work(t, HELPFUL));
            && Inv(s') && Holds(s'.pc[t]) != Unlocked
            && Left(s'.k, s'.pc[t]) < Left(s.k, s.pc[t]) && Stage(s'.pc[t]) <= Stage(s.pc[t])
  {
    hide TableInv, Ready, Step, Left, Stage, Joins;
    var p := s.pc[t];
    if Holds(p) == Write {
      WriterIs(s, t);
      WriterReady(s.k, p);
      WriterLess(s.k, p);
    } else {
      ReaderReady(s.k, p);
      ReaderLess(s.k, p);
    }
    StepHolds(s.k, p, HELPFUL);
    ActionInv(s, Work(t, HELPFUL));
  }

  lemma OneAction(s: State, a: Action, t: Tid)
    requires Inv(s) && Enabled(s, a)
    requires a.Begin? || a.Acquire? || a.Work? || a.Unlock? || a.Finish? ==> a.t == t
    ensures Advances(s, [a], t) && After(s, [a]) == Do(s, a) && Inv(Do(s, a))
  {
    hide Inv, Step, Served;
    ActionInv(s, a);
    var s' := Do(s, a);
    assert [a][1..] == [] && IsRun(s', []) && After(s', []) == s';
    assert s'.pc.Keys == s.pc.Keys;
  }

  lemma Chain(s: State, run: seq<Action>, more: seq<Action>, t: Tid)
    requires Advances(s, run, t) && Advances(After(s, run), more, t)
    ensures Advances(s, run + more, t) && After(s, run + more) == After(After(s, run), more)
  {
    hide Inv, IsRun, After;
    RunConcat(s, run, more);
  }

  /** In front of a full queue, polling serves a report and makes room. */
  lemma MakeRoom(s: State, t: Tid) returns (run: seq<Action>)
    requires Inv(s) && t in s.pc && s.pc[t].Producing? && |s.k.queue| >= s.k.limit
    ensures Advances(s, run, t) && t in After(s, run).pc && After(s, run).pc[t] == s.pc[t]
    ensures Left(After(s, run).k, s.pc[t]) < Left(s.k, s.pc[t])
  {
    hide Inv, IsRun, After, Advances, Left;
    var full := Work(t, Choice(true, true, QueueFull));
    var retry := Work(t, HELPFUL);
    var r := AnyQueued(s, t);
    var report := Deliver(Session(t), r, NO_ERROR, 0);
    var p := s.pc[t];
    OneAction(s, full, t);
    var s1 := Do(s, full);
    assert s1.k == s.k && s1.pc[t] == Retrying(p.rid, p.len);
    OneAction(s1, report, t);
    var s2 := Do(s1, report);
    Chain(s, [full], [report], t);
    AdvancesInv(s, [full] + [report], t);
    assert s2.k == Served(s.k, r, NO_ERROR, 0) && s2.pc[t] == Retrying(p.rid, p.len);
    OneAction(s2, retry, t);
    Chain(s, [full] + [report], [retry], t);
    run := [full] + [report] + [retry];
    assert Do(s2, retry).k == s2.k && Do(s2, retry).pc[t] == p;
    ServedQueue(s.k, r);
    RoomLeft(s.k, s2.k, p);
  }

  lemma RoomLeft(k: Kafka, k': Kafka, p: Pc)
    requires p.Producing? && |k'.queue| < |k.queue|
    ensures Left(k', p) < Left(k, p)
  {
  }

  lemma AdvancesInv(s: State, run: seq<Action>, t: Tid)
    requires Advances(s, run, t)
    ensures IsRun(s, run) && Inv(After(s, run)) && After(s, run).pc.Keys == s.pc.Keys
    ensures forall u | u in s.pc && u != t :: After(s, run).pc[u] == s.pc[u]
  {
    hide Inv, IsRun, After;
  }

  lemma AnyQueued(s: State, t: Tid) returns (r: Rid)
    requires Inv(s) && t in s.pc && s.pc[t].Producing? && |s.k.queue| >= s.k.limit
    ensures r in s.k.queue && r < |s.k.records| && s.pc[t].rid < |s.k.records| && |s.k.queue| > 0
    ensures s.k.producer.Some? && s.k.producer.value.rk && Feedable(s.k, s.pc[t].rid)
  {
    ReadersTable(s, t);
    BorrowedAlive(s.k, s.pc[t].rid);
    QueueAlive(s.k);
    hide Inv;
    r :| r in s.k.queue;
  }

  lemma QueueAlive(k: Kafka)
    requires TableInv(k, Idle)
    ensures k.limit > 0 && forall r | r in k.queue :: r < |k.records|
  {
    hide PlaceInv, NameInv, HandleInv;
  }

  lemma ServedQueue(k: Kafka, r: Rid)
    requires r in k.queue && r < |k.records|
    ensures |Served(k, r, NO_ERROR, 0).queue| == |k.queue| - 1
  {
  }

  // ---------------------------------------------------------------- releasing the lock

  /** A session that holds the lock can be run until it has released it. */
  lemma {:induction false} Release(s: State, t: Tid) returns (run: seq<Action>)
    requires Inv(s) && t in s.pc && Holds(s.pc[t]) != Unlocked
    ensures Advances(s, run, t) && t in After(s, run).pc
    ensures Holds(After(s, run).pc[t]) == Unlocked && Stage(After(s, run).pc[t]) < Stage(s.pc[t])
    decreases Left(s.k, s.pc[t]), if Joins(s.k, s.pc[t]) then 1 else 0
  {
    if s.pc[t].Leave? {
      Unlocking(s, t);
      run := [Unlock(t)];
    } else {
      var first := Closer(s, t);
      AdvancesInv(s, first, t);
      var rest := Release(After(s, first), t);
      Chain(s, first, rest, t);
      run := first + rest;
    }
  }

  lemma Unlocking(s: State, t: Tid)
    requires Inv(s) && t in s.pc && s.pc[t].Leave?
    ensures Advances(s, [Unlock(t)], t) && t in After(s, [Unlock(t)]).pc
    ensures Holds(After(s, [Unlock(t)]).pc[t]) == Unlocked && Stage(After(s, [Unlock(t)]).pc[t]) < Stage(s.pc[t])
  {
    hide TableInv, IsRun, After, Advances;
    OneAction(s, Unlock(t), t);
  }

  /** One move towards the release: a step of its own, room made in the queue, or the poll thread
      leaving its loop. */
  lemma Closer(s: State, t: Tid) returns (run: seq<Action>)
    requires Inv(s) && t in s.pc && Holds(s.pc[t]) != Unlocked && !s.pc[t].Leave?
    ensures Advances(s, run, t) && t in After(s, run).pc
    ensures var s' := After(s, run);
            && Holds(s'.pc[t]) != Unlocked && Stage(s'.pc[t]) <= Stage(s.pc[t])
            && (Left(s'.k, s'.pc[t]) < Left(s.k, s.pc[t])
                || (Left(s'.k, s'.pc[t]) == Left(s.k, s.pc[t]) && Joins(s.k, s.pc[t]) && !Joins(s'.k, s'.pc[t])))
  {
    if Joins(s.k, s.pc[t]) {
      StopsPolling(s, t);
      run := [PollExit];
    } else if s.pc[t].Producing? && |s.k.queue| >= s.k.limit {
      run := MakeRoom(s, t);
      AdvancesInv(s, run, t);
    } else {
      hide Inv, IsRun, After, Advances, Left, Stage, Step;
      HelpfulStep(s, t);
      OneAction(s, Work(t, HELPFUL), t);
      run := [Work(t, HELPFUL)];
    }
  }

  lemma StopsPolling(s: State, t: Tid)
    requires Inv(s) && t in s.pc && Joins(s.k, s.pc[t])
    ensures Advances(s, [PollExit], t) && t in After(s, [PollExit]).pc
    ensures var s' := After(s, [PollExit]);
            s'.pc[t] == s.pc[t] && Left(s'.k, s'.pc[t]) == Left(s.k, s.pc[t]) && !Joins(s'.k, s'.pc[t])
  {
    Stopping(s, t);
    hide Inv, IsRun, After, Advances, Left;
    OneAction(s, PollExit, t);
    SameLeft(s.k, Do(s, PollExit).k, s.pc[t]);
  }

  lemma Stopping(s: State, t: Tid)
    requires Inv(s) && t in s.pc && Joins(s.k, s.pc[t])
    ensures !s.k.producer.value.running
  {
    hide LockInv, PlaceInv, MessageInv, NameInv, HandleInv;
    WriterOf(s, t);
  }

  lemma WriterOf(s: State, t: Tid)
    requires Inv(s) && t in s.pc && Holds(s.pc[t]) == Write
    ensures WriterPc(s) == s.pc[t]
  {
    hide TableInv;
  }

  lemma SameLeft(k: Kafka, k': Kafka, p: Pc)
    requires k'.topics == k.topics && k'.retired == k.retired && k'.queue == k.queue
    ensures Left(k', p) == Left(k, p)
  {
  }

  // ---------------------------------------------------------------- everyone returns

  /** With the lock to itself, a session can be run until its call has returned. */
  lemma {:induction false} FinishOne(s: State, t: Tid) returns (run: seq<Action>)
    requires Inv(s) && t in s.pc
    requires forall u | u in s.pc && u != t :: Holds(s.pc[u]) == Unlocked
    ensures Advances(s, run, t) && t in After(s, run).pc && After(s, run).pc[t].Idle?
    decreases Stage(s.pc[t])
  {
    var p := s.pc[t];
    if p.Idle? {
      run := [];
    } else {
      var first := NextStage(s, t);
      AdvancesInv(s, first, t);
      var rest := FinishOne(After(s, first), t);
      Chain(s, first, rest, t);
      run := first + rest;
    }
  }

  lemma NextStage(s: State, t: Tid) returns (run: seq<Action>)
    requires Inv(s) && t in s.pc && !s.pc[t].Idle?
    requires forall u | u in s.pc && u != t :: Holds(s.pc[u]) == Unlocked
    ensures Advances(s, run, t) && t in After(s, run).pc && Stage(After(s, run).pc[t]) < Stage(s.pc[t])
  {
    if Holds(s.pc[t]) != Unlocked {
      run := Release(s, t);
    } else if s.pc[t].Wait? {
      NobodyHolds(s);
      Enters(s, t);
      run := [Acquire(t)];
    } else {
      hide Inv, IsRun, After, Advances;
      OneAction(s, Finish(t), t);
      run := [Finish(t)];
    }
  }

  lemma Enters(s: State, t: Tid)
    requires Inv(s) && t in s.pc && s.pc[t].Wait? && s.writer.None? && s.readers == {}
    ensures Advances(s, [Acquire(t)], t) && t in After(s, [Acquire(t)]).pc
    ensures Stage(After(s, [Acquire(t)]).pc[t]) < Stage(s.pc[t])
  {
    hide Inv, IsRun, After, Advances;
    OneAction(s, Acquire(t), t);
  }

  lemma NobodyHolds(s: State)
    requires LockInv(s) && forall u | u in s.pc :: Holds(s.pc[u]) == Unlocked
    ensures s.writer.None? && s.readers == {}
  {
  }

  /** Everyone outside the lock, and whoever is not on the list has returned. */
  ghost predicate Outside(s: State, todo: set<Tid>) {
    && todo <= s.pc.Keys
    && forall t | t in s.pc :: Holds(s.pc[t]) == Unlocked && (t in todo || s.pc[t].Idle?)
  }

  lemma OneReturns(s: State, todo: set<Tid>, t: Tid) returns (run: seq<Action>)
    requires Inv(s) && Outside(s, todo) && t in todo
    ensures IsRun(s, run) && Inv(After(s, run)) && After(s, run).pc.Keys == s.pc.Keys
    ensures Outside(After(s, run), todo - {t})
  {
    hide Inv, IsRun, After, Advances;
    run := FinishOne(s, t);
    AdvancesInv(s, run, t);
  }

  /** All sessions return, one after the other. */
  lemma {:induction false} FinishAll(s: State, todo: set<Tid>) returns (run: seq<Action>)
    requires Inv(s) && Outside(s, todo)
    ensures IsRun(s, run) && After(s, run).pc.Keys == s.pc.Keys
    ensures forall t | t in s.pc :: After(s, run).pc[t].Idle?
    decreases |todo|
  {
    if todo == {} {
      run := [];
    } else {
      var t :| t in todo;
      var first := OneReturns(s, todo, t);
      hide Inv, IsRun, After, Outside;
      var rest := FinishAll(After(s, first), todo - {t});
      RunConcat(s, first, rest);
      run := first + rest;
    }
  }

  /** Holders of the lock release it, one after the other. */
  lemma {:induction false} ReleaseAll(s: State, todo: set<Tid>) returns (run: seq<Action>)
    requires Inv(s) && Holders(s, todo)
    ensures IsRun(s, run) && Inv(After(s, run)) && After(s, run).pc.Keys == s.pc.Keys
    ensures forall t | t in s.pc :: Holds(After(s, run).pc[t]) == Unlocked
    decreases |todo|
  {
    if todo == {} {
      run := [];
    } else {
      var t :| t in todo;
      var first := ReleaseIfHeld(s, todo, t);
      hide Inv, IsRun, After, Holds, Holders;
      var rest := ReleaseAll(After(s, first), todo - {t});
      RunConcat(s, first, rest);
      run := first + rest;
    }
  }

  ghost predicate Holders(s: State, todo: set<Tid>) {
    && todo <= s.pc.Keys
    && forall t | t in s.pc :: Holds(s.pc[t]) == Unlocked || t in todo
  }

  lemma ReleaseIfHeld(s: State, todo: set<Tid>, t: Tid) returns (run: seq<Action>)
    requires Inv(s) && Holders(s, todo) && t in todo
    ensures IsRun(s, run) && Inv(After(s, run)) && After(s, run).pc.Keys == s.pc.Keys
    ensures Holders(After(s, run), todo - {t})
  {
    hide Inv, IsRun, After, Advances, Holds, Stage;
    if Holds(s.pc[t]) == Unlocked {
      run := [];
      NoAction(s);
    } else {
      run := Release(s, t);
      AdvancesInv(s, run, t);
    }
  }

  lemma NoAction(s: State)
    ensures IsRun(s, []) && After(s, []) == s
  {
  }

  ghost predicate AllReturn(s: State, run: seq<Action>) {
    && IsRun(s, run)
    && After(s, run).pc.Keys == s.pc.Keys
    && forall t | t in s.pc :: After(s, run).pc[t].Idle?
  }

  /** From every reachable state some continuation brings every session back. */
  lemma NoDeadlock(s: State)
    requires Reachable(s)
    ensures exists run :: AllReturn(s, run)
  {
    ReachableInv(s);
    hide Reachable, Inv;
    var first := ReleaseAll(s, s.pc.Keys);
    var rest := FinishAll(After(s, first), s.pc.Keys);
    RunConcat(s, first, rest);
    assert AllReturn(s, first + rest);
  }

  /** No session waits for the lock while it holds it; the poll thread and callbacks never ask for it. */
  lemma NeverWaitsForItself(s: State, t: Tid)
    requires Reachable(s) && t in s.pc && s.pc[t].Wait?
    ensures t !in s.readers && s.writer != Some(t)
  {
    ReachableInv(s);
  }
}
