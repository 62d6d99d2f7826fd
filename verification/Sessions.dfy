/** Whole calls, while any other session does anything between their steps: what kafka_send and
    kafka_stats tell their callers. */
module Sessions {
  import opened Delivery
  import opened Options
  import opened Protocol
  import opened Invariant
  import opened Safety
  import opened TopicMap

  // ---------------------------------------------------------------- kafka_send

  /** A message that a session queued: the table at that moment, and the record. */
  datatype Queueing = Queueing(k: Kafka, rid: Rid)

  function Sends(s: State, run: seq<Action>, t: Tid): seq<Queueing>
    requires IsRun(s, run)
    decreases |run|
  {
    if run == [] then []
    else SendOf(s, run[0], t) + Sends(Do(s, run[0]), run[1..], t)
  }

  function SendOf(s: State, a: Action, t: Tid): seq<Queueing> {
    if a.Work? && a.t == t && Queues(s, a).Some? then [Queueing(s.k, Queues(s, a).value)] else []
  }

  /** The record registered under a name. */
  predicate RegisteredAs(k: Kafka, r: Rid, name: string) {
    r in k.topics && r < |k.records| && k.records[r].name == name
  }

  /** Points of a call of kafka_send that has not queued its message yet. */
  predicate Unsent(k: Kafka, p: Pc, name: string, len: nat) {
    || p in {Wait(Exists(name, len)), Wait(Create(name, len)), Wait(Send(name, len)), Returned(Sent(-1))}
    || p in {Inside(Exists(name, len)), Inside(Create(name, len)), Inside(Send(name, len))}
    || ((p.Leave? || p.ReapCheck? || p.ReapFree?) && p.next in {Wait(Create(name, len)), Wait(Send(name, len)), Returned(Sent(-1))})
    || ((p.Producing? || p.Retrying?) && p.len == len && RegisteredAs(k, p.rid, name))
  }

  /** Points of a call that has queued it. */
  predicate Past(p: Pc, len: nat) {
    || (p.Draining? && p.len == len)
    || p == Leave(Read, Returned(SendResult(len)))
    || p == Returned(SendResult(len))
  }

  predicate Calling(k: Kafka, p: Pc, name: string, len: nat, sent: bool) {
    if sent then Past(p, len) else Unsent(k, p, name, len)
  }

  /** The message counts as sent exactly by the produce call that succeeds, and that one is made on
      the record registered under the name. */
  lemma OwnStep(k: Kafka, p: Pc, c: Choice, name: string, len: nat, sent: bool)
    requires Ready(k, p, c) && Calling(k, p, name, len, sent)
    ensures var queued := p.Producing? && c.outcome.Queued?;
            && (queued ==> !sent && RegisteredAs(k, p.rid, name))
            && Calling(Step(k, p, c).0, Step(k, p, c).1, name, len, sent || queued)
  {
    hide Lookup, Busy, Replay, ToInt32;
    if p == Inside(Send(name, len)) {
      LookupRegistered(k, name);
    }
  }

  lemma LookupRegistered(k: Kafka, name: string)
    ensures var i := Lookup(k, name); i < |k.topics| ==> RegisteredAs(k, k.topics[i], name)
  {
  }

  /** Nothing another thread does moves the call, or takes its record from under it. */
  lemma OtherStep(s: State, a: Action, t: Tid, name: string, len: nat, sent: bool)
    requires Inv(s) && Enabled(s, a) && t in s.pc && Calling(s.k, s.pc[t], name, len, sent)
    requires a.Begin? || a.Acquire? || a.Work? || a.Unlock? || a.Finish? ==> a.t != t
    ensures t in Do(s, a).pc && Do(s, a).pc[t] == s.pc[t]
    ensures Calling(Do(s, a).k, s.pc[t], name, len, sent)
  {
    hide Inv, Step, LockInv, Calling;
    NamesStay(s, a);
    if s.pc[t].Producing? || s.pc[t].Retrying? {
      ReaderPinsTopics(s, a, t);
    }
    CallingKept(s.k, Do(s, a).k, s.pc[t], name, len, sent);
  }

  lemma CallingKept(k: Kafka, k': Kafka, p: Pc, name: string, len: nat, sent: bool)
    requires Calling(k, p, name, len, sent)
    requires p.Producing? || p.Retrying? ==> k'.topics == k.topics
    requires |k'.records| >= |k.records| && forall r | 0 <= r < |k.records| :: k'.records[r].name == k.records[r].name
    ensures Calling(k', p, name, len, sent)
  {
  }

  /** While a session holds the lock for reading, the array does not change. */
  lemma ReaderPinsTopics(s: State, a: Action, t: Tid)
    requires Inv(s) && Enabled(s, a) && t in s.pc && Holds(s.pc[t]) == Read
    ensures Do(s, a).k.topics == s.k.topics
  {
    hide TableInv, ReaderInv, Step;
    match a
    case Work(u, c) =>
      OneMode(s, t, u);
      hide LockInv;
      ReaderTopics(s.k, s.pc[u], c);
    case _ =>
  }

  /** Whoever holds the lock beside a reader is a reader. */
  lemma OneMode(s: State, t: Tid, u: Tid)
    requires LockInv(s) && t in s.pc && u in s.pc && Holds(s.pc[t]) == Read && Holds(s.pc[u]) != Unlocked
    ensures Holds(s.pc[u]) == Read
  {
  }

  lemma ReaderTopics(k: Kafka, p: Pc, c: Choice)
    requires Ready(k, p, c) && Holds(p) == Read
    ensures Step(k, p, c).0.topics == k.topics
  {
    hide Has, Lookup, Replay, ToInt32;
  }

  lemma LockStep(s: State, a: Action, t: Tid, name: string, len: nat, sent: bool)
    requires Enabled(s, a) && t in s.pc && Calling(s.k, s.pc[t], name, len, sent)
    requires a == Acquire(t) || a == Unlock(t)
    ensures t in Do(s, a).pc && Calling(Do(s, a).k, Do(s, a).pc[t], name, len, sent) && SendOf(s, a, t) == []
  {
  }

  lemma OwnAction(s: State, c: Choice, t: Tid, name: string, len: nat, sent: bool)
    requires Enabled(s, Work(t, c)) && t in s.pc && Calling(s.k, s.pc[t], name, len, sent)
    ensures var sends := SendOf(s, Work(t, c), t);
            && |sends| <= (if sent then 0 else 1)
            && t in Do(s, Work(t, c)).pc
            && Calling(Do(s, Work(t, c)).k, Do(s, Work(t, c)).pc[t], name, len, sent || sends != [])
            && forall q | q in sends :: RegisteredAs(q.k, q.rid, name)
  {
    hide Step, Ready, Calling, RegisteredAs;
    OwnStep(s.k, s.pc[t], c, name, len, sent);
  }

  lemma OtherAction(s: State, a: Action, t: Tid, name: string, len: nat, sent: bool)
    requires Inv(s) && Enabled(s, a) && t in s.pc && Calling(s.k, s.pc[t], name, len, sent)
    requires a != Acquire(t) && a != Unlock(t) && a != Finish(t) && !(a.Work? && a.t == t)
    ensures SendOf(s, a, t) == [] && t in Do(s, a).pc && Do(s, a).pc[t] == s.pc[t]
    ensures Calling(Do(s, a).k, s.pc[t], name, len, sent)
  {
    hide Inv, Step, Ready, Calling;
    CallingNotIdle(s.k, s.pc[t], name, len, sent);
    OtherStep(s, a, t, name, len, sent);
  }

  lemma CallStep(s: State, a: Action, t: Tid, name: string, len: nat, sent: bool) returns (now: bool)
    requires Inv(s) && Enabled(s, a) && t in s.pc && a != Finish(t)
    requires Calling(s.k, s.pc[t], name, len, sent)
    ensures t in Do(s, a).pc && Calling(Do(s, a).k, Do(s, a).pc[t], name, len, now)
    ensures |SendOf(s, a, t)| == (if now then 1 else 0) - (if sent then 1 else 0)
    ensures forall q | q in SendOf(s, a, t) :: RegisteredAs(q.k, q.rid, name)
  {
    hide Inv, Do, Enabled, Calling, RegisteredAs, SendOf;
    now := sent || SendOf(s, a, t) != [];
    if a == Acquire(t) || a == Unlock(t) {
      LockStep(s, a, t, name, len, sent);
    } else if a.Work? && a.t == t {
      OwnAction(s, a.choice, t, name, len, sent);
    } else {
      OtherAction(s, a, t, name, len, sent);
    }
  }

  lemma CallingNotIdle(k: Kafka, p: Pc, name: string, len: nat, sent: bool)
    requires Calling(k, p, name, len, sent)
    ensures !p.Idle?
  {
  }

  lemma {:induction false} CallRun(s: State, run: seq<Action>, t: Tid, name: string, len: nat, sent: bool) returns (now: bool)
    requires Inv(s) && IsRun(s, run) && t in s.pc && Finish(t) !in run
    requires Calling(s.k, s.pc[t], name, len, sent)
    ensures var s' := After(s, run); t in s'.pc && Calling(s'.k, s'.pc[t], name, len, now)
    ensures |Sends(s, run, t)| == (if now then 1 else 0) - (if sent then 1 else 0)
    ensures forall q | q in Sends(s, run, t) :: RegisteredAs(q.k, q.rid, name)
    decreases |run|
  {
    hide Inv, Calling, RegisteredAs, Do, Enabled, SendOf;
    if run == [] {
      now := sent;
    } else {
      var next := CallStep(s, run[0], t, name, len, sent);
      ActionInv(s, run[0]);
      now := CallRun(Do(s, run[0]), run[1..], t, name, len, next);
    }
  }

  /** kafka_send, from the moment it is called to the moment it returns, whatever other sessions create,
      dismiss, disconnect or reconnect between its three separately locked steps, and however often the
      queue was full.  A result that is not negative means that exactly one message was queued, on the
      record registered under the name at that moment; and -1 means that none was, as long as the
      payload length survives the cast to int. */
  lemma KafkaSend(s: State, run: seq<Action>, t: Tid, name: string, len: nat)
    requires Reachable(s) && IsRun(s, run) && t in s.pc && s.pc[t] == Wait(Exists(name, len)) && Finish(t) !in run
    requires t in After(s, run).pc && After(s, run).pc[t].Returned?
    ensures var result := After(s, run).pc[t].result;
            && result.Sent?
            && (result.size >= 0 ==> result.size == ToInt32(len) && |Sends(s, run, t)| == 1)
            && (result.size < 0 ==> result.size == -1 && (|Sends(s, run, t)| == 0 || ToInt32(len) < 0))
    ensures |Sends(s, run, t)| <= 1
    ensures forall q | q in Sends(s, run, t) :: RegisteredAs(q.k, q.rid, name)
  {
    hide Reachable, Inv, IsRun, After, Sends, Calling, RegisteredAs;
    ReachableInv(s);
    CallBegins(s.k, name, len);
    var now := CallRun(s, run, t, name, len, false);
    CallEnds(After(s, run).k, After(s, run).pc[t], name, len, now);
  }

  lemma CallBegins(k: Kafka, name: string, len: nat)
    ensures Calling(k, Wait(Exists(name, len)), name, len, false)
  {
  }

  lemma CallEnds(k: Kafka, p: Pc, name: string, len: nat, sent: bool)
    requires Calling(k, p, name, len, sent) && p.Returned?
    ensures p.result == if sent then SendResult(len) else Sent(-1)
  {
  }

  // ---------------------------------------------------------------- kafka_stats

  function Delivered(k: Kafka, r: Rid): nat {
    if r < |k.records| then Successes(k.records[r].history) else 0
  }

  function Undelivered(k: Kafka, r: Rid): nat {
    if r < |k.records| then Failures(k.records[r].history) else 0
  }

  /** A count of successes that was current at some earlier moment and has been loaded modulo 2^32. */
  predicate Loaded(count: nat, value: nat) {
    value == count % U32_LIMIT
  }

  /** What the points of a call of kafka_stats know of the record's `before` accepted messages. */
  ghost predicate Counting(k: Kafka, p: Pc, r: Rid, before: nat) {
    && before <= Accepted(k, r)
    && match p
       case StatsFlushing(q, base) => q == r && base == before
       case StatsFirst(q, base, drained) =>
         q == r && base == before && (drained ==> before <= Delivered(k, r) + Undelivered(k, r))
       case StatsSecond(q, base, drained, loaded) =>
         && q == r && base == before
         && exists count | 0 <= count <= Delivered(k, r) ::
              Loaded(count, loaded) && (drained ==> before <= count + Undelivered(k, r))
       case _ => false
  }

  /** Accepted and reported messages of a record are only ever added to. */
  lemma CountsGrow(s: State, a: Action, r: Rid)
    requires Enabled(s, a)
    ensures Accepted(s.k, r) <= Accepted(Do(s, a).k, r)
    ensures Delivered(s.k, r) <= Delivered(Do(s, a).k, r)
    ensures Undelivered(s.k, r) <= Undelivered(Do(s, a).k, r)
  {
    AcceptedStep(s, a, r);
    if r < |s.k.records| {
      HistoryGrows(s, a, r);
      hide Do, Enabled;
    }
  }

  lemma HistoryGrows(s: State, a: Action, r: Rid)
    requires Enabled(s, a) && r < |s.k.records|
    ensures r < |Do(s, a).k.records|
    ensures Successes(s.k.records[r].history) <= Successes(Do(s, a).k.records[r].history)
    ensures Failures(s.k.records[r].history) <= Failures(Do(s, a).k.records[r].history)
  {
    hide Successes, Failures;
    if Rewrites(s, a) != Some(r) {
      OthersStay(s, a, r);
    } else if a.Deliver? {
      ReportsExtend(s.k.records[r].history, Report(a.err, a.now));
    } else {
      ReportsExtend(s.k.records[r].history, Disposed);
      StepCases(s.k, s.pc[a.t], a.choice);
      hide Step;
    }
  }

  lemma CountingGrows(k: Kafka, k': Kafka, p: Pc, r: Rid, before: nat)
    requires Counting(k, p, r, before)
    requires Accepted(k, r) <= Accepted(k', r) && Delivered(k, r) <= Delivered(k', r) && Undelivered(k, r) <= Undelivered(k', r)
    ensures Counting(k', p, r, before)
  {
    hide Accepted, Delivered, Undelivered;
  }

  lemma StatsStep(k: Kafka, p: Pc, c: Choice, r: Rid, before: nat)
    requires TableInv(k, Idle) && Ready(k, p, c) && Counting(k, p, r, before) && r in k.topics && !p.StatsSecond?
    ensures Counting(Step(k, p, c).0, Step(k, p, c).1, r, before)
  {
    assert r < |k.records| && k.places[r] == Registered && k.producer.Some?;
    assert k.accounts[r].accepted == Reports(k.records[r].history) + k.queue[r] + k.accounts[r].dropped;
    assert k.accounts[r].dropped == 0;
    hide TableInv;
    CountersCount(k.records[r].history);
    if p.StatsFirst? {
      assert Loaded(Delivered(k, r), CountersOf(k, r).transferred);
    }
  }

  lemma CountingHolds(s: State, t: Tid, r: Rid, before: nat)
    requires Inv(s) && t in s.pc && Counting(s.k, s.pc[t], r, before)
    ensures Holds(s.pc[t]) == Read && !s.pc[t].Leave? && r in s.k.topics && WriterPc(s) == Idle && TableInv(s.k, Idle)
  {
  }

  lemma SecondLoad(k: Kafka, p: Pc, c: Choice, r: Rid, before: nat)
    requires TableInv(k, Idle) && p.StatsSecond? && Counting(k, p, r, before) && r in k.topics
    ensures Ready(k, p, c)
    ensures var shown := Step(k, p, c).1;
            && shown.Leave? && shown.next.Returned? && shown.next.result.Counts?
            && var sum := shown.next.result.transferred + shown.next.result.failed;
            && (Delivered(k, r) < U32_LIMIT && Undelivered(k, r) < U32_LIMIT ==>
                  shown.next.result.failed == Undelivered(k, r) && sum <= Accepted(k, r) && (p.drained ==> before <= sum))
  {
    assert r < |k.records| && k.accounts[r].accepted >= Reports(k.records[r].history);
    CountersCount(k.records[r].history);
    hide TableInv, CountersOf, Accepted, Delivered, Undelivered;
    if Delivered(k, r) < U32_LIMIT {
      ShownSum(k, p, r, before);
    }
  }

  lemma ShownSum(k: Kafka, p: Pc, r: Rid, before: nat)
    requires Counting(k, p, r, before) && p.StatsSecond? && r < |k.records|
    requires Delivered(k, r) < U32_LIMIT && Undelivered(k, r) + Delivered(k, r) <= Accepted(k, r)
    ensures p.loaded + Undelivered(k, r) <= Accepted(k, r)
    ensures p.drained ==> before <= p.loaded + Undelivered(k, r)
  {
    hide Accepted, Delivered, Undelivered;
  }

  // ---------------------------------------------------------------- a whole call of kafka_stats

  /** The session is about to take a step of its own, under the lock. */
  datatype Moment = Moment(k: Kafka, p: Pc)

  function Moments(s: State, run: seq<Action>, t: Tid): seq<Moment>
    requires IsRun(s, run)
    decreases |run|
  {
    if run == [] then []
    else MomentOf(s, run[0], t) + Moments(Do(s, run[0]), run[1..], t)
  }

  function MomentOf(s: State, a: Action, t: Tid): seq<Moment> {
    if a.Work? && a.t == t && t in s.pc then [Moment(s.k, s.pc[t])] else []
  }

  function Found(k: Kafka, name: string): Rid
    requires Has(k, name)
  {
    k.topics[Lookup(k, name)]
  }

  ghost predicate NoFewer(k: Kafka, now: Kafka) {
    forall r: Rid :: Accepted(k, r) <= Accepted(now, r)
  }

  /** The two numbers shown: `flushed` is when the flush returned, `loading` when the successes were read, and
      `loaded` when the failures were. */
  ghost predicate Shown(result: Result, r: Rid, before: nat, flushed: Kafka, loading: Kafka, loaded: Kafka) {
    && result.Counts?
    && result.transferred == Delivered(loading, r) % U32_LIMIT
    && result.failed == Undelivered(loaded, r) % U32_LIMIT
    && (Delivered(loaded, r) < U32_LIMIT && Undelivered(loaded, r) < U32_LIMIT ==>
          && result.failed == Undelivered(loaded, r)
          && result.transferred + result.failed <= Accepted(loaded, r)
          && (|flushed.queue| == 0 ==> before <= result.transferred + result.failed))
  }

  /** Where a call of kafka_stats is, and what is known by then. */
  ghost predicate InStats(k0: Kafka, m: seq<Moment>, k: Kafka, p: Pc, name: string) {
    if m == [] then p in {Wait(Stats(name)), Inside(Stats(name))} && NoFewer(k0, k)
    else
      && m[0].p == Inside(Stats(name)) && NoFewer(k0, m[0].k)
      && if !Has(m[0].k, name) then p in {Leave(Read, Returned(Counts(0, 0))), Returned(Counts(0, 0))}
         else
           var r := Found(m[0].k, name);
           RegisteredAs(m[0].k, r, name) && OnRecord(m, k, p, r, Accepted(m[0].k, r))
  }

  ghost predicate OnRecord(m: seq<Moment>, k: Kafka, p: Pc, r: Rid, before: nat) {
    if p.StatsFlushing? then |m| == 1 && Counting(k, p, r, before)
    else if p.StatsFirst? || p.StatsSecond? then
      && |m| == (if p.StatsFirst? then 2 else 3)
      && m[1].p.StatsFlushing? && Counting(k, p, r, before) && p.drained == (|m[1].k.queue| == 0)
      && (p.StatsSecond? ==> m[2].p.StatsFirst? && p.loaded == Delivered(m[2].k, r) % U32_LIMIT)
    else
      && |m| == 4 && m[1].p.StatsFlushing? && m[3].p.StatsSecond?
      && (p.Returned? || (p.Leave? && p.mode == Read && p.next.Returned?))
      && m[2].p.StatsFirst?
      && Shown(if p.Leave? then p.next.result else p.result, r, before, m[1].k, m[2].k, m[3].k)
  }

  /** Its own step. */
  lemma StatsWork(k0: Kafka, m: seq<Moment>, k: Kafka, p: Pc, c: Choice, name: string)
    requires InStats(k0, m, k, p, name) && Ready(k, p, c)
    requires p.StatsFlushing? || p.StatsFirst? || p.StatsSecond? ==> TableInv(k, Idle) && p.rid in k.topics
    ensures InStats(k0, m + [Moment(k, p)], Step(k, p, c).0, Step(k, p, c).1, name)
  {
    var m' := m + [Moment(k, p)];
    if p.Inside? {
      hide Counting, TableInv, Shown, Lookup;
      LooksUp(k, name);
    } else {
      var r := Found(m[0].k, name);
      LoadWork(m, k, p, c, r, Accepted(m[0].k, r));
      hide Counting, TableInv, Shown, Step, OnRecord, Lookup, NoFewer;
      assert m'[0] == m[0];
    }
  }

  lemma LooksUp(k: Kafka, name: string)
    ensures Has(k, name) ==>
              var r := Found(k, name);
              && RegisteredAs(k, r, name) && StepStats(k, name) == (k, StatsFlushing(r, Accepted(k, r)))
              && Counting(k, StatsFlushing(r, Accepted(k, r)), r, Accepted(k, r))
    ensures !Has(k, name) ==> StepStats(k, name) == (k, Leave(Read, Returned(Counts(0, 0))))
  {
    LookupRegistered(k, name);
  }

  lemma LoadsCounters(k: Kafka, p: Pc, c: Choice, r: Rid)
    requires Ready(k, p, c) && (p.StatsFlushing? || p.StatsFirst? || p.StatsSecond?) && p.rid == r && r < |k.records|
    ensures p.StatsFirst? ==> Step(k, p, c).1 == StatsSecond(r, p.base, p.drained, Delivered(k, r) % U32_LIMIT)
    ensures p.StatsSecond? ==> Step(k, p, c).1 == Leave(Read, Returned(Counts(p.loaded, Undelivered(k, r) % U32_LIMIT)))
  {
    CountersCount(k.records[r].history);
    hide Replay;
  }

  lemma LoadWork(m: seq<Moment>, k: Kafka, p: Pc, c: Choice, r: Rid, before: nat)
    requires Ready(k, p, c) && !p.Inside? && OnRecord(m, k, p, r, before)
    requires p.StatsFlushing? || p.StatsFirst? || p.StatsSecond? ==> TableInv(k, Idle) && p.rid in k.topics
    ensures OnRecord(m + [Moment(k, p)], Step(k, p, c).0, Step(k, p, c).1, r, before)
  {
    hide TableInv, Accepted, Delivered, Undelivered, CountersOf;
    assert p.StatsFlushing? || p.StatsFirst? || p.StatsSecond?;
    assert p.rid == r;
    LoadsCounters(k, p, c, r);
    if p.StatsSecond? {
      hide Counting;
      SecondLoad(k, p, c, r, before);
    } else {
      StatsStep(k, p, c, r, before);
      hide Counting;
    }
  }

  /** Another thread's step, or its own on the lock. */
  lemma StatsOther(k0: Kafka, m: seq<Moment>, k: Kafka, k': Kafka, p: Pc, name: string)
    requires InStats(k0, m, k, p, name)
    requires forall r: Rid :: Accepted(k, r) <= Accepted(k', r)
    requires forall r: Rid :: Delivered(k, r) <= Delivered(k', r)
    requires forall r: Rid :: Undelivered(k, r) <= Undelivered(k', r)
    ensures InStats(k0, m, k', p, name)
  {
    hide Accepted, Delivered, Undelivered, Lookup, Counting, Shown;
    if m != [] && Has(m[0].k, name) {
      var r := Found(m[0].k, name);
      if p.StatsFlushing? || p.StatsFirst? || p.StatsSecond? {
        CountingGrows(k, k', p, r, Accepted(m[0].k, r));
      }
    }
  }

  lemma StatsLock(s: State, a: Action, t: Tid, k0: Kafka, m: seq<Moment>, name: string)
    requires Enabled(s, a) && t in s.pc && InStats(k0, m, s.k, s.pc[t], name)
    requires a == Acquire(t) || a == Unlock(t)
    ensures t in Do(s, a).pc && InStats(k0, m, Do(s, a).k, Do(s, a).pc[t], name)
  {
    hide Accepted, Counting, Shown, Lookup, NoFewer;
  }

  lemma StatsAt(s: State, t: Tid, k0: Kafka, m: seq<Moment>, name: string)
    requires Inv(s) && t in s.pc && InStats(k0, m, s.k, s.pc[t], name)
    ensures !s.pc[t].Idle?
    ensures s.pc[t].StatsFlushing? || s.pc[t].StatsFirst? || s.pc[t].StatsSecond? ==>
              TableInv(s.k, Idle) && s.pc[t].rid in s.k.topics
  {
    hide Accepted, Counting, Shown, Lookup, NoFewer, TableInv;
    if s.pc[t].StatsFlushing? || s.pc[t].StatsFirst? || s.pc[t].StatsSecond? {
      assert Holds(s.pc[t]) == Read && InUse(s.pc[t]) == Some(s.pc[t].rid);
    }
  }

  lemma StaysPut(s: State, a: Action, t: Tid)
    requires Enabled(s, a) && t in s.pc && !s.pc[t].Idle?
    requires a != Acquire(t) && a != Unlock(t) && a != Finish(t) && !(a.Work? && a.t == t)
    ensures t in Do(s, a).pc && Do(s, a).pc[t] == s.pc[t]
  {
    hide Step, Ready;
  }

  lemma OwnWork(s: State, t: Tid, c: Choice)
    requires t in s.pc && Enabled(s, Work(t, c))
    ensures Ready(s.k, s.pc[t], c)
    ensures t in Do(s, Work(t, c)).pc
    ensures (Do(s, Work(t, c)).k, Do(s, Work(t, c)).pc[t]) == Step(s.k, s.pc[t], c)
    ensures MomentOf(s, Work(t, c), t) == [Moment(s.k, s.pc[t])]
  {
    hide Step, Ready;
  }

  lemma StatsAction(s: State, a: Action, t: Tid, k0: Kafka, m: seq<Moment>, name: string)
    requires Inv(s) && Enabled(s, a) && t in s.pc && a != Finish(t) && InStats(k0, m, s.k, s.pc[t], name)
    ensures t in Do(s, a).pc && InStats(k0, m + MomentOf(s, a, t), Do(s, a).k, Do(s, a).pc[t], name)
  {
    StatsAt(s, t, k0, m, name);
    hide Inv, InStats, Do, Enabled, Step, Ready, TableInv;
    if a.Work? && a.t == t {
      OwnWork(s, t, a.choice);
      StatsWork(k0, m, s.k, s.pc[t], a.choice, name);
    } else {
      assert MomentOf(s, a, t) == [] && m + [] == m;
      if a == Acquire(t) || a == Unlock(t) {
        StatsLock(s, a, t, k0, m, name);
      } else {
        StaysPut(s, a, t);
        StatsMeanwhile(s, a, t, k0, m, name);
      }
    }
  }

  lemma StatsMeanwhile(s: State, a: Action, t: Tid, k0: Kafka, m: seq<Moment>, name: string)
    requires Inv(s) && Enabled(s, a) && t in s.pc && InStats(k0, m, s.k, s.pc[t], name)
    ensures InStats(k0, m, Do(s, a).k, s.pc[t], name)
  {
    hide Inv, InStats, Do, Enabled, Accepted, Delivered, Undelivered;
    forall r: Rid
      ensures Accepted(s.k, r) <= Accepted(Do(s, a).k, r)
      ensures Delivered(s.k, r) <= Delivered(Do(s, a).k, r)
      ensures Undelivered(s.k, r) <= Undelivered(Do(s, a).k, r)
    {
      CountsGrow(s, a, r);
    }
    StatsOther(k0, m, s.k, Do(s, a).k, s.pc[t], name);
  }

  lemma {:induction false} StatsRun(s: State, run: seq<Action>, t: Tid, k0: Kafka, m: seq<Moment>, name: string)
    requires Inv(s) && IsRun(s, run) && t in s.pc && Finish(t) !in run && InStats(k0, m, s.k, s.pc[t], name)
    ensures var s' := After(s, run); t in s'.pc && InStats(k0, m + Moments(s, run, t), s'.k, s'.pc[t], name)
    decreases |run|
  {
    hide Inv, InStats, Do, Enabled, MomentOf;
    if run == [] {
      assert m + [] == m;
    } else {
      StatsAction(s, run[0], t, k0, m, name);
      ActionInv(s, run[0]);
      var m' := m + MomentOf(s, run[0], t);
      StatsRun(Do(s, run[0]), run[1..], t, k0, m', name);
      assert m' + Moments(Do(s, run[0]), run[1..], t) == m + Moments(s, run, t);
    }
  }

  /** kafka_stats, from the moment it is called to the moment it returns, while other sessions keep producing
      and callbacks keep coming.  Its first step looks the name up.  If the name is not there, the answer is
      two zeroes.  If it is, its second step is the return from the flush and its fourth the second load; the
      answer then adds up to at most the messages accepted on that record by the second load, and, if the flush
      saw the queue drained, to at least those accepted by the lookup, and so before the call; counters
      below 2^32. */
  lemma KafkaStats(s: State, run: seq<Action>, t: Tid, name: string)
    requires Reachable(s) && IsRun(s, run) && t in s.pc && s.pc[t] == Wait(Stats(name)) && Finish(t) !in run
    requires t in After(s, run).pc && After(s, run).pc[t].Returned?
    ensures var m := Moments(s, run, t);
            var result := After(s, run).pc[t].result;
            && m != [] && m[0].p == Inside(Stats(name))
            && (!Has(m[0].k, name) ==> result == Counts(0, 0))
            && (Has(m[0].k, name) ==>
                  var r := Found(m[0].k, name);
                  && |m| == 4 && m[1].p.StatsFlushing? && m[3].p.StatsSecond? && RegisteredAs(m[0].k, r, name)
                  && Accepted(s.k, r) <= Accepted(m[0].k, r)
                  && Shown(result, r, Accepted(m[0].k, r), m[1].k, m[2].k, m[3].k))
  {
    hide Inv, IsRun, After, Moments, Reachable, Shown, Counting, Lookup;
    ReachableInv(s);
    assert InStats(s.k, [], s.k, s.pc[t], name);
    StatsRun(s, run, t, s.k, [], name);
    assert [] + Moments(s, run, t) == Moments(s, run, t);
  }
}
