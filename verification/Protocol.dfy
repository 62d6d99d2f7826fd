/** The interleaved system: sessions calling into the table under one read/write lock, the poll
    thread, and delivery callbacks (kafka-table.c, kafka-engine.c, kafka-cmd-send.c).

    A state holds the lock, the table, the heap of topic records, librdkafka's out queue and one
    program point per session.  An action is one step of one thread; `Do` is its effect.  A record
    is named by its index in the heap, which stands for its address: a queued message is just such
    an address, the delivery report opaque.

    What is assumed of librdkafka: only a produce call that succeeds adds a message, exactly one;
    a message counts in the queue length until its callback has returned; a callback is one step of
    a thread that polls, flushes or destroys; destroying serves or drops what is still queued. */
module Protocol {
  import opened Delivery
  import opened GrowArray
  import opened Options

  type Tid = nat   // a session
  type Rid = nat   // the address of a topic record

  /** Where a record is.  Nothing in the program reads this: it is bookkeeping for the theorems. */
  datatype Place = Registered | Held | Parked | Leaked | Freed

  /** tek_topic_t: its counters and throttle fields are the replay of what happened to it. */
  datatype Topic = Topic(name: string, handle: bool, owner: nat, history: seq<Event>)

  /** Messages produced with a record's address, and those of them that were dropped. */
  datatype Account = Account(accepted: nat, dropped: nat)

  datatype Poller = Polling | Exited

  /** tek_kafka_t.  `started` is thread_started; the poll thread leaves its loop once `running` is false. */
  datatype Producer = Producer(id: nat, rk: bool, conf: bool, running: bool, started: bool, poller: Poller)

  datatype Op =
    | Connect
    | Exists(topic: string, len: nat)    // first step of kafka_send
    | Create(topic: string, len: nat)    // second
    | Send(topic: string, len: nat)      // third
    | Dismiss(topic: string)
    | DismissAll
    | Stats(topic: string)

  datatype Mode = Unlocked | Read | Write

  datatype Result =
    | Sent(size: int)
    | Status(code: int)
    | Counts(transferred: nat, failed: nat)

  /** Program points. */
  datatype Pc =
    | Idle
    | Wait(op: Op)                               // about to take the lock
    | Inside(op: Op)                             // has just taken it
    | Leave(mode: Mode, next: Pc)                // about to release it
    | Returned(result: Result)
    | ReapCheck(next: Pc) | ReapFree(i: nat, next: Pc)
    | Producing(rid: Rid, len: nat) | Retrying(rid: Rid, len: nat) | Draining(rid: Rid, len: nat)
    | Flushing(idx: nat) | Taking(idx: nat) | Disposing(rid: Rid) | Deciding(rid: Rid) | Freeing(rid: Rid)
    | AllFlushing | AllDisposing(i: nat) | AllStopping | AllJoining | AllDestroying
    | AllFreeing(i: nat) | AllReaping(i: nat)
    | StatsFlushing(rid: Rid, base: nat)
    | StatsFirst(rid: Rid, base: nat, drained: bool)
    | StatsSecond(rid: Rid, base: nat, drained: bool, loaded: nat)

  /** kafka_tables_t together with the heap of records and librdkafka's out queue. */
  datatype Tables = Tables(
    producer: Option<Producer>, nextId: nat,
    topics: seq<Rid>, retired: seq<Rid>, records: seq<Topic>,
    queue: multiset<Rid>, limit: nat,
    places: seq<Place>, accounts: seq<Account>)

  type Kafka = k: Tables | |k.places| == |k.accounts| == |k.records|
    witness Tables(None, 0, [], [], [], multiset{}, 1, [], [])

  datatype State = State(readers: set<Tid>, writer: Option<Tid>, pc: map<Tid, Pc>, k: Kafka)

  datatype Outcome = Queued | QueueFull | Refused

  /** What the outside decides about a step: whether memory was granted, whether librdkafka built
      the object asked for, and what the produce call answered. */
  datatype Choice = Choice(granted: bool, built: bool, outcome: Outcome)

  datatype Agent = PollThread | Session(t: Tid)

  datatype Action =
    | Begin(t: Tid, op: Op)
    | Acquire(t: Tid)
    | Work(t: Tid, choice: Choice)
    | Unlock(t: Tid)
    | Finish(t: Tid)
    | Deliver(agent: Agent, rid: Rid, err: int, now: int)
    | PollExit

  // ---------------------------------------------------------------- program points

  function LockMode(op: Op): Mode {
    match op
    case Exists(_, _) => Read
    case Send(_, _) => Read
    case Stats(_) => Read
    case _ => Write
  }

  /** How a session at this point holds the lock. */
  function Holds(p: Pc): Mode {
    match p
    case Idle => Unlocked
    case Wait(_) => Unlocked
    case Returned(_) => Unlocked
    case Inside(op) => LockMode(op)
    case Leave(mode, _) => mode
    case Producing(_, _) => Read
    case Retrying(_, _) => Read
    case Draining(_, _) => Read
    case StatsFlushing(_, _) => Read
    case StatsFirst(_, _, _) => Read
    case StatsSecond(_, _, _, _) => Read
    case _ => Write
  }

  /** Calls to librdkafka that serve delivery reports on the calling thread. */
  predicate Serves(p: Pc) {
    p.Retrying? || p.Draining? || p.Flushing? || p.AllFlushing? || p.StatsFlushing? || p.AllDestroying?
  }

  /** (int) datalen */
  function ToInt32(n: nat): (r: int)
    ensures -0x8000_0000 <= r < 0x8000_0000 && (n - r) % 0x1_0000_0000 == 0
  {
    var m := n % U32_LIMIT;
    if m < U32_LIMIT / 2 then m else m - U32_LIMIT
  }

  function SendResult(len: nat): Result {
    Sent(if ToInt32(len) < 0 then -1 else ToInt32(len))
  }

  // ---------------------------------------------------------------- the steps of the code

  function Move(k: Kafka, r: Rid, place: Place): Kafka
    requires r < |k.records|
  {
    k.(places := k.places[r := place])
  }

  function Happened(k: Kafka, r: Rid, e: Event): Kafka
    requires r < |k.records|
  {
    k.(records := k.records[r := k.records[r].(history := k.records[r].history + [e])])
  }

  /** The shared test of kafka_table_reap_retired_locked and kafka_table_remove_locked. */
  predicate Busy(k: Kafka) {
    k.producer.Some? && k.producer.value.rk && |k.queue| > 0
  }

  predicate Named(k: Kafka, r: Rid, name: string) {
    r < |k.records| && k.records[r].name == name
  }

  /** kafka_table_find_locked: index of the first topic with that name, or their number. */
  function Lookup(k: Kafka, name: string): (i: nat)
    ensures i <= |k.topics|
    ensures i < |k.topics| ==> Named(k, k.topics[i], name)
    ensures forall j | 0 <= j < i :: !Named(k, k.topics[j], name)
  {
    LookupFrom(k, name, 0)
  }

  function LookupFrom(k: Kafka, name: string, i: nat): (found: nat)
    requires i <= |k.topics|
    ensures i <= found <= |k.topics|
    ensures found < |k.topics| ==> Named(k, k.topics[found], name)
    ensures forall j | i <= j < found :: !Named(k, k.topics[j], name)
    decreases |k.topics| - i
  {
    if i == |k.topics| || Named(k, k.topics[i], name) then i else LookupFrom(k, name, i + 1)
  }

  predicate Has(k: Kafka, name: string) {
    Lookup(k, name) < |k.topics|
  }

  function StepConnect(k: Kafka, c: Choice): (Kafka, Pc) {
    if k.producer.Some? || !c.built then (k, Leave(Write, Returned(Status(-1))))
    else
      var made := Producer(k.nextId, true, false, true, true, Polling);
      (k.(producer := Some(made), nextId := k.nextId + 1), Leave(Write, Returned(Status(0))))
  }

  function StepExists(k: Kafka, topic: string, len: nat): (Kafka, Pc) {
    (k, Leave(Read, Wait(if Has(k, topic) then Send(topic, len) else Create(topic, len))))
  }

  function StepCreate(k: Kafka, topic: string, len: nat, c: Choice): (Kafka, Pc) {
    if Has(k, topic) then (k, ReapCheck(Wait(Send(topic, len))))
    else if k.producer.None? || !c.granted || !k.producer.value.rk || topic == "" || !c.built then
      (k, ReapCheck(Returned(Sent(-1))))
    else
      var made := Topic(topic, true, k.producer.value.id, []);
      (k.(records := k.records + [made], places := k.places + [Registered], accounts := k.accounts + [Account(0, 0)],
          topics := k.topics + [|k.records|]),
       ReapCheck(Wait(Send(topic, len))))
  }

  /** The producer a record borrows is the live one. */
  predicate Borrows(k: Kafka, r: Rid) {
    r < |k.records| && k.producer.Some? && k.producer.value.id == k.records[r].owner && k.producer.value.rk
  }

  /** The guard of tek_kafka_topic_feed. */
  predicate Feedable(k: Kafka, r: Rid) {
    Borrows(k, r) && k.records[r].handle
  }

  function StepSend(k: Kafka, topic: string, len: nat): (Kafka, Pc) {
    var i := Lookup(k, topic);
    if i < |k.topics| && Feedable(k, k.topics[i]) then (k, Producing(k.topics[i], len))
    else (k, Leave(Read, Returned(Sent(-1))))
  }

  function StepProduce(k: Kafka, r: Rid, len: nat, outcome: Outcome): (Kafka, Pc)
    requires r < |k.records|
  {
    match outcome
    case QueueFull => (k, Retrying(r, len))
    case Refused => (k, Leave(Read, Returned(Sent(-1))))
    case Queued =>
      var taken := k.accounts[r].(accepted := k.accounts[r].accepted + 1);
      (k.(queue := k.queue + multiset{r}, accounts := k.accounts[r := taken]), Draining(r, len))
  }

  function StepDismiss(k: Kafka, topic: string): (Kafka, Pc) {
    (k, if Has(k, topic) then Flushing(Lookup(k, topic)) else ReapCheck(Returned(Status(-1))))
  }

  function StepTake(k: Kafka, idx: nat): (Kafka, Pc)
    requires idx < |k.topics| && k.topics[idx] < |k.records|
  {
    (Move(k, k.topics[idx], Held).(topics := SwapRemove(k.topics, idx)), Disposing(k.topics[idx]))
  }

  /** tek_kafka_topic_dispose */
  function Dispose(k: Kafka, r: Rid): Kafka
    requires r < |k.records|
  {
    k.(records := k.records[r := k.records[r].(handle := false, history := k.records[r].history + [Disposed])])
  }

  function StepDecide(k: Kafka, r: Rid, c: Choice): (Kafka, Pc)
    requires r < |k.records|
  {
    if !Busy(k) then (k, Freeing(r))
    else if c.granted then (Move(k, r, Parked).(retired := k.retired + [r]), ReapCheck(Returned(Status(0))))
    else (Move(k, r, Leaked), ReapCheck(Returned(Status(0))))
  }

  function StepReapCheck(k: Kafka, next: Pc): (Kafka, Pc) {
    (k, if k.retired == [] || Busy(k) then Leave(Write, next) else ReapFree(0, next))
  }

  function StepReapFree(k: Kafka, i: nat, next: Pc): (Kafka, Pc)
    requires i < |k.retired| ==> k.retired[i] < |k.records|
  {
    if i < |k.retired| then (Move(k, k.retired[i], Freed), ReapFree(i + 1, next))
    else (k.(retired := []), Leave(Write, next))
  }

  function StepAllDispose(k: Kafka, i: nat): (Kafka, Pc)
    requires i < |k.topics| ==> k.topics[i] < |k.records|
  {
    if i < |k.topics| then (Dispose(k, k.topics[i]), AllDisposing(i + 1))
    else (k, if k.producer.Some? then AllStopping else AllFreeing(0))
  }

  /** rd_kafka_destroy: what it did not serve is dropped. */
  function StepDestroy(k: Kafka): (Kafka, Pc) {
    var dropped := seq(|k.accounts|, r requires 0 <= r < |k.accounts| =>
                       k.accounts[r].(dropped := k.accounts[r].dropped + k.queue[r]));
    (k.(accounts := dropped, queue := multiset{}, producer := None), AllFreeing(0))
  }

  function StepAllFree(k: Kafka, i: nat): (Kafka, Pc)
    requires i < |k.topics| ==> k.topics[i] < |k.records|
  {
    if i < |k.topics| then (Move(k, k.topics[i], Freed), AllFreeing(i + 1))
    else (k.(topics := []), AllReaping(0))
  }

  function StepAllReap(k: Kafka, i: nat): (Kafka, Pc)
    requires i < |k.retired| ==> k.retired[i] < |k.records|
  {
    if i < |k.retired| then (Move(k, k.retired[i], Freed), AllReaping(i + 1))
    else (k.(retired := []), Leave(Write, Returned(Status(0))))
  }

  function StepStats(k: Kafka, topic: string): (Kafka, Pc) {
    var i := Lookup(k, topic);
    if i < |k.topics| && k.topics[i] < |k.records| then
      (k, StatsFlushing(k.topics[i], k.accounts[k.topics[i]].accepted))
    else (k, Leave(Read, Returned(Counts(0, 0))))
  }

  /** The counters of a record are the replay of its history. */
  function CountersOf(k: Kafka, r: Rid): Counters
    requires r < |k.records|
  {
    Replay(k.records[r].history)
  }

  /** A session at this point can take a step: it is inside the lock, the step is not blocked, every
      address the step uses is one that was handed out, and what it hands to librdkafka, the record's
      topic handle or the producer it borrows, is alive. */
  predicate Ready(k: Kafka, p: Pc, c: Choice) {
    match p
    case Inside(_) => true
    case ReapCheck(_) => true
    case ReapFree(i, _) => i < |k.retired| ==> k.retired[i] < |k.records|
    case Producing(r, _) =>
      && Feedable(k, r)
      && (c.outcome.Queued? ==> |k.queue| < k.limit)
      && (c.outcome.QueueFull? ==> |k.queue| > 0)
    case Retrying(_, _) => true
    case Draining(_, _) => true
    case Flushing(_) => true
    case Taking(idx) => idx < |k.topics| && k.topics[idx] < |k.records|
    case Disposing(r) => r < |k.records|
    case Deciding(r) => r < |k.records|
    case Freeing(r) => r < |k.records|
    case AllFlushing => true
    case AllDisposing(i) => i < |k.topics| ==> k.topics[i] < |k.records|
    case AllStopping => k.producer.Some?
    case AllJoining => k.producer.Some? && (k.producer.value.started ==> k.producer.value.poller.Exited?)
    case AllDestroying => k.producer.Some?
    case AllFreeing(i) => i < |k.topics| ==> k.topics[i] < |k.records|
    case AllReaping(i) => i < |k.retired| ==> k.retired[i] < |k.records|
    case StatsFlushing(r, _) => Borrows(k, r)
    case StatsFirst(r, _, _) => r < |k.records|
    case StatsSecond(r, _, _, _) => r < |k.records|
    case _ => false
  }

  /** One step of a session that holds the lock. */
  function Step(k: Kafka, p: Pc, c: Choice): (Kafka, Pc)
    requires Ready(k, p, c)
  {
    match p
    case Inside(Connect) => StepConnect(k, c)
    case Inside(Exists(topic, len)) => StepExists(k, topic, len)
    case Inside(Create(topic, len)) => StepCreate(k, topic, len, c)
    case Inside(Send(topic, len)) => StepSend(k, topic, len)
    case Inside(Dismiss(topic)) => StepDismiss(k, topic)
    case Inside(DismissAll) => (k, if k.producer.Some? then AllFlushing else AllDisposing(0))
    case Inside(Stats(topic)) => StepStats(k, topic)
    case ReapCheck(next) => StepReapCheck(k, next)
    case ReapFree(i, next) => StepReapFree(k, i, next)
    case Producing(r, len) => StepProduce(k, r, len, c.outcome)
    case Retrying(r, len) => (k, Producing(r, len))
    case Draining(_, len) => (k, Leave(Read, Returned(SendResult(len))))
    case Flushing(idx) => (k, Taking(idx))
    case Taking(idx) => StepTake(k, idx)
    case Disposing(r) => (Dispose(k, r), Deciding(r))
    case Deciding(r) => StepDecide(k, r, c)
    case Freeing(r) => (Move(k, r, Freed), ReapCheck(Returned(Status(0))))
    case AllFlushing => (k, AllDisposing(0))
    case AllDisposing(i) => StepAllDispose(k, i)
    case AllStopping => (k.(producer := Some(k.producer.value.(running := false))), AllJoining)
    case AllJoining => (k.(producer := Some(k.producer.value.(started := false))), AllDestroying)
    case AllDestroying => StepDestroy(k)
    case AllFreeing(i) => StepAllFree(k, i)
    case AllReaping(i) => StepAllReap(k, i)
    case StatsFlushing(r, base) => (k, StatsFirst(r, base, |k.queue| == 0))
    case StatsFirst(r, base, drained) => (k, StatsSecond(r, base, drained, CountersOf(k, r).transferred))
    case StatsSecond(r, _, _, loaded) => (k, Leave(Read, Returned(Counts(loaded, CountersOf(k, r).failed))))
  }

  // ---------------------------------------------------------------- actions

  predicate Entry(op: Op) {
    !op.Create? && !op.Send?
  }

  predicate CanServe(s: State, agent: Agent) {
    match agent
    case PollThread => s.k.producer.Some? && s.k.producer.value.poller.Polling?
    case Session(t) => t in s.pc && Serves(s.pc[t])
  }

  predicate Enabled(s: State, a: Action) {
    match a
    case Begin(t, op) => t in s.pc && s.pc[t].Idle? && Entry(op)
    case Acquire(t) =>
      && t in s.pc && s.pc[t].Wait? && s.writer.None?
      && (LockMode(s.pc[t].op).Write? ==> s.readers == {})
    case Work(t, c) => t in s.pc && Ready(s.k, s.pc[t], c)
    case Unlock(t) => t in s.pc && s.pc[t].Leave?
    case Finish(t) => t in s.pc && s.pc[t].Returned?
    case Deliver(agent, r, _, _) =>
      && s.k.producer.Some? && s.k.producer.value.rk && r in s.k.queue && r < |s.k.records| && CanServe(s, agent)
    case PollExit => s.k.producer.Some? && s.k.producer.value.poller.Polling? && !s.k.producer.value.running
  }

  function Goto(s: State, t: Tid, p: Pc): State {
    s.(pc := s.pc[t := p])
  }

  function Locked(s: State, t: Tid, mode: Mode): State {
    match mode
    case Unlocked => s
    case Read => s.(readers := s.readers + {t})
    case Write => s.(writer := Some(t))
  }

  function Released(s: State, t: Tid, mode: Mode): State {
    match mode
    case Unlocked => s
    case Read => s.(readers := s.readers - {t})
    case Write => s.(writer := None)
  }

  /** A callback: dr_msg_cb runs, and its message has left the queue. */
  function Served(k: Kafka, r: Rid, err: int, now: int): Kafka
    requires r < |k.records|
  {
    Happened(k, r, Report(err, now)).(queue := k.queue - multiset{r})
  }

  function Do(s: State, a: Action): State
    requires Enabled(s, a)
  {
    match a
    case Begin(t, op) =>
      // kafka_table_dismiss refuses an empty name before it takes the lock
      Goto(s, t, if op == Dismiss("") then Returned(Status(-1)) else Wait(op))
    case Acquire(t) => Goto(Locked(s, t, LockMode(s.pc[t].op)), t, Inside(s.pc[t].op))
    case Work(t, c) =>
      var (k', p') := Step(s.k, s.pc[t], c);
      Goto(s.(k := k'), t, p')
    case Unlock(t) => Goto(Released(s, t, s.pc[t].mode), t, s.pc[t].next)
    case Finish(t) => Goto(s, t, Idle)
    case Deliver(_, r, err, now) => s.(k := Served(s.k, r, err, now))
    case PollExit => s.(k := s.k.(producer := Some(s.k.producer.value.(poller := Exited))))
  }

  // ---------------------------------------------------------------- runs

  predicate IsRun(s: State, run: seq<Action>)
    decreases |run|
  {
    run == [] || (Enabled(s, run[0]) && IsRun(Do(s, run[0]), run[1..]))
  }

  function After(s: State, run: seq<Action>): State
    requires IsRun(s, run)
    decreases |run|
  {
    if run == [] then s else After(Do(s, run[0]), run[1..])
  }

  /** Not connected, nothing registered, every session outside. */
  ghost predicate Initial(s: State) {
    && s.readers == {} && s.writer.None?
    && (forall t | t in s.pc :: s.pc[t].Idle?)
    && s.k.producer.None? && s.k.topics == [] && s.k.retired == [] && s.k.records == []
    && s.k.queue == multiset{} && s.k.limit > 0
  }

  lemma {:induction false} RunConcat(s: State, run: seq<Action>, more: seq<Action>)
    requires IsRun(s, run) && IsRun(After(s, run), more)
    ensures IsRun(s, run + more) && After(s, run + more) == After(After(s, run), more)
    decreases |run|
  {
    hide Do, Enabled;
    if run == [] {
      assert run + more == more;
    } else {
      RunConcat(Do(s, run[0]), run[1..], more);
      assert (run + more)[1..] == run[1..] + more;
    }
  }
}
