/** The SQL function kafka_send (kafka-cmd-send.c), on the table as the code keeps it, while any number of
    other sessions take turns between its three separately locked steps. */
module KafkaSend {
  import opened CStrings
  import opened Options
  import opened Protocol
  import opened Invariant
  import opened Safety
  import opened Sessions
  import opened KafkaTable
  import opened Callbacks

  const KAFKA_MAX_TOPIC_LEN: nat := 249

  /** What the outside decides during one call: memory, librdkafka, and the reports it has ready. */
  datatype Outside = Outside(granted: bool, built: bool, reports: seq<Callback>, attempts: seq<Attempt>)

  /** What a session asks for when it is idle. */
  datatype Request = ToConnect | ToSend(topic: string, len: nat) | ToCount(topic: string) | ToDismiss(topic: string) | ToDisconnect

  /** One turn of a session: it begins a call, goes through its next section under the lock, or takes the
      answer of its call. */
  datatype Turn = Turn(u: Tid, request: Request, o: Outside)

  // ---------------------------------------------------------------- the local copy of the name

  /** The counted argument becomes a terminated string of its own. */
  method CopyName(arg: string) returns (topic: string)
    requires |arg| <= KAFKA_MAX_TOPIC_LEN
    ensures topic == CString(arg)
    ensures '\0' !in arg ==> topic == arg
  {
    var buffer := new char[KAFKA_MAX_TOPIC_LEN + 1];
    for i := 0 to |arg|
      invariant buffer[..i] == arg[..i]
    {
      buffer[i] := arg[i];
    }
    buffer[|arg|] := '\0';
    topic := CString(buffer[..]);
    assert buffer[..] == arg + ['\0'] + buffer[|arg| + 1..];
    CStringTerminated(arg, buffer[|arg| + 1..]);
    if '\0' !in arg {
      CStringWhole(arg);
    }
  }

  // ---------------------------------------------------------------- turns of other sessions

  /** More has happened, but session `t` has not finished a call. */
  ghost predicate Unfinished(before: seq<Action>, now: seq<Action>, t: Tid) {
    before <= now && forall i | |before| <= i < |now| :: now[i] != Finish(t)
  }

  lemma FurtherOn(before: seq<Action>, later: seq<Action>, now: seq<Action>, t: Tid)
    requires Unfinished(before, later, t) && (Unfinished(later, now, t) || Extends(later, now))
    ensures Unfinished(before, now, t)
  {
  }

  lemma SinceThen(before: seq<Action>, now: seq<Action>, t: Tid)
    requires Unfinished(before, now, t)
    ensures |before| <= |now| && now == before + now[|before|..] && Finish(t) !in now[|before|..]
  {
  }

  /** Nobody holds the lock. */
  ghost predicate Quiet(s: State) {
    s.writer.None? && s.readers == {}
  }

  ghost predicate Idles(s: State, u: Tid) {
    u in s.pc && s.pc[u] == Idle
  }

  /** A session takes the answer of its call. */
  method End(kt: KafkaTables, ghost u: Tid, ghost t: Tid)
    requires kt.Valid() && u in kt.world.pc && kt.world.pc[u].Returned? && u != t
    modifies kt`world, kt`trace
    ensures kt.Valid() && Unfinished(old(kt.trace), kt.trace, t)
    ensures kt.world == old(kt.world).(pc := old(kt.world.pc)[u := Idle])
  {
    hide Inv, Reaches;
    kt.Advance(Finish(u));
  }

  /** kafka_stats, by another session. */
  method Asks(kt: KafkaTables, u: Tid, topic: string, o: Outside) returns (p: Pc)
    requires kt.Valid() && Quiet(kt.world) && Idles(kt.world, u)
    modifies kt`records, kt`queue, kt`world, kt`trace
    ensures kt.Valid() && Quiet(kt.world) && Extends(old(kt.trace), kt.trace)
    ensures kt.world.pc == old(kt.world.pc)[u := p]
  {
    hide Inv, Reaches, HeapOf, KafkaTables.Valid, KafkaTables.SumsUp, Has, Lookup, Remaining, Heard;
    kt.Call(u, Op.Stats(topic));
    var transferred, failed, _ := kt.GetStats(u, topic, o.reports, o.reports);
    p := Returned(Counts(transferred, failed));
  }

  /** An idle session begins a call; those that lock once go through with it. */
  method Begins(kt: KafkaTables, u: Tid, request: Request, o: Outside) returns (p: Pc)
    requires kt.Valid() && Quiet(kt.world) && Idles(kt.world, u)
    modifies kt`producer, kt`nextId, kt`records, kt`queue, kt`heap, kt`world, kt`trace
    modifies kt.topics, kt.topics.data, kt.retired, kt.retired.data
    ensures kt.Valid() && Quiet(kt.world) && Extends(old(kt.trace), kt.trace)
    ensures kt.world.pc == old(kt.world.pc)[u := p]
    ensures kt.topics.data == old(kt.topics.data) || fresh(kt.topics.data)
    ensures kt.retired.data == old(kt.retired.data) || fresh(kt.retired.data)
  {
    hide Inv, Reaches, HeapOf, KafkaTables.Valid, Has, Lookup, Remaining, Created, At;
    match request
    case ToSend(topic, len) =>
      kt.Call(u, Op.Exists(topic, len));
      p := Wait(Op.Exists(topic, len));
    case ToConnect =>
      var res := kt.Connect(u, o.built, o.reports);
      p := Returned(Status(res));
    case ToCount(topic) =>
      p := Asks(kt, u, topic, o);
    case ToDismiss(topic) =>
      var res := kt.Dismiss(u, topic, o.granted, o.reports, _ => o.reports);
      p := Returned(Status(res));
    case ToDisconnect =>
      kt.DismissAll(u, o.reports, o.reports, _ => o.reports, o.reports);
      p := Returned(Status(0));
  }

  /** A session in the middle of kafka_send goes through its next section. */
  method Continues(kt: KafkaTables, u: Tid, op: Op, o: Outside) returns (p: Pc)
    requires kt.Valid() && Quiet(kt.world) && u in kt.world.pc && kt.world.pc[u] == Wait(op)
    modifies kt`producer, kt`nextId, kt`records, kt`queue, kt`heap, kt`world, kt`trace
    modifies kt.topics, kt.topics.data, kt.retired, kt.retired.data
    ensures kt.Valid() && Quiet(kt.world) && Extends(old(kt.trace), kt.trace)
    ensures kt.world.pc == old(kt.world.pc)[u := p]
    ensures kt.topics.data == old(kt.topics.data) || fresh(kt.topics.data)
    ensures kt.retired.data == old(kt.retired.data) || fresh(kt.retired.data)
  {
    hide Inv, Reaches, HeapOf, KafkaTables.Valid, Has, Lookup, Remaining, Created, At;
    match op
    case Exists(topic, len) =>
      var found := kt.Exists(u, topic, len);
      p := Wait(if found then Op.Send(topic, len) else Op.Create(topic, len));
    case Create(topic, len) =>
      var res := kt.Create(u, topic, len, o.granted, o.built, o.reports);
      p := if res == 0 then Wait(Op.Send(topic, len)) else Returned(Sent(-1));
    case Send(topic, len) =>
      var res, _ := kt.Send(u, topic, len, o.attempts);
      p := Returned(Sent(res));
    case _ =>
      p := Wait(op);
  }

  /** `pcs` is where every session is. */
  method TakeTurn(kt: KafkaTables, t: Tid, turn: Turn, pcs: map<Tid, Pc>) returns (now: map<Tid, Pc>)
    requires kt.Valid() && Quiet(kt.world) && pcs == kt.world.pc && t in pcs
    modifies kt`producer, kt`nextId, kt`records, kt`queue, kt`heap, kt`world, kt`trace
    modifies kt.topics, kt.topics.data, kt.retired, kt.retired.data
    ensures kt.Valid() && Quiet(kt.world) && Unfinished(old(kt.trace), kt.trace, t)
    ensures now == kt.world.pc && t in now && now[t] == pcs[t]
    ensures kt.topics.data == old(kt.topics.data) || fresh(kt.topics.data)
    ensures kt.retired.data == old(kt.retired.data) || fresh(kt.retired.data)
  {
    hide Inv, Reaches, HeapOf, KafkaTables.Valid;
    var u := turn.u;
    now := pcs;
    if u != t && u in pcs {
      match pcs[u]
      case Idle =>
        var p := Begins(kt, u, turn.request, turn.o);
        now := pcs[u := p];
      case Wait(op) =>
        var p := Continues(kt, u, op, turn.o);
        now := pcs[u := p];
      case Returned(_) =>
        End(kt, u, t);
        now := pcs[u := Idle];
      case _ =>
    }
  }

  method Meanwhile(kt: KafkaTables, t: Tid, turns: seq<Turn>, pcs: map<Tid, Pc>) returns (now: map<Tid, Pc>)
    requires kt.Valid() && Quiet(kt.world) && pcs == kt.world.pc && t in pcs
    modifies kt`producer, kt`nextId, kt`records, kt`queue, kt`heap, kt`world, kt`trace
    modifies kt.topics, kt.topics.data, kt.retired, kt.retired.data
    ensures kt.Valid() && Quiet(kt.world) && Unfinished(old(kt.trace), kt.trace, t)
    ensures turns == [] ==> kt.world == old(kt.world) && kt.topics.count == old(kt.topics.count) && kt.topics.data == old(kt.topics.data)
    ensures now == kt.world.pc && t in now && now[t] == pcs[t]
    ensures kt.topics.data == old(kt.topics.data) || fresh(kt.topics.data)
    ensures kt.retired.data == old(kt.retired.data) || fresh(kt.retired.data)
  {
    hide Inv, Reaches, HeapOf, KafkaTables.Valid;
    now := pcs;
    for i := 0 to |turns|
      invariant kt.Valid() && Quiet(kt.world) && Unfinished(old(kt.trace), kt.trace, t)
      invariant turns == [] ==> kt.world == old(kt.world) && kt.topics.count == old(kt.topics.count) && kt.topics.data == old(kt.topics.data)
      invariant now == kt.world.pc && t in now && now[t] == pcs[t]
      invariant kt.topics.data == old(kt.topics.data) || fresh(kt.topics.data)
      invariant kt.retired.data == old(kt.retired.data) || fresh(kt.retired.data)
    {
      now := TakeTurn(kt, t, turns[i], now);
    }
  }

  /** kafka_table_exists, and kafka_table_create if it has to. */
  method FindTopic(kt: KafkaTables, t: Tid, topic: string, len: nat, o: Outside, turns: seq<Turn>, pcs: map<Tid, Pc>)
    returns (ready: bool, now: map<Tid, Pc>)
    requires kt.Valid() && Quiet(kt.world) && pcs == kt.world.pc
    requires t in pcs && pcs[t] == Wait(Op.Exists(topic, len))
    modifies kt`producer, kt`nextId, kt`records, kt`queue, kt`heap, kt`world, kt`trace
    modifies kt.topics, kt.topics.data, kt.retired, kt.retired.data
    ensures kt.Valid() && Quiet(kt.world) && Unfinished(old(kt.trace), kt.trace, t) && now == kt.world.pc
    ensures t in now && now[t] == if ready then Wait(Op.Send(topic, len)) else Returned(Sent(-1))
    ensures kt.topics.data == old(kt.topics.data) || fresh(kt.topics.data)
    ensures kt.retired.data == old(kt.retired.data) || fresh(kt.retired.data)
    ensures turns == [] ==>
              (ready <==> (old(Has(kt.world.k, topic)) ||
                           (old(kt.world.k.producer).Some? && topic != "" && o.built
                            && (o.granted || old(kt.topics.count < kt.topics.data.Length)))))
    ensures turns == [] && ready ==> Has(kt.world.k, topic)
  {
    hide Inv, Reaches, HeapOf, KafkaTables.Valid, Has;
    ready := kt.Exists(t, topic, len);
    now := pcs[t := Wait(if ready then Op.Send(topic, len) else Op.Create(topic, len))];
    now := Meanwhile(kt, t, turns, now);
    if !ready {
      ready := CreateTopic(kt, t, topic, len, o);
      now := now[t := if ready then Wait(Op.Send(topic, len)) else Returned(Sent(-1))];
    }
  }

  method CreateTopic(kt: KafkaTables, t: Tid, topic: string, ghost len: nat, o: Outside) returns (ready: bool)
    requires kt.Valid() && Quiet(kt.world) && t in kt.world.pc && kt.world.pc[t] == Wait(Op.Create(topic, len))
    modifies kt`records, kt`queue, kt`heap, kt`world, kt`trace, kt.topics, kt.topics.data, kt.retired`count, kt.retired`ops
    ensures kt.Valid() && Quiet(kt.world) && Extends(old(kt.trace), kt.trace)
    ensures kt.world.pc == old(kt.world.pc)[t := if ready then Wait(Op.Send(topic, len)) else Returned(Sent(-1))]
    ensures kt.topics.data == old(kt.topics.data) || fresh(kt.topics.data)
    ensures ready <==> (old(Has(kt.world.k, topic)) ||
                        (old(kt.world.k.producer).Some? && topic != "" && o.built
                         && (o.granted || old(kt.topics.count < kt.topics.data.Length))))
    ensures ready ==> Has(kt.world.k, topic)
  {
    hide Inv, Reaches, HeapOf, KafkaTables.Valid, Has;
    kt.Mirrors();
    if kt.producer.Some? {
      LiveProducer(kt.world);
    }
    var created := kt.Create(t, topic, len, o.granted, o.built, o.reports);
    ready := created == 0;
  }

  lemma LiveProducer(s: State)
    requires Inv(s) && s.k.producer.Some?
    ensures s.k.producer.value.rk
  {
  }

  /** The turns before the third step, and that step. */
  method SendStep(kt: KafkaTables, t: Tid, topic: string, len: nat, o: Outside, turns: seq<Turn>, pcs: map<Tid, Pc>)
    returns (res: int, ghost rounds: seq<Outcome>)
    requires kt.Valid() && Quiet(kt.world) && pcs == kt.world.pc
    requires t in pcs && pcs[t] == Wait(Op.Send(topic, len))
    modifies kt`producer, kt`nextId, kt`records, kt`queue, kt`heap, kt`world, kt`trace
    modifies kt.topics, kt.topics.data, kt.retired, kt.retired.data
    ensures kt.Valid() && Quiet(kt.world) && Unfinished(old(kt.trace), kt.trace, t)
    ensures t in kt.world.pc && kt.world.pc[t] == Returned(Sent(res))
    ensures turns == [] ==> (rounds != [] <==> old(Has(kt.world.k, topic)))
    ensures forall i | 0 <= i < |rounds| - 1 :: rounds[i].QueueFull?
    ensures forall i | 0 <= i < |rounds| :: rounds[i].Refused? <==> i < |o.attempts| && o.attempts[i].answer.Refused?
    ensures rounds != [] ==> !rounds[|rounds| - 1].QueueFull?
    ensures res == if rounds != [] && rounds[|rounds| - 1].Queued? && ToInt32(len) >= 0 then ToInt32(len) else -1
  {
    hide Inv, Reaches, HeapOf, KafkaTables.Valid, Has, ToInt32, Unfinished, Extends;
    var now := Meanwhile(kt, t, turns, pcs);
    ghost var later := kt.trace;
    res, rounds := kt.Send(t, topic, len, o.attempts);
    FurtherOn(old(kt.trace), later, kt.trace, t);
  }

  /** exists, create if need be, send. */
  method SendSteps(kt: KafkaTables, t: Tid, topic: string, len: nat, o: Outside, first: seq<Turn>, second: seq<Turn>, pcs: map<Tid, Pc>)
    returns (res: int, ghost rounds: seq<Outcome>)
    requires kt.Valid() && Quiet(kt.world) && pcs == kt.world.pc
    requires t in pcs && pcs[t] == Wait(Op.Exists(topic, len))
    modifies kt`producer, kt`nextId, kt`records, kt`queue, kt`heap, kt`world, kt`trace
    modifies kt.topics, kt.topics.data, kt.retired, kt.retired.data
    ensures kt.Valid() && Quiet(kt.world) && Unfinished(old(kt.trace), kt.trace, t)
    ensures t in kt.world.pc && kt.world.pc[t] == Returned(Sent(res))
    ensures first == [] && second == [] ==>
              (rounds != [] <==> (old(Has(kt.world.k, topic)) ||
                                  (old(kt.world.k.producer).Some? && topic != "" && o.built
                                   && (o.granted || old(kt.topics.count < kt.topics.data.Length)))))
    ensures forall i | 0 <= i < |rounds| - 1 :: rounds[i].QueueFull?
    ensures forall i | 0 <= i < |rounds| :: rounds[i].Refused? <==> i < |o.attempts| && o.attempts[i].answer.Refused?
    ensures rounds != [] ==> !rounds[|rounds| - 1].QueueFull?
    ensures res == if rounds != [] && rounds[|rounds| - 1].Queued? && ToInt32(len) >= 0 then ToInt32(len) else -1
  {
    hide Inv, Reaches, HeapOf, KafkaTables.Valid, Has, ToInt32, Unfinished, Extends;
    var ready, now := FindTopic(kt, t, topic, len, o, first, pcs);
    if !ready {
      return -1, [];
    }
    ghost var found := kt.trace;
    res, rounds := SendStep(kt, t, topic, len, o, second, now);
    FurtherOn(old(kt.trace), found, kt.trace, t);
  }

  // ---------------------------------------------------------------- the call as a whole

  /** What happened between two moments of a history is a run from the first to the second. */
  lemma {:induction false} RunSplit(s: State, before: seq<Action>, more: seq<Action>)
    requires IsRun(s, before + more)
    ensures IsRun(s, before) && IsRun(After(s, before), more)
    ensures After(After(s, before), more) == After(s, before + more)
    decreases |before|
  {
    if before == [] {
      assert before + more == more;
    } else {
      assert (before + more)[1..] == before[1..] + more;
      RunSplit(Do(s, before[0]), before[1..], more);
    }
  }

  /** Exactly one message was queued, on the record registered under the name at that moment, if the
      result says so; and none if it does not, as long as the length survives the cast to int. */
  ghost predicate ToldTruly(s: State, run: seq<Action>, t: Tid, topic: string, len: nat, res: int)
    requires IsRun(s, run)
  {
    && (res >= 0 ==> res == ToInt32(len) && |Sends(s, run, t)| == 1)
    && (res < 0 && ToInt32(len) >= 0 ==> |Sends(s, run, t)| == 0)
    && |Sends(s, run, t)| <= 1
    && forall q | q in Sends(s, run, t) :: RegisteredAs(q.k, q.rid, topic)
  }

  /** The guard of kafka_send: SQL NULLs and lengths no topic can have; a payload may be empty. */
  predicate Acceptable(arg: Option<string>, payload: Option<nat>) {
    arg.Some? && payload.Some? && 0 < |arg.value| <= KAFKA_MAX_TOPIC_LEN
  }

  /** kafka_send.  `pcs` is where every session is when it is called, `first` and `second` are the turns
      others take between its steps; `s` is the system when the first step is about to lock, `run` what
      happened since, and `rounds` what librdkafka answered in each round of the produce loop, if it came to
      that. */
  method KafkaSend(kt: KafkaTables, t: Tid, arg: Option<string>, payload: Option<nat>, o: Outside,
                   first: seq<Turn>, second: seq<Turn>, pcs: map<Tid, Pc>)
    returns (res: int, error: bool, ghost s: State, ghost run: seq<Action>, ghost rounds: seq<Outcome>)
    requires kt.Valid() && Quiet(kt.world) && Idles(kt.world, t) && pcs == kt.world.pc
    modifies kt`producer, kt`nextId, kt`records, kt`queue, kt`heap, kt`world, kt`trace
    modifies kt.topics, kt.topics.data, kt.retired, kt.retired.data
    ensures kt.Valid() && Quiet(kt.world) && res >= -1 && (error <==> res == -1)
    ensures IsRun(s, run) && After(s, run) == kt.world
    ensures arg.None? || payload.None? || |arg.value| == 0 || |arg.value| > 249 ==>
              res == -1 && run == [] && rounds == [] && kt.trace == old(kt.trace) && kt.world == old(kt.world)
    ensures arg.Some? && payload.Some? && 0 < |arg.value| <= 249 ==>
              var call := Op.Exists(CString(arg.value), payload.value);
              && kt.trace == old(kt.trace) + [Begin(t, call)] + run && Finish(t) !in run
              && s == old(kt.world).(pc := old(kt.world.pc)[t := Wait(call)])
              && t in kt.world.pc && kt.world.pc[t] == Returned(Sent(res))
    ensures arg.Some? && payload.Some? && 0 < |arg.value| <= 249 ==> ToldTruly(s, run, t, CString(arg.value), payload.value, res)
    ensures arg.Some? && payload.Some? && 0 < |arg.value| <= 249 && first == [] && second == [] ==>
              (rounds != [] <==> (old(Has(kt.world.k, CString(arg.value))) ||
                                  (old(kt.world.k.producer).Some? && CString(arg.value) != "" && o.built
                                   && (o.granted || old(kt.topics.count < kt.topics.data.Length)))))
    ensures forall i | 0 <= i < |rounds| - 1 :: rounds[i].QueueFull?
    ensures forall i | 0 <= i < |rounds| :: rounds[i].Refused? <==> i < |o.attempts| && o.attempts[i].answer.Refused?
    ensures rounds != [] ==>
              && !rounds[|rounds| - 1].QueueFull? && payload.Some?
              && (res >= 0 <==> rounds[|rounds| - 1].Queued? && ToInt32(payload.value) >= 0)
    ensures rounds == [] ==> res == -1
  {
    hide Inv, Reaches, HeapOf, KafkaTables.Valid, Sends, CString, IsRun, After, Has, ToInt32, RegisteredAs, ToldTruly;
    s, run, rounds := kt.world, [], [];
    if !Acceptable(arg, payload) {
      Nowhere(s);
      return -1, true, s, run, rounds;
    }
    var topic := CopyName(arg.value);
    res, s, run, rounds := CallSend(kt, t, topic, payload.value, o, first, second, pcs);
    error := res < 0;
  }

  /** The call with arguments that passed the guard. */
  method CallSend(kt: KafkaTables, t: Tid, topic: string, len: nat, o: Outside, first: seq<Turn>, second: seq<Turn>, pcs: map<Tid, Pc>)
    returns (res: int, ghost s: State, ghost run: seq<Action>, ghost rounds: seq<Outcome>)
    requires kt.Valid() && Quiet(kt.world) && Idles(kt.world, t) && pcs == kt.world.pc
    modifies kt`producer, kt`nextId, kt`records, kt`queue, kt`heap, kt`world, kt`trace
    modifies kt.topics, kt.topics.data, kt.retired, kt.retired.data
    ensures kt.Valid() && Quiet(kt.world)
    ensures IsRun(s, run) && After(s, run) == kt.world
    ensures kt.trace == old(kt.trace) + [Begin(t, Op.Exists(topic, len))] + run && Finish(t) !in run
    ensures s == old(kt.world).(pc := old(kt.world.pc)[t := Wait(Op.Exists(topic, len))])
    ensures t in kt.world.pc && kt.world.pc[t] == Returned(Sent(res))
    ensures ToldTruly(s, run, t, topic, len, res)
    ensures first == [] && second == [] ==>
              (rounds != [] <==> (old(Has(kt.world.k, topic)) ||
                                  (old(kt.world.k.producer).Some? && topic != "" && o.built
                                   && (o.granted || old(kt.topics.count < kt.topics.data.Length)))))
    ensures forall i | 0 <= i < |rounds| - 1 :: rounds[i].QueueFull?
    ensures forall i | 0 <= i < |rounds| :: rounds[i].Refused? <==> i < |o.attempts| && o.attempts[i].answer.Refused?
    ensures rounds != [] ==> !rounds[|rounds| - 1].QueueFull?
    ensures res == if rounds != [] && rounds[|rounds| - 1].Queued? && ToInt32(len) >= 0 then ToInt32(len) else -1
  {
    hide Inv, Reaches, HeapOf, KafkaTables.Valid, Sends, IsRun, After, Has, ToInt32, RegisteredAs, ToldTruly, Unfinished;
    kt.Call(t, Op.Exists(topic, len));
    s := kt.world;
    ghost var before := kt.trace;
    kt.Mirrors();
    res, rounds := SendSteps(kt, t, topic, len, o, first, second, pcs[t := Wait(Op.Exists(topic, len))]);
    SinceThen(before, kt.trace, t);
    run := kt.trace[|before|..];
    kt.Mirrors();
    Told(kt, s, before, run, t, topic, len, res);
  }

  lemma Nowhere(s: State)
    ensures IsRun(s, []) && After(s, []) == s
  {
  }

  lemma Told(kt: KafkaTables, s: State, before: seq<Action>, run: seq<Action>, t: Tid, topic: string, len: nat, res: int)
    requires kt.Lives() && Reaches(kt.start, before, s) && kt.trace == before + run && Finish(t) !in run
    requires t in s.pc && s.pc[t] == Wait(Op.Exists(topic, len))
    requires t in kt.world.pc && kt.world.pc[t] == Returned(Sent(res))
    ensures IsRun(s, run) && After(s, run) == kt.world && res >= -1
    ensures ToldTruly(s, run, t, topic, len, res)
    ensures res == -1 || res == ToInt32(len) >= 0
  {
    hide Sends, Inv, Initial;
    RunSplit(kt.start, before, run);
    hide IsRun, After;
    assert Reachable(s);
    Sessions.KafkaSend(s, run, t, topic, len);
  }
}
