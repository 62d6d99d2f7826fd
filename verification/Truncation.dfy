/** The cast of a payload length to int at the end of kafka_table_send, and exactly when the answer of
    kafka_send is the truth. */
module Truncation {
  import opened Delivery
  import opened Options
  import opened Protocol
  import opened Safety
  import opened Sessions

  /** A whole call of kafka_send by session `t`, in any system, with any interference. */
  ghost predicate IsCall(s: State, run: seq<Action>, t: Tid, name: string, len: nat) {
    && Reachable(s) && IsRun(s, run) && Finish(t) !in run
    && t in s.pc && s.pc[t] == Wait(Exists(name, len))
    && t in After(s, run).pc && After(s, run).pc[t].Returned? && After(s, run).pc[t].result.Sent?
  }

  /** The length is returned if and only if exactly one message was queued. */
  ghost predicate Truthful(s: State, run: seq<Action>, t: Tid, name: string, len: nat)
    requires IsCall(s, run, t, name, len)
  {
    After(s, run).pc[t].result == Sent(len) <==> |Sends(s, run, t)| == 1
  }

  // ---------------------------------------------------------------- one session, nobody else

  const GRANTED: Choice := Choice(true, true, Queued)

  function Alone(mode: Mode, p: Pc, k: Kafka): State {
    State(if mode.Read? then {0} else {}, if mode.Write? then Some(0) else None, map[0 := p], k)
  }

  /** A run of that session, and how many messages it has queued in it. */
  ghost predicate Trail(s: State, run: seq<Action>, now: State, sent: nat) {
    IsRun(s, run) && After(s, run) == now && Finish(0) !in run && |Sends(s, run, 0)| == sent
  }

  lemma {:induction false} SendsConcat(s: State, run: seq<Action>, a: Action)
    requires IsRun(s, run) && Enabled(After(s, run), a)
    ensures IsRun(s, run + [a]) && After(s, run + [a]) == Do(After(s, run), a)
    ensures Sends(s, run + [a], 0) == Sends(s, run, 0) + SendOf(After(s, run), a, 0)
    decreases |run|
  {
    hide Do, Enabled, SendOf;
    if run == [] {
      assert [a][1..] == [];
    } else {
      assert (run + [a])[1..] == run[1..] + [a];
      SendsConcat(Do(s, run[0]), run[1..], a);
    }
  }

  lemma Further(s: State, run: seq<Action>, now: State, sent: nat, a: Action)
    requires Trail(s, run, now, sent) && Enabled(now, a) && a != Finish(0)
    ensures Trail(s, run + [a], Do(now, a), sent + |SendOf(now, a, 0)|)
  {
    hide Do, Enabled, SendOf, Sends, IsRun, After;
    SendsConcat(s, run, a);
  }

  lemma Locking(s: State, run: seq<Action>, sent: nat, op: Op, k: Kafka) returns (more: seq<Action>)
    requires Trail(s, run, Alone(Unlocked, Wait(op), k), sent)
    ensures Trail(s, more, Alone(LockMode(op), Inside(op), k), sent)
  {
    var now := Alone(Unlocked, Wait(op), k);
    var a := Acquire(0);
    assert LockMode(op) != Unlocked;
    assert Do(now, a) == Alone(LockMode(op), Inside(op), k);
    assert SendOf(now, a, 0) == [];
    Further(s, run, now, sent, a);
    more := run + [a];
  }

  lemma Working(s: State, run: seq<Action>, sent: nat, mode: Mode, p: Pc, k: Kafka) returns (more: seq<Action>)
    requires Trail(s, run, Alone(mode, p, k), sent) && Ready(k, p, GRANTED)
    ensures var (k', p') := Step(k, p, GRANTED);
            Trail(s, more, Alone(mode, p', k'), sent + if p.Producing? then 1 else 0)
  {
    hide Trail, Step, Ready;
    var now := Alone(mode, p, k);
    var a := Work(0, GRANTED);
    var (k', p') := Step(k, p, GRANTED);
    assert Do(now, a) == Alone(mode, p', k');
    assert |SendOf(now, a, 0)| == if p.Producing? then 1 else 0;
    Further(s, run, now, sent, a);
    more := run + [a];
  }

  lemma Unlocking(s: State, run: seq<Action>, sent: nat, mode: Mode, next: Pc, k: Kafka) returns (more: seq<Action>)
    requires Trail(s, run, Alone(mode, Leave(mode, next), k), sent) && mode != Unlocked
    ensures Trail(s, more, Alone(Unlocked, next, k), sent)
  {
    hide Trail;
    var now := Alone(mode, Leave(mode, next), k);
    var a := Unlock(0);
    assert Do(now, a) == Alone(Unlocked, next, k);
    assert SendOf(now, a, 0) == [];
    Further(s, run, now, sent, a);
    more := run + [a];
  }

  // ---------------------------------------------------------------- a call that succeeds

  const BEFORE: Kafka := Tables(None, 0, [], [], [], multiset{}, 1, [], [])
  const MADE: Producer := Producer(0, true, false, true, true, Polling)
  const CONNECTED: Kafka := BEFORE.(producer := Some(MADE), nextId := 1)

  /** With the topic registered, and `n` messages queued for it. */
  function Registered(n: nat): Kafka {
    CONNECTED.(topics := [0], records := [Topic("t", true, 0, [])], places := [Place.Registered],
               accounts := [Account(n, 0)], queue := multiset{}[0 := n])
  }

  lemma Begun(len: nat)
    ensures Reachable(Alone(Unlocked, Wait(Exists("t", len)), CONNECTED))
  {
    var s0 := Alone(Unlocked, Idle, BEFORE);
    var s1 := Alone(Unlocked, Wait(Connect), BEFORE);
    assert Do(s0, Begin(0, Connect)) == s1;
    SendsConcat(s0, [], Begin(0, Connect));
    var run := [] + [Begin(0, Connect)];
    assert Trail(s0, run, s1, 0);
    run := Locking(s0, run, 0, Connect, BEFORE);
    assert Step(BEFORE, Inside(Connect), GRANTED) == (CONNECTED, Leave(Write, Returned(Status(0))));
    run := Working(s0, run, 0, Write, Inside(Connect), BEFORE);
    run := Unlocking(s0, run, 0, Write, Returned(Status(0)), CONNECTED);
    Ended(s0, run, len);
  }

  lemma Ended(s0: State, run: seq<Action>, len: nat)
    requires Initial(s0) && Trail(s0, run, Alone(Unlocked, Returned(Status(0)), CONNECTED), 0)
    ensures Reachable(Alone(Unlocked, Wait(Exists("t", len)), CONNECTED))
  {
    hide Sends, SendOf;
    var call := Begin(0, Exists("t", len));
    var idle := Alone(Unlocked, Idle, CONNECTED);
    assert Do(After(s0, run), Finish(0)) == idle;
    SendsConcat(s0, run, Finish(0));
    assert Do(idle, call) == Alone(Unlocked, Wait(Exists("t", len)), CONNECTED);
    SendsConcat(s0, run + [Finish(0)], call);
    assert Reaches(s0, run + [Finish(0)] + [call], Alone(Unlocked, Wait(Exists("t", len)), CONNECTED));
  }

  /** kafka_send to a topic nobody has sent to, on a connected module with room in the queue. */
  lemma Success(len: nat) returns (s: State, run: seq<Action>)
    ensures s == Alone(Unlocked, Wait(Exists("t", len)), CONNECTED)
    ensures Trail(s, run, Alone(Unlocked, Returned(SendResult(len)), Registered(1)), 1)
  {
    hide Trail, SendResult;
    s := Alone(Unlocked, Wait(Exists("t", len)), CONNECTED);
    Start(s);
    run := Locking(s, [], 0, Exists("t", len), CONNECTED);
    run := Working(s, run, 0, Read, Inside(Exists("t", len)), CONNECTED);
    run := Unlocking(s, run, 0, Read, Wait(Create("t", len)), CONNECTED);
    run := Locking(s, run, 0, Create("t", len), CONNECTED);
    Creates(len);
    run := Working(s, run, 0, Write, Inside(Create("t", len)), CONNECTED);
    run := Working(s, run, 0, Write, ReapCheck(Wait(Send("t", len))), Registered(0));
    run := Unlocking(s, run, 0, Write, Wait(Send("t", len)), Registered(0));
    run := Sending(s, run, len);
  }

  lemma Sending(s: State, run: seq<Action>, len: nat) returns (more: seq<Action>)
    requires Trail(s, run, Alone(Unlocked, Wait(Send("t", len)), Registered(0)), 0)
    ensures Trail(s, more, Alone(Unlocked, Returned(SendResult(len)), Registered(1)), 1)
  {
    hide Trail, SendResult;
    more := Locking(s, run, 0, Send("t", len), Registered(0));
    Produces(len);
    more := Working(s, more, 0, Read, Inside(Send("t", len)), Registered(0));
    more := Working(s, more, 0, Read, Producing(0, len), Registered(0));
    more := Working(s, more, 1, Read, Draining(0, len), Registered(1));
    more := Unlocking(s, more, 1, Read, Returned(SendResult(len)), Registered(1));
  }

  lemma Start(s: State)
    ensures Trail(s, [], s, 0)
  {
  }

  lemma Creates(len: nat)
    ensures Step(CONNECTED, Inside(Create("t", len)), GRANTED) == (Registered(0), ReapCheck(Wait(Send("t", len))))
  {
    var none: multiset<Rid> := multiset{};
    assert none[0 := 0] == none;
    var (k, p) := StepCreate(CONNECTED, "t", len, GRANTED);
    assert k.records == Registered(0).records && k.places == Registered(0).places;
    assert k.accounts == Registered(0).accounts && k.topics == Registered(0).topics;
  }

  lemma Produces(len: nat)
    ensures Step(Registered(0), Inside(Send("t", len)), GRANTED) == (Registered(0), Producing(0, len))
    ensures Ready(Registered(0), Producing(0, len), GRANTED)
    ensures Step(Registered(0), Producing(0, len), GRANTED) == (Registered(1), Draining(0, len))
  {
    assert Named(Registered(0), 0, "t");
    var none: multiset<Rid> := multiset{};
    assert none[0 := 0] + multiset{0} == none[0 := 1];
    assert [Account(0, 0)][0 := Account(1, 0)] == [Account(1, 0)];
  }

  // ---------------------------------------------------------------- the condition

  /** From 2^31 bytes on, a message that was queued is reported as a failure, or with another length. */
  lemma Misreported(len: nat) returns (s: State, run: seq<Action>)
    requires len >= U32_LIMIT / 2
    ensures IsCall(s, run, 0, "t", len) && !Truthful(s, run, 0, "t", len)
    ensures |Sends(s, run, 0)| == 1
  {
    hide Registered, Sends, IsRun, After;
    Begun(len);
    s, run := Success(len);
    assert ToInt32(len) < U32_LIMIT / 2;
  }

  lemma AsCall(s: State, run: seq<Action>, t: Tid, name: string, len: nat)
    requires IsCall(s, run, t, name, len) && len < U32_LIMIT / 2
    ensures Reachable(s) && IsRun(s, run) && t in s.pc && s.pc[t] == Wait(Exists(name, len)) && Finish(t) !in run
    ensures t in After(s, run).pc && After(s, run).pc[t].Returned? && ToInt32(len) == len
  {
    hide Reachable, IsRun, After;
  }

  /** kafka_send answers truthfully in every system, under every interference, exactly when the payload is
      shorter than 2^31 bytes. */
  lemma TruthfulExactly(len: nat)
    ensures (forall s, run, t, name | IsCall(s, run, t, name, len) :: Truthful(s, run, t, name, len)) <==> len < U32_LIMIT / 2
  {
    if len < U32_LIMIT / 2 {
      forall s, run, t, name | IsCall(s, run, t, name, len)
        ensures Truthful(s, run, t, name, len)
      {
        hide Reachable, IsRun, Sends, After, IsCall, ToInt32;
        AsCall(s, run, t, name, len);
        KafkaSend(s, run, t, name, len);
      }
    } else {
      var s, run := Misreported(len);
    }
  }
}
