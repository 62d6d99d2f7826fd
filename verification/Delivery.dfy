/** The delivery report callback of one topic record and its log throttle (kafka-engine.c).

    `Apply` and `Printed` say what one event does to the counters and to the error log; `Replay`
    and `Log` fold them over a history.  `TopicRecord` is the mutable record itself, whose methods
    are proved against that fold.  The lemmas are about every history. */
module Delivery {
  import opened Options

  const LOG_INTERVAL: int := 60              // KAFKA_ERROR_LOG_INTERVAL_S
  const U32_LIMIT: nat := 0x1_0000_0000      // the counters are uint32_t
  const NO_ERROR: int := 0                   // RD_KAFKA_RESP_ERR_NO_ERROR

  /** What reaches the error log.  A count of zero is a line that carries no count. */
  datatype Line =
    | FailureLine(err: int, more: nat)
    | RecoveryLine(unreported: nat)
    | UnreportedLine(err: int, count: nat)

  /** A delivery report with the clock read by its callback, or the disposal of the record. */
  datatype Event =
    | Report(err: int, now: int)
    | Disposed

  datatype Counters = Counters(transferred: nat, failed: nat, lastErr: int, lastLogTime: int, suppressed: nat)

  /** The record as memset() leaves it. */
  const FRESH: Counters := Counters(0, 0, NO_ERROR, 0, 0)

  function Increment(n: nat): nat {
    (n + 1) % U32_LIMIT
  }

  predicate Throttled(c: Counters, err: int, now: int) {
    err == c.lastErr && now - c.lastLogTime < LOG_INTERVAL
  }

  function Apply(c: Counters, e: Event): Counters {
    match e
    case Disposed => c.(suppressed := 0)
    case Report(err, now) =>
      if err == NO_ERROR then
        var settled := if c.lastErr != NO_ERROR then c.(lastErr := NO_ERROR, lastLogTime := 0, suppressed := 0) else c;
        settled.(transferred := Increment(c.transferred))
      else
        var counted := c.(failed := Increment(c.failed));
        if Throttled(c, err, now) then counted.(suppressed := Increment(c.suppressed))
        else counted.(lastErr := err, lastLogTime := now, suppressed := 0)
  }

  function Printed(c: Counters, e: Event): seq<Line> {
    match e
    case Disposed => if c.suppressed > 0 then [UnreportedLine(c.lastErr, c.suppressed)] else []
    case Report(err, now) =>
      if err == NO_ERROR then
        if c.lastErr != NO_ERROR then [RecoveryLine(c.suppressed)] else []
      else
        if Throttled(c, err, now) then [] else [FailureLine(err, c.suppressed)]
  }

  function Replay(history: seq<Event>): Counters {
    if history == [] then FRESH else Apply(Replay(history[..|history| - 1]), history[|history| - 1])
  }

  function Log(history: seq<Event>): seq<Line> {
    if history == [] then []
    else
      var before := history[..|history| - 1];
      Log(before) + Printed(Replay(before), history[|history| - 1])
  }

  lemma ReplayExtend(history: seq<Event>, e: Event)
    ensures Replay(history + [e]) == Apply(Replay(history), e)
    ensures Log(history + [e]) == Log(history) + Printed(Replay(history), e)
  {
    assert (history + [e])[..|history|] == history;
  }

  /** Whether a record still has its librdkafka handle: from its creation to its disposal. */
  predicate HandleAlive(history: seq<Event>) {
    Disposed !in history
  }

  /** The mutable record: tek_topic_t without its name and the producer it borrows. */
  class TopicRecord {
    var handle: bool              // rkt != NULL
    var transferred: nat
    var failed: nat
    var lastErr: int
    var lastLogTime: int
    var suppressed: nat
    var stderr: seq<Line>
    ghost var history: seq<Event>

    function State(): Counters
      reads this
    {
      Counters(transferred, failed, lastErr, lastLogTime, suppressed)
    }

    /** The fields are the replay of everything that happened to the record, and so is the log. */
    ghost predicate Valid()
      reads this
    {
      && State() == Replay(history)
      && stderr == Log(history)
      && handle == HandleAlive(history)
    }

    constructor ()
      ensures Valid() && history == [] && handle && stderr == []
    {
      transferred, failed, lastErr, lastLogTime, suppressed := 0, 0, NO_ERROR, 0, 0;
      handle, stderr, history := true, [], [];
    }

    /** log_delivery_failure */
    method LogDeliveryFailure(err: int, now: int)
      modifies `lastErr, `lastLogTime, `suppressed, `stderr
      ensures err == old(lastErr) && now - old(lastLogTime) < 60 ==>
                && stderr == old(stderr) && lastErr == old(lastErr) && lastLogTime == old(lastLogTime)
                && suppressed == (old(suppressed) + 1) % U32_LIMIT
      ensures err != old(lastErr) || now - old(lastLogTime) >= 60 ==>
                && stderr == old(stderr) + [FailureLine(err, old(suppressed))]
                && lastErr == err && lastLogTime == now && suppressed == 0
    {
      if err == lastErr && now - lastLogTime < LOG_INTERVAL {
        suppressed := Increment(suppressed);
        return;
      }
      if suppressed > 0 {
        stderr := stderr + [FailureLine(err, suppressed)];
      } else {
        stderr := stderr + [FailureLine(err, 0)];
      }
      lastErr := err;
      lastLogTime := now;
      suppressed := 0;
    }

    /** log_delivery_recovered */
    method LogDeliveryRecovered()
      modifies `lastErr, `lastLogTime, `suppressed, `stderr
      ensures State() == old(State()).(lastErr := NO_ERROR, lastLogTime := 0, suppressed := 0)
      ensures stderr == old(stderr) + [RecoveryLine(old(suppressed))]
    {
      if suppressed > 0 {
        stderr := stderr + [RecoveryLine(suppressed)];
      } else {
        stderr := stderr + [RecoveryLine(0)];
      }
      lastErr := NO_ERROR;
      lastLogTime := 0;
      suppressed := 0;
    }

    /** dr_msg_cb: the whole callback runs as one step. */
    method DrMsgCb(err: int, now: int)
      requires Valid()
      modifies this
      ensures Valid() && history == old(history) + [Report(err, now)]
    {
      hide Replay, Log;
      if err != NO_ERROR {
        failed := Increment(failed);
        LogDeliveryFailure(err, now);
      } else {
        if lastErr != NO_ERROR {
          LogDeliveryRecovered();
        }
        transferred := Increment(transferred);
      }
      ReplayExtend(history, Report(err, now));
      history := history + [Report(err, now)];
    }

    /** tek_kafka_topic_dispose: the handle is released, once, and what was held back is reported. */
    method Dispose() returns (released: bool)
      requires Valid()
      modifies this
      ensures Valid() && history == old(history) + [Disposed]
      ensures !handle && released == old(handle)
    {
      hide Replay, Log;
      ReplayExtend(history, Disposed);
      released := handle;
      if handle {
        handle := false;
      }
      if suppressed > 0 {
        stderr := stderr + [UnreportedLine(lastErr, suppressed)];
        suppressed := 0;
      }
      history := history + [Disposed];
    }
  }

  // ---------------------------------------------------------------- accounting

  function Successes(history: seq<Event>): nat {
    if history == [] then 0
    else
      var e := history[|history| - 1];
      Successes(history[..|history| - 1]) + if e.Report? && e.err == NO_ERROR then 1 else 0
  }

  function Failures(history: seq<Event>): nat {
    if history == [] then 0
    else
      var e := history[|history| - 1];
      Failures(history[..|history| - 1]) + if e.Report? && e.err != NO_ERROR then 1 else 0
  }

  function Reports(history: seq<Event>): nat {
    Successes(history) + Failures(history)
  }

  lemma ReportsExtend(history: seq<Event>, e: Event)
    ensures Successes(history + [e]) == Successes(history) + if e.Report? && e.err == NO_ERROR then 1 else 0
    ensures Failures(history + [e]) == Failures(history) + if e.Report? && e.err != NO_ERROR then 1 else 0
  {
    assert (history + [e])[..|history|] == history;
  }

  /** The two counters kafka_stats() reports are the numbers of successes and failures, modulo 2^32. */
  lemma {:induction false} CountersCount(history: seq<Event>)
    ensures Replay(history).transferred == Successes(history) % U32_LIMIT
    ensures Replay(history).failed == Failures(history) % U32_LIMIT
  {
    if history != [] {
      var before := history[..|history| - 1];
      CountersCount(before);
      IncrementCounts(Successes(before));
      IncrementCounts(Failures(before));
      hide Increment;
    }
  }

  lemma IncrementCounts(n: nat)
    ensures Increment(n % U32_LIMIT) == (n + 1) % U32_LIMIT
  {
  }

  /** Number of "Delivery failed" lines. */
  function FailureLines(log: seq<Line>): nat {
    if log == [] then 0
    else FailureLines(log[..|log| - 1]) + if log[|log| - 1].FailureLine? then 1 else 0
  }

  /** Sum of the counts the lines carry: "N more", "N further failure(s)". */
  function CountsPrinted(log: seq<Line>): nat {
    if log == [] then 0
    else
      var count := match log[|log| - 1]
                   case FailureLine(_, more) => more
                   case RecoveryLine(unreported) => unreported
                   case UnreportedLine(_, count) => count;
      CountsPrinted(log[..|log| - 1]) + count
  }

  lemma LogExtend(log: seq<Line>, more: seq<Line>)
    requires |more| <= 1
    ensures FailureLines(log + more) == FailureLines(log) + FailureLines(more)
    ensures CountsPrinted(log + more) == CountsPrinted(log) + CountsPrinted(more)
  {
    if more == [] {
      assert log + more == log;
    } else {
      assert (log + more)[..|log|] == log;
      assert more[..0] == [];
    }
  }

  /** How often `suppressed`, a 32-bit field, ran over. */
  function Overruns(history: seq<Event>): nat {
    if history == [] then 0
    else
      var before := history[..|history| - 1];
      Overruns(before) + OverrunAt(Replay(before), history[|history| - 1])
  }

  function OverrunAt(c: Counters, e: Event): nat {
    if e.Report? && e.err != NO_ERROR && Throttled(c, e.err, e.now) && c.suppressed == U32_LIMIT - 1 then 1 else 0
  }

  lemma ConservationStep(c: Counters, e: Event)
    requires c.suppressed < U32_LIMIT
    ensures var p := Printed(c, e);
            c.suppressed + (if e.Report? && e.err != NO_ERROR then 1 else 0)
            == FailureLines(p) + CountsPrinted(p) + Apply(c, e).suppressed + U32_LIMIT * OverrunAt(c, e)
  {
    var p := Printed(c, e);
    if p != [] {
      assert p[..0] == [];
    }
  }

  /** Conservation: whatever the clock does, every failure received is a line of its own, is in a
      count that was printed, is still held back, or was lost to an overrun of the 32-bit field. */
  lemma {:induction false} ThrottleConservation(history: seq<Event>)
    ensures Failures(history)
         == FailureLines(Log(history)) + CountsPrinted(Log(history)) + Replay(history).suppressed
            + U32_LIMIT * Overruns(history)
  {
    if history != [] {
      var before := history[..|history| - 1];
      ThrottleConservation(before);
      SuppressedBound(before);
      LogExtend(Log(before), Printed(Replay(before), history[|history| - 1]));
      ConservationStep(Replay(before), history[|history| - 1]);
    }
  }

  /** Below 2^32 failures nothing is lost. */
  lemma NoOverrun(history: seq<Event>)
    requires Failures(history) < U32_LIMIT
    ensures Overruns(history) == 0
  {
    ThrottleConservation(history);
  }

  /** A record that owes no recovery line holds nothing back. */
  lemma {:induction false} SuppressedBound(history: seq<Event>)
    ensures Replay(history).suppressed < U32_LIMIT
    ensures Replay(history).suppressed <= Failures(history)
    ensures Replay(history).lastErr == NO_ERROR ==> Replay(history).suppressed == 0
  {
    if history != [] {
      SuppressedBound(history[..|history| - 1]);
    }
  }

  /** Nothing is held back right after a failure line, a recovery line or a disposal. */
  lemma SettledAfterLine(history: seq<Event>, e: Event)
    ensures Printed(Replay(history), e) != [] || e.Disposed? ==> Replay(history + [e]).suppressed == 0
  {
    ReplayExtend(history, e);
  }

  // ---------------------------------------------------------------- what is printed, and when

  /** Clock reading of the latest failure whose line is in the log, if no success was reported since. */
  function LastShown(history: seq<Event>): Option<int> {
    if history == [] then None
    else
      var before := history[..|history| - 1];
      var e := history[|history| - 1];
      if e.Disposed? then LastShown(before)
      else if e.err == NO_ERROR then None
      else if |Log(history)| > |Log(before)| then Some(e.now)
      else LastShown(before)
  }

  /** Failures reported since the last line, or the last disposal or success. */
  function Unprinted(history: seq<Event>): nat {
    if history == [] then 0
    else
      var before := history[..|history| - 1];
      var e := history[|history| - 1];
      if e.Disposed? || e.err == NO_ERROR || |Log(history)| > |Log(before)| then 0
      else Unprinted(before) + 1
  }

  lemma LogGrows(history: seq<Event>, e: Event)
    ensures |Log(history + [e])| > |Log(history)| <==> Printed(Replay(history), e) != []
    ensures LastShown(history + [e]) == if e.Disposed? then LastShown(history) else if e.err == NO_ERROR then None
                                        else if Printed(Replay(history), e) != [] then Some(e.now) else LastShown(history)
    ensures Unprinted(history + [e]) == if e.Disposed? || e.err == NO_ERROR || Printed(Replay(history), e) != [] then 0
                                        else Unprinted(history) + 1
  {
    assert (history + [e])[..|history|] == history;
    ReplayExtend(history, e);
  }

  /** The throttle's fields are what the history and the log say. */
  ghost predicate FieldsSay(history: seq<Event>) {
    && Replay(history).lastErr == LastCode(history)
    && Replay(history).suppressed == Unprinted(history) % U32_LIMIT
    && (LastCode(history) != NO_ERROR ==> LastShown(history) == Some(Replay(history).lastLogTime))
    && (LastCode(history) == NO_ERROR ==> Unprinted(history) == 0)
  }

  lemma FieldsStep(history: seq<Event>, e: Event)
    requires FieldsSay(history)
    ensures FieldsSay(history + [e])
  {
    hide Replay, Log, LastShown, Unprinted, LastCode, Clock, FailureRuns;
    LogGrows(history, e);
    ReplayExtend(history, e);
    RunsExtend(history, e);
    IncrementCounts(Unprinted(history));
  }

  lemma {:induction false} FieldsAlwaysSay(history: seq<Event>)
    ensures FieldsSay(history)
    decreases |history|
  {
    if history != [] {
      var before := history[..|history| - 1];
      FieldsAlwaysSay(before);
      FieldsStep(before, history[|history| - 1]);
      assert history == before + [history[|history| - 1]];
    }
  }

  /** The log, event by event, over every history and any clock.  A failure is printed, with its own code and
      the number held back, unless its code is that of the latest report and the line before it in this run is
      less than 60 seconds old; the first success after a failure says that it is over; a disposal prints
      what is held back, if anything; and nothing else is printed. */
  lemma LogSays(history: seq<Event>, err: int, now: int)
    ensures err != NO_ERROR ==>
              Log(history + [Report(err, now)]) == Log(history) +
                if err == LastCode(history) && LastShown(history).Some? && now - LastShown(history).value < 60 then []
                else [FailureLine(err, Unprinted(history) % U32_LIMIT)]
    ensures err != NO_ERROR && err == LastCode(history) ==> LastShown(history).Some?
    ensures Log(history + [Report(NO_ERROR, now)]) == Log(history) +
              if LastCode(history) != NO_ERROR then [RecoveryLine(Unprinted(history) % U32_LIMIT)] else []
    ensures Log(history + [Disposed]) == Log(history) +
              if Unprinted(history) % U32_LIMIT > 0 then [UnreportedLine(LastCode(history), Unprinted(history) % U32_LIMIT)]
              else []
  {
    hide Replay, Log, LastShown, Unprinted, LastCode;
    FieldsAlwaysSay(history);
    ReplayExtend(history, Report(err, now));
    ReplayExtend(history, Report(NO_ERROR, now));
    ReplayExtend(history, Disposed);
  }

  // ---------------------------------------------------------------- rate bound

  function LastCode(history: seq<Event>): int {
    if history == [] then NO_ERROR
    else
      var e := history[|history| - 1];
      if e.Report? then e.err else LastCode(history[..|history| - 1])
  }

  /** Number of maximal runs of one failing code, among the reports. */
  function FailureRuns(history: seq<Event>): nat {
    if history == [] then 0
    else
      var before := history[..|history| - 1];
      var e := history[|history| - 1];
      FailureRuns(before) + if e.Report? && e.err != NO_ERROR && e.err != LastCode(before) then 1 else 0
  }

  /** Clock readings of the reports, in order. */
  function Clock(history: seq<Event>): seq<int> {
    if history == [] then []
    else
      var e := history[|history| - 1];
      Clock(history[..|history| - 1]) + if e.Report? then [e.now] else []
  }

  ghost predicate Nondecreasing(times: seq<int>) {
    forall i, j | 0 <= i < j < |times| :: times[i] <= times[j]
  }

  function Span(times: seq<int>): int {
    if times == [] then 0 else times[|times| - 1] - times[0]
  }

  /** The throttle compares with the code of the latest report, across disposals. */
  lemma {:induction false} LastErrIsLastCode(history: seq<Event>)
    ensures Replay(history).lastErr == LastCode(history)
  {
    if history != [] {
      LastErrIsLastCode(history[..|history| - 1]);
    }
  }

  /** What the throttle has saved up: each line beyond the first of its run cost 60 seconds. */
  ghost predicate Paid(extra: int, times: seq<int>, code: int, lastLogTime: int) {
    && 0 <= extra
    && 60 * extra <= Span(times)
    && (code != NO_ERROR ==>
          times != [] && lastLogTime <= times[|times| - 1] && 60 * extra <= lastLogTime - times[0])
  }

  lemma PaidStep(extra: int, times: seq<int>, c: Counters, err: int, now: int)
    requires Paid(extra, times, c.lastErr, c.lastLogTime)
    requires times != [] ==> times[0] <= times[|times| - 1] <= now
    ensures var e := Report(err, now);
            var line := FailureLines(Printed(c, e));
            var run := if err != NO_ERROR && err != c.lastErr then 1 else 0;
            Paid(extra + line - run, times + [now], err, Apply(c, e).lastLogTime)
  {
    var p := Printed(c, Report(err, now));
    if p != [] {
      assert p[..0] == [];
    }
  }

  lemma RunsExtend(history: seq<Event>, e: Event)
    ensures LastCode(history + [e]) == if e.Report? then e.err else LastCode(history)
    ensures Clock(history + [e]) == Clock(history) + if e.Report? then [e.now] else []
    ensures FailureRuns(history + [e])
         == FailureRuns(history) + if e.Report? && e.err != NO_ERROR && e.err != LastCode(history) then 1 else 0
  {
    assert (history + [e])[..|history|] == history;
  }

  lemma PaidExtend(history: seq<Event>, e: Event)
    requires Nondecreasing(Clock(history + [e]))
    requires Paid(FailureLines(Log(history)) - FailureRuns(history), Clock(history), LastCode(history), Replay(history).lastLogTime)
    ensures var all := history + [e];
            Paid(FailureLines(Log(all)) - FailureRuns(all), Clock(all), LastCode(all), Replay(all).lastLogTime)
  {
    hide Replay, Log, Clock, FailureRuns, LastCode, FailureLines, Paid, Apply, Printed, Nondecreasing;
    ReplayExtend(history, e);
    AtMostOneLine(Replay(history), e);
    LogExtend(Log(history), Printed(Replay(history), e));
    RunsExtend(history, e);
    LastErrIsLastCode(history);
    var lines: int, runs: int := FailureLines(Log(history)), FailureRuns(history);
    match e
    case Report(err, now) =>
      ClocksInOrder(Clock(history), now);
      PaidStep(lines - runs, Clock(history), Replay(history), err, now);
      var line: int := FailureLines(Printed(Replay(history), e));
      var run: int := if err != NO_ERROR && err != LastCode(history) then 1 else 0;
      assert (lines + line) - (runs + run) == (lines - runs) + line - run;
    case Disposed =>
      DisposalPrintsNoFailure(Replay(history));
      DisposalKeepsTime(Replay(history));
      assert Clock(history) + [] == Clock(history);
  }

  lemma AtMostOneLine(c: Counters, e: Event)
    ensures |Printed(c, e)| <= 1
  {
  }

  lemma DisposalKeepsTime(c: Counters)
    ensures Apply(c, Disposed).lastLogTime == c.lastLogTime
  {
  }

  lemma ClocksInOrder(times: seq<int>, now: int)
    requires Nondecreasing(times + [now])
    ensures Nondecreasing(times)
    ensures times != [] ==> times[0] <= times[|times| - 1] <= now
  {
    var all := times + [now];
    assert forall i | 0 <= i < |times| :: times[i] == all[i];
    assert times != [] ==> all[0] <= all[|times| - 1] <= all[|times|];
  }

  lemma {:induction false} RateInvariant(history: seq<Event>)
    requires Nondecreasing(Clock(history))
    ensures Paid(FailureLines(Log(history)) - FailureRuns(history), Clock(history), LastCode(history), Replay(history).lastLogTime)
  {
    if history != [] {
      hide Paid, Log, Replay, Clock, LastCode, FailureRuns, FailureLines, Nondecreasing;
      var before := history[..|history| - 1];
      var e := history[|history| - 1];
      assert history == before + [e];
      assert Nondecreasing(Clock(before)) by {
        RunsExtend(before, e);
        if e.Report? {
          ClocksInOrder(Clock(before), e.now);
        } else {
          assert Clock(history) == Clock(before);
        }
      }
      RateInvariant(before);
      PaidExtend(before, e);
    }
  }

  lemma DisposalPrintsNoFailure(c: Counters)
    ensures FailureLines(Printed(c, Disposed)) == 0
  {
    var p := Printed(c, Disposed);
    if p != [] {
      assert p[..0] == [];
    }
  }

  /** At least one line for each run of one failing code, and at most one more per 60 seconds. */
  lemma ThrottleRate(history: seq<Event>)
    requires Nondecreasing(Clock(history))
    ensures FailureRuns(history) <= FailureLines(Log(history))
                                 <= FailureRuns(history) + Span(Clock(history)) / LOG_INTERVAL
  {
    RateInvariant(history);
  }

  /** A report of one failing code every 60 seconds. */
  function Steady(n: nat): seq<Event> {
    if n == 0 then [Report(1, 0)] else Steady(n - 1) + [Report(1, 60 * n)]
  }

  /** Steady reporting so far: one line for each report. */
  ghost predicate SteadyUpTo(history: seq<Event>, n: nat) {
    && Replay(history).lastErr == LastCode(history) == 1 && Replay(history).lastLogTime == 60 * n
    && Clock(history) != [] && Clock(history)[0] == 0 && Clock(history)[|Clock(history)| - 1] == 60 * n
    && FailureRuns(history) == 1 && FailureLines(Log(history)) == n + 1
  }

  lemma SteadyStep(history: seq<Event>, n: nat)
    requires SteadyUpTo(history, n)
    ensures SteadyUpTo(history + [Report(1, 60 * (n + 1))], n + 1)
  {
    hide Replay, Log, Clock, FailureRuns, LastCode, FailureLines;
    ReplayExtend(history, Report(1, 60 * (n + 1)));
    RunsExtend(history, Report(1, 60 * (n + 1)));
    assert Printed(Replay(history), Report(1, 60 * (n + 1))) == [FailureLine(1, Replay(history).suppressed)];
    OneMoreLine(Log(history), 1, Replay(history).suppressed);
  }

  lemma OneMoreLine(log: seq<Line>, err: int, more: nat)
    ensures FailureLines(log + [FailureLine(err, more)]) == FailureLines(log) + 1
  {
    assert (log + [FailureLine(err, more)])[..|log|] == log;
  }

  lemma SteadyStart()
    ensures SteadyUpTo([Report(1, 0)], 0)
  {
    var e := Report(1, 0);
    assert Replay([]) == FRESH && Log([]) == [] && FailureLines([]) == 0;
    assert Clock([]) == [] && FailureRuns([]) == 0 && LastCode([]) == NO_ERROR;
    hide Replay, Log, Clock, FailureRuns, LastCode, FailureLines;
    ReplayExtend([], e);
    RunsExtend([], e);
    OneMoreLine([], 1, 0);
    assert [] + [e] == [e];
    assert Printed(FRESH, e) == [FailureLine(1, 0)];
  }

  lemma SteadyUnfold(n: nat)
    ensures Steady(n) == if n == 0 then [Report(1, 0)] else Steady(n - 1) + [Report(1, 60 * n)]
  {
  }

  lemma {:induction false} SteadyPrintsEach(n: nat)
    ensures SteadyUpTo(Steady(n), n)
  {
    hide *;
    if n == 0 {
      SteadyStart();
      SteadyUnfold(0);
    } else {
      SteadyPrintsEach(n - 1);
      SteadyStep(Steady(n - 1), n - 1);
      SteadyUnfold(n);
    }
  }

  /** The bound is met with equality for every span. */
  lemma ThrottleRateIsTight(n: nat)
    ensures Span(Clock(Steady(n))) == 60 * n
    ensures FailureLines(Log(Steady(n))) == FailureRuns(Steady(n)) + Span(Clock(Steady(n))) / LOG_INTERVAL
  {
    SteadyPrintsEach(n);
  }
}
