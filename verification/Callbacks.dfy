/** Delivery reports librdkafka hands over: which of them are served, what each record hears, and what is
    left of the out queue. */
module Callbacks {
  import opened Delivery
  import opened Protocol

  /** A delivery report librdkafka is ready to hand to dr_msg_cb. */
  datatype Callback = Callback(rid: Rid, err: int, now: int)

  /** What is left of the queue after these; a report no message is outstanding for is not handed over. */
  function Remaining(q: multiset<Rid>, cs: seq<Callback>): (left: multiset<Rid>)
    ensures left <= q
  {
    if cs == [] then q
    else
      var before := Remaining(q, cs[..|cs| - 1]);
      before - multiset{cs[|cs| - 1].rid}
  }

  /** What is reported to one record. */
  function Heard(q: multiset<Rid>, cs: seq<Callback>, r: Rid): seq<Event> {
    if cs == [] then []
    else
      var c := cs[|cs| - 1];
      var before := cs[..|cs| - 1];
      Heard(q, before, r) + if c.rid == r && r in Remaining(q, before) then [Report(c.err, c.now)] else []
  }

  /** Report by report: one whose message is outstanding is served, with its own code, to the record the
      message names; one whose message is not does nothing. */
  lemma OneReport(q: multiset<Rid>, cs: seq<Callback>, c: Callback, r: Rid)
    ensures Remaining(q, []) == q && Heard(q, [], r) == []
    ensures c.rid in Remaining(q, cs) ==>
              && Remaining(q, cs + [c]) == Remaining(q, cs) - multiset{c.rid}
              && Heard(q, cs + [c], r) == Heard(q, cs, r) + if r == c.rid then [Report(c.err, c.now)] else []
    ensures c.rid !in Remaining(q, cs) ==>
              Remaining(q, cs + [c]) == Remaining(q, cs) && Heard(q, cs + [c], r) == Heard(q, cs, r)
  {
    LeftAfter(q, cs, c);
    HeardAfter(q, cs, c, r);
    hide Remaining, Heard;
    if c.rid !in Remaining(q, cs) {
      assert Heard(q, cs, r) + [] == Heard(q, cs, r);
    }
  }

  lemma LeftAfter(q: multiset<Rid>, cs: seq<Callback>, c: Callback)
    ensures Remaining(q, []) == q
    ensures Remaining(q, cs + [c]) == Remaining(q, cs) - multiset{c.rid}
    ensures c.rid !in Remaining(q, cs) ==> Remaining(q, cs + [c]) == Remaining(q, cs)
  {
    assert (cs + [c])[..|cs|] == cs;
  }

  lemma HeardAfter(q: multiset<Rid>, cs: seq<Callback>, c: Callback, r: Rid)
    ensures Heard(q, [], r) == []
    ensures Heard(q, cs + [c], r) == Heard(q, cs, r) + if c.rid == r && r in Remaining(q, cs) then [Report(c.err, c.now)] else []
  {
    hide Remaining;
    assert (cs + [c])[..|cs|] == cs;
  }

  lemma {:induction false} RemainingConcat(q: multiset<Rid>, cs: seq<Callback>, more: seq<Callback>, r: Rid)
    ensures Remaining(q, cs + more) == Remaining(Remaining(q, cs), more)
    ensures Heard(q, cs + more, r) == Heard(q, cs, r) + Heard(Remaining(q, cs), more, r)
    decreases |more|
  {
    hide Remaining, Heard;
    if more == [] {
      assert cs + more == cs;
      OneReport(Remaining(q, cs), [], Callback(r, 0, 0), r);
    } else {
      var front := more[..|more| - 1];
      var c := more[|more| - 1];
      assert cs + more == (cs + front) + [c] && more == front + [c];
      RemainingConcat(q, cs, front, r);
      OneReport(q, cs + front, c, r);
      OneReport(Remaining(q, cs), front, c, r);
    }
  }

  /** Every message is heard of once, or is still in the queue. */
  lemma {:induction false} HeardAll(q: multiset<Rid>, cs: seq<Callback>, r: Rid)
    ensures Reports(Heard(q, cs, r)) + Remaining(q, cs)[r] == q[r]
    decreases |cs|
  {
    if cs == [] {
      assert Reports([]) == 0;
    } else {
      hide Remaining, Heard, Reports;
      var front := cs[..|cs| - 1];
      assert cs == front + [cs[|cs| - 1]];
      HeardAll(q, front, r);
      HeardOnce(q, front, cs[|cs| - 1], r);
    }
  }

  /** One report moves at most one message from the queue to what is heard. */
  lemma HeardOnce(q: multiset<Rid>, cs: seq<Callback>, c: Callback, r: Rid)
    ensures Reports(Heard(q, cs + [c], r)) + Remaining(q, cs + [c])[r] == Reports(Heard(q, cs, r)) + Remaining(q, cs)[r]
  {
    hide Remaining, Heard, Successes, Failures;
    OneReport(q, cs, c, r);
    if c.rid in Remaining(q, cs) && c.rid == r {
      ReportsExtend(Heard(q, cs, r), Report(c.err, c.now));
    } else {
      assert Heard(q, cs, r) + [] == Heard(q, cs, r);
    }
  }

  lemma {:induction false} CountsConcat(h: seq<Event>, more: seq<Event>)
    ensures Successes(h + more) == Successes(h) + Successes(more)
    ensures Failures(h + more) == Failures(h) + Failures(more)
    decreases |more|
  {
    if more == [] {
      assert h + more == h;
    } else {
      assert (h + more)[..|h + more| - 1] == h + more[..|more| - 1];
      CountsConcat(h, more[..|more| - 1]);
    }
  }
}
