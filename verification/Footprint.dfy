/** What a step can see of the heap.  `Safety.Touched` names the records whose memory a step reads, writes
    or frees; here it is shown to be all that the step depends on, and all that it changes.  With
    `Safety.NoUseAfterFree` it follows that freed memory never matters again. */
module Footprint {
  import opened Delivery
  import opened GrowArray
  import opened Protocol
  import opened Invariant
  import opened Safety

  /** Two systems that differ at most in the contents of records outside the set. */
  ghost predicate AgreeOn(s: State, s': State, rs: set<Rid>) {
    && s' == s.(k := s'.k)
    && s'.k == s.k.(records := s'.k.records)
    && |s'.k.records| == |s.k.records|
    && forall r | r in rs && r < |s.k.records| :: s'.k.records[r] == s.k.records[r]
  }

  /** What is left of the difference after a step: the touched records and those that are new are the same,
      any other record is what it was on its own side. */
  ghost predicate Framed(k: Kafka, k': Kafka, rs: set<Rid>, d: Kafka, d': Kafka) {
    && d' == d.(records := d'.records)
    && |d'.records| == |d.records| >= |k.records| == |k'.records|
    && (forall r | 0 <= r < |k.records| && r !in rs :: d.records[r] == k.records[r] && d'.records[r] == k'.records[r])
    && (forall r | 0 <= r < |d.records| && (r in rs || r >= |k.records|) :: d'.records[r] == d.records[r])
    && (forall r | 0 <= r < |k.records| && d.places[r] == Freed && k.places[r] != Freed :: r in rs)
  }

  ghost predicate Alike(k: Kafka, k': Kafka, rs: set<Rid>) {
    && k' == k.(records := k'.records)
    && |k'.records| == |k.records|
    && forall r | r in rs && r < |k.records| :: k'.records[r] == k.records[r]
  }

  lemma SameNames(k: Kafka, k': Kafka, name: string)
    requires Alike(k, k', Listed(k.topics))
    ensures Lookup(k', name) == Lookup(k, name) && Has(k', name) == Has(k, name)
  {
    var i, i' := Lookup(k, name), Lookup(k', name);
    assert i < |k.topics| ==> k.topics[i] in k.topics && Named(k', k.topics[i], name);
    assert i' < |k.topics| ==> k.topics[i'] in k.topics && Named(k, k.topics[i'], name);
  }

  lemma CreateFrame(k: Kafka, k': Kafka, name: string, len: nat, c: Choice)
    requires Alike(k, k', Listed(k.topics))
    ensures StepCreate(k', name, len, c).1 == StepCreate(k, name, len, c).1
    ensures Framed(k, k', Listed(k.topics), StepCreate(k, name, len, c).0, StepCreate(k', name, len, c).0)
  {
    SameNames(k, k', name);
    hide Lookup, Has;
  }

  lemma SendFrame(k: Kafka, k': Kafka, name: string, len: nat)
    requires Alike(k, k', Listed(k.topics))
    ensures StepSend(k, name, len).0 == k && StepSend(k', name, len) == (k', StepSend(k, name, len).1)
    ensures StepStats(k, name).0 == k && StepStats(k', name) == (k', StepStats(k, name).1)
  {
    SameNames(k, k', name);
    hide Has;
    var i := Lookup(k, name);
    assert i < |k.topics| ==> k.topics[i] in Listed(k.topics);
    hide Lookup;
  }

  lemma EntryFrame(k: Kafka, k': Kafka, op: Op, c: Choice)
    requires Alike(k, k', Uses(k, Inside(op)))
    ensures Step(k', Inside(op), c).1 == Step(k, Inside(op), c).1
    ensures Framed(k, k', Uses(k, Inside(op)), Step(k, Inside(op), c).0, Step(k', Inside(op), c).0)
  {
    match op
    case Connect =>
    case DismissAll =>
    case Exists(name, _) => SameNames(k, k', name); hide Has;
    case Dismiss(name) => SameNames(k, k', name); hide Lookup, Has;
    case Create(name, len) => CreateFrame(k, k', name, len, c); hide StepCreate;
    case Send(name, len) => SendFrame(k, k', name, len); hide StepSend;
    case Stats(name) => SendFrame(k, k', name, 0); hide StepStats;
  }

  lemma ReadyFrame(k: Kafka, k': Kafka, p: Pc, c: Choice)
    requires Ready(k, p, c) && Alike(k, k', Uses(k, p))
    ensures Ready(k', p, c)
  {
  }

  /** The loops and decisions of a writer look at the arrays and the queue, and free what they touch. */
  lemma MoverFrame(k: Kafka, k': Kafka, p: Pc, c: Choice)
    requires Ready(k, p, c) && Ready(k', p, c) && MovesRecords(p) && Alike(k, k', Uses(k, p))
    ensures Step(k', p, c).1 == Step(k, p, c).1
    ensures Framed(k, k', Uses(k, p), Step(k, p, c).0, Step(k', p, c).0)
  {
    StepCases(k, p, c);
    StepCases(k', p, c);
    hide Step, SwapRemove;
  }

  /** Releasing a handle writes to the record. */
  lemma DisposeFrame(k: Kafka, k': Kafka, p: Pc, c: Choice)
    requires Ready(k, p, c) && Ready(k', p, c) && (p.Disposing? || p.AllDisposing?) && Alike(k, k', Uses(k, p))
    ensures Step(k', p, c).1 == Step(k, p, c).1
    ensures Framed(k, k', Uses(k, p), Step(k, p, c).0, Step(k', p, c).0)
  {
    StepCases(k, p, c);
    StepCases(k', p, c);
    hide Step;
  }

  lemma DestroyFrame(k: Kafka, k': Kafka, p: Pc, c: Choice)
    requires p.AllDestroying? && Ready(k, p, c) && Ready(k', p, c) && Alike(k, k', {})
    ensures Step(k', p, c).1 == Step(k, p, c).1
    ensures Framed(k, k', {}, Step(k, p, c).0, Step(k', p, c).0)
  {
    StepCases(k, p, c);
    StepCases(k', p, c);
    hide Step;
    assert StepDestroy(k').0.accounts == StepDestroy(k).0.accounts;
  }

  /** Counters are read from the record. */
  lemma LoadFrame(k: Kafka, k': Kafka, p: Pc, c: Choice)
    requires Ready(k, p, c) && Ready(k', p, c) && (p.StatsFirst? || p.StatsSecond?) && Alike(k, k', {p.rid})
    ensures Step(k', p, c) == (k', Step(k, p, c).1) && Step(k, p, c).0 == k
  {
    hide Replay;
  }

  /** The other points. */
  lemma QuietFrame(k: Kafka, k': Kafka, p: Pc, c: Choice)
    requires Ready(k, p, c) && Ready(k', p, c) && Alike(k, k', Uses(k, p))
    requires !p.Inside? && !MovesRecords(p) && !p.Disposing? && !p.AllDisposing? && !p.AllDestroying? && !p.StatsFirst? && !p.StatsSecond?
    ensures Step(k', p, c).1 == Step(k, p, c).1
    ensures Framed(k, k', Uses(k, p), Step(k, p, c).0, Step(k', p, c).0)
  {
    hide ToInt32;
  }

  /** Whether a step can be taken, and what it does, depends on the records it touches only; and it changes
      and frees no others. */
  lemma StepFrame(k: Kafka, k': Kafka, p: Pc, c: Choice)
    requires Ready(k, p, c) && Alike(k, k', Uses(k, p))
    ensures Ready(k', p, c)
    ensures Step(k', p, c).1 == Step(k, p, c).1
    ensures Framed(k, k', Uses(k, p), Step(k, p, c).0, Step(k', p, c).0)
  {
    ReadyFrame(k, k', p, c);
    hide Ready, Step, Alike, Framed;
    if p.Inside? {
      EntryFrame(k, k', p.op, c);
    } else if MovesRecords(p) {
      MoverFrame(k, k', p, c);
    } else if p.Disposing? || p.AllDisposing? {
      DisposeFrame(k, k', p, c);
    } else if p.AllDestroying? {
      DestroyFrame(k, k', p, c);
    } else if p.StatsFirst? || p.StatsSecond? {
      LoadFrame(k, k', p, c);
      NothingChanged(k, k', {p.rid});
    } else {
      QuietFrame(k, k', p, c);
    }
  }

  lemma NothingChanged(k: Kafka, k': Kafka, rs: set<Rid>)
    requires Alike(k, k', rs)
    ensures Framed(k, k', rs, k, k')
  {
  }

  /** One action of any thread, callbacks included.  Where two systems agree on the records it touches, it
      can be taken in both or in neither, every thread goes to the same point, the two agree on these records
      and on a new one afterwards, and all other records are left alone; and only touched records are
      freed. */
  lemma ActionFrame(s: State, s': State, a: Action)
    requires Enabled(s, a) && AgreeOn(s, s', Touched(s, a))
    ensures Enabled(s', a)
    ensures Do(s', a) == Do(s, a).(k := Do(s', a).k)
    ensures Framed(s.k, s'.k, Touched(s, a), Do(s, a).k, Do(s', a).k)
  {
    match a
    case Work(t, c) =>
      WorkFrame(s, s', t, c);
      hide Do, Enabled, Touched, Framed;
    case Deliver(_, r, err, now) =>
      DeliverFrame(s.k, s'.k, r, err, now);
      hide Served, Framed, Uses;
    case _ =>
      NothingChanged(s.k, s'.k, {});
      hide Step, Ready, Uses;
  }

  lemma WorkFrame(s: State, s': State, t: Tid, c: Choice)
    requires Enabled(s, Work(t, c)) && AgreeOn(s, s', Touched(s, Work(t, c)))
    ensures Enabled(s', Work(t, c))
    ensures Do(s', Work(t, c)) == Do(s, Work(t, c)).(k := Do(s', Work(t, c)).k)
    ensures Framed(s.k, s'.k, Touched(s, Work(t, c)), Do(s, Work(t, c)).k, Do(s', Work(t, c)).k)
  {
    StepFrame(s.k, s'.k, s.pc[t], c);
    hide Step, Ready, Uses, Framed;
  }

  lemma DeliverFrame(k: Kafka, k': Kafka, r: Rid, err: int, now: int)
    requires r < |k.records| && Alike(k, k', {r})
    ensures Framed(k, k', {r}, Served(k, r, err, now), Served(k', r, err, now))
  {
  }

  // ---------------------------------------------------------------- freed memory

  /** Two systems that differ at most in what freed memory contains. */
  ghost predicate SameButFreed(s: State, s': State) {
    && s' == s.(k := s'.k)
    && s'.k == s.k.(records := s'.k.records)
    && |s'.k.records| == |s.k.records|
    && forall r | 0 <= r < |s.k.records| && s.k.places[r] != Freed :: s'.k.records[r] == s.k.records[r]
  }

  /** What the freed records contain has not been overwritten. */
  ghost predicate FreedKept(k: Kafka, now: Kafka) {
    && |k.records| <= |now.records|
    && forall r | 0 <= r < |k.records| && k.places[r] == Freed ::
         now.records[r] == k.records[r] && now.places[r] == Freed
  }

  lemma FreedStep(s: State, s': State, a: Action)
    requires Reachable(s) && Enabled(s, a) && SameButFreed(s, s')
    ensures Enabled(s', a) && SameButFreed(Do(s, a), Do(s', a)) && FreedKept(s'.k, Do(s', a).k)
  {
    hide Reachable, Do, Enabled, Touched, Inv;
    NoUseAfterFree(s, a);
    ActionFrame(s, s', a);
    ReachableInv(s);
    PlacesEvolve(s, a);
  }

  /** Use after free is impossible: whatever freed memory contains, even if it is another thing altogether,
      every run from here is a run there as well, takes every thread to the same points, leaves the same
      tables, queue and live records, and never writes to a freed record or brings one back. */
  lemma {:induction false} FreedMemoryNeverMatters(s: State, s': State, run: seq<Action>)
    requires Reachable(s) && IsRun(s, run) && SameButFreed(s, s')
    ensures IsRun(s', run) && SameButFreed(After(s, run), After(s', run))
    ensures FreedKept(s'.k, After(s', run).k)
    decreases |run|
  {
    if run != [] {
      hide Do, Enabled, Reachable;
      FreedStep(s, s', run[0]);
      StillReachable(s, run[0]);
      FreedMemoryNeverMatters(Do(s, run[0]), Do(s', run[0]), run[1..]);
    }
  }

  lemma StillReachable(s: State, a: Action)
    requires Reachable(s) && Enabled(s, a)
    ensures Reachable(Do(s, a))
  {
    hide Do, Enabled, Initial;
    var s0, run :| Reaches(s0, run, s);
    var next := Do(s, a);
    assert [a][1..] == [] && IsRun(next, []) && After(next, []) == next;
    assert IsRun(s, [a]) && After(s, [a]) == next;
    RunConcat(s0, run, [a]);
    assert Reaches(s0, run + [a], next);
  }
}
