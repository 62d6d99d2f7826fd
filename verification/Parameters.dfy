/** The parameter list of kafka_tables_t and what connecting makes of it (kafka_table_set_param,
    kafka_table_unset_param, kafka_table_connect and the end of kafka_table_dismiss_all). */
module Parameters {
  import opened GrowArray
  import opened Lifecycle
  import opened Options

  type Param = (string, string)   // kafka_param_t: name and value

  datatype Refusal = EmptyName | OutOfMemory | NotAccepted | AlreadyConnected | Missing | EmptyBrokers | NoConfiguration | NotRun

  datatype Answer = Done | Refused(why: Refusal)

  /** What the allocations of a call are granted: the scratch configuration, the larger array, the copies. */
  datatype Memory = Memory(scratch: bool, room: bool, name: bool, value: bool)

  datatype Call =
    | Set(name: Option<string>, value: Option<string>, m: Memory)
    | Unset(name: Option<string>)
    | Connect(brokers: Option<string>, g: Grants)
    | Disconnect

  /** The list as it is stored, and the configuration the producer was made from. */
  datatype Table = Table(params: seq<Param>, running: Option<Conf>)

  /** How librdkafka judges and files a property, and judges a configuration. */
  datatype Rules = Rules(accepts: (string, string) -> bool, property: string -> string, coherent: Conf -> bool)

  function IndexOf(l: seq<Param>, name: string): (i: nat)
    ensures i <= |l|
    ensures i < |l| ==> l[i].0 == name
    ensures forall j | 0 <= j < i :: l[j].0 != name
  {
    if l == [] || l[0].0 == name then 0 else 1 + IndexOf(l[1..], name)
  }

  function StepSet(rules: Rules, tb: Table, name: Option<string>, value: Option<string>, m: Memory): (Table, Answer) {
    if name.None? || name.value == "" || value.None? then (tb, Refused(EmptyName))
    else if !m.scratch then (tb, Refused(OutOfMemory))
    else if !rules.accepts(name.value, value.value) then (tb, Refused(NotAccepted))
    else if tb.running.Some? then (tb, Refused(AlreadyConnected))
    else
      var i := IndexOf(tb.params, name.value);
      if i < |tb.params| then
        if m.value then (tb.(params := tb.params[i := (name.value, value.value)]), Done) else (tb, Refused(OutOfMemory))
      else if m.room && m.name && m.value then (tb.(params := tb.params + [(name.value, value.value)]), Done)
      else (tb, Refused(OutOfMemory))
  }

  function StepUnset(tb: Table, name: Option<string>): (Table, Answer) {
    if name.None? || name.value == "" then (tb, Refused(EmptyName))
    else if tb.running.Some? then (tb, Refused(AlreadyConnected))
    else
      var i := IndexOf(tb.params, name.value);
      if i < |tb.params| then (tb.(params := SwapRemove(tb.params, i)), Done) else (tb, Refused(Missing))
  }

  /** The defaults, overlaid by the list. */
  function Built(rules: Rules, brokers: string, l: seq<Param>): Conf {
    Apply(rules.property, Apply(rules.property, map[], Defaults(brokers)), l)
  }

  /** tek_kafka_producer_set_param would accept each of them. */
  predicate Settable(rules: Rules, l: seq<Param>) {
    forall i | 0 <= i < |l| :: l[i].0 != "" && rules.accepts(l[i].0, l[i].1)
  }

  function StepConnect(rules: Rules, tb: Table, brokers: Option<string>, g: Grants): (Table, Answer) {
    if brokers.None? || brokers.value == "" then (tb, Refused(EmptyBrokers))
    else if tb.running.Some? then (tb, Refused(AlreadyConnected))
    else if !g.record || !g.brokers || !g.conf || !Accepted(rules.accepts, Defaults(brokers.value)) then (tb, Refused(NoConfiguration))
    else if !Settable(rules, tb.params) then (tb, Refused(NotAccepted))
    else if !g.rk || !rules.coherent(Built(rules, brokers.value, tb.params)) || !g.thread then (tb, Refused(NotRun))
    else (tb.(running := Some(Built(rules, brokers.value, tb.params))), Done)
  }

  function Step(rules: Rules, tb: Table, call: Call): (Table, Answer) {
    match call
    case Set(name, value, m) => StepSet(rules, tb, name, value, m)
    case Unset(name) => StepUnset(tb, name)
    case Connect(brokers, g) => StepConnect(rules, tb, brokers, g)
    case Disconnect => (tb.(running := None), Done)
  }

  function Run(rules: Rules, tb: Table, calls: seq<Call>): Table
    decreases |calls|
  {
    if calls == [] then tb else Run(rules, Step(rules, tb, calls[0]).0, calls[1..])
  }

  // ---------------------------------------------------------------- the list as a map

  ghost predicate DistinctNames(l: seq<Param>) {
    forall i, j | 0 <= i < j < |l| :: l[i].0 != l[j].0
  }

  /** What every call keeps: names are distinct and not empty, and every pair was validated. */
  ghost predicate Sound(rules: Rules, l: seq<Param>) {
    DistinctNames(l) && Settable(rules, l)
  }

  /** The list is one way to write down the map. */
  ghost predicate Lists(l: seq<Param>, m: map<string, string>) {
    && DistinctNames(l)
    && (forall i | 0 <= i < |l| :: l[i].0 in m && m[l[i].0] == l[i].1)
    && (forall name | name in m :: exists i | 0 <= i < |l| :: l[i].0 == name)
  }

  ghost function Pairs(l: seq<Param>): map<string, string> {
    map i | 0 <= i < |l| && IndexOf(l, l[i].0) == i :: l[i].0 := l[i].1
  }

  lemma FirstIsOnly(l: seq<Param>, i: nat)
    requires DistinctNames(l) && i < |l|
    ensures IndexOf(l, l[i].0) == i
  {
    var j := IndexOf(l, l[i].0);
    assert j <= i;
  }

  lemma PairsAre(l: seq<Param>)
    requires DistinctNames(l)
    ensures Lists(l, Pairs(l))
  {
    forall i | 0 <= i < |l|
      ensures l[i].0 in Pairs(l) && Pairs(l)[l[i].0] == l[i].1
    {
      FirstIsOnly(l, i);
    }
  }

  lemma ListsOnly(l: seq<Param>, m: map<string, string>, m': map<string, string>)
    requires Lists(l, m) && Lists(l, m')
    ensures m == m'
  {
    forall name | name in m
      ensures name in m' && m[name] == m'[name]
    {
      var i :| 0 <= i < |l| && l[i].0 == name;
    }
    forall name | name in m'
      ensures name in m
    {
      var i :| 0 <= i < |l| && l[i].0 == name;
    }
  }

  lemma ReplaceLists(rules: Rules, l: seq<Param>, m: map<string, string>, i: nat, value: string)
    requires Lists(l, m) && i < |l|
    ensures Lists(l[i := (l[i].0, value)], m[l[i].0 := value])
    ensures Sound(rules, l) && rules.accepts(l[i].0, value) ==> Sound(rules, l[i := (l[i].0, value)])
  {
    var l' := l[i := (l[i].0, value)];
    var m' := m[l[i].0 := value];
    forall n | n in m'
      ensures exists j | 0 <= j < |l'| :: l'[j].0 == n
    {
      var j :| 0 <= j < |l| && l[j].0 == n;
      assert l'[j].0 == n;
    }
  }

  lemma AppendLists(rules: Rules, l: seq<Param>, m: map<string, string>, name: string, value: string)
    requires Lists(l, m) && name !in m
    ensures Lists(l + [(name, value)], m[name := value])
    ensures Sound(rules, l) && name != "" && rules.accepts(name, value) ==> Sound(rules, l + [(name, value)])
  {
    var l' := l + [(name, value)];
    var m' := m[name := value];
    assert l'[|l|].0 == name;
    forall n | n in m'
      ensures exists j | 0 <= j < |l'| :: l'[j].0 == n
    {
      if n != name {
        var j :| 0 <= j < |l| && l[j].0 == n;
        assert l'[j].0 == n;
      }
    }
  }

  lemma RemoveLists(rules: Rules, l: seq<Param>, m: map<string, string>, i: nat)
    requires Lists(l, m) && i < |l|
    ensures Lists(SwapRemove(l, i), m - {l[i].0})
    ensures Sound(rules, l) ==> Sound(rules, SwapRemove(l, i))
  {
    var l' := SwapRemove(l, i);
    var m' := m - {l[i].0};
    forall n | n in m'
      ensures exists j | 0 <= j < |l'| :: l'[j].0 == n
    {
      var j :| 0 <= j < |l| && l[j].0 == n;
      assert l'[if j == |l| - 1 then i else j].0 == n;
    }
  }

  lemma NameStored(l: seq<Param>, m: map<string, string>, name: string)
    requires Lists(l, m)
    ensures name in m <==> IndexOf(l, name) < |l|
  {
  }

  /** The map a call leaves, in terms of the map it found. */
  function MapAfter(m: map<string, string>, call: Call, answer: Answer): map<string, string> {
    match call
    case Set(Some(name), Some(value), _) => if answer.Done? then m[name := value] else m
    case Unset(Some(name)) => if answer.Done? then m - {name} else m
    case _ => m
  }

  /** One call on a list that stands for a map. */
  lemma StepLists(rules: Rules, tb: Table, call: Call, m: map<string, string>)
    requires Lists(tb.params, m) && Sound(rules, tb.params)
    ensures var (tb', answer) := Step(rules, tb, call);
            Lists(tb'.params, MapAfter(m, call, answer)) && Sound(rules, tb'.params)
  {
    hide Lists, Sound, SwapRemove, IndexOf, Accepted;
    match call
    case Set(Some(name), Some(value), _) =>
      var i := IndexOf(tb.params, name);
      NameStored(tb.params, m, name);
      if i < |tb.params| {
        ReplaceLists(rules, tb.params, m, i, value);
      } else {
        AppendLists(rules, tb.params, m, name, value);
      }
    case Unset(Some(name)) =>
      var i := IndexOf(tb.params, name);
      if i < |tb.params| {
        RemoveLists(rules, tb.params, m, i);
      }
    case _ =>
  }

  lemma {:induction false} RunSound(rules: Rules, tb: Table, calls: seq<Call>)
    requires Sound(rules, tb.params)
    ensures var l := Run(rules, tb, calls).params;
            && Sound(rules, l)
            && (forall i, j | 0 <= i < j < |l| :: l[i].0 != l[j].0)
            && forall i | 0 <= i < |l| :: l[i].0 != "" && rules.accepts(l[i].0, l[i].1)
    decreases |calls|
  {
    if calls != [] {
      hide Step;
      PairsAre(tb.params);
      StepLists(rules, tb, calls[0], Pairs(tb.params));
      RunSound(rules, Step(rules, tb, calls[0]).0, calls[1..]);
    }
  }

  /** What a call does to the map, and when: setting stores or replaces one pair, unsetting deletes one
      name, a refused call and every other call change nothing, and while connected every change is
      refused. */
  lemma MapRefined(rules: Rules, tb: Table, call: Call)
    requires Sound(rules, tb.params)
    ensures var (tb', answer) := Step(rules, tb, call);
            var m := Pairs(tb.params);
            && Sound(rules, tb'.params)
            && Pairs(tb'.params) == MapAfter(m, call, answer)
            && (answer.Refused? ==> tb' == tb)
            && (call.Unset? ==> (answer.Done? <==> call.name.Some? && call.name.value in m && tb.running.None?))
            && (tb.running.Some? && (call.Set? || call.Unset?) ==> answer.Refused?)
  {
    hide Lists, IndexOf, SwapRemove, Pairs, Accepted;
    var m := Pairs(tb.params);
    var (tb', answer) := Step(rules, tb, call);
    PairsAre(tb.params);
    StepLists(rules, tb, call, m);
    PairsAre(tb'.params);
    ListsOnly(tb'.params, Pairs(tb'.params), MapAfter(m, call, answer));
    if call.Unset? && call.name.Some? {
      NameStored(tb.params, m, call.name.value);
      NoEmptyName(rules, tb.params, m);
    }
  }

  lemma NoEmptyName(rules: Rules, l: seq<Param>, m: map<string, string>)
    requires Sound(rules, l) && Lists(l, m)
    ensures "" !in m
  {
  }

  /** Setting a property, on the list itself: when it is done, and that the pairs afterwards are those from
      before with this one stored, or the very same. */
  lemma SetExactly(rules: Rules, tb: Table, name: Option<string>, value: Option<string>, m: Memory)
    requires Sound(rules, tb.params)
    ensures var (tb', answer) := Step(rules, tb, Set(name, value, m));
            && (answer == Done <==>
                  && name.Some? && name.value != "" && value.Some? && tb.running.None?
                  && rules.accepts(name.value, value.value)
                  && m.scratch && m.value
                  && ((exists i | 0 <= i < |tb.params| :: tb.params[i].0 == name.value) || (m.room && m.name)))
            && (answer == Done ==>
                  && tb'.running.None?
                  && forall n, v :: (n, v) in tb'.params <==> if n == name.value then v == value.value else (n, v) in tb.params)
            && (answer != Done ==> tb' == tb)
  {
    if name.Some? {
      var l, l' := tb.params, Step(rules, tb, Set(name, value, m)).0.params;
      var i := IndexOf(l, name.value);
      if i < |l| && l' != l {
        ReplacedPairs(l, i, value.value);
      }
    }
  }

  lemma ReplacedPairs(l: seq<Param>, i: nat, value: string)
    requires DistinctNames(l) && i < |l|
    ensures forall n, v :: (n, v) in l[i := (l[i].0, value)] <==> if n == l[i].0 then v == value else (n, v) in l
  {
    var l' := l[i := (l[i].0, value)];
    forall n, v
      ensures (n, v) in l' <==> if n == l[i].0 then v == value else (n, v) in l
    {
      if n == l[i].0 {
        assert l'[i] == (n, value);
      } else if (n, v) in l {
        var j :| 0 <= j < |l| && l[j] == (n, v);
        assert l'[j] == (n, v);
      }
    }
  }

  /** Taking a property back, likewise. */
  lemma UnsetExactly(rules: Rules, tb: Table, name: Option<string>)
    requires Sound(rules, tb.params)
    ensures var (tb', answer) := Step(rules, tb, Unset(name));
            && (answer == Done <==>
                  name.Some? && tb.running.None? && exists i | 0 <= i < |tb.params| :: tb.params[i].0 == name.value)
            && (answer == Done ==>
                  && tb'.running.None?
                  && forall n, v :: (n, v) in tb'.params <==> n != name.value && (n, v) in tb.params)
            && (answer != Done ==> tb' == tb)
  {
    if name.Some? {
      var i := IndexOf(tb.params, name.value);
      if i < |tb.params| {
        RemovedPairs(tb.params, i);
      }
    }
  }

  lemma RemovedPairs(l: seq<Param>, i: nat)
    requires DistinctNames(l) && i < |l|
    ensures forall n, v :: (n, v) in SwapRemove(l, i) <==> n != l[i].0 && (n, v) in l
  {
    var l' := SwapRemove(l, i);
    forall n, v
      ensures (n, v) in l' <==> n != l[i].0 && (n, v) in l
    {
      if n != l[i].0 && (n, v) in l {
        var j :| 0 <= j < |l| && l[j] == (n, v);
        assert l'[if j == |l| - 1 then i else j] == (n, v);
      }
    }
  }

  /** Connecting: when it is done.  What it builds is in ConnectBuilds. */
  lemma ConnectExactly(rules: Rules, tb: Table, brokers: Option<string>, g: Grants)
    requires Sound(rules, tb.params)
    ensures var (tb', answer) := Step(rules, tb, Connect(brokers, g));
            && (answer == Done <==>
                  && brokers.Some? && brokers.value != "" && tb.running.None?
                  && g.record && g.brokers && g.conf && g.rk && g.thread
                  && rules.accepts("bootstrap.servers", brokers.value) && rules.accepts("compression.type", "lz4")
                  && rules.accepts("queue.buffering.max.messages", "50000") && rules.accepts("enable.idempotence", "true")
                  && rules.accepts("batch.num.messages", "20000") && rules.accepts("queue.buffering.max.ms", "500")
                  && rules.coherent(Built(rules, brokers.value, tb.params)))
            && (answer == Done ==> tb' == Table(tb.params, Some(Built(rules, brokers.value, tb.params))))
            && (answer != Done ==> tb' == tb)
  {
    if brokers.Some? {
      hide Defaults;
      DefaultsAccepted(rules.accepts, brokers.value);
    }
  }

  /** The configuration connecting builds: a property the list names has the value of the last stored pair
      that names it, and any other is one of the six defaults. */
  lemma ConnectBuilds(rules: Rules, brokers: string, l: seq<Param>, p: string)
    ensures var conf := Built(rules, brokers, l);
            var defaults := map[][rules.property("bootstrap.servers") := brokers]
                                 [rules.property("compression.type") := "lz4"]
                                 [rules.property("queue.buffering.max.messages") := "50000"]
                                 [rules.property("enable.idempotence") := "true"]
                                 [rules.property("batch.num.messages") := "20000"]
                                 [rules.property("queue.buffering.max.ms") := "500"];
            && (forall i | 0 <= i < |l| && rules.property(l[i].0) == p && (forall j | i < j < |l| :: rules.property(l[j].0) != p) ::
                  p in conf && conf[p] == l[i].1)
            && ((forall i | 0 <= i < |l| :: rules.property(l[i].0) != p) ==>
                  (p in conf <==> p in defaults) && (p in conf ==> conf[p] == defaults[p]))
  {
    hide Apply, Defaults;
    DefaultsAre(rules.property, brokers);
    var base := Apply(rules.property, map[], Defaults(brokers));
    forall i | 0 <= i < |l| && rules.property(l[i].0) == p && (forall j | i < j < |l| :: rules.property(l[j].0) != p)
      ensures var conf := Built(rules, brokers, l); p in conf && conf[p] == l[i].1
    {
      LastWins(rules.property, base, l, p, i);
    }
    if forall i | 0 <= i < |l| :: rules.property(l[i].0) != p {
      NotNamed(rules.property, base, l, p);
    }
  }

  /** Connected is frozen: until a disconnect, no sequence of calls changes anything. */
  lemma {:induction false} Frozen(rules: Rules, tb: Table, calls: seq<Call>)
    requires tb.running.Some? && Disconnect !in calls
    ensures Run(rules, tb, calls) == tb
    decreases |calls|
  {
    if calls != [] {
      assert calls[0] in calls;
      Frozen(rules, Step(rules, tb, calls[0]).0, calls[1..]);
    }
  }

  /** Whatever was set and unset since the module was loaded, a stored parameter is never the reason for a
      failed connect: each was validated when it was stored. */
  lemma StoredNeverRefused(rules: Rules, calls: seq<Call>, brokers: Option<string>, g: Grants)
    ensures StepConnect(rules, Run(rules, Table([], None), calls), brokers, g).1 != Refused(NotAccepted)
  {
    RunSound(rules, Table([], None), calls);
  }

  // ---------------------------------------------------------------- the order of the list

  /** No two stored names stand for one property with different values. */
  ghost predicate Unambiguous(property: string -> string, m: map<string, string>) {
    forall a, b | a in m && b in m && property(a) == property(b) :: m[a] == m[b]
  }

  /** The configuration is the base, overlaid by the map: a property some stored name stands for has that
      name's value, any other has the base's. */
  ghost predicate IsOverlay(property: string -> string, base: Conf, m: map<string, string>, conf: Conf) {
    && (forall name | name in m :: property(name) in conf && conf[property(name)] == m[name])
    && (forall p | p in conf && !Named(property, m, p) :: p in base && conf[p] == base[p])
    && (forall p | p in base :: p in conf)
  }

  ghost predicate Named(property: string -> string, m: map<string, string>, p: string) {
    exists name | name in m :: property(name) == p
  }

  lemma OverlayUnique(property: string -> string, base: Conf, m: map<string, string>, c: Conf, c': Conf)
    requires IsOverlay(property, base, m, c) && IsOverlay(property, base, m, c')
    ensures c == c'
  {
  }

  /** Whatever is set last for a property is what it has in the end. */
  lemma {:induction false} LastWins(property: string -> string, base: Conf, l: seq<Param>, p: string, i: nat)
    requires i < |l| && property(l[i].0) == p && forall j | i < j < |l| :: property(l[j].0) != p
    ensures var conf := Apply(property, base, l); p in conf && conf[p] == l[i].1
    decreases |l|
  {
    if i < |l| - 1 {
      LastWins(property, base, l[..|l| - 1], p, i);
    }
  }

  /** A property nothing in the list stands for keeps what it had. */
  lemma {:induction false} NotNamed(property: string -> string, base: Conf, l: seq<Param>, p: string)
    requires forall i | 0 <= i < |l| :: property(l[i].0) != p
    ensures var conf := Apply(property, base, l);
            (p in conf <==> p in base) && (p in base ==> conf[p] == base[p])
    decreases |l|
  {
    if l != [] {
      NotNamed(property, base, l[..|l| - 1], p);
    }
  }

  lemma {:induction false} NeverUnset(property: string -> string, base: Conf, l: seq<Param>, p: string)
    requires p in base
    ensures p in Apply(property, base, l)
    decreases |l|
  {
    if l != [] {
      NeverUnset(property, base, l[..|l| - 1], p);
    }
  }

  lemma LastIndex(property: string -> string, l: seq<Param>, p: string, n: nat) returns (i: nat)
    requires n <= |l| && exists i | 0 <= i < n :: property(l[i].0) == p
    ensures i < n && property(l[i].0) == p && forall j | i < j < n :: property(l[j].0) != p
  {
    if property(l[n - 1].0) == p {
      i := n - 1;
    } else {
      i := LastIndex(property, l, p, n - 1);
    }
  }

  /** Setting an unambiguous list's properties one after the other overlays the map it stands for. */
  lemma AppliedIsOverlay(property: string -> string, base: Conf, l: seq<Param>, m: map<string, string>)
    requires Lists(l, m) && Unambiguous(property, m)
    ensures IsOverlay(property, base, m, Apply(property, base, l))
  {
    var conf := Apply(property, base, l);
    forall name | name in m
      ensures property(name) in conf && conf[property(name)] == m[name]
    {
      var i := LastIndex(property, l, property(name), |l|);
      LastWins(property, base, l, property(name), i);
    }
    forall p | p in conf && !Named(property, m, p)
      ensures p in base && conf[p] == base[p]
    {
      NotNamed(property, base, l, p);
    }
    forall p | p in base
      ensures p in conf
    {
      NeverUnset(property, base, l, p);
    }
  }

  const ANYTHING: Rules := Rules((_, _) => true, name => name, _ => true)

  /** Every map can be written down. */
  lemma {:induction false} Listing(m: map<string, string>) returns (l: seq<Param>)
    ensures Lists(l, m)
    decreases |m|
  {
    if m == map[] {
      l := [];
    } else {
      var name :| name in m;
      var rest := Listing(m - {name});
      l := rest + [(name, m[name])];
      assert m == (m - {name})[name := m[name]];
      AppendLists(ANYTHING, rest, m - {name}, name, m[name]);
    }
  }

  /** Any name can come last. */
  lemma EndingIn(m: map<string, string>, name: string) returns (l: seq<Param>)
    requires name in m
    ensures Lists(l, m) && l != [] && l[|l| - 1] == (name, m[name])
  {
    hide Lists;
    var rest := Listing(m - {name});
    AppendLists(ANYTHING, rest, m - {name}, name, m[name]);
    assert m == (m - {name})[name := m[name]];
    l := rest + [(name, m[name])];
  }

  ghost predicate OrderIrrelevant(property: string -> string, base: Conf, m: map<string, string>) {
    forall l, l' | Lists(l, m) && Lists(l', m) :: Apply(property, base, l) == Apply(property, base, l')
  }

  /** The order left behind by setting, replacing and swap-removal does not matter exactly when no two
      stored names are aliases of one property with different values. */
  lemma OrderInsignificant(property: string -> string, base: Conf, m: map<string, string>)
    ensures OrderIrrelevant(property, base, m) <==> Unambiguous(property, m)
  {
    if Unambiguous(property, m) {
      forall l, l' | Lists(l, m) && Lists(l', m)
        ensures Apply(property, base, l) == Apply(property, base, l')
      {
        AppliedIsOverlay(property, base, l, m);
        AppliedIsOverlay(property, base, l', m);
        OverlayUnique(property, base, m, Apply(property, base, l), Apply(property, base, l'));
      }
    } else {
      var a, b :| a in m && b in m && property(a) == property(b) && m[a] != m[b];
      var l := EndingIn(m, a);
      var l' := EndingIn(m, b);
      assert Apply(property, base, l)[property(a)] == m[a];
      assert Apply(property, base, l')[property(a)] == m[b];
    }
  }

  /** librdkafka files `acks` under `request.required.acks`. */
  function AcksAlias(name: string): string {
    if name == "acks" then "request.required.acks" else name
  }

  /** librdkafka makes no idempotent producer that does not wait for all replicas. */
  predicate AcksCoherent(conf: Conf) {
    ("enable.idempotence" in conf && conf["enable.idempotence"] == "true" && "request.required.acks" in conf) ==>
      conf["request.required.acks"] == "all"
  }

  const RDKAFKA: Rules := Rules((_, _) => true, AcksAlias, AcksCoherent)
  const ENOUGH: Memory := Memory(true, true, true, true)
  const ALL: Grants := Grants(true, true, true, true, true)

  /** The calls that enter a list. */
  function Entering(l: seq<Param>): seq<Call> {
    if l == [] then [] else Entering(l[..|l| - 1]) + [Set(Some(l[|l| - 1].0), Some(l[|l| - 1].1), ENOUGH)]
  }

  lemma {:induction false} RunOn(rules: Rules, tb: Table, calls: seq<Call>, call: Call)
    ensures Run(rules, tb, calls + [call]) == Step(rules, Run(rules, tb, calls), call).0
    decreases |calls|
  {
    hide Step;
    if calls == [] {
      assert [call][1..] == [];
    } else {
      assert (calls + [call])[1..] == calls[1..] + [call];
      RunOn(rules, Step(rules, tb, calls[0]).0, calls[1..], call);
    }
  }

  lemma {:induction false} Entered(rules: Rules, l: seq<Param>)
    requires Sound(rules, l)
    ensures Run(rules, Table([], None), Entering(l)) == Table(l, None)
    decreases |l|
  {
    if l != [] {
      var before := l[..|l| - 1];
      var call := Set(Some(l[|l| - 1].0), Some(l[|l| - 1].1), ENOUGH);
      Entered(rules, before);
      RunOn(rules, Table([], None), Entering(before), call);
      assert forall i | 0 <= i < |before| :: before[i].0 == l[i].0;
      assert before + [l[|l| - 1]] == l;
    }
  }

  /** Entering a list and connecting: what the producer is made from, if it is made. */
  lemma EnteredThenConnected(rules: Rules, l: seq<Param>, brokers: string)
    requires Sound(rules, l) && brokers != "" && Accepted(rules.accepts, Defaults(brokers))
    ensures Run(rules, Table([], None), Entering(l) + [Connect(Some(brokers), ALL)]).running
            == if rules.coherent(Built(rules, brokers, l)) then Some(Built(rules, brokers, l)) else None
  {
    Entered(rules, l);
    RunOn(rules, Table([], None), Entering(l), Connect(Some(brokers), ALL));
    hide Run, Entering, Built;
  }

  /** A list that ends with a value for acks, under either of its names. */
  lemma AcksLast(brokers: string, l: seq<Param>, name: string, value: string)
    requires name in {"acks", "request.required.acks"}
    ensures var conf := Built(RDKAFKA, brokers, l + [(name, value)]);
            "request.required.acks" in conf && conf["request.required.acks"] == value
  {
    LastWins(AcksAlias, Apply(AcksAlias, map[], Defaults(brokers)), l + [(name, value)], "request.required.acks", |l|);
  }

  /** Idempotence is on, unless the list says otherwise. */
  lemma IdempotenceByDefault(brokers: string, l: seq<Param>)
    requires forall i | 0 <= i < |l| :: AcksAlias(l[i].0) != "enable.idempotence"
    ensures var conf := Built(RDKAFKA, brokers, l); "enable.idempotence" in conf && conf["enable.idempotence"] == "true"
  {
    NotNamed(AcksAlias, Apply(AcksAlias, map[], Defaults(brokers)), l, "enable.idempotence");
    LastWins(AcksAlias, map[], Defaults(brokers), "enable.idempotence", 3);
  }

  /** So the order of the list does matter for tables that can be entered: with idempotence off, setting the
      two names for acks in one order or the other connects either way, and gives different producers. */
  lemma OrderMatters(brokers: string)
    requires brokers != ""
    ensures var off := ("enable.idempotence", "false");
            var one := ("acks", "1");
            var all := ("request.required.acks", "all");
            var connect := Connect(Some(brokers), ALL);
            var r := Run(RDKAFKA, Table([], None), Entering([off, one, all]) + [connect]).running;
            var r' := Run(RDKAFKA, Table([], None), Entering([off, all, one]) + [connect]).running;
            r.Some? && r'.Some? && r != r'
  {
    var off := ("enable.idempotence", "false");
    var one := ("acks", "1");
    var all := ("request.required.acks", "all");
    hide Built, Run, Entering, Apply, Defaults;
    EnteredThenConnected(RDKAFKA, [off, one, all], brokers);
    EnteredThenConnected(RDKAFKA, [off, all, one], brokers);
    IdempotenceOff(brokers, one, all);
    IdempotenceOff(brokers, all, one);
    AcksLast(brokers, [off, one], all.0, all.1);
    AcksLast(brokers, [off, all], one.0, one.1);
    assert [off, one] + [all] == [off, one, all] && [off, all] + [one] == [off, all, one];
  }

  lemma IdempotenceOff(brokers: string, a: Param, b: Param)
    requires a.0 in {"acks", "request.required.acks"} && b.0 in {"acks", "request.required.acks"}
    ensures var conf := Built(RDKAFKA, brokers, [("enable.idempotence", "false"), a, b]);
            "enable.idempotence" in conf && conf["enable.idempotence"] == "false"
  {
    LastWins(AcksAlias, Apply(AcksAlias, map[], Defaults(brokers)), [("enable.idempotence", "false"), a, b], "enable.idempotence", 0);
  }

  /** And with idempotence left on, the order decides whether the module connects at all. */
  lemma OrderDecides(brokers: string)
    requires brokers != ""
    ensures var one := ("acks", "1");
            var all := ("request.required.acks", "all");
            var connect := Connect(Some(brokers), ALL);
            && Run(RDKAFKA, Table([], None), Entering([one, all]) + [connect]).running.Some?
            && Run(RDKAFKA, Table([], None), Entering([all, one]) + [connect]).running.None?
  {
    var one := ("acks", "1");
    var all := ("request.required.acks", "all");
    hide Built, Run, Entering, Apply, Defaults;
    EnteredThenConnected(RDKAFKA, [one, all], brokers);
    EnteredThenConnected(RDKAFKA, [all, one], brokers);
    IdempotenceByDefault(brokers, [one, all]);
    IdempotenceByDefault(brokers, [all, one]);
    AcksLast(brokers, [one], all.0, all.1);
    AcksLast(brokers, [all], one.0, one.1);
    assert [one] + [all] == [one, all] && [all] + [one] == [all, one];
  }

  // ---------------------------------------------------------------- connecting again

  /** No call in this run changes a parameter. */
  predicate Untouched(rules: Rules, tb: Table, calls: seq<Call>)
    decreases |calls|
  {
    calls == [] ||
    (((calls[0].Set? || calls[0].Unset?) ==> Step(rules, tb, calls[0]).1.Refused?)
     && Untouched(rules, Step(rules, tb, calls[0]).0, calls[1..]))
  }

  lemma {:induction false} ParamsStay(rules: Rules, tb: Table, calls: seq<Call>)
    requires Untouched(rules, tb, calls)
    ensures Run(rules, tb, calls).params == tb.params
    decreases |calls|
  {
    if calls != [] {
      ParamsStay(rules, Step(rules, tb, calls[0]).0, calls[1..]);
    }
  }

  /** The parameters survive a disconnect: connecting to the same brokers, any number of disconnects and
      connects to whatever later, builds the same configuration, as long as no parameter was changed in
      between; and it succeeds whenever memory, librdkafka and the thread library grant it. */
  lemma ReconnectSame(rules: Rules, tb: Table, brokers: Option<string>, g: Grants, calls: seq<Call>, g': Grants)
    requires StepConnect(rules, tb, brokers, g).1.Done?
    requires Untouched(rules, StepConnect(rules, tb, brokers, g).0, calls)
    requires Run(rules, StepConnect(rules, tb, brokers, g).0, calls).running.None?
    ensures var again := StepConnect(rules, Run(rules, StepConnect(rules, tb, brokers, g).0, calls), brokers, g');
            && (again.1.Done? <==> g'.record && g'.brokers && g'.conf && g'.rk && g'.thread)
            && (again.1.Done? ==> again.0.running == StepConnect(rules, tb, brokers, g).0.running)
  {
    ParamsStay(rules, StepConnect(rules, tb, brokers, g).0, calls);
  }

  // ---------------------------------------------------------------- the table as the code keeps it

  /** The part of kafka_tables_t that connecting uses. */
  class ParamTable {
    const lib: Library
    const params: Slots<Param>
    var producer: Producer?

    ghost predicate Valid()
      reads this, lib, params, params.data, producer
    {
      && params.Valid() && lib.Valid()
      && Sound(Judged(), params.Contents())
      && if producer == null then lib.Clean()
         else producer.lib == lib && producer.Owns() && producer.rk.Some? && producer.running && producer.threadStarted
    }

    ghost function Judged(): Rules {
      Rules(lib.accepts, lib.property, lib.coherent)
    }

    ghost function State(): Table
      reads this, lib, params, params.data, producer
      requires params.Valid()
    {
      Table(params.Contents(),
            if producer == null || producer.rk.None? || producer.rk.value !in lib.rks then None
            else Some(lib.rks[producer.rk.value]))
    }

    constructor (lib: Library)
      requires lib.Valid() && lib.Clean()
      ensures Valid() && this.lib == lib && State() == Table([], None) && fresh(params) && fresh(params.data)
    {
      this.lib := lib;
      params := new Slots();
      producer := null;
    }

    /** The lookup loop both operations share. */
    method FindParam(name: string) returns (i: nat)
      requires params.Valid()
      ensures i == IndexOf(params.Contents(), name)
    {
      i := 0;
      while i < params.count
        invariant i <= params.count
        invariant forall j | 0 <= j < i :: params.Contents()[j].0 != name
      {
        if params.data[i].0 == name {
          break;
        }
        i := i + 1;
      }
    }

    /** kafka_table_validate_param, on a scratch configuration that is given back on every path. */
    method Validate(name: Option<string>, value: Option<string>, m: Memory) returns (answer: Answer)
      requires lib.Valid()
      modifies lib
      ensures lib.Valid() && old(lib.log) <= lib.log
      ensures lib.confs == old(lib.confs) && lib.rks == old(lib.rks) && lib.threads == old(lib.threads)
      ensures answer == (if name.None? || name.value == "" || value.None? then Refused(EmptyName)
                         else if !m.scratch then Refused(OutOfMemory)
                         else if !lib.accepts(name.value, value.value) then Refused(NotAccepted)
                         else Done)
    {
      if name.None? || name.value == "" || value.None? {
        return Refused(EmptyName);
      }
      var scratch := lib.ConfCreate(m.scratch);
      if scratch.None? {
        return Refused(OutOfMemory);
      }
      var ok := lib.ConfSet(scratch.value, name.value, value.value);
      lib.ConfDestroy(scratch.value);
      return if ok then Done else Refused(NotAccepted);
    }

    /** kafka_table_set_param */
    method SetParam(name: Option<string>, value: Option<string>, m: Memory) returns (answer: Answer)
      requires Valid()
      modifies lib, params, params.data
      ensures Valid() && old(lib.log) <= lib.log
      ensures params.data == old(params.data) || fresh(params.data)
      ensures var room := m.room || old(params.count < params.data.Length);
              (State(), answer) == StepSet(Judged(), old(State()), name, value, m.(room := room))
    {
      hide SwapRemove, Settable, DistinctNames, Sound, IndexOf, Slots.Valid;
      answer := Validate(name, value, m);
      if answer.Refused? {
        return;
      }
      if producer != null {
        return Refused(AlreadyConnected);
      }
      answer := Store(name.value, value.value, m);
    }

    /** Setting a property again replaces it; otherwise it is appended. */
    method Store(name: string, value: string, m: Memory) returns (answer: Answer)
      requires params.Valid() && Sound(Judged(), params.Contents()) && name != "" && lib.accepts(name, value)
      modifies params, params.data
      ensures params.Valid() && Sound(Judged(), params.Contents())
      ensures params.data == old(params.data) || fresh(params.data)
      ensures var room := m.room || old(params.count < params.data.Length);
              (Table(params.Contents(), None), answer)
              == StepSet(Judged(), Table(old(params.Contents()), None), Some(name), Some(value), m.(scratch := true, room := room))
    {
      hide Settable, DistinctNames, Sound, IndexOf;
      StoredOrNew(Judged(), params.Contents(), name, value);
      var i := FindParam(name);
      if i < params.count {
        if !m.value {
          return Refused(OutOfMemory);
        }
        params.Put(i, (params.data[i].0, value));
        return Done;
      }
      var grown := params.Grow(m.room);
      if !grown || !m.name || !m.value {
        return Refused(OutOfMemory);
      }
      params.Append((name, value));
      return Done;
    }

    static lemma StoredOrNew(rules: Rules, l: seq<Param>, name: string, value: string)
      requires Sound(rules, l) && name != "" && rules.accepts(name, value)
      ensures var i := IndexOf(l, name);
              if i < |l| then l[i].0 == name && Sound(rules, l[i := (name, value)]) else Sound(rules, l + [(name, value)])
    {
      hide IndexOf, Settable, DistinctNames;
      PairsAre(l);
      NameStored(l, Pairs(l), name);
      var i := IndexOf(l, name);
      if i < |l| {
        ReplaceLists(rules, l, Pairs(l), i, value);
      } else {
        AppendLists(rules, l, Pairs(l), name, value);
      }
    }

    /** kafka_table_unset_param */
    method UnsetParam(name: Option<string>) returns (answer: Answer)
      requires Valid()
      modifies params, params.data
      ensures Valid() && params.data == old(params.data)
      ensures (State(), answer) == StepUnset(old(State()), name)
    {
      hide SwapRemove, Settable, DistinctNames, Sound, IndexOf, Slots.Valid;
      if name.None? || name.value == "" {
        return Refused(EmptyName);
      }
      if producer != null {
        return Refused(AlreadyConnected);
      }
      answer := Erase(name.value);
    }

    /** The pair with that name, if there is one, leaves the list; the last fills the hole. */
    method Erase(name: string) returns (answer: Answer)
      requires params.Valid() && Sound(Judged(), params.Contents()) && name != ""
      modifies params, params.data
      ensures params.Valid() && Sound(Judged(), params.Contents()) && params.data == old(params.data)
      ensures (Table(params.Contents(), None), answer) == StepUnset(Table(old(params.Contents()), None), Some(name))
    {
      hide SwapRemove, Settable, DistinctNames, Sound, IndexOf;
      var i := FindParam(name);
      if i == params.count {
        return Refused(Missing);
      }
      RemovedSound(Judged(), params.Contents(), i);
      params.Remove(i);
      return Done;
    }

    static lemma RemovedSound(rules: Rules, l: seq<Param>, i: nat)
      requires Sound(rules, l) && i < |l|
      ensures Sound(rules, SwapRemove(l, i))
    {
      hide Settable, SwapRemove;
      PairsAre(l);
      RemoveLists(rules, l, Pairs(l), i);
    }

    /** kafka_table_connect: on every path that fails, whatever was made is given back. */
    method ConnectTo(brokers: Option<string>, g: Grants) returns (answer: Answer)
      requires Valid()
      modifies this`producer, lib
      ensures Valid() && old(lib.log) <= lib.log
      ensures (State(), answer) == StepConnect(Judged(), old(State()), brokers, g)
      ensures answer.Refused? ==> producer == old(producer)
      ensures answer.Done? ==> old(producer) == null && producer != null && fresh(producer)
    {
      hide Sound, Settable, Apply, Defaults, Accepted, Library.Valid;
      if brokers.None? || brokers.value == "" {
        return Refused(EmptyBrokers);
      }
      if producer != null {
        return Refused(AlreadyConnected);
      }
      DefaultsAccepted(lib.accepts, brokers.value);
      var tk := Create(lib, brokers.value, g);
      if tk == null {
        return Refused(NoConfiguration);
      }
      var ok := Configure(tk, brokers.value);
      if !ok {
        tk.Dispose();
        return Refused(NotAccepted);
      }
      ok := tk.Run(g);
      if !ok {
        tk.Dispose();
        return Refused(NotRun);
      }
      producer := tk;
      return Done;
    }

    /** The loop over the list; the defaults are already set. */
    method Configure(tk: Producer, brokers: string) returns (ok: bool)
      requires params.Valid() && tk.lib == lib
      requires tk.Configured(Apply(lib.property, map[], Defaults(brokers)))
      modifies lib`confs
      ensures tk.Owns() && tk.rk.None? && !tk.running
      ensures ok <==> Settable(Judged(), params.Contents())
      ensures ok ==> tk.Configured(Built(Judged(), brokers, params.Contents()))
    {
      hide Apply, Defaults, Library.Valid;
      ghost var base := Apply(lib.property, map[], Defaults(brokers));
      ghost var l := params.Contents();
      ApplyNone(lib.property, base);
      var i := 0;
      while i < params.count
        invariant i <= params.count
        invariant Settable(Judged(), l[..i])
        invariant tk.Configured(Apply(lib.property, base, l[..i]))
      {
        ok := tk.SetParam(params.data[i].0, params.data[i].1);
        if !ok {
          return;
        }
        assert l[..i + 1] == l[..i] + [l[i]];
        ApplyExtend(lib.property, base, l[..i], l[i].0, l[i].1);
        i := i + 1;
      }
      assert l[..i] == l;
      return true;
    }

    static lemma ApplyNone(property: string -> string, base: Conf)
      ensures Apply(property, base, []) == base
    {
    }

    /** What kafka_table_dismiss_all does to this part. */
    method DisposeProducer()
      requires Valid()
      modifies this`producer, producer, lib
      ensures Valid() && old(lib.log) <= lib.log
      ensures producer == null && params.Contents() == old(params.Contents())
      ensures (State(), Done) == Step(Judged(), old(State()), Disconnect)
      ensures lib.Clean()
    {
      if producer != null {
        producer.Dispose();
      }
      producer := null;
    }
  }
}
