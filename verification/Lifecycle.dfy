/** The producer's life: what librdkafka and the thread library are asked to make, and who has to give
    it back (tek_kafka_producer_create, _set_param, _run and _dispose in kafka-engine.c). */
module Lifecycle {
  import opened Options

  type Handle = nat   // a configuration object; the producer that took it over goes by the same name

  type Conf = map<string, string>   // by property, whatever name it was set under

  /** A call that makes, hands over or gives back something. */
  datatype Event =
    | ConfNew(c: Handle)
    | ConfDestroy(c: Handle)
    | RkNew(c: Handle)        // succeeded: the configuration now belongs to the producer
    | Started(c: Handle)      // the poll thread of that producer
    | Joined(c: Handle)
    | RkDestroy(c: Handle)

  /** What is outstanding: configurations of ours, producers, and poll threads. */
  datatype Holding = Holding(known: set<Handle>, confs: set<Handle>, rks: set<Handle>, threads: set<Handle>)

  const NOTHING: Holding := Holding({}, {}, {}, {})

  /** Whether the call may be made at all; a destroyed object may not be used again, and a producer may
      not be destroyed under its poll thread. */
  predicate Allowed(h: Holding, e: Event) {
    match e
    case ConfNew(c) => c !in h.known
    case ConfDestroy(c) => c in h.confs
    case RkNew(c) => c in h.confs
    case Started(c) => c in h.rks && c !in h.threads
    case Joined(c) => c in h.threads
    case RkDestroy(c) => c in h.rks && c !in h.threads
  }

  function Effect(h: Holding, e: Event): Holding {
    match e
    case ConfNew(c) => h.(known := h.known + {c}, confs := h.confs + {c})
    case ConfDestroy(c) => h.(confs := h.confs - {c})
    case RkNew(c) => h.(confs := h.confs - {c}, rks := h.rks + {c})
    case Started(c) => h.(threads := h.threads + {c})
    case Joined(c) => h.(threads := h.threads - {c})
    case RkDestroy(c) => h.(rks := h.rks - {c})
  }

  /** What is outstanding after these calls, if each was allowed when it was made. */
  function Audit(log: seq<Event>): Option<Holding> {
    if log == [] then Some(NOTHING)
    else
      var e := log[|log| - 1];
      match Audit(log[..|log| - 1])
      case None => None
      case Some(h) => if Allowed(h, e) then Some(Effect(h, e)) else None
  }

  function Count(log: seq<Event>, e: Event): nat {
    multiset(log)[e]
  }

  function One(b: bool): nat {
    if b then 1 else 0
  }

  /** In calls that were all allowed: a configuration is made once, and is destroyed once or handed to a
      producer once and never both, unless it is still held; a producer is destroyed once; a thread that
      was started is joined once, one that was not never. */
  lemma {:induction false} OnceEach(log: seq<Event>, c: Handle)
    requires Audit(log).Some?
    ensures var h := Audit(log).value;
            && Count(log, ConfNew(c)) == One(c in h.known)
            && Count(log, ConfNew(c)) == Count(log, ConfDestroy(c)) + Count(log, RkNew(c)) + One(c in h.confs)
            && Count(log, RkNew(c)) == Count(log, RkDestroy(c)) + One(c in h.rks)
            && Count(log, Started(c)) == Count(log, Joined(c)) + One(c in h.threads)
            && h.confs <= h.known && h.rks <= h.known && h.threads <= h.rks
            && h.confs !! h.rks
    decreases |log|
  {
    if log != [] {
      var e := log[|log| - 1];
      OnceEach(log[..|log| - 1], c);
      assert log == log[..|log| - 1] + [e];
    }
  }

  /** At the moment a producer is destroyed it is alive and its poll thread is not, and nothing uses it
      afterwards. */
  lemma {:induction false} LastUse(log: seq<Event>, i: nat, j: nat, c: Handle)
    requires Audit(log).Some? && i < |log| && log[i] == RkDestroy(c)
    ensures Audit(log[..i]).Some? && c in Audit(log[..i]).value.rks && c !in Audit(log[..i]).value.threads
    ensures c in Audit(log).value.known && c !in Audit(log).value.confs + Audit(log).value.rks + Audit(log).value.threads
    ensures i < j < |log| ==> log[j] !in {ConfNew(c), ConfDestroy(c), RkNew(c), Started(c), Joined(c), RkDestroy(c)}
    decreases |log|
  {
    var last := |log| - 1;
    var before := log[..last];
    OnceEach(before, c);
    if i < last {
      LastUse(before, i, if i < j < last then j else i, c);
      assert before[..i] == log[..i];
    }
  }

  /** librdkafka and the thread library, by what the code may assume of them: whether one property is
      accepted depends on its name and value alone, what is accepted is stored under the property the name
      stands for, and a producer is made only from a configuration that is coherent as a whole.  Every method's precondition is that the object is still the caller's to use. */
  class Library {
    const accepts: (string, string) -> bool
    const property: string -> string
    const coherent: Conf -> bool
    var confs: map<Handle, Conf>
    var rks: map<Handle, Conf>     // a producer keeps the configuration it was made from
    var threads: set<Handle>
    var next: Handle
    ghost var log: seq<Event>

    ghost predicate Valid()
      reads this
    {
      && Audit(log).Some?
      && var h := Audit(log).value;
      && h.confs == confs.Keys && h.rks == rks.Keys && h.threads == threads
      && threads <= rks.Keys && confs.Keys !! rks.Keys && h.confs + h.rks <= h.known
      && forall c | c in h.known :: c < next
    }

    /** Nothing has been left lying about. */
    ghost predicate Clean()
      reads this
    {
      confs == map[] && rks == map[] && threads == {}
    }

    constructor (accepts: (string, string) -> bool, property: string -> string, coherent: Conf -> bool)
      ensures Valid() && Clean() && log == []
      ensures this.accepts == accepts && this.property == property && this.coherent == coherent
    {
      this.accepts, this.property, this.coherent := accepts, property, coherent;
      confs, rks, threads, next, log := map[], map[], {}, 0, [];
    }

    /** rd_kafka_conf_new, which may be out of memory. */
    method ConfCreate(granted: bool) returns (c: Option<Handle>)
      requires Valid()
      modifies this
      ensures Valid() && old(log) <= log
      ensures c.Some? <==> granted
      ensures c.None? ==> confs == old(confs)
      ensures c.Some? ==> c.value !in old(confs) && c.value !in rks && confs == old(confs)[c.value := map[]]
      ensures rks == old(rks) && threads == old(threads)
    {
      if !granted {
        return None;
      }
      LogNext(ConfNew(next));
      confs := confs[next := map[]];
      c := Some(next);
      next := next + 1;
    }

    ghost method LogNext(e: Event)
      requires Audit(log).Some? && Allowed(Audit(log).value, e)
      modifies `log
      ensures log == old(log) + [e] && Audit(log) == Some(Effect(old(Audit(log).value), e))
    {
      assert (log + [e])[..|log|] == log;
      log := log + [e];
    }

    /** rd_kafka_conf_set */
    method ConfSet(c: Handle, name: string, value: string) returns (ok: bool)
      requires Valid() && c in confs
      modifies this`confs
      ensures Valid()
      ensures ok <==> accepts(name, value)
      ensures confs == if ok then old(confs)[c := old(confs[c])[property(name) := value]] else old(confs)
    {
      ok := accepts(name, value);
      if ok {
        confs := confs[c := confs[c][property(name) := value]];
      }
    }

    method ConfDestroy(c: Handle)
      requires Valid() && c in confs
      modifies this
      ensures Valid() && old(log) <= log
      ensures confs == old(confs) - {c} && rks == old(rks) && threads == old(threads)
    {
      LogNext(Event.ConfDestroy(c));
      confs := confs - {c};
    }

    /** rd_kafka_new: the configuration changes hands only if it succeeds. */
    method RkCreate(c: Handle, granted: bool) returns (ok: bool)
      requires Valid() && c in confs
      modifies this
      ensures Valid() && old(log) <= log
      ensures ok <==> granted && coherent(old(confs[c]))
      ensures ok ==> confs == old(confs) - {c} && rks == old(rks)[c := old(confs[c])]
      ensures !ok ==> confs == old(confs) && rks == old(rks)
      ensures threads == old(threads)
    {
      ok := granted && coherent(confs[c]);
      if ok {
        LogNext(RkNew(c));
        rks := rks[c := confs[c]];
        confs := confs - {c};
      }
    }

    /** pthread_create of the poll thread, which uses the producer until it is joined. */
    method ThreadStart(c: Handle, granted: bool) returns (ok: bool)
      requires Valid() && c in rks && c !in threads
      modifies this
      ensures Valid() && old(log) <= log
      ensures ok == granted
      ensures threads == if ok then old(threads) + {c} else old(threads)
      ensures confs == old(confs) && rks == old(rks)
    {
      ok := granted;
      if ok {
        LogNext(Started(c));
        threads := threads + {c};
      }
    }

    /** pthread_join: it returns only because the thread has been told to stop. */
    method ThreadJoin(c: Handle, running: bool)
      requires Valid() && c in threads && !running
      modifies this
      ensures Valid() && old(log) <= log
      ensures threads == old(threads) - {c} && confs == old(confs) && rks == old(rks)
    {
      LogNext(Joined(c));
      threads := threads - {c};
    }

    method Destroy(c: Handle)
      requires Valid() && c in rks && c !in threads
      modifies this
      ensures Valid() && old(log) <= log
      ensures rks == old(rks) - {c} && confs == old(confs) && threads == old(threads)
    {
      LogNext(RkDestroy(c));
      rks := rks - {c};
    }
  }

  /** While not connected: every configuration ever made was destroyed by us or taken over by a producer,
      once; every producer was destroyed once; and every poll thread that was started was joined once. */
  lemma AllGivenBack(lib: Library, c: Handle)
    requires lib.Valid() && lib.Clean() && ConfNew(c) in lib.log
    ensures Count(lib.log, ConfDestroy(c)) + Count(lib.log, RkNew(c)) == Count(lib.log, ConfNew(c)) == 1
    ensures Count(lib.log, RkDestroy(c)) == Count(lib.log, RkNew(c))
    ensures Count(lib.log, Joined(c)) == Count(lib.log, Started(c))
  {
    OnceEach(lib.log, c);
  }

  /** What the outside decides while a producer is made: three allocations, and whether librdkafka and
      the thread library build what they are asked for. */
  datatype Grants = Grants(record: bool, brokers: bool, conf: bool, rk: bool, thread: bool)

  /** The defaults tek_kafka_producer_create sets, in order. */
  function Defaults(brokers: string): seq<(string, string)> {
    [("bootstrap.servers", brokers), ("compression.type", "lz4"), ("queue.buffering.max.messages", "50000"),
     ("enable.idempotence", "true"), ("batch.num.messages", "20000"), ("queue.buffering.max.ms", "500")]
  }

  predicate Accepted(accepts: (string, string) -> bool, l: seq<(string, string)>) {
    forall i | 0 <= i < |l| :: accepts(l[i].0, l[i].1)
  }

  /** A configuration after setting these properties, in order. */
  function Apply(property: string -> string, conf: Conf, l: seq<(string, string)>): Conf {
    if l == [] then conf
    else Apply(property, conf, l[..|l| - 1])[property(l[|l| - 1].0) := l[|l| - 1].1]
  }

  /** tek_kafka_t */
  class Producer {
    const lib: Library
    var brokers: Option<string>
    var conf: Option<Handle>
    var rk: Option<Handle>
    var running: bool
    var threadStarted: bool
    ghost var freed: bool

    constructor (lib: Library)
      ensures this.lib == lib && brokers.None? && conf.None? && rk.None? && !running && !threadStarted && !freed
    {
      this.lib := lib;
      brokers, conf, rk, running, threadStarted, freed := None, None, None, false, false, false;
    }

    /** What the fields name is there to be given back, and nothing else is. */
    ghost predicate Owns()
      reads this, lib
    {
      && !freed && lib.Valid()
      && (conf.None? || rk.None?)
      && lib.confs.Keys == (if conf.Some? then {conf.value} else {})
      && lib.rks.Keys == (if rk.Some? then {rk.value} else {})
      && lib.threads == (if threadStarted && rk.Some? then {rk.value} else {})
      && (threadStarted ==> rk.Some?)
      && (running ==> threadStarted)
    }

    /** Built, and not yet run. */
    ghost predicate Configured(c: Conf)
      reads this, lib
    {
      Owns() && conf.Some? && !running && lib.confs[conf.value] == c
    }

    /** Connected. */
    ghost predicate Runs(c: Conf)
      reads this, lib
    {
      Owns() && rk.Some? && running && threadStarted && lib.rks[rk.value] == c
    }

    /** kafka_conf_set on the configuration that is being built. */
    method SetDefault(name: string, value: string) returns (ok: bool)
      requires Owns() && conf.Some? && !running
      modifies lib`confs
      ensures Owns() && (ok <==> lib.accepts(name, value))
      ensures ok ==> Configured(old(lib.confs[conf.value])[lib.property(name) := value])
    {
      ok := lib.ConfSet(conf.value, name, value);
    }

    /** tek_kafka_producer_set_param */
    method SetParam(name: string, value: string) returns (ok: bool)
      requires Owns()
      modifies lib`confs
      ensures Owns()
      ensures ok <==> name != "" && conf.Some? && lib.accepts(name, value)
      ensures ok ==> Configured(old(lib.confs[conf.value])[lib.property(name) := value])
      ensures !ok ==> lib.confs == old(lib.confs)
    {
      if name == "" || conf.None? {
        return false;
      }
      ok := lib.ConfSet(conf.value, name, value);
    }

    /** tek_kafka_producer_run */
    method Run(g: Grants) returns (ok: bool)
      requires Owns()
      modifies this, lib
      ensures Owns() && old(lib.log) <= lib.log
      ensures ok <==> old(conf).Some? && g.rk && old(lib.coherent(lib.confs[conf.value])) && g.thread
      ensures ok ==> Runs(old(lib.confs[conf.value]))
      ensures old(conf).None? ==> unchanged(this) && unchanged(lib)
    {
      if conf.None? {
        return false;
      }
      ok := lib.RkCreate(conf.value, g.rk);
      if !ok {
        lib.ConfDestroy(conf.value);
        conf := None;
        return;
      }
      rk := conf;
      conf := None;
      running := true;
      ok := lib.ThreadStart(rk.value, g.thread);
      if !ok {
        running := false;
        return;
      }
      threadStarted := true;
    }

    /** tek_kafka_producer_dispose: everything is given back, on every path. */
    method Dispose()
      requires Owns()
      modifies this, lib
      ensures lib.Valid() && lib.Clean() && old(lib.log) <= lib.log && freed
    {
      running := false;
      if threadStarted {
        lib.ThreadJoin(rk.value, running);
        threadStarted := false;
      }
      if rk.Some? {
        lib.Destroy(rk.value);
        rk := None;
      }
      if conf.Some? {
        lib.ConfDestroy(conf.value);
        conf := None;
      }
      brokers := None;
      freed := true;
    }
  }

  /** librdkafka accepts the defaults if it accepts these six. */
  lemma DefaultsAccepted(accepts: (string, string) -> bool, brokers: string)
    ensures Accepted(accepts, Defaults(brokers)) <==>
              && accepts("bootstrap.servers", brokers) && accepts("compression.type", "lz4")
              && accepts("queue.buffering.max.messages", "50000") && accepts("enable.idempotence", "true")
              && accepts("batch.num.messages", "20000") && accepts("queue.buffering.max.ms", "500")
  {
    var d := Defaults(brokers);
    assert d[0] == ("bootstrap.servers", brokers) && d[1] == ("compression.type", "lz4")
           && d[2] == ("queue.buffering.max.messages", "50000") && d[3] == ("enable.idempotence", "true")
           && d[4] == ("batch.num.messages", "20000") && d[5] == ("queue.buffering.max.ms", "500");
  }

  /** The configuration the six defaults make, set in this order on an empty one. */
  lemma DefaultsAre(property: string -> string, brokers: string)
    ensures Apply(property, map[], Defaults(brokers)) ==
              map[][property("bootstrap.servers") := brokers]
                   [property("compression.type") := "lz4"]
                   [property("queue.buffering.max.messages") := "50000"]
                   [property("enable.idempotence") := "true"]
                   [property("batch.num.messages") := "20000"]
                   [property("queue.buffering.max.ms") := "500"]
  {
    var d := Defaults(brokers);
    assert d[..6] == d && d[..0] == [];
    assert d[0] == ("bootstrap.servers", brokers) && d[1] == ("compression.type", "lz4")
           && d[2] == ("queue.buffering.max.messages", "50000") && d[3] == ("enable.idempotence", "true")
           && d[4] == ("batch.num.messages", "20000") && d[5] == ("queue.buffering.max.ms", "500");
    NoneSet(property, d);
    hide Apply, Defaults;
    OneMore(property, d, 0);
    OneMore(property, d, 1);
    OneMore(property, d, 2);
    OneMore(property, d, 3);
    OneMore(property, d, 4);
    OneMore(property, d, 5);
  }

  lemma OneMore(property: string -> string, d: seq<(string, string)>, n: nat)
    requires n < |d|
    ensures Apply(property, map[], d[..n + 1]) == Apply(property, map[], d[..n])[property(d[n].0) := d[n].1]
  {
    assert d[..n + 1] == d[..n] + [d[n]];
    ApplyExtend(property, map[], d[..n], d[n].0, d[n].1);
  }

  /** tek_kafka_producer_create: the six defaults are set, or everything is given back. */
  method Create(lib: Library, brokers: string, g: Grants) returns (tk: Producer?)
    requires lib.Valid() && lib.Clean()
    modifies lib
    ensures lib.Valid() && old(lib.log) <= lib.log
    ensures tk == null ==> lib.Clean()
    ensures tk != null <==>
              && brokers != "" && g.record && g.brokers && g.conf
              && lib.accepts("bootstrap.servers", brokers) && lib.accepts("compression.type", "lz4")
              && lib.accepts("queue.buffering.max.messages", "50000") && lib.accepts("enable.idempotence", "true")
              && lib.accepts("batch.num.messages", "20000") && lib.accepts("queue.buffering.max.ms", "500")
    ensures tk != null ==> fresh(tk) && tk.lib == lib && tk.brokers == Some(brokers) && tk.Configured(Apply(lib.property, map[], Defaults(brokers)))
  {
    hide Apply, Defaults, Accepted, Library.Valid;
    DefaultsAccepted(lib.accepts, brokers);
    if brokers == "" || !g.record {
      return null;
    }
    var made := new Producer(lib);
    made.brokers := if g.brokers then Some(brokers) else None;
    made.conf := lib.ConfCreate(g.conf);
    if made.brokers.None? || made.conf.None? {
      made.Dispose();
      return null;
    }
    var ok := SetDefaults(made, brokers);
    if !ok {
      made.Dispose();
      return null;
    }
    return made;
  }

  lemma ApplyExtend(property: string -> string, conf: Conf, l: seq<(string, string)>, name: string, value: string)
    ensures Apply(property, conf, l + [(name, value)]) == Apply(property, conf, l)[property(name) := value]
  {
    assert (l + [(name, value)])[..|l|] == l;
  }

  /** One more default, after the first `n`. */
  method SetDefault(tk: Producer, ghost d: seq<(string, string)>, ghost n: nat, name: string, value: string) returns (ok: bool)
    requires n < |d| && d[n] == (name, value)
    requires Accepted(tk.lib.accepts, d[..n]) && tk.Configured(Apply(tk.lib.property, map[], d[..n]))
    modifies tk.lib`confs
    ensures tk.Owns()
    ensures ok ==> Accepted(tk.lib.accepts, d[..n + 1]) && tk.Configured(Apply(tk.lib.property, map[], d[..n + 1]))
    ensures !ok ==> !Accepted(tk.lib.accepts, d)
  {
    hide Apply, Library.Valid;
    ok := tk.SetDefault(name, value);
    assert d[..n + 1] == d[..n] + [(name, value)];
    ApplyExtend(tk.lib.property, map[], d[..n], name, value);
    assert ok ==> forall i | 0 <= i < n :: d[i] == d[..n][i];
  }

  lemma NoneSet(property: string -> string, d: seq<(string, string)>)
    ensures Apply(property, map[], d[..0]) == map[]
  {
  }

  lemma NoneAccepted(accepts: (string, string) -> bool, d: seq<(string, string)>)
    ensures Accepted(accepts, d[..0])
  {
  }

  /** The six calls at the end of tek_kafka_producer_create. */
  method SetDefaults(tk: Producer, brokers: string) returns (ok: bool)
    requires tk.Configured(map[])
    modifies tk.lib`confs
    ensures tk.Owns()
    ensures ok <==> Accepted(tk.lib.accepts, Defaults(brokers))
    ensures ok ==> tk.Configured(Apply(tk.lib.property, map[], Defaults(brokers)))
  {
    hide Apply, Accepted, Producer.Owns, Producer.Configured, Library.Valid;
    ghost var d := Defaults(brokers);
    assert d[..6] == d;
    NoneSet(tk.lib.property, d);
    NoneAccepted(tk.lib.accepts, d);
    ok := SetDefault(tk, d, 0, "bootstrap.servers", brokers);
    if !ok { return; }
    ok := SetDefault(tk, d, 1, "compression.type", "lz4");
    if !ok { return; }
    ok := SetDefault(tk, d, 2, "queue.buffering.max.messages", "50000");
    if !ok { return; }
    ok := SetDefault(tk, d, 3, "enable.idempotence", "true");
    if !ok { return; }
    ok := SetDefault(tk, d, 4, "batch.num.messages", "20000");
    if !ok { return; }
    ok := SetDefault(tk, d, 5, "queue.buffering.max.ms", "500");
  }
}
