/** The static struct `kt` as a whole: the topic table, which sees of the producer only what the protocol
    says, and the parameter list, which owns the producer itself.  The two agree on the producer at every
    moment, so what the protocol takes as a choice, whether creating, configuring and running a producer
    succeeded, is what that code does. */
module KafkaModule {
  import opened Options
  import opened Protocol
  import opened Invariant
  import opened Safety
  import opened KafkaTable
  import opened Callbacks
  import Lifecycle
  import Parameters

  /** What the protocol sees of a tek_kafka_t. */
  ghost function View(tk: Lifecycle.Producer, id: nat): Producer
    reads tk, tk.lib
  {
    Producer(id, tk.rk.Some?, tk.conf.Some?, tk.running, tk.threadStarted,
             if tk.rk.Some? && tk.rk.value in tk.lib.threads then Polling else Exited)
  }

  /** A call of kafka_table_connect gets as far as installing a producer. */
  predicate Connects(rules: Parameters.Rules, tb: Parameters.Table, brokers: Option<string>, g: Lifecycle.Grants) {
    Parameters.StepConnect(rules, tb, brokers, g).1.Done?
  }

  class Module {
    const table: KafkaTables
    const params: Parameters.ParamTable

    /** One producer pointer: both parts have it, or neither. */
    ghost predicate Agrees()
      reads this, table, params, params.producer, params.lib
    {
      && (table.producer.Some? <==> params.producer != null)
      && (params.producer != null ==>
            params.producer.lib == params.lib && table.producer == Some(View(params.producer, table.producer.value.id)))
    }

    ghost predicate Apart()
      reads this, table, params, table.topics, table.retired, params.params
    {
      && table.topics as object != params.params && table.retired as object != params.params
      && table.topics.data as object != params.params.data && table.retired.data as object != params.params.data
    }

    ghost predicate Valid()
      reads this, table, table.topics, table.retired, table.topics.data, table.retired.data
      reads params, params.lib, params.params, params.params.data, params.producer
    {
      Apart() && table.Valid() && params.Valid() && Agrees()
    }

    constructor (limit: nat, ghost sessions: set<Tid>, lib: Lifecycle.Library)
      requires limit > 0 && lib.Valid() && lib.Clean()
      ensures Valid() && table.producer.None? && params.State() == Parameters.Table([], None)
      ensures table.world.pc == map t | t in sessions :: Idle
    {
      table := new KafkaTables(limit, sessions);
      params := new Parameters.ParamTable(lib);
    }

    /** An installed producer is live in librdkafka, owns its configuration, and has its poll thread. */
    lemma ProducerLives()
      requires params.Valid() && params.producer != null
      ensures var tk := params.producer;
              && tk.rk.Some? && tk.conf.None? && tk.rk.value in params.lib.rks && tk.rk.value in params.lib.threads
              && params.lib.confs == map[]
              && forall id :: View(tk, id) == Producer(id, true, false, true, true, Polling)
    {
    }

    /** kafka_table_connect: it succeeds exactly when the code that creates, configures and runs the producer
        does, the protocol's producer is then what that code made, and otherwise both parts are as before and
        nothing is left in librdkafka that was not there. */
    method Connect(t: Tid, brokers: Option<string>, g: Lifecycle.Grants, meanwhile: seq<Callback>) returns (res: int)
      requires Valid() && t in table.world.pc && table.world.pc[t] == Idle
      requires table.world.writer.None? && table.world.readers == {}
      modifies table`producer, table`nextId, table`records, table`queue, table`world, table`trace
      modifies params`producer, params.lib
      ensures Valid() && Extends(old(table.trace), table.trace)
      ensures res == 0 <==> Connects(params.Judged(), old(params.State()), brokers, g)
      ensures params.State() == Parameters.StepConnect(params.Judged(), old(params.State()), brokers, g).0
      ensures res == 0 || (res == -1 && table.producer == old(table.producer) && params.producer == old(params.producer))
      ensures brokers.None? || brokers.value == "" ==> table.world == old(table.world)
      ensures brokers.Some? && brokers.value != "" ==>
                var built := Connects(params.Judged(), old(params.State()), brokers, g);
                && table.world.k.producer == StepConnect(old(table.world.k), Choice(true, built, Queued)).0.producer
                && table.world.pc == old(table.world.pc)[t := StepConnect(old(table.world.k), Choice(true, built, Queued)).1.next]
    {
      hide Inv, Reaches, KafkaTables.Valid, Parameters.StepConnect;
      table.Mirrors();
      if brokers.None? || brokers.value == "" {
        NoBrokers(params.Judged(), params.State(), brokers, g);
        return -1;
      }
      var answer := params.ConnectTo(brokers, g);
      res := table.Connect(t, answer.Done?, meanwhile);
      if params.producer != null {
        ProducerLives();
      }
    }

    static lemma NoBrokers(rules: Parameters.Rules, tb: Parameters.Table, brokers: Option<string>, g: Lifecycle.Grants)
      requires brokers.None? || brokers.value == ""
      ensures Parameters.StepConnect(rules, tb, brokers, g) == (tb, Parameters.Refused(Parameters.EmptyBrokers))
    {
    }

    /** kafka_table_dismiss_all: both parts give the producer up, and the parameters stay. */
    method Disconnect(t: Tid, flushed: seq<Callback>, served: seq<Callback>, meanwhile: nat -> seq<Callback>, joining: seq<Callback>)
      requires Valid() && t in table.world.pc && table.world.pc[t] == Idle
      requires table.world.writer.None? && table.world.readers == {}
      modifies table`producer, table`records, table`queue, table`heap, table`world, table`trace, table.topics, table.retired
      modifies params`producer, params.producer, params.lib
      ensures Valid() && Extends(old(table.trace), table.trace)
      ensures table.producer.None? && params.producer == null && params.lib.Clean()
      ensures params.State() == old(params.State()).(running := None)
      ensures table.world.pc == old(table.world.pc)[t := Returned(Status(0))]
    {
      hide Inv, Reaches, KafkaTables.Valid;
      table.DismissAll(t, flushed, served, meanwhile, joining);
      params.DisposeProducer();
    }
  }
}
