// The broker consumer: it hands every delivery to the handler of its routing key, swallows what the
// handler raises, and acknowledges the delivery either way.
module Consumer {
  import opened Entities
  import opened Amounts
  import opened Transactions
  import opened Ledger
  import opened Provider
  import opened Sessions
  import opened Services

  // One delivery, with what its surroundings do: the callback url, the provider's fresh id, the fate of
  // the HTTP call and of the database connection. A body that is no event makes the handler raise.
  datatype Delivery = Delivery(
    routingKey: string, body: Option<Event>, url: string, id: string, line: Line, calls: nat, lands: bool)

  // A consumer transaction: the payment it is about and what the provider replied.
  datatype Work = Work(paymentId: Uuid, reply: Option<string>)

  // The transaction of a delivery, if it reaches a handler.
  function WorkFor(d: Delivery, keys: set<string>): Option<Work> {
    if d.routingKey in keys && d.body.Some?
    then Some(Work(d.body.value.paymentId, Replied(d.body.value, d.id, d.line))) else None
  }

  // What came of a delivery: its transaction, or nothing if the connection broke.
  predicate Comes(d: Delivery, keys: set<string>, done: Option<Work>) {
    done == WorkFor(d, keys) || (done == None && d.calls < 3)
  }

  function AfterWork(t: Tables, done: Option<Work>): Tables {
    match done
    case None => t
    case Some(work) => RecordProvider(t, work.paymentId, work.reply).1
  }

  function AfterAll(t: Tables, log: seq<Option<Work>>): Tables {
    if log == [] then t else AfterWork(AfterAll(t, log[..|log| - 1]), log[|log| - 1])
  }

  class MessageConsumer {
    const db: Database
    const provider: ProviderService
    var handlers: map<string, PaymentConsumer>
    var acknowledged: seq<Delivery>

    constructor (db: Database, provider: ProviderService)
      ensures this.db == db && this.provider == provider && handlers == map[] && acknowledged == [] && Valid()
    {
      this.db := db;
      this.provider := provider;
      handlers := map[];
      acknowledged := [];
    }

    ghost predicate Valid()
      reads this
    {
      forall key :: key in handlers ==> handlers[key].db == db && handlers[key].provider == provider
    }

    method RegisterHandler(routingKey: string, handler: PaymentConsumer)
      requires Valid() && handler.db == db && handler.provider == provider
      modifies this`handlers
      ensures Valid() && handlers == old(handlers)[routingKey := handler]
    {
      handlers := handlers[routingKey := handler];
    }

    // The loop over the queue. Whatever is delivered and however often, and whatever the handlers raise,
    // every delivery is acknowledged, and the committed tables are those after the deliveries' transactions
    // in order, of which only a broken connection leaves one out.
    method StartConsuming(ds: seq<Delivery>) returns (ghost log: seq<Option<Work>>)
      requires Valid() && provider.Valid() && db.tables.ProviderIdsUnique()
      modifies this`acknowledged, db, provider
      ensures provider.Valid() && acknowledged == old(acknowledged) + ds
      ensures |log| == |ds| && Logged(ds, handlers.Keys, log)
      ensures db.tables == AfterAll(old(db.tables), log)
    {
      ghost var t := db.tables;
      log := [];
      for n := 0 to |ds|
        invariant provider.Valid() && db.tables.ProviderIdsUnique()
        invariant acknowledged == old(acknowledged) + ds[..n]
        invariant |log| == n && Logged(ds, handlers.Keys, log) && db.tables == AfterAll(t, log)
      {
        ghost var done := Process(ds[n]);
        AppendWork(t, log, done);
        AppendLogged(ds, handlers.Keys, log, done);
        log := log + [done];
        acknowledged := acknowledged + [ds[n]];
      }
    }

    // One delivery; nothing escapes from its handler.
    method Process(d: Delivery) returns (ghost done: Option<Work>)
      requires Valid() && provider.Valid() && db.tables.ProviderIdsUnique()
      modifies db, provider
      ensures provider.Valid() && db.tables.ProviderIdsUnique()
      ensures Comes(d, handlers.Keys, done) && db.tables == AfterWork(old(db.tables), done)
    {
      done := None;
      if d.routingKey in handlers && d.body.Some? {
        RecordKeepsIdsUnique(db.tables, d.body.value.paymentId, Replied(d.body.value, d.id, d.line));
        ghost var before := db.tables;
        var r := handlers[d.routingKey].HandlePaymentCreated(d.body.value, d.url, d.id, d.line, d.calls, d.lands);
        if r != Raised(DatabaseFault) || db.tables != before {
          done := WorkFor(d, handlers.Keys);
        }
      }
    }
  }

  // The consumer process: it registers the one handler there is and consumes. The log says which deliveries
  // had their transaction: those with the one routing key and an event as body, unless the connection broke.
  method RunConsumer(db: Database, provider: ProviderService, ds: seq<Delivery>) returns (ghost log: seq<Option<Work>>)
    requires provider.Valid() && db.tables.ProviderIdsUnique()
    modifies db, provider
    ensures provider.Valid() && db.tables == Run(old(db.tables), Actions(log))
    ensures |log| == |ds| && forall i :: 0 <= i < |ds| ==>
              var d := ds[i];
              if d.routingKey == "payment.created" && d.body.Some? then
                var reply := if d.line == Answered && Trip(d.body.value.amount).Some? then Some(d.id) else None;
                log[i] == Some(Work(d.body.value.paymentId, reply)) || (log[i] == None && d.calls < 3)
              else log[i] == None
  {
    var consumer := new MessageConsumer(db, provider);
    var handler := new PaymentConsumer(db, provider);
    consumer.RegisterHandler(TOPIC, handler);
    assert consumer.handlers.Keys == {TOPIC};
    log := consumer.StartConsuming(ds);
    ConsumingIsRun(old(db.tables), log);
  }

  // What came of the deliveries so far.
  predicate Logged(ds: seq<Delivery>, keys: set<string>, log: seq<Option<Work>>) {
    |log| <= |ds| && forall i :: 0 <= i < |log| ==> Comes(ds[i], keys, log[i])
  }

  lemma {:induction false} AppendLogged(ds: seq<Delivery>, keys: set<string>, log: seq<Option<Work>>,
                                        done: Option<Work>)
    requires Logged(ds, keys, log) && |log| < |ds| && Comes(ds[|log|], keys, done)
    ensures Logged(ds, keys, log + [done])
  {
  }

  lemma {:induction false} AppendWork(t: Tables, log: seq<Option<Work>>, done: Option<Work>)
    ensures AfterAll(t, log + [done]) == AfterWork(AfterAll(t, log), done)
  {
    assert (log + [done])[..|log|] == log;
  }

  lemma {:induction false} RecordKeepsIdsUnique(t: Tables, k: Uuid, reply: Option<string>)
    requires t.ProviderIdsUnique()
    ensures RecordProvider(t, k, reply).1.ProviderIdsUnique()
  {
    if RecordProvider(t, k, reply).1 != t {
      UniqueAfter(t, k, RecordProvider(t, k, reply).1.payments[k]);
    }
  }

  function Actions(log: seq<Option<Work>>): seq<Action> {
    if log == [] then []
    else
      var last := log[|log| - 1];
      Actions(log[..|log| - 1]) + if last.Some? then [Consume(last.value.paymentId, last.value.reply)] else []
  }

  // What the consumer does is a run of the ledger, so everything that holds of runs holds of it.
  lemma {:induction false} ConsumingIsRun(t: Tables, log: seq<Option<Work>>)
    ensures AfterAll(t, log) == Run(t, Actions(log))
  {
    if log != [] {
      var before, last := log[..|log| - 1], log[|log| - 1];
      ConsumingIsRun(t, before);
      if last.Some? {
        assert Actions(log)[..|Actions(log)| - 1] == Actions(before);
      } else {
        assert Actions(log) == Actions(before);
      }
    }
  }
}
