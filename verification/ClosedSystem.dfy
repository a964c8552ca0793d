// The closed system with its transactions split at their database calls: the consumer asks the provider
// between two of them, while it holds its row lock.
module ClosedSystem {
  import opened Entities
  import opened Ledger
  import opened Interleaving
  import opened Causality
  import opened AmountParity

  // events holds the event that each running consumer transaction handles.
  datatype Closed = Closed(w: World, active: map<nat, Txn>, done: seq<Completion>, events: map<nat, Entities.Event>) {
    function Sys(): System {
      System(w.db, active, done)
    }
  }

  // The reply of a consumer transaction is what the provider will answer it.
  datatype Turn =
    | Place(n: nat, order: Order)                                // create_payment begins
    | Handle(n: nat, event: Entities.Event, reply: Option<string>)  // the consumer begins on an event it got
    | Ask(n: nat, url: string)                                   // and calls the provider, which accepts
    | Hook(n: nat, webhook: Webhook)                             // the handler begins on a webhook sent
    | Go(n: nat)                                                 // a transaction makes its next database call
    | Lose(n: nat)                                               // a session is lost
    | Around(h: Happening)                                       // publishers, broker, provider

  function WithSys(s: Closed, sys: System): Closed {
    s.(w := s.w.(db := sys.tables), active := sys.active, done := sys.done)
  }

  // The provider has answered the consumer transaction n with the id it expects.
  predicate Replied(s: Closed, n: nat) {
    && n in s.active && s.active[n].action.Consume? && n in s.events
    && s.active[n].action.reply.Some? && s.active[n].action.reply.value in s.w.provider
    && s.w.provider[s.active[n].action.reply.value].invoiceId == s.events[n].invoiceId
  }

  // The transaction has to wait for the provider.
  predicate Waiting(s: Closed, n: nat) {
    && n in s.active && s.active[n].action.Consume? && s.active[n].stage.CallProvider?
    && s.active[n].action.reply.Some? && !Replied(s, n)
  }

  predicate CanAsk(s: Closed, n: nat) {
    && n in s.active && s.active[n].action.Consume? && s.active[n].stage.CallProvider? && n in s.events
    && s.active[n].action.reply.Some? && s.active[n].action.reply.value !in s.w.provider
    && s.w.wire(s.events[n].amount).Some?
  }

  ghost function Turned(s: Closed, c: Turn): Closed {
    match c
    case Place(n, o) => WithSys(s, Next(s.Sys(), Begin(n, Create(o))))
    case Handle(n, e, reply) =>
      if n in s.active || e !in s.w.delivered then s
      else WithSys(s, Next(s.Sys(), Begin(n, Consume(e.paymentId, reply)))).(events := s.events[n := e])
    case Ask(n, url) =>
      if CanAsk(s, n) then
        var id, e := s.active[n].action.reply.value, s.events[n];
        s.(w := s.w.(provider := s.w.provider[id :=
             Provider.ProviderPayment(id, e.invoiceId, s.w.wire(e.amount).value, url, "Created")]))
      else s
    case Hook(n, v) => if v in s.w.sent then WithSys(s, Next(s.Sys(), Begin(n, Deliver(v)))) else s
    case Go(n) => if Waiting(s, n) then s else WithSys(s, Next(s.Sys(), Advance(n)))
    case Lose(n) => WithSys(s, Next(s.Sys(), Crash(n)))
    case Around(h) =>
      match h
      case Pick(i) => WithSys(s, Next(s.Sys(), UpdateMessage(i, ToPublishing)))
      case Report(i, mark) =>
        if i in s.w.db.outbox && !s.w.db.outbox[i].status.Pending?
        then WithSys(s, Next(s.Sys(), UpdateMessage(i, mark))) else s
      case HandOff(_) => s.(w := Happen(s.w, h))
      case Receive(_) => s.(w := Happen(s.w, h))
      case Fire(_) => s.(w := Happen(s.w, h))
      case _ => s
  }

  ghost function TurnedAll(s: Closed, cs: seq<Turn>): Closed {
    if cs == [] then s else Turned(TurnedAll(s, cs[..|cs| - 1]), cs[|cs| - 1])
  }

  function AtRest(wire: Wire, seed: Tables): Closed {
    Closed(Idle(wire, seed), map[], [], map[])
  }

  // ----- what the running transactions stand on

  predicate Grounded(s: Closed, n: nat)
    requires n in s.active
  {
    var x := s.active[n];
    && (x.action.Consume? ==>
          && n in s.events && s.events[n] in s.w.delivered && s.events[n].paymentId == x.action.paymentId
          && (x.stage.WriteReply? || x.stage.CommitReply? ==> Replied(s, n)))
    && (x.action.Deliver? ==> x.action.webhook in s.w.sent)
  }

  ghost predicate AllGrounded(s: Closed) {
    forall n :: n in s.active ==> Grounded(s, n)
  }

  // Provider payments keep their invoice, and deliveries and webhooks stay.
  ghost predicate Grows(w: World, u: World) {
    && w.delivered <= u.delivered && w.sent <= u.sent
    && forall id :: id in w.provider ==> id in u.provider && u.provider[id].invoiceId == w.provider[id].invoiceId
  }

  lemma {:induction false} StaysGrounded(s: Closed, u: Closed, n: nat)
    requires n in s.active && Grounded(s, n) && n in u.active && u.active[n] == s.active[n] && Grows(s.w, u.w)
    requires n in s.events ==> n in u.events && u.events[n] == s.events[n]
    ensures Grounded(u, n)
  {
  }

  // ----- one turn is at most one happening

  // The happening by which a transaction's end shows.
  function EndOf(s: Closed, n: nat): seq<Happening>
    requires n in s.active
  {
    var x := s.active[n];
    match x.action
    case Create(o) => [Request(o)]
    case Deliver(v) => [Arrive(v)]
    case Consume(_, reply) =>
      if n in s.events && !x.stage.LockPayment? then [Record(s.events[n], reply)] else []
    case Update(_, _) => []
  }

  // A consumer transaction that ends at its lock found nothing to do; past it, it knows its reply.
  lemma {:induction false} ConsumerEnds(t: Tables, x: Txn)
    requires ShapeConsume(x) && AdvanceConsume(t, x).Finished?
    ensures x.stage.LockPayment? ==> AdvanceConsume(t, x).tables == t
    ensures x.stage.CallProvider? ==> x.action.reply.None?
    ensures x.stage.LockPayment? || x.stage.CallProvider? || x.stage.WriteReply? || x.stage.CommitReply?
  {
  }

  lemma {:induction false} RecordHappens(s: Closed, n: nat)
    requires n in s.active && s.active[n].action.Consume? && Grounded(s, n)
    requires ShapeConsume(s.active[n]) && AdvanceConsume(s.w.db, s.active[n]).Finished?
    requires AdvanceConsume(s.w.db, s.active[n]).tables == Step(s.w.db, s.active[n].action).1
    ensures HappenAll(s.w, EndOf(s, n)) == s.w.(db := AdvanceConsume(s.w.db, s.active[n]).tables)
  {
    ConsumerEnds(s.w.db, s.active[n]);
    HappenOne(s.w, EndOf(s, n));
  }

  lemma {:induction false} OthersHappen(s: Closed, n: nat)
    requires n in s.active && (s.active[n].action.Create? || s.active[n].action.Deliver?) && Grounded(s, n)
    ensures HappenAll(s.w, EndOf(s, n)) == s.w.(db := Step(s.w.db, s.active[n].action).1)
  {
    HappenOne(s.w, EndOf(s, n));
  }

  lemma {:induction false} EndHappens(s: Closed, n: nat)
    requires WellFormed(s.w.db) && n in s.active && Grounded(s, n)
    requires Shape(s.active[n]) && Knows(s.w.db, s.active[n]) && AdvanceTxn(s.w.db, s.active[n]).Finished?
    ensures HappenAll(s.w, EndOf(s, n)) == s.w.(db := AdvanceTxn(s.w.db, s.active[n]).tables)
  {
    TxnFinishes(s.w.db, s.active[n]);
    if s.active[n].action.Consume? {
      RecordHappens(s, n);
    } else {
      OthersHappen(s, n);
    }
  }

  lemma {:induction false} HappenOne(w: World, hs: seq<Happening>)
    requires |hs| <= 1
    ensures HappenAll(w, hs) == if hs == [] then w else Happen(w, hs[0])
  {
    if hs != [] {
      assert hs[..0] == [];
    }
  }

  // What the invariants of both systems say of a closed state.
  ghost predicate Steady(seed: Tables, s: Closed) {
    Consistent(seed, s.Sys()) && WellFormed(s.w.db) && AllGrounded(s)
  }

  // u is s after these happenings, in a steady state again.
  ghost predicate Follows(seed: Tables, s: Closed, u: Closed, hs: seq<Happening>) {
    u.w == HappenAll(s.w, hs) && Consistent(seed, u.Sys()) && AllGrounded(u)
  }

  lemma {:induction false} NothingFollows(seed: Tables, s: Closed)
    requires Steady(seed, s)
    ensures Follows(seed, s, s, [])
  {
  }

  lemma {:induction false} NextSteady(seed: Tables, s: Closed, e: Occurrence)
    requires Seeded(seed) && Steady(seed, s)
    ensures Consistent(seed, Next(s.Sys(), e))
  {
    NextConsistent(seed, s.Sys(), e);
  }

  // Transactions that are still there, unchanged, stay grounded in a world that only grew.
  lemma {:induction false} RestGrounded(s: Closed, u: Closed)
    requires AllGrounded(s) && Grows(s.w, u.w)
    requires forall j :: j in u.active ==> j in s.active && u.active[j] == s.active[j]
    requires forall j :: j in s.active && j in s.events ==> j in u.events && u.events[j] == s.events[j]
    ensures AllGrounded(u)
  {
    forall j | j in u.active ensures Grounded(u, j) {
      StaysGrounded(s, u, j);
    }
  }

  // A transaction begins on grounds it has, or its number is in use.
  lemma {:induction false} BeginGrounded(s: Closed, u: Closed, n: nat, a: Action)
    requires AllGrounded(s) && n !in s.active && Start(a).Some?
    requires u.active == s.active[n := Start(a).value] && u.w == s.w
    requires forall j :: j in s.active && j in s.events ==> j in u.events && u.events[j] == s.events[j]
    requires a.Consume? ==> n in u.events && u.events[n] in s.w.delivered && u.events[n].paymentId == a.paymentId
    requires a.Deliver? ==> a.webhook in s.w.sent
    ensures AllGrounded(u)
  {
    forall j | j in u.active ensures Grounded(u, j) {
      if j != n {
        StaysGrounded(s, u, j);
      }
    }
  }

  lemma {:induction false} BeginFollows(seed: Tables, s: Closed, n: nat, a: Action, events: map<nat, Entities.Event>)
    requires Seeded(seed) && Steady(seed, s)
    requires forall j :: j in s.active && j in s.events ==> j in events && events[j] == s.events[j]
    requires a.Consume? ==> n in events && events[n] in s.w.delivered && events[n].paymentId == a.paymentId
    requires a.Deliver? ==> a.webhook in s.w.sent
    ensures Follows(seed, s, WithSys(s, Next(s.Sys(), Begin(n, a))).(events := events), [])
  {
    NextSteady(seed, s, Begin(n, a));
    var u := WithSys(s, Next(s.Sys(), Begin(n, a))).(events := events);
    assert u.w == s.w;
    if n in s.active || Start(a).None? {
      RestGrounded(s, u);
    } else {
      BeginGrounded(s, u, n, a);
    }
  }

  lemma {:induction false} LoseFollows(seed: Tables, s: Closed, n: nat)
    requires Seeded(seed) && Steady(seed, s)
    ensures Follows(seed, s, Turned(s, Lose(n)), [])
  {
    NextSteady(seed, s, Crash(n));
    assert Turned(s, Lose(n)).w == s.w;
    RestGrounded(s, Turned(s, Lose(n)));
  }

  // The next call of a transaction that goes on.
  lemma {:induction false} MovedGrounded(s: Closed, n: nat, y: Txn)
    requires n in s.active && Shape(s.active[n]) && Grounded(s, n) && !Waiting(s, n)
    requires AdvanceTxn(s.w.db, s.active[n]) == Moved(y)
    ensures Grounded(s.(active := s.active[n := y]), n)
  {
  }

  lemma {:induction false} MovedFollows(seed: Tables, s: Closed, n: nat, y: Txn)
    requires Seeded(seed) && Steady(seed, s) && n in s.active && !Waiting(s, n)
    requires AdvanceTxn(s.w.db, s.active[n]) == Moved(y) && Granted(s.active, n, y.locks)
    ensures Follows(seed, s, WithSys(s, Next(s.Sys(), Advance(n))), [])
  {
    NextConsistent(seed, s.Sys(), Advance(n));
    var u := s.(active := s.active[n := y]);
    assert WithSys(s, Next(s.Sys(), Advance(n))) == u;
    MovedGrounded(s, n, y);
    forall j | j in u.active ensures Grounded(u, j) {
      if j != n {
        StaysGrounded(s, u, j);
      }
    }
  }

  lemma {:induction false} FinishedFollows(seed: Tables, s: Closed, n: nat)
    requires Seeded(seed) && Steady(seed, s) && n in s.active
    requires AdvanceTxn(s.w.db, s.active[n]).Finished?
    requires Granted(s.active, n, AdvanceTxn(s.w.db, s.active[n]).need)
    ensures Follows(seed, s, WithSys(s, Next(s.Sys(), Advance(n))), EndOf(s, n))
  {
    NextSteady(seed, s, Advance(n));
    EndHappens(s, n);
    RestGrounded(s, WithSys(s, Next(s.Sys(), Advance(n))));
  }

  lemma {:induction false} GoFollows(seed: Tables, s: Closed, n: nat) returns (hs: seq<Happening>)
    requires Seeded(seed) && Steady(seed, s)
    ensures Follows(seed, s, Turned(s, Go(n)), hs)
  {
    hs := [];
    NothingFollows(seed, s);
    if n in s.active && !Waiting(s, n) {
      match AdvanceTxn(s.w.db, s.active[n])
      case Moved(y) =>
        if Granted(s.active, n, y.locks) {
          MovedFollows(seed, s, n, y);
        }
      case Finished(need, _, _) =>
        if Granted(s.active, n, need) {
          FinishedFollows(seed, s, n);
          hs := EndOf(s, n);
        }
    }
  }

  // What only the surroundings do leaves the database alone.
  lemma {:induction false} SurroundingsFollow(seed: Tables, s: Closed, h: Happening)
    requires Steady(seed, s) && Happen(s.w, h).db == s.w.db && Grows(s.w, Happen(s.w, h))
    ensures Follows(seed, s, s.(w := Happen(s.w, h)), [h])
  {
    HappenOne(s.w, [h]);
    assert s.(w := Happen(s.w, h)).Sys() == s.Sys();
    RestGrounded(s, s.(w := Happen(s.w, h)));
  }

  lemma {:induction false} UpdateFollows(seed: Tables, s: Closed, h: Happening, i: Uuid, mark: Mark)
    requires Seeded(seed) && Steady(seed, s)
    requires Happen(s.w, h) == s.w.(db := Step(s.w.db, Update(i, mark)).1)
    ensures Follows(seed, s, WithSys(s, Next(s.Sys(), UpdateMessage(i, mark))), [h])
  {
    NextSteady(seed, s, UpdateMessage(i, mark));
    HappenOne(s.w, [h]);
    RestGrounded(s, WithSys(s, Next(s.Sys(), UpdateMessage(i, mark))));
  }

  // The consumer's call to the provider, made under its row lock.
  lemma {:induction false} AskHappens(s: Closed, n: nat, url: string)
    requires CanAsk(s, n) && Shape(s.active[n]) && Knows(s.w.db, s.active[n]) && Grounded(s, n)
    ensures Turned(s, Ask(n, url)).w
         == Happen(s.w, Happening.CallProvider(s.events[n], s.active[n].action.reply.value, url))
  {
  }

  lemma {:induction false} AskFollows(seed: Tables, s: Closed, n: nat, url: string) returns (hs: seq<Happening>)
    requires Steady(seed, s)
    ensures Follows(seed, s, Turned(s, Ask(n, url)), hs)
  {
    if CanAsk(s, n) {
      var h := Happening.CallProvider(s.events[n], s.active[n].action.reply.value, url);
      AskHappens(s, n, url);
      SurroundingsFollow(seed, s, h);
      hs := [h];
    } else {
      hs := [];
      NothingFollows(seed, s);
    }
  }

  // A broker or provider happening only adds.
  lemma {:induction false} SurroundingsGrow(w: World, h: Happening)
    requires h.HandOff? || h.Receive? || h.Fire?
    ensures Happen(w, h).db == w.db && Grows(w, Happen(w, h))
  {
  }

  // A publisher's single statement, in both systems; None if it does not apply.
  function StatementOf(w: World, h: Happening): Option<(Uuid, Mark)> {
    match h
    case Pick(i) => Some((i, ToPublishing))
    case Report(i, mark) =>
      if i in w.db.outbox && !w.db.outbox[i].status.Pending? then Some((i, mark)) else None
    case _ => None
  }

  lemma {:induction false} StatementHappens(s: Closed, h: Happening)
    requires h.Pick? || h.Report?
    ensures Happen(s.w, h) == match StatementOf(s.w, h)
                              case None => s.w
                              case Some((i, mark)) => s.w.(db := Step(s.w.db, Update(i, mark)).1)
    ensures Turned(s, Around(h)) == match StatementOf(s.w, h)
                                    case None => s
                                    case Some((i, mark)) => WithSys(s, Next(s.Sys(), UpdateMessage(i, mark)))
  {
  }

  lemma {:induction false} PublisherFollows(seed: Tables, s: Closed, h: Happening) returns (hs: seq<Happening>)
    requires Seeded(seed) && Steady(seed, s) && (h.Pick? || h.Report?)
    ensures Follows(seed, s, Turned(s, Around(h)), hs)
  {
    StatementHappens(s, h);
    match StatementOf(s.w, h)
    case None =>
      hs := [];
      NothingFollows(seed, s);
    case Some((i, mark)) =>
      hs := [h];
      UpdateFollows(seed, s, h, i, mark);
  }

  lemma {:induction false} AroundFollows(seed: Tables, s: Closed, h: Happening) returns (hs: seq<Happening>)
    requires Seeded(seed) && Steady(seed, s)
    ensures Follows(seed, s, Turned(s, Around(h)), hs)
  {
    if h.Pick? || h.Report? {
      hs := PublisherFollows(seed, s, h);
    } else if h.HandOff? || h.Receive? || h.Fire? {
      SurroundingsGrow(s.w, h);
      SurroundingsFollow(seed, s, h);
      hs := [h];
    } else {
      hs := [];
      NothingFollows(seed, s);
    }
  }

  lemma {:induction false} HandleFollows(seed: Tables, s: Closed, n: nat, e: Entities.Event, reply: Option<string>)
    requires Seeded(seed) && Steady(seed, s)
    ensures Follows(seed, s, Turned(s, Handle(n, e, reply)), [])
  {
    if n in s.active || e !in s.w.delivered {
      NothingFollows(seed, s);
    } else {
      BeginFollows(seed, s, n, Consume(e.paymentId, reply), s.events[n := e]);
    }
  }

  lemma {:induction false} TurnFollows(seed: Tables, s: Closed, c: Turn) returns (hs: seq<Happening>)
    requires Seeded(seed) && Steady(seed, s)
    ensures Follows(seed, s, Turned(s, c), hs)
  {
    hs := [];
    match c
    case Place(n, o) => BeginFollows(seed, s, n, Create(o), s.events);
    case Handle(n, e, reply) => HandleFollows(seed, s, n, e, reply);
    case Ask(n, url) => hs := AskFollows(seed, s, n, url);
    case Hook(n, v) =>
      if v in s.w.sent {
        BeginFollows(seed, s, n, Deliver(v), s.events);
      } else {
        NothingFollows(seed, s);
      }
    case Go(n) => hs := GoFollows(seed, s, n);
    case Lose(n) => LoseFollows(seed, s, n);
    case Around(h) => hs := AroundFollows(seed, s, h);
  }

  // ----- whole runs

  lemma {:induction false} HappenJoin(w: World, a: seq<Happening>, b: seq<Happening>)
    ensures HappenAll(w, a + b) == HappenAll(HappenAll(w, a), b)
    decreases |b|
  {
    if b == [] {
      assert a + b == a;
    } else {
      assert (a + b)[..|a + b| - 1] == a + b[..|b| - 1];
      HappenJoin(w, a, b[..|b| - 1]);
    }
  }

  // Whatever the split transactions and their surroundings do, the closed system ends in a world that
  // whole transactions reach as well.
  lemma {:induction false} SplitIsWhole(wire: Wire, seed: Tables, cs: seq<Turn>) returns (hs: seq<Happening>)
    requires Seeded(seed)
    ensures TurnedAll(AtRest(wire, seed), cs).w == HappenAll(Idle(wire, seed), hs)
    ensures Steady(seed, TurnedAll(AtRest(wire, seed), cs))
  {
    if cs == [] {
      hs := [];
      SeededSound(seed);
    } else {
      var s := TurnedAll(AtRest(wire, seed), cs[..|cs| - 1]);
      var before := SplitIsWhole(wire, seed, cs[..|cs| - 1]);
      var more := TurnFollows(seed, s, cs[|cs| - 1]);
      HappenJoin(Idle(wire, seed), before, more);
      hs := before + more;
      AllHappensSound(wire, seed, hs);
    }
  }

  // Hence the causal chain and the verdict by parity hold of the split system too.
  lemma {:induction false} SplitCausalChain(wire: Wire, seed: Tables, cs: seq<Turn>, k: Uuid)
    requires Seeded(seed) && k in TurnedAll(AtRest(wire, seed), cs).w.db.payments
    ensures var w := TurnedAll(AtRest(wire, seed), cs).w;
            w.db.payments[k].status.Created? || Chain(w, k, w.db.payments[k])
  {
    var hs := SplitIsWhole(wire, seed, cs);
    CausalChain(wire, seed, hs, k);
  }

  lemma {:induction false} SplitVerdictByParity(seed: Tables, cs: seq<Turn>, k: Uuid)
    requires Seeded(seed) && k in TurnedAll(AtRest(RealWire(), seed), cs).w.db.payments
    ensures var p := TurnedAll(AtRest(RealWire(), seed), cs).w.db.payments[k];
            p.amount >= 1 && Judged(p, KeepsParity(p.amount))
  {
    var hs := SplitIsWhole(RealWire(), seed, cs);
    VerdictByParity(seed, hs, k);
  }
}
