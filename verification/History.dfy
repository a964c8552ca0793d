// What a run as a whole does to one payment and to one balance.
module History {
  import opened Entities
  import opened Transactions
  import opened Ledger

  // ----- no payment moves backwards

  // q is a later state of the row p: same identity, never CREATED again, frozen once settled,
  // and a stored non-empty provider id never replaced.
  predicate RowEvolves(p: Payment, q: Payment) {
    && SameIdentity(p, q)
    && (p.status != Created ==> q.status != Created)
    && (p.status == Completed || p.status == Canceled || p.status == Failed ==> q == p)
    && (p.providerId != None && p.providerId != Some("") ==> q.providerId == p.providerId)
  }

  ghost predicate Evolves(t: Tables, u: Tables) {
    && t.balances.Keys == u.balances.Keys
    && (forall k :: k in t.payments ==> k in u.payments && RowEvolves(t.payments[k], u.payments[k]))
    && (forall k :: k in u.payments && k !in t.payments ==> u.payments[k].status.Created?)
    && (forall i :: i in t.outbox ==> i in u.outbox && u.outbox[i].payload == t.outbox[i].payload)
  }

  lemma {:induction false} DeliverEvolves(t: Tables, w: Webhook)
    ensures Evolves(t, SettlePayment(t, w).1)
  {
    if SettlePayment(t, w).1 != t {
      var k := SettledRow(t, w);
    }
  }

  lemma {:induction false} CreateEvolves(t: Tables, o: Order)
    ensures Evolves(t, CreatePayment(t, o).1)
  {
  }

  lemma {:induction false} ConsumeEvolves(t: Tables, id: Uuid, reply: Option<string>)
    requires PaymentsSound(t)
    ensures Evolves(t, RecordProvider(t, id, reply).1)
  {
    assert id in t.payments ==> PaymentSound(t.payments[id]);
  }

  lemma {:induction false} SameRowsEvolve(t: Tables, u: Tables)
    requires u.balances == t.balances && u.payments == t.payments
    requires forall i :: i in t.outbox ==> i in u.outbox && u.outbox[i].payload == t.outbox[i].payload
    ensures Evolves(t, u)
  {
  }

  lemma {:induction false} StepEvolves(t: Tables, a: Action)
    requires PaymentsSound(t)
    ensures Evolves(t, Step(t, a).1)
  {
    if a.Create? && ValidRequest(a.order) {
      CreateEvolves(t, a.order);
    } else if a.Consume? {
      ConsumeEvolves(t, a.paymentId, a.reply);
    } else if a.Deliver? {
      DeliverEvolves(t, a.webhook);
    } else {
      SameRowsEvolve(t, Step(t, a).1);
    }
  }

  // Over any run: rows keep their identity, statuses never move backwards, settled rows are frozen,
  // and stored provider ids stay.
  lemma {:induction false} RunEvolves(seed: Tables, actions: seq<Action>, n: nat)
    requires Seeded(seed) && n <= |actions|
    ensures forall k :: k in Run(seed, actions[..n]).payments ==>
              k in Run(seed, actions).payments
                && RowEvolves(Run(seed, actions[..n]).payments[k], Run(seed, actions).payments[k])
    ensures forall i :: i in Run(seed, actions[..n]).outbox ==>
              i in Run(seed, actions).outbox
                && Run(seed, actions).outbox[i].payload == Run(seed, actions[..n]).outbox[i].payload
  {
    if n == |actions| {
      assert actions[..n] == actions;
    } else {
      var before := actions[..|actions| - 1];
      assert before[..n] == actions[..n];
      RunEvolves(seed, before, n);
      RunSound(seed, before);
      StepEvolves(Run(seed, before), actions[|actions| - 1]);
    }
  }

  // w is a known verdict on the open payment k and offers it an unused id for the empty one it stores.
  predicate ReplacesId(t: Tables, w: Webhook, k: Uuid)
    requires k in t.payments
  {
    var p := t.payments[k];
    && p.invoiceId == w.invoiceId && p.status.Open() && ParseVerdict(w.status).Some?
    && p.providerId == Some("") && w.id != "" && !t.ProviderIdTaken(k, w.id)
  }

  // Exactly when a stored provider id changes: it is the empty one and such a webhook arrives.
  lemma {:induction false} StoredIdChangesIff(seed: map<Uuid, Balance>, t: Tables, a: Action, k: Uuid)
    requires Sound(seed, t) && k in t.payments && t.payments[k].providerId.Some?
    ensures k in Step(t, a).1.payments
    ensures Step(t, a).1.payments[k].providerId != t.payments[k].providerId
        <==> a.Deliver? && ReplacesId(t, a.webhook, k)
  {
    if a.Deliver? {
      DeliveredIdChangesIff(seed, t, a.webhook, k);
    } else {
      OthersKeepIds(t, a, k);
    }
  }

  lemma {:induction false} OthersKeepIds(t: Tables, a: Action, k: Uuid)
    requires PaymentsSound(t) && k in t.payments && t.payments[k].providerId.Some? && !a.Deliver?
    ensures k in Step(t, a).1.payments && Step(t, a).1.payments[k].providerId == t.payments[k].providerId
  {
    assert PaymentSound(t.payments[k]);
  }

  lemma {:induction false} DeliveredIdChangesIff(seed: map<Uuid, Balance>, t: Tables, w: Webhook, k: Uuid)
    requires Sound(seed, t) && k in t.payments && t.payments[k].providerId.Some?
    ensures k in SettlePayment(t, w).1.payments
    ensures SettlePayment(t, w).1.payments[k].providerId != t.payments[k].providerId <==> ReplacesId(t, w, k)
  {
    if t.payments[k].invoiceId == w.invoiceId && t.payments[k].status.Open() && ParseVerdict(w.status).Some? {
      GuardsNeverRefuse(seed, t, w, k);
    } else if SettlePayment(t, w).1 != t {
      var j := SettledRow(t, w);
      assert PaymentSound(t.payments[j]);
    }
  }

  // It does happen: a payment of any funded order can get the empty id and then lose it to another.
  lemma {:induction false} EmptyIdIsReplaced(seed: Tables, o: Order, id: string)
    requires Seeded(seed) && ValidRequest(o) && o.merchantId in seed.balances
    requires o.amount <= seed.balances[o.merchantId].amount && id != ""
    ensures var invoiceId := NewPayment(o).invoiceId;
            var before := [Create(o), Deliver(Webhook("", invoiceId, "Created"))];
            var t, u := Run(seed, before), Run(seed, before + [Deliver(Webhook(id, invoiceId, "Created"))]);
            && o.paymentId in t.payments && t.payments[o.paymentId].providerId == Some("")
            && o.paymentId in u.payments && u.payments[o.paymentId].providerId == Some(id)
  {
    var v, w := Webhook("", NewPayment(o).invoiceId, "Created"), Webhook(id, NewPayment(o).invoiceId, "Created");
    var before := [Create(o), Deliver(v)];
    PlacedAlone(seed, o);
    RunSound(seed, [Create(o)]);
    TakesOffered(seed.balances, Run(seed, [Create(o)]), v, o.paymentId, NewPayment(o));
    assert before[..1] == [Create(o)];
    RunSound(seed, before);
    TakesOffered(seed.balances, Run(seed, before), w, o.paymentId, Settled(NewPayment(o), Accepted, v));
    assert (before + [Deliver(w)])[..2] == before;
  }

  // A payment alone in its table takes the offered id if it has none or the empty one.
  lemma {:induction false} TakesOffered(seed: map<Uuid, Balance>, t: Tables, w: Webhook, k: Uuid, p: Payment)
    requires Sound(seed, t) && t.payments == map[k := p] && p.status.Open() && p.invoiceId == w.invoiceId
    requires w.status == "Created" && (p.providerId.None? || p.providerId == Some(""))
    ensures Step(t, Deliver(w)).1.payments == map[k := Settled(p, Accepted, w)]
  {
    GuardsNeverRefuse(seed, t, w, k);
  }

  lemma {:induction false} PlacedAlone(seed: Tables, o: Order)
    requires Seeded(seed) && ValidRequest(o) && o.merchantId in seed.balances
    requires o.amount <= seed.balances[o.merchantId].amount
    ensures Run(seed, [Create(o)])
         == Tables(seed.balances[o.merchantId := Balance(seed.balances[o.merchantId].amount, o.amount)],
                   map[o.paymentId := NewPayment(o)], map[o.messageId := NewMessage(o)])
  {
    assert seed.WithOrder(o.merchantId, o.orderId) == {};
    assert Run(seed, [Create(o)]) == Step(Run(seed, []), Create(o)).1;
  }

  // Once a payment has left CREATED, a redelivered event for it does nothing, whatever the provider
  // would reply this time.
  lemma {:induction false} RedeliveryIsIdle(seed: Tables, actions: seq<Action>, n: nat, k: Uuid, reply: Option<string>)
    requires Seeded(seed) && n <= |actions|
    requires k in Run(seed, actions[..n]).payments && !Run(seed, actions[..n]).payments[k].status.Created?
    ensures Step(Run(seed, actions), Consume(k, reply)) == (Consumption(Returned(())), Run(seed, actions))
  {
    RunEvolves(seed, actions, n);
    assert RowEvolves(Run(seed, actions[..n]).payments[k], Run(seed, actions).payments[k]);
  }

  // ----- every payment is reserved once and settled at most once

  // A committed balance write, with the payment it was made for.
  datatype Movement = Movement(op: BalanceOp, paymentId: Uuid, merchantId: Uuid, amount: int)

  function MovementFor(op: BalanceOp, k: Uuid, p: Payment): Movement {
    Movement(op, k, p.merchantId, p.amount)
  }

  // The balance writes one transaction commits.
  ghost function Movements(t: Tables, a: Action): seq<Movement> {
    match a
    case Create(o) =>
      if ValidRequest(o) && CreatePayment(t, o).0 == Returned(Some(o.paymentId)) then
        [Movement(Reserve, o.paymentId, o.merchantId, o.amount)]
      else []
    case Deliver(w) =>
      if SettlePayment(t, w).1 != t && VerdictOp(ParseVerdict(w.status).value).Some? then
        var k := SettledKey(t, w);
        [MovementFor(VerdictOp(ParseVerdict(w.status).value).value, k, t.payments[k])]
      else []
    case _ => []
  }

  ghost function SettledKey(t: Tables, w: Webhook): (k: Uuid)
    requires SettlePayment(t, w).1 != t
    ensures k in t.payments && SingleRow(t.WithInvoice(w.invoiceId)) == Returned(Some(k))
    ensures ParseVerdict(w.status).Some?
  {
    SingleRow(t.WithInvoice(w.invoiceId)).value.value
  }

  ghost function Log(t: Tables, actions: seq<Action>): seq<Movement> {
    if actions == [] then []
    else
      var before := actions[..|actions| - 1];
      Log(t, before) + Movements(Run(t, before), actions[|actions| - 1])
  }

  // The balances after the logged movements, None if a guard refuses one of them.
  function Replay(balances: map<Uuid, Balance>, log: seq<Movement>): Option<map<Uuid, Balance>> {
    if log == [] then Some(balances)
    else
      match Replay(balances, log[..|log| - 1])
      case None => None
      case Some(b) =>
        var mv := log[|log| - 1];
        match ShiftRow(b, mv.merchantId, mv.op, mv.amount)
        case None => None
        case Some(row) => Some(b[mv.merchantId := row])
  }

  lemma {:induction false} ReplayOne(balances: map<Uuid, Balance>, log: seq<Movement>, mv: Movement)
    requires Replay(balances, log).Some?
    requires ShiftRow(Replay(balances, log).value, mv.merchantId, mv.op, mv.amount).Some?
    ensures var b := Replay(balances, log).value;
            Replay(balances, log + [mv]) == Some(b[mv.merchantId := ShiftRow(b, mv.merchantId, mv.op, mv.amount).value])
  {
    assert (log + [mv])[..|log|] == log;
  }

  // A transaction changes balances by its movements and by nothing else.
  lemma {:induction false} StepMoves(t: Tables, a: Action)
    ensures Replay(t.balances, Movements(t, a)) == Some(Step(t, a).1.balances)
  {
    if a.Deliver? && SettlePayment(t, a.webhook).1 != t {
      var k := SettledRow(t, a.webhook);
      assert SettledKey(t, a.webhook) == k;
    }
    if Movements(t, a) != [] {
      var mv := Movements(t, a)[0];
      assert [] + [mv] == Movements(t, a);
      ReplayOne(t.balances, [], mv);
    }
  }

  lemma {:induction false} ReplayAppend(balances: map<Uuid, Balance>, log: seq<Movement>, more: seq<Movement>)
    requires Replay(balances, log).Some? && |more| <= 1
    ensures Replay(balances, log + more) == Replay(Replay(balances, log).value, more)
  {
    if more == [] {
      assert log + more == log;
    } else {
      assert (log + more)[..|log|] == log && more[..0] == [];
    }
  }

  // The balances of any run are its log replayed on the seed, no movement being refused on the way.
  lemma {:induction false} BalancesAreReplay(seed: Tables, actions: seq<Action>)
    ensures Replay(seed.balances, Log(seed, actions)) == Some(Run(seed, actions).balances)
  {
    if actions != [] {
      var before, a := actions[..|actions| - 1], actions[|actions| - 1];
      BalancesAreReplay(seed, before);
      StepMoves(Run(seed, before), a);
      ReplayAppend(seed.balances, Log(seed, before), Movements(Run(seed, before), a));
    }
  }

  predicate Times(log: seq<Movement>, mv: Movement, n: nat) {
    multiset(log)[mv] == n
  }

  // Every movement in the log belongs to a stored payment.
  ghost predicate Attributed(payments: map<Uuid, Payment>, log: seq<Movement>) {
    forall mv :: mv in log ==>
      mv.paymentId in payments && mv == MovementFor(mv.op, mv.paymentId, payments[mv.paymentId])
  }

  // One reservation; one confirmation exactly if completed, one release exactly if canceled.
  predicate CountedRow(log: seq<Movement>, k: Uuid, p: Payment) {
    && Times(log, MovementFor(Reserve, k, p), 1)
    && Times(log, MovementFor(Confirm, k, p), if p.status.Completed? then 1 else 0)
    && Times(log, MovementFor(Release, k, p), if p.status.Canceled? then 1 else 0)
  }

  ghost predicate Counted(payments: map<Uuid, Payment>, log: seq<Movement>) {
    Attributed(payments, log) && forall k :: k in payments ==> CountedRow(log, k, payments[k])
  }

  lemma {:induction false} CreateCounts(t: Tables, o: Order, log: seq<Movement>)
    requires Counted(t.payments, log) && o.paymentId !in t.payments
    ensures Counted(t.payments[o.paymentId := NewPayment(o)],
        log + [Movement(Reserve, o.paymentId, o.merchantId, o.amount)])
  {
    var p := NewPayment(o);
    var u := t.payments[o.paymentId := p];
    var more := log + [MovementFor(Reserve, o.paymentId, p)];
    forall k | k in u ensures CountedRow(more, k, u[k]) {
      if k == o.paymentId {
        assert forall op :: MovementFor(op, k, p) !in log;
      } else {
        assert CountedRow(log, k, t.payments[k]);
      }
    }
  }

  // A status write that settles p with op, or leaves it open without one.
  lemma {:induction false} RewriteCounts(payments: map<Uuid, Payment>, k: Uuid, q: Payment, op: Option<BalanceOp>,
                                         log: seq<Movement>)
    requires Counted(payments, log) && k in payments && payments[k].status.Open() && SameIdentity(payments[k], q)
    requires match op
             case None => q.status.Open()
             case Some(Reserve) => false
             case Some(Confirm) => q.status.Completed?
             case Some(Release) => q.status.Canceled?
    ensures Counted(payments[k := q], log + if op.Some? then [MovementFor(op.value, k, payments[k])] else [])
  {
    var u := payments[k := q];
    var more := log + if op.Some? then [MovementFor(op.value, k, payments[k])] else [];
    forall j | j in u ensures CountedRow(more, j, u[j]) {
      assert CountedRow(log, j, payments[j]);
    }
    assert op.None? ==> more == log;
  }

  lemma {:induction false} CreateStepCounts(t: Tables, o: Order, log: seq<Movement>)
    requires Counted(t.payments, log) && ValidRequest(o)
    ensures Counted(CreatePayment(t, o).1.payments, log + Movements(t, Create(o)))
  {
    if CreatePayment(t, o).0 == Returned(Some(o.paymentId)) {
      CreateCounts(t, o, log);
    } else {
      assert log + [] == log;
    }
  }

  lemma {:induction false} StepCounts(t: Tables, a: Action, log: seq<Movement>)
    requires Counted(t.payments, log) && PaymentsSound(t)
    ensures Counted(Step(t, a).1.payments, log + Movements(t, a))
  {
    if Step(t, a).1.payments == t.payments && Movements(t, a) == [] {
      assert log + [] == log;
    } else if a.Create? {
      CreateStepCounts(t, a.order, log);
    } else if a.Consume? {
      ConsumeCounts(t, a.paymentId, a.reply, log);
    } else if a.Deliver? {
      DeliverCounts(t, a.webhook, log);
    }
  }

  lemma {:induction false} ConsumeCounts(t: Tables, id: Uuid, reply: Option<string>, log: seq<Movement>)
    requires Counted(t.payments, log) && RecordProvider(t, id, reply).1 != t
    ensures Counted(RecordProvider(t, id, reply).1.payments, log + [])
  {
    RewriteCounts(t.payments, id, RecordProvider(t, id, reply).1.payments[id], None, log);
  }

  lemma {:induction false} DeliverCounts(t: Tables, w: Webhook, log: seq<Movement>)
    requires Counted(t.payments, log) && PaymentsSound(t) && SettlePayment(t, w).1 != t
    ensures Counted(SettlePayment(t, w).1.payments, log + Movements(t, Deliver(w)))
  {
    var k := SettledRow(t, w);
    var v := ParseVerdict(w.status).value;
    assert PaymentSound(t.payments[k]);
    RewriteCounts(t.payments, k, Settled(t.payments[k], v, w), VerdictOp(v), log);
  }

  // Over a whole run every payment is reserved exactly once, and confirmed or released once if it is
  // COMPLETED or CANCELED and otherwise not at all; no other balance write is ever committed.
  lemma {:induction false} SettledAtMostOnce(seed: Tables, actions: seq<Action>)
    requires Seeded(seed)
    ensures Counted(Run(seed, actions).payments, Log(seed, actions))
  {
    if actions != [] {
      var before := actions[..|actions| - 1];
      SettledAtMostOnce(seed, before);
      RunSound(seed, before);
      StepCounts(Run(seed, before), actions[|actions| - 1], Log(seed, before));
    }
  }
}
