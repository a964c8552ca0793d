// The exceptions stated elsewhere for states of a certain shape, each reached by a run from a seed.
module Reached {
  import opened Entities
  import opened Transactions
  import opened Ledger
  import opened Effects
  import opened History
  import opened Uniqueness
  import opened Commuting
  import opened Reordering
  import opened Pagination
  import opened PageCuts
  import opened Publisher
  import opened PublisherRuns
  import opened Stranding

  // ----- orders from a seed

  ghost predicate Payable(seed: Tables, o: Order) {
    ValidRequest(o) && o.merchantId in seed.balances && o.amount <= seed.balances[o.merchantId].amount
  }

  // Two requests with different keys; their merchant, or merchants, can pay for both.
  ghost predicate BothPayable(seed: Tables, o: Order, p: Order) {
    && Payable(seed, o) && Payable(seed, p) && o.paymentId != p.paymentId && o.messageId != p.messageId
    && (o.merchantId == p.merchantId ==> o.amount + p.amount <= seed.balances[o.merchantId].amount)
  }

  // A payment table of two new payments.
  function NewRows(o: Order, p: Order): map<Uuid, Payment> {
    map[o.paymentId := NewPayment(o), p.paymentId := NewPayment(p)]
  }

  lemma {:induction false} SecondPlaced(t: Tables, o: Order, p: Order)
    requires WellFormed(t) && t.payments == map[o.paymentId := NewPayment(o)]
    requires o.paymentId != p.paymentId && p.messageId !in t.outbox && !Twin(NewPayment(o), p.merchantId, p.orderId)
    requires p.merchantId in t.balances && p.amount <= t.balances[p.merchantId].Available()
    ensures CreatePayment(t, p).1.payments == NewRows(o, p)
  {
    CreateOutcome(t, p);
  }

  lemma {:induction false} BothPlaced(seed: Tables, o: Order, p: Order)
    requires Seeded(seed) && BothPayable(seed, o, p) && !Twin(NewPayment(o), p.merchantId, p.orderId)
    ensures Run(seed, [Create(o), Create(p)]).payments == NewRows(o, p)
  {
    PlacedAlone(seed, o);
    RunSound(seed, [Create(o)]);
    SecondPlaced(Run(seed, [Create(o)]), o, p);
    assert [Create(o), Create(p)][..1] == [Create(o)];
  }

  // ----- one payment from start to end

  // What a seed becomes when the order o is all that ever happened: its merchant's balance and its one row.
  function Alone(seed: Tables, o: Order, b: Balance, row: Payment): Tables {
    Tables(seed.balances[o.merchantId := b], map[o.paymentId := row], map[o.messageId := NewMessage(o)])
  }

  // The row of o with a status, the provider's status and the provider's id.
  function AtProvider(o: Order, status: PaymentStatus, text: string, id: string): Payment {
    NewPayment(o).(status := status, providerStatus := Some(text), providerId := Some(id))
  }

  // The consumer does record the provider's answer to every placed order.
  lemma {:induction false} ConsumedFromSeed(seed: Tables, o: Order, id: string)
    requires Seeded(seed) && Payable(seed, o)
    ensures Run(seed, [Create(o), Consume(o.paymentId, Some(id))])
         == Alone(seed, o, Balance(seed.balances[o.merchantId].amount, o.amount),
                  AtProvider(o, Processing, "Created", id))
  {
    PlacedAlone(seed, o);
    assert [Create(o), Consume(o.paymentId, Some(id))][..1] == [Create(o)];
    ConsumerEffects(Run(seed, [Create(o)]), o.paymentId, Some(id));
  }

  // Then Completed spends the reserved amount, Canceled gives it back, Created changes nothing, and any other
  // text is refused.
  lemma {:induction false} SettledFromSeed(seed: Tables, o: Order, id: string, w: Webhook)
    requires Seeded(seed) && Payable(seed, o) && w.invoiceId == NewPayment(o).invoiceId && id != ""
    ensures var t := Run(seed, [Create(o), Consume(o.paymentId, Some(id))]);
            var funds := seed.balances[o.merchantId].amount;
            Step(t, Deliver(w))
            == if w.status == "Completed" then
                 (Delivery(Returned(true)),
                  Alone(seed, o, Balance(funds - o.amount, 0), AtProvider(o, Completed, "Completed", id)))
               else if w.status == "Canceled" then
                 (Delivery(Returned(true)), Alone(seed, o, Balance(funds, 0), AtProvider(o, Canceled, "Canceled", id)))
               else (Delivery(Returned(w.status == "Created")), t)
  {
    var t := Run(seed, [Create(o), Consume(o.paymentId, Some(id))]);
    ConsumedFromSeed(seed, o, id);
    RunSound(seed, [Create(o), Consume(o.paymentId, Some(id))]);
    if w.status == "Created" || w.status == "Completed" || w.status == "Canceled" {
      WebhookEffects(seed.balances, t, w, o.paymentId);
      VerdictAlone(seed, o, id, w);
    } else {
      UnknownStatus(t, w);
    }
  }

  lemma {:induction false} VerdictAlone(seed: Tables, o: Order, id: string, w: Webhook)
    requires Payable(seed, o) && id != ""
    ensures var funds := seed.balances[o.merchantId].amount;
            AfterVerdict(Alone(seed, o, Balance(funds, o.amount), AtProvider(o, Processing, "Created", id)), w,
                         o.paymentId)
            == if w.status == "Completed" then
                 Alone(seed, o, Balance(funds - o.amount, 0), AtProvider(o, Completed, "Completed", id))
               else if w.status == "Created" then
                 Alone(seed, o, Balance(funds, o.amount), AtProvider(o, Processing, "Created", id))
               else Alone(seed, o, Balance(funds, 0), AtProvider(o, Canceled, "Canceled", id))
  {
  }

  // ----- the exceptions

  // A second request that differs in the hyphens of its order id alone raises although it is funded.
  lemma {:induction false} TwinRaisesFromSeed(seed: Tables, o: Order, p: Order)
    requires Seeded(seed) && BothPayable(seed, o, p)
    requires Twin(NewPayment(o), p.merchantId, p.orderId) && o.orderId != p.orderId
    ensures Step(Run(seed, [Create(o)]), Create(p)) == (Creation(Raised(UniqueViolation)), Run(seed, [Create(o)]))
  {
    PlacedAlone(seed, o);
    RunSound(seed, [Create(o)]);
    HyphenTwinRaises(Run(seed, [Create(o)]), p, o.paymentId);
  }

  // Two orders of one merchant placed at one instant: some walk over their listing misses a payment.
  lemma {:induction false} ListingLosesFromSeed(seed: Tables, o: Order, p: Order)
    requires Seeded(seed) && BothPayable(seed, o, p) && !Twin(NewPayment(o), p.merchantId, p.orderId)
    requires o.merchantId == p.merchantId && o.now == p.now
    ensures !WalksAreComplete(Selected(Run(seed, [Create(o), Create(p)]), o.merchantId, None), None)
  {
    BothPlaced(seed, o, p);
    TiedListing(Run(seed, [Create(o), Create(p)]), o, p);
  }

  lemma {:induction false} TiedListing(t: Tables, o: Order, p: Order)
    requires t.payments == NewRows(o, p) && o.paymentId != p.paymentId && o.merchantId == p.merchantId && o.now == p.now
    ensures !WalksAreComplete(Selected(t, o.merchantId, None), None)
  {
    TiedRows(Selected(t, o.merchantId, None), o.paymentId, p.paymentId);
  }

  lemma {:induction false} TiedRows(rows: map<Uuid, int>, j: Uuid, k: Uuid)
    requires j in rows && k in rows && j != k && rows[j] == rows[k]
    ensures !WalksAreComplete(rows, None)
  {
    assert Before(rows, None)[j] == Before(rows, None)[k];
    CompleteIffDistinct(rows, None);
  }

  // Two placed orders and two webhooks that offer them one id: the order of arrival matters.
  lemma {:induction false} SharedIdFromSeed(seed: Tables, o: Order, p: Order, v: Webhook, w: Webhook)
    requires Seeded(seed) && BothPayable(seed, o, p) && !Twin(NewPayment(o), p.merchantId, p.orderId)
    requires v.invoiceId == NewPayment(o).invoiceId && w.invoiceId == NewPayment(p).invoiceId && v.id == w.id
    requires ParseVerdict(v.status).Some? && ParseVerdict(w.status).Some?
    ensures var t := Run(seed, [Create(o), Create(p)]);
            DeliverAll(t, [v, w]) != DeliverAll(t, [w, v])
  {
    BothPlaced(seed, o, p);
    RunSound(seed, [Create(o), Create(p)]);
    SharedIdIn(seed.balances, Run(seed, [Create(o), Create(p)]), o, p, v, w);
  }

  lemma {:induction false} SharedIdIn(seed: map<Uuid, Balance>, t: Tables, o: Order, p: Order, v: Webhook, w: Webhook)
    requires Sound(seed, t) && t.payments == NewRows(o, p) && o.paymentId != p.paymentId
    requires v.invoiceId == NewPayment(o).invoiceId && w.invoiceId == NewPayment(p).invoiceId && v.id == w.id
    requires ParseVerdict(v.status).Some? && ParseVerdict(w.status).Some?
    ensures DeliverAll(t, [v, w]) != DeliverAll(t, [w, v])
  {
    NewRowsContested(t, o, p, v, w);
    SharedIdsOrderMatters(seed, t, v, w, o.paymentId, p.paymentId);
  }

  lemma {:induction false} NewRowsContested(t: Tables, o: Order, p: Order, v: Webhook, w: Webhook)
    requires t.payments == NewRows(o, p) && o.paymentId != p.paymentId
    requires v.invoiceId == NewPayment(o).invoiceId && w.invoiceId == NewPayment(p).invoiceId && v.id == w.id
    requires ParseVerdict(v.status).Some? && ParseVerdict(w.status).Some?
    ensures Contested(t, v, w, o.paymentId, p.paymentId)
  {
  }

  // The first of two placed orders gets the empty id. Of two webhooks with distinct ids the order of arrival
  // matters if one replaces that id and the other brings the empty one to the second order.
  lemma {:induction false} EmptyIdFromSeed(seed: Tables, o: Order, p: Order, v: Webhook, w: Webhook)
    requires Seeded(seed) && BothPayable(seed, o, p) && !Twin(NewPayment(o), p.merchantId, p.orderId)
    requires v.invoiceId == NewPayment(o).invoiceId && w.invoiceId == NewPayment(p).invoiceId
    requires v.id != "" && w.id == "" && ParseVerdict(v.status).Some? && ParseVerdict(w.status).Some?
    ensures var t := Run(seed, [Create(o), Create(p), Deliver(Webhook("", v.invoiceId, "Created"))]);
            DeliverAll(t, [v, w]) != DeliverAll(t, [w, v])
  {
    var actions := [Create(o), Create(p), Deliver(Webhook("", v.invoiceId, "Created"))];
    assert actions[..2] == [Create(o), Create(p)];
    BothPlaced(seed, o, p);
    RunSound(seed, [Create(o), Create(p)]);
    EmptyIdTaken(seed.balances, Run(seed, [Create(o), Create(p)]), o, p, v.invoiceId);
    RunSound(seed, actions);
    EmptyIdIn(seed.balances, Run(seed, actions), o, p, v, w);
  }

  // The row of o once it has the empty id.
  function WithEmptyId(o: Order): Payment {
    NewPayment(o).(status := Processing, providerStatus := Some("Created"), providerId := Some(""))
  }

  lemma {:induction false} EmptyIdTaken(seed: map<Uuid, Balance>, t: Tables, o: Order, p: Order, invoiceId: string)
    requires Sound(seed, t) && t.payments == NewRows(o, p) && o.paymentId != p.paymentId
    requires invoiceId == NewPayment(o).invoiceId
    ensures SettlePayment(t, Webhook("", invoiceId, "Created")).1.payments
         == NewRows(o, p)[o.paymentId := WithEmptyId(o)]
  {
    var w := Webhook("", invoiceId, "Created");
    EmptyIdActs(t, o, p, w);
    ActsTo(seed, t, w, o.paymentId);
    EmptyIdRow(t, o, w);
  }

  lemma {:induction false} EmptyIdActs(t: Tables, o: Order, p: Order, w: Webhook)
    requires t.payments == NewRows(o, p) && o.paymentId != p.paymentId
    requires w == Webhook("", NewPayment(o).invoiceId, "Created")
    ensures Acts(t, w, o.paymentId)
  {
  }

  lemma {:induction false} EmptyIdRow(t: Tables, o: Order, w: Webhook)
    requires Acts(t, w, o.paymentId) && Accepts(t, w, o.paymentId) && t.payments[o.paymentId] == NewPayment(o)
    requires w == Webhook("", NewPayment(o).invoiceId, "Created")
    ensures Acted(t, w, o.paymentId).payments == t.payments[o.paymentId := WithEmptyId(o)]
  {
  }

  lemma {:induction false} EmptyIdIn(seed: map<Uuid, Balance>, t: Tables, o: Order, p: Order, v: Webhook, w: Webhook)
    requires Sound(seed, t) && t.payments == NewRows(o, p)[o.paymentId := WithEmptyId(o)] && o.paymentId != p.paymentId
    requires v.invoiceId == NewPayment(o).invoiceId && w.invoiceId == NewPayment(p).invoiceId
    requires v.id != "" && w.id == "" && ParseVerdict(v.status).Some? && ParseVerdict(w.status).Some?
    ensures DeliverAll(t, [v, w]) != DeliverAll(t, [w, v])
  {
    EmptyIdOrderMatters(seed, t, v, w, o.paymentId, p.paymentId);
  }

  // The publisher takes the message of a placed order, commits PROCESSING and crashes: the broker never
  // gets it, whatever follows.
  lemma {:induction false} StrandedFromSeed(s: State, o: Order, later: seq<PublisherRuns.Event>)
    requires Fresh(s) && Payable(s.tables, o)
    ensures var u := Moves(s, [Other(Create(o)), Load([o.messageId]), Mark, Crash] + later);
            && o.messageId in u.tables.outbox && u.tables.outbox[o.messageId].status.Publishing?
            && o.messageId !in u.handed
  {
    var start := [Other(Create(o)), Load([o.messageId]), Mark];
    TakenFromSeed(s, o);
    assert start + ([Crash] + later) == [Other(Create(o)), Load([o.messageId]), Mark, Crash] + later;
    MovesJoin(s, start, [Crash] + later);
    AfterCrash(Moves(s, start), later);
    MovesKeepOrderly(s, start);
    CrashStrands(Moves(s, start), later);
  }

  lemma {:induction false} TakenFromSeed(s: State, o: Order)
    requires Fresh(s) && Payable(s.tables, o)
    ensures Moves(s, [Other(Create(o)), Load([o.messageId]), Mark]).phase == Handing(o.messageId, [])
  {
    var placed := s.(tables := Run(s.tables, [Create(o)]));
    PlacedAlone(s.tables, o);
    assert Run(s.tables, [Create(o)]) == Step(Run(s.tables, []), Create(o)).1;
    MovesTwo(s, Other(Create(o)), Load([o.messageId]));
    OneAnswer(placed.tables.outbox, o.messageId);
    assert [Other(Create(o)), Load([o.messageId]), Mark][..2] == [Other(Create(o)), Load([o.messageId])];
  }

  lemma {:induction false} OneAnswer(outbox: map<Uuid, Message>, i: Uuid)
    requires outbox.Keys == {i} && outbox[i].status.Pending?
    ensures IsBatch(outbox, [i])
  {
    assert Waiting(outbox).Keys == {i};
    assert |Waiting(outbox)| == 1;
  }
}
