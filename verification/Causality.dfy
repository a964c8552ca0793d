// The whole saga when webhooks come only from the provider: publisher, broker, consumer and provider
// around the database, with events and webhooks lost, repeated and reordered at will, several
// publishers, and crashes between any two steps.
module Causality {
  import opened Entities
  import opened Amounts
  import opened AmountTexts
  import opened AmountParity
  import opened Transactions
  import opened Ledger
  import opened Provider

  // What the provider reads when the gateway sends an amount; None when it refuses the request.
  type Wire = int -> Option<nat>

  // The wire as built: format, send, parse.
  function RealWire(): Wire {
    a => Trip(a)
  }

  // broker and sent hold every event and webhook ever handed over; whatever was handed over may
  // arrive any number of times, or never.
  datatype World = World(
    wire: Wire,
    db: Tables,
    broker: set<Event>,
    delivered: set<Event>,
    provider: map<string, ProviderPayment>,
    sent: set<Webhook>)

  datatype Happening =
    | Request(order: Order)                                // a merchant calls create_payment
    | Pick(messageId: Uuid)                                // a publisher commits PROCESSING
    | HandOff(messageId: Uuid)                             // and then publishes the payload
    | Report(messageId: Uuid, mark: Mark)                  // and then commits SENT or FAILED
    | Receive(event: Event)                                // the consumer gets an event
    | CallProvider(event: Event, id: string, url: string)  // and, its payment being CREATED, calls the provider
    | Record(event: Event, reply: Option<string>)          // and commits what the provider answered, or fails
    | Fire(id: string)                                     // the provider sends its webhook
    | Arrive(webhook: Webhook)                             // the webhook is handled

  ghost function Happen(w: World, h: Happening): World {
    match h
    case Request(o) => w.(db := Step(w.db, Create(o)).1)
    case Pick(i) => w.(db := Step(w.db, Update(i, ToPublishing)).1)
    case HandOff(i) =>
      if i in w.db.outbox && !w.db.outbox[i].status.Pending?
      then w.(broker := w.broker + {w.db.outbox[i].payload}) else w
    case Report(i, mark) =>
      if i in w.db.outbox && !w.db.outbox[i].status.Pending? then w.(db := Step(w.db, Update(i, mark)).1) else w
    case Receive(e) =>
      if e in w.broker then w.(delivered := w.delivered + {e}) else w
    case CallProvider(e, id, url) =>
      if e in w.delivered && e.paymentId in w.db.payments && w.db.payments[e.paymentId].status.Created?
         && id !in w.provider && w.wire(e.amount).Some?
      then w.(provider := w.provider[id := ProviderPayment(id, e.invoiceId, w.wire(e.amount).value, url, "Created")])
      else w
    case Record(e, reply) =>
      if e in w.delivered
        && (reply.None? || (reply.value in w.provider && w.provider[reply.value].invoiceId == e.invoiceId))
      then w.(db := Step(w.db, Consume(e.paymentId, reply)).1) else w
    case Fire(id) =>
      if id in w.provider then
        w.(provider := w.provider[id := w.provider[id].(status := FinalStatus(w.provider[id].amount))],
           sent := w.sent + {WebhookFor(w.provider[id])})
      else w
    case Arrive(v) =>
      if v in w.sent then w.(db := Step(w.db, Deliver(v)).1) else w
  }

  ghost function HappenAll(w: World, hs: seq<Happening>): World {
    if hs == [] then w else Happen(HappenAll(w, hs[..|hs| - 1]), hs[|hs| - 1])
  }

  // An outbox message past PENDING carries this event.
  ghost predicate LeftPending(db: Tables, e: Event) {
    exists i :: i in db.outbox && db.outbox[i].payload == e && !db.outbox[i].status.Pending?
  }

  ghost predicate EventsPublished(w: World) {
    w.delivered <= w.broker && forall e :: e in w.broker ==> LeftPending(w.db, e)
  }

  // The provider made this payment for a delivered event.
  ghost predicate Ordered(wire: Wire, delivered: set<Event>, p: ProviderPayment) {
    exists e :: e in delivered && e.invoiceId == p.invoiceId && wire(e.amount) == Some(p.amount)
  }

  ghost predicate ProviderExplained(w: World) {
    && (forall id :: id in w.provider ==> w.provider[id].id == id && Ordered(w.wire, w.delivered, w.provider[id]))
    && (forall v :: v in w.sent ==> v.id in w.provider && v == WebhookFor(w.provider[v.id]))
  }

  // A payment past CREATED names a provider payment for its invoice.
  predicate Backed(provider: map<string, ProviderPayment>, p: Payment) {
    !p.status.Created? ==>
      && p.providerId.Some? && p.providerId.value in provider
      && provider[p.providerId.value].invoiceId == p.invoiceId
  }

  // A settled status is the one that the parity of the amount read calls for.
  predicate Fits(status: PaymentStatus, read: Option<nat>) {
    && (status.Completed? ==> read.Some? && read.value % 2 == 0)
    && (status.Canceled? ==> read.Some? && read.value % 2 == 1)
  }

  predicate Explained(w: World, p: Payment) {
    Backed(w.provider, p) && Fits(p.status, w.wire(p.amount))
  }

  ghost predicate PaymentsExplained(w: World) {
    forall k :: k in w.db.payments ==> Explained(w, w.db.payments[k])
  }

  ghost predicate Linked(w: World) {
    EventsPublished(w) && ProviderExplained(w) && PaymentsExplained(w)
  }

  // ----- what the invariant says about one invoice

  // A delivered event is the announcement of a stored payment.
  lemma {:induction false} EventOf(w: World, e: Event)
    requires PayloadsMatch(w.db) && EventsPublished(w) && e in w.broker
    ensures e.paymentId in w.db.payments
    ensures w.db.payments[e.paymentId].invoiceId == e.invoiceId && w.db.payments[e.paymentId].amount == e.amount
  {
    assert LeftPending(w.db, e);
  }

  // The provider read the amount of the payment that has the invoice.
  lemma {:induction false} ProviderAmount(w: World, id: string, k: Uuid)
    requires w.db.InvoicesUnique() && PayloadsMatch(w.db) && EventsPublished(w) && ProviderExplained(w)
    requires id in w.provider && k in w.db.payments && w.db.payments[k].invoiceId == w.provider[id].invoiceId
    ensures w.wire(w.db.payments[k].amount) == Some(w.provider[id].amount)
  {
    assert Ordered(w.wire, w.delivered, w.provider[id]);
    var e :| e in w.delivered && e.invoiceId == w.provider[id].invoiceId
             && w.wire(e.amount) == Some(w.provider[id].amount);
    EventOf(w, e);
    assert e.paymentId == k;
  }

  // ----- every step keeps the invariant

  // No transaction puts a message back to PENDING or changes its payload.
  lemma {:induction false} OutboxAdvances(t: Tables, a: Action)
    ensures forall i :: i in t.outbox ==>
              var u := Step(t, a).1;
              && i in u.outbox && u.outbox[i].payload == t.outbox[i].payload
              && (u.outbox[i].status.Pending? ==> t.outbox[i].status.Pending?)
  {
  }

  lemma {:induction false} StepKeepsEvents(w: World, a: Action)
    requires EventsPublished(w)
    ensures EventsPublished(w.(db := Step(w.db, a).1))
  {
    OutboxAdvances(w.db, a);
    forall e | e in w.broker ensures LeftPending(Step(w.db, a).1, e) {
      assert LeftPending(w.db, e);
      var i :| i in w.db.outbox && w.db.outbox[i].payload == e && !w.db.outbox[i].status.Pending?;
      assert Step(w.db, a).1.outbox[i].payload == e;
    }
  }

  lemma {:induction false} RequestExplained(w: World, o: Order)
    requires PaymentsExplained(w)
    ensures PaymentsExplained(w.(db := Step(w.db, Create(o)).1))
  {
  }

  lemma {:induction false} RecordExplained(w: World, e: Event, reply: Option<string>)
    requires PayloadsMatch(w.db) && EventsPublished(w) && PaymentsExplained(w) && e in w.delivered
    requires reply.None? || (reply.value in w.provider && w.provider[reply.value].invoiceId == e.invoiceId)
    ensures PaymentsExplained(w.(db := Step(w.db, Consume(e.paymentId, reply)).1))
  {
    EventOf(w, e);
  }

  // Whatever open row of its invoice v settles, the result is explained.
  ghost predicate ArrivalFits(w: World, v: Webhook) {
    forall k ::
      k in w.db.payments && w.db.payments[k].invoiceId == v.invoiceId && !w.db.payments[k].status.Terminal() ==>
      ParseVerdict(v.status).Some? && Explained(w, Settled(w.db.payments[k], ParseVerdict(v.status).value, v))
  }

  lemma {:induction false} SentFits(w: World, v: Webhook)
    requires w.db.InvoicesUnique() && PayloadsMatch(w.db) && PaymentsSound(w.db) && Linked(w) && v in w.sent
    ensures ArrivalFits(w, v)
  {
    VerdictOfFinal(w.provider[v.id].amount);
    forall k | k in w.db.payments && w.db.payments[k].invoiceId == v.invoiceId && !w.db.payments[k].status.Terminal()
      ensures ParseVerdict(v.status).Some? && Explained(w, Settled(w.db.payments[k], ParseVerdict(v.status).value, v))
    {
      ArrivedExplained(w, v, k);
    }
  }

  lemma {:induction false} ArriveExplained(w: World, v: Webhook)
    requires PaymentsExplained(w) && ArrivalFits(w, v)
    ensures PaymentsExplained(w.(db := Step(w.db, Deliver(v)).1))
  {
    if SettlePayment(w.db, v).1 != w.db {
      var k, verdict := WrittenRow(w.db, v);
      WrittenExplained(w, k, Settled(w.db.payments[k], verdict, v), SettlePayment(w.db, v).1);
    }
  }

  // The row a delivery rewrites, and nothing more about the balances.
  lemma {:induction false} WrittenRow(t: Tables, v: Webhook) returns (k: Uuid, verdict: Verdict)
    requires SettlePayment(t, v).1 != t
    ensures k in t.payments && t.payments[k].invoiceId == v.invoiceId && !t.payments[k].status.Terminal()
    ensures ParseVerdict(v.status) == Some(verdict)
    ensures SettlePayment(t, v).1.payments == t.payments[k := Settled(t.payments[k], verdict, v)]
  {
    k := SettledRow(t, v);
    verdict := ParseVerdict(v.status).value;
  }

  lemma {:induction false} WrittenExplained(w: World, k: Uuid, q: Payment, u: Tables)
    requires PaymentsExplained(w) && Explained(w, q) && u.payments == w.db.payments[k := q]
    ensures PaymentsExplained(w.(db := u))
  {
    forall j | j in u.payments ensures Explained(w.(db := u), u.payments[j]) {
      assert j != k ==> Explained(w, w.db.payments[j]);
    }
  }

  lemma {:induction false} ArrivedExplained(w: World, v: Webhook, k: Uuid)
    requires w.db.InvoicesUnique() && PayloadsMatch(w.db) && PaymentsSound(w.db) && Linked(w) && v in w.sent
    requires k in w.db.payments && w.db.payments[k].invoiceId == v.invoiceId && !w.db.payments[k].status.Terminal()
    requires ParseVerdict(v.status).Some?
    ensures Explained(w, Settled(w.db.payments[k], ParseVerdict(v.status).value, v))
  {
    var p := w.db.payments[k];
    ProviderAmount(w, v.id, k);
    assert PaymentSound(p) && Explained(w, p);
    ArrivedRow(w.provider, v, p);
  }

  lemma {:induction false} VerdictOfFinal(amount: nat)
    ensures ParseVerdict(FinalStatus(amount)) == Some(if amount % 2 == 0 then Approved else Declined)
  {
  }

  lemma {:induction false} ArrivedRow(provider: map<string, ProviderPayment>, v: Webhook, p: Payment)
    requires v.id in provider && v == WebhookFor(provider[v.id])
    requires p.invoiceId == v.invoiceId && p.status.Open() && Backed(provider, p)
    requires p.status.Created? ==> p.providerId.None?
    ensures ParseVerdict(v.status).Some?
    ensures var q := Settled(p, ParseVerdict(v.status).value, v);
            Backed(provider, q) && Fits(q.status, Some(provider[v.id].amount))
  {
    VerdictOfFinal(provider[v.id].amount);
  }

  lemma {:induction false} HandOffLinked(w: World, i: Uuid)
    requires Linked(w)
    ensures Linked(Happen(w, HandOff(i)))
  {
    if i in w.db.outbox && !w.db.outbox[i].status.Pending? {
      assert LeftPending(w.db, w.db.outbox[i].payload);
    }
  }

  lemma {:induction false} OrderedGrows(wire: Wire, before: set<Event>, after: set<Event>, p: ProviderPayment,
                                        q: ProviderPayment)
    requires before <= after && Ordered(wire, before, p) && q.invoiceId == p.invoiceId && q.amount == p.amount
    ensures Ordered(wire, after, q)
  {
    var e :| e in before && e.invoiceId == p.invoiceId && wire(e.amount) == Some(p.amount);
    assert e in after;
  }

  lemma {:induction false} ReceiveLinked(w: World, e: Event)
    requires Linked(w)
    ensures Linked(Happen(w, Receive(e)))
  {
    forall id | id in w.provider ensures Ordered(w.wire, w.delivered + {e}, w.provider[id]) {
      OrderedGrows(w.wire, w.delivered, w.delivered + {e}, w.provider[id], w.provider[id]);
    }
  }

  // A new or rewritten provider payment that keeps what is known of its id.
  predicate Rewrites(w: World, id: string, p: ProviderPayment) {
    p.id == id && (id in w.provider ==> w.provider[id].invoiceId == p.invoiceId && w.provider[id].amount == p.amount)
  }

  lemma {:induction false} WriteProvider(w: World, id: string, p: ProviderPayment, sent: set<Webhook>)
    requires Linked(w) && Rewrites(w, id, p) && Ordered(w.wire, w.delivered, p)
    requires forall v :: v in sent ==> v in w.sent || v == WebhookFor(p)
    ensures Linked(w.(provider := w.provider[id := p], sent := sent))
  {
    WriteSent(w, id, p, sent);
    WriteExplained(w, id, p);
  }

  lemma {:induction false} WriteSent(w: World, id: string, p: ProviderPayment, sent: set<Webhook>)
    requires ProviderExplained(w) && Rewrites(w, id, p)
    requires forall v :: v in sent ==> v in w.sent || v == WebhookFor(p)
    ensures forall v :: v in sent ==> v.id in w.provider[id := p] && v == WebhookFor(w.provider[id := p][v.id])
  {
  }

  lemma {:induction false} WriteExplained(w: World, id: string, p: ProviderPayment)
    requires PaymentsExplained(w) && Rewrites(w, id, p)
    ensures forall k :: k in w.db.payments ==> Explained(w.(provider := w.provider[id := p]), w.db.payments[k])
  {
    forall k | k in w.db.payments ensures Explained(w.(provider := w.provider[id := p]), w.db.payments[k]) {
      assert Explained(w, w.db.payments[k]);
    }
  }

  lemma {:induction false} CallLinked(w: World, e: Event, id: string, url: string)
    requires Linked(w)
    ensures Linked(Happen(w, CallProvider(e, id, url)))
  {
    var u := Happen(w, CallProvider(e, id, url));
    if u != w {
      var p := u.provider[id];
      assert w.wire(e.amount) == Some(p.amount);
      assert Ordered(w.wire, w.delivered, p);
      WriteProvider(w, id, p, w.sent);
    }
  }

  lemma {:induction false} FireLinked(w: World, id: string)
    requires Linked(w)
    ensures Linked(Happen(w, Fire(id)))
  {
    if id in w.provider {
      var p := w.provider[id].(status := FinalStatus(w.provider[id].amount));
      OrderedGrows(w.wire, w.delivered, w.delivered, w.provider[id], p);
      WriteProvider(w, id, p, w.sent + {WebhookFor(w.provider[id])});
    }
  }

  // The transaction a happening commits, if any.
  ghost function ActionOf(w: World, h: Happening): Option<Action> {
    match h
    case Request(o) => Some(Create(o))
    case Pick(i) => Some(Update(i, ToPublishing))
    case Report(i, mark) => if i in w.db.outbox && !w.db.outbox[i].status.Pending? then Some(Update(i, mark)) else None
    case Record(e, reply) =>
      if e in w.delivered
        && (reply.None? || (reply.value in w.provider && w.provider[reply.value].invoiceId == e.invoiceId))
      then Some(Consume(e.paymentId, reply)) else None
    case Arrive(v) => if v in w.sent then Some(Deliver(v)) else None
    case _ => None
  }

  // Every run of the saga is, on the database, a run of the ledger.
  lemma {:induction false} HappenIsStep(w: World, h: Happening)
    ensures Happen(w, h).db == match ActionOf(w, h) case None => w.db case Some(a) => Step(w.db, a).1
  {
  }

  lemma {:induction false} TransactionLinked(w: World, h: Happening)
    requires w.db.InvoicesUnique() && PayloadsMatch(w.db) && PaymentsSound(w.db) && Linked(w) && ActionOf(w, h).Some?
    ensures Linked(Happen(w, h))
  {
    StepKeepsEvents(w, ActionOf(w, h).value);
    if h.Request? {
      RequestExplained(w, h.order);
    } else if h.Record? {
      RecordExplained(w, h.event, h.reply);
    } else if h.Arrive? {
      SentFits(w, h.webhook);
      ArriveExplained(w, h.webhook);
    }
  }

  lemma {:induction false} HappenLinked(w: World, h: Happening)
    requires w.db.InvoicesUnique() && PayloadsMatch(w.db) && PaymentsSound(w.db) && Linked(w)
    ensures Linked(Happen(w, h))
  {
    if ActionOf(w, h).Some? {
      TransactionLinked(w, h);
    } else if h.HandOff? {
      HandOffLinked(w, h.messageId);
    } else if h.Receive? {
      ReceiveLinked(w, h.event);
    } else if h.CallProvider? {
      CallLinked(w, h.event, h.id, h.url);
    } else if h.Fire? {
      FireLinked(w, h.id);
    }
  }

  // ----- main results

  // The gateway before the first request.
  function Idle(wire: Wire, seed: Tables): World {
    World(wire, seed, {}, {}, map[], {})
  }

  lemma {:induction false} AllHappensLinked(wire: Wire, seed: Tables, hs: seq<Happening>)
    requires Seeded(seed)
    ensures var w := HappenAll(Idle(wire, seed), hs);
            w.wire == wire && Sound(seed.balances, w.db) && Linked(w)
  {
    if hs == [] {
      SeededSound(seed);
    } else {
      var before, h := hs[..|hs| - 1], hs[|hs| - 1];
      AllHappensLinked(wire, seed, before);
      HappenKeeps(seed, HappenAll(Idle(wire, seed), before), h);
    }
  }

  lemma {:induction false} HappenKeeps(seed: Tables, w: World, h: Happening)
    requires Sound(seed.balances, w.db) && Linked(w)
    ensures Happen(w, h).wire == w.wire && Sound(seed.balances, Happen(w, h).db) && Linked(Happen(w, h))
  {
    HappenLinked(w, h);
    HappenIsStep(w, h);
    if ActionOf(w, h).Some? {
      StepKeepsSound(seed.balances, w.db, ActionOf(w, h).value);
    }
  }

  // A provider payment for p's invoice, made for a delivered event whose outbox message has left PENDING.
  ghost predicate Chain(w: World, k: Uuid, p: Payment) {
    && p.providerId.Some? && p.providerId.value in w.provider
    && w.provider[p.providerId.value].invoiceId == p.invoiceId
    && exists i :: i in w.db.outbox && Announces(w.db.outbox[i], k, p)
                   && w.db.outbox[i].payload in w.delivered && !w.db.outbox[i].status.Pending?
  }

  lemma {:induction false} ChainFrom(w: World, k: Uuid)
    requires w.db.InvoicesUnique() && PayloadsMatch(w.db) && Linked(w)
    requires k in w.db.payments && !w.db.payments[k].status.Created?
    ensures Chain(w, k, w.db.payments[k])
  {
    var p := w.db.payments[k];
    assert Explained(w, p);
    var q := w.provider[p.providerId.value];
    assert Ordered(w.wire, w.delivered, q);
    var e :| e in w.delivered && e.invoiceId == q.invoiceId && w.wire(e.amount) == Some(q.amount);
    EventOf(w, e);
    assert e.paymentId == k;
    assert LeftPending(w.db, e);
    var i :| i in w.db.outbox && w.db.outbox[i].payload == e && !w.db.outbox[i].status.Pending?;
    assert Announces(w.db.outbox[i], k, p);
  }

  // The causal chain: a payment past CREATED has a provider payment for its invoice, made for a
  // delivered event, whose one outbox message has left PENDING.
  lemma {:induction false} CausalChain(wire: Wire, seed: Tables, hs: seq<Happening>, k: Uuid)
    requires Seeded(seed)
    requires k in HappenAll(Idle(wire, seed), hs).db.payments
    ensures var w := HappenAll(Idle(wire, seed), hs);
            w.db.payments[k].status.Created? || Chain(w, k, w.db.payments[k])
  {
    AllHappensLinked(wire, seed, hs);
    var w := HappenAll(Idle(wire, seed), hs);
    if !w.db.payments[k].status.Created? {
      ChainFrom(w, k);
    }
  }

  // The verdict is the parity of the payment's own amount, read right or wrong.
  predicate Judged(p: Payment, right: bool) {
    && (p.status.Completed? ==> (p.amount % 2 == 0 <==> right))
    && (p.status.Canceled? ==> (p.amount % 2 == 1 <==> right))
  }

  lemma {:induction false} FitsIsJudged(p: Payment)
    requires p.amount >= 1 && Fits(p.status, Trip(p.amount))
    ensures Judged(p, KeepsParity(p.amount))
    ensures p.amount <= 7_036_874_417_766_400 ==> KeepsParity(p.amount)
  {
    TripKeepsParityIff(p.amount);
    if p.amount <= 7_036_874_417_766_400 {
      ParityUpToBound(p.amount);
    }
  }

  // However many provider payments crashes and redeliveries made for it, a settled payment has the verdict
  // of its own parity if that survives the trip, as it does up to the last exact amount, and else the other.
  lemma {:induction false} VerdictByParity(seed: Tables, hs: seq<Happening>, k: Uuid)
    requires Seeded(seed) && k in HappenAll(Idle(RealWire(), seed), hs).db.payments
    ensures var p := HappenAll(Idle(RealWire(), seed), hs).db.payments[k];
            && p.amount >= 1 && Fits(p.status, Trip(p.amount)) && Judged(p, KeepsParity(p.amount))
            && (p.amount <= 7_036_874_417_766_400 && p.status.Completed? ==> p.amount % 2 == 0)
            && (p.amount <= 7_036_874_417_766_400 && p.status.Canceled? ==> p.amount % 2 == 1)
  {
    AllHappensLinked(RealWire(), seed, hs);
    var p := HappenAll(Idle(RealWire(), seed), hs).db.payments[k];
    assert p.amount >= 1 && Fits(p.status, RealWire()(p.amount)) by {
      var w := HappenAll(Idle(RealWire(), seed), hs);
      assert Explained(w, p) && PaymentSound(p);
    }
    FitsIsJudged(p);
  }

  // The wire carries exactly the positive amounts, each as the number of hundredths that the consumer's text
  // spells to the provider.
  lemma {:induction false} WireIsTheProvider(a: int, h: nat)
    ensures RealWire()(a).Some? <==> a >= 1
    ensures RealWire()(a) == Some(h) <==> ReadsAs(FormatAmount(a), h)
  {
    ParsedIff(FormatAmount(a), h);
    if a >= 1 {
      TripExactIff(a);
    } else {
      TripRefuses(a);
    }
  }

  // ----- reachability

  lemma {:induction false} Extend(w: World, hs: seq<Happening>, h: Happening)
    ensures HappenAll(w, hs + [h]) == Happen(HappenAll(w, hs), h)
  {
    assert (hs + [h])[..|hs|] == hs;
  }

  // A funded order can reach the provider.
  lemma {:induction false} CanBeOrdered(wire: Wire, seed: Tables, o: Order) returns (hs: seq<Happening>)
    requires Seeded(seed) && ValidRequest(o) && o.merchantId in seed.balances
    requires seed.balances[o.merchantId].amount >= o.amount
    ensures var w := HappenAll(Idle(wire, seed), hs);
            && w.wire == wire && w.db.payments == map[o.paymentId := NewPayment(o)]
            && NewMessage(o).payload in w.delivered && w.provider == map[] && w.sent == {}
  {
    var w0 := Idle(wire, seed);
    assert seed.WithOrder(o.merchantId, o.orderId) == {};
    var e := NewMessage(o).payload;
    Extend(w0, [], Request(o));
    var w1 := Happen(w0, Request(o));
    assert w1.db.outbox[o.messageId].payload == e && w1.db.payments == map[o.paymentId := NewPayment(o)];
    hs := [Request(o)];
    assert [] + [Request(o)] == hs;
    Extend(w0, hs, Pick(o.messageId));
    hs := hs + [Pick(o.messageId)];
    Extend(w0, hs, HandOff(o.messageId));
    hs := hs + [HandOff(o.messageId)];
    Extend(w0, hs, Receive(e));
    hs := hs + [Receive(e)];
  }

  // And the provider can send its webhook.
  lemma {:induction false} CanBeFired(wire: Wire, seed: Tables, o: Order, id: string)
    returns (hs: seq<Happening>, v: Webhook)
    requires Seeded(seed) && ValidRequest(o) && o.merchantId in seed.balances
    requires seed.balances[o.merchantId].amount >= o.amount && wire(o.amount).Some?
    ensures v == Webhook(id, NewPayment(o).invoiceId, FinalStatus(wire(o.amount).value))
    ensures var w := HappenAll(Idle(wire, seed), hs);
            w.db.payments == map[o.paymentId := NewPayment(o)] && v in w.sent
  {
    var w0 := Idle(wire, seed);
    hs := CanBeOrdered(wire, seed, o);
    var w := HappenAll(w0, hs);
    var e := NewMessage(o).payload;
    var p := ProviderPayment(id, e.invoiceId, wire(o.amount).value, "", "Created");
    Extend(w0, hs, CallProvider(e, id, ""));
    hs := hs + [CallProvider(e, id, "")];
    assert HappenAll(w0, hs).provider[id] == p;
    Extend(w0, hs, Fire(id));
    hs := hs + [Fire(id)];
    v := WebhookFor(p);
  }

  lemma {:induction false} AllHappensSound(wire: Wire, seed: Tables, hs: seq<Happening>)
    requires Seeded(seed)
    ensures Sound(seed.balances, HappenAll(Idle(wire, seed), hs).db)
  {
    AllHappensLinked(wire, seed, hs);
  }

  lemma {:induction false} LoneSettles(seed: map<Uuid, Balance>, t: Tables, w: Webhook, k: Uuid, p: Payment, read: nat)
    requires Sound(seed, t) && t.payments == map[k := p] && p.status.Created? && p.invoiceId == w.invoiceId
    requires w.status == FinalStatus(read)
    ensures var u := SettlePayment(t, w).1;
            && k in u.payments && u.payments[k].amount == p.amount
            && u.payments[k].status == if read % 2 == 0 then Completed else Canceled
  {
    VerdictOfFinal(read);
    assert PaymentSound(t.payments[k]);
    GuardsNeverRefuse(seed, t, w, k);
  }

  // And that webhook settles the payment by the amount read: COMPLETED if it is even, else CANCELED.
  lemma {:induction false} CanBeSettled(wire: Wire, seed: Tables, o: Order, id: string) returns (hs: seq<Happening>)
    requires Seeded(seed) && ValidRequest(o) && o.merchantId in seed.balances
    requires seed.balances[o.merchantId].amount >= o.amount && wire(o.amount).Some?
    ensures var w := HappenAll(Idle(wire, seed), hs);
            && o.paymentId in w.db.payments && w.db.payments[o.paymentId].amount == o.amount
            && w.db.payments[o.paymentId].status == if wire(o.amount).value % 2 == 0 then Completed else Canceled
  {
    var v: Webhook;
    hs, v := CanBeFired(wire, seed, o, id);
    AllHappensSound(wire, seed, hs);
    LoneSettles(seed.balances, HappenAll(Idle(wire, seed), hs).db, v, o.paymentId, NewPayment(o), wire(o.amount).value);
    Extend(Idle(wire, seed), hs, Arrive(v));
    hs := hs + [Arrive(v)];
  }

  lemma {:induction false} WirePastBound(a: int)
    requires a == 7_036_874_417_766_401
    ensures RealWire()(a) == Some(a + 1)
  {
    TripPastBound(a);
  }

  lemma {:induction false} OddPastBound(a: int)
    requires a == 7_036_874_417_766_401
    ensures a % 2 == 1
  {
  }

  lemma {:induction false} OddSettles(wire: Wire, seed: Tables, o: Order) returns (hs: seq<Happening>)
    requires Seeded(seed) && ValidRequest(o) && o.merchantId in seed.balances
    requires seed.balances[o.merchantId].amount >= o.amount && o.amount % 2 == 1 && wire(o.amount) == Some(o.amount + 1)
    ensures var w := HappenAll(Idle(wire, seed), hs);
            && o.paymentId in w.db.payments && w.db.payments[o.paymentId].status.Completed?
            && w.db.payments[o.paymentId].amount == o.amount
  {
    hs := CanBeSettled(wire, seed, o, "p");
  }

  // Past the last exact amount the parity rule fails: an odd payment can end COMPLETED.
  lemma {:induction false} OddPaymentCompletes(seed: Tables, o: Order) returns (hs: seq<Happening>)
    requires Seeded(seed) && ValidRequest(o) && o.merchantId in seed.balances
    requires seed.balances[o.merchantId].amount >= o.amount && o.amount == 7_036_874_417_766_401
    ensures o.amount % 2 == 1
    ensures var w := HappenAll(Idle(RealWire(), seed), hs);
            && o.paymentId in w.db.payments && w.db.payments[o.paymentId].status.Completed?
            && w.db.payments[o.paymentId].amount == o.amount
  {
    OddPastBound(o.amount);
    WirePastBound(o.amount);
    hs := OddSettles(RealWire(), seed, o);
  }

  lemma {:induction false} MisjudgedBy(wire: Wire, seed: Tables, o: Order) returns (hs: seq<Happening>)
    requires Seeded(seed) && ValidRequest(o) && o.merchantId in seed.balances
    requires seed.balances[o.merchantId].amount >= o.amount
    requires wire(o.amount).Some? && wire(o.amount).value % 2 != o.amount % 2
    ensures var w := HappenAll(Idle(wire, seed), hs);
            && o.paymentId in w.db.payments && w.db.payments[o.paymentId].amount == o.amount
            && w.db.payments[o.paymentId].status == if o.amount % 2 == 0 then Canceled else Completed
  {
    hs := CanBeSettled(wire, seed, o, "p");
  }

  lemma {:induction false} WireLosesParity(a: int)
    requires a >= 1 && !KeepsParity(a)
    ensures RealWire()(a).Some? && RealWire()(a).value % 2 != a % 2
  {
    TripKeepsParityIff(a);
  }

  // So the condition is exact: every funded amount whose parity is lost on the way can get the wrong verdict.
  lemma {:induction false} LostParityIsMisjudged(seed: Tables, o: Order) returns (hs: seq<Happening>)
    requires Seeded(seed) && ValidRequest(o) && o.merchantId in seed.balances
    requires seed.balances[o.merchantId].amount >= o.amount && !KeepsParity(o.amount)
    ensures var w := HappenAll(Idle(RealWire(), seed), hs);
            && o.paymentId in w.db.payments && w.db.payments[o.paymentId].amount == o.amount
            && w.db.payments[o.paymentId].status == if o.amount % 2 == 0 then Canceled else Completed
  {
    WireLosesParity(o.amount);
    hs := MisjudgedBy(RealWire(), seed, o);
  }
}
