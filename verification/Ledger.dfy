// Runs of the saga's transactions, one after another in any order and with any contents,
// and what every state they reach satisfies.
module Ledger {
  import opened Entities
  import opened Invoices
  import opened Transactions
  import opened Totals

  datatype Mark = ToPublishing | ToSent | ToFailed(error: string)

  // One committed or refused transaction. Anything may be delivered: webhooks with any
  // contents, events for any payment, replies with any id, and each of them repeatedly.
  datatype Action =
    | Create(order: Order)
    | Consume(paymentId: Uuid, reply: Option<string>)
    | Deliver(webhook: Webhook)
    | Update(messageId: Uuid, mark: Mark)

  datatype Reply =
    | Invalid
    | Creation(creation: Outcome<Option<Uuid>>)
    | Consumption(consumption: Outcome<()>)
    | Delivery(delivery: Outcome<bool>)
    | Updated

  // The request schema of the create route.
  predicate ValidRequest(o: Order) {
    1 <= |o.orderId| <= 100 && o.amount > 0
  }

  function Marked(m: Message, mark: Mark): Message {
    match mark
    case ToPublishing => MarkPublishing(m)
    case ToSent => MarkSent(m)
    case ToFailed(error) => MarkFailed(m, error)
  }

  ghost function Step(t: Tables, a: Action): (Reply, Tables) {
    match a
    case Create(o) =>
      if !ValidRequest(o) then (Invalid, t)
      else
        var (r, u) := CreatePayment(t, o);
        (Creation(r), u)
    case Consume(id, reply) =>
      var (r, u) := RecordProvider(t, id, reply);
      (Consumption(r), u)
    case Deliver(w) =>
      var (r, u) := SettlePayment(t, w);
      (Delivery(r), u)
    case Update(id, mark) =>
      (Updated, if id in t.outbox then SetMessage(t, id, Marked(t.outbox[id], mark)) else t)
  }

  ghost function Run(t: Tables, actions: seq<Action>): Tables
  {
    if actions == [] then t
    else Step(Run(t, actions[..|actions| - 1]), actions[|actions| - 1]).1
  }

  // ----- invariants

  // The seed script's state: balances with nothing reserved, no payments and no messages.
  ghost predicate Seeded(t: Tables) {
    && (forall m :: m in t.balances ==> t.balances[m].amount >= 0 && t.balances[m].reserved == 0)
    && t.payments == map[]
    && t.outbox == map[]
  }

  predicate PaymentSound(p: Payment) {
    && p.amount > 0
    && p.invoiceId == InvoiceId(p.merchantId, p.orderId)
    && !p.status.Failed?
    && (p.status.Created? <==> p.providerId.None?)
  }

  ghost predicate PaymentsSound(t: Tables) {
    forall k :: k in t.payments ==> PaymentSound(t.payments[k]) && t.payments[k].merchantId in t.balances
  }

  // The message announces exactly this payment.
  predicate Announces(m: Message, k: Uuid, p: Payment) {
    m.topic == TOPIC && m.payload == Event(k, p.merchantId, p.invoiceId, p.amount, Created)
  }

  ghost predicate PayloadsMatch(t: Tables) {
    forall i :: i in t.outbox ==>
      var k := t.outbox[i].payload.paymentId;
      k in t.payments && Announces(t.outbox[i], k, t.payments[k])
  }

  ghost predicate HasMessage(outbox: map<Uuid, Message>, k: Uuid) {
    exists i :: i in outbox && outbox[i].payload.paymentId == k
  }

  ghost predicate EachAnnounced(t: Tables) {
    forall k :: k in t.payments ==> HasMessage(t.outbox, k)
  }

  ghost predicate AnnouncedOnce(outbox: map<Uuid, Message>) {
    forall i, j :: i in outbox && j in outbox && outbox[i].payload.paymentId == outbox[j].payload.paymentId ==> i == j
  }

  // Payments and messages are in one-to-one correspondence, payload for payload.
  ghost predicate Paired(t: Tables) {
    PayloadsMatch(t) && EachAnnounced(t) && AnnouncedOnce(t.outbox)
  }

  ghost predicate WellFormed(t: Tables) {
    t.InvoicesUnique() && t.ProviderIdsUnique() && PaymentsSound(t) && Paired(t)
  }

  // The balance of merchant m agrees with the payment table.
  ghost predicate Accounted(seed: map<Uuid, Balance>, t: Tables, m: Uuid)
    requires m in seed && m in t.balances
  {
    var b := t.balances[m];
    && b.reserved == Total(t.payments, m, Held)
    && b.amount == seed[m].amount - Total(t.payments, m, Spent)
    && 0 <= b.reserved <= b.amount
  }

  ghost predicate AllAccounted(seed: map<Uuid, Balance>, t: Tables) {
    t.balances.Keys == seed.Keys && forall m :: m in seed ==> Accounted(seed, t, m)
  }

  ghost predicate Sound(seed: map<Uuid, Balance>, t: Tables) {
    WellFormed(t) && AllAccounted(seed, t)
  }

  // ----- each transaction keeps the invariant

  lemma {:induction false} RowsWithOrder(t: Tables, m: Uuid, orderId: string)
    requires WellFormed(t)
    ensures t.WithOrder(m, orderId) == {} || |t.WithOrder(m, orderId)| == 1
    ensures t.WithOrder(m, orderId) <= t.WithInvoice(InvoiceId(m, orderId))
  {
    var rows := t.WithOrder(m, orderId);
    if k :| k in rows {
      assert rows == {k};
    }
  }

  lemma {:induction false} RowsWithInvoice(t: Tables, invoiceId: string)
    requires WellFormed(t)
    ensures t.WithInvoice(invoiceId) == {} || |t.WithInvoice(invoiceId)| == 1
  {
    var rows := t.WithInvoice(invoiceId);
    if k :| k in rows {
      assert rows == {k};
    }
  }

  lemma {:induction false} CreateKeepsWellFormed(t: Tables, o: Order)
    requires WellFormed(t) && o.amount > 0
    ensures WellFormed(CreatePayment(t, o).1)
  {
    var u := CreatePayment(t, o).1;
    if u != t {
      InsertKeepsKeys(t, o.paymentId, NewPayment(o), u);
      InsertKeepsPairing(t, o, u);
    }
  }

  lemma {:induction false} InsertKeepsKeys(t: Tables, k: Uuid, p: Payment, u: Tables)
    requires t.InvoicesUnique() && t.ProviderIdsUnique() && PaymentsSound(t)
    requires k !in t.payments && !t.InvoiceTaken(p.invoiceId) && p.providerId == None
    requires PaymentSound(p) && p.merchantId in t.balances
    requires u.payments == t.payments[k := p] && t.balances.Keys <= u.balances.Keys
    ensures u.InvoicesUnique() && u.ProviderIdsUnique() && PaymentsSound(u)
  {
  }

  lemma {:induction false} InsertKeepsPairing(t: Tables, o: Order, u: Tables)
    requires Paired(t) && o.paymentId !in t.payments && o.messageId !in t.outbox
    requires u.payments == t.payments[o.paymentId := NewPayment(o)]
    requires u.outbox == t.outbox[o.messageId := NewMessage(o)]
    ensures Paired(u)
  {
    assert u.outbox[o.messageId].payload.paymentId == o.paymentId;
    KeepMessages(t.outbox, u.outbox, t.payments.Keys);
  }

  // Messages that stay with the same payload still announce the same payments.
  lemma {:induction false} KeepMessages(before: map<Uuid, Message>, after: map<Uuid, Message>, ks: set<Uuid>)
    requires forall k :: k in ks ==> HasMessage(before, k)
    requires forall i :: i in before ==> i in after && after[i].payload == before[i].payload
    ensures forall k :: k in ks ==> HasMessage(after, k)
  {
    forall k | k in ks ensures HasMessage(after, k) {
      var i :| i in before && before[i].payload.paymentId == k;
      assert after[i].payload.paymentId == k;
    }
  }

  // The same payment after a status write.
  predicate SameIdentity(p: Payment, q: Payment) {
    p.merchantId == q.merchantId && p.orderId == q.orderId && p.invoiceId == q.invoiceId && p.amount == q.amount
    && p.createdAt == q.createdAt
  }

  lemma {:induction false} RewriteKeepsKeys(t: Tables, k: Uuid, p: Payment, u: Tables)
    requires t.InvoicesUnique() && t.ProviderIdsUnique() && PaymentsSound(t)
    requires k in t.payments && SameIdentity(t.payments[k], p)
    requires u.payments == t.payments[k := p] && t.balances.Keys <= u.balances.Keys
    requires PaymentSound(p) && p.providerId.Some? && !t.ProviderIdTaken(k, p.providerId.value)
    ensures u.InvoicesUnique() && u.ProviderIdsUnique() && PaymentsSound(u)
  {
  }

  lemma {:induction false} RewriteKeepsWellFormed(t: Tables, k: Uuid, p: Payment, u: Tables)
    requires WellFormed(t) && k in t.payments && SameIdentity(t.payments[k], p)
    requires u.payments == t.payments[k := p] && u.outbox == t.outbox && t.balances.Keys <= u.balances.Keys
    requires PaymentSound(p) && p.providerId.Some? && !t.ProviderIdTaken(k, p.providerId.value)
    ensures WellFormed(u)
  {
    RewriteKeepsKeys(t, k, p, u);
  }

  lemma {:induction false} ConsumeKeepsWellFormed(t: Tables, id: Uuid, reply: Option<string>)
    requires WellFormed(t)
    ensures WellFormed(RecordProvider(t, id, reply).1)
  {
    var u := RecordProvider(t, id, reply).1;
    if u != t {
      RewriteKeepsWellFormed(t, id, u.payments[id], u);
    }
  }

  lemma {:induction false} DeliverKeepsWellFormed(t: Tables, w: Webhook)
    requires WellFormed(t)
    ensures WellFormed(SettlePayment(t, w).1)
  {
    var u := SettlePayment(t, w).1;
    if u != t {
      var k := SettledRow(t, w);
      RewriteKeepsWellFormed(t, k, u.payments[k], u);
    }
  }

  // A delivery that changes the tables found its payment and an open one.
  lemma {:induction false} SettledRow(t: Tables, w: Webhook) returns (k: Uuid)
    requires SettlePayment(t, w).1 != t
    ensures k in t.payments && t.payments[k].invoiceId == w.invoiceId && !t.payments[k].status.Terminal()
    ensures SingleRow(t.WithInvoice(w.invoiceId)) == Returned(Some(k))
    ensures ParseVerdict(w.status).Some?
    ensures var p, v := t.payments[k], ParseVerdict(w.status).value;
            && SettleBalances(t.balances, p, v).Some?
            && !t.ProviderIdTaken(k, Settled(p, v, w).providerId.value)
            && SettlePayment(t, w).1
               == t.(balances := SettleBalances(t.balances, p, v).value, payments := t.payments[k := Settled(p, v, w)])
  {
    k := SingleRow(t.WithInvoice(w.invoiceId)).value.value;
  }

  lemma {:induction false} UpdateKeepsWellFormed(t: Tables, id: Uuid, mark: Mark)
    requires WellFormed(t)
    ensures WellFormed(Step(t, Update(id, mark)).1)
  {
    if id in t.outbox {
      var m := Marked(t.outbox[id], mark);
      RemarkKeepsPairing(t, id, m, SetMessage(t, id, m));
    }
  }

  lemma {:induction false} RemarkKeepsPairing(t: Tables, id: Uuid, m: Message, u: Tables)
    requires Paired(t) && id in t.outbox
    requires m.topic == t.outbox[id].topic && m.payload == t.outbox[id].payload
    requires u.payments == t.payments && u.outbox == t.outbox[id := m]
    ensures Paired(u)
  {
    KeepMessages(t.outbox, u.outbox, t.payments.Keys);
  }

  lemma {:induction false} StepKeepsWellFormed(t: Tables, a: Action)
    requires WellFormed(t)
    ensures WellFormed(Step(t, a).1)
  {
    match a
    case Create(o) =>
      if ValidRequest(o) {
        CreateKeepsWellFormed(t, o);
      }
    case Consume(id, reply) => ConsumeKeepsWellFormed(t, id, reply);
    case Deliver(w) => DeliverKeepsWellFormed(t, w);
    case Update(id, mark) => UpdateKeepsWellFormed(t, id, mark);
  }

  lemma {:induction false} CreateKeepsAccounted(seed: map<Uuid, Balance>, t: Tables, o: Order, m: Uuid)
    requires m in seed && m in t.balances && Accounted(seed, t, m)
    requires CreatePayment(t, o).1 != t && o.amount > 0
    ensures m in CreatePayment(t, o).1.balances && Accounted(seed, CreatePayment(t, o).1, m)
  {
    var p := NewPayment(o);
    assert o.paymentId !in t.payments;
    TotalWrite(t.payments, m, Held, o.paymentId, p);
    TotalWrite(t.payments, m, Spent, o.paymentId, p);
  }

  lemma {:induction false} ConsumeKeepsAccounted(seed: map<Uuid, Balance>, t: Tables, id: Uuid, reply: Option<string>,
                                                 m: Uuid)
    requires m in seed && m in t.balances && Accounted(seed, t, m)
    ensures Accounted(seed, RecordProvider(t, id, reply).1, m)
  {
    var u := RecordProvider(t, id, reply).1;
    if u != t {
      TotalWrite(t.payments, m, Held, id, u.payments[id]);
      TotalWrite(t.payments, m, Spent, id, u.payments[id]);
    }
  }

  // The reserved part of a balance covers every open payment of its merchant.
  lemma {:induction false} ReservationCovers(seed: map<Uuid, Balance>, t: Tables, k: Uuid)
    requires Sound(seed, t) && k in t.payments && t.payments[k].status.Open()
    ensures var p := t.payments[k];
            p.merchantId in t.balances
              && p.amount <= t.balances[p.merchantId].reserved <= t.balances[p.merchantId].amount
  {
    var m := t.payments[k].merchantId;
    assert Accounted(seed, t, m);
    TotalCovers(t.payments, m, Held, k);
  }

  lemma {:induction false} SettleKeepsAccounted(seed: map<Uuid, Balance>, t: Tables, w: Webhook, k: Uuid, m: Uuid)
    requires Sound(seed, t) && m in seed
    requires k in t.payments && t.payments[k].status.Open() && ParseVerdict(w.status).Some?
    requires SettleBalances(t.balances, t.payments[k], ParseVerdict(w.status).value).Some?
    ensures var p, v := t.payments[k], ParseVerdict(w.status).value;
            var u := t.(balances := SettleBalances(t.balances, p, v).value,
              payments := t.payments[k := Settled(p, v, w)]);
            m in u.balances && Accounted(seed, u, m)
  {
    var p, v := t.payments[k], ParseVerdict(w.status).value;
    ReservationCovers(seed, t, k);
    assert Accounted(seed, t, m);
    TotalWrite(t.payments, m, Held, k, Settled(p, v, w));
    TotalWrite(t.payments, m, Spent, k, Settled(p, v, w));
  }

  lemma {:induction false} CreateKeepsAccounts(seed: map<Uuid, Balance>, t: Tables, o: Order)
    requires AllAccounted(seed, t) && o.amount > 0
    ensures AllAccounted(seed, CreatePayment(t, o).1)
  {
    var u := CreatePayment(t, o).1;
    if u != t {
      forall m | m in seed ensures m in u.balances && Accounted(seed, u, m) {
        CreateKeepsAccounted(seed, t, o, m);
      }
    }
  }

  lemma {:induction false} ConsumeKeepsAccounts(seed: map<Uuid, Balance>, t: Tables, id: Uuid, reply: Option<string>)
    requires AllAccounted(seed, t)
    ensures AllAccounted(seed, RecordProvider(t, id, reply).1)
  {
    forall m | m in seed ensures Accounted(seed, RecordProvider(t, id, reply).1, m) {
      ConsumeKeepsAccounted(seed, t, id, reply, m);
    }
  }

  lemma {:induction false} DeliverKeepsAccounts(seed: map<Uuid, Balance>, t: Tables, w: Webhook)
    requires Sound(seed, t)
    ensures AllAccounted(seed, SettlePayment(t, w).1)
  {
    var u := SettlePayment(t, w).1;
    if u != t {
      var k := SettledRow(t, w);
      forall m | m in seed ensures m in u.balances && Accounted(seed, u, m) {
        SettleKeepsAccounted(seed, t, w, k, m);
      }
    }
  }

  // Accounts depend on balances and payments alone.
  lemma {:induction false} AccountsFrame(seed: map<Uuid, Balance>, t: Tables, u: Tables)
    requires AllAccounted(seed, t) && u.balances == t.balances && u.payments == t.payments
    ensures AllAccounted(seed, u)
  {
    forall m | m in seed ensures Accounted(seed, u, m) {
      assert Accounted(seed, t, m);
    }
  }

  lemma {:induction false} StepKeepsAccounts(seed: map<Uuid, Balance>, t: Tables, a: Action)
    requires Sound(seed, t)
    ensures AllAccounted(seed, Step(t, a).1)
  {
    if a.Create? && ValidRequest(a.order) {
      CreateKeepsAccounts(seed, t, a.order);
    } else if a.Consume? {
      ConsumeKeepsAccounts(seed, t, a.paymentId, a.reply);
    } else if a.Deliver? {
      DeliverKeepsAccounts(seed, t, a.webhook);
    } else {
      AccountsFrame(seed, t, Step(t, a).1);
    }
  }

  lemma {:induction false} StepKeepsSound(seed: map<Uuid, Balance>, t: Tables, a: Action)
    requires Sound(seed, t)
    ensures Sound(seed, Step(t, a).1)
  {
    StepKeepsWellFormed(t, a);
    StepKeepsAccounts(seed, t, a);
  }

  lemma {:induction false} SeededSound(t: Tables)
    requires Seeded(t)
    ensures Sound(t.balances, t)
  {
    assert forall m, side :: Total(t.payments, m, side) == 0;
  }

  // ----- main results over every run

  // Money is conserved: in every state of every run each merchant's reserved amount is the sum of
  // its open payments, its amount is the seeded amount less its completed payments, and
  // 0 <= reserved <= amount; payments and messages stay paired and the unique keys hold.
  lemma {:induction false} RunSound(seed: Tables, actions: seq<Action>)
    requires Seeded(seed)
    ensures Sound(seed.balances, Run(seed, actions))
  {
    if actions == [] {
      SeededSound(seed);
    } else {
      var before := actions[..|actions| - 1];
      RunSound(seed, before);
      StepKeepsSound(seed.balances, Run(seed, before), actions[|actions| - 1]);
    }
  }

  // No 64-bit column overflows: balances never exceed their seeded amount, and neither does a payment.
  lemma {:induction false} ColumnsFit(seed: Tables, actions: seq<Action>, m: Uuid)
    requires Seeded(seed) && m in seed.balances && seed.balances[m].amount < 0x8000_0000_0000_0000
    ensures var t := Run(seed, actions);
            && m in t.balances
            && 0 <= t.balances[m].reserved <= t.balances[m].amount <= seed.balances[m].amount
            && forall k :: k in t.payments && t.payments[k].merchantId == m ==>
                 0 < t.payments[k].amount < 0x8000_0000_0000_0000
  {
    RunSound(seed, actions);
    var t := Run(seed, actions);
    assert Accounted(seed.balances, t, m);
    TotalNotNegative(t.payments, m, Spent);
    PaymentsFit(seed, actions, m);
  }

  lemma {:induction false} PaymentsFit(seed: Tables, actions: seq<Action>, m: Uuid)
    requires Seeded(seed) && m in seed.balances
    ensures forall k :: k in Run(seed, actions).payments && Run(seed, actions).payments[k].merchantId == m
                ==> Run(seed, actions).payments[k].amount <= seed.balances[m].amount
  {
    if actions != [] {
      var before, a := actions[..|actions| - 1], actions[|actions| - 1];
      var t, u := Run(seed, before), Run(seed, actions);
      PaymentsFit(seed, before, m);
      RunSound(seed, before);
      assert Accounted(seed.balances, t, m);
      TotalNotNegative(t.payments, m, Spent);
      OnlyNewAmounts(t, a);
    }
  }

  // A step changes no amount or merchant, and a new payment's amount was available.
  lemma {:induction false} OnlyNewAmounts(t: Tables, a: Action)
    ensures var u := Step(t, a).1;
            forall k :: k in u.payments ==>
              var q := u.payments[k];
              if k in t.payments then SameIdentity(t.payments[k], q)
              else q.merchantId in t.balances && q.amount <= t.balances[q.merchantId].Available()
  {
  }

  lemma {:induction false} GuardsAccept(seed: map<Uuid, Balance>, t: Tables, k: Uuid, v: Verdict)
    requires Sound(seed, t) && k in t.payments && t.payments[k].status.Open()
    ensures SettleBalances(t.balances, t.payments[k], v).Some?
  {
    ReservationCovers(seed, t, k);
  }

  // In a sound state the guards of confirm and release never refuse: a Completed or Canceled webhook
  // for an open payment settles it unless its provider id is another payment's.
  lemma {:induction false} GuardsNeverRefuse(seed: map<Uuid, Balance>, t: Tables, w: Webhook, k: Uuid)
    requires Sound(seed, t)
    requires k in t.payments && t.payments[k].invoiceId == w.invoiceId && t.payments[k].status.Open()
    requires ParseVerdict(w.status).Some?
    ensures var p, v := t.payments[k], ParseVerdict(w.status).value;
            && SettleBalances(t.balances, p, v).Some?
            && SettlePayment(t, w)
               == if t.ProviderIdTaken(k, ChooseProviderId(p.providerId, w.id)) then (Raised(UniqueViolation), t)
                  else (Returned(true), t.(balances := SettleBalances(t.balances, p, v).value,
                                           payments := t.payments[k := Settled(p, v, w)]))
  {
    GuardsAccept(seed, t, k, ParseVerdict(w.status).value);
    OneRow(t, w.invoiceId, k);
  }

  lemma {:induction false} OneRow(t: Tables, invoiceId: string, k: Uuid)
    requires t.InvoicesUnique() && k in t.payments && t.payments[k].invoiceId == invoiceId
    ensures SingleRow(t.WithInvoice(invoiceId)) == Returned(Some(k))
  {
    assert t.WithInvoice(invoiceId) == {k};
  }
}
