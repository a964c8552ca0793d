// What each database transaction of the saga does to the committed tables when nothing
// runs beside it: the value it returns, or the exception it raises, and the tables it leaves.
module Transactions {
  import opened Entities
  import opened Invoices

  // The result of a single-row lookup that matched these rows.
  ghost function SingleRow(rows: set<Uuid>): Outcome<Option<Uuid>> {
    if rows == {} then Returned(None)
    else if |rows| == 1 then
      var k :| k in rows;
      Returned(Some(k))
    else Raised(MultipleRows)
  }

  // ----- balance.py

  // The row after the operation; None when its guard refuses.
  function Shift(b: Balance, op: BalanceOp, amount: int): Option<Balance> {
    match op
    case Reserve =>
      if b.Available() < amount then None else Some(b.(reserved := b.reserved + amount))
    case Confirm =>
      if b.reserved < amount || b.amount < amount then None
      else Some(Balance(b.amount - amount, b.reserved - amount))
    case Release =>
      if b.reserved < amount then None else Some(b.(reserved := b.reserved - amount))
  }

  // The same for a merchant who may have no balance row.
  function ShiftRow(balances: map<Uuid, Balance>, m: Uuid, op: BalanceOp, amount: int): Option<Balance> {
    if m in balances then Shift(balances[m], op, amount) else None
  }

  // ----- create_payment

  function NewPayment(o: Order): Payment {
    Payment(o.merchantId, o.orderId, InvoiceId(o.merchantId, o.orderId), None, o.amount, Created, None, None, o.now)
  }

  const TOPIC := "payment.created"

  function NewMessage(o: Order): Message {
    Message(TOPIC,
            Event(o.paymentId, o.merchantId, InvoiceId(o.merchantId, o.orderId), o.amount, Created),
            Pending, 0, None, o.now)
  }

  ghost function CreatePayment(t: Tables, o: Order): (Outcome<Option<Uuid>>, Tables) {
    match SingleRow(t.WithOrder(o.merchantId, o.orderId))
    case Raised(e) => (Raised(e), t)
    case Returned(Some(_)) => (Returned(None), t)
    case Returned(None) =>
      match ShiftRow(t.balances, o.merchantId, Reserve, o.amount)
      case None => (Returned(None), t)
      case Some(b) =>
        var p := NewPayment(o);
        if o.paymentId in t.payments || t.InvoiceTaken(p.invoiceId) || o.messageId in t.outbox then
          (Raised(UniqueViolation), t)
        else
          (Returned(Some(o.paymentId)),
           Tables(t.balances[o.merchantId := b], t.payments[o.paymentId := p], t.outbox[o.messageId := NewMessage(o)]))
  }

  // ----- handle_payment_created

  // The consumer's transaction; reply is the id the provider answered with, None when the call failed.
  function RecordProvider(t: Tables, paymentId: Uuid, reply: Option<string>): (Outcome<()>, Tables) {
    if paymentId !in t.payments || !t.payments[paymentId].status.Created? then (Returned(()), t)
    else
      match reply
      case None => (Raised(ProviderFailed), t)
      case Some(id) =>
        if t.ProviderIdTaken(paymentId, id) then (Raised(UniqueViolation), t)
        else
          (Returned(()),
           t.(payments := t.payments[paymentId :=
             t.payments[paymentId].(status := Processing, providerId := Some(id), providerStatus := Some("Created"))]))
  }

  // ----- handle_provider_webhook

  // A stored id is kept unless it is null or empty.
  function ChooseProviderId(stored: Option<string>, offered: string): string {
    if stored.None? || stored.value == "" then offered else stored.value
  }

  function StatusFor(v: Verdict): PaymentStatus {
    match v
    case Accepted => Processing
    case Approved => Completed
    case Declined => Canceled
  }

  // The balance operation a verdict calls for.
  function VerdictOp(v: Verdict): Option<BalanceOp> {
    match v
    case Accepted => None
    case Approved => Some(Confirm)
    case Declined => Some(Release)
  }

  function Settled(p: Payment, v: Verdict, w: Webhook): Payment {
    p.(status := StatusFor(v), providerStatus := Some(w.status),
       providerId := Some(ChooseProviderId(p.providerId, w.id)))
  }

  ghost function SettlePayment(t: Tables, w: Webhook): (Outcome<bool>, Tables) {
    match SingleRow(t.WithInvoice(w.invoiceId))
    case Raised(e) => (Raised(e), t)
    case Returned(None) => (Returned(false), t)
    case Returned(Some(k)) =>
      if k in t.payments then SettleRow(t, w, k) else (Returned(false), t)
  }

  // The handler after its payment row is locked and read.
  function SettleRow(t: Tables, w: Webhook, k: Uuid): (Outcome<bool>, Tables)
    requires k in t.payments
  {
    var p := t.payments[k];
    match ParseVerdict(w.status)
    case None => (Returned(false), t)
    case Some(v) =>
      if p.status.Terminal() then (Returned(true), t)
      // the id assigned in memory is flushed before the next statement runs
      else if p.providerId.None? && t.ProviderIdTaken(k, w.id) then (Raised(UniqueViolation), t)
      else
        match SettleBalances(t.balances, p, v)
        case None => (Returned(false), t)
        case Some(balances) =>
          var q := Settled(p, v, w);
          if t.ProviderIdTaken(k, q.providerId.value) then (Raised(UniqueViolation), t)
          else (Returned(true), t.(balances := balances, payments := t.payments[k := q]))
  }

  // The balance table after the operation of a verdict on payment p; None when its guard refuses.
  function SettleBalances(balances: map<Uuid, Balance>, p: Payment, v: Verdict): Option<map<Uuid, Balance>> {
    match VerdictOp(v)
    case None => Some(balances)
    case Some(op) =>
      match ShiftRow(balances, p.merchantId, op, p.amount)
      case None => None
      case Some(b) => Some(balances[p.merchantId := b])
  }

  // ----- outbox.py

  function SetMessage(t: Tables, id: Uuid, m: Message): Tables {
    t.(outbox := t.outbox[id := m])
  }

  function MarkPublishing(m: Message): Message {
    m.(status := Publishing)
  }

  function MarkSent(m: Message): Message {
    m.(status := Sent)
  }

  function MarkFailed(m: Message, error: string): Message {
    m.(status := Dead, errorMessage := Some(error), retryCount := m.retryCount + 1)
  }
}
