// What each transaction does, column by column and with the texts as they are stored and sent.
module Effects {
  import opened Entities
  import opened Invoices
  import opened Transactions
  import opened Ledger

  // ----- balances

  // Each balance operation in terms of the two columns.
  lemma {:induction false} BalanceEffects(balances: map<Uuid, Balance>, m: Uuid, amount: int)
    ensures m !in balances ==> forall op :: ShiftRow(balances, m, op, amount) == None
    ensures m in balances ==>
              var b := balances[m];
              && ShiftRow(balances, m, Reserve, amount)
                 == (if b.amount - b.reserved >= amount then Some(Balance(b.amount, b.reserved + amount)) else None)
              && ShiftRow(balances, m, Confirm, amount)
                 == (if b.reserved >= amount && b.amount >= amount
                     then Some(Balance(b.amount - amount, b.reserved - amount)) else None)
              && ShiftRow(balances, m, Release, amount)
                 == (if b.reserved >= amount then Some(Balance(b.amount, b.reserved - amount)) else None)
  {
  }

  // ----- create_payment

  // What the request schema refuses.
  lemma {:induction false} RequestRefusedIff(t: Tables, o: Order)
    ensures Step(t, Create(o)).0 == Invalid <==> o.orderId == "" || |o.orderId| > 100 || o.amount <= 0
    ensures Step(t, Create(o)).0 == Invalid ==> Step(t, Create(o)).1 == t
  {
  }

  // A create that returned an id reserved the amount, stored the order as a CREATED payment under that id,
  // stamped with the time of the order, and enqueued the one message that announces it.
  lemma {:induction false} CreateWrites(t: Tables, o: Order, id: Uuid)
    requires Step(t, Create(o)).0 == Creation(Returned(Some(id)))
    ensures o.merchantId in t.balances && id == o.paymentId && id !in t.payments && o.messageId !in t.outbox
    ensures var m, b := o.merchantId, t.balances[o.merchantId];
            var invoiceId := HexText(m, 32) + "_" + WithoutHyphens(o.orderId);
            Step(t, Create(o)).1
            == Tables(t.balances[m := Balance(b.amount, b.reserved + o.amount)],
                      t.payments[id := Payment(m, o.orderId, invoiceId, None, o.amount, Created, None, None, o.now)],
                      t.outbox[o.messageId := Message("payment.created", Event(id, m, invoiceId, o.amount, Created),
                                                      Pending, 0, None, o.now)])
  {
    InvoiceIdForm(o.merchantId, o.orderId);
  }

  // ----- handle_payment_created

  // The consumer: it touches only a CREATED payment, and only when the provider answered with an id that
  // no other payment stores. Then the payment is PROCESSING with that id and the provider's first status.
  lemma {:induction false} ConsumerEffects(t: Tables, k: Uuid, reply: Option<string>)
    ensures Step(t, Consume(k, reply))
         == if k !in t.payments || t.payments[k].status != Created then (Consumption(Returned(())), t)
            else if reply == None then (Consumption(Raised(ProviderFailed)), t)
            else if exists j :: j in t.payments && j != k && t.payments[j].providerId == reply then
              (Consumption(Raised(UniqueViolation)), t)
            else
              var p := t.payments[k];
              (Consumption(Returned(())),
               Tables(t.balances,
                      t.payments[k := Payment(p.merchantId, p.orderId, p.invoiceId, reply, p.amount, Processing,
                                              Some("Created"), p.failureReason, p.createdAt)],
                      t.outbox))
  {
  }

  // ----- outbox.py

  // Each mark on a stored message; only a failure counts a retry and records its text.
  lemma {:induction false} MarkEffects(t: Tables, i: Uuid, error: string)
    requires i in t.outbox
    ensures var m := t.outbox[i];
            && Step(t, Update(i, ToPublishing)).1 == t.(outbox := t.outbox[i := m.(status := Publishing)])
            && Step(t, Update(i, ToSent)).1 == t.(outbox := t.outbox[i := m.(status := Sent)])
            && Step(t, Update(i, ToFailed(error))).1
               == t.(outbox := t.outbox[i :=
                 Message(m.topic, m.payload, Dead, m.retryCount + 1, Some(error), m.createdAt)])
  {
  }

  // ----- handle_provider_webhook

  lemma {:induction false} UnknownInvoice(t: Tables, w: Webhook)
    requires forall k :: k in t.payments ==> t.payments[k].invoiceId != w.invoiceId
    ensures Step(t, Deliver(w)) == (Delivery(Returned(false)), t)
  {
    assert t.WithInvoice(w.invoiceId) == {};
  }

  // Any other text is no status: the webhook is refused and nothing changes.
  lemma {:induction false} UnknownStatus(t: Tables, w: Webhook)
    requires t.InvoicesUnique()
    requires w.status != "Created" && w.status != "Completed" && w.status != "Canceled"
    ensures Step(t, Deliver(w)) == (Delivery(Returned(false)), t)
  {
    if k :| k in t.payments && t.payments[k].invoiceId == w.invoiceId {
      OneRow(t, w.invoiceId, k);
    } else {
      UnknownInvoice(t, w);
    }
  }

  // A settled payment is acknowledged.
  lemma {:induction false} SettledAlready(t: Tables, w: Webhook, k: Uuid)
    requires t.InvoicesUnique() && k in t.payments && t.payments[k].invoiceId == w.invoiceId
    requires t.payments[k].status == Completed || t.payments[k].status == Canceled || t.payments[k].status == Failed
    requires w.status == "Created" || w.status == "Completed" || w.status == "Canceled"
    ensures Step(t, Deliver(w)) == (Delivery(Returned(true)), t)
  {
    OneRow(t, w.invoiceId, k);
  }

  // The row with a new status, the text of the webhook, and a provider id.
  function WithVerdict(p: Payment, status: PaymentStatus, text: string, id: string): Payment {
    Payment(p.merchantId, p.orderId, p.invoiceId, Some(id), p.amount, status, Some(text), p.failureReason, p.createdAt)
  }

  // The provider id an open payment ends up with: a stored non-empty one stays, else the offered one is taken.
  function FinalId(p: Payment, w: Webhook): string {
    if p.providerId == None || p.providerId == Some("") then w.id else p.providerId.value
  }

  // What an accepted webhook leaves, text by text: Created only moves the payment on, Completed takes the amount
  // off both columns, Canceled off the reservation alone.
  function AfterVerdict(t: Tables, w: Webhook, k: Uuid): Tables
    requires k in t.payments && t.payments[k].merchantId in t.balances
  {
    var p := t.payments[k];
    var m, b, id := p.merchantId, t.balances[p.merchantId], FinalId(p, w);
    if w.status == "Created" then
      Tables(t.balances, t.payments[k := WithVerdict(p, Processing, "Created", id)], t.outbox)
    else if w.status == "Completed" then
      Tables(t.balances[m := Balance(b.amount - p.amount, b.reserved - p.amount)],
             t.payments[k := WithVerdict(p, Completed, "Completed", id)], t.outbox)
    else
      Tables(t.balances[m := Balance(b.amount, b.reserved - p.amount)],
             t.payments[k := WithVerdict(p, Canceled, "Canceled", id)], t.outbox)
  }

  lemma {:induction false} VerdictWrites(t: Tables, w: Webhook, k: Uuid, v: Verdict)
    requires k in t.payments && t.payments[k].merchantId in t.balances && ParseVerdict(w.status) == Some(v)
    requires SettleBalances(t.balances, t.payments[k], v).Some?
    ensures var p := t.payments[k];
            t.(balances := SettleBalances(t.balances, p, v).value, payments := t.payments[k := Settled(p, v, w)])
            == AfterVerdict(t, w, k)
  {
  }

  // An open payment of a sound state: if another payment stores its final provider id the call raises, otherwise
  // it is answered.
  lemma {:induction false} WebhookEffects(seed: map<Uuid, Balance>, t: Tables, w: Webhook, k: Uuid)
    requires Sound(seed, t) && k in t.payments && t.payments[k].invoiceId == w.invoiceId
    requires t.payments[k].status == Created || t.payments[k].status == Processing
    requires w.status == "Created" || w.status == "Completed" || w.status == "Canceled"
    ensures t.payments[k].merchantId in t.balances
    ensures Step(t, Deliver(w))
         == if exists j :: j in t.payments && j != k && t.payments[j].providerId == Some(FinalId(t.payments[k], w)) then
              (Delivery(Raised(UniqueViolation)), t)
            else (Delivery(Returned(true)), AfterVerdict(t, w, k))
  {
    ReservationCovers(seed, t, k);
    OpenIsAnswered(seed, t, w, k);
  }

  lemma {:induction false} OpenIsAnswered(seed: map<Uuid, Balance>, t: Tables, w: Webhook, k: Uuid)
    requires Sound(seed, t) && k in t.payments && t.payments[k].invoiceId == w.invoiceId && t.payments[k].status.Open()
    requires t.payments[k].merchantId in t.balances && ParseVerdict(w.status).Some?
    ensures SettlePayment(t, w)
         == if t.ProviderIdTaken(k, FinalId(t.payments[k], w)) then (Raised(UniqueViolation), t)
            else (Returned(true), AfterVerdict(t, w, k))
  {
    GuardsNeverRefuse(seed, t, w, k);
    VerdictWrites(t, w, k, ParseVerdict(w.status).value);
  }
}
