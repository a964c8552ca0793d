// At most one payment per merchant and order, and exactly when create_payment succeeds.
module Uniqueness {
  import opened Entities
  import opened Invoices
  import opened Transactions
  import opened Ledger

  // The same merchant's order, up to hyphens in the order id.
  predicate Twin(p: Payment, merchantId: Uuid, orderId: string) {
    p.merchantId == merchantId && WithoutHyphens(p.orderId) == WithoutHyphens(orderId)
  }

  ghost predicate NoTwins(payments: map<Uuid, Payment>) {
    forall j, k | j in payments && k in payments
      && Twin(payments[j], payments[k].merchantId, payments[k].orderId) :: j == k
  }

  // An invoice id is taken exactly when the merchant has a twin of the order.
  lemma {:induction false} TakenByTwin(t: Tables, merchantId: Uuid, orderId: string)
    requires PaymentsSound(t)
    ensures t.InvoiceTaken(InvoiceId(merchantId, orderId))
        <==> exists k :: k in t.payments && Twin(t.payments[k], merchantId, orderId)
  {
    forall k | k in t.payments
      ensures t.payments[k].invoiceId == InvoiceId(merchantId, orderId) <==> Twin(t.payments[k], merchantId, orderId)
    {
      var p := t.payments[k];
      assert PaymentSound(p);
      InvoiceIdsAgree(p.merchantId, p.orderId, merchantId, orderId);
    }
  }

  // In every state of every run two payments of a merchant differ in more than the hyphens of their
  // order ids, two payments differ in their stored provider ids, and no single-row lookup matches two rows.
  lemma {:induction false} OnePaymentPerOrder(seed: Tables, actions: seq<Action>)
    requires Seeded(seed)
    ensures var t := Run(seed, actions);
            && NoTwins(t.payments)
            && (forall j, k | j in t.payments && k in t.payments && t.payments[j].providerId != None
                 :: t.payments[j].providerId == t.payments[k].providerId ==> j == k)
            && (forall m, orderId :: |t.WithOrder(m, orderId)| <= 1)
            && (forall invoiceId :: |t.WithInvoice(invoiceId)| <= 1)
  {
    RunSound(seed, actions);
    var t := Run(seed, actions);
    TwinsAreEqual(t);
    forall m, orderId ensures |t.WithOrder(m, orderId)| <= 1 {
      RowsWithOrder(t, m, orderId);
    }
    forall invoiceId ensures |t.WithInvoice(invoiceId)| <= 1 {
      RowsWithInvoice(t, invoiceId);
    }
  }

  lemma {:induction false} TwinsAreEqual(t: Tables)
    requires PaymentsSound(t) && t.InvoicesUnique()
    ensures NoTwins(t.payments)
  {
    forall j, k | j in t.payments && k in t.payments
      && Twin(t.payments[j], t.payments[k].merchantId, t.payments[k].orderId)
      ensures j == k
    {
      var p, q := t.payments[j], t.payments[k];
      assert PaymentSound(p) && PaymentSound(q);
      InvoiceIdsAgree(p.merchantId, p.orderId, q.merchantId, q.orderId);
    }
  }

  predicate Ambiguous(r: Reply) {
    r == Creation(Raised(MultipleRows)) || r == Consumption(Raised(MultipleRows)) || r == Delivery(Raised(MultipleRows))
  }

  lemma {:induction false} StepNotAmbiguous(t: Tables, a: Action)
    requires WellFormed(t)
    ensures !Ambiguous(Step(t, a).0)
  {
    if a.Create? {
      RowsWithOrder(t, a.order.merchantId, a.order.orderId);
    } else if a.Deliver? {
      RowsWithInvoice(t, a.webhook.invoiceId);
    }
  }

  // No transaction of a run ever fails on a lookup that matches several rows.
  lemma {:induction false} LookupsNeverAmbiguous(seed: Tables, actions: seq<Action>, a: Action)
    requires Seeded(seed)
    ensures !Ambiguous(Step(Run(seed, actions), a).0)
  {
    RunSound(seed, actions);
    StepNotAmbiguous(Run(seed, actions), a);
  }

  // Exactly when create_payment succeeds, given unused primary keys: the merchant can pay and has no
  // twin of the order. The same order again returns None; a twin with other hyphens raises instead.
  lemma {:induction false} CreateOutcome(t: Tables, o: Order)
    requires WellFormed(t) && o.paymentId !in t.payments && o.messageId !in t.outbox
    ensures var repeated :=
              exists k :: k in t.payments && t.payments[k].merchantId == o.merchantId
                && t.payments[k].orderId == o.orderId;
            var funded := o.merchantId in t.balances && o.amount <= t.balances[o.merchantId].Available();
            var twin := exists k :: k in t.payments && Twin(t.payments[k], o.merchantId, o.orderId);
            && CreatePayment(t, o).0
               == (if repeated || !funded then Returned(None)
                   else if twin then Raised(UniqueViolation)
                   else Returned(Some(o.paymentId)))
            && (CreatePayment(t, o).1 == t <==> repeated || !funded || twin)
  {
    RowsWithOrder(t, o.merchantId, o.orderId);
    TakenByTwin(t, o.merchantId, o.orderId);
    if k :| k in t.payments && t.payments[k].merchantId == o.merchantId && t.payments[k].orderId == o.orderId {
      assert k in t.WithOrder(o.merchantId, o.orderId);
    }
  }

  // An order id that differs in hyphens alone passes the duplicate check and fails on the unique key.
  lemma {:induction false} HyphenTwinRaises(t: Tables, o: Order, k: Uuid)
    requires WellFormed(t) && o.paymentId !in t.payments && o.messageId !in t.outbox
    requires k in t.payments && Twin(t.payments[k], o.merchantId, o.orderId) && t.payments[k].orderId != o.orderId
    requires o.merchantId in t.balances && o.amount <= t.balances[o.merchantId].Available()
    ensures CreatePayment(t, o) == (Raised(UniqueViolation), t)
  {
    CreateOutcome(t, o);
    TwinsAreEqual(t);
  }
}
