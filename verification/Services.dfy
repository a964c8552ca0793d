// The services and the consumer, each one unit of work, refining the atomic transactions.
module Services {
  import opened Entities
  import opened Amounts
  import opened Invoices
  import opened Transactions
  import opened Provider
  import opened Sessions
  import opened Repositories

  // An entered unit of work: a fresh session and its repositories.
  class UnitOfWork {
    const session: Session
    const balances: BalanceRepository
    const payments: PaymentRepository
    const outbox: OutboxRepository

    constructor Enter(db: Database, calls: nat, lands: bool)
      ensures fresh(session) && session.db == db && session.calls == calls && session.lands == lands
      ensures session.Valid() && session.Pending() == db.tables && session.Footprint() == {session}
      ensures balances.session == session && payments.session == session && outbox.session == session
    {
      var s := new Session(db, calls, lands);
      session := s;
      balances := new BalanceRepository(s);
      payments := new PaymentRepository(s);
      outbox := new OutboxRepository(s);
    }

    // Leaving rolls back what was not committed and closes the session: nothing is pending any more.
    method Exit()
      modifies session
      ensures session.Valid() && session.Pending() == session.db.tables
    {
      session.view := session.db.tables;
      session.balances := map[];
      session.payments := map[];
    }
  }

  lemma {:induction false} InsertKeepsIdsUnique(t: Tables, k: Uuid, p: Payment)
    requires t.ProviderIdsUnique() && p.providerId.None?
    ensures t.(payments := t.payments[k := p]).ProviderIdsUnique()
  {
  }

  lemma {:induction false} UniqueAfter(t: Tables, k: Uuid, p: Payment)
    requires t.ProviderIdsUnique() && k in t.payments && p.providerId.Some?
    ensures t.(payments := t.payments[k := p]).ProviderIdsUnique() <==> !t.ProviderIdTaken(k, p.providerId.value)
  {
    var u := t.(payments := t.payments[k := p]);
    if j :| j in t.payments && j != k && t.payments[j].providerId == p.providerId {
      assert u.payments[j].providerId == u.payments[k].providerId;
    }
  }

  // A call whose connection broke left the tables as they were, or, if its commit landed, did all it should.
  predicate Broken(before: Tables, after: Tables, should: Tables, lands: bool) {
    after == before || (lands && after == should)
  }

  class PaymentService {
    const db: Database

    constructor (db: Database)
      ensures this.db == db
    {
      this.db := db;
    }

    // Places an order. The connection breaks after this many database calls; short of that the call
    // does exactly what the atomic transaction does, and if it breaks, all of it or nothing.
    method CreatePayment(o: Order, calls: nat, lands: bool) returns (r: Outcome<Option<Uuid>>)
      requires db.tables.ProviderIdsUnique()
      modifies db
      ensures r != Raised(DatabaseFault) ==> (r, db.tables) == Transactions.CreatePayment(old(db.tables), o)
      ensures r == Raised(DatabaseFault) ==>
          Broken(old(db.tables), db.tables, Transactions.CreatePayment(old(db.tables), o).1, lands)
      ensures calls >= 6 ==> r != Raised(DatabaseFault)
      ensures r != Raised(DatabaseFault) && (r.Raised? || r == Returned(None)) ==> db.tables == old(db.tables)
    {
      var uow := new UnitOfWork.Enter(db, calls, lands);
      r := Place(uow, o);
      uow.Exit();
    }

    method Place(uow: UnitOfWork, o: Order) returns (r: Outcome<Option<Uuid>>)
      requires uow.session.db == db && uow.session.Valid() && uow.session.Pending() == db.tables
      requires uow.session.balances == map[] && uow.session.payments == map[]
      requires uow.balances.session == uow.session && uow.payments.session == uow.session
      requires uow.outbox.session == uow.session
      requires db.tables.ProviderIdsUnique()
      modifies uow.session, db
      ensures r != Raised(DatabaseFault) ==> (r, db.tables) == Transactions.CreatePayment(old(db.tables), o)
      ensures r == Raised(DatabaseFault) ==>
                Broken(old(db.tables), db.tables, Transactions.CreatePayment(old(db.tables), o).1, uow.session.lands)
      ensures old(uow.session.calls) >= 6 ==> r != Raised(DatabaseFault)
    {
      ghost var t := db.tables;
      var duplicate :- uow.payments.ExistsByMerchantOrderId(o.merchantId, o.orderId);
      if duplicate {
        return Returned(None);
      }
      r := Fund(uow, o, t);
    }

    // What follows the duplicate check: the funds, then the rows.
    method Fund(uow: UnitOfWork, o: Order, ghost t: Tables) returns (r: Outcome<Option<Uuid>>)
      requires uow.session.db == db && uow.session.Valid() && uow.session.Pending() == t == db.tables
      requires uow.session.balances == map[] && uow.session.payments == map[]
      requires uow.balances.session == uow.session && uow.payments.session == uow.session
      requires uow.outbox.session == uow.session
      requires t.ProviderIdsUnique() && SingleRow(t.WithOrder(o.merchantId, o.orderId)) == Returned(None)
      modifies uow.session, db
      ensures r != Raised(DatabaseFault) ==> (r, db.tables) == Transactions.CreatePayment(t, o)
      ensures r == Raised(DatabaseFault) ==> Broken(t, db.tables, Transactions.CreatePayment(t, o).1, uow.session.lands)
      ensures old(uow.session.calls) >= 5 ==> r != Raised(DatabaseFault)
    {
      var balance :- uow.balances.GetByMerchantIdForUpdate(o.merchantId);
      if balance == null || balance.AvailableAmount() < o.amount {
        return Returned(None);
      }
      var reserved :- uow.balances.ReserveAmount(o.merchantId, o.amount);
      if !reserved {
        return Returned(None);
      }
      r := Insert(uow, o, t);
    }

    // The payment, and then its message.
    method Insert(uow: UnitOfWork, o: Order, ghost t: Tables) returns (r: Outcome<Option<Uuid>>)
      requires uow.session.db == db && uow.session.Valid() && t.ProviderIdsUnique()
      requires uow.payments.session == uow.session && uow.outbox.session == uow.session
      requires SingleRow(t.WithOrder(o.merchantId, o.orderId)) == Returned(None)
      requires ShiftRow(t.balances, o.merchantId, Reserve, o.amount).Some?
      requires uow.session.Pending() == Held(t, o)
      requires db.tables == t
      modifies uow.session`view, uow.session`calls, uow.session`payments, db
      ensures r != Raised(DatabaseFault) ==> (r, db.tables) == Transactions.CreatePayment(t, o)
      ensures r == Raised(DatabaseFault) ==> Broken(t, db.tables, Transactions.CreatePayment(t, o).1, uow.session.lands)
      ensures old(uow.session.calls) >= 3 ==> r != Raised(DatabaseFault)
    {
      CreateCompletes(t, o);
      var invoiceId := InvoiceId(o.merchantId, o.orderId);
      var row := Payment(o.merchantId, o.orderId, invoiceId, None, o.amount, Created, None, None, o.now);
      InsertKeepsIdsUnique(Held(t, o), o.paymentId, row);
      var payment :- uow.payments.Create(o.paymentId, row);
      var event := Event(payment.id, o.merchantId, invoiceId, o.amount, payment.status);
      r := Announce(uow, o, event);
    }

    // The message and the commit.
    method Announce(uow: UnitOfWork, o: Order, event: Event) returns (r: Outcome<Option<Uuid>>)
      requires uow.session.db == db && uow.session.Valid() && uow.outbox.session == uow.session
      requires uow.session.Pending().ProviderIdsUnique() && event.paymentId == o.paymentId
      modifies uow.session`view, uow.session`calls, db
      ensures var was, m := old(uow.session.Pending()), Message(TOPIC, event, Pending, 0, None, o.now);
              var all := was.(outbox := was.outbox[o.messageId := m]);
              if r == Raised(DatabaseFault) then
                db.tables == old(db.tables)
                || (uow.session.lands && o.messageId !in was.outbox && db.tables == all)
              else if o.messageId in was.outbox then
                r == Raised(UniqueViolation) && db.tables == old(db.tables)
              else
                r == Returned(Some(o.paymentId)) && db.tables == all
      ensures old(uow.session.calls) >= 2 ==> r != Raised(DatabaseFault)
    {
      var _ :- uow.outbox.CreateMessage(o.messageId, TOPIC, event, o.now);
      var _ :- uow.session.Commit();
      return Returned(Some(event.paymentId));
    }
  }

  // The tables once the funds of an order are reserved.
  function Held(t: Tables, o: Order): Tables
    requires ShiftRow(t.balances, o.merchantId, Reserve, o.amount).Some?
  {
    t.(balances := t.balances[o.merchantId := ShiftRow(t.balances, o.merchantId, Reserve, o.amount).value])
  }

  lemma {:induction false} CreateCompletes(t: Tables, o: Order)
    requires SingleRow(t.WithOrder(o.merchantId, o.orderId)) == Returned(None)
    requires ShiftRow(t.balances, o.merchantId, Reserve, o.amount).Some?
    ensures Transactions.CreatePayment(t, o)
         == if o.paymentId in t.payments || t.InvoiceTaken(NewPayment(o).invoiceId) || o.messageId in t.outbox then
              (Raised(UniqueViolation), t)
            else
              (Returned(Some(o.paymentId)),
               Tables(Held(t, o).balances, t.payments[o.paymentId := NewPayment(o)],
                 t.outbox[o.messageId := NewMessage(o)]))
  {
  }

  // ----- the webhook handler

  class WebhookService {
    const db: Database

    constructor (db: Database)
      ensures this.db == db
    {
      this.db := db;
    }

    // Handles one webhook; the connection breaks after this many database calls. A call that does
    // not return True leaves the committed tables alone, unless only its answer was lost.
    method HandleProviderWebhook(w: Webhook, calls: nat, lands: bool) returns (r: Outcome<bool>)
      requires db.tables.ProviderIdsUnique()
      modifies db
      ensures r != Raised(DatabaseFault) ==> (r, db.tables) == SettlePayment(old(db.tables), w)
      ensures r == Raised(DatabaseFault) ==>
          Broken(old(db.tables), db.tables, SettlePayment(old(db.tables), w).1, lands)
      ensures calls >= 4 ==> r != Raised(DatabaseFault)
      ensures r != Returned(true) && r != Raised(DatabaseFault) ==> db.tables == old(db.tables)
    {
      var uow := new UnitOfWork.Enter(db, calls, lands);
      r := Handle(uow, w);
      uow.Exit();
    }

    method Handle(uow: UnitOfWork, w: Webhook) returns (r: Outcome<bool>)
      requires uow.session.db == db && uow.session.Valid() && uow.session.Pending() == db.tables
      requires uow.session.balances == map[] && uow.session.payments == map[]
      requires uow.balances.session == uow.session && uow.payments.session == uow.session
      requires db.tables.ProviderIdsUnique()
      modifies uow.session, db
      ensures r != Raised(DatabaseFault) ==> (r, db.tables) == SettlePayment(old(db.tables), w)
      ensures r == Raised(DatabaseFault) ==>
                Broken(old(db.tables), db.tables, SettlePayment(old(db.tables), w).1, uow.session.lands)
      ensures old(uow.session.calls) >= 4 ==> r != Raised(DatabaseFault)
    {
      ghost var t := db.tables;
      var payment :- uow.payments.GetByExternalInvoiceIdForUpdate(w.invoiceId);
      if payment == null {
        return Returned(false);
      }
      ghost var p := payment.Row();
      label loaded:
      if payment.providerId.None? {
        payment.providerId := Some(w.id);
      }
      uow.session.PaymentAssigned@loaded(payment.id);
      var newStatus := ParseVerdict(w.status);
      if newStatus.None? {
        return Returned(false);
      }
      if payment.status.Terminal() {
        return Returned(true);
      }
      r := Settle(uow, payment, w, newStatus.value, t);
    }

    // The three verdict branches.
    method Settle(uow: UnitOfWork, payment: PaymentModel, w: Webhook, v: Verdict, ghost t: Tables)
      returns (r: Outcome<bool>)
      requires InTurn(uow, payment, w, v, t)
      modifies uow.session`view, uow.session`calls, uow.session`balances, uow.session.balances.Values
      modifies uow.session.payments.Values, db
      ensures r != Raised(DatabaseFault) ==> (r, db.tables) == SettleRow(t, w, payment.id)
      ensures r == Raised(DatabaseFault) ==> Broken(t, db.tables, SettleRow(t, w, payment.id).1, uow.session.lands)
      ensures old(uow.session.calls) >= 3 ==> r != Raised(DatabaseFault)
    {
      match v
      case Accepted =>
        OpenRow(t, payment.id, w, v);
        r := Write(uow, payment, Processing, w, Chosen(payment, w), t, t.balances);
      case Approved => r := Complete(uow, payment, w, t);
      case Declined => r := Cancel(uow, payment, w, t);
    }

    // The stored id, or the offered one if there is none or it is empty.
    function Chosen(payment: PaymentModel, w: Webhook): string
      reads payment
    {
      if payment.providerId.None? || payment.providerId.value == "" then w.id else payment.providerId.value
    }

    method Complete(uow: UnitOfWork, payment: PaymentModel, w: Webhook, ghost t: Tables) returns (r: Outcome<bool>)
      requires InTurn(uow, payment, w, Approved, t)
      modifies uow.session`view, uow.session`calls, uow.session`balances, uow.session.balances.Values
      modifies uow.session.payments.Values, db
      ensures r != Raised(DatabaseFault) ==> (r, db.tables) == SettleRow(t, w, payment.id)
      ensures r == Raised(DatabaseFault) ==> Broken(t, db.tables, SettleRow(t, w, payment.id).1, uow.session.lands)
      ensures old(uow.session.calls) >= 3 ==> r != Raised(DatabaseFault)
    {
      OpenRow(t, payment.id, w, Approved);
      ghost var p := t.payments[payment.id];
      assert payment.loaded.merchantId == p.merchantId && payment.loaded.amount == p.amount;
      var done :- uow.balances.ConfirmReservation(payment.loaded.merchantId, payment.loaded.amount);
      r := Finish(uow, payment, Completed, w, Approved, done, t);
    }

    method Cancel(uow: UnitOfWork, payment: PaymentModel, w: Webhook, ghost t: Tables) returns (r: Outcome<bool>)
      requires InTurn(uow, payment, w, Declined, t)
      modifies uow.session`view, uow.session`calls, uow.session`balances, uow.session.balances.Values
      modifies uow.session.payments.Values, db
      ensures r != Raised(DatabaseFault) ==> (r, db.tables) == SettleRow(t, w, payment.id)
      ensures r == Raised(DatabaseFault) ==> Broken(t, db.tables, SettleRow(t, w, payment.id).1, uow.session.lands)
      ensures old(uow.session.calls) >= 3 ==> r != Raised(DatabaseFault)
    {
      OpenRow(t, payment.id, w, Declined);
      ghost var p := t.payments[payment.id];
      assert payment.loaded.merchantId == p.merchantId && payment.loaded.amount == p.amount;
      var done :- uow.balances.ReleaseReservation(payment.loaded.merchantId, payment.loaded.amount);
      r := Finish(uow, payment, Canceled, w, Declined, done, t);
    }

    // The rest of a settling branch, once its balance operation was done or refused.
    method Finish(uow: UnitOfWork, payment: PaymentModel, status: PaymentStatus, w: Webhook, ghost v: Verdict,
                  done: bool, ghost t: Tables)
      returns (r: Outcome<bool>)
      requires uow.session.db == db && uow.session.Valid() && db.tables == t
      requires uow.payments.session == uow.session && t.ProviderIdsUnique() && payment.id in t.payments
      requires ParseVerdict(w.status) == Some(v) && status == StatusFor(v) && !t.payments[payment.id].status.Terminal()
      requires payment.Row() == EarlyRow(t.payments[payment.id], w) && Early(t, payment.id, w).ProviderIdsUnique()
      requires match SettleBalances(t.balances, t.payments[payment.id], v)
               case None => !done
               case Some(b) => done && uow.session.Pending() == Early(t, payment.id, w).(balances := b)
      modifies uow.session`view, uow.session`calls, uow.session.payments.Values, db
      ensures r != Raised(DatabaseFault) ==> (r, db.tables) == SettleRow(t, w, payment.id)
      ensures r == Raised(DatabaseFault) ==> Broken(t, db.tables, SettleRow(t, w, payment.id).1, uow.session.lands)
      ensures old(uow.session.calls) >= 2 ==> r != Raised(DatabaseFault)
    {
      OpenRow(t, payment.id, w, v);
      if !done {
        return Returned(false);
      }
      ghost var b := SettleBalances(t.balances, t.payments[payment.id], v).value;
      r := Write(uow, payment, status, w, Chosen(payment, w), t, b);
    }

    // update_status and commit.
    method Write(uow: UnitOfWork, payment: PaymentModel, status: PaymentStatus, w: Webhook, chosen: string,
                 ghost t: Tables, ghost balances: map<Uuid, Balance>)
      returns (r: Outcome<bool>)
      requires uow.session.db == db && uow.session.Valid() && db.tables == t
      requires uow.payments.session == uow.session && t.ProviderIdsUnique()
      requires payment.id in t.payments && chosen == ChooseProviderId(t.payments[payment.id].providerId, w.id)
      requires uow.session.Pending() == Early(t, payment.id, w).(balances := balances)
      modifies uow.session`view, uow.session`calls, uow.session.payments.Values, db
      ensures r != Raised(DatabaseFault) ==>
                (r, db.tables) == if t.ProviderIdTaken(payment.id, chosen) then (Raised(UniqueViolation), t)
                                  else (Returned(true), Rewritten(t, balances, payment.id, status, w, chosen))
      ensures r == Raised(DatabaseFault) ==>
                Broken(t, db.tables,
                       if t.ProviderIdTaken(payment.id, chosen) then t
                       else Rewritten(t, balances, payment.id, status, w, chosen),
                       uow.session.lands)
      ensures old(uow.session.calls) >= 2 ==> r != Raised(DatabaseFault)
    {
      ghost var q := t.payments[payment.id].(status := status, providerStatus := Some(w.status),
        providerId := Some(chosen));
      StatusWrite(t, payment.id, w, balances, q);
      var _ :- uow.payments.UpdateStatus(payment.id, status, Some(w.status), Some(chosen), None);
      assert uow.session.Pending() == t.(balances := balances, payments := t.payments[payment.id := q]);
      var _ :- uow.session.Commit();
      return Returned(true);
    }

    // The handler has locked an open payment and may have assigned its provider id in memory.
    ghost predicate InTurn(uow: UnitOfWork, payment: PaymentModel, w: Webhook, v: Verdict, t: Tables)
      reads this, uow, uow.session, uow.session.Footprint(), uow.balances, uow.payments, db, payment
    {
      && uow.session.db == db && uow.session.Valid() && db.tables == t
      && uow.balances.session == uow.session && uow.payments.session == uow.session
      && uow.session.balances == map[] && t.ProviderIdsUnique()
      && payment.id in t.payments && payment.id in uow.session.payments && uow.session.payments[payment.id] == payment
      && ParseVerdict(w.status) == Some(v) && !t.payments[payment.id].status.Terminal()
      && payment.Row() == EarlyRow(t.payments[payment.id], w)
      && uow.session.Pending() == Early(t, payment.id, w)
    }
  }

  // The tables with the balances and the payment row of a settlement written.
  function Rewritten(t: Tables, balances: map<Uuid, Balance>, k: Uuid, status: PaymentStatus, w: Webhook,
                     chosen: string): Tables
    requires k in t.payments
  {
    var q := t.payments[k].(status := status, providerStatus := Some(w.status), providerId := Some(chosen));
    t.(balances := balances, payments := t.payments[k := q])
  }

  // The row with the provider id assigned in memory before any guard.
  function EarlyRow(p: Payment, w: Webhook): Payment {
    if p.providerId.None? then p.(providerId := Some(w.id)) else p
  }

  function Early(t: Tables, k: Uuid, w: Webhook): Tables
    requires k in t.payments
  {
    t.(payments := t.payments[k := EarlyRow(t.payments[k], w)])
  }

  // Keys on payments do not depend on balances.
  lemma {:induction false} SameIds(t: Tables, balances: map<Uuid, Balance>)
    ensures t.(balances := balances).ProviderIdsUnique() <==> t.ProviderIdsUnique()
    ensures forall k, id :: t.(balances := balances).ProviderIdTaken(k, id) <==> t.ProviderIdTaken(k, id)
  {
  }

  // The atomic handler on an open payment, by the calls that may fail in turn.
  lemma {:induction false} OpenRow(t: Tables, k: Uuid, w: Webhook, v: Verdict)
    requires t.ProviderIdsUnique() && k in t.payments && !t.payments[k].status.Terminal()
    requires ParseVerdict(w.status) == Some(v)
    ensures var p := t.payments[k];
            SettleRow(t, w, k)
            == if !Early(t, k, w).ProviderIdsUnique() then (Raised(UniqueViolation), t)
               else match SettleBalances(t.balances, p, v)
                    case None => (Returned(false), t)
                    case Some(b) =>
                      if t.ProviderIdTaken(k, ChooseProviderId(p.providerId, w.id)) then (Raised(UniqueViolation), t)
                      else (Returned(true), t.(balances := b, payments := t.payments[k := Settled(p, v, w)]))
  {
    EarlyFlush(t, k, w);
  }

  // When the status write of a settled row q goes through.
  lemma {:induction false} StatusWrite(t: Tables, k: Uuid, w: Webhook, balances: map<Uuid, Balance>, q: Payment)
    requires t.ProviderIdsUnique() && k in t.payments
    requires q.providerId == Some(ChooseProviderId(t.payments[k].providerId, w.id))
    ensures var early := Early(t, k, w).(balances := balances);
            var c := q.providerId.value;
            && (!t.ProviderIdTaken(k, c) ==> early.ProviderIdsUnique())
            && (early.ProviderIdTaken(k, c) <==> t.ProviderIdTaken(k, c))
            && early.payments[k := q] == t.payments[k := q]
            && (!t.ProviderIdTaken(k, c) ==>
              t.(balances := balances, payments := t.payments[k := q]).ProviderIdsUnique())
  {
    EarlyFlush(t, k, w);
    SameIds(Early(t, k, w), balances);
    UniqueAfter(t, k, q);
    SameIds(t.(payments := t.payments[k := q]), balances);
  }

  // Flushing the early assignment fails exactly when the id was null and the new one is taken;
  // it never changes which ids other payments take.
  lemma {:induction false} EarlyFlush(t: Tables, k: Uuid, w: Webhook)
    requires t.ProviderIdsUnique() && k in t.payments
    ensures Early(t, k, w).ProviderIdsUnique() <==> !(t.payments[k].providerId.None? && t.ProviderIdTaken(k, w.id))
    ensures forall id :: Early(t, k, w).ProviderIdTaken(k, id) <==> t.ProviderIdTaken(k, id)
  {
    var early := Early(t, k, w);
    forall id ensures early.ProviderIdTaken(k, id) <==> t.ProviderIdTaken(k, id) {
      if j :| j in t.payments && j != k && t.payments[j].providerId == Some(id) {
        assert early.payments[j].providerId == Some(id);
      }
    }
    if t.payments[k].providerId.None? {
      UniqueAfter(t, k, EarlyRow(t.payments[k], w));
    } else {
      assert early.payments == t.payments;
    }
  }

  // ----- the consumer

  // What becomes of the HTTP call to the provider.
  datatype Line = NotSent | Answered | AnswerLost

  // What the gateway's client makes of it all: the id of the new payment, if an answer arrives.
  function Replied(e: Event, id: string, line: Line): Option<string> {
    if line == Answered && Trip(e.amount).Some? then Some(id) else None
  }

  // The provider's payments after the event: one more if the request was made, arrived and was acceptable.
  function Asked(payments: map<string, ProviderPayment>, t: Tables, e: Event, url: string, id: string, line: Line,
                 read: bool): map<string, ProviderPayment>
  {
    if read && e.paymentId in t.payments && t.payments[e.paymentId].status == Created && line != NotSent
       && Trip(e.amount).Some?
    then payments[id := ProviderPayment(id, e.invoiceId, Trip(e.amount).value, url, "Created")] else payments
  }

  class PaymentConsumer {
    const db: Database
    const provider: ProviderService

    constructor (db: Database, provider: ProviderService)
      ensures this.db == db && this.provider == provider
    {
      this.db := db;
      this.provider := provider;
    }

    // The gateway's client: anything but a 201 answer that arrives is None. id is the provider's fresh id.
    method RequestPayment(invoiceId: string, amount: string, url: string, id: string, line: Line)
      returns (reply: Option<string>)
      requires provider.Valid()
      modifies provider
      ensures provider.Valid()
      ensures reply == if line == Answered && ParseAmount(amount).Some? then Some(id) else None
      ensures provider.payments
          == if line == NotSent || ParseAmount(amount).None? then old(provider.payments)
             else old(provider.payments)[id :=
               ProviderPayment(id, invoiceId, ParseAmount(amount).value, url, "Created")]
    {
      if line.NotSent? {
        return None;
      }
      var r := provider.CreatePayment(invoiceId, amount, url, id);
      if r.Raised? || line.AnswerLost? {
        return None;
      }
      return Some(r.value.id);
    }

    // Handles one delivered event. The provider is asked at most once, and only while the payment is
    // CREATED; a provider payment survives even when the gateway's own transaction does not.
    method HandlePaymentCreated(e: Event, url: string, id: string, line: Line, calls: nat, lands: bool)
      returns (r: Outcome<()>)
      requires db.tables.ProviderIdsUnique() && provider.Valid()
      modifies db, provider
      ensures provider.Valid()
      ensures provider.payments
          == if calls > 0 && e.paymentId in old(db.tables).payments
               && old(db.tables).payments[e.paymentId].status == Created && line != NotSent && Trip(e.amount).Some?
             then old(provider.payments)[id := ProviderPayment(id, e.invoiceId, Trip(e.amount).value, url, "Created")]
             else old(provider.payments)
      ensures r != Raised(DatabaseFault) ==>
                (r, db.tables) == RecordProvider(old(db.tables), e.paymentId,
                                                 if line == Answered && Trip(e.amount).Some? then Some(id) else None)
      ensures r == Raised(DatabaseFault) ==>
                Broken(old(db.tables), db.tables,
                       RecordProvider(old(db.tables), e.paymentId,
                                      if line == Answered && Trip(e.amount).Some? then Some(id) else None).1,
                       lands)
      ensures calls >= 3 ==> r != Raised(DatabaseFault)
      ensures r.Raised? && r != Raised(DatabaseFault) ==> db.tables == old(db.tables)
    {
      var uow := new UnitOfWork.Enter(db, calls, lands);
      r := Handle(uow, e, url, id, line);
      uow.Exit();
    }

    method Handle(uow: UnitOfWork, e: Event, url: string, id: string, line: Line) returns (r: Outcome<()>)
      requires uow.session.db == db && uow.session.Valid() && uow.session.Pending() == db.tables
      requires uow.session.balances == map[] && uow.session.payments == map[] && uow.payments.session == uow.session
      requires db.tables.ProviderIdsUnique() && provider.Valid()
      modifies uow.session, db, provider
      ensures provider.Valid()
      ensures provider.payments
          == Asked(old(provider.payments), old(db.tables), e, url, id, line, old(uow.session.calls) > 0)
      ensures r != Raised(DatabaseFault) ==>
                (r, db.tables) == RecordProvider(old(db.tables), e.paymentId, Replied(e, id, line))
      ensures r == Raised(DatabaseFault) ==>
                Broken(old(db.tables), db.tables,
                       RecordProvider(old(db.tables), e.paymentId, Replied(e, id, line)).1, uow.session.lands)
      ensures old(uow.session.calls) >= 3 ==> r != Raised(DatabaseFault)
    {
      var payment :- uow.payments.GetByIdForUpdate(e.paymentId);
      if payment == null {
        return Returned(());
      }
      if !payment.status.Created? {
        return Returned(());
      }
      r := Request(uow, payment, e, url, id, line);
    }

    // The call to the provider, made under the row lock, and what follows it.
    method Request(uow: UnitOfWork, payment: PaymentModel, e: Event, url: string, id: string, line: Line)
      returns (r: Outcome<()>)
      requires uow.session.db == db && uow.session.Valid() && uow.session.Pending() == db.tables
      requires uow.payments.session == uow.session && db.tables.ProviderIdsUnique() && provider.Valid()
      requires payment.id == e.paymentId
      requires payment.id in db.tables.payments && db.tables.payments[payment.id].status.Created?
      modifies uow.session`view, uow.session`calls, uow.session.payments.Values, db, provider
      ensures provider.Valid()
      ensures provider.payments == Asked(old(provider.payments), old(db.tables), e, url, id, line, true)
      ensures r != Raised(DatabaseFault) ==>
                (r, db.tables) == RecordProvider(old(db.tables), e.paymentId, Replied(e, id, line))
      ensures r == Raised(DatabaseFault) ==>
                Broken(old(db.tables), db.tables,
                       RecordProvider(old(db.tables), e.paymentId, Replied(e, id, line)).1, uow.session.lands)
      ensures old(uow.session.calls) >= 2 ==> r != Raised(DatabaseFault)
    {
      var reply := RequestPayment(e.invoiceId, FormatAmount(e.amount), url, id, line);
      if reply.None? {
        return Raised(ProviderFailed);
      }
      r := Record(uow, payment, reply.value);
    }

    // update_status and commit.
    method Record(uow: UnitOfWork, payment: PaymentModel, id: string) returns (r: Outcome<()>)
      requires uow.session.db == db && uow.session.Valid() && uow.session.Pending() == db.tables
      requires uow.payments.session == uow.session && db.tables.ProviderIdsUnique()
      requires payment.id in db.tables.payments && db.tables.payments[payment.id].status.Created?
      modifies uow.session`view, uow.session`calls, uow.session.payments.Values, db
      ensures r != Raised(DatabaseFault) ==> (r, db.tables) == RecordProvider(old(db.tables), payment.id, Some(id))
      ensures r == Raised(DatabaseFault) ==>
                Broken(old(db.tables), db.tables, RecordProvider(old(db.tables), payment.id, Some(id)).1,
                  uow.session.lands)
      ensures old(uow.session.calls) >= 2 ==> r != Raised(DatabaseFault)
    {
      ghost var t := db.tables;
      ghost var q := t.payments[payment.id].(status := Processing, providerId := Some(id),
        providerStatus := Some("Created"));
      UniqueAfter(t, payment.id, q);
      var _ :- uow.payments.UpdateStatus(payment.id, Processing, Some("Created"), Some(id), None);
      assert uow.session.Pending() == t.(payments := t.payments[payment.id := q]);
      var _ :- uow.session.Commit();
      return Returned(());
    }
  }

  // ----- the callback

  // The provider runs one outstanding task. The webhook it posts is handled, or is lost on the way, and in
  // no case is it posted again.
  method PostWebhook(provider: ProviderService, service: WebhookService, id: string, lost: bool, calls: nat,
                     lands: bool)
    returns (r: Outcome<bool>)
    requires provider.Valid() && id in provider.tasks && service.db.tables.ProviderIdsUnique()
    modifies provider, service.db
    ensures provider.Valid() && provider.sent == old(provider.sent) + [id]
        && provider.tasks == old(provider.tasks) - multiset{id}
    ensures id in old(provider.payments)
    ensures lost ==> service.db.tables == old(service.db.tables)
    ensures var done := SettlePayment(old(service.db.tables), WebhookFor(old(provider.payments)[id]));
            && (!lost && calls >= 4 ==> (r, service.db.tables) == done)
            && (service.db.tables == old(service.db.tables) || service.db.tables == done.1)
  {
    var w := provider.SendWebhook(id);
    if lost {
      return Returned(false);
    }
    r := service.HandleProviderWebhook(w, calls, lands);
  }
}
