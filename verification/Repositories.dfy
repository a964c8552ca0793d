// The repositories: statements over the session's tables and loaded rows.
module Repositories {
  import opened Entities
  import opened Transactions
  import opened Sessions

  // A single-row lookup: null without a match, the row if it is the only one, and else an exception.
  lemma {:induction false} SingleRowIs(rows: set<Uuid>, k: Uuid)
    requires k in rows
    ensures SingleRow(rows) == if rows == {k} then Returned(Some(k)) else Raised(MultipleRows)
    ensures SingleRow({}) == Returned(None)
  {
    if |rows| == 1 {
      assert |rows - {k}| == 0;
      assert rows == (rows - {k}) + {k};
    }
  }

  class BalanceRepository {
    const session: Session

    constructor (session: Session)
      ensures this.session == session
    {
      this.session := session;
    }

    method GetByMerchantIdForUpdate(merchantId: Uuid) returns (o: Outcome<BalanceModel?>)
      requires session.Valid()
      modifies session`view, session`calls, session`balances
      ensures session.Valid() && session.Pending() == old(session.Pending())
      ensures fresh(session.Footprint() - old(session.Footprint()))
      ensures match old(session.Trouble())
              case Some(e) => o == Raised(e)
              case None =>
                && o.Returned? && session.calls == old(session.calls) - 1
                && (o.value == null <==> merchantId !in session.Pending().balances)
                && (o.value != null ==> merchantId in session.balances && session.balances[merchantId] == o.value
                                        && o.value.Row() == session.Pending().balances[merchantId])
    {
      var _ :- session.Query();
      if merchantId !in session.view.balances {
        return Returned(null);
      }
      var b := session.LoadBalance(merchantId);
      return Returned(b);
    }

    method ReserveAmount(merchantId: Uuid, amount: int) returns (o: Outcome<bool>)
      requires session.Valid()
      modifies session`view, session`calls, session`balances, session.balances.Values
      ensures session.Valid() && fresh(session.Footprint() - old(session.Footprint()))
      ensures Shifted(old(session.Trouble()), old(session.Pending()), old(session.calls),
                      merchantId, Reserve, amount, o)
    {
      var balance :- GetByMerchantIdForUpdate(merchantId);
      if balance == null {
        return Returned(false);
      }
      if balance.AvailableAmount() < amount {
        return Returned(false);
      }
      label before:
      ghost var row := balance.Row();
      balance.reservedAmount := balance.reservedAmount + amount;
      assert Shift(row, Reserve, amount) == Some(balance.Row());
      session.BalanceAssigned@before(merchantId);
      return Returned(true);
    }

    method ConfirmReservation(merchantId: Uuid, amount: int) returns (o: Outcome<bool>)
      requires session.Valid()
      modifies session`view, session`calls, session`balances, session.balances.Values
      ensures session.Valid() && fresh(session.Footprint() - old(session.Footprint()))
      ensures Shifted(old(session.Trouble()), old(session.Pending()), old(session.calls),
                      merchantId, Confirm, amount, o)
    {
      var balance :- GetByMerchantIdForUpdate(merchantId);
      if balance == null {
        return Returned(false);
      }
      if balance.reservedAmount < amount || balance.amount < amount {
        return Returned(false);
      }
      label before:
      ghost var row, was := balance.Row(), session.Pending();
      balance.amount, balance.reservedAmount := balance.amount - amount, balance.reservedAmount - amount;
      assert Shift(row, Confirm, amount) == Some(balance.Row());
      session.BalanceAssigned@before(merchantId);
      assert session.Pending() == was.(balances := was.balances[merchantId := balance.Row()]);
      return Returned(true);
    }

    method ReleaseReservation(merchantId: Uuid, amount: int) returns (o: Outcome<bool>)
      requires session.Valid()
      modifies session`view, session`calls, session`balances, session.balances.Values
      ensures session.Valid() && fresh(session.Footprint() - old(session.Footprint()))
      ensures Shifted(old(session.Trouble()), old(session.Pending()), old(session.calls),
                      merchantId, Release, amount, o)
    {
      var balance :- GetByMerchantIdForUpdate(merchantId);
      if balance == null {
        return Returned(false);
      }
      if balance.reservedAmount < amount {
        return Returned(false);
      }
      label before:
      ghost var row := balance.Row();
      balance.reservedAmount := balance.reservedAmount - amount;
      assert Shift(row, Release, amount) == Some(balance.Row());
      session.BalanceAssigned@before(merchantId);
      return Returned(true);
    }

    // The outcome of a balance operation on the tables the session had pending.
    ghost predicate Shifted(trouble: Option<Exception>, was: Tables, calls: nat, m: Uuid, op: BalanceOp, amount: int,
                            o: Outcome<bool>)
      reads session.Footprint()
    {
      match trouble
      case Some(e) => o == Raised(e) && session.Pending() == was
      case None =>
        && session.calls == calls - 1
        && match ShiftRow(was.balances, m, op, amount)
           case None => o == Returned(false) && session.Pending() == was
           case Some(b) => o == Returned(true) && session.Pending() == was.(balances := was.balances[m := b])
    }
  }

  // The row after update_status wrote the given columns; absent arguments keep theirs.
  function UpdatedRow(p: Payment, status: PaymentStatus, providerStatus: Option<string>, providerId: Option<string>,
                      failureReason: Option<string>): Payment
  {
    p.(status := status,
       providerStatus := if providerStatus.Some? then providerStatus else p.providerStatus,
       providerId := if providerId.Some? then providerId else p.providerId,
       failureReason := if failureReason.Some? then failureReason else p.failureReason)
  }

  class PaymentRepository {
    const session: Session

    constructor (session: Session)
      ensures this.session == session
    {
      this.session := session;
    }

    method ExistsByMerchantOrderId(merchantId: Uuid, orderId: string) returns (o: Outcome<bool>)
      requires session.Valid()
      modifies session`view, session`calls
      ensures session.Valid() && session.Pending() == old(session.Pending())
      ensures match old(session.Trouble())
              case Some(e) => o == Raised(e)
              case None =>
                && session.calls == old(session.calls) - 1
                && match SingleRow(session.Pending().WithOrder(merchantId, orderId))
                   case Raised(e) => o == Raised(e)
                   case Returned(k) => o == Returned(k.Some?)
    {
      var _ :- session.Query();
      var rows := session.view.WithOrder(merchantId, orderId);
      if rows == {} {
        return Returned(false);
      }
      var k :| k in rows;
      SingleRowIs(rows, k);
      if rows != {k} {
        return Raised(MultipleRows);
      }
      return Returned(true);
    }

    method GetByIdForUpdate(k: Uuid) returns (o: Outcome<PaymentModel?>)
      requires session.Valid()
      modifies session`view, session`calls, session`payments
      ensures session.Valid() && session.Pending() == old(session.Pending())
      ensures fresh(session.Footprint() - old(session.Footprint()))
      ensures match old(session.Trouble())
              case Some(e) => o == Raised(e)
              case None =>
                && session.calls == old(session.calls) - 1
                && Found(o, if k in session.Pending().payments then Some(k) else None)
    {
      var _ :- session.Query();
      if k !in session.view.payments {
        return Returned(null);
      }
      var p := session.LoadPayment(k);
      return Returned(p);
    }

    method GetByExternalInvoiceIdForUpdate(invoiceId: string) returns (o: Outcome<PaymentModel?>)
      requires session.Valid()
      modifies session`view, session`calls, session`payments
      ensures session.Valid() && session.Pending() == old(session.Pending())
      ensures fresh(session.Footprint() - old(session.Footprint()))
      ensures match old(session.Trouble())
              case Some(e) => o == Raised(e)
              case None =>
                && session.calls == old(session.calls) - 1
                && match SingleRow(session.Pending().WithInvoice(invoiceId))
                   case Raised(e) => o == Raised(e)
                   case Returned(k) => Found(o, k)
    {
      var _ :- session.Query();
      var rows := session.view.WithInvoice(invoiceId);
      if rows == {} {
        return Returned(null);
      }
      var k :| k in rows;
      SingleRowIs(rows, k);
      if rows != {k} {
        return Raised(MultipleRows);
      }
      var p := session.LoadPayment(k);
      return Returned(p);
    }

    // A lookup returned the loaded object of row k, or null.
    ghost predicate Found(o: Outcome<PaymentModel?>, k: Option<Uuid>)
      reads session.Footprint()
    {
      && o.Returned?
      && match k
         case None => o.value == null
         case Some(k) =>
           && o.value != null && k in session.payments && session.payments[k] == o.value && o.value.id == k
           && k in session.Pending().payments && o.value.Row() == session.Pending().payments[k]
    }

    // INSERT of a new row, which fails if one of its keys is taken.
    method Create(id: Uuid, row: Payment) returns (o: Outcome<PaymentModel>)
      requires session.Valid()
      modifies session`view, session`calls, session`payments
      ensures session.Valid() && fresh(session.Footprint() - old(session.Footprint()))
      ensures match old(session.Trouble())
              case Some(e) => o == Raised(e) && session.Pending() == old(session.Pending())
              case None =>
                && session.calls == old(session.calls) - 1
                && if id in old(session.Pending()).payments || old(session.Pending()).InvoiceTaken(row.invoiceId)
                     || (row.providerId.Some? && old(session.Pending()).ProviderIdTaken(id, row.providerId.value)) then
                     o == Raised(UniqueViolation) && session.Pending() == old(session.Pending())
                   else
                     && o.Returned? && o.value.id == id && o.value.Row() == row
                     && session.Pending()
                       == old(session.Pending()).(payments := old(session.Pending()).payments[id := row])
    {
      var _ :- session.Query();
      if id in session.view.payments || session.view.InvoiceTaken(row.invoiceId)
         || (row.providerId.Some? && session.view.ProviderIdTaken(id, row.providerId.value)) {
        return Raised(UniqueViolation);
      }
      session.view := session.view.(payments := session.view.payments[id := row]);
      var p := new PaymentModel(id, row);
      session.payments := session.payments[id := p];
      assert session.Pending().payments == old(session.Pending()).payments[id := row];
      assert session.Pending().balances == old(session.Pending()).balances;
      return Returned(p);
    }

    method UpdateStatus(id: Uuid, status: PaymentStatus, providerStatus: Option<string>, providerId: Option<string>,
                        failureReason: Option<string>)
      returns (o: Outcome<()>)
      requires session.Valid()
      modifies session`view, session`calls, session.payments.Values
      ensures session.Valid()
      ensures match old(session.Trouble())
              case Some(e) => o == Raised(e) && session.Pending() == old(session.Pending())
              case None =>
                && session.calls == old(session.calls) - 1
                && var was := old(session.Pending());
                   if id !in was.payments then o == Returned(()) && session.Pending() == was
                   else if providerId.Some? && was.ProviderIdTaken(id, providerId.value) then
                     o == Raised(UniqueViolation) && session.Pending() == was
                   else
                     && o == Returned(())
                     && session.Pending() == was.(payments := was.payments[id :=
                          UpdatedRow(was.payments[id], status, providerStatus, providerId, failureReason)])
    {
      var _ :- session.Query();
      if id !in session.view.payments {
        return Returned(());
      }
      var row := session.view.payments[id].(status := status);
      if providerStatus.Some? {
        row := row.(providerStatus := providerStatus);
      }
      if providerId.Some? {
        row := row.(providerId := providerId);
      }
      if failureReason.Some? {
        row := row.(failureReason := failureReason);
      }
      if providerId.Some? && session.view.ProviderIdTaken(id, providerId.value) {
        return Raised(UniqueViolation);
      }
      WriteRow(id, row);
      return Returned(());
    }

    // UPDATE ... RETURNING: the row and the object loaded for it.
    method WriteRow(id: Uuid, row: Payment)
      requires session.Valid() && session.view == session.Pending() && id in session.view.payments
      requires row.(status := session.view.payments[id].status,
                    providerStatus := session.view.payments[id].providerStatus,
                    providerId := session.view.payments[id].providerId,
                    failureReason := session.view.payments[id].failureReason)
            == session.view.payments[id]
      modifies session`view, session.payments.Values
      ensures session.Valid()
      ensures session.Pending() == old(session.Pending()).(payments := old(session.Pending()).payments[id := row])
    {
      session.view := session.view.(payments := session.view.payments[id := row]);
      if id in session.payments {
        var p := session.payments[id];
        assert old(session.Pending()).payments[id] == p.Row();
        p.status := row.status;
        p.providerStatus := row.providerStatus;
        p.providerId := row.providerId;
        p.failureReason := row.failureReason;
        assert p.Row() == row;
      }
      assert session.Pending().payments == old(session.Pending()).payments[id := row];
      assert session.Pending().balances == old(session.Pending()).balances;
    }
  }

  class OutboxRepository {
    const session: Session

    constructor (session: Session)
      ensures this.session == session
    {
      this.session := session;
    }

    // INSERT of a pending message, which fails if its primary key is taken.
    method CreateMessage(id: Uuid, topic: string, payload: Event, now: int) returns (o: Outcome<()>)
      requires session.Valid()
      modifies session`view, session`calls
      ensures session.Valid()
      ensures match old(session.Trouble())
              case Some(e) => o == Raised(e) && session.Pending() == old(session.Pending())
              case None =>
                && session.calls == old(session.calls) - 1
                && var was := old(session.Pending());
                   if id in was.outbox then
                     o == Raised(UniqueViolation) && session.Pending() == was
                   else
                     && o == Returned(())
                     && session.Pending()
                       == was.(outbox := was.outbox[id := Message(topic, payload, Pending, 0, None, now)])
    {
      var _ :- session.Query();
      if id in session.view.outbox {
        return Raised(UniqueViolation);
      }
      var row := Message(topic, payload, Pending, 0, None, now);
      session.view := session.view.(outbox := session.view.outbox[id := row]);
      assert session.Pending().payments == old(session.Pending()).payments;
      assert session.Pending().balances == old(session.Pending()).balances;
      return Returned(());
    }

    // UPDATE of one message, if it exists.
    method UpdateById(id: Uuid, change: Message -> Message) returns (o: Outcome<()>)
      requires session.Valid()
      modifies session`view, session`calls
      ensures session.Valid()
      ensures match old(session.Trouble())
              case Some(e) => o == Raised(e) && session.calls == old(session.calls)
                && session.Pending() == old(session.Pending())
              case None =>
                && o == Returned(()) && session.calls == old(session.calls) - 1
                && var was := old(session.Pending());
                   session.Pending() == if id in was.outbox then SetMessage(was, id, change(was.outbox[id])) else was
    {
      var _ :- session.Query();
      if id in session.view.outbox {
        session.view := SetMessage(session.view, id, change(session.view.outbox[id]));
        assert session.Pending().payments == old(session.Pending()).payments;
        assert session.Pending().balances == old(session.Pending()).balances;
      }
      return Returned(());
    }
  }
}
