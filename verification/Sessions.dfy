// A database session as the unit of work uses it: loaded rows are objects that the services change
// in place, and the changes reach the committed tables at commit or not at all.
module Sessions {
  import opened Entities

  class Database {
    var tables: Tables  // what is committed

    constructor (tables: Tables)
      ensures this.tables == tables
    {
      this.tables := tables;
    }
  }

  class BalanceModel {
    const merchantId: Uuid
    var amount: int
    var reservedAmount: int

    constructor (merchantId: Uuid, row: Balance)
      ensures this.merchantId == merchantId && Row() == row
    {
      this.merchantId := merchantId;
      amount := row.amount;
      reservedAmount := row.reserved;
    }

    function Row(): Balance
      reads this
    {
      Balance(amount, reservedAmount)
    }

    function AvailableAmount(): int
      reads this
    {
      amount - reservedAmount
    }
  }

  class PaymentModel {
    const id: Uuid
    const loaded: Payment  // holds the columns that are never assigned
    var providerId: Option<string>
    var status: PaymentStatus
    var providerStatus: Option<string>
    var failureReason: Option<string>

    constructor (id: Uuid, row: Payment)
      ensures this.id == id && loaded == row && Row() == row
    {
      this.id := id;
      loaded := row;
      providerId := row.providerId;
      status := row.status;
      providerStatus := row.providerStatus;
      failureReason := row.failureReason;
    }

    function Row(): Payment
      reads this
    {
      loaded.(providerId := providerId, status := status, providerStatus := providerStatus,
        failureReason := failureReason)
    }
  }

  class Session {
    const db: Database
    var view: Tables                         // committed rows with this session's flushed writes
    var balances: map<Uuid, BalanceModel>    // loaded rows, one object per row
    var payments: map<Uuid, PaymentModel>
    var calls: nat                           // database calls that succeed before the connection breaks
    const lands: bool                        // whether a commit on which it breaks takes effect all the same

    ghost function Footprint(): set<object>
      reads this
    {
      {this} + balances.Values + payments.Values
    }

    ghost predicate Valid()
      reads Footprint()
    {
      && (forall m :: m in balances ==> balances[m].merchantId == m && m in view.balances)
      && (forall k :: k in payments ==> payments[k].id == k && k in view.payments)
    }

    // The tables as a commit would leave them: loaded objects stand for their rows.
    function Pending(): Tables
      reads this, balances.Values, payments.Values
    {
      Tables(map m | m in view.balances :: if m in balances then balances[m].Row() else view.balances[m],
             map k | k in view.payments :: if k in payments then payments[k].Row() else view.payments[k],
             view.outbox)
    }

    constructor (db: Database, calls: nat, lands: bool)
      ensures this.db == db && this.calls == calls && this.lands == lands && view == db.tables
      ensures balances == map[] && payments == map[]
      ensures Valid() && Pending() == db.tables
    {
      this.db := db;
      this.calls := calls;
      this.lands := lands;
      view := db.tables;
      balances := map[];
      payments := map[];
    }

    // One round trip to the database.
    method Execute() returns (o: Outcome<()>)
      modifies this`calls
      ensures if old(calls) > 0 then o == Returned(()) && calls == old(calls) - 1
              else o == Raised(DatabaseFault) && calls == 0
    {
      if calls == 0 {
        return Raised(DatabaseFault);
      }
      calls := calls - 1;
      return Returned(());
    }

    // Writes the changed objects; the unique key on provider ids is checked here.
    method Flush() returns (o: Outcome<()>)
      requires Valid()
      modifies this`view
      ensures Valid() && Pending() == old(Pending())
      ensures o == if old(Pending()).ProviderIdsUnique() then Returned(()) else Raised(UniqueViolation)
      ensures o.Returned? ==> view == Pending()
      ensures o.Raised? ==> view == old(view)
    {
      var pending := Pending();
      if !pending.ProviderIdsUnique() {
        return Raised(UniqueViolation);
      }
      view := pending;
      return Returned(());
    }

    // What stops the next call: changed objects that break the unique key, or a broken connection.
    function Trouble(): Option<Exception>
      reads this, balances.Values, payments.Values
    {
      if !Pending().ProviderIdsUnique() then Some(UniqueViolation)
      else if calls == 0 then Some(DatabaseFault)
      else None
    }

    // Every statement flushes the changed objects first.
    method Query() returns (o: Outcome<()>)
      requires Valid()
      modifies this`view, this`calls
      ensures Valid() && Pending() == old(Pending())
      ensures match old(Trouble())
              case Some(e) => o == Raised(e) && calls == old(calls)
              case None => o == Returned(()) && view == Pending() && calls == old(calls) - 1
    {
      var _ :- Flush();
      var _ :- Execute();
      return Returned(());
    }

    // Flushes and commits. If the connection breaks here the caller cannot tell what became of the commit.
    method Commit() returns (o: Outcome<()>)
      requires Valid()
      modifies this`view, this`calls, db
      ensures Valid() && Pending() == old(Pending())
      ensures match old(Trouble())
              case Some(e) =>
                && o == Raised(e) && calls == old(calls)
                && db.tables == if e.DatabaseFault? && lands then old(Pending()) else old(db.tables)
              case None => o == Returned(()) && calls == old(calls) - 1 && db.tables == old(Pending())
    {
      o := Query();
      if o.Returned? || (o.exception.DatabaseFault? && lands) {
        db.tables := Pending();
      }
    }

    // SELECT of one payment row that exists: the object already loaded for it, or a new one.
    method LoadPayment(k: Uuid) returns (p: PaymentModel)
      requires Valid() && k in view.payments && view == Pending()
      modifies this`payments
      ensures Valid() && Pending() == old(Pending())
      ensures k in payments && payments[k] == p && p.Row() == view.payments[k]
      ensures fresh(Footprint() - old(Footprint()))
      ensures k !in old(payments) ==> fresh(p)
    {
      if k in payments {
        p := payments[k];
        assert Pending().payments[k] == p.Row();
      } else {
        p := new PaymentModel(k, view.payments[k]);
        payments := payments[k := p];
        assert Pending().payments == view.payments;
      }
    }

    method LoadBalance(m: Uuid) returns (b: BalanceModel)
      requires Valid() && m in view.balances && view == Pending()
      modifies this`balances
      ensures Valid() && Pending() == old(Pending())
      ensures m in balances && balances[m] == b && b.Row() == view.balances[m]
      ensures fresh(Footprint() - old(Footprint()))
      ensures m !in old(balances) ==> fresh(b)
    {
      if m in balances {
        b := balances[m];
        assert Pending().balances[m] == b.Row();
      } else {
        b := new BalanceModel(m, view.balances[m]);
        balances := balances[m := b];
        assert Pending().balances == view.balances;
      }
    }

    // Assigning to one loaded object changes one pending row.
    twostate lemma BalanceAssigned(m: Uuid)
      requires old(Valid()) && m in balances
      requires unchanged(this) && unchanged(payments.Values)
      requires forall j :: j in balances && j != m ==> unchanged(balances[j])
      ensures Valid()
      ensures Pending() == old(Pending()).(balances := old(Pending()).balances[m := balances[m].Row()])
    {
      assert Pending().payments == old(Pending()).payments;
      assert Pending().balances == old(Pending()).balances[m := balances[m].Row()];
    }

    twostate lemma PaymentAssigned(k: Uuid)
      requires old(Valid()) && k in payments
      requires unchanged(this) && unchanged(balances.Values)
      requires forall j :: j in payments && j != k ==> unchanged(payments[j])
      ensures Valid()
      ensures Pending() == old(Pending()).(payments := old(Pending()).payments[k := payments[k].Row()])
    {
      assert Pending().balances == old(Pending()).balances;
      assert Pending().payments == old(Pending()).payments[k := payments[k].Row()];
    }
  }
}
