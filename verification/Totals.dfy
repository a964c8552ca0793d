// Sums over the payment table.
module Totals {
  import opened Entities

  datatype Side = Held | Spent

  // What a payment adds to a merchant's held (CREATED, PROCESSING) or spent (COMPLETED) total.
  function Share(p: Payment, m: Uuid, side: Side): int {
    if p.merchantId == m && (if side.Held? then p.status.Open() else p.status.Completed?) then p.amount else 0
  }

  ghost function Total(payments: map<Uuid, Payment>, m: Uuid, side: Side): int
    decreases |payments|
  {
    if payments == map[] then 0
    else
      var k :| k in payments;
      Share(payments[k], m, side) + Total(payments - {k}, m, side)
  }

  // Any payment may be summed first.
  lemma {:induction false} TotalPick(payments: map<Uuid, Payment>, m: Uuid, side: Side, k: Uuid)
    requires k in payments
    ensures Total(payments, m, side) == Share(payments[k], m, side) + Total(payments - {k}, m, side)
    decreases |payments|
  {
    var j :| j in payments && Total(payments, m, side) == Share(payments[j], m, side) + Total(payments - {j}, m, side);
    if j != k {
      TotalPick(payments - {j}, m, side, k);
      TotalPick(payments - {k}, m, side, j);
      assert payments - {j} - {k} == payments - {k} - {j};
    }
  }

  // Writing one row moves the total by the difference of the two shares.
  lemma {:induction false} TotalWrite(payments: map<Uuid, Payment>, m: Uuid, side: Side, k: Uuid, p: Payment)
    ensures Total(payments[k := p], m, side)
         == Total(payments, m, side) + Share(p, m, side) - if k in payments then Share(payments[k], m, side) else 0
  {
    TotalPick(payments[k := p], m, side, k);
    if k in payments {
      TotalPick(payments, m, side, k);
      assert payments[k := p] - {k} == payments - {k};
    } else {
      assert payments[k := p] - {k} == payments;
    }
  }

  lemma {:induction false} TotalNotNegative(payments: map<Uuid, Payment>, m: Uuid, side: Side)
    requires forall k :: k in payments ==> payments[k].amount > 0
    ensures Total(payments, m, side) >= 0
    decreases |payments|
  {
    if payments != map[] {
      var k :| k in payments;
      TotalPick(payments, m, side, k);
      TotalNotNegative(payments - {k}, m, side);
    }
  }

  // With positive amounts no payment's share exceeds the total.
  lemma {:induction false} TotalCovers(payments: map<Uuid, Payment>, m: Uuid, side: Side, k: Uuid)
    requires forall j :: j in payments ==> payments[j].amount > 0
    requires k in payments
    ensures Share(payments[k], m, side) <= Total(payments, m, side)
  {
    TotalPick(payments, m, side, k);
    TotalNotNegative(payments - {k}, m, side);
  }
}
