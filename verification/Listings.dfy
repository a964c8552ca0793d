// A merchant's listing against the run that placed the payments: the last one placed comes first.
module Listings {
  import opened Entities
  import opened Queries
  import opened Ledger
  import opened Effects
  import opened Pagination
  import opened PageCuts

  // The payments that the run placed for the merchant, in the order of their creates.
  ghost function Placed(seed: Tables, actions: seq<Action>, m: Uuid): seq<Uuid> {
    if actions == [] then []
    else
      var before, a := actions[..|actions| - 1], actions[|actions| - 1];
      Placed(seed, before, m) + if PlacedFor(Run(seed, before), a, m) then [a.order.paymentId] else []
  }

  // This step is a create for the merchant that returned an id.
  ghost predicate PlacedFor(t: Tables, a: Action, m: Uuid) {
    a.Create? && a.order.merchantId == m && Step(t, a).0 == Creation(Returned(Some(a.order.paymentId)))
  }

  // The database clock moves on between any two creates.
  ghost predicate Clocked(actions: seq<Action>) {
    forall i, j :: 0 <= i < j < |actions| && actions[i].Create? && actions[j].Create? ==>
      actions[i].order.now < actions[j].order.now
  }

  // The last of these ids first.
  function Reverse(ids: seq<Uuid>): seq<Uuid> {
    seq(|ids|, i requires 0 <= i < |ids| => ids[|ids| - 1 - i])
  }

  // Those ids that are rows, in the same order.
  function Kept(ids: seq<Uuid>, rows: map<Uuid, int>): seq<Uuid> {
    if ids == [] then []
    else
      var before, last := ids[..|ids| - 1], ids[|ids| - 1];
      Kept(before, rows) + if last in rows then [last] else []
  }

  // ----- sequences by time

  predicate Ascending(times: map<Uuid, int>, ids: seq<Uuid>) {
    (forall i :: 0 <= i < |ids| ==> ids[i] in times)
    && forall i, j :: 0 <= i < j < |ids| ==> times[ids[i]] < times[ids[j]]
  }

  lemma {:induction false} KeptMembers(ids: seq<Uuid>, rows: map<Uuid, int>)
    ensures forall k :: k in Kept(ids, rows) <==> k in ids && k in rows
  {
    if ids != [] {
      var before, last := ids[..|ids| - 1], ids[|ids| - 1];
      assert ids == before + [last];
      KeptMembers(before, rows);
    }
  }

  lemma {:induction false} KeptAscends(times: map<Uuid, int>, ids: seq<Uuid>, rows: map<Uuid, int>)
    requires Ascending(times, ids)
    ensures Ascending(times, Kept(ids, rows))
  {
    if ids != [] {
      var before, last := ids[..|ids| - 1], ids[|ids| - 1];
      KeptAscends(times, before, rows);
      KeptMembers(before, rows);
      forall k | k in Kept(before, rows) ensures k in times && times[k] < times[last] {
        var n :| 0 <= n < |before| && before[n] == k;
        assert ids[n] == k;
      }
      AscendingAppend(times, Kept(before, rows), last);
    }
  }

  lemma {:induction false} AscendingAppend(times: map<Uuid, int>, ids: seq<Uuid>, last: Uuid)
    requires Ascending(times, ids) && last in times
    requires forall k :: k in ids ==> k in times && times[k] < times[last]
    ensures Ascending(times, ids + [last])
  {
  }

  // There is one way to list rows with distinct times newest first.
  lemma {:induction false} OneDescending(times: map<Uuid, int>, ids: seq<Uuid>, listed: seq<Uuid>)
    requires Ascending(times, ids)
    requires forall k :: k in listed <==> k in ids
    requires (forall k :: k in listed ==> k in times) && Distinct(listed) && Descending(times, listed)
    ensures listed == Reverse(ids)
  {
    if ids == [] {
      DistinctSize(listed);
      assert Elements(listed) == {};
    } else {
      var before, last := ids[..|ids| - 1], ids[|ids| - 1];
      LastIsFirst(times, ids, listed);
      OneDescending(times, before, listed[1..]);
      assert listed == [listed[0]] + listed[1..];
      assert Reverse(ids) == [last] + Reverse(before);
    }
  }

  lemma {:induction false} LastIsFirst(times: map<Uuid, int>, ids: seq<Uuid>, listed: seq<Uuid>)
    requires Ascending(times, ids) && ids != []
    requires forall k :: k in listed <==> k in ids
    requires (forall k :: k in listed ==> k in times) && Distinct(listed) && Descending(times, listed)
    ensures listed != [] && listed[0] == ids[|ids| - 1]
    ensures forall k :: k in listed[1..] <==> k in ids[..|ids| - 1]
  {
    var last := ids[|ids| - 1];
    assert last in listed;
    var n :| 0 <= n < |listed| && listed[n] == last;
    assert listed[0] in ids;
    var i :| 0 <= i < |ids| && ids[i] == listed[0];
    assert i == |ids| - 1;
    forall k | k in listed[1..] ensures k in ids[..|ids| - 1] {
      assert k in ids && k != last;
    }
    forall k | k in ids[..|ids| - 1] ensures k in listed[1..] {
      var j :| 0 <= j < |ids| - 1 && ids[j] == k;
      assert k in listed && times[k] < times[last];
    }
  }

  // ----- runs

  function Times(payments: map<Uuid, Payment>): map<Uuid, int> {
    map k | k in payments :: payments[k].createdAt
  }

  // A step keeps the merchants and times of all rows, and a new row is the one a create reports.
  lemma {:induction false} StepTimes(t: Tables, a: Action)
    ensures var u := Step(t, a).1;
            && (forall k :: k in t.payments ==>
                  && k in u.payments
                  && u.payments[k].merchantId == t.payments[k].merchantId
                  && u.payments[k].createdAt == t.payments[k].createdAt)
            && (forall k :: k in u.payments && k !in t.payments ==>
                  a.Create? && PlacedFor(t, a, a.order.merchantId) && k == a.order.paymentId)
  {
    OnlyNewAmounts(t, a);
  }

  lemma {:induction false} NewTime(t: Tables, a: Action, m: Uuid)
    requires PlacedFor(t, a, m)
    ensures var k, u := a.order.paymentId, Step(t, a).1;
            k !in t.payments && k in u.payments
              && u.payments[k].merchantId == m && u.payments[k].createdAt == a.order.now
  {
    CreateWrites(t, a.order, a.order.paymentId);
  }

  // Every payment was stamped by one of the creates.
  lemma {:induction false} StampedBefore(seed: Tables, actions: seq<Action>, time: int)
    requires Seeded(seed) && forall i :: 0 <= i < |actions| && actions[i].Create? ==> actions[i].order.now < time
    ensures forall k :: k in Run(seed, actions).payments ==> Run(seed, actions).payments[k].createdAt < time
  {
    if actions != [] {
      var before, a := actions[..|actions| - 1], actions[|actions| - 1];
      var t := Run(seed, before);
      StampedBefore(seed, before, time);
      StepTimes(t, a);
      if a.Create? && PlacedFor(t, a, a.order.merchantId) {
        NewTime(t, a, a.order.merchantId);
      }
    }
  }

  // The payments placed for a merchant are its rows, and later ones have later times.
  lemma {:induction false} PlacedRows(seed: Tables, actions: seq<Action>, m: Uuid)
    requires Seeded(seed) && Clocked(actions)
    ensures var t := Run(seed, actions);
            && (forall k :: k in Placed(seed, actions, m) <==> k in t.payments && t.payments[k].merchantId == m)
            && Ascending(Times(t.payments), Placed(seed, actions, m))
  {
    if actions != [] {
      var before, a := actions[..|actions| - 1], actions[|actions| - 1];
      var t, u := Run(seed, before), Run(seed, actions);
      PlacedRows(seed, before, m);
      StepTimes(t, a);
      assert Ascending(Times(u.payments), Placed(seed, before, m));
      if PlacedFor(t, a, m) {
        NewTime(t, a, m);
        StampedBefore(seed, before, a.order.now);
        AscendingAppend(Times(u.payments), Placed(seed, before, m), a.order.paymentId);
      }
    }
  }

  // ----- the listing

  // When the clock moved on between the creates, every finished walk lists the merchant's payments before the
  // cursor that have the status asked for in the reverse order of their placing, whatever the page size.
  lemma {:induction false} WalkReversesPlacing(seed: Tables, actions: seq<Action>, m: Uuid, status: Option<string>,
                                               cursor: Option<int>, limit: nat, pages: seq<Page>)
    requires Seeded(seed) && Clocked(actions) && limit >= 1
    requires Walk(Selected(Run(seed, actions), m, status), cursor, limit, pages)
    ensures Items(pages)
         == Reverse(Kept(Placed(seed, actions, m), Before(Selected(Run(seed, actions), m, status), cursor)))
  {
    var t, placed := Run(seed, actions), Placed(seed, actions, m);
    var rows := Selected(t, m, status);
    PlacedRows(seed, actions, m);
    AscendingDistinct(t, rows, placed);
    KeptMembers(placed, Before(rows, cursor));
    KeptAscends(Times(t.payments), placed, Before(rows, cursor));
    WalkIsComplete(rows, cursor, limit, pages);
    OneDescending(Times(t.payments), Kept(placed, Before(rows, cursor)), Items(pages));
  }

  lemma {:induction false} AscendingDistinct(t: Tables, rows: map<Uuid, int>, ids: seq<Uuid>)
    requires Ascending(Times(t.payments), ids)
    requires forall k :: k in rows ==> k in ids && k in t.payments && rows[k] == t.payments[k].createdAt
    ensures forall cursor :: DistinctTimes(Before(rows, cursor))
  {
    forall j, k | j in rows && k in rows && rows[j] == rows[k] ensures j == k {
      var i :| 0 <= i < |ids| && ids[i] == j;
      var n :| 0 <= n < |ids| && ids[n] == k;
      assert i == n;
    }
  }

  // In particular a client that asks for everything sees all of them, the last one placed first.
  lemma {:induction false} NewestFirst(seed: Tables, actions: seq<Action>, m: Uuid, limit: nat, pages: seq<Page>)
    requires Seeded(seed) && Clocked(actions) && limit >= 1
    requires Walk(Selected(Run(seed, actions), m, None), None, limit, pages)
    ensures Items(pages) == Reverse(Placed(seed, actions, m))
  {
    var placed, rows := Placed(seed, actions, m), Selected(Run(seed, actions), m, None);
    WalkReversesPlacing(seed, actions, m, None, None, limit, pages);
    PlacedRows(seed, actions, m);
    KeptAll(placed, Before(rows, None));
  }

  lemma {:induction false} KeptAll(ids: seq<Uuid>, rows: map<Uuid, int>)
    requires forall k :: k in ids ==> k in rows
    ensures Kept(ids, rows) == ids
  {
    if ids != [] {
      assert ids == ids[..|ids| - 1] + [ids[|ids| - 1]];
      KeptAll(ids[..|ids| - 1], rows);
    }
  }
}
