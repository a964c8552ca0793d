// What repeated passes of one publisher do to the outbox.
module Draining {
  import opened Entities
  import opened Queries
  import opened Publisher

  // ----- one pass

  function PendingIds(outbox: map<Uuid, Message>): set<Uuid> {
    set i | i in outbox && outbox[i].status == Pending
  }

  lemma {:induction false} PendingCount(outbox: map<Uuid, Message>)
    ensures |Waiting(outbox)| == |PendingIds(outbox)|
  {
    assert Waiting(outbox).Keys == PendingIds(outbox);
  }

  // A pass takes the oldest pending messages, a hundred or all there are: they leave PENDING, each for SENT or
  // FAILED by what publishing it came to, only a failure counts a retry and keeps its text, all others stay.
  lemma {:induction false} PassMeans(outbox: map<Uuid, Message>, batch: seq<Uuid>, fates: Fates)
    requires IsBatch(outbox, batch)
    ensures |batch| == if |PendingIds(outbox)| < 100 then |PendingIds(outbox)| else 100
    ensures var after := AfterPass(outbox, batch, fates);
            && after.Keys == outbox.Keys
            && (forall i :: i in outbox && i !in batch ==> after[i] == outbox[i])
            && (forall i :: i in batch ==>
                  && i in outbox && outbox[i].status == Pending
                  && after[i] == if fates(i) == Delivered then outbox[i].(status := Sent)
                                 else outbox[i].(status := Dead, retryCount := outbox[i].retryCount + 1,
                                                 errorMessage := Some(fates(i).error)))
            && (forall i, j :: i in batch && j in outbox && outbox[j].status == Pending && j !in batch ==>
                  outbox[i].createdAt <= outbox[j].createdAt)
  {
    PendingCount(outbox);
    forall i, j | i in batch && j in outbox && outbox[j].status.Pending? && j !in batch
      ensures outbox[i].createdAt <= outbox[j].createdAt
    {
      var n :| 0 <= n < |batch| && batch[n] == i;
      assert Waiting(outbox)[batch[n]] >= Waiting(outbox)[j];
    }
  }

  lemma {:induction false} PassWaiting(outbox: map<Uuid, Message>, batch: seq<Uuid>, fates: Fates)
    requires IsBatch(outbox, batch)
    ensures Waiting(AfterPass(outbox, batch, fates)) == Waiting(outbox) - Elements(batch)
    ensures |Waiting(AfterPass(outbox, batch, fates))| == |Waiting(outbox)| - |batch|
  {
    PassTakes(outbox, batch, fates);
    TakenSize(Waiting(outbox), batch);
  }

  // Closed messages are no longer pending, and closing touches no other.
  lemma {:induction false} PassTakes(outbox: map<Uuid, Message>, batch: seq<Uuid>, fates: Fates)
    ensures Waiting(AfterPass(outbox, batch, fates)) == Waiting(outbox) - Elements(batch)
  {
    var after := AfterPass(outbox, batch, fates);
    forall i | i in outbox ensures i in Waiting(after) <==> i in Waiting(outbox) && i !in batch {
      if i in batch {
        assert !Closed(outbox[i], fates(i)).status.Pending?;
      }
    }
  }

  lemma {:induction false} TakenSize(rank: map<Uuid, int>, ids: seq<Uuid>)
    requires Distinct(ids) && forall k :: k in ids ==> k in rank
    ensures |rank - Elements(ids)| == |rank| - |ids|
  {
    var rest := rank - Elements(ids);
    DistinctSize(ids);
    assert rank.Keys == rest.Keys + Elements(ids);
    assert rest.Keys !! Elements(ids);
  }

  // ----- passes without arrivals

  lemma {:induction false} WaitingDrain(outbox: map<Uuid, Message>, batches: seq<seq<Uuid>>, fates: Fates)
    requires Passes(outbox, batches, fates)
    ensures |Waiting(AfterPasses(outbox, batches, fates))|
         == if |Waiting(outbox)| <= 100 * |batches| then 0 else |Waiting(outbox)| - 100 * |batches|
    decreases |batches|
  {
    if batches != [] {
      PassWaiting(outbox, batches[0], fates);
      WaitingDrain(AfterPass(outbox, batches[0], fates), batches[1..], fates);
    }
  }

  // With no arrivals, n pending messages are down to n - 100 k after k passes.
  lemma {:induction false} PassesDrain(outbox: map<Uuid, Message>, batches: seq<seq<Uuid>>, fates: Fates)
    requires Passes(outbox, batches, fates)
    ensures var n, k := |PendingIds(outbox)|, |batches|;
            |PendingIds(AfterPasses(outbox, batches, fates))| == if n <= 100 * k then 0 else n - 100 * k
  {
    PendingCount(outbox);
    PendingCount(AfterPasses(outbox, batches, fates));
    WaitingDrain(outbox, batches, fates);
  }

  // They are all closed exactly if there were at least ceil(n / 100) passes.
  lemma {:induction false} DrainedIff(outbox: map<Uuid, Message>, batches: seq<seq<Uuid>>, fates: Fates)
    requires Passes(outbox, batches, fates)
    ensures AfterPasses(outbox, batches, fates).Keys == outbox.Keys
    ensures (forall i :: i in outbox ==> AfterPasses(outbox, batches, fates)[i].status != Pending)
        <==> |batches| >= (|PendingIds(outbox)| + 99) / 100
  {
    var last := AfterPasses(outbox, batches, fates);
    PassesDrain(outbox, batches, fates);
    AfterPassesKeys(outbox, batches, fates);
    if i :| i in PendingIds(last) {
      assert last[i].status == Pending;
      assert |PendingIds(last)| != 0;
    } else {
      assert PendingIds(last) == {};
      assert forall i :: i in last ==> i !in PendingIds(last);
    }
  }

  lemma {:induction false} AfterPassesKeys(outbox: map<Uuid, Message>, batches: seq<seq<Uuid>>, fates: Fates)
    ensures AfterPasses(outbox, batches, fates).Keys == outbox.Keys
    decreases |batches|
  {
    if batches != [] {
      AfterPassesKeys(AfterPass(outbox, batches[0], fates), batches[1..], fates);
    }
  }

  lemma {:induction false} FlattenWaiting(outbox: map<Uuid, Message>, batches: seq<seq<Uuid>>, fates: Fates)
    requires Passes(outbox, batches, fates)
    ensures forall i :: i in Flatten(batches) ==> i in Waiting(outbox)
    ensures forall i :: i in Waiting(outbox) && i !in Flatten(batches) ==>
        i in Waiting(AfterPasses(outbox, batches, fates))
    decreases |batches|
  {
    if batches != [] {
      PassWaiting(outbox, batches[0], fates);
      FlattenWaiting(AfterPass(outbox, batches[0], fates), batches[1..], fates);
    }
  }

  // PENDING messages, none twice, in created_at order.
  ghost predicate OldestFirst(outbox: map<Uuid, Message>, ids: seq<Uuid>) {
    && (forall i :: i in ids ==> i in outbox && outbox[i].status == Pending)
    && Distinct(ids)
    && forall n, p :: 0 <= n < p < |ids| ==> outbox[ids[n]].createdAt <= outbox[ids[p]].createdAt
  }

  lemma {:induction false} DescendingIsOldestFirst(outbox: map<Uuid, Message>, ids: seq<Uuid>)
    requires forall i :: i in ids ==> i in Waiting(outbox)
    requires Distinct(ids) && Descending(Waiting(outbox), ids)
    ensures OldestFirst(outbox, ids)
  {
    forall n, p | 0 <= n < p < |ids|
      ensures ids[n] in outbox && ids[p] in outbox && outbox[ids[n]].createdAt <= outbox[ids[p]].createdAt
    {
      assert ids[n] in ids && ids[p] in ids;
      assert Waiting(outbox)[ids[n]] >= Waiting(outbox)[ids[p]];
    }
  }

  // Over the whole drain no message is taken twice and they are taken in created_at order.
  lemma {:induction false} DrainInOrder(outbox: map<Uuid, Message>, batches: seq<seq<Uuid>>, fates: Fates)
    requires Passes(outbox, batches, fates)
    ensures OldestFirst(outbox, Flatten(batches))
  {
    DrainDescends(outbox, batches, fates);
    DescendingIsOldestFirst(outbox, Flatten(batches));
  }

  lemma {:induction false} DrainDescends(outbox: map<Uuid, Message>, batches: seq<seq<Uuid>>, fates: Fates)
    requires Passes(outbox, batches, fates)
    ensures forall i :: i in Flatten(batches) ==> i in Waiting(outbox)
    ensures Distinct(Flatten(batches)) && Descending(Waiting(outbox), Flatten(batches))
    decreases |batches|
  {
    FlattenWaiting(outbox, batches, fates);
    if batches != [] {
      var batch, rest := batches[0], batches[1..];
      var next := AfterPass(outbox, batch, fates);
      PassWaiting(outbox, batch, fates);
      FlattenWaiting(next, rest, fates);
      DrainDescends(next, rest, fates);
      JoinBatches(Waiting(outbox), batch, Flatten(rest));
    }
  }

  lemma {:induction false} JoinBatches(rank: map<Uuid, int>, a: seq<Uuid>, b: seq<Uuid>)
    requires Answers(rank, BATCH, a)
    requires forall i :: i in b ==> i in rank && i !in a
    requires Distinct(b) && Descending(rank, b)
    ensures forall i :: i in a + b ==> i in rank
    ensures Distinct(a + b) && Descending(rank, a + b)
  {
    var c := a + b;
    forall i, j | 0 <= i < j < |c| ensures c[i] != c[j] && rank[c[i]] >= rank[c[j]] {
      if i < |a| <= j {
        assert c[i] == a[i] && c[j] == b[j - |a|] && c[j] in b;
      }
    }
  }

  // ----- what reaches the broker

  // Exactly those messages are handed over that the broker took.
  lemma {:induction false} HandedOverMembers(ids: seq<Uuid>, fates: Fates)
    ensures forall i :: i in HandedOver(ids, fates) <==> i in ids && fates(i).Taken()
    decreases |ids|
  {
    if ids != [] {
      var before, last := ids[..|ids| - 1], ids[|ids| - 1];
      assert ids == before + [last];
      HandedOverMembers(before, fates);
    }
  }

  // They are handed over in the order taken, each once.
  lemma {:induction false} HandedOverOnce(rank: map<Uuid, int>, ids: seq<Uuid>, fates: Fates)
    requires forall i :: i in ids ==> i in rank
    requires Distinct(ids) && Descending(rank, ids)
    ensures forall i :: i in HandedOver(ids, fates) ==> i in rank
    ensures Distinct(HandedOver(ids, fates)) && Descending(rank, HandedOver(ids, fates))
    decreases |ids|
  {
    if ids != [] {
      var before, last := ids[..|ids| - 1], ids[|ids| - 1];
      assert ids == before + [last];
      HandedOverMembers(before, fates);
      HandedOverOnce(rank, before, fates);
      AppendLast(rank, before, last, HandedOver(before, fates));
    }
  }

  lemma {:induction false} AppendLast(rank: map<Uuid, int>, before: seq<Uuid>, last: Uuid, kept: seq<Uuid>)
    requires forall i :: i in before + [last] ==> i in rank
    requires Distinct(before + [last]) && Descending(rank, before + [last])
    requires (forall i :: i in kept ==> i in before) && Distinct(kept) && Descending(rank, kept)
    ensures forall i :: i in kept + [last] ==> i in rank
    ensures Distinct(kept + [last]) && Descending(rank, kept + [last])
  {
    forall i | i in before ensures i != last && rank[i] >= rank[last] {
      var n :| 0 <= n < |before| && before[n] == i;
      assert (before + [last])[n] == i && (before + [last])[|before|] == last;
    }
  }

  // Over a whole drain the hand-offs are in created_at order, no message twice, and they are the pending
  // messages that were taken and not refused.
  lemma {:induction false} HandOffsInOrder(outbox: map<Uuid, Message>, batches: seq<seq<Uuid>>, fates: Fates)
    requires Passes(outbox, batches, fates)
    ensures OldestFirst(outbox, HandedOver(Flatten(batches), fates))
    ensures |PendingIds(outbox)| <= 100 * |batches| ==>
              forall i :: i in HandedOver(Flatten(batches), fates)
                     <==> i in outbox && outbox[i].status == Pending && !fates(i).Refused?
  {
    DrainDescends(outbox, batches, fates);
    HandedOverMembers(Flatten(batches), fates);
    HandedOverOnce(Waiting(outbox), Flatten(batches), fates);
    DescendingIsOldestFirst(outbox, HandedOver(Flatten(batches), fates));
    PendingCount(outbox);
    if |PendingIds(outbox)| <= 100 * |batches| {
      WaitingDrain(outbox, batches, fates);
      FlattenWaiting(outbox, batches, fates);
      assert Waiting(AfterPasses(outbox, batches, fates)) == map[];
    }
  }

  // Some k passes always exist, whatever publishing comes to.
  lemma {:induction false} PassesExist(outbox: map<Uuid, Message>, k: nat, fates: Fates)
    returns (batches: seq<seq<Uuid>>)
    ensures |batches| == k && Passes(outbox, batches, fates)
  {
    if k == 0 {
      batches := [];
    } else {
      var batch := AnswerExists(Waiting(outbox), BATCH);
      var rest := PassesExist(AfterPass(outbox, batch, fates), k - 1, fates);
      batches := [batch] + rest;
    }
  }

  // ----- the polling loop

  function Batches(polls: seq<Poll>): seq<seq<Uuid>>
    decreases |polls|
  {
    if polls == [] then [] else [polls[0].batch] + Batches(polls[1..])
  }

  // No connection breaks before the end of its pass.
  ghost predicate Unbroken(polls: seq<Poll>, fates: Fates) {
    forall n :: 0 <= n < |polls| ==> polls[n].fates == fates && polls[n].calls > 4 * |polls[n].batch|
  }

  // Polls that do not break are whole passes, so a drain by the loop is one of those above.
  lemma {:induction false} UnbrokenPollsArePasses(outbox: map<Uuid, Message>, polls: seq<Poll>, fates: Fates)
    requires Polls(outbox, polls) && Unbroken(polls, fates)
    ensures Passes(outbox, Batches(polls), fates) && |Batches(polls)| == |polls|
    ensures AfterPolls(outbox, polls) == AfterPasses(outbox, Batches(polls), fates)
    ensures AllHandOffs(polls) == HandedOver(Flatten(Batches(polls)), fates)
    decreases |polls|
  {
    if polls != [] {
      var first, rest := polls[0], polls[1..];
      FirstPoll(outbox, polls);
      WholePass(outbox, first.batch, fates, first.calls - 1, first.lands);
      UnbrokenPollsArePasses(AfterPass(outbox, first.batch, fates), rest, fates);
      assert Batches(polls)[1..] == Batches(rest);
      HandedOverJoin(first.batch, Flatten(Batches(rest)), fates);
    }
  }
}
