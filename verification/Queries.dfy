// ORDER BY ... LIMIT: what the database may answer when ties are broken arbitrarily.
module Queries {
  import opened Entities

  predicate Distinct(ids: seq<Uuid>) {
    forall i, j :: 0 <= i < j < |ids| ==> ids[i] != ids[j]
  }

  predicate Descending(rank: map<Uuid, int>, ids: seq<Uuid>)
    requires forall k :: k in ids ==> k in rank
  {
    forall i, j :: 0 <= i < j < |ids| ==> rank[ids[i]] >= rank[ids[j]]
  }

  // ids is a possible answer to: the limit highest-ranked rows, highest first.
  ghost predicate Answers(rank: map<Uuid, int>, limit: nat, ids: seq<Uuid>) {
    && (forall k :: k in ids ==> k in rank)
    && Distinct(ids)
    && Descending(rank, ids)
    && |ids| == (if |rank| < limit then |rank| else limit)
    && (forall k, i :: k in rank && k !in ids && 0 <= i < |ids| ==> rank[ids[i]] >= rank[k])
  }

  function Elements(ids: seq<Uuid>): set<Uuid> {
    set k | k in ids
  }

  lemma {:induction false} DistinctSize(ids: seq<Uuid>)
    requires Distinct(ids)
    ensures |Elements(ids)| == |ids|
  {
    if ids != [] {
      var rest, last := ids[..|ids| - 1], ids[|ids| - 1];
      DistinctSize(rest);
      assert ids == rest + [last];
      ElementsAppend(rest, last);
      assert last !in Elements(rest);
    }
  }

  lemma {:induction false} ElementsAppend(rest: seq<Uuid>, last: Uuid)
    ensures Elements(rest + [last]) == Elements(rest) + {last}
  {
  }

  // With room for every row the answer holds every row.
  lemma {:induction false} AnswerIsComplete(rank: map<Uuid, int>, limit: nat, ids: seq<Uuid>)
    requires Answers(rank, limit, ids) && |rank| <= limit
    ensures forall k :: k in rank ==> k in ids
  {
    DistinctSize(ids);
    if k :| k in rank && k !in ids {
      assert rank.Keys == (rank.Keys - {k}) + {k};
      SubsetSize(Elements(ids), rank.Keys - {k});
      assert false;
    }
  }

  lemma {:induction false} SubsetSize(a: set<Uuid>, b: set<Uuid>)
    requires a <= b
    ensures |a| <= |b|
  {
    if a != {} {
      var k :| k in a;
      SubsetSize(a - {k}, b - {k});
    }
  }

  lemma {:induction false} HighestExists(rank: map<Uuid, int>) returns (k: Uuid)
    requires rank != map[]
    ensures k in rank && forall j :: j in rank ==> rank[j] <= rank[k]
    decreases |rank|
  {
    k :| k in rank;
    var rest := rank - {k};
    if rest != map[] {
      var m := HighestExists(rest);
      assert forall j :: j in rank ==> j == k || j in rest;
      if rank[m] > rank[k] {
        k := m;
      }
    } else {
      assert forall j :: j in rank && j != k ==> j in rest;
    }
  }

  // Some answer always exists.
  lemma {:induction false} AnswerExists(rank: map<Uuid, int>, limit: nat) returns (ids: seq<Uuid>)
    ensures Answers(rank, limit, ids)
    decreases limit
  {
    if limit == 0 || rank == map[] {
      ids := [];
    } else {
      var k := HighestExists(rank);
      var rest := AnswerExists(rank - {k}, limit - 1);
      ids := [k] + rest;
      PrependAnswers(rank, limit, k, rest);
    }
  }

  lemma {:induction false} PrependAnswers(rank: map<Uuid, int>, limit: nat, k: Uuid, rest: seq<Uuid>)
    requires limit > 0 && k in rank && forall j :: j in rank ==> rank[j] <= rank[k]
    requires Answers(rank - {k}, limit - 1, rest)
    ensures Answers(rank, limit, [k] + rest)
  {
    var ids := [k] + rest;
    assert forall j :: j in rank ==> j == k || j in rank - {k};
    forall j | j in ids ensures j in rank {}
    forall i, j | 0 <= i < j < |ids| ensures ids[i] != ids[j] && rank[ids[i]] >= rank[ids[j]] {
      assert ids[j] == rest[j - 1];
      assert rest[j - 1] in rest;
    }
  }
}
