// The converse of serializability: whatever runs one after another the split transactions do as well, and
// a transaction is held up for a row exactly where a wait was named.
module SerialRuns {
  import opened Entities
  import opened Ledger
  import opened Interleaving
  import opened StaleCheck

  // ----- a transaction alone

  // The calls that a transaction at this one makes at most.
  function CallsLeft(stage: Stage): nat {
    match stage
    case CheckDuplicate => 5
    case LockBalance => 4
    case InsertPayment => 3
    case InsertMessage => 2
    case CommitOrder => 1
    case LockPayment => 4
    case CallProvider => 3
    case WriteReply => 2
    case CommitReply => 1
    case LockInvoice => 6
    case ReadVerdict => 5
    case FlushId => 4
    case LockFunds => 3
    case WriteStatus => 2
    case CommitVerdict => 1
  }

  lemma {:induction false} MovesDown(t: Tables, x: Txn)
    requires Shape(x) && AdvanceTxn(t, x).Moved?
    ensures CallsLeft(AdvanceTxn(t, x).next.stage) < CallsLeft(x.stage)
  {
  }

  // A create past its duplicate check is no repetition.
  ghost predicate Unrepeated(t: Tables, x: Txn) {
    x.action.Create? && x.stage != CheckDuplicate ==> !Repeated(t, x.action.order)
  }

  lemma {:induction false} StaysUnrepeated(t: Tables, x: Txn)
    requires WellFormed(t) && Shape(x) && Unrepeated(t, x) && AdvanceTxn(t, x).Moved?
    ensures AdvanceTxn(t, x).next.action == x.action && Unrepeated(t, AdvanceTxn(t, x).next)
  {
    if x.action.Create? {
      DuplicateSeen(t, x.action.order);
    }
  }

  function Advances(id: nat, n: nat): seq<Occurrence> {
    if n == 0 then [] else [Advance(id)] + Advances(id, n - 1)
  }

  // What the end of a transaction alone in the system leaves.
  ghost function Ended(s: System, a: Action, last: Stage): System {
    System(Step(s.tables, a).1, map[], s.done + [Completion(a, Some(last), Step(s.tables, a).0)])
  }

  lemma {:induction false} FirstAdvance(s: System, id: nat, n: nat)
    ensures NextAll(s, [Advance(id)]) == Next(s, Advance(id))
    ensures NextAll(s, Advances(id, n + 1)) == NextAll(Next(s, Advance(id)), Advances(id, n))
  {
    assert [Advance(id)][..0] == [];
    NextAllJoin(s, [Advance(id)], Advances(id, n));
  }

  // A transaction in a state it can be in, on well-formed tables.
  ghost predicate Going(t: Tables, x: Txn) {
    WellFormed(t) && Shape(x) && Knows(t, x) && Unrepeated(t, x)
  }

  lemma {:induction false} GoesOn(t: Tables, x: Txn, y: Txn)
    requires Going(t, x) && AdvanceTxn(t, x) == Moved(y)
    ensures Going(t, y) && y.action == x.action && CallsLeft(y.stage) < CallsLeft(x.stage)
  {
    MovesDown(t, x);
    TxnMoves(t, x);
    StaysUnrepeated(t, x);
  }

  lemma {:induction false} AloneMoves(s: System, id: nat, x: Txn, y: Txn)
    requires s.active == map[id := x] && Shape(x) && AdvanceTxn(s.tables, x) == Moved(y)
    ensures Next(s, Advance(id)) == s.(active := map[id := y])
  {
    MovesOn(s, id, y);
    assert s.active[id := y] == map[id := y];
  }

  lemma {:induction false} AloneFinishes(s: System, id: nat, x: Txn)
    requires s.active == map[id := x] && Going(s.tables, x) && AdvanceTxn(s.tables, x).Finished?
    ensures Next(s, Advance(id)) == Ended(s, x.action, x.stage)
  {
    TxnFinishes(s.tables, x);
    var f := AdvanceTxn(s.tables, x);
    Ends(s, id, f.need, f.reply, f.tables);
    assert s.active - {id} == map[];
  }

  // Alone, a transaction ends after a few calls with what its atomic step does and replies.
  lemma {:induction false} AloneEnds(s: System, id: nat, x: Txn) returns (n: nat, last: Stage)
    requires s.active == map[id := x] && Going(s.tables, x)
    ensures NextAll(s, Advances(id, n)) == Ended(s, x.action, last)
    decreases CallsLeft(x.stage)
  {
    match AdvanceTxn(s.tables, x)
    case Moved(y) =>
      GoesOn(s.tables, x, y);
      AloneMoves(s, id, x, y);
      n, last := AloneEnds(s.(active := map[id := y]), id, y);
      FirstAdvance(s, id, n);
      n := n + 1;
    case Finished(_, _, _) =>
      n, last := 1, x.stage;
      AloneFinishes(s, id, x);
      FirstAdvance(s, id, 0);
  }

  // ----- serial runs

  // The transactions that reach the database: a request that its schema refuses never begins.
  function Admitted(actions: seq<Action>): seq<Action> {
    if actions == [] then []
    else
      var last := actions[|actions| - 1];
      Admitted(actions[..|actions| - 1]) + if last.Create? && !ValidRequest(last.order) then [] else [last]
  }

  // Every ended transaction replied exactly what its atomic step replies after the ones before it.
  ghost predicate RepliesAtomic(seed: Tables, done: seq<Completion>) {
    forall n :: 0 <= n < |done| ==> done[n].reply == Step(Run(seed, Actions(done[..n])), done[n].action).0
  }

  // One more transaction, from an idle system to an idle system.
  lemma {:induction false} OneMore(s: System, a: Action) returns (events: seq<Occurrence>, last: Option<Stage>)
    requires s.active == map[] && WellFormed(s.tables) && (a.Create? ==> ValidRequest(a.order))
    ensures NextAll(s, events)
         == System(Step(s.tables, a).1, map[], s.done + [Completion(a, last, Step(s.tables, a).0)])
  {
    if a.Update? {
      events, last := [UpdateMessage(a.messageId, a.mark)], None;
      assert events[..0] == [];
    } else {
      var x := Start(a).value;
      var u := s.(active := map[0 := x]);
      assert s.active[0 := x] == u.active;
      assert Going(s.tables, x);
      var n, stage := AloneEnds(u, 0, x);
      NextAllJoin(s, [Begin(0, a)], Advances(0, n));
      assert [Begin(0, a)][..0] == [];
      events, last := [Begin(0, a)] + Advances(0, n), Some(stage);
    }
  }

  lemma {:induction false} AppendAtomic(seed: Tables, done: seq<Completion>, c: Completion)
    requires RepliesAtomic(seed, done) && c.reply == Step(Run(seed, Actions(done)), c.action).0
    ensures RepliesAtomic(seed, done + [c])
  {
    var all := done + [c];
    forall n | 0 <= n < |all| ensures all[n].reply == Step(Run(seed, Actions(all[..n])), all[n].action).0 {
      if n < |done| {
        assert all[..n] == done[..n];
      } else {
        assert all[..n] == done;
      }
    }
  }

  // What an interleaving of a serial run has come to.
  ghost predicate Mirrors(seed: Tables, actions: seq<Action>, s: System) {
    && s.tables == Run(seed, actions) && s.active == map[]
    && Actions(s.done) == Admitted(actions) && RepliesAtomic(seed, s.done)
  }

  lemma {:induction false} MirrorsOneMore(seed: Tables, actions: seq<Action>, s: System, a: Action, last: Option<Stage>)
    requires Mirrors(seed, actions, s) && s.tables == Run(seed, Actions(s.done))
    requires a.Create? ==> ValidRequest(a.order)
    ensures Mirrors(seed, actions + [a],
        System(Step(s.tables, a).1, map[], s.done + [Completion(a, last, Step(s.tables, a).0)]))
  {
    assert (actions + [a])[..|actions|] == actions;
    var c := Completion(a, last, Step(s.tables, a).0);
    AppendAtomic(seed, s.done, c);
    assert (s.done + [c])[..|s.done|] == s.done;
  }

  lemma {:induction false} RefusedIsSkipped(seed: Tables, actions: seq<Action>, s: System, o: Order)
    requires Mirrors(seed, actions, s) && !ValidRequest(o)
    ensures Mirrors(seed, actions + [Create(o)], s)
  {
    assert (actions + [Create(o)])[..|actions|] == actions;
  }

  // Every run of whole transactions is the outcome of an interleaving of split ones, reply for reply.
  lemma {:induction false} SerialIsInterleaved(seed: Tables, actions: seq<Action>) returns (events: seq<Occurrence>)
    requires Seeded(seed)
    ensures Mirrors(seed, actions, NextAll(System(seed, map[], []), events))
  {
    events := [];
    if actions != [] {
      var before, a := actions[..|actions| - 1], actions[|actions| - 1];
      events := SerialIsInterleaved(seed, before);
      assert actions == before + [a];
      if a.Create? && !ValidRequest(a.order) {
        RefusedIsSkipped(seed, before, NextAll(System(seed, map[], []), events), a.order);
      } else {
        var more := MirrorsMore(seed, before, events, a);
        events := events + more;
      }
    }
  }

  lemma {:induction false} MirrorsMore(seed: Tables, actions: seq<Action>, events: seq<Occurrence>, a: Action)
    returns (more: seq<Occurrence>)
    requires Seeded(seed) && Mirrors(seed, actions, NextAll(System(seed, map[], []), events))
    requires a.Create? ==> ValidRequest(a.order)
    ensures Mirrors(seed, actions + [a], NextAll(System(seed, map[], []), events + more))
  {
    var s := NextAll(System(seed, map[], []), events);
    RunSound(seed, actions);
    InterleavingsAreSerial(seed, events);
    var last: Option<Stage>;
    more, last := OneMore(s, a);
    NextAllJoin(System(seed, map[], []), events, more);
    MirrorsOneMore(seed, actions, s, a, last);
  }

  // ----- who waits for whom

  // The locks a transaction has after its next call.
  function Needed(p: Progress): Locks {
    match p
    case Moved(y) => y.locks
    case Finished(need, _, _) => need
  }

  predicate SameRow(a: Locks, b: Locks) {
    (a.payment.Some? && a.payment == b.payment) || (a.balance.Some? && a.balance == b.balance)
  }

  // A transaction cannot make its next call for a row that another has locked exactly if it waits for it,
  // and then the call changes nothing.
  lemma {:induction false} BlockedIffWaiting(s: System, i: nat, j: nat)
    requires AllKnow(s) && Exclusive(s.active) && i in s.active && j in s.active && i != j
    ensures SameRow(Needed(AdvanceTxn(s.tables, s.active[i])), s.active[j].locks) <==> WaitsFor(s, i, j)
    ensures WaitsFor(s, i, j) ==> Next(s, Advance(i)) == s
  {
    NeededRows(s.tables, s.active[i]);
    assert Disjoint(s.active[i].locks, s.active[j].locks);
    HoldersKnow(s.tables, s.active[j]);
    if SameRow(Needed(AdvanceTxn(s.tables, s.active[i])), s.active[j].locks) {
      assert !Disjoint(Needed(AdvanceTxn(s.tables, s.active[i])), s.active[j].locks);
    }
  }

  // The rows a next call needs are those held and the one wanted, if it exists.
  lemma {:induction false} NeededRows(t: Tables, x: Txn)
    requires Shape(x)
    ensures var need, want := Needed(AdvanceTxn(t, x)), Wants(t, x);
            && (need.payment.Some? ==> need.payment == x.locks.payment || want == Some(PaymentRow(need.payment.value)))
            && (need.balance.Some? ==> need.balance == x.locks.balance || want == Some(BalanceRow(need.balance.value)))
            && (want.Some? && want.value.PaymentRow? && want.value.id in t.payments ==>
                  need.payment == Some(want.value.id))
            && (want.Some? && want.value.BalanceRow? && want.value.merchantId in t.balances ==>
                  need.balance == Some(want.value.merchantId))
  {
  }

  lemma {:induction false} HoldersKnow(t: Tables, x: Txn)
    requires Shape(x) && Knows(t, x)
    ensures x.locks.payment.Some? ==> x.locks.payment.value in t.payments
    ensures x.locks.balance.Some? ==> x.locks.balance.value in t.balances
  {
  }
}
