// The one reply that is not serial: a duplicate check that went stale, and a run that makes it so.
module StaleCheck {
  import opened Entities
  import opened Transactions
  import opened Ledger
  import opened Interleaving

  // ----- sequences of events

  lemma {:induction false} NextAllAppend(s: System, events: seq<Occurrence>, e: Occurrence)
    ensures NextAll(s, events + [e]) == Next(NextAll(s, events), e)
  {
    assert (events + [e])[..|events|] == events;
  }

  lemma {:induction false} NextAllJoin(s: System, a: seq<Occurrence>, b: seq<Occurrence>)
    ensures NextAll(s, a + b) == NextAll(NextAll(s, a), b)
    decreases |b|
  {
    if b == [] {
      assert a + b == a;
    } else {
      NextAllJoin(s, a, b[..|b| - 1]);
      NextAllAppend(s, a + b[..|b| - 1], b[|b| - 1]);
      assert a + b == a + b[..|b| - 1] + [b[|b| - 1]];
    }
  }

  lemma {:induction false} NextTwo(s: System, a: Occurrence, b: Occurrence)
    ensures NextAll(s, [a, b]) == Next(Next(s, a), b)
  {
    assert [a, b][..1] == [a];
    assert NextAll(s, [a]) == Next(s, a);
  }

  // ----- one create beside transactions that hold nothing

  predicate OthersHoldNothing(active: map<nat, Txn>, id: nat) {
    forall j :: j in active && j != id ==> active[j].locks == NO_LOCKS
  }

  lemma {:induction false} MovesOn(s: System, id: nat, y: Txn)
    requires id in s.active && Shape(s.active[id]) && OthersHoldNothing(s.active, id)
    requires AdvanceTxn(s.tables, s.active[id]) == Moved(y)
    ensures Next(s, Advance(id)) == s.(active := s.active[id := y])
  {
  }

  lemma {:induction false} Ends(s: System, id: nat, need: Locks, reply: Reply, u: Tables)
    requires id in s.active && Shape(s.active[id]) && OthersHoldNothing(s.active, id)
    requires AdvanceTxn(s.tables, s.active[id]) == Finished(need, reply, u)
    ensures Next(s, Advance(id))
         == System(u, s.active - {id}, s.done + [Completion(s.active[id].action, Some(s.active[id].stage), reply)])
  {
  }

  // A create at its next calls: checked, funds locked, payment inserted, message inserted.
  function Fresh(o: Order): Txn {
    Txn(Create(o), CheckDuplicate, NO_LOCKS, None, None)
  }

  function Checked(o: Order): Txn {
    Txn(Create(o), LockBalance, NO_LOCKS, None, None)
  }

  function Funded(o: Order, b: Balance): Txn {
    Txn(Create(o), InsertPayment, NO_LOCKS.(balance := Some(o.merchantId)), None, Some(b))
  }

  function Inserted(o: Order, b: Balance): Txn {
    Funded(o, b).(stage := InsertMessage,
                  locks := NO_LOCKS.(balance := Some(o.merchantId), paymentKey := Some(o.paymentId),
                                     invoiceKey := Some(NewPayment(o).invoiceId)))
  }

  function Announced(o: Order, b: Balance): Txn {
    Inserted(o, b).(stage := CommitOrder, locks := Inserted(o, b).locks.(messageKey := Some(o.messageId)))
  }

  lemma {:induction false} CheckPasses(s: System, id: nat, o: Order)
    requires ValidRequest(o) && id !in s.active && OthersHoldNothing(s.active, id)
    requires SingleRow(s.tables.WithOrder(o.merchantId, o.orderId)) == Returned(None)
    ensures NextAll(s, [Begin(id, Create(o)), Advance(id)]) == s.(active := s.active[id := Checked(o)])
  {
    NextTwo(s, Begin(id, Create(o)), Advance(id));
    MovesOn(s.(active := s.active[id := Fresh(o)]), id, Checked(o));
    assert s.active[id := Fresh(o)][id := Checked(o)] == s.active[id := Checked(o)];
  }

  // What create_payment needs to succeed.
  ghost predicate Succeeds(t: Tables, o: Order) {
    && ValidRequest(o)
    && CreatePayment(t, o).0 == Returned(Some(o.paymentId))
  }

  lemma {:induction false} FundsLocked(s: System, id: nat, o: Order)
    requires ValidRequest(o) && id in s.active && s.active[id] == Checked(o) && OthersHoldNothing(s.active, id)
    requires ShiftRow(s.tables.balances, o.merchantId, Reserve, o.amount).Some?
    ensures Next(s, Advance(id)) == s.(active := s.active[id := Funded(o, s.tables.balances[o.merchantId])])
  {
    MovesOn(s, id, Funded(o, s.tables.balances[o.merchantId]));
  }

  lemma {:induction false} RowsInserted(s: System, id: nat, o: Order, b: Balance)
    requires Succeeds(s.tables, o) && o.merchantId in s.tables.balances && s.tables.balances[o.merchantId] == b
    requires id in s.active && s.active[id] == Funded(o, b) && OthersHoldNothing(s.active, id)
    ensures NextAll(s, [Advance(id), Advance(id)]) == s.(active := s.active[id := Announced(o, b)])
  {
    NextTwo(s, Advance(id), Advance(id));
    MovesOn(s, id, Inserted(o, b));
    MovesOn(s.(active := s.active[id := Inserted(o, b)]), id, Announced(o, b));
    assert s.active[id := Inserted(o, b)][id := Announced(o, b)] == s.active[id := Announced(o, b)];
  }

  lemma {:induction false} OrderCommitted(s: System, id: nat, o: Order, b: Balance)
    requires Succeeds(s.tables, o) && o.merchantId in s.tables.balances && s.tables.balances[o.merchantId] == b
    requires id in s.active && s.active[id] == Announced(o, b) && OthersHoldNothing(s.active, id)
    ensures Next(s, Advance(id))
         == System(CreatePayment(s.tables, o).1, s.active - {id},
                   s.done + [Completion(Create(o), Some(CommitOrder), Creation(Returned(Some(o.paymentId))))])
  {
    Ends(s, id, s.active[id].locks, Creation(Returned(Some(o.paymentId))), CreatePayment(s.tables, o).1);
  }

  function WholeOrder(id: nat, o: Order): seq<Occurrence> {
    [Begin(id, Create(o)), Advance(id)] + ([Advance(id)] + [Advance(id), Advance(id)]) + [Advance(id)]
  }

  lemma {:induction false} ReachesInsert(s: System, id: nat, o: Order)
    requires Succeeds(s.tables, o) && id !in s.active && OthersHoldNothing(s.active, id)
    ensures o.merchantId in s.tables.balances
    ensures Next(NextAll(s, [Begin(id, Create(o)), Advance(id)]), Advance(id))
         == s.(active := s.active[id := Funded(o, s.tables.balances[o.merchantId])])
  {
    CheckPasses(s, id, o);
    FundsLocked(s.(active := s.active[id := Checked(o)]), id, o);
    assert s.active[id := Checked(o)][id := Funded(o, s.tables.balances[o.merchantId])]
        == s.active[id := Funded(o, s.tables.balances[o.merchantId])];
  }

  lemma {:induction false} ReachesCommit(s: System, id: nat, o: Order, b: Balance)
    requires Succeeds(s.tables, o) && o.merchantId in s.tables.balances && s.tables.balances[o.merchantId] == b
    requires id in s.active && s.active[id] == Funded(o, b) && OthersHoldNothing(s.active, id)
    ensures Next(NextAll(s, [Advance(id), Advance(id)]), Advance(id))
         == System(CreatePayment(s.tables, o).1, s.active - {id},
                   s.done + [Completion(Create(o), Some(CommitOrder), Creation(Returned(Some(o.paymentId))))])
  {
    RowsInserted(s, id, o, b);
    OrderCommitted(s.(active := s.active[id := Announced(o, b)]), id, o, b);
    assert s.active[id := Announced(o, b)] - {id} == s.active - {id};
  }

  // A create that succeeds atomically commits beside transactions that hold nothing.
  lemma {:induction false} GoesThrough(s: System, id: nat, o: Order)
    requires Succeeds(s.tables, o) && id !in s.active && OthersHoldNothing(s.active, id)
    ensures NextAll(s, WholeOrder(id, o))
         == System(CreatePayment(s.tables, o).1, s.active,
                   s.done + [Completion(Create(o), Some(CommitOrder), Creation(Returned(Some(o.paymentId))))])
  {
    ReachesInsert(s, id, o);
    var b := s.tables.balances[o.merchantId];
    ReachesCommit(s.(active := s.active[id := Funded(o, b)]), id, o, b);
    assert s.active[id := Funded(o, b)] - {id} == s.active;
    WholeOrderParts(s, id, o);
  }

  lemma {:induction false} WholeOrderParts(s: System, id: nat, o: Order)
    ensures var s1 := NextAll(s, [Begin(id, Create(o)), Advance(id)]);
            NextAll(s, WholeOrder(id, o))
              == Next(NextAll(Next(s1, Advance(id)), [Advance(id), Advance(id)]), Advance(id))
  {
    var check, insert := [Begin(id, Create(o)), Advance(id)], [Advance(id), Advance(id)];
    NextAllJoin(s, check, [Advance(id)] + insert);
    NextAllJoin(NextAll(s, check), [Advance(id)], insert);
    assert NextAll(NextAll(s, check), [Advance(id)]) == Next(NextAll(s, check), Advance(id));
    NextAllAppend(s, check + ([Advance(id)] + insert), Advance(id));
  }

  // ----- the stale check

  // The check of one create, the whole of another with the same order, then the first one's next calls.
  function Overtaken(o: Order, p: Order): seq<Occurrence> {
    [Begin(0, Create(o)), Advance(0)] + WholeOrder(1, p) + [Advance(0), Advance(0)]
  }

  // p asks for the order of o, which nobody has placed, and the merchant can pay for both.
  ghost predicate BothPayable(t: Tables, o: Order, p: Order) {
    && Succeeds(t, p) && ValidRequest(o)
    && o.merchantId == p.merchantId && o.orderId == p.orderId
    && ShiftRow(CreatePayment(t, p).1.balances, o.merchantId, Reserve, o.amount).Some?
  }

  // From any idle system the overtaken create raises, and raising is what the atomic step would not do.
  lemma {:induction false} OvertakenRaises(s: System, o: Order, p: Order)
    requires WellFormed(s.tables) && s.active == map[] && BothPayable(s.tables, o, p)
    ensures var u := CreatePayment(s.tables, p).1;
            && NextAll(s, Overtaken(o, p))
               == System(u, map[],
                    s.done + [Completion(Create(p), Some(CommitOrder), Creation(Returned(Some(p.paymentId))))]
                           + [Completion(Create(o), Some(InsertPayment), Creation(Raised(UniqueViolation)))])
            && Step(u, Create(o)) == (Creation(Returned(None)), u)
  {
    var u := CreatePayment(s.tables, p).1;
    var s1 := s.(active := map[0 := Checked(o)]);
    CheckPasses(s, 0, o);
    assert s.active[0 := Checked(o)] == s1.active;
    GoesThrough(s1, 1, p);
    var s2 := NextAll(s1, WholeOrder(1, p));
    CreateKeepsWellFormed(s.tables, p);
    LateInsert(s2, o, p.paymentId);
    NextAllJoin(s, [Begin(0, Create(o)), Advance(0)], WholeOrder(1, p));
    NextAllJoin(s, [Begin(0, Create(o)), Advance(0)] + WholeOrder(1, p), [Advance(0), Advance(0)]);
  }

  // A checked create whose order has been committed since.
  lemma {:induction false} LateInsert(s: System, o: Order, k: Uuid)
    requires WellFormed(s.tables) && ValidRequest(o) && s.active == map[0 := Checked(o)]
    requires k in s.tables.payments
    requires s.tables.payments[k].merchantId == o.merchantId && s.tables.payments[k].orderId == o.orderId
    requires ShiftRow(s.tables.balances, o.merchantId, Reserve, o.amount).Some?
    ensures NextAll(s, [Advance(0), Advance(0)])
         == System(s.tables, map[],
                   s.done + [Completion(Create(o), Some(InsertPayment), Creation(Raised(UniqueViolation)))])
    ensures Step(s.tables, Create(o)) == (Creation(Returned(None)), s.tables)
  {
    var b := s.tables.balances[o.merchantId];
    var s1 := s.(active := map[0 := Funded(o, b)]);
    DuplicateSeen(s.tables, o);
    NextTwo(s, Advance(0), Advance(0));
    FundsLocked(s, 0, o);
    assert s.active[0 := Funded(o, b)] == s1.active;
    Ends(s1, 0, s1.active[0].locks, Creation(Raised(UniqueViolation)), s.tables);
    assert s1.active - {0} == map[];
  }

  // From any seed with funds for two requests of one order there is an interleaving in which both checks
  // pass, one request commits, and the other raises where the atomic step returns None.
  lemma {:induction false} StaleCheckRaises(seed: Tables, o: Order, p: Order)
    requires Seeded(seed) && ValidRequest(o) && ValidRequest(p) && o.merchantId == p.merchantId
    requires o.orderId == p.orderId
    requires o.merchantId in seed.balances && o.amount + p.amount <= seed.balances[o.merchantId].amount
    ensures var s := NextAll(System(seed, map[], []), Overtaken(o, p));
            && s.done == [Completion(Create(p), Some(CommitOrder), Creation(Returned(Some(p.paymentId)))),
                          Completion(Create(o), Some(InsertPayment), Creation(Raised(UniqueViolation)))]
            && s.tables == Run(seed, [Create(p)])
            && Step(Run(seed, [Create(p)]), Create(o)).0 == Creation(Returned(None))
  {
    SeededSound(seed);
    assert seed.WithOrder(p.merchantId, p.orderId) == {};
    assert BothPayable(seed, o, p);
    OvertakenRaises(System(seed, map[], []), o, p);
    assert Run(seed, [Create(p)]) == Step(Run(seed, []), Create(p)).1;
  }

  // ----- and it is the only one

  lemma {:induction false} RepliesDifferAt(seed: Tables, done: seq<Completion>, n: nat)
    requires RepliesAgree(seed, done) && n < |done|
    ensures var t := Run(seed, Actions(done[..n]));
            done[n].reply != Step(t, done[n].action).0 <==> Stale(t, done[n].action, done[n].last)
    decreases |done|
  {
    if n < |done| - 1 {
      RepliesDifferAt(seed, done[..|done| - 1], n);
      assert done[..|done| - 1][..n] == done[..n];
    }
  }

  // In every interleaving a transaction's reply differs from that of its atomic step, taken after the ones
  // that ended before it, exactly if it is a create that ended at its insert with its order stored by then.
  lemma {:induction false} OnlyStaleChecksDiffer(seed: Tables, events: seq<Occurrence>, n: nat)
    requires Seeded(seed) && n < |NextAll(System(seed, map[], []), events).done|
    ensures var done := NextAll(System(seed, map[], []), events).done;
            var t := Run(seed, Actions(done[..n]));
            done[n].reply != Step(t, done[n].action).0 <==> Stale(t, done[n].action, done[n].last)
  {
    InterleavingsAreSerial(seed, events);
    RepliesDifferAt(seed, NextAll(System(seed, map[], []), events).done, n);
  }
}
