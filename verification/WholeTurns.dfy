// The converse for the closed system: each happening with whole transactions is made of turns of split ones.
module WholeTurns {
  import opened Entities
  import opened Ledger
  import opened Interleaving
  import opened SerialRuns
  import opened Causality
  import opened ClosedSystem

  // ----- sequences of turns

  lemma {:induction false} TurnsJoin(s: Closed, a: seq<Turn>, b: seq<Turn>)
    ensures TurnedAll(s, a + b) == TurnedAll(TurnedAll(s, a), b)
    decreases |b|
  {
    if b == [] {
      assert a + b == a;
    } else {
      assert (a + b)[..|a + b| - 1] == a + b[..|b| - 1];
      TurnsJoin(s, a, b[..|b| - 1]);
    }
  }

  lemma {:induction false} FirstTurn(s: Closed, c: Turn, rest: seq<Turn>)
    ensures TurnedAll(s, [c]) == Turned(s, c)
    ensures TurnedAll(s, [c] + rest) == TurnedAll(Turned(s, c), rest)
  {
    assert [c][..0] == [];
    TurnsJoin(s, [c], rest);
  }

  function Goes(n: nat, k: nat): seq<Turn> {
    if k == 0 then [] else [Go(n)] + Goes(n, k - 1)
  }

  // ----- a transaction to its end

  // n runs a, or has ended, and if it asks the provider the answer is there.
  predicate Ready(s: Closed, n: nat, a: Action) {
    && (n in s.active ==> s.active[n].action == a)
    && (a.Consume? && a.reply.Some? ==>
          && n in s.events && a.reply.value in s.w.provider
          && s.w.provider[a.reply.value].invoiceId == s.events[n].invoiceId)
  }

  lemma {:induction false} AdvanceKeepsAction(s: System, n: nat, a: Action)
    requires n in s.active ==> s.active[n].action == a
    ensures n in Next(s, Advance(n)).active ==> Next(s, Advance(n)).active[n].action == a
  {
  }

  lemma {:induction false} GoIsAdvance(s: Closed, n: nat, a: Action)
    requires Ready(s, n, a)
    ensures Turned(s, Go(n)) == WithSys(s, Next(s.Sys(), Advance(n))) && Ready(Turned(s, Go(n)), n, a)
  {
    AdvanceKeepsAction(s.Sys(), n, a);
  }

  lemma {:induction false} WithSysTwice(s: Closed, first: System, second: System)
    ensures WithSys(s, first).Sys() == first
    ensures WithSys(WithSys(s, first), second) == WithSys(s, second)
    ensures WithSys(s, s.Sys()) == s
  {
  }

  lemma {:induction false} GoesFirst(s: Closed, n: nat, k: nat, a: Action) returns (u: Closed, next: System)
    requires Ready(s, n, a)
    ensures u == WithSys(s, next) && Ready(u, n, a)
    ensures TurnedAll(s, Goes(n, k + 1)) == TurnedAll(u, Goes(n, k))
    ensures NextAll(s.Sys(), Advances(n, k + 1)) == NextAll(u.Sys(), Advances(n, k))
  {
    next := Next(s.Sys(), Advance(n));
    u := Turned(s, Go(n));
    GoIsAdvance(s, n, a);
    WithSysTwice(s, next, next);
    FirstTurn(s, Go(n), Goes(n, k));
    FirstAdvance(s.Sys(), n, k);
  }

  lemma {:induction false} GoesAreAdvances(s: Closed, n: nat, k: nat, a: Action) returns (end: System)
    requires Ready(s, n, a)
    ensures end == NextAll(s.Sys(), Advances(n, k)) && TurnedAll(s, Goes(n, k)) == WithSys(s, end)
    decreases k
  {
    if k == 0 {
      end := s.Sys();
      WithSysTwice(s, end, end);
    } else {
      var before: nat := k - 1;
      assert k == before + 1;
      var u, next := GoesFirst(s, n, before, a);
      end := GoesAreAdvances(u, n, before, a);
      WithSysTwice(s, next, end);
    }
  }

  // Begun in an idle system, a transaction that does not wait for the provider can be taken to its end.
  lemma {:induction false} CanEnd(s: Closed, a: Action) returns (k: nat)
    requires Start(a).Some? && s.active == map[0 := Start(a).value] && WellFormed(s.w.db) && Ready(s, 0, a)
    ensures TurnedAll(s, Goes(0, k)).w == s.w.(db := Step(s.w.db, a).1) && TurnedAll(s, Goes(0, k)).active == map[]
  {
    assert Going(s.w.db, Start(a).value);
    var last: Stage;
    k, last := AloneEnds(s.Sys(), 0, Start(a).value);
    var end := GoesAreAdvances(s, 0, k, a);
  }

  // ----- each happening

  // These turns take an idle system through the happening and leave it idle.
  ghost predicate Makes(s: Closed, cs: seq<Turn>, h: Happening) {
    TurnedAll(s, cs).w == Happen(s.w, h) && TurnedAll(s, cs).active == map[]
  }

  lemma {:induction false} Begins(s: Closed, c: Turn, a: Action) returns (cs: seq<Turn>)
    requires s.active == map[] && WellFormed(s.w.db) && Start(a).Some?
    requires Turned(s, c).active == map[0 := Start(a).value] && Turned(s, c).w == s.w && Ready(Turned(s, c), 0, a)
    ensures TurnedAll(s, cs).w == s.w.(db := Step(s.w.db, a).1) && TurnedAll(s, cs).active == map[]
  {
    var k := CanEnd(Turned(s, c), a);
    FirstTurn(s, c, Goes(0, k));
    cs := [c] + Goes(0, k);
  }

  lemma {:induction false} RequestTurns(s: Closed, o: Order) returns (cs: seq<Turn>)
    requires s.active == map[] && WellFormed(s.w.db)
    ensures Makes(s, cs, Request(o))
  {
    if ValidRequest(o) {
      assert s.active[0 := Start(Create(o)).value] == map[0 := Start(Create(o)).value];
      cs := Begins(s, Place(0, o), Create(o));
    } else {
      cs := [];
    }
  }

  lemma {:induction false} ArriveTurns(s: Closed, v: Webhook) returns (cs: seq<Turn>)
    requires s.active == map[] && WellFormed(s.w.db)
    ensures Makes(s, cs, Arrive(v))
  {
    if v in s.w.sent {
      assert s.active[0 := Start(Deliver(v)).value] == map[0 := Start(Deliver(v)).value];
      cs := Begins(s, Hook(0, v), Deliver(v));
    } else {
      cs := [];
    }
  }

  lemma {:induction false} RecordTurns(s: Closed, e: Entities.Event, reply: Option<string>) returns (cs: seq<Turn>)
    requires s.active == map[] && WellFormed(s.w.db)
    ensures Makes(s, cs, Record(e, reply))
  {
    if e in s.w.delivered
       && (reply.None? || (reply.value in s.w.provider && s.w.provider[reply.value].invoiceId == e.invoiceId)) {
      var a := Consume(e.paymentId, reply);
      assert s.active[0 := Start(a).value] == map[0 := Start(a).value];
      cs := Begins(s, Handle(0, e, reply), a);
    } else {
      cs := [];
    }
  }

  // The consumer locks the payment, asks the provider, and its session is lost.
  lemma {:induction false} CallTurns(s: Closed, e: Entities.Event, id: string, url: string) returns (cs: seq<Turn>)
    requires s.active == map[]
    ensures Makes(s, cs, Happening.CallProvider(e, id, url))
  {
    if e in s.w.delivered && e.paymentId in s.w.db.payments && s.w.db.payments[e.paymentId].status.Created?
       && id !in s.w.provider && s.w.wire(e.amount).Some? {
      var s1, s2, s3 := Locked(s, e, id), Turned(Locked(s, e, id), Ask(0, url)), Lose(0);
      AsksUnderLock(s, e, id, url);
      cs := [Handle(0, e, Some(id)), Go(0), Ask(0, url), Lose(0)];
      FirstTurn(s, cs[0], cs[1..]);
      FirstTurn(Turned(s, cs[0]), cs[1], cs[2..]);
      FirstTurn(s1, cs[2], cs[3..]);
      FirstTurn(s2, cs[3], []);
      assert cs == [cs[0]] + cs[1..] && cs[1..] == [cs[1]] + cs[2..] && cs[2..] == [cs[2]] + cs[3..];
      assert cs[3..] == [cs[3]];
    } else {
      cs := [];
    }
  }

  // The consumer holds its payment row and is about to ask.
  ghost function Locked(s: Closed, e: Entities.Event, id: string): Closed {
    Turned(Turned(s, Handle(0, e, Some(id))), Go(0))
  }

  lemma {:induction false} AsksUnderLock(s: Closed, e: Entities.Event, id: string, url: string)
    requires s.active == map[] && e in s.w.delivered && e.paymentId in s.w.db.payments
    requires s.w.db.payments[e.paymentId].status.Created? && id !in s.w.provider && s.w.wire(e.amount).Some?
    ensures var u := Turned(Turned(Locked(s, e, id), Ask(0, url)), Lose(0));
            u.w == Happen(s.w, Happening.CallProvider(e, id, url)) && u.active == map[]
  {
    var begun := Turned(s, Handle(0, e, Some(id)));
    assert begun.active == map[0 := Start(Consume(e.paymentId, Some(id))).value];
    assert Granted(begun.active, 0, NO_LOCKS.(payment := Some(e.paymentId)));
    assert CanAsk(Locked(s, e, id), 0);
  }

  lemma {:induction false} AroundTurns(s: Closed, h: Happening) returns (cs: seq<Turn>)
    requires s.active == map[] && (h.Pick? || h.Report? || h.HandOff? || h.Receive? || h.Fire?)
    ensures Makes(s, cs, h)
  {
    cs := [Around(h)];
    FirstTurn(s, Around(h), []);
  }

  lemma {:induction false} OneHappening(s: Closed, h: Happening) returns (cs: seq<Turn>)
    requires s.active == map[] && WellFormed(s.w.db)
    ensures Makes(s, cs, h)
  {
    match h
    case Request(o) => cs := RequestTurns(s, o);
    case Arrive(v) => cs := ArriveTurns(s, v);
    case Record(e, reply) => cs := RecordTurns(s, e, reply);
    case CallProvider(e, id, url) => cs := CallTurns(s, e, id, url);
    case _ => cs := AroundTurns(s, h);
  }

  // Every world of whole transactions is one that split transactions reach.
  lemma {:induction false} WholeIsSplit(wire: Wire, seed: Tables, hs: seq<Happening>) returns (cs: seq<Turn>)
    requires Seeded(seed)
    ensures TurnedAll(AtRest(wire, seed), cs).w == HappenAll(Idle(wire, seed), hs)
    ensures TurnedAll(AtRest(wire, seed), cs).active == map[]
  {
    cs := [];
    if hs != [] {
      var before := hs[..|hs| - 1];
      cs := WholeIsSplit(wire, seed, before);
      AllHappensSound(wire, seed, before);
      var more := OneHappening(TurnedAll(AtRest(wire, seed), cs), hs[|hs| - 1]);
      TurnsJoin(AtRest(wire, seed), cs, more);
      cs := cs + more;
    }
  }
}
