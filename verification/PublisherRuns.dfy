// One publisher process under crashes, restarts and broken calls, beside every other transaction.
module PublisherRuns {
  import opened Entities
  import opened Transactions
  import opened Queries
  import opened Ledger
  import opened Publisher

  // Where the process stands: outside a pass, or with one message of the batch and the ones to come.
  datatype Phase =
    | Idle
    | Choosing(id: Uuid, rest: seq<Uuid>)                 // before mark_as_processing
    | Handing(id: Uuid, rest: seq<Uuid>)                  // before publish
    | Confirming(id: Uuid, rest: seq<Uuid>)               // before mark_as_sent
    | Failing(id: Uuid, rest: seq<Uuid>, error: string)   // before mark_as_failed

  // committed: a commit that raised took effect all the same.
  datatype Event =
    | Other(action: Action)                          // a transaction of another process
    | Load(batch: seq<Uuid>)
    | Mark
    | MarkFault(committed: bool, error: string)
    | HandOff(fate: Fate)
    | Confirm
    | ConfirmFault(committed: bool, error: string)
    | Fail
    | FailFault(committed: bool)
    | Crash

  datatype State = State(tables: Tables, phase: Phase, handed: seq<Uuid>)

  function Proceed(rest: seq<Uuid>): Phase {
    if rest == [] then Idle else Choosing(rest[0], rest[1..])
  }

  function Rewrite(t: Tables, id: Uuid, mark: Mark): Tables {
    if id in t.outbox then SetMessage(t, id, Marked(t.outbox[id], mark)) else t
  }

  // An event that does not apply to the phase changes nothing.
  ghost function Move(s: State, e: Event): State {
    match (e, s.phase)
    case (Other(a), _) => if a.Update? then s else s.(tables := Step(s.tables, a).1)
    case (Load(batch), Idle) => if IsBatch(s.tables.outbox, batch) then s.(phase := Proceed(batch)) else s
    case (Mark, Choosing(id, rest)) =>
      s.(tables := Rewrite(s.tables, id, ToPublishing), phase := Handing(id, rest))
    case (MarkFault(committed, error), Choosing(id, rest)) =>
      s.(tables := if committed then Rewrite(s.tables, id, ToPublishing) else s.tables,
         phase := Failing(id, rest, error))
    case (HandOff(fate), Handing(id, rest)) =>
      s.(handed := s.handed + if fate.Taken() then [id] else [],
         phase := if fate.Delivered? then Confirming(id, rest) else Failing(id, rest, fate.error))
    case (Confirm, Confirming(id, rest)) =>
      s.(tables := Rewrite(s.tables, id, ToSent), phase := Proceed(rest))
    case (ConfirmFault(committed, error), Confirming(id, rest)) =>
      s.(tables := if committed then Rewrite(s.tables, id, ToSent) else s.tables, phase := Failing(id, rest, error))
    case (Fail, Failing(id, rest, error)) =>
      s.(tables := Rewrite(s.tables, id, ToFailed(error)), phase := Proceed(rest))
    // an exception in the handler leaves the pass
    case (FailFault(committed), Failing(id, rest, error)) =>
      s.(tables := if committed then Rewrite(s.tables, id, ToFailed(error)) else s.tables, phase := Idle)
    case (Crash, _) => s.(phase := Idle)
    case _ => s
  }

  ghost function Moves(s: State, events: seq<Event>): State {
    if events == [] then s else Move(Moves(s, events[..|events| - 1]), events[|events| - 1])
  }

  // ----- what every state satisfies

  predicate OrderlyMessage(m: Message, handed: bool) {
    match m.status
    case Pending => !handed && m.retryCount == 0
    case Publishing => m.retryCount == 0
    case Sent => handed && m.retryCount == 0
    case Dead => m.retryCount == 1
  }

  ghost predicate OrderlyOutbox(outbox: map<Uuid, Message>, handed: seq<Uuid>) {
    && Distinct(handed)
    && (forall i :: i in handed ==> i in outbox)
    && (forall i :: i in outbox ==> OrderlyMessage(outbox[i], i in handed))
  }

  ghost predicate AllPending(outbox: map<Uuid, Message>, ids: seq<Uuid>) {
    forall i :: i in ids ==> i in outbox && outbox[i].status.Pending?
  }

  ghost predicate OrderlyPhase(outbox: map<Uuid, Message>, handed: seq<Uuid>, phase: Phase) {
    phase.Idle? || (
      && phase.id in outbox && phase.id !in phase.rest
      && Distinct(phase.rest) && AllPending(outbox, phase.rest)
      && match phase
         case Choosing(id, _) => outbox[id].status.Pending?
         case Handing(id, _) => outbox[id].status.Publishing? && id !in handed
         case Confirming(id, _) => outbox[id].status.Publishing? && id in handed
         case Failing(id, _, _) => !outbox[id].status.Dead?
    )
  }

  ghost predicate Orderly(s: State) {
    OrderlyOutbox(s.tables.outbox, s.handed) && OrderlyPhase(s.tables.outbox, s.handed, s.phase)
  }

  lemma {:induction false} ProceedOrderly(outbox: map<Uuid, Message>, handed: seq<Uuid>, rest: seq<Uuid>)
    requires Distinct(rest) && AllPending(outbox, rest)
    ensures OrderlyPhase(outbox, handed, Proceed(rest))
  {
  }

  // Other processes only add pending messages that were never handed over.
  lemma {:induction false} OtherAdds(t: Tables, a: Action)
    requires !a.Update?
    ensures var u := Step(t, a).1;
            && (forall i :: i in t.outbox ==> i in u.outbox && u.outbox[i] == t.outbox[i])
            && (forall i :: i in u.outbox && i !in t.outbox ==>
              u.outbox[i].status.Pending? && u.outbox[i].retryCount == 0)
  {
  }

  lemma {:induction false} OtherKeepsOrderly(s: State, a: Action)
    requires Orderly(s) && !a.Update?
    ensures Orderly(s.(tables := Step(s.tables, a).1))
  {
    OtherAdds(s.tables, a);
  }

  lemma {:induction false} RewriteKeepsOrderly(t: Tables, handed: seq<Uuid>, id: Uuid, rest: seq<Uuid>, mark: Mark)
    requires OrderlyOutbox(t.outbox, handed) && id in t.outbox && id !in rest && AllPending(t.outbox, rest)
    requires OrderlyMessage(Marked(t.outbox[id], mark), id in handed)
    ensures OrderlyOutbox(Rewrite(t, id, mark).outbox, handed) && AllPending(Rewrite(t, id, mark).outbox, rest)
  {
  }

  lemma {:induction false} HandOffKeepsOrderly(outbox: map<Uuid, Message>, handed: seq<Uuid>, id: Uuid)
    requires OrderlyOutbox(outbox, handed) && id in outbox && outbox[id].status.Publishing? && id !in handed
    ensures OrderlyOutbox(outbox, handed + [id])
  {
    forall i | i in outbox ensures OrderlyMessage(outbox[i], i in handed + [id]) {
      assert OrderlyMessage(outbox[i], i in handed);
    }
  }

  lemma {:induction false} MoveKeepsOrderly(s: State, e: Event)
    requires Orderly(s)
    ensures Orderly(Move(s, e))
  {
    match (e, s.phase)
    case (Other(a), _) =>
      if !a.Update? {
        OtherKeepsOrderly(s, a);
      }
    case (Load(batch), Idle) =>
      if IsBatch(s.tables.outbox, batch) {
        ProceedOrderly(s.tables.outbox, s.handed, batch);
      }
    case (Mark, Choosing(id, rest)) => RewriteKeepsOrderly(s.tables, s.handed, id, rest, ToPublishing);
    case (MarkFault(_, _), Choosing(id, rest)) => RewriteKeepsOrderly(s.tables, s.handed, id, rest, ToPublishing);
    case (HandOff(fate), Handing(id, rest)) =>
      HandOffKeepsOrderly(s.tables.outbox, s.handed, id);
      assert s.handed + [] == s.handed;
    case (Confirm, Confirming(id, rest)) =>
      RewriteKeepsOrderly(s.tables, s.handed, id, rest, ToSent);
      ProceedOrderly(Move(s, e).tables.outbox, s.handed, rest);
    case (ConfirmFault(_, _), Confirming(id, rest)) => RewriteKeepsOrderly(s.tables, s.handed, id, rest, ToSent);
    case (Fail, Failing(id, rest, error)) =>
      RewriteKeepsOrderly(s.tables, s.handed, id, rest, ToFailed(error));
      ProceedOrderly(Move(s, e).tables.outbox, s.handed, rest);
    case (FailFault(_), Failing(id, rest, error)) => RewriteKeepsOrderly(s.tables, s.handed, id, rest, ToFailed(error));
    case _ =>
  }

  lemma {:induction false} MovesKeepOrderly(s: State, events: seq<Event>)
    requires Orderly(s)
    ensures Orderly(Moves(s, events))
  {
    if events != [] {
      MovesKeepOrderly(s, events[..|events| - 1]);
      MoveKeepsOrderly(Moves(s, events[..|events| - 1]), events[|events| - 1]);
    }
  }

  ghost predicate Fresh(s: State) {
    Seeded(s.tables) && s.phase.Idle? && s.handed == []
  }

  // Over any run of one publisher, with crashes and broken calls anywhere: each message reaches the broker
  // at most once, a pending one never did, a sent one did, and its retry count is 1 exactly when it failed.
  lemma {:induction false} HandedOverAtMostOnce(s: State, events: seq<Event>)
    requires Fresh(s)
    ensures Orderly(Moves(s, events))
    ensures var u := Moves(s, events);
            && Distinct(u.handed)
            && (forall i :: i in u.tables.outbox ==> u.tables.outbox[i].retryCount <= 1)
            && (forall i :: i in u.tables.outbox && u.tables.outbox[i].status.Pending? ==> i !in u.handed)
  {
    MovesKeepOrderly(s, events);
  }

  // Messages are never lost, and their status only moves on.
  ghost predicate MovedOn(before: map<Uuid, Message>, after: map<Uuid, Message>) {
    forall i :: i in before ==>
      && i in after
      && after[i].payload == before[i].payload
      && (before[i].status != Pending ==> after[i].status != Pending)
      && (before[i].status == Sent || before[i].status == Dead ==> after[i].status != Publishing)
      && (before[i].status == Dead ==> after[i].status == Dead)
  }

  lemma {:induction false} MoveMovesOn(s: State, e: Event)
    requires Orderly(s)
    ensures MovedOn(s.tables.outbox, Move(s, e).tables.outbox)
  {
    if e.Other? && !e.action.Update? {
      OtherAdds(s.tables, e.action);
    }
  }

  // PENDING is never re-entered, nor any other status a message has left.
  lemma {:induction false} PendingNeverReentered(s: State, events: seq<Event>, n: nat)
    requires Fresh(s) && n <= |events|
    ensures MovedOn(Moves(s, events[..n]).tables.outbox, Moves(s, events).tables.outbox)
  {
    if n == |events| {
      assert events[..n] == events;
    } else {
      var before := events[..|events| - 1];
      assert before[..n] == events[..n];
      PendingNeverReentered(s, before, n);
      HandedOverAtMostOnce(s, before);
      MoveMovesOn(Moves(s, before), events[|events| - 1]);
    }
  }

  // ----- the tables run as in Ledger

  lemma {:induction false} MoveIsRun(s: State, e: Event) returns (actions: seq<Action>)
    ensures |actions| <= 1
    ensures Move(s, e).tables == if actions == [] then s.tables else Step(s.tables, actions[0]).1
  {
    match (e, s.phase)
    case (Other(a), _) => actions := if a.Update? then [] else [a];
    case (Mark, Choosing(id, _)) => actions := [Update(id, ToPublishing)];
    case (MarkFault(committed, _), Choosing(id, _)) => actions := if committed then [Update(id, ToPublishing)] else [];
    case (Confirm, Confirming(id, _)) => actions := [Update(id, ToSent)];
    case (ConfirmFault(committed, _), Confirming(id, _)) => actions := if committed then [Update(id, ToSent)] else [];
    case (Fail, Failing(id, _, error)) => actions := [Update(id, ToFailed(error))];
    case (FailFault(committed), Failing(id, _, error)) =>
      actions := if committed then [Update(id, ToFailed(error))] else [];
    case _ => actions := [];
  }

  // Whatever the publisher does, the tables are those of some run of transactions.
  lemma {:induction false} TablesRun(s: State, events: seq<Event>) returns (actions: seq<Action>)
    ensures Moves(s, events).tables == Run(s.tables, actions)
  {
    actions := [];
    if events != [] {
      var before := TablesRun(s, events[..|events| - 1]);
      var last := MoveIsRun(Moves(s, events[..|events| - 1]), events[|events| - 1]);
      actions := before + last;
      if last == [] {
        assert actions == before;
      } else {
        assert actions[..|actions| - 1] == before;
      }
    }
  }

  // No payment is announced to the broker twice.
  lemma {:induction false} PaymentsAnnouncedAtMostOnce(s: State, events: seq<Event>)
    requires Fresh(s)
    ensures var u := Moves(s, events);
            && (forall i :: i in u.handed ==>
              i in u.tables.outbox && u.tables.outbox[i].payload.paymentId in u.tables.payments)
            && (forall m, n :: 0 <= m < n < |u.handed| ==>
                  u.tables.outbox[u.handed[m]].payload.paymentId != u.tables.outbox[u.handed[n]].payload.paymentId)
  {
    HandedOverAtMostOnce(s, events);
    var actions := TablesRun(s, events);
    RunSound(s.tables, actions);
    var u := Moves(s, events);
    assert Paired(u.tables);
    forall m, n | 0 <= m < n < |u.handed|
      ensures u.tables.outbox[u.handed[m]].payload.paymentId != u.tables.outbox[u.handed[n]].payload.paymentId
    {
      assert u.handed[m] in u.handed && u.handed[n] in u.handed;
    }
  }

  // A message that has left PENDING and is not in hand.
  ghost predicate Left(s: State, i: Uuid) {
    i in s.tables.outbox && !s.tables.outbox[i].status.Pending? && (s.phase.Idle? || s.phase.id != i)
  }

  lemma {:induction false} MoveLeaves(s: State, e: Event, i: Uuid)
    requires Orderly(s) && Left(s, i)
    ensures var u := Move(s, e);
            Left(u, i) && u.tables.outbox[i] == s.tables.outbox[i] && (i in u.handed <==> i in s.handed)
  {
    if e.Other? && !e.action.Update? {
      OtherAdds(s.tables, e.action);
    }
  }

  // Such a message stays as it is for ever: what a crash strands in PROCESSING is neither
  // retried nor handed over.
  lemma {:induction false} LeftForever(s: State, events: seq<Event>, i: Uuid)
    requires Orderly(s) && Left(s, i)
    ensures var u := Moves(s, events);
            && Orderly(u) && Left(u, i)
            && u.tables.outbox[i] == s.tables.outbox[i] && (i in u.handed <==> i in s.handed)
  {
    if events != [] {
      var before := events[..|events| - 1];
      LeftForever(s, before, i);
      MoveKeepsOrderly(Moves(s, before), events[|events| - 1]);
      MoveLeaves(Moves(s, before), events[|events| - 1], i);
    }
  }

  // ----- a pass without faults

  function CloseEvents(fate: Fate): seq<Event> {
    [Mark, HandOff(fate), if fate.Delivered? then Event.Confirm else Fail]
  }

  // The events of a pass up to its n-th message.
  function PassEvents(batch: seq<Uuid>, fates: Fates, n: nat): seq<Event>
    requires n <= |batch|
  {
    if n == 0 then [Load(batch)] else PassEvents(batch, fates, n - 1) + CloseEvents(fates(batch[n - 1]))
  }

  lemma {:induction false} MovesJoin(s: State, a: seq<Event>, b: seq<Event>)
    ensures Moves(s, a + b) == Moves(Moves(s, a), b)
    decreases |b|
  {
    if b == [] {
      assert a + b == a;
    } else {
      assert (a + b)[..|a + b| - 1] == a + b[..|b| - 1];
      MovesJoin(s, a, b[..|b| - 1]);
    }
  }

  lemma {:induction false} CloseOne(s: State, fate: Fate)
    requires s.phase.Choosing? && s.phase.id in s.tables.outbox
    ensures var id := s.phase.id;
            Moves(s, CloseEvents(fate))
            == State(SetMessage(s.tables, id, Closed(s.tables.outbox[id], fate)), Proceed(s.phase.rest),
                     s.handed + if fate.Taken() then [id] else [])
  {
    var events := CloseEvents(fate);
    assert events[..2][..1] == [Mark] && events[..2] == [Mark, HandOff(fate)];
    assert Moves(s, [Mark]) == Move(s, Mark);
    assert Moves(s, events[..2]) == Move(Move(s, Mark), HandOff(fate));
  }

  // Where a pass stands before the n-th message of its batch.
  function PassState(t: Tables, handed: seq<Uuid>, batch: seq<Uuid>, fates: Fates, n: nat): State
    requires n <= |batch|
  {
    State(t.(outbox := AfterPass(t.outbox, batch[..n], fates)), Proceed(batch[n..]),
      handed + HandedOver(batch[..n], fates))
  }

  lemma {:induction false} PassBegins(s: State, batch: seq<Uuid>, fates: Fates)
    requires s.phase.Idle? && IsBatch(s.tables.outbox, batch)
    ensures Moves(s, PassEvents(batch, fates, 0)) == PassState(s.tables, s.handed, batch, fates, 0)
  {
    assert AfterPass(s.tables.outbox, batch[..0], fates) == s.tables.outbox;
    assert Moves(s, []) == s;
  }

  lemma {:induction false} PassGoesOn(t: Tables, handed: seq<Uuid>, batch: seq<Uuid>, fates: Fates, n: nat)
    requires Distinct(batch) && n < |batch| && batch[n] in t.outbox
    ensures Moves(PassState(t, handed, batch, fates, n), CloseEvents(fates(batch[n])))
         == PassState(t, handed, batch, fates, n + 1)
  {
    CloseOne(PassState(t, handed, batch, fates, n), fates(batch[n]));
    CloseNext(t.outbox, batch, n, fates);
    assert batch[n..][1..] == batch[n + 1..];
  }

  // The pass as the publisher's method makes it is one run of this machine.
  lemma {:induction false} PassIsMoves(s: State, batch: seq<Uuid>, fates: Fates, n: nat)
    requires s.phase.Idle? && IsBatch(s.tables.outbox, batch) && n <= |batch|
    ensures Moves(s, PassEvents(batch, fates, n)) == PassState(s.tables, s.handed, batch, fates, n)
  {
    PassBegins(s, batch, fates);
    BatchWaits(s.tables.outbox, batch);
    PassFromStart(s, batch, fates, n);
  }

  lemma {:induction false} PassFromStart(s: State, batch: seq<Uuid>, fates: Fates, n: nat)
    requires Distinct(batch) && (forall i :: i in batch ==> i in s.tables.outbox) && n <= |batch|
    requires Moves(s, PassEvents(batch, fates, 0)) == PassState(s.tables, s.handed, batch, fates, 0)
    ensures Moves(s, PassEvents(batch, fates, n)) == PassState(s.tables, s.handed, batch, fates, n)
  {
    if n > 0 {
      PassFromStart(s, batch, fates, n - 1);
      PassGoesOn(s.tables, s.handed, batch, fates, n - 1);
      MovesJoin(s, PassEvents(batch, fates, n - 1), CloseEvents(fates(batch[n - 1])));
    }
  }

  // A connection that breaks after this many of a message's four calls: the exception handler breaks as well.
  function BreakEvents(fate: Fate, calls: nat, lands: bool): seq<Event> {
    if calls < 2 then [MarkFault(calls == 1 && lands, ""), FailFault(false)]
    else if fate.Delivered? then [Mark, HandOff(fate), ConfirmFault(calls >= 3 && lands, ""), FailFault(false)]
    else [Mark, HandOff(fate), FailFault(calls >= 3 && lands)]
  }

  lemma {:induction false} BreakOne(s: State, fate: Fate, calls: nat, lands: bool)
    requires s.phase.Choosing? && s.phase.id in s.tables.outbox
    ensures Moves(s, BreakEvents(fate, calls, lands)) == BrokenState(s, fate, calls, lands)
  {
    if calls < 2 {
      BreakMarking(s, fate, calls, lands);
    } else if fate.Delivered? {
      BreakConfirming(s, fate, calls, lands);
    } else {
      BreakFailing(s, fate, calls, lands);
    }
  }

  function BrokenState(s: State, fate: Fate, calls: nat, lands: bool): State
    requires s.phase.Choosing? && s.phase.id in s.tables.outbox
  {
    var id := s.phase.id;
    State(SetMessage(s.tables, id, BrokenAt(s.tables.outbox[id], fate, calls, lands)), Idle,
          s.handed + if calls >= 2 && fate.Taken() then [id] else [])
  }

  lemma {:induction false} BreakMarking(s: State, fate: Fate, calls: nat, lands: bool)
    requires s.phase.Choosing? && s.phase.id in s.tables.outbox && calls < 2
    ensures Moves(s, BreakEvents(fate, calls, lands)) == BrokenState(s, fate, calls, lands)
  {
    MovesTwo(s, MarkFault(calls == 1 && lands, ""), FailFault(false));
    assert s.tables.outbox[s.phase.id := s.tables.outbox[s.phase.id]] == s.tables.outbox;
    assert s.handed + [] == s.handed;
  }

  lemma {:induction false} BreakConfirming(s: State, fate: Fate, calls: nat, lands: bool)
    requires s.phase.Choosing? && s.phase.id in s.tables.outbox && calls >= 2 && fate.Delivered?
    ensures Moves(s, BreakEvents(fate, calls, lands)) == BrokenState(s, fate, calls, lands)
  {
    var begin, end := [Mark, HandOff(fate)], [ConfirmFault(calls >= 3 && lands, ""), FailFault(false)];
    MovesTwo(s, begin[0], begin[1]);
    MovesTwo(Moves(s, begin), end[0], end[1]);
    MovesJoin(s, begin, end);
    assert BreakEvents(fate, calls, lands) == begin + end;
  }

  lemma {:induction false} BreakFailing(s: State, fate: Fate, calls: nat, lands: bool)
    requires s.phase.Choosing? && s.phase.id in s.tables.outbox && calls >= 2 && !fate.Delivered?
    ensures Moves(s, BreakEvents(fate, calls, lands)) == BrokenState(s, fate, calls, lands)
  {
    var begin := [Mark, HandOff(fate)];
    MovesTwo(s, begin[0], begin[1]);
    assert BreakEvents(fate, calls, lands)[..2] == begin;
  }

  lemma {:induction false} MovesTwo(s: State, a: Event, b: Event)
    ensures Moves(s, [a, b]) == Move(Move(s, a), b)
  {
    assert [a, b][..1] == [a];
    assert Moves(s, [a]) == Move(s, a);
  }

  // The state after a pass that broke off.
  function BrokenOff(s: State, batch: seq<Uuid>, fates: Fates, calls: nat, lands: bool): State
    requires Known(s.tables.outbox, batch)
  {
    State(s.tables.(outbox := BrokenPass(s.tables.outbox, batch, fates, calls, lands)), Idle,
          s.handed + BrokenHandOffs(batch, fates, calls))
  }

  // And so is a pass whose connection breaks after any number of calls: what holds of every run of the
  // machine holds of the publisher's method, whole or broken.
  lemma {:induction false} BrokenPassIsMoves(s: State, batch: seq<Uuid>, fates: Fates, calls: nat, lands: bool)
    returns (events: seq<Event>)
    requires s.phase.Idle? && IsBatch(s.tables.outbox, batch) && Known(s.tables.outbox, batch)
    ensures Moves(s, events) == BrokenOff(s, batch, fates, calls, lands)
  {
    var n := ClosedBy(batch, calls);
    events := PassEvents(batch, fates, n);
    PassIsMoves(s, batch, fates, n);
    if n < |batch| {
      BreakNth(s, batch, fates, calls, lands);
      MovesJoin(s, events, BreakEvents(fates(batch[n]), calls % 4, lands));
      events := events + BreakEvents(fates(batch[n]), calls % 4, lands);
    } else {
      WholePass(s.tables.outbox, batch, fates, calls, lands);
      assert batch[..|batch|] == batch;
    }
  }

  lemma {:induction false} BreakNth(s: State, batch: seq<Uuid>, fates: Fates, calls: nat, lands: bool)
    requires Known(s.tables.outbox, batch) && calls / 4 < |batch|
    ensures var n := calls / 4;
            Moves(PassState(s.tables, s.handed, batch, fates, n), BreakEvents(fates(batch[n]), calls % 4, lands))
            == BrokenOff(s, batch, fates, calls, lands)
  {
    var n := calls / 4;
    BreakOne(PassState(s.tables, s.handed, batch, fates, n), fates(batch[n]), calls % 4, lands);
    BreakAt(s.tables.outbox, batch, n, fates, calls, lands);
  }

  // The state after a poll.
  function Polled(s: State, poll: Poll): State
    requires Known(s.tables.outbox, poll.batch)
  {
    State(s.tables.(outbox := poll.Outbox(s.tables.outbox)), Idle, s.handed + poll.HandOffs())
  }

  lemma {:induction false} QueryFails(s: State, poll: Poll)
    requires s.phase.Idle? && Known(s.tables.outbox, poll.batch) && poll.calls == 0
    ensures Moves(s, []) == Polled(s, poll)
  {
    assert s.handed + [] == s.handed;
  }

  lemma {:induction false} PollBreaks(s: State, poll: Poll)
    requires Known(s.tables.outbox, poll.batch) && poll.calls > 0
    ensures Polled(s, poll) == BrokenOff(s, poll.batch, poll.fates, poll.calls - 1, poll.lands)
  {
  }

  lemma {:induction false} QueriedIsMoves(s: State, batch: seq<Uuid>, fates: Fates, calls: nat, lands: bool)
    returns (events: seq<Event>)
    requires s.phase.Idle? && IsBatch(s.tables.outbox, batch) && Known(s.tables.outbox, batch)
    ensures Moves(s, events) == Polled(s, Poll(batch, fates, calls + 1, lands))
  {
    PollBreaks(s, Poll(batch, fates, calls + 1, lands));
    events := BrokenPassIsMoves(s, batch, fates, calls, lands);
  }

  lemma {:induction false} PollIsMoves(s: State, poll: Poll) returns (events: seq<Event>)
    requires s.phase.Idle? && IsBatch(s.tables.outbox, poll.batch) && Known(s.tables.outbox, poll.batch)
    ensures Moves(s, events) == Polled(s, poll)
  {
    match poll
    case Poll(batch, fates, calls, lands) =>
      if calls == 0 {
        events := [];
        QueryFails(s, poll);
      } else {
        var before: nat := calls - 1;
        assert poll == Poll(batch, fates, before + 1, lands);
        events := QueriedIsMoves(s, batch, fates, before, lands);
      }
  }

  // The first poll of several, with what the others start from.
  lemma {:induction false} FirstIsMoves(s: State, polls: seq<Poll>) returns (events: seq<Event>)
    requires s.phase.Idle? && polls != [] && Polls(s.tables.outbox, polls)
    ensures var u := Moves(s, events);
            && u.phase.Idle? && u.tables == s.tables.(outbox := u.tables.outbox)
            && Polls(u.tables.outbox, polls[1..])
            && AfterPolls(u.tables.outbox, polls[1..]) == AfterPolls(s.tables.outbox, polls)
            && u.handed + AllHandOffs(polls[1..]) == s.handed + AllHandOffs(polls)
  {
    FirstPoll(s.tables.outbox, polls);
    FirstHandOffs(s.handed, polls);
    events := PollIsMoves(s, polls[0]);
  }

  // The whole polling loop, whatever passes break, is one run of the machine.
  lemma {:induction false} PollsAreMoves(s: State, polls: seq<Poll>) returns (events: seq<Event>)
    requires s.phase.Idle? && Polls(s.tables.outbox, polls)
    ensures Moves(s, events)
         == State(s.tables.(outbox := AfterPolls(s.tables.outbox, polls)), Idle, s.handed + AllHandOffs(polls))
    decreases |polls|
  {
    if polls == [] {
      events := [];
    } else {
      var first := FirstIsMoves(s, polls);
      var rest := PollsAreMoves(Moves(s, first), polls[1..]);
      MovesJoin(s, first, rest);
      events := first + rest;
    }
  }

  // So the loop hands over each message at most once and never one it handed over before,
  // however its passes break.
  lemma {:induction false} LoopHandsOverAtMostOnce(s: State, polls: seq<Poll>)
    requires Orderly(s) && s.phase.Idle? && Polls(s.tables.outbox, polls)
    ensures Distinct(s.handed + AllHandOffs(polls))
    ensures OrderlyOutbox(AfterPolls(s.tables.outbox, polls), s.handed + AllHandOffs(polls))
  {
    var events := PollsAreMoves(s, polls);
    MovesKeepOrderly(s, events);
  }
}
