// Which messages the broker may still get, and exactly which events lose one.
module Stranding {
  import opened Entities
  import opened Queries
  import opened Publisher
  import opened PublisherRuns
  import opened Draining

  type Event = PublisherRuns.Event

  // The message left PENDING without reaching the broker, and is not about to be handed over.
  ghost predicate Lost(s: State, i: Uuid) {
    && i in s.tables.outbox && !s.tables.outbox[i].status.Pending? && i !in s.handed
    && !(s.phase.Handing? && s.phase.id == i)
  }

  lemma {:induction false} MoveKeepsLost(s: State, e: Event, i: Uuid)
    requires Orderly(s) && Lost(s, i)
    ensures Lost(Move(s, e), i)
  {
    if e.Other? && !e.action.Update? {
      OtherAdds(s.tables, e.action);
    }
  }

  lemma {:induction false} LostForever(s: State, events: seq<Event>, i: Uuid)
    requires Orderly(s) && Lost(s, i)
    ensures Orderly(Moves(s, events)) && Lost(Moves(s, events), i)
  {
    if events != [] {
      var before := events[..|events| - 1];
      LostForever(s, before, i);
      MoveKeepsOrderly(Moves(s, before), events[|events| - 1]);
      MoveKeepsLost(Moves(s, before), events[|events| - 1], i);
    }
  }

  // ----- what can still reach the broker

  function AllDelivered(): Fates {
    i => Delivered
  }

  // Passes without faults hand over every pending message in the end.
  lemma {:induction false} PendingReaches(s: State, i: Uuid) returns (events: seq<Event>)
    requires s.phase.Idle? && i in Waiting(s.tables.outbox)
    ensures i in Moves(s, events).handed
    decreases |Waiting(s.tables.outbox)|
  {
    var fates := AllDelivered();
    var batch := AnswerExists(Waiting(s.tables.outbox), BATCH);
    var pass := PassEvents(batch, fates, |batch|);
    PassIsMoves(s, batch, fates, |batch|);
    assert batch[..|batch|] == batch && batch[|batch|..] == [];
    HandedOverMembers(batch, fates);
    if i in batch {
      events := pass;
    } else {
      PassWaiting(s.tables.outbox, batch, fates);
      var rest := PendingReaches(Moves(s, pass), i);
      MovesJoin(s, pass, rest);
      events := pass + rest;
    }
  }

  lemma {:induction false} HandOffReaches(s: State) returns (events: seq<Event>)
    requires s.phase.Handing?
    ensures s.phase.id in Moves(s, events).handed
  {
    events := [HandOff(Delivered)];
    assert Moves(s, []) == s && events[..0] == [];
  }

  // In every state a message the broker has not got can still reach it, by some course of events, exactly
  // if it is PENDING or about to be handed over.
  lemma {:induction false} ReachesBrokerIff(s: State, i: Uuid)
    requires Orderly(s) && i in s.tables.outbox && i !in s.handed
    ensures (exists events :: i in Moves(s, events).handed)
        <==> s.tables.outbox[i].status.Pending? || (s.phase.Handing? && s.phase.id == i)
  {
    if s.tables.outbox[i].status.Pending? {
      var rest := PendingReaches(Move(s, Crash), i);
      AfterCrash(s, rest);
      assert i in Moves(s, [Crash] + rest).handed;
    } else if s.phase.Handing? && s.phase.id == i {
      var events := HandOffReaches(s);
    } else {
      forall events ensures i !in Moves(s, events).handed {
        LostForever(s, events, i);
      }
    }
  }

  lemma {:induction false} AfterCrash(s: State, rest: seq<Event>)
    ensures Moves(s, [Crash] + rest) == Moves(Move(s, Crash), rest)
  {
    MovesJoin(s, [Crash], rest);
    assert Moves(s, []) == s;
    assert Moves(s, [Crash]) == Move(s, Crash);
  }

  // Whatever the process had in hand when it crashed or left its pass, a message it had not handed over is
  // handed over at some later time exactly if it is still PENDING.
  lemma {:induction false} CrashStrandsIff(s: State, i: Uuid)
    requires Orderly(s) && i in s.tables.outbox && i !in s.handed
    ensures (exists events :: i in Moves(Move(s, Crash), events).handed) <==> s.tables.outbox[i].status.Pending?
  {
    MoveKeepsOrderly(s, Crash);
    ReachesBrokerIff(Move(s, Crash), i);
  }

  // ----- what loses a message

  // The events that lose the message in hand: the PROCESSING commit raises and lands, the process crashes
  // before the hand-off, the broker refuses it, or it is marked FAILED without having been tried.
  predicate Loses(s: State, e: Event, i: Uuid) {
    && !s.phase.Idle? && s.phase.id == i
    && match (e, s.phase)
       case (MarkFault(committed, _), Choosing(_, _)) => committed
       case (Crash, Handing(_, _)) => true
       case (HandOff(fate), Handing(_, _)) => fate.Refused?
       case (Fail, Failing(_, _, _)) => true
       case (FailFault(committed), Failing(_, _, _)) => committed
       case _ => false
  }

  // A message that can still reach the broker is lost for good by exactly these events.
  lemma {:induction false} LostIff(s: State, e: Event, i: Uuid)
    requires Orderly(s) && i in s.tables.outbox && i !in s.handed && !Lost(s, i)
    ensures Lost(Move(s, e), i) <==> Loses(s, e, i)
  {
    if e.Other? && !e.action.Update? {
      OtherAdds(s.tables, e.action);
    }
  }

  // A crash between the PROCESSING commit and the hand-off: whatever follows, the message stays in
  // PROCESSING and the broker never gets it.
  lemma {:induction false} CrashStrands(s: State, events: seq<Event>)
    requires Orderly(s) && s.phase.Handing?
    ensures var u := Moves(Move(s, Crash), events);
            && s.phase.id in u.tables.outbox && u.tables.outbox[s.phase.id].status.Publishing?
            && s.phase.id !in u.handed
  {
    MoveKeepsOrderly(s, Crash);
    LeftForever(Move(s, Crash), events, s.phase.id);
  }

  // The same without a crash: the PROCESSING commit lands although it raises, and the handler breaks too.
  lemma {:induction false} LandedMarkStrands(s: State, error: string, events: seq<Event>)
    requires Orderly(s) && s.phase.Choosing?
    ensures var u := Moves(Move(Move(s, MarkFault(true, error)), FailFault(false)), events);
            && s.phase.id in u.tables.outbox && u.tables.outbox[s.phase.id].status.Publishing?
            && s.phase.id !in u.handed
  {
    MoveKeepsOrderly(s, MarkFault(true, error));
    MoveKeepsOrderly(Move(s, MarkFault(true, error)), FailFault(false));
    LeftForever(Move(Move(s, MarkFault(true, error)), FailFault(false)), events, s.phase.id);
  }

  // This event raises inside the try block with this text.
  predicate Raises(phase: Phase, e: Event, error: string) {
    match (phase, e)
    case (Choosing(_, _), MarkFault(_, text)) => text == error
    case (Handing(_, _), HandOff(fate)) => fate == Refused(error) || fate == Unconfirmed(error)
    case (Confirming(_, _), ConfirmFault(_, text)) => text == error
    case _ => false
  }

  // Wherever the try block raises, the handler closes the message in hand as FAILED with that text and one
  // retry counted, whether or not it was handed over, and the pass goes on with the rest of its batch.
  lemma {:induction false} HandlerMarksFailed(s: State, e: Event, error: string)
    requires Orderly(s) && Raises(s.phase, e, error)
    ensures s.phase.id in s.tables.outbox
    ensures var i, u := s.phase.id, Move(Move(s, e), Fail);
            && u.tables == s.tables.(outbox := s.tables.outbox[i :=
                 s.tables.outbox[i].(status := Dead, retryCount := 1, errorMessage := Some(error))])
            && u.phase == if s.phase.rest == [] then Idle else Choosing(s.phase.rest[0], s.phase.rest[1..])
  {
    var i, m := s.phase.id, s.tables.outbox[s.phase.id];
    assert OrderlyMessage(m, i in s.handed);
    var row, t := m.(status := Dead, retryCount := 1, errorMessage := Some(error)), Move(s, e).tables;
    assert t.outbox[i].(status := Dead, retryCount := 1, errorMessage := Some(error)) == row;
    assert t.outbox[i := row] == s.tables.outbox[i := row];
  }

  // ----- what a pass of the polling loop loses

  // With this many calls after the query, the n-th message of the batch is reached and refused, or it is
  // the one in hand and its PROCESSING commit landed although it broke.
  predicate PassLoses(batch: seq<Uuid>, fates: Fates, calls: nat, lands: bool, n: nat)
    requires n < |batch|
  {
    var closed := ClosedBy(batch, calls);
    || (fates(batch[n]).Refused? && (n < closed || (n == closed && calls % 4 >= 2)))
    || (n == closed && calls % 4 == 1 && lands)
  }

  lemma {:induction false} PassLosesIff(t: Tables, handed: seq<Uuid>, batch: seq<Uuid>, fates: Fates, calls: nat,
                                        lands: bool, n: nat)
    requires Distinct(batch) && Known(t.outbox, batch) && n < |batch|
    requires t.outbox[batch[n]].status.Pending? && batch[n] !in handed
    ensures var u := BrokenOff(State(t, Idle, handed), batch, fates, calls, lands);
            Lost(u, batch[n]) <==> PassLoses(batch, fates, calls, lands, n)
  {
    var id, closed := batch[n], ClosedBy(batch, calls);
    HandedOverMembers(batch[..closed], fates);
    assert id in batch[..closed] <==> n < closed;
  }

  lemma {:induction false} PollLosesAt(s: State, poll: Poll, n: nat)
    requires s.phase.Idle? && Distinct(poll.batch) && Known(s.tables.outbox, poll.batch) && n < |poll.batch|
    requires s.tables.outbox[poll.batch[n]].status.Pending? && poll.batch[n] !in s.handed
    ensures Lost(Polled(s, poll), poll.batch[n])
        <==> poll.calls > 0 && PassLoses(poll.batch, poll.fates, poll.calls - 1, poll.lands, n)
  {
    if poll.calls > 0 {
      PassLosesIff(s.tables, s.handed, poll.batch, poll.fates, poll.calls - 1, poll.lands, n);
      PollBreaks(s, poll);
    }
  }

  // Exactly which messages of its batch a poll loses, for every way its connection may fare.
  lemma {:induction false} PollLosesIff(s: State, poll: Poll, n: nat)
    requires Orderly(s) && s.phase.Idle? && IsBatch(s.tables.outbox, poll.batch) && n < |poll.batch|
    ensures Known(s.tables.outbox, poll.batch)
    ensures Lost(Polled(s, poll), poll.batch[n])
        <==> poll.calls > 0 && PassLoses(poll.batch, poll.fates, poll.calls - 1, poll.lands, n)
  {
    BatchWaits(s.tables.outbox, poll.batch);
    assert poll.batch[n] in Waiting(s.tables.outbox);
    PollLosesAt(s, poll, n);
  }
}
