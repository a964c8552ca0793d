// The outbox publisher: one pass over the oldest pending messages, and passes repeated until
// nothing is pending.
module Publisher {
  import opened Entities
  import opened Transactions
  import opened Queries
  import opened Sessions
  import opened Repositories

  const BATCH: nat := 100

  // What handing a message to the broker comes to. Unconfirmed: the broker took it, yet publish raised.
  datatype Fate = Delivered | Refused(error: string) | Unconfirmed(error: string) {
    predicate Taken() {
      !Refused?
    }
  }

  type Fates = Uuid -> Fate

  // The pending messages, the oldest ranked highest.
  function Waiting(outbox: map<Uuid, Message>): map<Uuid, int> {
    map i | i in outbox && outbox[i].status.Pending? :: -outbox[i].createdAt
  }

  // A possible answer to the query for pending messages.
  ghost predicate IsBatch(outbox: map<Uuid, Message>, batch: seq<Uuid>) {
    Answers(Waiting(outbox), BATCH, batch)
  }

  // A message after it was picked and published.
  function Closed(m: Message, fate: Fate): Message {
    match fate
    case Delivered => MarkSent(MarkPublishing(m))
    case Refused(error) => MarkFailed(MarkPublishing(m), error)
    case Unconfirmed(error) => MarkFailed(MarkPublishing(m), error)
  }

  // The outbox after a pass over these messages.
  function AfterPass(outbox: map<Uuid, Message>, batch: seq<Uuid>, fates: Fates): map<Uuid, Message> {
    map i | i in outbox :: if i in batch then Closed(outbox[i], fates(i)) else outbox[i]
  }

  // The ids that reach the broker, in order.
  function HandedOver(batch: seq<Uuid>, fates: Fates): seq<Uuid> {
    if batch == [] then []
    else
      var before, last := batch[..|batch| - 1], batch[|batch| - 1];
      HandedOver(before, fates) + if fates(last).Taken() then [last] else []
  }

  // The batches that successive passes may take.
  ghost predicate Passes(outbox: map<Uuid, Message>, batches: seq<seq<Uuid>>, fates: Fates)
    decreases |batches|
  {
    batches == []
    || (IsBatch(outbox, batches[0]) && Passes(AfterPass(outbox, batches[0], fates), batches[1..], fates))
  }

  function AfterPasses(outbox: map<Uuid, Message>, batches: seq<seq<Uuid>>, fates: Fates): map<Uuid, Message>
    decreases |batches|
  {
    if batches == [] then outbox else AfterPasses(AfterPass(outbox, batches[0], fates), batches[1..], fates)
  }

  function Flatten(batches: seq<seq<Uuid>>): seq<Uuid>
    decreases |batches|
  {
    if batches == [] then [] else batches[0] + Flatten(batches[1..])
  }

  // How many messages of the batch a pass closes when the connection breaks after this many calls:
  // marking and closing a message take two calls each.
  function ClosedBy(batch: seq<Uuid>, calls: nat): (n: nat)
    ensures n <= |batch|
  {
    if calls / 4 < |batch| then calls / 4 else |batch|
  }

  // The message in hand when the connection breaks after this many of its four calls. The second and
  // the fourth are commits, which may land although they raise.
  function BrokenAt(m: Message, fate: Fate, calls: nat, lands: bool): Message {
    if calls >= 3 && lands then Closed(m, fate)
    else if calls >= 2 || (calls == 1 && lands) then MarkPublishing(m)
    else m
  }

  // The outbox after a pass whose connection breaks after this many calls.
  function BrokenPass(outbox: map<Uuid, Message>, batch: seq<Uuid>, fates: Fates, calls: nat,
                      lands: bool): map<Uuid, Message>
    requires forall i :: i in batch ==> i in outbox
  {
    var n := ClosedBy(batch, calls);
    var closed := AfterPass(outbox, batch[..n], fates);
    if n < |batch| then closed[batch[n] := BrokenAt(closed[batch[n]], fates(batch[n]), calls % 4, lands)] else closed
  }

  // What such a pass hands over.
  function BrokenHandOffs(batch: seq<Uuid>, fates: Fates, calls: nat): seq<Uuid> {
    var n := ClosedBy(batch, calls);
    HandedOver(batch[..n], fates)
    + if n < |batch| && calls % 4 >= 2 && fates(batch[n]).Taken() then [batch[n]] else []
  }

  // One pass: the answer to its query, the fates of the messages, and how its connection fares.
  datatype Poll = Poll(batch: seq<Uuid>, fates: Fates, calls: nat, lands: bool) {
    // The first call is the query.
    function Outbox(outbox: map<Uuid, Message>): map<Uuid, Message>
      requires forall i :: i in batch ==> i in outbox
    {
      if calls == 0 then outbox else BrokenPass(outbox, batch, fates, calls - 1, lands)
    }

    function HandOffs(): seq<Uuid> {
      if calls == 0 then [] else BrokenHandOffs(batch, fates, calls - 1)
    }
  }

  // Polls whose batches the database may answer in turn, when nothing else writes to the outbox.
  ghost predicate Polls(outbox: map<Uuid, Message>, polls: seq<Poll>)
    decreases |polls|
  {
    polls == []
    || (IsBatch(outbox, polls[0].batch) && Known(outbox, polls[0].batch) && Polls(polls[0].Outbox(outbox), polls[1..]))
  }

  predicate Known(outbox: map<Uuid, Message>, batch: seq<Uuid>) {
    forall i :: i in batch ==> i in outbox
  }

  ghost function AfterPolls(outbox: map<Uuid, Message>, polls: seq<Poll>): map<Uuid, Message>
    requires Polls(outbox, polls)
    decreases |polls|
  {
    if polls == [] then outbox else AfterPolls(polls[0].Outbox(outbox), polls[1..])
  }

  function AllHandOffs(polls: seq<Poll>): seq<Uuid>
    decreases |polls|
  {
    if polls == [] then [] else polls[0].HandOffs() + AllHandOffs(polls[1..])
  }

  class Producer {
    var handed: seq<Uuid>  // the messages the broker got, in order

    constructor ()
      ensures handed == []
    {
      handed := [];
    }

    method Publish(id: Uuid, fate: Fate) returns (o: Outcome<()>)
      modifies this
      ensures handed == old(handed) + if fate.Taken() then [id] else []
      ensures o == if fate.Delivered? then Returned(()) else Raised(PublishFailed)
    {
      if fate.Taken() {
        handed := handed + [id];
      }
      if !fate.Delivered? {
        return Raised(PublishFailed);
      }
      return Returned(());
    }
  }

  class OutboxPublisher {
    const db: Database
    const producer: Producer

    constructor (db: Database, producer: Producer)
      ensures this.db == db && this.producer == producer
    {
      this.db := db;
      this.producer := producer;
    }

    // One pass; batch is what the database answers to the query. The messages it reaches before the
    // connection breaks are closed in order, each by what publishing it came to.
    method ProcessPendingMessages(poll: Poll) returns (o: Outcome<()>)
      requires db.tables.ProviderIdsUnique() && IsBatch(db.tables.outbox, poll.batch)
      modifies db, producer
      ensures Known(old(db.tables).outbox, poll.batch)
      ensures o == if poll.calls > 4 * |poll.batch| then Returned(()) else Raised(DatabaseFault)
      ensures db.tables == old(db.tables).(outbox := poll.Outbox(old(db.tables).outbox))
      ensures producer.handed == old(producer.handed) + poll.HandOffs()
    {
      BatchWaits(db.tables.outbox, poll.batch);
      o := PublishBatch(poll.batch, poll.fates, poll.calls, poll.lands);
    }

    method PublishBatch(batch: seq<Uuid>, fates: Fates, calls: nat, lands: bool) returns (o: Outcome<()>)
      requires db.tables.ProviderIdsUnique() && Distinct(batch) && Known(db.tables.outbox, batch)
      modifies db, producer
      ensures calls == 0 ==>
          o == Raised(DatabaseFault) && db.tables == old(db.tables) && producer.handed == old(producer.handed)
      ensures calls > 0 ==>
                && o == (if calls > 4 * |batch| then Returned(()) else Raised(DatabaseFault))
                && db.tables
                  == old(db.tables).(outbox := BrokenPass(old(db.tables).outbox, batch, fates, calls - 1, lands))
                && producer.handed == old(producer.handed) + BrokenHandOffs(batch, fates, calls - 1)
    {
      var session := new Session(db, calls, lands);
      var outbox := new OutboxRepository(session);
      var _ :- session.Query();
      o := CloseAll(session, outbox, batch, fates);
    }

    // The polling loop until stop: a pass that raises is logged, and the next one follows.
    method Start(polls: seq<Poll>)
      requires db.tables.ProviderIdsUnique() && Polls(db.tables.outbox, polls)
      modifies db, producer
      ensures db.tables == old(db.tables).(outbox := AfterPolls(old(db.tables).outbox, polls))
      ensures producer.handed == old(producer.handed) + AllHandOffs(polls)
    {
      ghost var t, last := db.tables, AfterPolls(db.tables.outbox, polls);
      ghost var all := producer.handed + AllHandOffs(polls);
      var rest := polls;
      while rest != []
        invariant db.tables.payments == t.payments && db.tables.balances == t.balances
        invariant Ahead(db.tables.outbox, producer.handed, rest, last, all)
      {
        NextPoll(db.tables.outbox, producer.handed, rest, last, all);
        var _ := ProcessPendingMessages(rest[0]);
        rest := rest[1..];
      }
    }

    // The loop over the batch.
    method CloseAll(session: Session, outbox: OutboxRepository, batch: seq<Uuid>, fates: Fates) returns (o: Outcome<()>)
      requires Level(session, outbox) && Distinct(batch) && Known(db.tables.outbox, batch)
      modifies session`view, session`calls, db, producer
      ensures o == if old(session.calls) >= 4 * |batch| then Returned(()) else Raised(DatabaseFault)
      ensures db.tables
          == old(db.tables).(outbox := BrokenPass(old(db.tables).outbox, batch, fates, old(session.calls),
            session.lands))
      ensures producer.handed == old(producer.handed) + BrokenHandOffs(batch, fates, old(session.calls))
    {
      ghost var t, sent, calls := db.tables, producer.handed, session.calls;
      assert AfterPass(t.outbox, batch[..0], fates) == t.outbox;
      for n := 0 to |batch|
        invariant Level(session, outbox) && session.calls + 4 * n == calls
        invariant db.tables == t.(outbox := AfterPass(t.outbox, batch[..n], fates))
        invariant producer.handed == sent + HandedOver(batch[..n], fates)
      {
        var _ :- CloseNth(session, outbox, batch, n, fates, t, sent, calls);
      }
      WholePass(t.outbox, batch, fates, calls, session.lands);
      assert batch[..|batch|] == batch;
      return Returned(());
    }

    // One turn of the loop, in terms of the whole pass.
    method CloseNth(session: Session, outbox: OutboxRepository, batch: seq<Uuid>, n: nat, fates: Fates,
                    ghost t: Tables, ghost sent: seq<Uuid>, ghost calls: nat)
      returns (o: Outcome<()>)
      requires Level(session, outbox) && session.calls + 4 * n == calls
      requires n < |batch| && Distinct(batch) && Known(t.outbox, batch)
      requires db.tables == t.(outbox := AfterPass(t.outbox, batch[..n], fates))
      requires producer.handed == sent + HandedOver(batch[..n], fates)
      modifies session`view, session`calls, db, producer
      ensures o == if calls >= 4 * (n + 1) then Returned(()) else Raised(DatabaseFault)
      ensures o.Returned? ==>
                && Level(session, outbox) && session.calls + 4 * (n + 1) == calls
                && db.tables == t.(outbox := AfterPass(t.outbox, batch[..n + 1], fates))
                && producer.handed == sent + HandedOver(batch[..n + 1], fates)
      ensures o.Raised? ==>
                && db.tables == t.(outbox := BrokenPass(t.outbox, batch, fates, calls, session.lands))
                && producer.handed == sent + BrokenHandOffs(batch, fates, calls)
    {
      if session.calls < 4 {
        BreakAt(t.outbox, batch, n, fates, calls, session.lands);
      } else {
        CloseNext(t.outbox, batch, n, fates);
      }
      o := Close(session, outbox, batch[n], fates(batch[n]));
    }

    // The loop body: try to publish, and on any exception mark the message as failed. A broken connection
    // leaves the message alone or marked and perhaps published.
    method Close(session: Session, outbox: OutboxRepository, id: Uuid, fate: Fate) returns (o: Outcome<()>)
      requires Level(session, outbox) && id in db.tables.outbox
      modifies session`view, session`calls, db, producer
      ensures var m, calls := old(db.tables).outbox[id], old(session.calls);
              && o == (if calls >= 4 then Returned(()) else Raised(DatabaseFault))
              && db.tables == SetMessage(old(db.tables), id,
                   if calls >= 4 then Closed(m, fate) else BrokenAt(m, fate, calls, session.lands))
              && producer.handed == old(producer.handed) + if calls >= 2 && fate.Taken() then [id] else []
      ensures o.Returned? ==> Level(session, outbox) && session.calls == old(session.calls) - 4
    {
      var tried := TryPublish(session, outbox, id, fate);
      if tried.Raised? {
        var error := if fate.Delivered? then "" else fate.error;
        var _ :- MarkAndCommit(session, outbox, id, m => MarkFailed(m, error));
      }
      return Returned(());
    }

    method TryPublish(session: Session, outbox: OutboxRepository, id: Uuid, fate: Fate) returns (o: Outcome<()>)
      requires Level(session, outbox) && id in db.tables.outbox
      modifies session`view, session`calls, db, producer
      ensures Usable(session, outbox, id)
      ensures var m, calls := old(db.tables).outbox[id], old(session.calls);
              && o == Tried(fate, calls)
              && db.tables == SetMessage(old(db.tables), id,
                   if o.Returned? then Closed(m, fate)
                   else if o == Raised(DatabaseFault) then BrokenAt(m, fate, calls, session.lands)
                   else MarkPublishing(m))
              && producer.handed == old(producer.handed) + if calls >= 2 && fate.Taken() then [id] else []
      ensures o == Raised(DatabaseFault) ==> session.calls == 0
      ensures o != Raised(DatabaseFault) ==>
                Level(session, outbox) && session.calls == old(session.calls) - if fate.Delivered? then 4 else 2
    {
      ghost var t := db.tables;
      var _ :- MarkAndCommit(session, outbox, id, m => MarkPublishing(m));
      assert db.tables == SetMessage(t, id, MarkPublishing(t.outbox[id]));
      o := HandOver(session, outbox, id, fate);
    }

    // publish, and mark_as_sent if it returned.
    method HandOver(session: Session, outbox: OutboxRepository, id: Uuid, fate: Fate) returns (o: Outcome<()>)
      requires Level(session, outbox) && id in db.tables.outbox
      modifies session`view, session`calls, db, producer
      ensures Usable(session, outbox, id)
      ensures var m, calls := old(db.tables).outbox[id], old(session.calls);
              && o == (if !fate.Delivered? then Raised(PublishFailed)
                       else if calls < 2 then Raised(DatabaseFault) else Returned(()))
              && db.tables == (if fate.Delivered? && (calls >= 2 || (calls == 1 && session.lands))
                               then SetMessage(old(db.tables), id, MarkSent(m)) else old(db.tables))
              && producer.handed == old(producer.handed) + if fate.Taken() then [id] else []
      ensures o == Raised(DatabaseFault) ==> session.calls == 0
      ensures o != Raised(DatabaseFault) ==>
                Level(session, outbox) && session.calls == old(session.calls) - if fate.Delivered? then 2 else 0
    {
      var _ :- producer.Publish(id, fate);
      var _ :- MarkAndCommit(session, outbox, id, m => MarkSent(m));
      return Returned(());
    }

    // How the attempt ends when this many calls succeed.
    static function Tried(fate: Fate, calls: nat): Outcome<()> {
      if calls < 2 then Raised(DatabaseFault)
      else if !fate.Delivered? then Raised(PublishFailed)
      else if calls < 4 then Raised(DatabaseFault)
      else Returned(())
    }

    // mark_as_... followed by a commit.
    method MarkAndCommit(session: Session, outbox: OutboxRepository, id: Uuid, change: Message -> Message)
      returns (o: Outcome<()>)
      requires Usable(session, outbox, id)
      modifies session`view, session`calls, db
      ensures Usable(session, outbox, id)
      ensures if old(session.calls) < 2 then
                && o == Raised(DatabaseFault) && session.calls == 0
                && db.tables == if old(session.calls) == 1 && session.lands then
                     SetMessage(old(session.Pending()), id, change(old(session.Pending()).outbox[id]))
                   else old(db.tables)
              else
                && o == Returned(()) && session.calls == old(session.calls) - 2 && Level(session, outbox)
                && db.tables == SetMessage(old(session.Pending()), id, change(old(session.Pending()).outbox[id]))
    {
      var _ :- outbox.UpdateById(id, change);
      var _ :- session.Commit();
      return Returned(());
    }

    // The session can still work on this message.
    ghost predicate Usable(session: Session, outbox: OutboxRepository, id: Uuid)
      reads session, session.Footprint(), outbox
    {
      && session.Valid() && session.db == db && outbox.session == session
      && session.Pending().ProviderIdsUnique() && id in session.Pending().outbox
    }

    // The session is level with the committed tables.
    ghost predicate Level(session: Session, outbox: OutboxRepository)
      reads this, session, session.Footprint(), outbox, db
    {
      && session.Valid() && session.db == db && outbox.session == session
      && session.Pending() == db.tables && db.tables.ProviderIdsUnique()
    }
  }

  lemma {:induction false} BatchWaits(outbox: map<Uuid, Message>, batch: seq<Uuid>)
    requires IsBatch(outbox, batch)
    ensures Distinct(batch) && Known(outbox, batch)
  {
    assert forall i :: i in batch ==> i in Waiting(outbox);
  }

  // Closing the next message of a batch extends the pass by it.
  lemma {:induction false} CloseNext(outbox: map<Uuid, Message>, batch: seq<Uuid>, n: nat, fates: Fates)
    requires Distinct(batch) && n < |batch| && batch[n] in outbox
    ensures var id := batch[n];
            && AfterPass(outbox, batch[..n], fates)[id := Closed(AfterPass(outbox, batch[..n], fates)[id], fates(id))]
               == AfterPass(outbox, batch[..n + 1], fates)
            && HandedOver(batch[..n + 1], fates)
               == HandedOver(batch[..n], fates) + if fates(id).Taken() then [id] else []
  {
    var id := batch[n];
    assert batch[..n + 1] == batch[..n] + [id];
    assert batch[..n + 1][..n] == batch[..n];
    assert id !in batch[..n];
  }

  lemma {:induction false} HandedOverJoin(a: seq<Uuid>, b: seq<Uuid>, fates: Fates)
    ensures HandedOver(a + b, fates) == HandedOver(a, fates) + HandedOver(b, fates)
    decreases |b|
  {
    if b == [] {
      assert a + b == a;
    } else {
      var before, last := b[..|b| - 1], b[|b| - 1];
      assert (a + b)[..|a + b| - 1] == a + before;
      HandedOverJoin(a, before, fates);
    }
  }

  // The polls still to come lead to these messages and these hand-offs.
  ghost predicate Ahead(outbox: map<Uuid, Message>, handed: seq<Uuid>, polls: seq<Poll>, last: map<Uuid, Message>,
                        all: seq<Uuid>)
  {
    Polls(outbox, polls) && AfterPolls(outbox, polls) == last && handed + AllHandOffs(polls) == all
  }

  lemma {:induction false} FirstPoll(outbox: map<Uuid, Message>, polls: seq<Poll>)
    requires polls != [] && Polls(outbox, polls)
    ensures IsBatch(outbox, polls[0].batch) && Known(outbox, polls[0].batch)
    ensures Polls(polls[0].Outbox(outbox), polls[1..])
    ensures AfterPolls(outbox, polls) == AfterPolls(polls[0].Outbox(outbox), polls[1..])
  {
  }

  lemma {:induction false} FirstHandOffs(handed: seq<Uuid>, polls: seq<Poll>)
    requires polls != []
    ensures handed + AllHandOffs(polls) == (handed + polls[0].HandOffs()) + AllHandOffs(polls[1..])
  {
  }

  lemma {:induction false} NextPoll(outbox: map<Uuid, Message>, handed: seq<Uuid>, polls: seq<Poll>,
                                    last: map<Uuid, Message>, all: seq<Uuid>)
    requires polls != [] && Ahead(outbox, handed, polls, last, all)
    ensures IsBatch(outbox, polls[0].batch) && Known(outbox, polls[0].batch)
    ensures Ahead(polls[0].Outbox(outbox), handed + polls[0].HandOffs(), polls[1..], last, all)
  {
    FirstPoll(outbox, polls);
    FirstHandOffs(handed, polls);
  }

  // A connection that holds lets the whole batch through.
  lemma {:induction false} WholePass(outbox: map<Uuid, Message>, batch: seq<Uuid>, fates: Fates, calls: nat,
                                     lands: bool)
    requires Known(outbox, batch) && calls >= 4 * |batch|
    ensures BrokenPass(outbox, batch, fates, calls, lands) == AfterPass(outbox, batch, fates)
    ensures BrokenHandOffs(batch, fates, calls) == HandedOver(batch, fates)
  {
    assert batch[..|batch|] == batch;
  }

  // A connection that breaks on the n-th message.
  lemma {:induction false} BreakAt(outbox: map<Uuid, Message>, batch: seq<Uuid>, n: nat, fates: Fates, calls: nat,
                                   lands: bool)
    requires n < |batch| && 4 * n <= calls < 4 * n + 4 && Known(outbox, batch)
    ensures var closed, id := AfterPass(outbox, batch[..n], fates), batch[n];
            && BrokenPass(outbox, batch, fates, calls, lands)
               == closed[id := BrokenAt(closed[id], fates(id), calls - 4 * n, lands)]
            && BrokenHandOffs(batch, fates, calls)
               == HandedOver(batch[..n], fates) + if calls - 4 * n >= 2 && fates(id).Taken() then [id] else []
  {
    assert ClosedBy(batch, calls) == n && calls % 4 == calls - 4 * n;
  }
}
