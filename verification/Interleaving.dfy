// The same transactions, split at their database calls and interleaved. Assumed of the database:
// a row locked FOR UPDATE stays locked until commit or close, an insert or update of a unique key
// waits for an uncommitted writer of the same key and fails on a committed one, reads see committed
// rows, and closing without a commit discards the writes.
module Interleaving {
  import opened Entities
  import opened Transactions
  import opened Ledger

  // Row locks and uncommitted unique keys of one transaction.
  datatype Locks = Locks(
    payment: Option<Uuid>,
    balance: Option<Uuid>,
    invoiceKey: Option<string>,
    paymentKey: Option<Uuid>,
    messageKey: Option<Uuid>,
    providerKey: Option<string>)

  const NO_LOCKS := Locks(None, None, None, None, None, None)

  // The database call a transaction makes next.
  datatype Stage =
    | CheckDuplicate | LockBalance | InsertPayment | InsertMessage | CommitOrder
    | LockPayment | CallProvider | WriteReply | CommitReply
    | LockInvoice | ReadVerdict | FlushId | LockFunds | WriteStatus | CommitVerdict

  // A running transaction with the rows it read under its locks.
  datatype Txn = Txn(action: Action, stage: Stage, locks: Locks, row: Option<Payment>, funds: Option<Balance>)

  // The effect of one database call: the transaction goes on, or it ends with a reply, having needed
  // these locks and leaving these committed tables.
  datatype Progress =
    | Moved(next: Txn)
    | Finished(need: Locks, reply: Reply, tables: Tables)

  function Start(a: Action): Option<Txn> {
    match a
    case Create(o) => if ValidRequest(o) then Some(Txn(a, CheckDuplicate, NO_LOCKS, None, None)) else None
    case Consume(_, _) => Some(Txn(a, LockPayment, NO_LOCKS, None, None))
    case Deliver(_) => Some(Txn(a, LockInvoice, NO_LOCKS, None, None))
    case Update(_, _) => None
  }

  // ----- create_payment

  ghost function AdvanceCreate(t: Tables, x: Txn): Progress
    requires ShapeCreate(x)
  {
    var o := x.action.order;
    if x.stage.CheckDuplicate? then
      match SingleRow(t.WithOrder(o.merchantId, o.orderId))
      case Raised(e) => Finished(x.locks, Creation(Raised(e)), t)
      case Returned(Some(_)) => Finished(x.locks, Creation(Returned(None)), t)
      case Returned(None) => Moved(x.(stage := LockBalance))
    else if x.stage.LockBalance? then
      var locks := x.locks.(balance := Some(o.merchantId));
      if o.merchantId !in t.balances then Finished(x.locks, Creation(Returned(None)), t)
      else if Shift(t.balances[o.merchantId], Reserve, o.amount).None? then Finished(locks, Creation(Returned(None)), t)
      else Moved(x.(stage := InsertPayment, locks := locks, funds := Some(t.balances[o.merchantId])))
    else if x.stage.InsertPayment? then
      var p := NewPayment(o);
      if o.paymentId in t.payments || t.InvoiceTaken(p.invoiceId) then
        Finished(x.locks, Creation(Raised(UniqueViolation)), t)
      else
        Moved(x.(stage := InsertMessage,
                 locks := x.locks.(invoiceKey := Some(p.invoiceId), paymentKey := Some(o.paymentId))))
    else if x.stage.InsertMessage? then
      if o.messageId in t.outbox then Finished(x.locks, Creation(Raised(UniqueViolation)), t)
      else Moved(x.(stage := CommitOrder, locks := x.locks.(messageKey := Some(o.messageId))))
    else
      Finished(x.locks, Creation(Returned(Some(o.paymentId))),
               Tables(t.balances[o.merchantId := Shift(x.funds.value, Reserve, o.amount).value],
                      t.payments[o.paymentId := NewPayment(o)],
                      t.outbox[o.messageId := NewMessage(o)]))
  }

  predicate ShapeCreate(x: Txn) {
    && x.action.Create? && ValidRequest(x.action.order) && x.row == None
    && var o := x.action.order;
       var funded := x.funds.Some? && Shift(x.funds.value, Reserve, o.amount).Some?;
       match x.stage
       case CheckDuplicate => x.locks == NO_LOCKS && x.funds == None
       case LockBalance => x.locks == NO_LOCKS && x.funds == None
       case InsertPayment => funded && x.locks == NO_LOCKS.(balance := Some(o.merchantId))
       case InsertMessage =>
         funded && x.locks == NO_LOCKS.(balance := Some(o.merchantId), paymentKey := Some(o.paymentId),
                                        invoiceKey := Some(NewPayment(o).invoiceId))
       case CommitOrder =>
         funded && x.locks == NO_LOCKS.(balance := Some(o.merchantId), paymentKey := Some(o.paymentId),
                                        invoiceKey := Some(NewPayment(o).invoiceId), messageKey := Some(o.messageId))
       case _ => false
  }

  // ----- handle_payment_created

  function AdvanceConsume(t: Tables, x: Txn): Progress
    requires ShapeConsume(x)
  {
    var k := x.action.paymentId;
    if x.stage.LockPayment? then
      var locks := x.locks.(payment := Some(k));
      if k !in t.payments then Finished(x.locks, Consumption(Returned(())), t)
      else if !t.payments[k].status.Created? then Finished(locks, Consumption(Returned(())), t)
      else Moved(x.(stage := CallProvider, locks := locks, row := Some(t.payments[k])))
    else if x.stage.CallProvider? then
      if x.action.reply.None? then Finished(x.locks, Consumption(Raised(ProviderFailed)), t)
      else Moved(x.(stage := WriteReply))
    else if x.stage.WriteReply? then
      if t.ProviderIdTaken(k, x.action.reply.value) then Finished(x.locks, Consumption(Raised(UniqueViolation)), t)
      else Moved(x.(stage := CommitReply, locks := x.locks.(providerKey := x.action.reply)))
    else
      Finished(x.locks, Consumption(Returned(())),
               t.(payments := t.payments[k :=
                 x.row.value.(status := Processing, providerId := x.action.reply, providerStatus := Some("Created"))]))
  }

  predicate ShapeConsume(x: Txn) {
    && x.action.Consume? && x.funds == None
    && var held := NO_LOCKS.(payment := Some(x.action.paymentId));
       match x.stage
       case LockPayment => x.locks == NO_LOCKS && x.row == None
       case CallProvider => x.locks == held && x.row.Some? && x.row.value.status.Created?
       case WriteReply => x.locks == held && x.row.Some? && x.row.value.status.Created? && x.action.reply.Some?
       case CommitReply =>
         && x.row.Some? && x.row.value.status.Created? && x.action.reply.Some?
         && x.locks == held.(providerKey := x.action.reply)
       case _ => false
  }

  // ----- handle_provider_webhook

  ghost function AdvanceDeliver(t: Tables, x: Txn): Progress
    requires ShapeDeliver(x)
  {
    var w := x.action.webhook;
    if x.stage.LockInvoice? then
      match SingleRow(t.WithInvoice(w.invoiceId))
      case Raised(e) => Finished(x.locks, Delivery(Raised(e)), t)
      case Returned(None) => Finished(x.locks, Delivery(Returned(false)), t)
      case Returned(Some(k)) =>
        if k !in t.payments then Finished(x.locks, Delivery(Returned(false)), t)
        else Moved(x.(stage := ReadVerdict, locks := x.locks.(payment := Some(k)), row := Some(t.payments[k])))
    else if x.stage.ReadVerdict? then
      if ParseVerdict(w.status).None? then Finished(x.locks, Delivery(Returned(false)), t)
      else if x.row.value.status.Terminal() then Finished(x.locks, Delivery(Returned(true)), t)
      else Moved(x.(stage := FlushId))
    else
      AdvanceOpen(t, x)
  }

  // The calls after the status guard.
  function AdvanceOpen(t: Tables, x: Txn): Progress
    requires ShapeDeliver(x) && !x.stage.LockInvoice? && !x.stage.ReadVerdict?
  {
    var w, k, p := x.action.webhook, x.locks.payment.value, x.row.value;
    var v := ParseVerdict(w.status).value;
    if x.stage.FlushId? then
      if p.providerId.Some? then Moved(x.(stage := LockFunds))
      else if t.ProviderIdTaken(k, w.id) then Finished(x.locks, Delivery(Raised(UniqueViolation)), t)
      else Moved(x.(stage := LockFunds, locks := x.locks.(providerKey := Some(w.id))))
    else if x.stage.LockFunds? then
      match VerdictOp(v)
      case None => Moved(x.(stage := WriteStatus))
      case Some(op) =>
        var locks := x.locks.(balance := Some(p.merchantId));
        if p.merchantId !in t.balances then Finished(x.locks, Delivery(Returned(false)), t)
        else if Shift(t.balances[p.merchantId], op, p.amount).None? then Finished(locks, Delivery(Returned(false)), t)
        else Moved(x.(stage := WriteStatus, locks := locks, funds := Some(t.balances[p.merchantId])))
    else if x.stage.WriteStatus? then
      var c := ChooseProviderId(p.providerId, w.id);
      if t.ProviderIdTaken(k, c) then Finished(x.locks, Delivery(Raised(UniqueViolation)), t)
      else Moved(x.(stage := CommitVerdict,
                    locks := if p.providerId == Some(c) then x.locks else x.locks.(providerKey := Some(c))))
    else
      var balances := match VerdictOp(v)
                      case None => t.balances
                      case Some(op) => t.balances[p.merchantId := Shift(x.funds.value, op, p.amount).value];
      Finished(x.locks, Delivery(Returned(true)),
        t.(balances := balances, payments := t.payments[k := Settled(p, v, w)]))
  }

  predicate ShapeDeliver(x: Txn) {
    && x.action.Deliver?
    && var w := x.action.webhook;
       if x.stage.LockInvoice? then x.locks == NO_LOCKS && x.row == None && x.funds == None
       else
         && x.locks.payment.Some? && x.row.Some? && x.row.value.invoiceId == w.invoiceId
         && var held := NO_LOCKS.(payment := x.locks.payment);
            if x.stage.ReadVerdict? then x.locks == held && x.funds == None
            else
              && ParseVerdict(w.status).Some? && !x.row.value.status.Terminal()
              && ShapeOpen(x, w, held, x.row.value, VerdictOp(ParseVerdict(w.status).value))
  }

  // How far the provider key and the balance lock have got.
  predicate ShapeOpen(x: Txn, w: Webhook, held: Locks, p: Payment, op: Option<BalanceOp>) {
    var flushed := held.(providerKey := if p.providerId.None? then Some(w.id) else None);
    var funded := if op.None? then x.funds == None
                  else x.funds.Some? && Shift(x.funds.value, op.value, p.amount).Some?;
    var settling := flushed.(balance := if op.None? then None else Some(p.merchantId));
    match x.stage
    case FlushId => x.locks == held && x.funds == None
    case LockFunds => x.locks == flushed && x.funds == None
    case WriteStatus => x.locks == settling && funded
    case CommitVerdict =>
      && funded
      && x.locks == settling.(providerKey :=
           if p.providerId.None? || (p.providerId.value == "" && w.id != "") then Some(w.id) else None)
    case _ => false
  }

  // ----- one transaction

  predicate Shape(x: Txn) {
    match x.action
    case Create(_) => ShapeCreate(x)
    case Consume(_, _) => ShapeConsume(x)
    case Deliver(_) => ShapeDeliver(x)
    case Update(_, _) => false
  }

  ghost function AdvanceTxn(t: Tables, x: Txn): Progress
    requires Shape(x)
  {
    match x.action
    case Create(_) => AdvanceCreate(t, x)
    case Consume(_, _) => AdvanceConsume(t, x)
    case Deliver(_) => AdvanceDeliver(t, x)
  }

  // What a transaction may rely on: rows it read under a lock are still the committed ones,
  // and keys it has written are not in the committed tables.
  predicate Knows(t: Tables, x: Txn) {
    && (x.row.Some? ==> x.locks.payment.Some? && x.locks.payment.value in t.payments
                        && t.payments[x.locks.payment.value] == x.row.value)
    && (x.locks.balance.Some? ==> x.locks.balance.value in t.balances
                                  && x.funds == Some(t.balances[x.locks.balance.value]))
    && (x.locks.invoiceKey.Some? ==> !t.InvoiceTaken(x.locks.invoiceKey.value))
    && (x.locks.paymentKey.Some? ==> x.locks.paymentKey.value !in t.payments)
    && (x.locks.messageKey.Some? ==> x.locks.messageKey.value !in t.outbox)
    && (x.locks.providerKey.Some? ==> x.locks.payment.Some?
                                      && !t.ProviderIdTaken(x.locks.payment.value, x.locks.providerKey.value))
  }

  lemma {:induction false} CreateMoves(t: Tables, x: Txn)
    requires ShapeCreate(x) && Knows(t, x) && AdvanceCreate(t, x).Moved?
    ensures ShapeCreate(AdvanceCreate(t, x).next) && Knows(t, AdvanceCreate(t, x).next)
  {
  }

  lemma {:induction false} ConsumeMoves(t: Tables, x: Txn)
    requires ShapeConsume(x) && Knows(t, x) && AdvanceConsume(t, x).Moved?
    ensures ShapeConsume(AdvanceConsume(t, x).next) && Knows(t, AdvanceConsume(t, x).next)
  {
  }

  lemma {:induction false} DeliverMoves(t: Tables, x: Txn)
    requires ShapeDeliver(x) && Knows(t, x) && AdvanceDeliver(t, x).Moved?
    ensures ShapeDeliver(AdvanceDeliver(t, x).next) && Knows(t, AdvanceDeliver(t, x).next)
  {
    if !x.stage.LockInvoice? && !x.stage.ReadVerdict? {
      OpenMoves(t, x);
    }
  }

  lemma {:induction false} OpenMoves(t: Tables, x: Txn)
    requires ShapeDeliver(x) && Knows(t, x) && !x.stage.LockInvoice? && !x.stage.ReadVerdict?
    requires AdvanceOpen(t, x).Moved?
    ensures ShapeDeliver(AdvanceOpen(t, x).next) && Knows(t, AdvanceOpen(t, x).next)
  {
  }

  // The payment table has this very order.
  predicate Repeated(t: Tables, o: Order) {
    exists k :: k in t.payments && t.payments[k].merchantId == o.merchantId && t.payments[k].orderId == o.orderId
  }

  // The duplicate check went stale: the order was committed between the check and the insert.
  predicate Stale(t: Tables, a: Action, last: Option<Stage>) {
    a.Create? && last == Some(InsertPayment) && Repeated(t, a.order)
  }

  // The reply of a transaction that ended with this call is that of the atomic step,
  // save that a stale create raises on the unique key where the atomic step returns None.
  ghost predicate Agrees(t: Tables, a: Action, last: Option<Stage>, reply: Reply) {
    var atomic := Step(t, a).0;
    if Stale(t, a, last) then reply == Creation(Raised(UniqueViolation)) && atomic == Creation(Returned(None))
    else reply == atomic
  }

  // What the duplicate check sees, and what the invoice key does.
  lemma {:induction false} DuplicateSeen(t: Tables, o: Order)
    requires WellFormed(t)
    ensures SingleRow(t.WithOrder(o.merchantId, o.orderId)).Returned?
    ensures Repeated(t, o) <==> SingleRow(t.WithOrder(o.merchantId, o.orderId)).value.Some?
    ensures Repeated(t, o) ==> t.InvoiceTaken(NewPayment(o).invoiceId)
  {
    RowsWithOrder(t, o.merchantId, o.orderId);
    if k :| k in t.payments && t.payments[k].merchantId == o.merchantId && t.payments[k].orderId == o.orderId {
      assert k in t.WithOrder(o.merchantId, o.orderId);
      assert PaymentSound(t.payments[k]);
    }
  }

  // A transaction that ends has done what its atomic step does to the tables of that moment.
  lemma {:induction false} CreateFinishes(t: Tables, x: Txn)
    requires WellFormed(t) && ShapeCreate(x) && Knows(t, x) && AdvanceCreate(t, x).Finished?
    ensures var f := AdvanceCreate(t, x);
            f.tables == Step(t, x.action).1 && Agrees(t, x.action, Some(x.stage), f.reply)
  {
    DuplicateSeen(t, x.action.order);
  }

  lemma {:induction false} ConsumeFinishes(t: Tables, x: Txn)
    requires ShapeConsume(x) && Knows(t, x) && AdvanceConsume(t, x).Finished?
    ensures var f := AdvanceConsume(t, x);
            f.tables == Step(t, x.action).1 && f.reply == Step(t, x.action).0
  {
  }

  lemma {:induction false} OpenFinishes(t: Tables, x: Txn)
    requires t.ProviderIdsUnique() && ShapeDeliver(x) && Knows(t, x) && !x.stage.LockInvoice? && !x.stage.ReadVerdict?
    requires AdvanceOpen(t, x).Finished?
    ensures x.locks.payment.value in t.payments
    ensures var f := AdvanceOpen(t, x);
            SettleRow(t, x.action.webhook, x.locks.payment.value) == (f.reply.delivery, f.tables)
  {
  }

  lemma {:induction false} DeliverFinishes(t: Tables, x: Txn)
    requires t.InvoicesUnique() && t.ProviderIdsUnique() && ShapeDeliver(x) && Knows(t, x)
    requires AdvanceDeliver(t, x).Finished?
    ensures var f := AdvanceDeliver(t, x);
            f.tables == Step(t, x.action).1 && f.reply == Step(t, x.action).0
  {
    if !x.stage.LockInvoice? {
      OneRow(t, x.action.webhook.invoiceId, x.locks.payment.value);
      if !x.stage.ReadVerdict? {
        OpenFinishes(t, x);
      }
    }
  }

  lemma {:induction false} TxnMoves(t: Tables, x: Txn)
    requires Shape(x) && Knows(t, x) && AdvanceTxn(t, x).Moved?
    ensures var y := AdvanceTxn(t, x).next;
            y.action == x.action && Shape(y) && Knows(t, y)
  {
    if x.action.Create? {
      CreateMoves(t, x);
    } else if x.action.Consume? {
      ConsumeMoves(t, x);
    } else {
      DeliverMoves(t, x);
    }
  }

  lemma {:induction false} TxnFinishes(t: Tables, x: Txn)
    requires WellFormed(t) && Shape(x) && Knows(t, x) && AdvanceTxn(t, x).Finished?
    ensures AdvanceTxn(t, x).tables == Step(t, x.action).1
    ensures Agrees(t, x.action, Some(x.stage), AdvanceTxn(t, x).reply)
    ensures AdvanceTxn(t, x).reply != Step(t, x.action).0 <==> Stale(t, x.action, Some(x.stage))
  {
    if x.action.Create? {
      CreateFinishes(t, x);
    } else if x.action.Consume? {
      ConsumeFinishes(t, x);
    } else {
      DeliverFinishes(t, x);
    }
  }

  // ----- other transactions

  function Differ<T(==)>(a: Option<T>, b: Option<T>): bool {
    a.None? || a != b
  }

  predicate Disjoint(a: Locks, b: Locks) {
    && Differ(a.payment, b.payment) && Differ(a.balance, b.balance)
    && Differ(a.invoiceKey, b.invoiceKey) && Differ(a.paymentKey, b.paymentKey)
    && Differ(a.messageKey, b.messageKey) && Differ(a.providerKey, b.providerKey)
  }

  // u differs from t only in rows and keys covered by the locks.
  ghost predicate Within(t: Tables, u: Tables, l: Locks) {
    && (forall k :: k in t.payments ==>
          && k in u.payments
          && u.payments[k].invoiceId == t.payments[k].invoiceId
          && (l.payment != Some(k) ==> u.payments[k] == t.payments[k])
          && (u.payments[k].providerId == t.payments[k].providerId || u.payments[k].providerId == l.providerKey))
    && (forall k :: k in u.payments && k !in t.payments ==>
          l.paymentKey == Some(k) && l.invoiceKey == Some(u.payments[k].invoiceId) && u.payments[k].providerId.None?)
    && t.balances.Keys == u.balances.Keys
    && (forall m :: m in t.balances && l.balance != Some(m) ==> u.balances[m] == t.balances[m])
    && (forall i :: i in u.outbox && i !in t.outbox ==> l.messageKey == Some(i))
  }

  lemma {:induction false} FinishWithin(t: Tables, x: Txn)
    requires Shape(x) && Knows(t, x) && AdvanceTxn(t, x).Finished?
    ensures Within(t, AdvanceTxn(t, x).tables, x.locks)
  {
    if AdvanceTxn(t, x).tables != t {
      if x.action.Create? {
        OrderWithin(t, x);
      } else if x.action.Consume? {
        ReplyWithin(t, x);
      } else {
        VerdictWithin(t, x);
      }
    }
  }

  lemma {:induction false} OrderWithin(t: Tables, x: Txn)
    requires ShapeCreate(x) && Knows(t, x) && x.stage.CommitOrder?
    ensures Within(t, AdvanceCreate(t, x).tables, x.locks)
  {
  }

  lemma {:induction false} ReplyWithin(t: Tables, x: Txn)
    requires ShapeConsume(x) && Knows(t, x) && x.stage.CommitReply?
    ensures Within(t, AdvanceConsume(t, x).tables, x.locks)
  {
  }

  lemma {:induction false} VerdictWithin(t: Tables, x: Txn)
    requires ShapeDeliver(x) && Knows(t, x) && x.stage.CommitVerdict?
    ensures Within(t, AdvanceOpen(t, x).tables, x.locks)
  {
  }

  // What a transaction knows survives a commit under disjoint locks.
  lemma {:induction false} KnowledgeSurvives(t: Tables, u: Tables, l: Locks, y: Txn)
    requires Within(t, u, l) && Disjoint(l, y.locks) && Knows(t, y)
    ensures Knows(u, y)
  {
  }

  // ----- all transactions together

  // last is the call a transaction ended with; None for a publisher's single statement.
  datatype Completion = Completion(action: Action, last: Option<Stage>, reply: Reply)

  // Committed tables, running transactions, and the ended ones in the order they ended.
  datatype System = System(tables: Tables, active: map<nat, Txn>, done: seq<Completion>)

  datatype Occurrence =
    | Begin(id: nat, action: Action)
    | Advance(id: nat)
    | Crash(id: nat)                              // the session is lost: its writes and locks vanish
    | UpdateMessage(messageId: Uuid, mark: Mark)  // a publisher's single-statement commit

  // No other transaction holds a lock in l.
  ghost predicate Granted(active: map<nat, Txn>, id: nat, l: Locks) {
    forall j :: j in active && j != id ==> Disjoint(l, active[j].locks)
  }

  // A call that cannot get its locks waits: the event changes nothing.
  ghost function Next(s: System, e: Occurrence): System {
    match e
    case Begin(id, a) =>
      if id in s.active || Start(a).None? then s else s.(active := s.active[id := Start(a).value])
    case Advance(id) =>
      if id !in s.active || !Shape(s.active[id]) then s else Apply(s, id, AdvanceTxn(s.tables, s.active[id]))
    case Crash(id) => s.(active := s.active - {id})
    case UpdateMessage(i, mark) =>
      System(Step(s.tables, Update(i, mark)).1, s.active, s.done + [Completion(Update(i, mark), None, Updated)])
  }

  ghost function Apply(s: System, id: nat, p: Progress): System
    requires id in s.active
  {
    match p
    case Moved(y) =>
      if Granted(s.active, id, y.locks) then s.(active := s.active[id := y]) else s
    case Finished(need, reply, u) =>
      if Granted(s.active, id, need) then
        System(u, s.active - {id}, s.done + [Completion(s.active[id].action, Some(s.active[id].stage), reply)])
      else s
  }

  ghost function NextAll(s: System, events: seq<Occurrence>): System {
    if events == [] then s else Next(NextAll(s, events[..|events| - 1]), events[|events| - 1])
  }

  function Actions(done: seq<Completion>): seq<Action> {
    if done == [] then [] else Actions(done[..|done| - 1]) + [done[|done| - 1].action]
  }

  // Each ended transaction replied what the atomic step replies after those that ended before it.
  ghost predicate RepliesAgree(seed: Tables, done: seq<Completion>) {
    if done == [] then true
    else
      var before, last := done[..|done| - 1], done[|done| - 1];
      RepliesAgree(seed, before) && Agrees(Run(seed, Actions(before)), last.action, last.last, last.reply)
  }

  ghost predicate AllKnow(s: System) {
    forall i :: i in s.active ==> Shape(s.active[i]) && Knows(s.tables, s.active[i])
  }

  ghost predicate Exclusive(active: map<nat, Txn>) {
    forall i, j :: i in active && j in active && i != j ==> Disjoint(active[i].locks, active[j].locks)
  }

  ghost predicate Consistent(seed: Tables, s: System) {
    && AllKnow(s) && Exclusive(s.active)
    && s.tables == Run(seed, Actions(s.done)) && RepliesAgree(seed, s.done)
  }

  lemma {:induction false} DisjointSymmetric(a: Locks, b: Locks)
    requires Disjoint(a, b)
    ensures Disjoint(b, a)
  {
  }

  lemma {:induction false} GrantKeepsExclusive(active: map<nat, Txn>, id: nat, y: Txn, after: map<nat, Txn>)
    requires Exclusive(active) && Granted(active, id, y.locks) && after == active[id := y]
    ensures Exclusive(after)
  {
    forall i, j | i in after && j in after && i != j ensures Disjoint(after[i].locks, after[j].locks) {
      if j == id {
        assert Disjoint(y.locks, active[i].locks);
        DisjointSymmetric(y.locks, active[i].locks);
      }
    }
  }

  lemma {:induction false} AppendDone(seed: Tables, done: seq<Completion>, c: Completion)
    requires RepliesAgree(seed, done) && Agrees(Run(seed, Actions(done)), c.action, c.last, c.reply)
    ensures RepliesAgree(seed, done + [c])
    ensures Run(seed, Actions(done + [c])) == Step(Run(seed, Actions(done)), c.action).1
  {
    assert (done + [c])[..|done|] == done;
    assert (Actions(done) + [c.action])[..|Actions(done)|] == Actions(done);
  }

  lemma {:induction false} BeginConsistent(seed: Tables, s: System, id: nat, a: Action)
    requires Consistent(seed, s)
    ensures Consistent(seed, Next(s, Begin(id, a)))
  {
    if id !in s.active && Start(a).Some? {
      GrantKeepsExclusive(s.active, id, Start(a).value, s.active[id := Start(a).value]);
    }
  }

  lemma {:induction false} MoveConsistent(seed: Tables, s: System, id: nat)
    requires Consistent(seed, s) && id in s.active && AdvanceTxn(s.tables, s.active[id]).Moved?
    ensures Consistent(seed, Next(s, Advance(id)))
  {
    TxnMoves(s.tables, s.active[id]);
    var y := AdvanceTxn(s.tables, s.active[id]).next;
    if Granted(s.active, id, y.locks) {
      GrantKeepsExclusive(s.active, id, y, s.active[id := y]);
    }
  }

  lemma {:induction false} OthersKnow(s: System, id: nat, u: Tables)
    requires AllKnow(s) && Exclusive(s.active) && id in s.active && Within(s.tables, u, s.active[id].locks)
    ensures AllKnow(System(u, s.active - {id}, []))
  {
    var rest := s.active - {id};
    forall j | j in rest ensures Shape(rest[j]) && Knows(u, rest[j]) {
      assert Disjoint(s.active[id].locks, s.active[j].locks);
      KnowledgeSurvives(s.tables, u, s.active[id].locks, s.active[j]);
    }
  }

  lemma {:induction false} FinishConsistent(seed: Tables, s: System, id: nat)
    requires Consistent(seed, s)
    requires id in s.active && AdvanceTxn(s.tables, s.active[id]).Finished?
    requires AdvanceTxn(s.tables, s.active[id]).tables == Step(s.tables, s.active[id].action).1
    requires Agrees(s.tables, s.active[id].action, Some(s.active[id].stage), AdvanceTxn(s.tables, s.active[id]).reply)
    ensures Consistent(seed, Next(s, Advance(id)))
  {
    var x := s.active[id];
    var f := AdvanceTxn(s.tables, x);
    FinishWithin(s.tables, x);
    OthersKnow(s, id, f.tables);
    AppendDone(seed, s.done, Completion(x.action, Some(x.stage), f.reply));
  }

  lemma {:induction false} UpdateKnown(s: System, i: Uuid, mark: Mark)
    requires AllKnow(s)
    ensures AllKnow(s.(tables := Step(s.tables, Update(i, mark)).1))
  {
    var u := Step(s.tables, Update(i, mark)).1;
    assert Within(s.tables, u, NO_LOCKS);
    forall j | j in s.active ensures Knows(u, s.active[j]) {
      KnowledgeSurvives(s.tables, u, NO_LOCKS, s.active[j]);
    }
  }

  lemma {:induction false} UpdateConsistent(seed: Tables, s: System, i: Uuid, mark: Mark)
    requires Consistent(seed, s)
    ensures Consistent(seed, Next(s, UpdateMessage(i, mark)))
  {
    UpdateKnown(s, i, mark);
    AppendDone(seed, s.done, Completion(Update(i, mark), None, Updated));
  }

  lemma {:induction false} NextConsistent(seed: Tables, s: System, e: Occurrence)
    requires Seeded(seed) && Consistent(seed, s)
    ensures Consistent(seed, Next(s, e))
  {
    match e
    case Begin(id, a) => BeginConsistent(seed, s, id, a);
    case Advance(id) =>
      if id in s.active {
        if AdvanceTxn(s.tables, s.active[id]).Moved? {
          MoveConsistent(seed, s, id);
        } else {
          RunSound(seed, Actions(s.done));
          TxnFinishes(s.tables, s.active[id]);
          FinishConsistent(seed, s, id);
        }
      }
    case Crash(id) =>
    case UpdateMessage(i, mark) => UpdateConsistent(seed, s, i, mark);
  }

  // Every interleaving of transactions split at their database calls ends in the committed tables
  // that the ended transactions reach when run one after another in the order they ended, and gives
  // the same replies; only a create whose duplicate check went stale may raise instead of returning None.
  lemma {:induction false} InterleavingsAreSerial(seed: Tables, events: seq<Occurrence>)
    requires Seeded(seed)
    ensures var s := NextAll(System(seed, map[], []), events);
            s.tables == Run(seed, Actions(s.done)) && RepliesAgree(seed, s.done)
    ensures Consistent(seed, NextAll(System(seed, map[], []), events))
  {
    if events != [] {
      var before := events[..|events| - 1];
      InterleavingsAreSerial(seed, before);
      NextConsistent(seed, NextAll(System(seed, map[], []), before), events[|events| - 1]);
    }
  }

  // Hence the money invariant holds in every committed state of every interleaving.
  lemma {:induction false} InterleavingsSound(seed: Tables, events: seq<Occurrence>)
    requires Seeded(seed)
    ensures Sound(seed.balances, NextAll(System(seed, map[], []), events).tables)
  {
    InterleavingsAreSerial(seed, events);
    RunSound(seed, Actions(NextAll(System(seed, map[], []), events).done));
  }

  // ----- waiting for row locks

  datatype RowLock = PaymentRow(id: Uuid) | BalanceRow(merchantId: Uuid)

  // The row a transaction's next SELECT ... FOR UPDATE asks for.
  ghost function Wants(t: Tables, x: Txn): Option<RowLock>
    requires Shape(x)
  {
    match x.stage
    case LockBalance => Some(BalanceRow(x.action.order.merchantId))
    case LockPayment => Some(PaymentRow(x.action.paymentId))
    case LockInvoice =>
      (match SingleRow(t.WithInvoice(x.action.webhook.invoiceId))
       case Returned(Some(k)) => Some(PaymentRow(k))
       case _ => None)
    case LockFunds =>
      if VerdictOp(ParseVerdict(x.action.webhook.status).value).Some?
      then Some(BalanceRow(x.row.value.merchantId)) else None
    case _ => None
  }

  predicate HoldsRow(x: Txn, l: RowLock) {
    match l
    case PaymentRow(k) => x.locks.payment == Some(k)
    case BalanceRow(m) => x.locks.balance == Some(m)
  }

  ghost predicate WaitsFor(s: System, i: nat, j: nat)
    requires AllKnow(s)
  {
    && i in s.active && j in s.active && i != j
    && Wants(s.tables, s.active[i]).Some?
    && HoldsRow(s.active[j], Wants(s.tables, s.active[i]).value)
  }

  ghost predicate WaitCycle(s: System, cycle: seq<nat>)
    requires AllKnow(s)
  {
    && |cycle| > 0
    && forall n | 0 <= n < |cycle| :: WaitsFor(s, cycle[n], cycle[After(cycle, n)])
  }

  // The next position, the first one following the last.
  function After(cycle: seq<nat>, n: nat): (next: nat)
    requires n < |cycle|
    ensures next < |cycle|
  {
    if n + 1 < |cycle| then n + 1 else 0
  }

  // A waiter holds only rows that come before the one it wants: payments before balances.
  lemma {:induction false} OrderedRequests(t: Tables, x: Txn, held: RowLock)
    requires Shape(x) && Wants(t, x).Some? && HoldsRow(x, held)
    ensures held.PaymentRow? && Wants(t, x).value.BalanceRow?
  {
  }

  // Hence no three waits in a row.
  lemma {:induction false} ShortWaits(s: System, a: nat, b: nat, c: nat, d: nat)
    requires AllKnow(s)
    ensures !(WaitsFor(s, a, b) && WaitsFor(s, b, c) && WaitsFor(s, c, d))
  {
    if WaitsFor(s, a, b) && WaitsFor(s, b, c) && WaitsFor(s, c, d) {
      OrderedRequests(s.tables, s.active[b], Wants(s.tables, s.active[a]).value);
      OrderedRequests(s.tables, s.active[c], Wants(s.tables, s.active[b]).value);
      assert false;
    }
  }

  // FOR UPDATE waits never form a cycle, whatever transactions run.
  lemma {:induction false} NoWaitCycle(seed: Tables, events: seq<Occurrence>, cycle: seq<nat>)
    requires Seeded(seed)
    ensures AllKnow(NextAll(System(seed, map[], []), events))
    ensures !WaitCycle(NextAll(System(seed, map[], []), events), cycle)
  {
    InterleavingsAreSerial(seed, events);
    NoCycle(NextAll(System(seed, map[], []), events), cycle);
  }

  lemma {:induction false} NoCycle(s: System, cycle: seq<nat>)
    requires AllKnow(s)
    ensures !WaitCycle(s, cycle)
  {
    if WaitCycle(s, cycle) {
      var second, third := After(cycle, 0), After(cycle, After(cycle, 0));
      WaitsForNext(s, cycle, 0);
      WaitsForNext(s, cycle, second);
      WaitsForNext(s, cycle, third);
      ShortWaits(s, cycle[0], cycle[second], cycle[third], cycle[After(cycle, third)]);
      assert false;
    }
  }

  lemma {:induction false} WaitsForNext(s: System, cycle: seq<nat>, n: nat)
    requires AllKnow(s) && WaitCycle(s, cycle) && n < |cycle|
    ensures WaitsFor(s, cycle[n], cycle[After(cycle, n)])
  {
  }
}
