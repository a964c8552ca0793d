// When two webhooks for different invoices may be delivered in either order.
module Commuting {
  import opened Entities
  import opened Transactions
  import opened Ledger

  // w is a known verdict on the open payment k.
  predicate Concerns(t: Tables, w: Webhook, k: Uuid) {
    && k in t.payments
    && t.payments[k].invoiceId == w.invoiceId
    && t.payments[k].status.Open()
    && ParseVerdict(w.status).Some?
  }

  // The provider id that w leaves on row k.
  function IdLeft(t: Tables, w: Webhook, k: Uuid): string
    requires k in t.payments
  {
    ChooseProviderId(t.payments[k].providerId, w.id)
  }

  // In t, delivering w rewrites row k.
  predicate Acts(t: Tables, w: Webhook, k: Uuid) {
    Concerns(t, w, k) && !t.ProviderIdTaken(k, IdLeft(t, w, k))
  }

  function NewRow(t: Tables, w: Webhook, k: Uuid): Payment
    requires Acts(t, w, k)
  {
    Settled(t.payments[k], ParseVerdict(w.status).value, w)
  }

  // The balance guard lets w through.
  predicate Accepts(t: Tables, w: Webhook, k: Uuid)
    requires Acts(t, w, k)
  {
    SettleBalances(t.balances, t.payments[k], ParseVerdict(w.status).value).Some?
  }

  function Acted(t: Tables, w: Webhook, k: Uuid): Tables
    requires Acts(t, w, k) && Accepts(t, w, k)
  {
    t.(balances := SettleBalances(t.balances, t.payments[k], ParseVerdict(w.status).value).value,
       payments := t.payments[k := NewRow(t, w, k)])
  }

  lemma {:induction false} ActsMeans(seed: map<Uuid, Balance>, t: Tables, w: Webhook, k: Uuid)
    requires Sound(seed, t) && Acts(t, w, k)
    ensures Accepts(t, w, k) && SettlePayment(t, w).1 == Acted(t, w, k)
  {
    GuardsNeverRefuse(seed, t, w, k);
  }

  lemma {:induction false} IdleMeans(t: Tables, w: Webhook)
    requires PaymentsSound(t) && forall k :: !Acts(t, w, k)
    ensures SettlePayment(t, w).1 == t
  {
    if SettlePayment(t, w).1 != t {
      var k := SettledRow(t, w);
      assert PaymentSound(t.payments[k]);
      assert Acts(t, w, k);
    }
  }

  // ----- how one delivery may affect another

  // Both act, and both would leave the same id: the second is refused.
  predicate Blocks(t: Tables, v: Webhook, i: Uuid, w: Webhook, j: Uuid) {
    Acts(t, v, i) && Acts(t, w, j) && IdLeft(t, v, i) == IdLeft(t, w, j)
  }

  // Payment i stores the empty id, v replaces it, and w wants it for a payment without an id.
  predicate Frees(t: Tables, v: Webhook, i: Uuid, w: Webhook, j: Uuid) {
    && Acts(t, v, i) && t.payments[i].providerId == Some("") && v.id != ""
    && Concerns(t, w, j) && t.payments[j].providerId.None? && w.id == ""
  }

  ghost predicate Affects(t: Tables, v: Webhook, w: Webhook) {
    exists i, j :: Blocks(t, v, i, w, j) || Frees(t, v, i, w, j)
  }

  // The id that w wants is taken after v acted exactly if it was before, unless v affects w.
  lemma {:induction false} TakenUnchanged(t: Tables, u: Tables, v: Webhook, i: Uuid, w: Webhook, j: Uuid)
    requires t.ProviderIdsUnique() && Acts(t, v, i) && Concerns(t, w, j) && i != j
    requires u.payments == t.payments[i := NewRow(t, v, i)]
    requires !Blocks(t, v, i, w, j) && !Frees(t, v, i, w, j)
    ensures u.ProviderIdTaken(j, IdLeft(t, w, j)) <==> t.ProviderIdTaken(j, IdLeft(t, w, j))
  {
    var c := IdLeft(t, w, j);
    assert u.payments[i].providerId == Some(IdLeft(t, v, i));
    forall k | k in t.payments && k != i ensures u.payments[k].providerId == t.payments[k].providerId {}
    if t.payments[i].providerId == Some(c) {
      assert t.ProviderIdTaken(j, c);
      assert t.payments[j].providerId != Some(c);
    }
  }

  // v acts on i: what the tables are then.
  lemma {:induction false} ActsTo(seed: map<Uuid, Balance>, t: Tables, v: Webhook, i: Uuid)
    requires Sound(seed, t) && Acts(t, v, i)
    ensures Accepts(t, v, i) && SettlePayment(t, v).1 == Acted(t, v, i) && Sound(seed, Acted(t, v, i))
  {
    ActsMeans(seed, t, v, i);
    StepKeepsSound(seed, t, Deliver(v));
  }

  lemma {:induction false} IndependentOfActed(t: Tables, v: Webhook, i: Uuid, w: Webhook, k: Uuid)
    requires t.ProviderIdsUnique() && Acts(t, v, i) && Accepts(t, v, i) && v.invoiceId != w.invoiceId
    requires !Blocks(t, v, i, w, k) && !Frees(t, v, i, w, k)
    ensures Acts(Acted(t, v, i), w, k) <==> Acts(t, w, k)
  {
    if Concerns(t, w, k) {
      TakenUnchanged(t, Acted(t, v, i), v, i, w, k);
    }
  }

  // Whether w acts on k does not depend on a delivery for another invoice that does not affect it.
  lemma {:induction false} Independent(seed: map<Uuid, Balance>, t: Tables, v: Webhook, w: Webhook, k: Uuid)
    requires Sound(seed, t) && v.invoiceId != w.invoiceId && !Affects(t, v, w)
    ensures Acts(SettlePayment(t, v).1, w, k) <==> Acts(t, w, k)
  {
    if i :| Acts(t, v, i) {
      ActsMeans(seed, t, v, i);
      IndependentOfActed(t, v, i, w, k);
    } else {
      IdleMeans(t, v);
    }
  }

  // Two settlements that are accepted in either order leave the same balances.
  lemma {:induction false} BalancesCommute(balances: map<Uuid, Balance>, p: Payment, v: Verdict, q: Payment, w: Verdict)
    requires SettleBalances(balances, p, v).Some? && SettleBalances(balances, q, w).Some?
    requires SettleBalances(SettleBalances(balances, p, v).value, q, w).Some?
    requires SettleBalances(SettleBalances(balances, q, w).value, p, v).Some?
    ensures SettleBalances(SettleBalances(balances, p, v).value, q, w)
         == SettleBalances(SettleBalances(balances, q, w).value, p, v)
  {
    var pq := SettleBalances(SettleBalances(balances, p, v).value, q, w).value;
    var qp := SettleBalances(SettleBalances(balances, q, w).value, p, v).value;
    forall m | m in balances ensures m in pq && m in qp && pq[m] == qp[m] {}
    assert pq.Keys == balances.Keys == qp.Keys;
    assert pq == qp;
  }

  lemma {:induction false} ActedCommute(t: Tables, v: Webhook, w: Webhook, i: Uuid, j: Uuid)
    requires Acts(t, v, i) && Accepts(t, v, i) && Acts(t, w, j) && Accepts(t, w, j) && i != j
    requires Acts(Acted(t, v, i), w, j) && Accepts(Acted(t, v, i), w, j)
    requires Acts(Acted(t, w, j), v, i) && Accepts(Acted(t, w, j), v, i)
    ensures Acted(Acted(t, v, i), w, j) == Acted(Acted(t, w, j), v, i)
  {
    BalancesCommute(t.balances, t.payments[i], ParseVerdict(v.status).value, t.payments[j],
      ParseVerdict(w.status).value);
    assert t.payments[i := NewRow(t, v, i)][j := NewRow(t, w, j)]
      == t.payments[j := NewRow(t, w, j)][i := NewRow(t, v, i)];
  }

  // Delivering v and then w, when both act and go on doing so.
  lemma {:induction false} ActAfter(seed: map<Uuid, Balance>, t: Tables, v: Webhook, w: Webhook, i: Uuid, j: Uuid)
    requires Sound(seed, t) && Acts(t, v, i) && Accepts(t, v, i) && Acts(Acted(t, v, i), w, j)
    ensures Accepts(Acted(t, v, i), w, j)
    ensures SettlePayment(SettlePayment(t, v).1, w).1 == Acted(Acted(t, v, i), w, j)
  {
    ActsTo(seed, t, v, i);
    ActsTo(seed, Acted(t, v, i), w, j);
  }

  lemma {:induction false} BothAct(seed: map<Uuid, Balance>, t: Tables, v: Webhook, w: Webhook, i: Uuid, j: Uuid)
    requires Sound(seed, t) && v.invoiceId != w.invoiceId && !Affects(t, v, w) && !Affects(t, w, v)
    requires Acts(t, v, i) && Acts(t, w, j)
    ensures SettlePayment(SettlePayment(t, v).1, w).1 == SettlePayment(SettlePayment(t, w).1, v).1
  {
    ActsTo(seed, t, v, i);
    ActsTo(seed, t, w, j);
    IndependentOfActed(t, v, i, w, j);
    IndependentOfActed(t, w, j, v, i);
    ActAfter(seed, t, v, w, i, j);
    ActAfter(seed, t, w, v, j, i);
    ActedCommute(t, v, w, i, j);
  }

  // A delivery that does nothing now does nothing after one that does not affect it.
  lemma {:induction false} IdleCommutes(seed: map<Uuid, Balance>, t: Tables, idle: Webhook, w: Webhook)
    requires Sound(seed, t) && idle.invoiceId != w.invoiceId && !Affects(t, w, idle)
    requires forall i :: !Acts(t, idle, i)
    ensures SettlePayment(t, idle).1 == t
    ensures SettlePayment(SettlePayment(t, w).1, idle).1 == SettlePayment(t, w).1
  {
    IdleMeans(t, idle);
    var tw := SettlePayment(t, w).1;
    StepKeepsSound(seed, t, Deliver(w));
    forall i ensures !Acts(tw, idle, i) {
      Independent(seed, t, w, idle, i);
    }
    IdleMeans(tw, idle);
  }

  lemma {:induction false} UnaffectedCommute(seed: map<Uuid, Balance>, t: Tables, v: Webhook, w: Webhook)
    requires Sound(seed, t) && v.invoiceId != w.invoiceId && !Affects(t, v, w) && !Affects(t, w, v)
    ensures SettlePayment(SettlePayment(t, v).1, w).1 == SettlePayment(SettlePayment(t, w).1, v).1
  {
    if i, j :| Acts(t, v, i) && Acts(t, w, j) {
      BothAct(seed, t, v, w, i, j);
    } else if forall i :: !Acts(t, v, i) {
      IdleCommutes(seed, t, v, w);
    } else {
      IdleCommutes(seed, t, w, v);
    }
  }

  // ----- deliveries that affect one another do not commute

  // Once v left the id that w wants, w does nothing.
  lemma {:induction false} BlockedIsIdle(seed: map<Uuid, Balance>, t: Tables, v: Webhook, w: Webhook, i: Uuid, j: Uuid)
    requires Sound(seed, t) && v.invoiceId != w.invoiceId && Blocks(t, v, i, w, j)
    ensures Accepts(t, v, i) && SettlePayment(SettlePayment(t, v).1, w).1 == Acted(t, v, i)
  {
    ActsTo(seed, t, v, i);
    TakenIsIdle(Acted(t, v, i), w, j, i);
  }

  // A webhook whose id another payment stores does nothing.
  lemma {:induction false} TakenIsIdle(t: Tables, w: Webhook, j: Uuid, holder: Uuid)
    requires t.InvoicesUnique() && PaymentsSound(t) && Concerns(t, w, j)
    requires holder in t.payments && holder != j && t.payments[holder].providerId == Some(IdLeft(t, w, j))
    ensures SettlePayment(t, w).1 == t
  {
    forall k ensures !Acts(t, w, k) {
      assert Concerns(t, w, k) ==> t.payments[k].invoiceId == t.payments[j].invoiceId;
    }
    IdleMeans(t, w);
  }

  lemma {:induction false} BlockedDiffer(seed: map<Uuid, Balance>, t: Tables, v: Webhook, w: Webhook, i: Uuid, j: Uuid)
    requires Sound(seed, t) && v.invoiceId != w.invoiceId && Blocks(t, v, i, w, j)
    ensures SettlePayment(SettlePayment(t, v).1, w).1 != SettlePayment(SettlePayment(t, w).1, v).1
  {
    BlockedIsIdle(seed, t, v, w, i, j);
    BlockedIsIdle(seed, t, w, v, j, i);
    BlockedRows(t, v, w, i, j);
  }

  // Row j has the contested id if w won, and not if v did.
  lemma {:induction false} BlockedRows(t: Tables, v: Webhook, w: Webhook, i: Uuid, j: Uuid)
    requires v.invoiceId != w.invoiceId && Blocks(t, v, i, w, j) && Accepts(t, v, i) && Accepts(t, w, j)
    ensures Acted(t, v, i) != Acted(t, w, j)
  {
    assert Acted(t, v, i).payments[j] == t.payments[j];
    assert Acted(t, w, j).payments[j].providerId == Some(IdLeft(t, w, j));
  }

  lemma {:induction false} FreedDiffer(seed: map<Uuid, Balance>, t: Tables, v: Webhook, w: Webhook, i: Uuid, j: Uuid)
    requires Sound(seed, t) && v.invoiceId != w.invoiceId && Frees(t, v, i, w, j)
    ensures SettlePayment(SettlePayment(t, v).1, w).1 != SettlePayment(SettlePayment(t, w).1, v).1
  {
    TakenIsIdle(t, w, j, i);
    ActsTo(seed, t, v, i);
    FreedActs(t, v, w, i, j);
    ActAfter(seed, t, v, w, i, j);
    FreedRows(t, v, w, i, j);
  }

  // Row j has the empty id if v came first, and not otherwise.
  lemma {:induction false} FreedRows(t: Tables, v: Webhook, w: Webhook, i: Uuid, j: Uuid)
    requires i != j && Frees(t, v, i, w, j) && Accepts(t, v, i)
    requires Acts(Acted(t, v, i), w, j) && Accepts(Acted(t, v, i), w, j)
    ensures Acted(Acted(t, v, i), w, j) != Acted(t, v, i)
  {
    assert Acted(t, v, i).payments[j] == t.payments[j];
    assert Acted(Acted(t, v, i), w, j).payments[j].providerId == Some("");
  }

  lemma {:induction false} FreedActs(t: Tables, v: Webhook, w: Webhook, i: Uuid, j: Uuid)
    requires t.ProviderIdsUnique() && i != j && Frees(t, v, i, w, j) && Accepts(t, v, i)
    ensures Acts(Acted(t, v, i), w, j)
  {
    var u := Acted(t, v, i);
    assert u.payments[i].providerId == Some(v.id) && u.payments[j] == t.payments[j];
    forall k | k in u.payments ensures u.payments[k].providerId != Some("") {
      assert k != i ==> t.payments[k].providerId != t.payments[i].providerId;
    }
  }

  // Two deliveries for different invoices commute, from a sound state, exactly if neither affects the other:
  // they do not both lead to one new id, and neither replaces an empty id that the other is waiting for.
  lemma {:induction false} CommuteIffUnaffected(seed: map<Uuid, Balance>, t: Tables, v: Webhook, w: Webhook)
    requires Sound(seed, t) && v.invoiceId != w.invoiceId
    ensures SettlePayment(SettlePayment(t, v).1, w).1 == SettlePayment(SettlePayment(t, w).1, v).1
        <==> !Affects(t, v, w) && !Affects(t, w, v)
  {
    if i, j :| Blocks(t, v, i, w, j) || Frees(t, v, i, w, j) {
      AffectedDiffer(seed, t, v, w, i, j);
    } else if i, j :| Blocks(t, w, i, v, j) || Frees(t, w, i, v, j) {
      AffectedDiffer(seed, t, w, v, i, j);
    } else {
      UnaffectedCommute(seed, t, v, w);
    }
  }

  lemma {:induction false} AffectedDiffer(seed: map<Uuid, Balance>, t: Tables, v: Webhook, w: Webhook, i: Uuid, j: Uuid)
    requires Sound(seed, t) && v.invoiceId != w.invoiceId && (Blocks(t, v, i, w, j) || Frees(t, v, i, w, j))
    ensures SettlePayment(SettlePayment(t, v).1, w).1 != SettlePayment(SettlePayment(t, w).1, v).1
  {
    if Blocks(t, v, i, w, j) {
      BlockedDiffer(seed, t, v, w, i, j);
    } else {
      FreedDiffer(seed, t, v, w, i, j);
    }
  }

  // ----- the answers

  // What w is answered in a sound state in which row k has its invoice.
  predicate Refused(t: Tables, w: Webhook, k: Uuid) {
    Concerns(t, w, k) && t.ProviderIdTaken(k, IdLeft(t, w, k))
  }

  lemma {:induction false} AnswerFor(seed: map<Uuid, Balance>, t: Tables, w: Webhook, k: Uuid)
    requires Sound(seed, t) && k in t.payments && t.payments[k].invoiceId == w.invoiceId
    ensures SettlePayment(t, w).0
         == if Refused(t, w, k) then Raised(UniqueViolation) else Returned(ParseVerdict(w.status).Some?)
  {
    assert PaymentSound(t.payments[k]);
    if Concerns(t, w, k) {
      GuardsNeverRefuse(seed, t, w, k);
    } else {
      OneRow(t, w.invoiceId, k);
    }
  }

  lemma {:induction false} AnswerForNone(t: Tables, w: Webhook)
    requires forall k :: k in t.payments ==> t.payments[k].invoiceId != w.invoiceId
    ensures SettlePayment(t, w).0 == Returned(false)
  {
    assert t.WithInvoice(w.invoiceId) == {};
  }

  lemma {:induction false} RefusedAlike(t: Tables, v: Webhook, i: Uuid, w: Webhook, k: Uuid)
    requires t.ProviderIdsUnique() && Acts(t, v, i) && Accepts(t, v, i) && v.invoiceId != w.invoiceId
    requires k in t.payments && t.payments[k].invoiceId == w.invoiceId
    requires !Blocks(t, v, i, w, k) && !Frees(t, v, i, w, k)
    ensures k in Acted(t, v, i).payments && Acted(t, v, i).payments[k] == t.payments[k]
    ensures Refused(Acted(t, v, i), w, k) <==> Refused(t, w, k)
  {
    if Concerns(t, w, k) {
      TakenUnchanged(t, Acted(t, v, i), v, i, w, k);
    }
  }

  lemma {:induction false} AnswersAgree(seed: map<Uuid, Balance>, t: Tables, u: Tables, w: Webhook, k: Uuid)
    requires Sound(seed, t) && Sound(seed, u) && k in t.payments && k in u.payments && u.payments[k] == t.payments[k]
    requires t.payments[k].invoiceId == w.invoiceId && (Refused(u, w, k) <==> Refused(t, w, k))
    ensures SettlePayment(u, w).0 == SettlePayment(t, w).0
  {
    AnswerFor(seed, t, w, k);
    AnswerFor(seed, u, w, k);
  }

  lemma {:induction false} NoneAgree(t: Tables, v: Webhook, i: Uuid, w: Webhook)
    requires Acts(t, v, i) && Accepts(t, v, i) && v.invoiceId != w.invoiceId
    requires forall k :: k in t.payments ==> t.payments[k].invoiceId != w.invoiceId
    ensures SettlePayment(Acted(t, v, i), w).0 == SettlePayment(t, w).0
  {
    AnswerForNone(t, w);
    AnswerForNone(Acted(t, v, i), w);
  }

  lemma {:induction false} ActedAnswersAlike(seed: map<Uuid, Balance>, t: Tables, v: Webhook, i: Uuid, w: Webhook)
    requires Sound(seed, t) && Acts(t, v, i) && Accepts(t, v, i) && Sound(seed, Acted(t, v, i))
    requires v.invoiceId != w.invoiceId && !Affects(t, v, w)
    ensures SettlePayment(Acted(t, v, i), w).0 == SettlePayment(t, w).0
  {
    if k :| k in t.payments && t.payments[k].invoiceId == w.invoiceId {
      assert !Blocks(t, v, i, w, k) && !Frees(t, v, i, w, k);
      RefusedAlike(t, v, i, w, k);
      AnswersAgree(seed, t, Acted(t, v, i), w, k);
    } else {
      NoneAgree(t, v, i, w);
    }
  }

  // A webhook is answered alike before and after one for another invoice that does not affect it.
  lemma {:induction false} AnsweredAlike(seed: map<Uuid, Balance>, t: Tables, v: Webhook, w: Webhook)
    requires Sound(seed, t) && v.invoiceId != w.invoiceId && !Affects(t, v, w)
    ensures SettlePayment(SettlePayment(t, v).1, w).0 == SettlePayment(t, w).0
  {
    if i :| Acts(t, v, i) {
      ActsTo(seed, t, v, i);
      ActedAnswersAlike(seed, t, v, i, w);
    } else {
      IdleMeans(t, v);
    }
  }
}
