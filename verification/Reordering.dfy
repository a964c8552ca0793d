// Webhooks may arrive in any order: only the order within one invoice matters.
module Reordering {
  import opened Entities
  import opened Transactions
  import opened Ledger
  import opened Commuting

  // The tables after a sequence of deliveries.
  ghost function DeliverAll(t: Tables, ws: seq<Webhook>): Tables
    decreases |ws|
  {
    if ws == [] then t else DeliverAll(SettlePayment(t, ws[0]).1, ws[1..])
  }

  // The deliveries for one invoice, in order.
  function ForInvoice(ws: seq<Webhook>, invoiceId: string): seq<Webhook> {
    if ws == [] then []
    else (if ws[0].invoiceId == invoiceId then [ws[0]] else []) + ForInvoice(ws[1..], invoiceId)
  }

  // Provider ids are not empty, and deliveries for different invoices carry different ones.
  predicate Apart(v: Webhook, w: Webhook) {
    v.id != "" && w.id != "" && (v.invoiceId != w.invoiceId ==> v.id != w.id)
  }

  predicate AllApart(ws: seq<Webhook>) {
    forall i, j :: 0 <= i < |ws| && 0 <= j < |ws| ==> Apart(ws[i], ws[j])
  }

  lemma {:induction false} ApartUnaffected(t: Tables, v: Webhook, w: Webhook)
    requires t.ProviderIdsUnique() && Apart(v, w) && v.invoiceId != w.invoiceId
    ensures !Affects(t, v, w)
  {
    forall i, j ensures !Blocks(t, v, i, w, j) && !Frees(t, v, i, w, j) {}
  }

  // Two such deliveries for different invoices commute in every sound state.
  lemma {:induction false} DeliveriesCommute(seed: map<Uuid, Balance>, t: Tables, v: Webhook, w: Webhook)
    requires Sound(seed, t) && Apart(v, w) && v.invoiceId != w.invoiceId
    ensures SettlePayment(SettlePayment(t, v).1, w).1 == SettlePayment(SettlePayment(t, w).1, v).1
  {
    ApartUnaffected(t, v, w);
    ApartUnaffected(t, w, v);
    CommuteIffUnaffected(seed, t, v, w);
  }

  // ----- whole sequences

  // A delivery may be moved to the front past deliveries for other invoices.
  lemma {:induction false} MoveToFront(seed: map<Uuid, Balance>, t: Tables, pre: seq<Webhook>, w: Webhook,
                                       post: seq<Webhook>)
    requires Sound(seed, t)
    requires forall v :: v in pre ==> Apart(v, w) && v.invoiceId != w.invoiceId
    ensures DeliverAll(t, pre + [w] + post) == DeliverAll(SettlePayment(t, w).1, pre + post)
    decreases |pre|
  {
    if pre == [] {
      assert pre + [w] + post == [w] + post;
      assert pre + post == post;
      assert ([w] + post)[1..] == post;
    } else {
      var v, rest := pre[0], pre[1..];
      assert (pre + [w] + post)[1..] == rest + [w] + post;
      assert (pre + post)[1..] == rest + post;
      StepKeepsSound(seed, t, Deliver(v));
      MoveToFront(seed, SettlePayment(t, v).1, rest, w, post);
      assert v in pre;
      DeliveriesCommute(seed, t, v, w);
    }
  }

  lemma {:induction false} ForInvoiceConcat(a: seq<Webhook>, b: seq<Webhook>, invoiceId: string)
    ensures ForInvoice(a + b, invoiceId) == ForInvoice(a, invoiceId) + ForInvoice(b, invoiceId)
    decreases |a|
  {
    if a == [] {
      assert a + b == b;
    } else {
      assert (a + b)[1..] == a[1..] + b;
      ForInvoiceConcat(a[1..], b, invoiceId);
    }
  }

  // The first delivery for an invoice, and what stands before it.
  lemma {:induction false} FirstFor(ws: seq<Webhook>, invoiceId: string) returns (n: nat)
    requires ForInvoice(ws, invoiceId) != []
    ensures n < |ws| && ws[n] == ForInvoice(ws, invoiceId)[0] && ws[n].invoiceId == invoiceId
    ensures forall i :: 0 <= i < n ==> ws[i].invoiceId != invoiceId
    decreases |ws|
  {
    if ws[0].invoiceId == invoiceId {
      n := 0;
    } else {
      assert ForInvoice(ws, invoiceId) == ForInvoice(ws[1..], invoiceId);
      var m := FirstFor(ws[1..], invoiceId);
      n := m + 1;
    }
  }

  ghost predicate SameOrders(xs: seq<Webhook>, ys: seq<Webhook>) {
    forall invoiceId :: ForInvoice(xs, invoiceId) == ForInvoice(ys, invoiceId)
  }

  lemma {:induction false} WithFirst(w: Webhook, rest: seq<Webhook>, inv: string)
    ensures ForInvoice([w] + rest, inv)
         == if w.invoiceId == inv then [w] + ForInvoice(rest, inv) else ForInvoice(rest, inv)
  {
    assert ([w] + rest)[1..] == rest;
    assert [] + ForInvoice(rest, inv) == ForInvoice(rest, inv);
  }

  // Dropping the first delivery, and the same one where the other sequence has it,
  // keeps every invoice's order.
  lemma {:induction false} DropFirst(w: Webhook, rest: seq<Webhook>, pre: seq<Webhook>, post: seq<Webhook>)
    requires SameOrders([w] + rest, pre + ([w] + post))
    requires forall i :: 0 <= i < |pre| ==> pre[i].invoiceId != w.invoiceId
    ensures SameOrders(rest, pre + post)
  {
    forall inv ensures ForInvoice(rest, inv) == ForInvoice(pre + post, inv) {
      assert ForInvoice([w] + rest, inv) == ForInvoice(pre + ([w] + post), inv);
      WithFirst(w, rest, inv);
      WithFirst(w, post, inv);
      ForInvoiceConcat(pre, [w] + post, inv);
      ForInvoiceConcat(pre, post, inv);
      if inv == w.invoiceId {
        NoneFor(pre, inv);
        assert [] + ([w] + ForInvoice(post, inv)) == [w] + ForInvoice(post, inv);
        assert ([w] + ForInvoice(rest, inv))[1..] == ForInvoice(rest, inv);
        assert ([w] + ForInvoice(post, inv))[1..] == ForInvoice(post, inv);
        assert [] + ForInvoice(post, inv) == ForInvoice(post, inv);
      }
    }
  }

  lemma {:induction false} NoneFor(ws: seq<Webhook>, invoiceId: string)
    requires forall i :: 0 <= i < |ws| ==> ws[i].invoiceId != invoiceId
    ensures ForInvoice(ws, invoiceId) == []
    decreases |ws|
  {
    if ws != [] {
      NoneFor(ws[1..], invoiceId);
    }
  }

  lemma {:induction false} SomeFor(ws: seq<Webhook>)
    requires ws != []
    ensures ForInvoice(ws, ws[0].invoiceId) != []
  {
  }

  lemma {:induction false} NothingLeft(ys: seq<Webhook>)
    requires SameOrders([], ys)
    ensures ys == []
  {
    if ys != [] {
      SomeFor(ys);
      assert false;
    }
  }

  // Where the first delivery of xs stands in ys.
  lemma {:induction false} Locate(xs: seq<Webhook>, ys: seq<Webhook>) returns (pre: seq<Webhook>, post: seq<Webhook>)
    requires xs != [] && SameOrders(xs, ys)
    ensures ys == pre + [xs[0]] + post
    ensures forall v :: v in pre ==> v.invoiceId != xs[0].invoiceId
    ensures SameOrders(xs[1..], pre + post)
  {
    SomeFor(xs);
    assert ForInvoice(xs, xs[0].invoiceId) == ForInvoice(ys, xs[0].invoiceId);
    var n := FirstFor(ys, xs[0].invoiceId);
    pre, post := ys[..n], ys[n + 1..];
    SameFirst(xs, ys, n);
    DropFirst(xs[0], xs[1..], pre, post);
  }

  lemma {:induction false} SameFirst(xs: seq<Webhook>, ys: seq<Webhook>, n: nat)
    requires xs != [] && SameOrders(xs, ys) && n < |ys|
    requires ForInvoice(ys, xs[0].invoiceId) != [] && ForInvoice(ys, xs[0].invoiceId)[0] == ys[n]
    ensures ys[n] == xs[0] && [xs[0]] + xs[1..] == xs
    ensures ys == ys[..n] + [xs[0]] + ys[n + 1..] == ys[..n] + ([xs[0]] + ys[n + 1..])
  {
    assert xs == [xs[0]] + xs[1..];
    WithFirst(xs[0], xs[1..], xs[0].invoiceId);
    assert ForInvoice(xs, xs[0].invoiceId) == ForInvoice(ys, xs[0].invoiceId);
  }

  // Any reordering of deliveries that keeps each invoice's own order ends in the same tables:
  // the same statuses, provider ids and balances.
  lemma {:induction false} OrderAcrossInvoicesIsFree(seed: map<Uuid, Balance>, t: Tables, xs: seq<Webhook>,
                                                     ys: seq<Webhook>)
    requires Sound(seed, t) && SameOrders(xs, ys) && AllApart(ys)
    ensures DeliverAll(t, xs) == DeliverAll(t, ys)
    decreases |xs|
  {
    if xs == [] {
      NothingLeft(ys);
    } else {
      var pre, post := Locate(xs, ys);
      RemoveKeepsApart(pre, xs[0], post);
      MoveToFront(seed, t, pre, xs[0], post);
      StepKeepsSound(seed, t, Deliver(xs[0]));
      OrderAcrossInvoicesIsFree(seed, SettlePayment(t, xs[0]).1, xs[1..], pre + post);
    }
  }

  lemma {:induction false} RemoveKeepsApart(pre: seq<Webhook>, w: Webhook, post: seq<Webhook>)
    requires AllApart(pre + [w] + post)
    ensures AllApart(pre + post)
    ensures forall v :: v in pre ==> Apart(v, w)
  {
    var ys := pre + [w] + post;
    assert ys[|pre|] == w;
    forall v | v in pre ensures Apart(v, w) {
      var i :| 0 <= i < |pre| && pre[i] == v;
      assert ys[i] == v;
    }
    forall i, j | 0 <= i < |pre + post| && 0 <= j < |pre + post| ensures Apart((pre + post)[i], (pre + post)[j]) {
      var a, b := if i < |pre| then i else i + 1, if j < |pre| then j else j + 1;
      assert ys[a] == (pre + post)[i] && ys[b] == (pre + post)[j];
    }
  }

  // ----- the answers

  // The answer to one delivery, if it is for this invoice.
  ghost function Own(t: Tables, w: Webhook, invoiceId: string): seq<Outcome<bool>> {
    if w.invoiceId == invoiceId then [SettlePayment(t, w).0] else []
  }

  // The answers to the deliveries for one invoice, in order.
  ghost function Answered(t: Tables, ws: seq<Webhook>, invoiceId: string): seq<Outcome<bool>>
    decreases |ws|
  {
    if ws == [] then [] else Own(t, ws[0], invoiceId) + Answered(SettlePayment(t, ws[0]).1, ws[1..], invoiceId)
  }

  // Swapping two deliveries for different invoices changes neither answer.
  lemma {:induction false} OwnSwapped(seed: map<Uuid, Balance>, t: Tables, v: Webhook, w: Webhook, invoiceId: string)
    requires Sound(seed, t) && Apart(v, w) && v.invoiceId != w.invoiceId
    ensures Own(t, v, invoiceId) + Own(SettlePayment(t, v).1, w, invoiceId)
         == Own(t, w, invoiceId) + Own(SettlePayment(t, w).1, v, invoiceId)
  {
    ApartUnaffected(t, v, w);
    ApartUnaffected(t, w, v);
    AnsweredAlike(seed, t, v, w);
    AnsweredAlike(seed, t, w, v);
  }

  lemma {:induction false} AnsweredMoved(seed: map<Uuid, Balance>, t: Tables, pre: seq<Webhook>, w: Webhook,
                                         post: seq<Webhook>, invoiceId: string)
    requires Sound(seed, t)
    requires forall v :: v in pre ==> Apart(v, w) && v.invoiceId != w.invoiceId
    ensures Answered(t, pre + [w] + post, invoiceId)
         == Own(t, w, invoiceId) + Answered(SettlePayment(t, w).1, pre + post, invoiceId)
    decreases |pre|
  {
    if pre == [] {
      assert pre + [w] + post == [w] + post;
      assert pre + post == post;
      assert ([w] + post)[1..] == post;
    } else {
      var v, rest := pre[0], pre[1..];
      assert (pre + [w] + post)[1..] == rest + [w] + post;
      assert (pre + post)[1..] == rest + post;
      StepKeepsSound(seed, t, Deliver(v));
      AnsweredMoved(seed, SettlePayment(t, v).1, rest, w, post, invoiceId);
      assert v in pre;
      DeliveriesCommute(seed, t, v, w);
      OwnSwapped(seed, t, v, w, invoiceId);
      Regroup(Own(t, v, invoiceId), Own(SettlePayment(t, v).1, w, invoiceId),
              Own(t, w, invoiceId), Own(SettlePayment(t, w).1, v, invoiceId),
              Answered(SettlePayment(SettlePayment(t, v).1, w).1, rest + post, invoiceId));
    }
  }

  lemma {:induction false} Regroup<T>(a: seq<T>, b: seq<T>, c: seq<T>, d: seq<T>, rest: seq<T>)
    requires a + b == c + d
    ensures a + (b + rest) == c + (d + rest)
  {
    assert a + (b + rest) == (a + b) + rest;
    assert c + (d + rest) == (c + d) + rest;
  }

  // And any such reordering answers every delivery of every invoice alike.
  lemma {:induction false} AnswersAcrossInvoicesAreFree(seed: map<Uuid, Balance>, t: Tables, xs: seq<Webhook>,
                                                        ys: seq<Webhook>, invoiceId: string)
    requires Sound(seed, t) && SameOrders(xs, ys) && AllApart(ys)
    ensures Answered(t, xs, invoiceId) == Answered(t, ys, invoiceId)
    decreases |xs|
  {
    if xs == [] {
      NothingLeft(ys);
    } else {
      var pre, post := Locate(xs, ys);
      RemoveKeepsApart(pre, xs[0], post);
      AnsweredMoved(seed, t, pre, xs[0], post, invoiceId);
      StepKeepsSound(seed, t, Deliver(xs[0]));
      AnswersAcrossInvoicesAreFree(seed, SettlePayment(t, xs[0]).1, xs[1..], pre + post, invoiceId);
    }
  }

  // A delivery for a settled invoice is acknowledged, or refused for its status, and changes nothing.
  lemma {:induction false} SettledIsFinal(t: Tables, w: Webhook, k: Uuid)
    requires t.InvoicesUnique() && k in t.payments && t.payments[k].invoiceId == w.invoiceId
    requires t.payments[k].status.Terminal()
    ensures SettlePayment(t, w) == (Returned(ParseVerdict(w.status).Some?), t)
  {
    OneRow(t, w.invoiceId, k);
  }

  // ----- why the ids must be apart

  lemma {:induction false} DeliverTwo(t: Tables, v: Webhook, w: Webhook)
    ensures DeliverAll(t, [v, w]) == SettlePayment(SettlePayment(t, v).1, w).1
  {
    assert [v, w][1..] == [w];
    assert DeliverAll(SettlePayment(t, v).1, [w]) == SettlePayment(SettlePayment(t, v).1, w).1;
  }

  // Two deliveries for different invoices may be swapped exactly if neither affects the other.
  lemma {:induction false} SwapIffUnaffected(seed: map<Uuid, Balance>, t: Tables, v: Webhook, w: Webhook)
    requires Sound(seed, t) && v.invoiceId != w.invoiceId
    ensures DeliverAll(t, [v, w]) == DeliverAll(t, [w, v]) <==> !Affects(t, v, w) && !Affects(t, w, v)
  {
    DeliverTwo(t, v, w);
    DeliverTwo(t, w, v);
    CommuteIffUnaffected(seed, t, v, w);
  }

  // v and w offer one unused id to two CREATED payments.
  ghost predicate Contested(t: Tables, v: Webhook, w: Webhook, i: Uuid, j: Uuid) {
    && i in t.payments && t.payments[i].status.Created? && t.payments[i].invoiceId == v.invoiceId
    && j in t.payments && t.payments[j].status.Created? && t.payments[j].invoiceId == w.invoiceId
    && i != j && v.id == w.id && ParseVerdict(v.status).Some? && ParseVerdict(w.status).Some?
    && !t.ProviderIdTaken(i, v.id)
  }

  // Distinct ids are needed: of two webhooks that contest an id the first to arrive wins.
  lemma {:induction false} SharedIdsOrderMatters(seed: map<Uuid, Balance>, t: Tables, v: Webhook, w: Webhook, i: Uuid,
                                                 j: Uuid)
    requires Sound(seed, t) && Contested(t, v, w, i, j)
    ensures DeliverAll(t, [v, w]) != DeliverAll(t, [w, v])
  {
    assert PaymentSound(t.payments[i]) && PaymentSound(t.payments[j]);
    assert Blocks(t, v, i, w, j);
    SwapIffUnaffected(seed, t, v, w);
  }

  // v offers an unused id to an open payment that stores the empty id, w the empty id to a CREATED one.
  ghost predicate EmptyContested(t: Tables, v: Webhook, w: Webhook, i: Uuid, j: Uuid) {
    && i in t.payments && t.payments[i].status.Open() && t.payments[i].invoiceId == v.invoiceId
    && j in t.payments && t.payments[j].status.Created? && t.payments[j].invoiceId == w.invoiceId
    && t.payments[i].providerId == Some("") && ParseVerdict(v.status).Some? && ParseVerdict(w.status).Some?
    && v.id != "" && w.id == "" && !t.ProviderIdTaken(i, v.id)
  }

  // Non-empty ids are needed, although the two are distinct: v must come first for w to get the empty id.
  lemma {:induction false} EmptyIdOrderMatters(seed: map<Uuid, Balance>, t: Tables, v: Webhook, w: Webhook, i: Uuid,
                                               j: Uuid)
    requires Sound(seed, t) && EmptyContested(t, v, w, i, j)
    ensures DeliverAll(t, [v, w]) != DeliverAll(t, [w, v])
  {
    assert PaymentSound(t.payments[j]);
    assert Frees(t, v, i, w, j);
    SwapIffUnaffected(seed, t, v, w);
  }
}
