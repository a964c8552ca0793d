// The provider emulator: it accepts payments and later sends one webhook for each.
module Provider {
  import opened Entities
  import opened Amounts

  datatype ProviderPayment = ProviderPayment(id: string, invoiceId: string, amount: nat, callbackUrl: string,
                                             status: string)

  // The verdict is the parity of the amount the provider read.
  function FinalStatus(amount: nat): string {
    if amount % 2 == 0 then "Completed" else "Canceled"
  }

  function WebhookFor(p: ProviderPayment): Webhook {
    Webhook(p.id, p.invoiceId, FinalStatus(p.amount))
  }

  // Each accepted request has its one webhook, sent or still to be sent. While ids are not given twice,
  // the one of a payment is outstanding exactly as long as its status is Created.
  ghost predicate Balanced(payments: map<string, ProviderPayment>, tasks: multiset<string>, accepted: seq<string>,
                           sent: seq<string>)
  {
    && multiset(sent) + tasks == multiset(accepted)
    && (forall id :: id in payments <==> id in accepted)
    && (forall id :: id in payments ==> payments[id].id == id)
    && (forall id :: id in accepted && multiset(accepted)[id] == 1 ==>
          (id in tasks <==> payments[id].status == "Created"))
  }

  lemma {:induction false} IdIsStored(payments: map<string, ProviderPayment>, tasks: multiset<string>,
                                      accepted: seq<string>, sent: seq<string>, id: string)
    requires Balanced(payments, tasks, accepted, sent) && id in tasks
    ensures id in payments && payments[id].id == id
  {
    assert id in multiset(sent) + tasks;
  }

  // Sending one outstanding webhook keeps the books.
  lemma {:induction false} SendingKeepsBalance(payments: map<string, ProviderPayment>, tasks: multiset<string>,
                                               accepted: seq<string>, sent: seq<string>, id: string, p: ProviderPayment)
    requires Balanced(payments, tasks, accepted, sent) && id in tasks && p.id == id && p.status != "Created"
    ensures id in payments && Balanced(payments[id := p], tasks - multiset{id}, accepted, sent + [id])
  {
    var ms := multiset(sent);
    IdIsStored(payments, tasks, accepted, sent, id);
    assert multiset(sent + [id]) == ms + multiset{id};
    assert (ms + multiset{id}) + (tasks - multiset{id}) == ms + tasks;
    forall j | j in accepted && multiset(accepted)[j] == 1
      ensures j in tasks - multiset{id} <==> payments[id := p][j].status == "Created"
    {
      assert ms[j] + tasks[j] == 1;
    }
  }

  // And so does accepting a request.
  lemma {:induction false} AcceptingKeepsBalance(payments: map<string, ProviderPayment>, tasks: multiset<string>,
                                                 accepted: seq<string>, sent: seq<string>, p: ProviderPayment)
    requires Balanced(payments, tasks, accepted, sent) && p.status == "Created"
    ensures Balanced(payments[p.id := p], tasks + multiset{p.id}, accepted + [p.id], sent)
  {
    assert multiset(accepted + [p.id]) == multiset(accepted) + multiset{p.id};
    assert multiset(sent) + (tasks + multiset{p.id}) == multiset(sent) + tasks + multiset{p.id};
    forall j | j in accepted + [p.id] && multiset(accepted + [p.id])[j] == 1
      ensures j in tasks + multiset{p.id} <==> payments[p.id := p][j].status == "Created"
    {
      assert j != p.id ==> multiset(accepted)[j] == 1;
    }
  }

  class ProviderService {
    var payments: map<string, ProviderPayment>
    var tasks: multiset<string>       // payments whose webhook is still to be sent
    ghost var accepted: seq<string>   // the requests answered with a payment, in order
    ghost var sent: seq<string>       // the webhooks sent, in order

    ghost predicate Valid()
      reads this
    {
      Balanced(payments, tasks, accepted, sent)
    }

    constructor ()
      ensures Valid() && payments == map[] && tasks == multiset{} && accepted == [] && sent == []
    {
      payments := map[];
      tasks := multiset{};
      accepted := [];
      sent := [];
    }

    // id is the fresh uuid4 text.
    method CreatePayment(invoiceId: string, amountText: string, callbackUrl: string, id: string)
      returns (r: Outcome<ProviderPayment>)
      requires Valid()
      modifies this
      ensures Valid() && sent == old(sent)
      ensures match ParseAmount(amountText)
              case None => r == Raised(InvalidAmount) && payments == old(payments) && tasks == old(tasks)
              case Some(amount) =>
                && r == Returned(ProviderPayment(id, invoiceId, amount, callbackUrl, "Created"))
                && payments == old(payments)[id := r.value] && tasks == old(tasks) + multiset{id}
    {
      var amount := ParseAmount(amountText);
      if amount.None? {
        return Raised(InvalidAmount);
      }
      var payment := ProviderPayment(id, invoiceId, amount.value, callbackUrl, "Created");
      AcceptingKeepsBalance(payments, tasks, accepted, sent, payment);
      payments := payments[id := payment];
      tasks := tasks + multiset{id};
      accepted := accepted + [id];
      return Returned(payment);
    }

    // Runs one outstanding task: the payment gets its final status and the webhook goes out.
    method SendWebhook(id: string) returns (w: Webhook)
      requires Valid() && id in tasks
      modifies this
      ensures Valid() && sent == old(sent) + [id]
      ensures id in old(payments) && w == WebhookFor(old(payments)[id])
      ensures var p := old(payments)[id];
              w == Webhook(id, p.invoiceId, if p.amount % 2 == 0 then "Completed" else "Canceled")
      ensures payments == old(payments)[id := old(payments)[id].(status := w.status)]
      ensures tasks == old(tasks) - multiset{id}
    {
      IdIsStored(payments, tasks, accepted, sent, id);
      var finalStatus := FinalStatus(payments[id].amount);
      SendingKeepsBalance(payments, tasks, accepted, sent, id, payments[id].(status := finalStatus));
      payments := payments[id := payments[id].(status := finalStatus)];
      tasks := tasks - multiset{id};
      sent := sent + [id];
      w := Webhook(payments[id].id, payments[id].invoiceId, finalStatus);
    }
  }

  // An accepted payment fires at most one webhook, and has fired it exactly when its status is final.
  lemma {:induction false} OneWebhookEach(p: ProviderService, id: string)
    requires p.Valid() && multiset(p.accepted)[id] == 1
    ensures id in p.payments && multiset(p.sent)[id] <= 1
    ensures multiset(p.sent)[id] == 1 <==> p.payments[id].status != "Created"
  {
    assert multiset(p.sent)[id] + p.tasks[id] == (multiset(p.sent) + p.tasks)[id];
    assert id in multiset(p.accepted);
  }
}
