// The rows, events and messages that the gateway and the provider exchange.
module Entities {

  // A 128-bit identifier (section 4 of RFC 9562), as stored in the primary keys.
  type Uuid = u: nat | u < 0x1_0000_0000_0000_0000_0000_0000_0000_0000

  datatype Option<+T> = None | Some(value: T)

  datatype Exception =
    | UniqueViolation   // a primary or unique key is already taken
    | MultipleRows      // a single-row lookup matched several rows
    | DatabaseFault     // the connection broke during a call
    | ProviderFailed    // the provider did not answer with a created payment
    | InvalidAmount     // the provider could not read the amount
    | PublishFailed     // the broker did not confirm a message

  // What a call does: it returns a value or raises.
  datatype Outcome<+T> = Returned(value: T) | Raised(exception: Exception) {
    predicate IsFailure() {
      Raised?
    }

    function PropagateFailure<U>(): Outcome<U>
      requires Raised?
    {
      Raised(exception)
    }

    function Extract(): T
      requires Returned?
    {
      value
    }
  }

  datatype PaymentStatus = Created | Processing | Completed | Canceled | Failed {
    predicate Terminal() {
      Completed? || Canceled? || Failed?
    }

    predicate Open() {
      Created? || Processing?
    }
  }

  // The provider's statuses: "Created", "Completed" and "Canceled".
  datatype Verdict = Accepted | Approved | Declined

  // Any other string is not a status.
  function ParseVerdict(text: string): Option<Verdict> {
    if text == "Created" then Some(Accepted)
    else if text == "Completed" then Some(Approved)
    else if text == "Canceled" then Some(Declined)
    else None
  }

  datatype Balance = Balance(amount: int, reserved: int) {
    function Available(): int {
      amount - reserved
    }
  }

  // The three ways balance.py changes a balance.
  datatype BalanceOp = Reserve | Confirm | Release

  datatype Payment = Payment(
    merchantId: Uuid,
    orderId: string,
    invoiceId: string,
    providerId: Option<string>,
    amount: int,
    status: PaymentStatus,
    providerStatus: Option<string>,
    failureReason: Option<string>,
    createdAt: int)

  // The payload of a "payment.created" event.
  datatype Event = Event(paymentId: Uuid, merchantId: Uuid, invoiceId: string, amount: int, status: PaymentStatus)

  // PENDING, PROCESSING, SENT and FAILED of the outbox.
  datatype OutboxStatus = Pending | Publishing | Sent | Dead

  datatype Message = Message(
    topic: string,
    payload: Event,
    status: OutboxStatus,
    retryCount: nat,
    errorMessage: Option<string>,
    createdAt: int)

  datatype Webhook = Webhook(id: string, invoiceId: string, status: string)

  // The arguments of create_payment, with the values the database and uuid4 supply.
  datatype Order = Order(
    merchantId: Uuid,
    orderId: string,
    amount: int,
    paymentId: Uuid,
    messageId: Uuid,
    now: int)

  // The three tables the saga works on.
  datatype Tables = Tables(
    balances: map<Uuid, Balance>,
    payments: map<Uuid, Payment>,
    outbox: map<Uuid, Message>)
  {
    // Unique key on payment.external_invoice_id.
    ghost predicate InvoicesUnique() {
      forall j, k :: j in payments && k in payments && payments[j].invoiceId == payments[k].invoiceId ==> j == k
    }

    // Unique key on payment.provider_payment_id; nulls never clash.
    predicate ProviderIdsUnique() {
      forall j, k | j in payments && k in payments && payments[j].providerId.Some?
        :: payments[j].providerId == payments[k].providerId ==> j == k
    }

    predicate InvoiceTaken(invoiceId: string) {
      exists k :: k in payments && payments[k].invoiceId == invoiceId
    }

    // Some payment other than k stores this provider id.
    predicate ProviderIdTaken(k: Uuid, providerId: string) {
      exists j :: j in payments && j != k && payments[j].providerId == Some(providerId)
    }

    function WithInvoice(invoiceId: string): set<Uuid> {
      set k | k in payments && payments[k].invoiceId == invoiceId
    }

    function WithOrder(merchantId: Uuid, orderId: string): set<Uuid> {
      set k | k in payments && payments[k].merchantId == merchantId && payments[k].orderId == orderId
    }
  }
}
