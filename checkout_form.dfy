/** The checkout form: it fetches a payment-intent secret for the current
    record and, on submit, runs card check, payment-method creation, charge
    confirmation, order write and inventory decrement in that order, each with
    its own early exit. Stripe and the backend are not modelled: what they
    answer is a parameter of each step, and every call made (with the answer it
    got) and every toast, log line, refetch, navigation and modal close is
    appended to a trace. */
module Checkout {
  import opened Purchase

  /** Answer of `POST /create-payment-intent`. */
  datatype AuthResult = AuthOk(clientSecret: string) | AuthFailed

  /** Answer of `stripe.createPaymentMethod`. */
  datatype PMResult = PMCreated(paymentMethodId: string) | PMError

  datatype IntentStatus =
    | Succeeded | RequiresAction | RequiresPaymentMethod | RequiresConfirmation
    | Processing | RequiresCapture | Canceled

  datatype PaymentIntent = PaymentIntent(id: string, status: IntentStatus)

  /** Answer of `stripe.confirmCardPayment`: an intent, or an error with no intent. */
  datatype ConfirmResult = Confirmed(intent: PaymentIntent) | ConfirmError

  /** Answer of an axios write (`POST /order`, `PATCH /plants/quantity/:id`). */
  datatype WriteResult = WriteOk | WriteFailed

  /** Everything the outside world decides during one submit. */
  datatype SubmitEnv = SubmitEnv(
    stripeLoaded: bool, elementsLoaded: bool, cardMounted: bool,
    paymentMethod: PMResult, confirmation: ConfirmResult,
    orderWrite: WriteResult, inventoryPatch: WriteResult)

  datatype Billing = Billing(name: Option<string>, email: Option<string>)

  /** The order body: the purchase record plus the transaction id. */
  datatype Order = Order(info: PurchaseInfo, transactionId: string)

  datatype Event =
    | IntentRequested(quantity: int, plantId: string, auth: AuthResult)
    | PaymentMethodCreated(pm: PMResult)
    | CardPaymentConfirmed(clientSecret: string, billing: Billing, confirmation: ConfirmResult)
    | OrderPosted(order: Order, write: WriteResult)
    | InventoryPatched(plantId: string, quantityToUpdate: int, direction: string, write: WriteResult)
    | Logged(tag: string)
    | SuccessToast(message: string)
    | Refetched
    | Navigated(path: string)
    | ModalClosed

  /** The form's own state plus the trace of what it did. */
  datatype Form = Form(clientSecret: string, processing: bool, trace: seq<Event>)

  const Start := Form("", false, [])
  const DecreaseDirection := "decrease"
  const OrdersPath := "/dashboard/my-orders"
  const SuccessMessage := "Order Successful!"
  const ErrorTag := "[error]"
  const PaymentMethodTag := "[PaymentMethod]"
  const CaughtTag := "err"

  /** The external calls: Stripe and the backend. */
  predicate IsCall(e: Event) {
    e.IntentRequested? || e.PaymentMethodCreated? || e.CardPaymentConfirmed?
    || e.OrderPosted? || e.InventoryPatched?
  }

  function BillingOf(info: PurchaseInfo): Billing {
    Billing(info.customer.name, info.customer.email)
  }

  predicate IsSucceeded(c: ConfirmResult) {
    c.Confirmed? && c.intent.status == Succeeded
  }

  /** The submit gets as far as the charge confirmation. */
  predicate ReachesConfirm(env: SubmitEnv) {
    env.stripeLoaded && env.elementsLoaded && env.cardMounted && env.paymentMethod.PMCreated?
  }

  /** `paymentIntent?.id`. */
  function TransactionId(c: ConfirmResult): string {
    if c.Confirmed? then c.intent.id else ""
  }

  /** The Pay button's `disabled` attribute. */
  predicate PayDisabled(stripeLoaded: bool, clientSecret: string, processing: bool) {
    !stripeLoaded || clientSecret == "" || processing
  }

  /** `getPaymentIntent` as a step on the form's state. */
  function FetchIntent(f: Form, info: PurchaseInfo, auth: AuthResult): (g: Form)
    ensures g.processing == f.processing
    ensures g.clientSecret == (if auth.AuthOk? then auth.clientSecret else f.clientSecret)
    ensures |g.trace| > |f.trace| && g.trace[..|f.trace|] == f.trace
    ensures g.trace[|f.trace|] == IntentRequested(info.quantity, info.plantId, auth)
  {
    var t := f.trace + [IntentRequested(info.quantity, info.plantId, auth)];
    match auth
    case AuthOk(secret) => f.(clientSecret := secret, trace := t)
    case AuthFailed => f.(trace := t + [Logged(CaughtTag)])
  }

  /** The `try` block after a succeeded intent: the order write, then (only if
      it went through) the inventory patch, then (only if both went through)
      toast, refetch and navigation; a failure is only logged. */
  function CommitEvents(info: PurchaseInfo, totalQuantity: int, env: SubmitEnv): (es: seq<Event>)
    ensures |es| >= 2 && es[0] == OrderPosted(Order(info, TransactionId(env.confirmation)), env.orderWrite)
    ensures InventoryPatched(info.plantId, totalQuantity, DecreaseDirection, env.inventoryPatch) in es
        <==> env.orderWrite.WriteOk?
    ensures SuccessToast(SuccessMessage) in es <==> env.orderWrite.WriteOk? && env.inventoryPatch.WriteOk?
    ensures Logged(CaughtTag) in es <==> env.orderWrite.WriteFailed? || env.inventoryPatch.WriteFailed?
  {
    var order := OrderPosted(Order(info, TransactionId(env.confirmation)), env.orderWrite);
    var patch := InventoryPatched(info.plantId, totalQuantity, DecreaseDirection, env.inventoryPatch);
    if env.orderWrite.WriteFailed? then [order, Logged(CaughtTag)]
    else if env.inventoryPatch.WriteFailed? then [order, patch, Logged(CaughtTag)]
    else [order, patch, SuccessToast(SuccessMessage), Refetched, Navigated(OrdersPath)]
  }

  /** What one submit appends to the trace. */
  function SubmitEvents(secret: string, info: PurchaseInfo, totalQuantity: int, env: SubmitEnv): (es: seq<Event>)
    ensures es == [] <==> !env.stripeLoaded || !env.elementsLoaded || !env.cardMounted
    ensures ModalClosed in es <==> ReachesConfirm(env) && IsSucceeded(env.confirmation)
  {
    if !env.stripeLoaded || !env.elementsLoaded || !env.cardMounted then []
    else if env.paymentMethod.PMError? then [PaymentMethodCreated(env.paymentMethod), Logged(ErrorTag)]
    else
      var confirmed := [PaymentMethodCreated(env.paymentMethod), Logged(PaymentMethodTag),
                        CardPaymentConfirmed(secret, BillingOf(info), env.confirmation)];
      if IsSucceeded(env.confirmation) then confirmed + CommitEvents(info, totalQuantity, env) + [ModalClosed]
      else confirmed
  }

  /** `processing` after one submit: left true when Stripe is not loaded and
      when the intent did not succeed, reset on every other path. */
  predicate StuckAfter(env: SubmitEnv): (stuck: bool)
    ensures env.stripeLoaded && env.elementsLoaded ==>
      (stuck <==> ReachesConfirm(env) && !IsSucceeded(env.confirmation))
    ensures ReachesConfirm(env) && IsSucceeded(env.confirmation) ==> !stuck
  {
    || !env.stripeLoaded || !env.elementsLoaded
    || (env.cardMounted && env.paymentMethod.PMCreated? && !IsSucceeded(env.confirmation))
  }

  /** `handleSubmit` as a step on the form's state; it never changes the secret. */
  function Submit(f: Form, info: PurchaseInfo, totalQuantity: int, env: SubmitEnv): (g: Form)
    ensures g.clientSecret == f.clientSecret
    ensures |g.trace| >= |f.trace| && g.trace[..|f.trace|] == f.trace
    ensures ModalClosed in g.trace[|f.trace|..] ==> !g.processing
  {
    Form(f.clientSecret, StuckAfter(env), f.trace + SubmitEvents(f.clientSecret, info, totalQuantity, env))
  }

  /** The form as an object: `clientSecret` and `processing` are its state,
      `trace` records its effects on the outside world. */
  class CheckoutForm {
    var clientSecret: string
    var processing: bool
    var trace: seq<Event>

    function Snapshot(): Form
      reads this
    {
      Form(clientSecret, processing, trace)
    }

    constructor ()
      ensures Snapshot() == Start
    {
      clientSecret := "";
      processing := false;
      trace := [];
    }

    /** The Pay button is enabled exactly when Stripe is loaded, a secret is
        held and no submit is in progress. */
    method PayEnabled(stripeLoaded: bool) returns (enabled: bool)
      ensures enabled <==> stripeLoaded && clientSecret != "" && !processing
      ensures enabled == !PayDisabled(stripeLoaded, clientSecret, processing)
    {
      enabled := !(!stripeLoaded || clientSecret == "" || processing);
    }

    method GetPaymentIntent(info: PurchaseInfo, auth: AuthResult)
      modifies this
      ensures Snapshot() == FetchIntent(old(Snapshot()), info, auth)
      ensures processing == old(processing)
      ensures auth.AuthOk? ==>
        && clientSecret == auth.clientSecret
        && trace == old(trace) + [IntentRequested(info.quantity, info.plantId, auth)]
      ensures auth.AuthFailed? ==>
        && clientSecret == old(clientSecret)
        && trace == old(trace) + [IntentRequested(info.quantity, info.plantId, auth), Logged(CaughtTag)]
    {
      trace := trace + [IntentRequested(info.quantity, info.plantId, auth)];
      match auth {
        case AuthOk(secret) =>
          clientSecret := secret;
        case AuthFailed =>
          trace := trace + [Logged(CaughtTag)];
      }
    }

    method HandleSubmit(info: PurchaseInfo, totalQuantity: int, env: SubmitEnv)
      modifies this
      ensures Snapshot() == Submit(old(Snapshot()), info, totalQuantity, env)
    {
      ghost var t0 := trace;
      processing := true;
      if !env.stripeLoaded || !env.elementsLoaded {
        return;
      }
      if !env.cardMounted {
        processing := false;
        return;
      }
      trace := trace + [PaymentMethodCreated(env.paymentMethod)];
      if env.paymentMethod.PMError? {
        processing := false;
        trace := trace + [Logged(ErrorTag)];
        assert trace == t0 + [PaymentMethodCreated(env.paymentMethod), Logged(ErrorTag)];
        return;
      }
      trace := trace + [Logged(PaymentMethodTag)];
      trace := trace + [CardPaymentConfirmed(clientSecret, BillingOf(info), env.confirmation)];
      ghost var confirmed := [PaymentMethodCreated(env.paymentMethod), Logged(PaymentMethodTag),
                              CardPaymentConfirmed(clientSecret, BillingOf(info), env.confirmation)];
      assert trace == t0 + confirmed;
      if env.confirmation.Confirmed? && env.confirmation.intent.status == Succeeded {
        SaveOrder(info, totalQuantity, env);
        assert trace == t0 + confirmed + CommitEvents(info, totalQuantity, env) + [ModalClosed];
      }
    }

    /** The `try`/`catch`/`finally` after a succeeded intent: both writes in
        order, a log line for the first one that fails, and in every case
        `processing` reset and the modal closed. */
    method SaveOrder(info: PurchaseInfo, totalQuantity: int, env: SubmitEnv)
      requires IsSucceeded(env.confirmation)
      modifies this
      ensures clientSecret == old(clientSecret) && !processing
      ensures trace == old(trace) + CommitEvents(info, totalQuantity, env) + [ModalClosed]
    {
      ghost var t1 := trace;
      var failed := false;
      trace := trace + [OrderPosted(Order(info, env.confirmation.intent.id), env.orderWrite)];
      if env.orderWrite.WriteFailed? {
        failed := true;
      } else {
        trace := trace + [InventoryPatched(info.plantId, totalQuantity, DecreaseDirection, env.inventoryPatch)];
        failed := env.inventoryPatch.WriteFailed?;
      }
      if failed {
        trace := trace + [Logged(CaughtTag)];
      } else {
        trace := trace + [SuccessToast(SuccessMessage), Refetched, Navigated(OrdersPath)];
      }
      assert trace == t1 + CommitEvents(info, totalQuantity, env);
      // finally
      processing := false;
      trace := trace + [ModalClosed];
    }
  }
}
