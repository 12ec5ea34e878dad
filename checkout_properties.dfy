/** What one call of `handleSubmit` does, branch by branch, and the ordering
    of the external calls it makes. */
module CheckoutProperties {
  import opened Purchase
  import opened Checkout

  /** The external calls of a trace, in order. */
  function Calls(t: seq<Event>): seq<Event>
    decreases |t|
  {
    if t == [] then [] else (if IsCall(t[0]) then [t[0]] else []) + Calls(t[1..])
  }

  lemma {:induction false} CallsAppend(a: seq<Event>, b: seq<Event>)
    ensures Calls(a + b) == Calls(a) + Calls(b)
    decreases |a|
  {
    if a == [] {
      assert a + b == b;
    } else {
      var h := if IsCall(a[0]) then [a[0]] else [];
      assert (a + b)[0] == a[0];
      assert (a + b)[1..] == a[1..] + b;
      assert Calls(a) == h + Calls(a[1..]);
      assert Calls(a + b) == h + Calls(a[1..] + b);
      CallsAppend(a[1..], b);
      assert h + (Calls(a[1..]) + Calls(b)) == (h + Calls(a[1..])) + Calls(b);
    }
  }

  lemma CallsCons(e: Event, t: seq<Event>)
    ensures Calls([e] + t) == (if IsCall(e) then [e] else []) + Calls(t)
  {
    assert ([e] + t)[1..] == t;
  }

  /** The full call sequence of a purchase, in the order the handler issues it. */
  function Pipeline(secret: string, info: PurchaseInfo, totalQuantity: int, env: SubmitEnv): seq<Event> {
    [ PaymentMethodCreated(env.paymentMethod),
      CardPaymentConfirmed(secret, BillingOf(info), env.confirmation),
      OrderPosted(Order(info, TransactionId(env.confirmation)), env.orderWrite),
      InventoryPatched(info.plantId, totalQuantity, DecreaseDirection, env.inventoryPatch) ]
  }

  /** How many pipeline calls a submit gets through before an early exit. */
  function StepsReached(env: SubmitEnv): nat {
    if !env.stripeLoaded || !env.elementsLoaded || !env.cardMounted then 0
    else if env.paymentMethod.PMError? then 1
    else if !IsSucceeded(env.confirmation) then 2
    else if env.orderWrite.WriteFailed? then 3
    else 4
  }

  /** The calls among the first three events of a submit that reaches the charge. */
  lemma ConfirmedCalls(secret: string, info: PurchaseInfo, totalQuantity: int, env: SubmitEnv)
    ensures Calls([PaymentMethodCreated(env.paymentMethod), Logged(PaymentMethodTag),
                   CardPaymentConfirmed(secret, BillingOf(info), env.confirmation)])
         == Pipeline(secret, info, totalQuantity, env)[..2]
  {
    var x, y, z := PaymentMethodCreated(env.paymentMethod), Logged(PaymentMethodTag),
                   CardPaymentConfirmed(secret, BillingOf(info), env.confirmation);
    assert [x, y, z] == [x] + ([y] + ([z] + []));
    CallsCons(x, [y] + ([z] + []));
    CallsCons(y, [z] + []);
    CallsCons(z, []);
  }

  lemma Calls2(x: Event, y: Event)
    ensures Calls([x, y]) == Calls([x]) + Calls([y])
  {
    assert [x, y] == [x] + [y];
    CallsAppend([x], [y]);
  }

  lemma Calls1(x: Event)
    ensures Calls([x]) == if IsCall(x) then [x] else []
  {
    CallsCons(x, []);
    assert [x] + [] == [x];
  }

  lemma Calls3(x: Event, y: Event, z: Event)
    ensures Calls([x, y, z]) == Calls([x]) + Calls([y]) + Calls([z])
  {
    Calls2(x, y);
    assert [x, y, z] == [x, y] + [z];
    CallsAppend([x, y], [z]);
  }

  lemma NoticesMakeNoCall()
    ensures Calls([SuccessToast(SuccessMessage), Refetched, Navigated(OrdersPath)]) == []
  {
    Calls3(SuccessToast(SuccessMessage), Refetched, Navigated(OrdersPath));
    Calls1(SuccessToast(SuccessMessage));
    Calls1(Refetched);
    Calls1(Navigated(OrdersPath));
  }

  /** The calls of the commit block: the order write, then the patch only if
      the order write went through. */
  lemma CommitCalls(secret: string, info: PurchaseInfo, totalQuantity: int, env: SubmitEnv)
    ensures Calls(CommitEvents(info, totalQuantity, env))
         == Pipeline(secret, info, totalQuantity, env)[2..if env.orderWrite.WriteFailed? then 3 else 4]
  {
    var p := Pipeline(secret, info, totalQuantity, env);
    var order, patch, log := p[2], p[3], Logged(CaughtTag);
    var commit := CommitEvents(info, totalQuantity, env);
    Calls1(order);
    Calls1(log);
    if env.orderWrite.WriteFailed? {
      assert commit == [order, log];
      Calls2(order, log);
    } else {
      Calls1(patch);
      if env.inventoryPatch.WriteFailed? {
        assert commit == [order, patch, log];
        Calls3(order, patch, log);
      } else {
        var tail := [SuccessToast(SuccessMessage), Refetched, Navigated(OrdersPath)];
        assert commit == [order, patch] + tail;
        NoticesMakeNoCall();
        Calls2(order, patch);
        CallsAppend([order, patch], tail);
      }
    }
  }

  /** A submit issues exactly a prefix of the pipeline: each step is attempted
      only when every step before it succeeded, and the first failure ends the
      sequence. */
  lemma SubmitCallsFollowPipeline(f: Form, info: PurchaseInfo, totalQuantity: int, env: SubmitEnv)
    ensures StepsReached(env) <= 4
    ensures Calls(Submit(f, info, totalQuantity, env).trace)
         == Calls(f.trace) + Pipeline(f.clientSecret, info, totalQuantity, env)[..StepsReached(env)]
  {
    var es := SubmitEvents(f.clientSecret, info, totalQuantity, env);
    var p := Pipeline(f.clientSecret, info, totalQuantity, env);
    CallsAppend(f.trace, es);
    if ReachesConfirm(env) {
      var confirmed := [PaymentMethodCreated(env.paymentMethod), Logged(PaymentMethodTag),
                        CardPaymentConfirmed(f.clientSecret, BillingOf(info), env.confirmation)];
      ConfirmedCalls(f.clientSecret, info, totalQuantity, env);
      if IsSucceeded(env.confirmation) {
        var commit := CommitEvents(info, totalQuantity, env);
        CommitCalls(f.clientSecret, info, totalQuantity, env);
        CallsAppend(confirmed, commit);
        CallsAppend(confirmed + commit, [ModalClosed]);
        CallsCons(ModalClosed, []);
        assert p[..2] + p[2..StepsReached(env)] == p[..StepsReached(env)];
      }
    } else if env.stripeLoaded && env.elementsLoaded && env.cardMounted {
      assert es == [es[0]] + ([es[1]] + []);
      CallsCons(es[0], [es[1]] + []);
      CallsCons(es[1], []);
    }
  }

  /** Stripe or Elements not loaded: `processing` stays true and nothing is called. */
  lemma UnloadedSubmitDoesNothing(f: Form, info: PurchaseInfo, totalQuantity: int, env: SubmitEnv)
    requires !env.stripeLoaded || !env.elementsLoaded
    ensures Submit(f, info, totalQuantity, env) == f.(processing := true)
  {
    assert f.trace + [] == f.trace;
  }

  /** No card element: `processing` is reset and nothing is called. */
  lemma MissingCardResetsProcessing(f: Form, info: PurchaseInfo, totalQuantity: int, env: SubmitEnv)
    requires env.stripeLoaded && env.elementsLoaded && !env.cardMounted
    ensures Submit(f, info, totalQuantity, env) == f.(processing := false)
  {
    assert f.trace + [] == f.trace;
  }

  /** A payment-method error resets `processing`; the only call made is the
      failed creation itself. */
  lemma PaymentMethodErrorStops(f: Form, info: PurchaseInfo, totalQuantity: int, env: SubmitEnv)
    requires env.stripeLoaded && env.elementsLoaded && env.cardMounted && env.paymentMethod.PMError?
    ensures !Submit(f, info, totalQuantity, env).processing
    ensures Calls(Submit(f, info, totalQuantity, env).trace) == Calls(f.trace) + [PaymentMethodCreated(PMError)]
  {
    SubmitCallsFollowPipeline(f, info, totalQuantity, env);
  }

  /** The order is written exactly when the intent succeeded, and its body is
      the purchase record plus the intent's id. */
  lemma OrderWrittenOnlyAfterSucceededIntent(f: Form, info: PurchaseInfo, totalQuantity: int, env: SubmitEnv)
    ensures var es := SubmitEvents(f.clientSecret, info, totalQuantity, env);
      (exists e | e in es :: e.OrderPosted?) <==> ReachesConfirm(env) && IsSucceeded(env.confirmation)
    ensures ReachesConfirm(env) && IsSucceeded(env.confirmation) ==>
      OrderPosted(Order(info, env.confirmation.intent.id), env.orderWrite)
        in SubmitEvents(f.clientSecret, info, totalQuantity, env)
  {
  }

  /** The inventory patch is issued exactly when the order write went through,
      with `totalQuantity` and direction "decrease"; toast, refetch and
      navigation happen exactly when both writes went through. */
  lemma PatchOnlyAfterOrderWrite(f: Form, info: PurchaseInfo, totalQuantity: int, env: SubmitEnv)
    ensures var es := SubmitEvents(f.clientSecret, info, totalQuantity, env);
      (exists e | e in es :: e.InventoryPatched?)
        <==> ReachesConfirm(env) && IsSucceeded(env.confirmation) && env.orderWrite.WriteOk?
    ensures ReachesConfirm(env) && IsSucceeded(env.confirmation) && env.orderWrite.WriteOk? ==>
      InventoryPatched(info.plantId, totalQuantity, DecreaseDirection, env.inventoryPatch)
        in SubmitEvents(f.clientSecret, info, totalQuantity, env)
    ensures var es := SubmitEvents(f.clientSecret, info, totalQuantity, env);
      var both := ReachesConfirm(env) && IsSucceeded(env.confirmation)
                  && env.orderWrite.WriteOk? && env.inventoryPatch.WriteOk?;
      && (SuccessToast(SuccessMessage) in es <==> both)
      && (Refetched in es <==> both)
      && (Navigated(OrdersPath) in es <==> both)
  {
    var es := SubmitEvents(f.clientSecret, info, totalQuantity, env);
    if ReachesConfirm(env) && IsSucceeded(env.confirmation) {
      var confirmed := [PaymentMethodCreated(env.paymentMethod), Logged(PaymentMethodTag),
                        CardPaymentConfirmed(f.clientSecret, BillingOf(info), env.confirmation)];
      var commit := CommitEvents(info, totalQuantity, env);
      assert es == confirmed + commit + [ModalClosed];
      if env.orderWrite.WriteOk? {
        assert es[3 + 1].InventoryPatched?;
      }
    } else if ReachesConfirm(env) {
      assert |es| == 3;
    }
  }

  /** After a succeeded intent the handler always ends with `processing` false
      and the modal closed, whatever the two writes answered; a failed write
      leaves only a log line. */
  lemma SucceededIntentAlwaysCloses(f: Form, info: PurchaseInfo, totalQuantity: int, env: SubmitEnv)
    requires ReachesConfirm(env) && IsSucceeded(env.confirmation)
    ensures var g := Submit(f, info, totalQuantity, env);
      && !g.processing
      && |g.trace| > |f.trace|
      && g.trace[|g.trace| - 1] == ModalClosed
    ensures env.orderWrite.WriteFailed? ==>
      SubmitEvents(f.clientSecret, info, totalQuantity, env)[3..]
        == [OrderPosted(Order(info, env.confirmation.intent.id), WriteFailed), Logged(CaughtTag), ModalClosed]
  {
  }

  /** Any other confirmation answer leaves `processing` stuck true, writes
      nothing and keeps the modal open. */
  lemma NonSucceededIntentStalls(f: Form, info: PurchaseInfo, totalQuantity: int, env: SubmitEnv)
    requires ReachesConfirm(env) && !IsSucceeded(env.confirmation)
    ensures var g := Submit(f, info, totalQuantity, env);
      && g.processing
      && g.clientSecret == f.clientSecret
      && ModalClosed !in g.trace[|f.trace|..]
      && forall e | e in g.trace[|f.trace|..] :: !e.OrderPosted? && !e.InventoryPatched?
  {
    var g := Submit(f, info, totalQuantity, env);
    assert g.trace[|f.trace|..] == SubmitEvents(f.clientSecret, info, totalQuantity, env);
  }

  /** A granted authorization stores the returned secret whatever was held
      before; a refused one changes nothing but the trace. */
  lemma IntentFetchUpdatesSecret(f: Form, info: PurchaseInfo, auth: AuthResult)
    ensures auth.AuthOk? ==> FetchIntent(f, info, auth).clientSecret == auth.clientSecret
    ensures auth.AuthFailed? ==> FetchIntent(f, info, auth).clientSecret == f.clientSecret
    ensures FetchIntent(f, info, auth).processing == f.processing
    ensures Calls(FetchIntent(f, info, auth).trace)
         == Calls(f.trace) + [IntentRequested(info.quantity, info.plantId, auth)]
  {
    var e := IntentRequested(info.quantity, info.plantId, auth);
    Calls1(e);
    if auth.AuthOk? {
      assert FetchIntent(f, info, auth).trace == f.trace + [e];
      CallsAppend(f.trace, [e]);
    } else {
      var log := Logged(CaughtTag);
      assert FetchIntent(f, info, auth).trace == f.trace + [e, log];
      Calls1(log);
      Calls2(e, log);
      CallsAppend(f.trace, [e, log]);
    }
  }
}
