/** Concrete purchases that run the modal and the checkout form together.
    The modal's `purchaseInfo` and `totalQuantity` are what the form receives
    as props; a fetch is listed wherever the form's effect would re-run
    because `purchaseInfo` changed. Prices are in cents. */
module Scenarios {
  import opened Purchase
  import opened Checkout
  import opened CheckoutRuns

  const Fern := Plant("p1", "Fern", "Indoor", 1200, 5, Some("seller@example.com"))
  const Buyer := Some(User(Some("Ann"), Some("ann@example.com"), Some("ann.png")))

  function AllGood(intentId: string): SubmitEnv {
    SubmitEnv(true, true, true, PMCreated("pm_1"), Confirmed(PaymentIntent(intentId, Succeeded)), WriteOk, WriteOk)
  }

  /** Everything goes through: the whole pipeline, the success notices and the close. */
  lemma AllGoodEvents(secret: string, info: PurchaseInfo, totalQuantity: int, intentId: string)
    ensures SubmitEvents(secret, info, totalQuantity, AllGood(intentId))
         == [PaymentMethodCreated(PMCreated("pm_1")), Logged(PaymentMethodTag),
             CardPaymentConfirmed(secret, BillingOf(info), Confirmed(PaymentIntent(intentId, Succeeded))),
             OrderPosted(Order(info, intentId), WriteOk),
             InventoryPatched(info.plantId, totalQuantity, DecreaseDirection, WriteOk),
             SuccessToast(SuccessMessage), Refetched, Navigated(OrdersPath), ModalClosed]
  {
  }

  lemma RunOfTwo(f: Form, a: Action, b: Action)
    ensures Run(f, [a, b]) == Step(Step(f, a), b)
  {
    assert [a, b][1..] == [b] && [b][1..] == [];
    assert Run(Step(f, a), [b]) == Run(Step(Step(f, a), b), []);
  }

  lemma RunOfThree(f: Form, a: Action, b: Action, c: Action)
    ensures Run(f, [a, b, c]) == Step(Step(Step(f, a), b), c)
  {
    assert [a, b, c][1..] == [b, c];
    RunOfTwo(Step(f, a), b, c);
    assert Run(f, [a, b, c]) == Run(Step(f, a), [b, c]);
  }

  /** Unit price 12.00, stock 5, request 7: the shown quantity becomes 5 with
      a notice, but the total stays 12.00 and the record still says 1. */
  lemma OverStockRequestLeavesPriceStale()
    ensures var r := Quantity(Fern, Initial(Fern, Buyer), 7);
      && r.editor.totalQuantity == 5
      && r.notice == Some(ExceedsStock)
      && r.editor.totalPrice == 1200
      && r.editor.info.quantity == 1 && r.editor.info.price == 1200
  {
  }

  /** After accepting 3, a request of -2 shows 1 with a notice, while the total
      and the record keep the price of 3. */
  lemma NegativeRequestLeavesPriceStale()
    ensures var s := Quantity(Fern, Initial(Fern, Buyer), 3).editor;
      var r := Quantity(Fern, s, -2);
      && s.totalPrice == 3600
      && r.editor.totalQuantity == 1
      && r.notice == Some(BelowMinimum)
      && r.editor.totalPrice == 3600
      && r.editor.info.quantity == 3
  {
  }

  /** Zero is accepted: the record and the total drop to nothing. */
  lemma ZeroIsAccepted()
    ensures var r := Quantity(Fern, Initial(Fern, Buyer), 0);
      r.notice == None && r.editor.totalQuantity == 0 && r.editor.info.price == 0 && r.editor.totalPrice == 0
  {
  }

  /** A clamped request does not change `purchaseInfo`, so no new intent is
      fetched; a successful purchase then records 1 item but decrements the
      stock by the clamped 5. */
  lemma PatchQuantityCanDifferFromOrder()
    ensures var s := Quantity(Fern, Initial(Fern, Buyer), 7).editor;
      var g := Run(Start, [Fetch(Initial(Fern, Buyer).info, AuthOk("secret_1")),
                           Pay(s.info, s.totalQuantity, AllGood("pi_1"))]);
      && OrderPosted(Order(s.info, "pi_1"), WriteOk) in g.trace
      && s.info.quantity == 1
      && InventoryPatched("p1", 5, DecreaseDirection, WriteOk) in g.trace
  {
    var s := Quantity(Fern, Initial(Fern, Buyer), 7).editor;
    var f1 := FetchIntent(Start, Initial(Fern, Buyer).info, AuthOk("secret_1"));
    var g := Submit(f1, s.info, s.totalQuantity, AllGood("pi_1"));
    RunOfTwo(Start, Fetch(Initial(Fern, Buyer).info, AuthOk("secret_1")), Pay(s.info, s.totalQuantity, AllGood("pi_1")));
    assert s.totalQuantity == 5 && s.info.plantId == "p1";
    assert |f1.trace| == 1 && f1.clientSecret == "secret_1";
    var es := SubmitEvents("secret_1", s.info, 5, AllGood("pi_1"));
    AllGoodEvents("secret_1", s.info, 5, "pi_1");
    assert g.trace == f1.trace + es;
    assert g.trace[1 + 3] == es[3] && g.trace[1 + 4] == es[4];
  }

  /** The intent for quantity 1 is granted; the buyer then picks 3, and the
      re-fetch for 3 fails. The charge still goes out with the secret issued
      for 1, and the order records 3 items at the price of 3. */
  lemma ChargeCanUseSecretOfOtherQuantity()
    ensures var s0 := Initial(Fern, Buyer);
      var s1 := Quantity(Fern, s0, 3).editor;
      var g := Run(Start, [Fetch(s0.info, AuthOk("secret_1")), Fetch(s1.info, AuthFailed),
                           Pay(s1.info, s1.totalQuantity, AllGood("pi_1"))]);
      && IntentRequested(1, "p1", AuthOk("secret_1")) in g.trace
      && CardPaymentConfirmed("secret_1", BillingOf(s1.info), Confirmed(PaymentIntent("pi_1", Succeeded))) in g.trace
      && OrderPosted(Order(s1.info, "pi_1"), WriteOk) in g.trace
      && s1.info.quantity == 3 && s1.info.price == 3600
  {
    var s0 := Initial(Fern, Buyer);
    var s1 := Quantity(Fern, s0, 3).editor;
    var f1 := FetchIntent(Start, s0.info, AuthOk("secret_1"));
    var f2 := FetchIntent(f1, s1.info, AuthFailed);
    var g := Submit(f2, s1.info, s1.totalQuantity, AllGood("pi_1"));
    RunOfThree(Start, Fetch(s0.info, AuthOk("secret_1")), Fetch(s1.info, AuthFailed),
               Pay(s1.info, s1.totalQuantity, AllGood("pi_1")));
    assert s1.info.quantity == 3 && s1.totalQuantity == 3;
    assert f1.trace == [IntentRequested(1, "p1", AuthOk("secret_1"))] && f1.clientSecret == "secret_1";
    assert f2.clientSecret == "secret_1" && |f2.trace| == 3 && f2.trace[0] == f1.trace[0];
    var es := SubmitEvents("secret_1", s1.info, 3, AllGood("pi_1"));
    AllGoodEvents("secret_1", s1.info, 3, "pi_1");
    assert g.trace == f2.trace + es;
    assert g.trace[0] == f2.trace[0] && g.trace[3 + 2] == es[2] && g.trace[3 + 3] == es[3];
  }

  /** A declined card (no intent returned) writes nothing and leaves the Pay
      button disabled. */
  lemma DeclinedCardStalls()
    ensures var env := SubmitEnv(true, true, true, PMCreated("pm_1"), ConfirmError, WriteOk, WriteOk);
      var f1 := FetchIntent(Start, Initial(Fern, Buyer).info, AuthOk("secret_1"));
      var g := Submit(f1, Initial(Fern, Buyer).info, 1, env);
      && g.processing
      && PayDisabled(true, g.clientSecret, g.processing)
      && ModalClosed !in g.trace
      && forall e | e in g.trace :: !e.OrderPosted? && !e.InventoryPatched?
  {
  }
}
