/** Properties of whole sessions of the checkout form: any sequence of
    payment-intent fetches and submits, each with its own outside answers. */
module CheckoutRuns {
  import opened Purchase
  import opened Checkout

  /** One handler invocation: the `useEffect` fetch or a form submit. */
  datatype Action =
    | Fetch(info: PurchaseInfo, auth: AuthResult)
    | Pay(info: PurchaseInfo, totalQuantity: int, env: SubmitEnv)

  function Step(f: Form, a: Action): Form {
    match a
    case Fetch(info, auth) => FetchIntent(f, info, auth)
    case Pay(info, totalQuantity, env) => Submit(f, info, totalQuantity, env)
  }

  function Run(f: Form, actions: seq<Action>): Form
    decreases |actions|
  {
    if actions == [] then f else Run(Step(f, actions[0]), actions[1..])
  }

  /** Event `i` of `t` is preceded by what it depends on: a charge by a created
      payment method, an order write by a succeeded intent whose id it carries,
      an inventory patch by a successful write of the order for the same plant,
      the success toast by a successful patch. */
  predicate Justified(t: seq<Event>, i: nat)
    requires i < |t|
  {
    match t[i]
    case CardPaymentConfirmed(_, _, _) =>
      i >= 2 && t[i - 2].PaymentMethodCreated? && t[i - 2].pm.PMCreated?
    case OrderPosted(order, _) =>
      && i >= 1 && t[i - 1].CardPaymentConfirmed? && IsSucceeded(t[i - 1].confirmation)
      && order.transactionId == t[i - 1].confirmation.intent.id
    case InventoryPatched(plantId, _, direction, _) =>
      && i >= 1 && t[i - 1].OrderPosted? && t[i - 1].write.WriteOk?
      && plantId == t[i - 1].order.info.plantId && direction == DecreaseDirection
    case SuccessToast(_) =>
      i >= 1 && t[i - 1].InventoryPatched? && t[i - 1].write.WriteOk?
    case _ => true
  }

  predicate WellOrdered(t: seq<Event>) {
    forall i: nat | i < |t| :: Justified(t, i)
  }

  lemma JustifiedInPrefix(a: seq<Event>, b: seq<Event>, i: nat)
    requires i < |a|
    ensures Justified(a + b, i) == Justified(a, i)
  {
    assert forall j | 0 <= j <= i :: (a + b)[j] == a[j];
  }

  lemma JustifiedInSuffix(a: seq<Event>, b: seq<Event>, i: nat)
    requires i < |b| && Justified(b, i)
    ensures Justified(a + b, |a| + i)
  {
    assert forall j | 0 <= j <= i :: (a + b)[|a| + j] == b[j];
  }

  lemma ConcatWellOrdered(a: seq<Event>, b: seq<Event>)
    requires WellOrdered(a) && WellOrdered(b)
    ensures WellOrdered(a + b)
  {
    forall i: nat | i < |a + b| ensures Justified(a + b, i) {
      if i < |a| {
        JustifiedInPrefix(a, b, i);
      } else {
        JustifiedInSuffix(a, b, i - |a|);
      }
    }
  }

  lemma CommitWellOrdered(secret: string, info: PurchaseInfo, totalQuantity: int, env: SubmitEnv)
    requires ReachesConfirm(env) && IsSucceeded(env.confirmation)
    ensures WellOrdered(
      [PaymentMethodCreated(env.paymentMethod), Logged(PaymentMethodTag),
       CardPaymentConfirmed(secret, BillingOf(info), env.confirmation)]
      + CommitEvents(info, totalQuantity, env) + [ModalClosed])
  {
    var t := [PaymentMethodCreated(env.paymentMethod), Logged(PaymentMethodTag),
              CardPaymentConfirmed(secret, BillingOf(info), env.confirmation)]
             + CommitEvents(info, totalQuantity, env) + [ModalClosed];
    forall i: nat | i < |t| ensures Justified(t, i) {
      if i >= 6 {
        assert !t[i].CardPaymentConfirmed? && !t[i].OrderPosted?
            && !t[i].InventoryPatched? && !t[i].SuccessToast?;
      }
    }
  }

  lemma SubmitEventsWellOrdered(secret: string, info: PurchaseInfo, totalQuantity: int, env: SubmitEnv)
    ensures WellOrdered(SubmitEvents(secret, info, totalQuantity, env))
  {
    var es := SubmitEvents(secret, info, totalQuantity, env);
    if ReachesConfirm(env) {
      if IsSucceeded(env.confirmation) {
        CommitWellOrdered(secret, info, totalQuantity, env);
      } else {
        assert forall i: nat | i < |es| :: i == 2 || !es[i].CardPaymentConfirmed?;
      }
    }
  }

  lemma StepWellOrdered(f: Form, a: Action)
    requires WellOrdered(f.trace)
    ensures WellOrdered(Step(f, a).trace)
  {
    match a
    case Fetch(info, auth) =>
      var tail := [IntentRequested(info.quantity, info.plantId, auth)]
                  + (if auth.AuthOk? then [] else [Logged(CaughtTag)]);
      assert Step(f, a).trace == f.trace + tail;
      ConcatWellOrdered(f.trace, tail);
    case Pay(info, totalQuantity, env) =>
      SubmitEventsWellOrdered(f.clientSecret, info, totalQuantity, env);
      ConcatWellOrdered(f.trace, SubmitEvents(f.clientSecret, info, totalQuantity, env));
  }

  /** In every session the steps happen in order: no charge without a created
      payment method, no order write without a succeeded intent, no inventory
      patch without a successful order write just before it. */
  lemma {:induction false} RunWellOrdered(f: Form, actions: seq<Action>)
    requires WellOrdered(f.trace)
    ensures WellOrdered(Run(f, actions).trace)
    decreases |actions|
  {
    if actions != [] {
      StepWellOrdered(f, actions[0]);
      RunWellOrdered(Step(f, actions[0]), actions[1..]);
    }
  }

  /** From a freshly mounted form: every inventory patch directly follows a
      successful write of the order for the same plant. */
  lemma EveryPatchFollowsWrittenOrder(actions: seq<Action>)
    ensures var t := Run(Start, actions).trace;
      forall i: nat | i < |t| && t[i].InventoryPatched? ::
        && i >= 1 && t[i - 1].OrderPosted? && t[i - 1].write.WriteOk?
        && t[i].plantId == t[i - 1].order.info.plantId
  {
    RunWellOrdered(Start, actions);
    var t := Run(Start, actions).trace;
    forall i: nat | i < |t| && t[i].InventoryPatched?
      ensures i >= 1 && t[i - 1].OrderPosted? && t[i - 1].write.WriteOk?
      ensures t[i].plantId == t[i - 1].order.info.plantId
    {
      assert Justified(t, i);
    }
  }

  /** The secret of the last granted authorization in a trace ("" if none). */
  function LastSecret(t: seq<Event>): string
    decreases |t|
  {
    if t == [] then ""
    else if t[|t| - 1].IntentRequested? && t[|t| - 1].auth.AuthOk? then t[|t| - 1].auth.clientSecret
    else LastSecret(t[..|t| - 1])
  }

  predicate GrantsNoSecret(b: seq<Event>) {
    forall e | e in b :: !(e.IntentRequested? && e.auth.AuthOk?)
  }

  lemma {:induction false} LastSecretSkips(t: seq<Event>, b: seq<Event>)
    requires GrantsNoSecret(b)
    ensures LastSecret(t + b) == LastSecret(t)
    decreases |b|
  {
    if b == [] {
      assert t + b == t;
    } else {
      var b' := b[..|b| - 1];
      assert (t + b)[..|t + b| - 1] == t + b';
      assert b[|b| - 1] in b;
      assert GrantsNoSecret(b') by {
        forall e | e in b' ensures !(e.IntentRequested? && e.auth.AuthOk?) {
          assert e in b;
        }
      }
      LastSecretSkips(t, b');
    }
  }

  /** The form holds the secret of the last granted authorization, and every
      charge used the secret held at that point of the trace. */
  predicate SecretsTracked(f: Form) {
    && f.clientSecret == LastSecret(f.trace)
    && forall i: nat | i < |f.trace| && f.trace[i].CardPaymentConfirmed? ::
         f.trace[i].clientSecret == LastSecret(f.trace[..i])
  }

  lemma AppendKeepsCharges(t: seq<Event>, b: seq<Event>)
    requires forall i: nat | i < |t| && t[i].CardPaymentConfirmed? :: t[i].clientSecret == LastSecret(t[..i])
    requires forall k: nat | k < |b| && b[k].CardPaymentConfirmed? :: b[k].clientSecret == LastSecret(t + b[..k])
    ensures forall i: nat | i < |t + b| && (t + b)[i].CardPaymentConfirmed? ::
      (t + b)[i].clientSecret == LastSecret((t + b)[..i])
  {
    forall i: nat | i < |t + b| && (t + b)[i].CardPaymentConfirmed?
      ensures (t + b)[i].clientSecret == LastSecret((t + b)[..i])
    {
      if i < |t| {
        assert (t + b)[..i] == t[..i];
      } else {
        assert (t + b)[..i] == t + b[..i - |t|];
      }
    }
  }

  lemma FetchTracksSecrets(f: Form, info: PurchaseInfo, auth: AuthResult)
    requires SecretsTracked(f)
    ensures SecretsTracked(FetchIntent(f, info, auth))
  {
    var tail := [IntentRequested(info.quantity, info.plantId, auth)]
                + (if auth.AuthOk? then [] else [Logged(CaughtTag)]);
    assert FetchIntent(f, info, auth).trace == f.trace + tail;
    if auth.AuthOk? {
      assert LastSecret(f.trace + tail) == auth.clientSecret;
    } else {
      LastSecretSkips(f.trace, tail);
    }
    assert forall k: nat | k < |tail| :: !tail[k].CardPaymentConfirmed?;
    AppendKeepsCharges(f.trace, tail);
  }

  lemma GrantsNoSecretPrefix(es: seq<Event>, k: nat)
    requires GrantsNoSecret(es) && k <= |es|
    ensures GrantsNoSecret(es[..k])
  {
    forall e | e in es[..k] ensures !(e.IntentRequested? && e.auth.AuthOk?) {
      assert e in es;
    }
  }

  lemma SubmitTracksSecrets(f: Form, info: PurchaseInfo, totalQuantity: int, env: SubmitEnv)
    requires SecretsTracked(f)
    ensures SecretsTracked(Submit(f, info, totalQuantity, env))
  {
    var es := SubmitEvents(f.clientSecret, info, totalQuantity, env);
    assert GrantsNoSecret(es);
    LastSecretSkips(f.trace, es);
    forall k: nat | k < |es| && es[k].CardPaymentConfirmed?
      ensures es[k].clientSecret == LastSecret(f.trace + es[..k])
    {
      assert es[k].clientSecret == f.clientSecret;
      GrantsNoSecretPrefix(es, k);
      LastSecretSkips(f.trace, es[..k]);
    }
    AppendKeepsCharges(f.trace, es);
  }

  lemma StepTracksSecrets(f: Form, a: Action)
    requires SecretsTracked(f)
    ensures SecretsTracked(Step(f, a))
  {
    match a
    case Fetch(info, auth) => FetchTracksSecrets(f, info, auth);
    case Pay(info, totalQuantity, env) => SubmitTracksSecrets(f, info, totalQuantity, env);
  }

  /** The charge always uses the secret of the most recent granted
      authorization, whichever purchase record that authorization was asked for. */
  lemma {:induction false} RunTracksSecrets(f: Form, actions: seq<Action>)
    requires SecretsTracked(f)
    ensures SecretsTracked(Run(f, actions))
    decreases |actions|
  {
    if actions != [] {
      StepTracksSecrets(f, actions[0]);
      RunTracksSecrets(Step(f, actions[0]), actions[1..]);
    }
  }

  lemma {:induction false} FetchesKeepProcessing(f: Form, actions: seq<Action>)
    requires forall i | 0 <= i < |actions| :: actions[i].Fetch?
    ensures Run(f, actions).processing == f.processing
    decreases |actions|
  {
    if actions != [] {
      FetchesKeepProcessing(Step(f, actions[0]), actions[1..]);
    }
  }

  /** A confirmation that did not succeed leaves `processing` true, and no later
      authorization fetch clears it: the Pay button stays disabled for as long
      as the form stays mounted. */
  lemma StalledSubmitKeepsPayDisabled(
    f: Form, info: PurchaseInfo, totalQuantity: int, env: SubmitEnv,
    later: seq<Action>, stripeLoaded: bool)
    requires ReachesConfirm(env) && !IsSucceeded(env.confirmation)
    requires forall i | 0 <= i < |later| :: later[i].Fetch?
    ensures var g := Run(Submit(f, info, totalQuantity, env), later);
      g.processing && PayDisabled(stripeLoaded, g.clientSecret, g.processing)
  {
    FetchesKeepProcessing(Submit(f, info, totalQuantity, env), later);
  }
}
