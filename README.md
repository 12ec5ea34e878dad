# Plant purchase checkout, modelled in Dafny

This project models the checkout of the green-plants storefront: the purchase
modal, where the buyer picks a quantity and types an address, and the checkout
form inside it, which asks the backend for a Stripe payment intent, charges the
card, writes the order and decrements the plant's stock.

Both React components are modelled as small state machines, one handler call
per atomic step:

- `Purchase` (`purchase_modal.dfy`): the modal's state `totalQuantity`,
  `totalPrice` and `purchaseInfo` as the class `PurchaseModal`. Its two
  handlers are specified by the pure step functions `Quantity` and `Address`.
  The invariant `Consistent` (recorded price = recorded quantity × unit
  price, shown total = recorded price, and, when the stock is at least 1,
  recorded quantity within the stock) is proved to hold across any sequence
  of edits.
- `Checkout` (`checkout_form.dfy`): the form's state `clientSecret` and
  `processing` as the class `CheckoutForm`. What Stripe and the backend answer
  is a parameter of each handler: `AuthResult`, `PMResult`, `ConfirmResult`
  with an `IntentStatus`, and `WriteResult`. Every external call, with the
  answer it got, is appended to an event trace. So are every log line, toast,
  refetch, navigation and modal close. `HandleSubmit` follows the handler's
  early returns and its `try`/`catch`/`finally`. It is proved equal to the
  declarative step `Submit`.
- `CheckoutProperties` (`checkout_properties.dfy`): what one submit does in
  each branch. The main result is that the external calls of a submit are
  exactly a prefix of the pipeline: payment method, then charge, then order
  write, then inventory patch.
- `CheckoutRuns` (`checkout_runs.dfy`): properties of whole sessions, meaning
  any sequence of intent fetches and submits. They cover ordering, which
  secret each charge uses, and a `processing` flag that stays stuck.
- `Scenarios` (`scenarios.dfy`): concrete purchases that run the two
  components together.

Prices are integers (cents). Each handler is one atomic step.

Three behaviours of the code are kept as written:

- A failed order write after a successful charge is only logged. The modal
  still closes and `processing` is reset.
- A confirmation that does not end in `succeeded` leaves `processing` true. The
  Pay button then stays disabled while the form stays mounted.
- The stock decrement sends `totalQuantity`. After a clamp, that number can
  differ from the quantity in the recorded order, because a clamp changes
  `totalQuantity` but not `purchaseInfo`.

Several things a checkout of this kind would be expected to do, the code does
not do. The model follows the code:

- A quantity of 0 is accepted. Only negative values are clamped to 1.
- A clamp does not recompute the price.
- The code tracks no explicit state or request identity, so a secret issued
  for an older record can still be used for the charge (see
  `ChargeCanUseSecretOfOtherQuantity`).
- A write failure after a charge is not reported to the buyer as a distinct
  outcome.
- A charge that fails leaves the form stuck, while it stays mounted, rather
  than ready to retry.

## Model

| member | source | states |
|---|---|---|
| `Purchase.PurchaseModal.constructor` | src/components/Modal/PurchaseModal.jsx:19-33 | The modal starts with quantity 1 and total = unit price. The record holds quantity 1, price = unit price, the buyer's name, email and photo, the plant id, the seller's email, an empty address and status "Pending". It satisfies the invariant. |
| `Purchase.Initial` | src/components/Modal/PurchaseModal.jsx:19-33 | The mount state satisfies the price/quantity invariant, with shown and recorded quantity both 1. Its record names this plant, its seller and the buyer, with an empty address and status "Pending". |
| `Purchase.Quantity` | src/components/Modal/PurchaseModal.jsx:35-49 | No notice is raised exactly when the value lies in 0..stock. The step keeps the price/quantity invariant. Customer, plant, seller, status and address are never touched. |
| `Purchase.PurchaseModal.HandleQuantity` | src/components/Modal/PurchaseModal.jsx:35-49 | The handler's three branches exactly: above stock, the shown quantity becomes the stock with an "exceeds" notice; below zero, it becomes 1 with a "less than 1" notice. Both clamps leave the total and the record unchanged. A value in 0..stock sets both quantities and both prices to value × unit price, with no notice. The invariant is kept. |
| `Purchase.ExceedingStockClamps` | src/components/Modal/PurchaseModal.jsx:36-39 | A request above the stock sets the shown quantity to the stock and raises the notice whose toast reads "Quantity exceeds available stock!". Total price and record are left as they were. |
| `Purchase.NegativeClampsToOne` | src/components/Modal/PurchaseModal.jsx:40-43 | A negative request sets the shown quantity to 1 and raises the notice whose toast reads "Quantity cannot be less than 1". Total price and record are left as they were. |
| `Purchase.AcceptedQuantityReprices` | src/components/Modal/PurchaseModal.jsx:44-48 | A request in 0..stock (0 included) gives shown = recorded quantity = value and total = recorded price = value × unit price. Every other field of the record is unchanged. |
| `Purchase.QuantityIdempotent` | src/components/Modal/PurchaseModal.jsx:35-49 | Handling the same value twice gives the same state and notice as handling it once. |
| `Purchase.Address` | src/components/Modal/PurchaseModal.jsx:129-133 | The new address is stored, and putting the old address back gives exactly the old state, so nothing else changed. |
| `Purchase.AddressLastEditWins` | src/components/Modal/PurchaseModal.jsx:129-133 | Only the last address typed counts, and retyping the old address undoes an edit. Quantity, total and every other field of the record are unchanged. |
| `Purchase.PurchaseModal.SetAddress` | src/components/Modal/PurchaseModal.jsx:129-133 | The object's address handler rewrites only the address field of the record and keeps the invariant. |
| `Purchase.EditsKeepConsistent` | src/components/Modal/PurchaseModal.jsx:19-48 | Across any sequence of quantity and address edits: recorded price = recorded quantity × unit price, and total = recorded price. Given stock ≥ 1, the recorded quantity stays within 0..stock. Customer, plant, seller and status never change. |
| `Checkout.PayDisabled` | src/components/Form/CheckoutForm.jsx:124 | The Pay button's `disabled` expression. `PayEnabled` states its meaning. |
| `Checkout.FetchIntent` | src/components/Form/CheckoutForm.jsx:22-32 | The trace grows by the intent request, which carries the record's quantity and plant id. The secret becomes the granted one, or stays as it was on a failure. `processing` is kept. |
| `Checkout.CommitEvents` | src/components/Form/CheckoutForm.jsx:81-101 | The order write comes first and carries the record and the intent's id. The inventory patch is issued iff the write went through. The success toast appears iff both writes went through, and a log line iff either failed. |
| `Checkout.SubmitEvents` | src/components/Form/CheckoutForm.jsx:37-102 | A submit adds nothing to the trace iff Stripe, Elements or the card is missing. It closes the modal iff the charge is reached and the intent succeeded. |
| `Checkout.StuckAfter` | src/components/Form/CheckoutForm.jsx:37-102 | Once Stripe and Elements are loaded, `processing` is left true iff the charge was attempted and did not succeed. After a succeeded intent it is never left true. |
| `Checkout.Submit` | src/components/Form/CheckoutForm.jsx:37-102 | A submit never changes the secret and only appends to the trace. When it closes the modal, `processing` ends false. |
| `Checkout.CheckoutForm.constructor` | src/components/Form/CheckoutForm.jsx:15-16 | The form starts with an empty secret, `processing` false and an empty trace. |
| `Checkout.CheckoutForm.PayEnabled` | src/components/Form/CheckoutForm.jsx:124 | The Pay button is enabled iff Stripe is loaded, the secret is non-empty and no submit is in progress. |
| `Checkout.CheckoutForm.GetPaymentIntent` | src/components/Form/CheckoutForm.jsx:22-32 | The intent request carries the record's quantity and plant id. A granted request stores the returned secret. A failed one keeps the previous secret and only adds a log line. `processing` is untouched. |
| `Checkout.CheckoutForm.HandleSubmit` | src/components/Form/CheckoutForm.jsx:37-102 | The imperative handler, with its early returns and `try`/`catch`/`finally`, leaves exactly the state and trace of the step `Submit`. The secret is never changed. |
| `Checkout.CheckoutForm.SaveOrder` | src/components/Form/CheckoutForm.jsx:81-101 | After a succeeded intent, the order write is followed by the inventory patch only if the write went through. The first failure adds only a log line; success adds toast, refetch and navigation. Every path ends with `processing` false and the modal closed. |
| `CheckoutProperties.SubmitCallsFollowPipeline` | src/components/Form/CheckoutForm.jsx:59-91 | The external calls of one submit are exactly the first k calls of payment method → charge → order write → inventory patch. k is 0 if Stripe, Elements or the card is missing; 1 on a payment-method error; 2 if the intent did not succeed; 3 if the order write failed; 4 otherwise. |
| `CheckoutProperties.UnloadedSubmitDoesNothing` | src/components/Form/CheckoutForm.jsx:38-46 | Without Stripe or Elements the submit leaves `processing` true. It makes no call and adds nothing to the trace. |
| `CheckoutProperties.MissingCardResetsProcessing` | src/components/Form/CheckoutForm.jsx:51-56 | Without a card element the submit resets `processing` to false and makes no call. |
| `CheckoutProperties.PaymentMethodErrorStops` | src/components/Form/CheckoutForm.jsx:59-66 | A payment-method error resets `processing`. The failed creation is the only call made: no charge, no write, no patch. |
| `CheckoutProperties.OrderWrittenOnlyAfterSucceededIntent` | src/components/Form/CheckoutForm.jsx:70-86 | An order write appears iff the charge was reached and the intent's status is `succeeded`. Its body is the purchase record plus the intent's id as transaction id. |
| `CheckoutProperties.PatchOnlyAfterOrderWrite` | src/components/Form/CheckoutForm.jsx:87-94 | The inventory patch appears iff the order write succeeded. It carries the plant id, `totalQuantity` and "decrease". The success toast, the refetch and the navigation to `/dashboard/my-orders` each appear iff both writes succeeded. |
| `CheckoutProperties.SucceededIntentAlwaysCloses` | src/components/Form/CheckoutForm.jsx:80-101 | After a succeeded intent, `processing` ends false and the last event is the modal close, whatever the writes answered. A failed order write leaves only the write, a log line and the close. |
| `CheckoutProperties.NonSucceededIntentStalls` | src/components/Form/CheckoutForm.jsx:70-80 | Any other confirmation answer leaves `processing` true and the secret unchanged. The modal stays open and nothing is written or patched. |
| `CheckoutProperties.IntentFetchUpdatesSecret` | src/components/Form/CheckoutForm.jsx:22-32 | A granted authorization replaces the secret, whatever it was. A refused one keeps it. `processing` is kept, and the only call added is the intent request. |
| `CheckoutRuns.RunWellOrdered` | src/components/Form/CheckoutForm.jsx:59-94 | In any session of fetches and submits, each event directly follows the event it depends on. A charge follows a created payment method. An order write follows a succeeded intent and carries its id. An inventory patch follows a successful write of the same plant's order. The success toast follows a successful patch. |
| `CheckoutRuns.EveryPatchFollowsWrittenOrder` | src/components/Form/CheckoutForm.jsx:83-91 | From a freshly mounted form, every inventory patch is immediately preceded by a successful order write for the same plant. |
| `CheckoutRuns.RunTracksSecrets` | src/components/Form/CheckoutForm.jsx:70-78 | In any session, the held secret is the one from the most recent granted authorization, and every charge used it. Nothing ties that secret to the quantity being bought. |
| `CheckoutRuns.StalledSubmitKeepsPayDisabled` | src/components/Form/CheckoutForm.jsx:80-101 | After a confirmation that did not succeed, `processing` stays true through any later intent fetches, so the Pay button stays disabled. |
| `Scenarios.OverStockRequestLeavesPriceStale` | src/components/Modal/PurchaseModal.jsx:36-39 | Unit price 12.00, stock 5, request 7: 5 is shown with a notice, but the total stays 12.00 and the record says 1. |
| `Scenarios.NegativeRequestLeavesPriceStale` | src/components/Modal/PurchaseModal.jsx:40-43 | After accepting 3, a request of -2 shows 1 with a notice. Total and record keep the figures for 3. |
| `Scenarios.ZeroIsAccepted` | src/components/Modal/PurchaseModal.jsx:44-48 | A request of 0 is accepted with no notice, and the total drops to 0. |
| `Scenarios.PatchQuantityCanDifferFromOrder` | src/components/Form/CheckoutForm.jsx:83-91 | After a clamp to 5, a successful purchase records an order for 1 but patches the stock by 5. |
| `Scenarios.ChargeCanUseSecretOfOtherQuantity` | src/components/Form/CheckoutForm.jsx:18-32 | The intent for quantity 1 is granted, then the re-fetch for quantity 3 fails. The charge still uses the secret issued for 1, and the order records 3 items at the price of 3. |
| `Scenarios.DeclinedCardStalls` | src/components/Form/CheckoutForm.jsx:70-80 | A confirmation that returns no intent writes nothing, keeps the modal open and leaves the Pay button disabled. |

## Left out

- Rendering, styling, the Cancel button and the dialog transitions are left out: they have no state of their own.
- The navbar, sidebar, statistics page and chart are left out: they are presentational.
- Stripe.js and axios internals are left out. `createPaymentMethod`, `confirmCardPayment`, `/create-payment-intent`, `/order` and `/plants/quantity` are opaque answers passed in as parameters.
- React scheduling is left out: the asynchronous re-run of the intent fetch whenever `purchaseInfo` changes, responses arriving out of order, and batching of state setters. Each handler is one atomic step, and the scenarios list each fetch explicitly.
- The `console.log(clientSecret)` made on every render is not modelled: it is a debugging side effect outside any handler.
- Toasts, console output, `refetch`, `navigate` and `closeModal` are recorded only as trace events. Their own effects are outside this model.
- Prices are integers (cents), not floating point.
- The quantity input is an integer: `parseInt` returning NaN on an empty field is not modelled.
- A confirmation that returns no intent (`ConfirmError`) makes `paymentIntent.status` throw. The model treats this as the "not succeeded" path: the handler stops, no further event occurs, and `processing` stays true.
- The user object and the seller are snapshots taken when the modal component first renders. Sign-out is not modelled.
- Closing and reopening the modal is not modelled. In the code the modal's own state (quantity, total, record with customer, seller and address) survives a close, because only the dialog's children unmount, while the checkout form inside it remounts with an empty secret and `processing` false. The model follows one mounted form, starting from `Start`.
- The plant's price and stock are taken as fixed while the modal is open. The component re-reads them from its `plant` prop on every render (PurchaseModal.jsx line 18), while `totalPrice` and `purchaseInfo` are set only at mount. A price or stock change during the modal's life, which would break the invariant `Consistent`, is not modelled.
