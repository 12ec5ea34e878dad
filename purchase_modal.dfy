/** The purchase modal: the quantity and price editor and the address field.
    It owns three pieces of state, `totalQuantity`, `totalPrice` and the
    `purchaseInfo` record that is later sent as the order. Prices are integers
    (cents). Each input handler is one atomic step. */
module Purchase {

  datatype Option<+T> = None | Some(value: T)

  /** The signed-in user as the authentication provider reports it; each
      profile field may be missing. */
  datatype User = User(displayName: Option<string>, email: Option<string>, photoURL: Option<string>)

  /** The catalog entry being bought: `price` is the unit price, `quantity` the stock. */
  datatype Plant = Plant(
    id: string, name: string, category: string,
    price: int, quantity: int, sellerEmail: Option<string>)

  /** `customer` is copied from the user field by field; with no user every
      field is absent (`user?.displayName`). */
  datatype Customer = Customer(name: Option<string>, email: Option<string>, image: Option<string>)

  /** The record the checkout sends, minus the transaction id. */
  datatype PurchaseInfo = PurchaseInfo(
    customer: Customer, plantId: string, price: int, quantity: int,
    seller: Option<string>, address: string, status: string)

  /** The three state variables of the modal. */
  datatype Editor = Editor(totalQuantity: int, totalPrice: int, info: PurchaseInfo)

  /** The two error toasts of the quantity handler. */
  datatype Notice = ExceedsStock | BelowMinimum

  /** One handler call: the new state and the toast it raised, if any. */
  datatype QuantityOutcome = QuantityOutcome(editor: Editor, notice: Option<Notice>)

  /** A single user edit of one of the two input fields. */
  datatype Edit = QuantityInput(value: int) | AddressInput(address: string)

  const PendingStatus := "Pending"

  /** The text of the error toast each notice shows. */
  function Message(n: Notice): string {
    match n
    case ExceedsStock => "Quantity exceeds available stock!"
    case BelowMinimum => "Quantity cannot be less than 1"
  }

  function CustomerOf(user: Option<User>): Customer {
    match user
    case None => Customer(None, None, None)
    case Some(u) => Customer(u.displayName, u.email, u.photoURL)
  }

  /** The state when the modal mounts: one item at the unit price, empty
      address, a record naming this plant, its seller and the buyer. */
  function Initial(plant: Plant, user: Option<User>): (s: Editor)
    ensures Consistent(plant, s)
    ensures s.totalQuantity == s.info.quantity == 1
    ensures s.info.plantId == plant.id && s.info.seller == plant.sellerEmail
    ensures s.info.customer == CustomerOf(user) && s.info.address == "" && s.info.status == PendingStatus
  {
    Editor(1, plant.price,
      PurchaseInfo(CustomerOf(user), plant.id, plant.price, 1, plant.sellerEmail, "", PendingStatus))
  }

  /** `handleQuantity`: above the stock, clamp the shown quantity to the stock;
      below zero, clamp it to 1; both clamps leave price and record stale.
      Any value in 0..stock is accepted and the price recomputed. */
  function Quantity(plant: Plant, s: Editor, value: int): (r: QuantityOutcome)
    ensures r.notice == None <==> 0 <= value <= plant.quantity
    ensures Consistent(plant, s) ==> Consistent(plant, r.editor)
    ensures SameParties(r.editor.info, s.info) && r.editor.info.address == s.info.address
  {
    if value > plant.quantity then
      QuantityOutcome(s.(totalQuantity := plant.quantity), Some(ExceedsStock))
    else if value < 0 then
      QuantityOutcome(s.(totalQuantity := 1), Some(BelowMinimum))
    else
      QuantityOutcome(
        Editor(value, value * plant.price, s.info.(quantity := value, price := value * plant.price)),
        None)
  }

  /** The address field's `onChange`: rewrites `purchaseInfo.address` only;
      putting the old address back gives the old state. */
  function Address(s: Editor, address: string): (r: Editor)
    ensures r.info.address == address
    ensures r.(info := r.info.(address := s.info.address)) == s
  {
    s.(info := s.info.(address := address))
  }

  function Apply(plant: Plant, s: Editor, e: Edit): Editor {
    match e
    case QuantityInput(v) => Quantity(plant, s, v).editor
    case AddressInput(a) => Address(s, a)
  }

  /** The state after a sequence of edits, applied left to right. */
  function ApplyAll(plant: Plant, s: Editor, edits: seq<Edit>): Editor
    decreases |edits|
  {
    if edits == [] then s else ApplyAll(plant, Apply(plant, s, edits[0]), edits[1..])
  }

  /** The modal's invariant: the recorded price is quantity times unit price, the
      shown total equals the recorded price, and (when there is stock) the
      recorded quantity lies in 0..stock. */
  predicate Consistent(plant: Plant, s: Editor) {
    && s.info.price == s.info.quantity * plant.price
    && s.totalPrice == s.info.price
    && (plant.quantity >= 1 ==> 0 <= s.info.quantity <= plant.quantity)
  }

  /** The edits never touch these fields of the record. */
  predicate SameParties(a: PurchaseInfo, b: PurchaseInfo) {
    a.customer == b.customer && a.plantId == b.plantId && a.seller == b.seller && a.status == b.status
  }

  lemma ExceedingStockClamps(plant: Plant, s: Editor, value: int)
    requires value > plant.quantity
    ensures Quantity(plant, s, value).editor.totalQuantity == plant.quantity
    ensures Quantity(plant, s, value).editor.totalPrice == s.totalPrice
    ensures Quantity(plant, s, value).editor.info == s.info
    ensures Quantity(plant, s, value).notice == Some(ExceedsStock)
    ensures Message(Quantity(plant, s, value).notice.value) == "Quantity exceeds available stock!"
  {
  }

  lemma NegativeClampsToOne(plant: Plant, s: Editor, value: int)
    requires value <= plant.quantity && value < 0
    ensures Quantity(plant, s, value).editor.totalQuantity == 1
    ensures Quantity(plant, s, value).editor.totalPrice == s.totalPrice
    ensures Quantity(plant, s, value).editor.info == s.info
    ensures Quantity(plant, s, value).notice == Some(BelowMinimum)
    ensures Message(Quantity(plant, s, value).notice.value) == "Quantity cannot be less than 1"
  {
  }

  /** An accepted value (0 included) sets both quantities and both prices and no
      other field, and brings the shown quantity back in line with the record. */
  lemma AcceptedQuantityReprices(plant: Plant, s: Editor, value: int)
    requires 0 <= value <= plant.quantity
    ensures var r := Quantity(plant, s, value);
      && r.notice == None
      && r.editor.totalQuantity == r.editor.info.quantity == value
      && r.editor.totalPrice == r.editor.info.price == value * plant.price
      && r.editor.info == s.info.(quantity := value, price := value * plant.price)
  {
  }

  lemma QuantityIdempotent(plant: Plant, s: Editor, value: int)
    ensures Quantity(plant, Quantity(plant, s, value).editor, value) == Quantity(plant, s, value)
  {
  }

  /** Only the last address typed counts, and retyping the old address undoes
      an edit; quantity and price are never touched. */
  lemma AddressLastEditWins(s: Editor, a: string, b: string)
    ensures Address(Address(s, a), b) == Address(s, b)
    ensures Address(Address(s, a), s.info.address) == s
    ensures Address(s, a).totalQuantity == s.totalQuantity && Address(s, a).totalPrice == s.totalPrice
    ensures Address(s, a).info == s.info.(address := a)
  {
  }

  /** One edit keeps the invariant and the fixed fields. */
  lemma EditKeepsConsistent(plant: Plant, s: Editor, e: Edit)
    requires Consistent(plant, s)
    ensures Consistent(plant, Apply(plant, s, e))
    ensures SameParties(Apply(plant, s, e).info, s.info)
  {
  }

  /** Across any sequence of quantity and address edits the invariant holds and
      customer, plant, seller and status never change. */
  lemma {:induction false} EditsKeepConsistent(plant: Plant, s: Editor, edits: seq<Edit>)
    requires Consistent(plant, s)
    ensures Consistent(plant, ApplyAll(plant, s, edits))
    ensures SameParties(ApplyAll(plant, s, edits).info, s.info)
    decreases |edits|
  {
    if edits != [] {
      EditKeepsConsistent(plant, s, edits[0]);
      EditsKeepConsistent(plant, Apply(plant, s, edits[0]), edits[1..]);
    }
  }

  /** The modal as an object: its three state variables are fields that the
      handlers update branch by branch. */
  class PurchaseModal {
    const plant: Plant
    const user: Option<User>
    var totalQuantity: int
    var totalPrice: int
    var purchaseInfo: PurchaseInfo

    function State(): Editor
      reads this
    {
      Editor(totalQuantity, totalPrice, purchaseInfo)
    }

    ghost predicate Valid()
      reads this
    {
      Consistent(plant, State())
    }

    constructor (plant: Plant, user: Option<User>)
      ensures this.plant == plant && this.user == user
      ensures totalQuantity == 1 && totalPrice == plant.price
      ensures purchaseInfo.quantity == 1 && purchaseInfo.price == plant.price
      ensures purchaseInfo.address == "" && purchaseInfo.status == PendingStatus
      ensures purchaseInfo.customer == CustomerOf(user)
      ensures purchaseInfo.plantId == plant.id && purchaseInfo.seller == plant.sellerEmail
      ensures State() == Initial(plant, user)
      ensures Valid()
    {
      this.plant := plant;
      this.user := user;
      totalQuantity := 1;
      totalPrice := plant.price;
      purchaseInfo := PurchaseInfo(CustomerOf(user), plant.id, plant.price, 1, plant.sellerEmail, "", PendingStatus);
    }

    method HandleQuantity(value: int) returns (notice: Option<Notice>)
      requires Valid()
      modifies this
      ensures Valid()
      ensures QuantityOutcome(State(), notice) == Quantity(plant, old(State()), value)
      ensures value > plant.quantity ==>
        && totalQuantity == plant.quantity && notice == Some(ExceedsStock)
        && totalPrice == old(totalPrice) && purchaseInfo == old(purchaseInfo)
      ensures value <= plant.quantity && value < 0 ==>
        && totalQuantity == 1 && notice == Some(BelowMinimum)
        && totalPrice == old(totalPrice) && purchaseInfo == old(purchaseInfo)
      ensures 0 <= value <= plant.quantity ==>
        && totalQuantity == value && totalPrice == value * plant.price && notice == None
        && purchaseInfo == old(purchaseInfo).(quantity := value, price := value * plant.price)
    {
      if value > plant.quantity {
        totalQuantity := plant.quantity;
        return Some(ExceedsStock);
      }
      if value < 0 {
        totalQuantity := 1;
        return Some(BelowMinimum);
      }
      totalQuantity := value;
      totalPrice := value * plant.price;
      purchaseInfo := purchaseInfo.(quantity := value, price := value * plant.price);
      notice := None;
    }

    method SetAddress(address: string)
      requires Valid()
      modifies this
      ensures Valid()
      ensures State() == Address(old(State()), address)
      ensures purchaseInfo == old(purchaseInfo).(address := address)
      ensures totalQuantity == old(totalQuantity) && totalPrice == old(totalPrice)
    {
      purchaseInfo := purchaseInfo.(address := address);
    }
  }
}
