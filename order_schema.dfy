/** The Order document: its shape, the constraints the schema validator
    enforces on save, its defaults, and the collection with its sparse unique
    index on `invoiceRef` (model/Order.js). */
module OrderSchema {
  import opened Basics

  datatype OrderItem = OrderItem(
    product: Option<ProductId>,
    quantity: int,
    selectedColor: Option<string>)

  datatype ShippingAddress = ShippingAddress(
    fullName: Option<string>,
    address: Option<string>,
    city: Option<string>,
    postalCode: Option<string>,
    country: Option<string>,
    phoneNumber: Option<string>)

  /** Every field is optional: each payment path writes a different subset. */
  datatype PaymentResult = PaymentResult(
    transactionId: Option<string>,
    status: Option<string>,
    paymentDate: Option<Time>,
    currency: Option<string>,
    exchangeRate: Option<real>,
    amount: Option<real>)

  datatype StatusEntry = StatusEntry(status: Option<string>, updatedAt: Time)

  /** Unset flags read as false: the handlers only test their truthiness. */
  datatype ReturnRequest = ReturnRequest(
    requested: bool,
    reason: Option<string>,
    approved: bool,
    approvedAt: Option<Time>,
    refunded: bool,
    refundedAt: Option<Time>,
    refundAmount: Option<real>,
    refundReason: Option<string>)

  datatype Notifications = Notifications(paymentNotified: bool, deliveryNotified: bool)

  datatype Order = Order(
    user: UserId,
    orderItems: seq<OrderItem>,
    shippingAddress: ShippingAddress,
    paymentMethod: Option<string>,
    paymentResult: Option<PaymentResult>,
    totalPrice: Option<real>,
    isPaid: bool,
    paidAt: Option<Time>,
    isDelivered: bool,
    deliveredAt: Option<Time>,
    deliveryStatus: Option<string>,
    statusHistory: seq<StatusEntry>,
    invoiceRef: Option<string>,
    returnRequest: ReturnRequest,
    notifications: Notifications,
    notes: Option<string>)

  /** The `enum` of `paymentMethod`. */
  const PaymentMethods: set<string> :=
    {"card", "bank", "bitcoin", "usdt", "ether", "cashOnDelivery", "paystack", "stripe", "crypto"}

  /** Mongoose's `required` on a string rejects a missing value and the empty string. */
  predicate RequiredString(s: Option<string>) {
    StrTruthy(s)
  }

  predicate ValidItem(item: OrderItem) {
    && item.product.Some?
    && item.quantity >= 1
    && RequiredString(item.selectedColor)
  }

  predicate ValidAddress(a: ShippingAddress) {
    && RequiredString(a.fullName)
    && RequiredString(a.address)
    && RequiredString(a.city)
    && RequiredString(a.country)
    && RequiredString(a.phoneNumber)
  }

  /** What the schema validator checks before a save is allowed. */
  predicate ValidOrder(o: Order) {
    && (forall i :: 0 <= i < |o.orderItems| ==> ValidItem(o.orderItems[i]))
    && ValidAddress(o.shippingAddress)
    && o.paymentMethod.Some? && o.paymentMethod.value in PaymentMethods
    && o.totalPrice.Some? && o.totalPrice.value >= 0.0
  }

  /** The sparse unique index: two different orders never share a present
      `invoiceRef`; orders without one are not constrained. */
  predicate InvoiceRefsUnique(orders: map<OrderId, Order>) {
    forall a, b :: a in orders && b in orders && a != b && orders[a].invoiceRef.Some? ==>
      orders[a].invoiceRef != orders[b].invoiceRef
  }

  predicate StoreInvariant(orders: map<OrderId, Order>) {
    && (forall id :: id in orders ==> ValidOrder(orders[id]))
    && InvoiceRefsUnique(orders)
  }

  /** No order other than `id` holds `ref` (vacuous for a missing ref). */
  predicate RefFreeFor(orders: map<OrderId, Order>, id: OrderId, ref: Option<string>) {
    ref.Some? ==> forall b :: b in orders && b != id ==> orders[b].invoiceRef != ref
  }

  /** A save of `o` under `id` passes validation and the unique index. */
  predicate CanSave(orders: map<OrderId, Order>, id: OrderId, o: Order) {
    ValidOrder(o) && RefFreeFor(orders, id, o.invoiceRef)
  }

  lemma SavePreservesInvariant(orders: map<OrderId, Order>, id: OrderId, o: Order)
    requires CanSave(orders, id, o)
    ensures StoreInvariant(orders) ==> StoreInvariant(orders[id := o])
  {
    if !StoreInvariant(orders) { return; }
    var m := orders[id := o];
    forall a, b | a in m && b in m && a != b && m[a].invoiceRef.Some?
      ensures m[a].invoiceRef != m[b].invoiceRef
    {
      if a == id {
        assert m[b] == orders[b];
      } else if b == id {
        assert m[a] == orders[a];
      } else {
        assert m[a] == orders[a] && m[b] == orders[b];
      }
    }
  }

  /** The sparse index places no constraint on orders without a reference:
      any number of them can coexist. */
  lemma SparseIndexIgnoresMissingRefs(orders: map<OrderId, Order>)
    requires forall id :: id in orders ==> orders[id].invoiceRef.None?
    ensures InvoiceRefsUnique(orders)
  {
  }

  const EmptyReturnRequest: ReturnRequest :=
    ReturnRequest(false, None, false, None, false, None, None, None)

  const NoNotifications: Notifications := Notifications(false, false)

  /** `new Order({...})`: the given fields, every other path at its schema
      default; `statusHistory` entries get `updatedAt = Date.now()`. */
  function NewOrder(
    user: UserId, items: seq<OrderItem>, address: ShippingAddress,
    paymentMethod: Option<string>, totalPrice: Option<real>, notes: Option<string>,
    invoiceRef: Option<string>, history: seq<Option<string>>, now: Time): (o: Order)
    ensures o.user == user && o.orderItems == items && o.shippingAddress == address
    ensures o.paymentMethod == paymentMethod && o.totalPrice == totalPrice && o.notes == notes
    ensures o.invoiceRef == invoiceRef
    ensures !o.isPaid && o.paidAt.None? && o.paymentResult.None?
    ensures !o.isDelivered && o.deliveredAt.None? && o.deliveryStatus == Some("processing")
    ensures |o.statusHistory| == |history|
    ensures forall i :: 0 <= i < |history| ==> o.statusHistory[i] == StatusEntry(history[i], now)
    ensures o.returnRequest == EmptyReturnRequest && o.notifications == NoNotifications
  {
    Order(user, items, address, paymentMethod, None, totalPrice,
          false, None, false, None, Some("processing"),
          seq(|history|, i requires 0 <= i < |history| => StatusEntry(history[i], now)),
          invoiceRef, EmptyReturnRequest, NoNotifications, notes)
  }

  /** The `Order` collection: documents by id, the id the next insert gets,
      and the schema validation and unique index applied on every write. */
  class OrderCollection {
    var orders: map<OrderId, Order>
    var nextId: OrderId

    ghost predicate Valid()
      reads this
    {
      && StoreInvariant(orders)
      && (forall id :: id in orders ==> id < nextId)
    }

    constructor ()
      ensures Valid() && orders == map[] && nextId == 0
    {
      orders := map[];
      nextId := 0;
    }

    /** `doc.save()` on a loaded document: validate, check the index, write. */
    method Save(id: OrderId, o: Order) returns (ok: bool)
      requires Valid() && id in orders
      modifies this
      ensures Valid() && nextId == old(nextId)
      ensures ok == CanSave(old(orders), id, o)
      ensures orders == if ok then old(orders)[id := o] else old(orders)
    {
      ok := ValidOrder(o) && (o.invoiceRef.Some? ==> forall b :: b in orders && b != id ==> orders[b].invoiceRef != o.invoiceRef);
      if ok {
        SavePreservesInvariant(orders, id, o);
        orders := orders[id := o];
      }
    }

    /** `doc.save()` on a new document; its id is drawn whether or not the write succeeds. */
    method Insert(o: Order) returns (id: OrderId, ok: bool)
      requires Valid()
      modifies this
      ensures Valid()
      ensures id == old(nextId) && id !in old(orders) && nextId == old(nextId) + 1
      ensures ok == CanSave(old(orders), id, o)
      ensures orders == if ok then old(orders)[id := o] else old(orders)
    {
      id := nextId;
      ok := ValidOrder(o) && (o.invoiceRef.Some? ==> forall b :: b in orders && b != id ==> orders[b].invoiceRef != o.invoiceRef);
      if ok {
        SavePreservesInvariant(orders, id, o);
        orders := orders[id := o];
      }
      nextId := nextId + 1;
    }
  }
}
