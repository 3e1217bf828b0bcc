/** The order handlers (controllers/orderController.js). Each handler loads
    one order, assigns fields of its copy, appends to `statusHistory` and
    saves, or answers an error and changes nothing. Every handler is a method
    over the `OrderCollection` proved equal to a pure `...Outcome` function of
    the collection before the call; the lemmas below are about those functions. */
module OrderController {
  import opened Basics
  import opened OrderSchema
  import opened UserSchema

  /** The HTTP status a handler answers and the collection it leaves behind. */
  datatype Outcome = Outcome(code: int, orders: map<OrderId, Order>)

  /** The `invoiceRef` checkout stores. Its template literal holds no `${`, so
      each backslash escape yields the character after it and no time or
      random number is ever substituted. */
  const CheckoutInvoiceRef: string :=
    "INV-<" + "span class=\"math-inline\">{Date.now().toString().slice(-6)}-</span>{Math.floor(Math.random() * 10000)}"

  /** The `invoiceRef` updateOrderToPaid assigns to an order without one: the
      same text, but its literal spans three source lines. */
  const PaidInvoiceRef: string :=
    "INV-<" + "span class=\"math-inline\">{Date.now().toString().slice(-6)}-</span>{Math.floor(\n                Math.random() * 10000\n            )}"

  // ---------------------------------------------------------------------
  // Relations every handler keeps
  // ---------------------------------------------------------------------

  /** What checkout fixes and no handler changes afterwards. */
  predicate SamePurchase(a: Order, b: Order) {
    && a.user == b.user && a.orderItems == b.orderItems
    && a.shippingAddress == b.shippingAddress && a.totalPrice == b.totalPrice
    && a.notes == b.notes
  }

  predicate SamePayment(a: Order, b: Order) {
    && a.isPaid == b.isPaid && a.paidAt == b.paidAt
    && a.paymentMethod == b.paymentMethod && a.paymentResult == b.paymentResult
    && a.notifications == b.notifications
  }

  predicate SameDelivery(a: Order, b: Order) {
    a.isDelivered == b.isDelivered && a.deliveredAt == b.deliveredAt && a.deliveryStatus == b.deliveryStatus
  }

  /** `b`'s history is `a`'s with exactly one entry `(status, now)` pushed. */
  predicate AppendsOne(a: Order, b: Order, status: Option<string>, now: Time) {
    b.statusHistory == a.statusHistory + [StatusEntry(status, now)]
  }

  /** Payment state in which `isPaid` holds exactly when a payment result is
      recorded, a paid order has `paidAt`, and the history is never empty. */
  predicate OrderConsistent(o: Order) {
    && |o.statusHistory| >= 1
    && (o.isPaid <==> o.paymentResult.Some?)
    && (o.isPaid ==> o.paidAt.Some?)
  }

  /** Every stored `invoiceRef` is checkout's fixed text. */
  predicate CheckoutRefsOnly(orders: map<OrderId, Order>) {
    forall id :: id in orders ==> orders[id].invoiceRef == Some(CheckoutInvoiceRef)
  }

  /** The collections the handlers can produce from an empty one. */
  predicate ReachableStore(orders: map<OrderId, Order>) {
    && StoreInvariant(orders)
    && (forall id :: id in orders ==> OrderConsistent(orders[id]))
    && CheckoutRefsOnly(orders)
  }

  /** How any handler may change the collection: orders are never removed,
      their purchase never changes, their history only grows at the end and a
      present `invoiceRef` is never reassigned or cleared. */
  predicate Evolves(before: map<OrderId, Order>, after: map<OrderId, Order>) {
    forall id :: id in before ==>
      && id in after
      && SamePurchase(before[id], after[id])
      && before[id].statusHistory <= after[id].statusHistory
      && (StrTruthy(before[id].invoiceRef) ==> after[id].invoiceRef == before[id].invoiceRef)
  }

  lemma {:induction false} EvolvesTransitive(a: map<OrderId, Order>, b: map<OrderId, Order>, c: map<OrderId, Order>)
    requires Evolves(a, b) && Evolves(b, c)
    ensures Evolves(a, c)
  {
    forall id | id in a
      ensures id in c && SamePurchase(a[id], c[id]) && a[id].statusHistory <= c[id].statusHistory
      ensures StrTruthy(a[id].invoiceRef) ==> c[id].invoiceRef == a[id].invoiceRef
    {
      assert id in b;
      var h1, h2, h3 := a[id].statusHistory, b[id].statusHistory, c[id].statusHistory;
      assert h1 <= h2 && h2 <= h3;
      assert h1 == h2[..|h1|] && h2 == h3[..|h2|];
      assert h1 == h3[..|h1|];
    }
  }

  /** Because every stored order carries checkout's fixed `invoiceRef` and
      the index is unique, the collection never holds two orders. */
  lemma {:induction false} AtMostOneOrder(orders: map<OrderId, Order>)
    requires ReachableStore(orders)
    ensures |orders| <= 1
  {
    if orders != map[] {
      var a :| a in orders;
      forall b | b in orders
        ensures b == a
      {
      }
      assert orders.Keys == {a};
      assert |orders| == |orders.Keys|;
    }
  }

  // ---------------------------------------------------------------------
  // checkout
  // ---------------------------------------------------------------------

  /** The document checkout builds with reference `ref`: one "processing"
      history entry. */
  function CheckoutOrder(
    user: UserId, items: seq<OrderItem>, address: ShippingAddress,
    paymentMethod: Option<string>, totalPrice: Option<real>, notes: Option<string>, ref: string, now: Time): (o: Order)
    ensures o.user == user && o.orderItems == items
    ensures o.statusHistory == [StatusEntry(Some("processing"), now)]
    ensures o.invoiceRef == Some(ref)
    ensures !o.isPaid && !o.isDelivered && o.deliveryStatus == Some("processing")
    ensures OrderConsistent(o)
  {
    NewOrder(user, items, address, paymentMethod, totalPrice, notes,
             Some(ref), [Some("processing")], now)
  }

  function CheckoutOutcome(
    orders: map<OrderId, Order>, newId: OrderId, user: UserId, items: Option<seq<OrderItem>>,
    address: ShippingAddress, paymentMethod: Option<string>, totalPrice: Option<real>,
    notes: Option<string>, ref: string, now: Time): (r: Outcome)
    requires newId !in orders
    ensures r.code == 201 || r.code == 400 || r.code == 500
    ensures r.code != 201 ==> r.orders == orders
    ensures r.orders.Keys <= orders.Keys + {newId}
    ensures r.code == 400 <==> items.None? || |items.value| == 0
    ensures r.code == 201 ==> r.orders == orders[newId := CheckoutOrder(user, items.value, address, paymentMethod, totalPrice, notes, ref, now)]
    ensures r.code == 500 ==> !CanSave(orders, newId, CheckoutOrder(user, items.value, address, paymentMethod, totalPrice, notes, ref, now))
    ensures Evolves(orders, r.orders)
    ensures StoreInvariant(orders) ==> StoreInvariant(r.orders)
    ensures ReachableStore(orders) && ref == CheckoutInvoiceRef ==> ReachableStore(r.orders)
  {
    if items.None? || |items.value| == 0 then Outcome(400, orders)
    else
      var o := CheckoutOrder(user, items.value, address, paymentMethod, totalPrice, notes, ref, now);
      if CanSave(orders, newId, o) then
        InsertKeeps(orders, newId, o);
        Outcome(201, orders[newId := o])
      else Outcome(500, orders)
  }

  /** Storing a consistent order under a fresh id lets the collection evolve
      and keeps it reachable when the order carries checkout's reference. */
  lemma InsertKeeps(orders: map<OrderId, Order>, newId: OrderId, o: Order)
    requires newId !in orders && CanSave(orders, newId, o) && OrderConsistent(o)
    ensures Evolves(orders, orders[newId := o])
    ensures orders[newId := o].Keys == orders.Keys + {newId}
    ensures StoreInvariant(orders) ==> StoreInvariant(orders[newId := o])
    ensures ReachableStore(orders) && o.invoiceRef == Some(CheckoutInvoiceRef) ==> ReachableStore(orders[newId := o])
  {
    SavePreservesInvariant(orders, newId, o);
  }

  /** Once one checkout has been stored, every later checkout fails to save:
      its `invoiceRef` collides with the stored one. */
  lemma SecondCheckoutFails(
    orders: map<OrderId, Order>, newId: OrderId, user: UserId, items: Option<seq<OrderItem>>,
    address: ShippingAddress, paymentMethod: Option<string>, totalPrice: Option<real>,
    notes: Option<string>, now: Time, first: OrderId)
    requires newId !in orders
    requires first in orders && orders[first].invoiceRef == Some(CheckoutInvoiceRef)
    ensures CheckoutOutcome(orders, newId, user, items, address, paymentMethod, totalPrice, notes, CheckoutInvoiceRef, now).code != 201
  {
    var o := CheckoutOrder(user, if items.Some? then items.value else [], address, paymentMethod, totalPrice, notes, CheckoutInvoiceRef, now);
    assert !RefFreeFor(orders, newId, o.invoiceRef) by {
      assert first != newId && orders[first].invoiceRef == o.invoiceRef;
    }
  }

  /** The worked example: one item, a valid address and method, total 5000. */
  lemma CheckoutExample(now: Time)
    ensures var items := [OrderItem(Some(1), 2, Some("red"))];
      var address := ShippingAddress(Some("Ada"), Some("1 Road"), Some("Lagos"), None, Some("NG"), Some("0800"));
      var r := CheckoutOutcome(map[], 0, 7, Some(items), address, Some("paystack"), Some(5000.0), None, CheckoutInvoiceRef, now);
      && r.code == 201 && 0 in r.orders
      && !r.orders[0].isPaid && r.orders[0].deliveryStatus == Some("processing")
      && r.orders[0].statusHistory == [StatusEntry(Some("processing"), now)]
  {
    var items := [OrderItem(Some(1), 2, Some("red"))];
    var address := ShippingAddress(Some("Ada"), Some("1 Road"), Some("Lagos"), None, Some("NG"), Some("0800"));
    var o := CheckoutOrder(7, items, address, Some("paystack"), Some(5000.0), None, CheckoutInvoiceRef, now);
    assert ValidItem(items[0]);
    assert ValidOrder(o);
  }

  /** checkout with the reference it stores given: builds the order and
      inserts it under the next id. */
  method PlaceOrder(
    db: OrderCollection, user: UserId, orderItems: Option<seq<OrderItem>>,
    shippingAddress: ShippingAddress, paymentMethod: Option<string>, totalPrice: Option<real>,
    notes: Option<string>, invoiceRef: string, now: Time) returns (code: int)
    requires db.Valid()
    modifies db
    ensures db.Valid()
    ensures Outcome(code, db.orders) ==
      CheckoutOutcome(old(db.orders), old(db.nextId), user, orderItems, shippingAddress, paymentMethod, totalPrice, notes, invoiceRef, now)
  {
    if orderItems.None? || |orderItems.value| == 0 {
      return 400;
    }
    var newOrder := NewOrder(user, orderItems.value, shippingAddress, paymentMethod, totalPrice, notes,
                             Some(invoiceRef), [Some("processing")], now);
    var id, saved := db.Insert(newOrder);
    code := if saved then 201 else 500;
  }

  /** checkout as written: every order gets the constant reference. */
  method Checkout(
    db: OrderCollection, user: UserId, orderItems: Option<seq<OrderItem>>,
    shippingAddress: ShippingAddress, paymentMethod: Option<string>, totalPrice: Option<real>,
    notes: Option<string>, now: Time) returns (code: int)
    requires db.Valid()
    modifies db
    ensures db.Valid()
    ensures Outcome(code, db.orders) ==
      CheckoutOutcome(old(db.orders), old(db.nextId), user, orderItems, shippingAddress, paymentMethod, totalPrice, notes, CheckoutInvoiceRef, now)
  {
    code := PlaceOrder(db, user, orderItems, shippingAddress, paymentMethod, totalPrice, notes, CheckoutInvoiceRef, now);
  }

  // ---------------------------------------------------------------------
  // The invoice reference the checkout literal evidently means
  // ---------------------------------------------------------------------

  /** `s.slice(-6)`: the last six characters, or all of a shorter string. */
  function Last6(s: string): (t: string)
    ensures |t| == if |s| < 6 then |s| else 6
    ensures t == s[|s| - |t|..]
  {
    if |s| <= 6 then s else s[|s| - 6..]
  }

  /** `Math.floor(random * 10000)` for `random` drawn from [0, 1). */
  function RandomBucket(random: real): (b: nat)
    requires 0.0 <= random < 1.0
    ensures b < 10000
    ensures b as real <= random * 10000.0 < b as real + 1.0
  {
    (random * 10000.0).Floor
  }

  /** "INV-", the last six digits of the millisecond clock `nowMs`, "-", and
      the random bucket. */
  function IntendedInvoiceRef(nowMs: nat, random: real): (ref: string)
    requires 0.0 <= random < 1.0
    ensures |ref| >= 7 && ref[..4] == "INV-" && IsDigit(ref[4])
  {
    var digits := DecimalString(nowMs);
    var stamp := Last6(digits);
    assert stamp[0] == digits[|digits| - |stamp|];
    var tail := stamp + "-" + DecimalString(RandomBucket(random));
    assert tail[0] == stamp[0];
    "INV-" + tail
  }

  /** The intended reference is never the literal one, whose fifth character is '<'. */
  lemma IntendedRefIsNotLiteral(nowMs: nat, random: real)
    requires 0.0 <= random < 1.0
    ensures IntendedInvoiceRef(nowMs, random) != CheckoutInvoiceRef
    ensures IntendedInvoiceRef(nowMs, random) != PaidInvoiceRef
  {
    assert CheckoutInvoiceRef[4] == '<' && PaidInvoiceRef[4] == '<';
  }

  /** Two references drawn in the same millisecond differ when their random
      buckets do. */
  lemma IntendedRefsDiffer(nowMs: nat, r1: real, r2: real)
    requires 0.0 <= r1 < 1.0 && 0.0 <= r2 < 1.0
    requires RandomBucket(r1) != RandomBucket(r2)
    ensures IntendedInvoiceRef(nowMs, r1) != IntendedInvoiceRef(nowMs, r2)
  {
    BucketIsSuffix(nowMs, r1);
    BucketIsSuffix(nowMs, r2);
    DecimalRoundTrip(RandomBucket(r1));
    DecimalRoundTrip(RandomBucket(r2));
  }

  /** The random bucket's digits follow "INV-", the stamp and "-". */
  lemma BucketIsSuffix(nowMs: nat, random: real)
    requires 0.0 <= random < 1.0
    ensures var k := 4 + |Last6(DecimalString(nowMs))| + 1;
      k <= |IntendedInvoiceRef(nowMs, random)| &&
      IntendedInvoiceRef(nowMs, random)[k..] == DecimalString(RandomBucket(random))
  {
    var stamp := Last6(DecimalString(nowMs));
    var bucket := DecimalString(RandomBucket(random));
    var tail := stamp + "-" + bucket;
    var ref := IntendedInvoiceRef(nowMs, random);
    assert ref == "INV-" + tail;
    assert ref[4..] == tail;
    assert tail[|stamp| + 1..] == bucket;
    assert ref[4 + |stamp| + 1..] == ref[4..][|stamp| + 1..];
  }

  /** Two checkouts whose references differ are stored side by side. */
  lemma DistinctRefsLetCheckoutsCoexist(
    user: UserId, items: Option<seq<OrderItem>>, address: ShippingAddress,
    pm: Option<string>, total: Option<real>, notes: Option<string>,
    now: Time, ref1: string, ref2: string)
    requires ref1 != ref2
    requires CheckoutOutcome(map[], 0, user, items, address, pm, total, notes, ref1, now).code == 201
    ensures var first := CheckoutOutcome(map[], 0, user, items, address, pm, total, notes, ref1, now);
      var second := CheckoutOutcome(first.orders, 1, user, items, address, pm, total, notes, ref2, now);
      && second.code == 201 && second.orders.Keys == {0, 1}
      && StoreInvariant(second.orders)
  {
    var o1 := CheckoutOrder(user, items.value, address, pm, total, notes, ref1, now);
    var o2 := CheckoutOrder(user, items.value, address, pm, total, notes, ref2, now);
    assert CanSave(map[], 0, o1);
    assert o2 == o1.(invoiceRef := Some(ref2));
    TwoOrdersFit(o1, o2);
  }

  /** Two valid orders with different references fit in a collection side by side. */
  lemma TwoOrdersFit(o1: Order, o2: Order)
    requires ValidOrder(o1) && ValidOrder(o2) && o1.invoiceRef != o2.invoiceRef
    ensures StoreInvariant(map[0 := o1]) && CanSave(map[0 := o1], 1, o2)
  {
    assert forall id :: id in map[0 := o1] ==> id == 0;
  }

  /** With the intended references, a second checkout in the same
      millisecond is stored beside the first whenever the random buckets
      differ; with the literal reference it fails (SecondCheckoutFails). */
  lemma IntendedRefsLetCheckoutsCoexist(
    user: UserId, items: Option<seq<OrderItem>>, address: ShippingAddress,
    pm: Option<string>, total: Option<real>, notes: Option<string>,
    now: Time, nowMs: nat, r1: real, r2: real)
    requires 0.0 <= r1 < 1.0 && 0.0 <= r2 < 1.0
    requires RandomBucket(r1) != RandomBucket(r2)
    requires CheckoutOutcome(map[], 0, user, items, address, pm, total, notes, IntendedInvoiceRef(nowMs, r1), now).code == 201
    ensures var first := CheckoutOutcome(map[], 0, user, items, address, pm, total, notes, IntendedInvoiceRef(nowMs, r1), now);
      var second := CheckoutOutcome(first.orders, 1, user, items, address, pm, total, notes, IntendedInvoiceRef(nowMs, r2), now);
      && second.code == 201 && second.orders.Keys == {0, 1}
      && StoreInvariant(second.orders)
  {
    IntendedRefsDiffer(nowMs, r1, r2);
    DistinctRefsLetCheckoutsCoexist(user, items, address, pm, total, notes, now,
      IntendedInvoiceRef(nowMs, r1), IntendedInvoiceRef(nowMs, r2));
  }

  /** checkout with the intended reference drawn from the clock and `random`. */
  method CheckoutCorrected(
    db: OrderCollection, user: UserId, orderItems: Option<seq<OrderItem>>,
    shippingAddress: ShippingAddress, paymentMethod: Option<string>, totalPrice: Option<real>,
    notes: Option<string>, nowMs: nat, random: real, now: Time) returns (code: int)
    requires db.Valid()
    requires 0.0 <= random < 1.0
    modifies db
    ensures db.Valid()
    ensures Outcome(code, db.orders) ==
      CheckoutOutcome(old(db.orders), old(db.nextId), user, orderItems, shippingAddress, paymentMethod, totalPrice, notes,
                      IntendedInvoiceRef(nowMs, random), now)
  {
    code := PlaceOrder(db, user, orderItems, shippingAddress, paymentMethod, totalPrice, notes, IntendedInvoiceRef(nowMs, random), now);
  }

  // ---------------------------------------------------------------------
  // updateOrderToPaid
  // ---------------------------------------------------------------------

  /** `paymentResult` as the request body carries it. */
  datatype PaymentResultInput = PaymentResultInput(
    transactionId: Option<string>, status: Option<string>,
    currency: Option<string>, exchangeRate: Option<real>)

  /** The record updateOrderToPaid stores, each missing or falsy field
      replaced by its fallback. */
  function ConfirmedPaymentResult(input: PaymentResultInput, now: Time): (p: PaymentResult)
    ensures p.transactionId == Some(StrOr(input.transactionId, ""))
    ensures p.status == Some(StrOr(input.status, "success"))
    ensures p.currency == Some(StrOr(input.currency, "NGN"))
    ensures p.exchangeRate == Some(NumOr(input.exchangeRate, 1.0))
    ensures p.paymentDate == Some(now) && p.amount.None?
  {
    PaymentResult(Some(StrOr(input.transactionId, "")), Some(StrOr(input.status, "success")), Some(now),
                  Some(StrOr(input.currency, "NGN")), Some(NumOr(input.exchangeRate, 1.0)), None)
  }

  /** An empty `paymentResult` object yields the documented fallbacks. */
  lemma PaymentResultFallbacks(now: Time)
    ensures ConfirmedPaymentResult(PaymentResultInput(None, None, None, None), now)
         == PaymentResult(Some(""), Some("success"), Some(now), Some("NGN"), Some(1.0), None)
  {
  }

  /** The fields updateOrderToPaid assigns; no `isPaid` guard. */
  function MarkPaid(o: Order, pm: string, input: PaymentResultInput, now: Time): (r: Order)
    ensures r.isPaid && r.paidAt == Some(now) && r.paymentMethod == Some(pm)
    ensures r.paymentResult == Some(ConfirmedPaymentResult(input, now))
    ensures r.notifications.paymentNotified && r.notifications.deliveryNotified == o.notifications.deliveryNotified
    ensures AppendsOne(o, r, Some("paid"), now)
    ensures StrTruthy(o.invoiceRef) ==> r.invoiceRef == o.invoiceRef
    ensures !StrTruthy(o.invoiceRef) ==> r.invoiceRef == Some(PaidInvoiceRef)
    ensures SamePurchase(o, r) && SameDelivery(o, r) && r.returnRequest == o.returnRequest
    ensures OrderConsistent(r)
  {
    o.(isPaid := true, paidAt := Some(now), paymentMethod := Some(pm),
       paymentResult := Some(ConfirmedPaymentResult(input, now)),
       notifications := o.notifications.(paymentNotified := true),
       invoiceRef := if StrTruthy(o.invoiceRef) then o.invoiceRef else Some(PaidInvoiceRef),
       statusHistory := o.statusHistory + [StatusEntry(Some("paid"), now)])
  }

  /** Without a guard, confirming twice pushes two "paid" entries. */
  lemma RepeatedMarkPaidAppendsTwice(o: Order, m1: string, m2: string, p1: PaymentResultInput, p2: PaymentResultInput, t1: Time, t2: Time)
    ensures var r := MarkPaid(MarkPaid(o, m1, p1, t1), m2, p2, t2);
      r.statusHistory == o.statusHistory + [StatusEntry(Some("paid"), t1), StatusEntry(Some("paid"), t2)]
  {
    var r1 := MarkPaid(o, m1, p1, t1);
    assert (o.statusHistory + [StatusEntry(Some("paid"), t1)]) + [StatusEntry(Some("paid"), t2)]
        == o.statusHistory + [StatusEntry(Some("paid"), t1), StatusEntry(Some("paid"), t2)];
  }

  predicate PaidInputsPresent(orderId: Option<OrderId>, paymentMethod: Option<string>, paymentResult: Option<PaymentResultInput>) {
    orderId.Some? && StrTruthy(paymentMethod) && paymentResult.Some?
  }

  function UpdateOrderToPaidOutcome(
    orders: map<OrderId, Order>, orderId: Option<OrderId>, paymentMethod: Option<string>,
    paymentResult: Option<PaymentResultInput>, now: Time): (r: Outcome)
    ensures r.code == 200 || r.code == 400 || r.code == 404 || r.code == 500
    ensures r.code != 200 ==> r.orders == orders
    ensures r.code == 400 <==> !PaidInputsPresent(orderId, paymentMethod, paymentResult)
    ensures r.code == 404 <==> PaidInputsPresent(orderId, paymentMethod, paymentResult) && orderId.value !in orders
    ensures r.code == 200 ==> r.orders == orders[orderId.value := MarkPaid(orders[orderId.value], paymentMethod.value, paymentResult.value, now)]
    ensures Evolves(orders, r.orders)
    ensures ReachableStore(orders) ==> ReachableStore(r.orders)
  {
    if !PaidInputsPresent(orderId, paymentMethod, paymentResult) then Outcome(400, orders)
    else if orderId.value !in orders then Outcome(404, orders)
    else
      var id := orderId.value;
      var o := MarkPaid(orders[id], paymentMethod.value, paymentResult.value, now);
      if CanSave(orders, id, o) then
        SavePreservesInvariant(orders, id, o);
        Outcome(200, orders[id := o])
      else Outcome(500, orders)
  }

  /** On a stored order the save succeeds exactly when the new payment method
      is in the enumeration and the order either keeps its own reference or
      the reference it would be given is still free. */
  lemma UpdateOrderToPaidSavesIff(
    orders: map<OrderId, Order>, id: OrderId, pm: string, input: PaymentResultInput, now: Time)
    requires StoreInvariant(orders) && id in orders && pm != ""
    ensures var r := UpdateOrderToPaidOutcome(orders, Some(id), Some(pm), Some(input), now);
      r.code == 200 <==>
        pm in PaymentMethods &&
        (StrTruthy(orders[id].invoiceRef) || RefFreeFor(orders, id, Some(PaidInvoiceRef)))
  {
    var o := orders[id];
    var o' := MarkPaid(o, pm, input, now);
    assert ValidOrder(o);
    if StrTruthy(o.invoiceRef) {
      assert o'.invoiceRef == o.invoiceRef;
      assert RefFreeFor(orders, id, o'.invoiceRef);
    }
  }

  method UpdateOrderToPaid(
    db: OrderCollection, orderId: Option<OrderId>, paymentMethod: Option<string>,
    paymentResult: Option<PaymentResultInput>, now: Time) returns (code: int)
    requires db.Valid()
    modifies db
    ensures db.Valid()
    ensures Outcome(code, db.orders) == UpdateOrderToPaidOutcome(old(db.orders), orderId, paymentMethod, paymentResult, now)
  {
    if orderId.None? || !StrTruthy(paymentMethod) || paymentResult.None? {
      return 400;
    }
    if orderId.value !in db.orders {
      return 404;
    }
    var id := orderId.value;
    var order := db.orders[id];
    var input := paymentResult.value;
    order := order.(isPaid := true);
    order := order.(paidAt := Some(now));
    order := order.(paymentMethod := paymentMethod);
    order := order.(paymentResult := Some(PaymentResult(
      Some(StrOr(input.transactionId, "")), Some(StrOr(input.status, "success")), Some(now),
      Some(StrOr(input.currency, "NGN")), Some(NumOr(input.exchangeRate, 1.0)), None)));
    order := order.(notifications := order.notifications.(paymentNotified := true));
    if !StrTruthy(order.invoiceRef) {
      order := order.(invoiceRef := Some(PaidInvoiceRef));
    }
    order := order.(statusHistory := order.statusHistory + [StatusEntry(Some("paid"), now)]);
    var saved := db.Save(id, order);
    code := if saved then 200 else 500;
  }

  // ---------------------------------------------------------------------
  // getMyOrders and getAllOrders
  // ---------------------------------------------------------------------

  /** The ids below `bound` of the orders `owner` placed (every order when
      `owner` is None), newest first. Ids are drawn in insertion order, so
      sorting on `createdAt` descending is sorting on the id descending. */
  function NewestFirst(orders: map<OrderId, Order>, owner: Option<UserId>, bound: nat): (ids: seq<OrderId>)
    ensures forall i, j :: 0 <= i < j < |ids| ==> ids[i] > ids[j]
    ensures forall id :: id in ids <==> id < bound && id in orders && (owner.None? || orders[id].user == owner.value)
    decreases bound
  {
    if bound == 0 then []
    else
      var k := bound - 1;
      var rest := NewestFirst(orders, owner, k);
      if k in orders && (owner.None? || orders[k].user == owner.value) then
        forall j | 0 <= j < |rest| ensures rest[j] < k { assert rest[j] in rest; }
        [k] + rest
      else rest
  }

  /** getMyOrders: every order of `user`, newest first, each once. */
  method GetMyOrders(db: OrderCollection, user: UserId) returns (code: int, ids: seq<OrderId>)
    requires db.Valid()
    ensures code == 200
    ensures forall id :: id in ids <==> id in db.orders && db.orders[id].user == user
    ensures forall i, j :: 0 <= i < j < |ids| ==> ids[i] > ids[j]
  {
    code, ids := 200, NewestFirst(db.orders, Some(user), db.nextId);
  }

  /** getAllOrders: every stored order, newest first, each once. */
  method GetAllOrders(db: OrderCollection) returns (code: int, ids: seq<OrderId>)
    requires db.Valid()
    ensures code == 200
    ensures forall id :: id in ids <==> id in db.orders
    ensures forall i, j :: 0 <= i < j < |ids| ==> ids[i] > ids[j]
  {
    code, ids := 200, NewestFirst(db.orders, None, db.nextId);
  }

  // ---------------------------------------------------------------------
  // updateOrderStatus and updateOrderToDelivered
  // ---------------------------------------------------------------------

  /** The fields updateOrderStatus assigns: any tag, even a missing one. */
  function SetDeliveryStatus(o: Order, status: Option<string>, now: Time): (r: Order)
    ensures r.deliveryStatus == status
    ensures AppendsOne(o, r, status, now)
    ensures SamePurchase(o, r) && SamePayment(o, r) && r.invoiceRef == o.invoiceRef
    ensures r.isDelivered == o.isDelivered && r.returnRequest == o.returnRequest
    ensures OrderConsistent(o) ==> OrderConsistent(r)
  {
    o.(deliveryStatus := status, statusHistory := o.statusHistory + [StatusEntry(status, now)])
  }

  /** The fields updateOrderToDelivered assigns. */
  function MarkDelivered(o: Order, now: Time): (r: Order)
    ensures r.isDelivered && r.deliveredAt == Some(now) && r.deliveryStatus == Some("delivered")
    ensures AppendsOne(o, r, Some("delivered"), now)
    ensures SamePurchase(o, r) && SamePayment(o, r) && r.invoiceRef == o.invoiceRef
    ensures r.returnRequest == o.returnRequest
    ensures OrderConsistent(o) ==> OrderConsistent(r)
  {
    o.(isDelivered := true, deliveredAt := Some(now), deliveryStatus := Some("delivered"),
       statusHistory := o.statusHistory + [StatusEntry(Some("delivered"), now)])
  }

  /** What a staff handler keeps of the order it changes. */
  predicate KeepsOrder(a: Order, b: Order) {
    SamePurchase(a, b) && a.statusHistory <= b.statusHistory && b.invoiceRef == a.invoiceRef
  }

  /** Replacing one order by one that keeps it lets the collection evolve,
      and keeps it reachable when the new order is consistent. */
  lemma ReplaceKeeps(orders: map<OrderId, Order>, id: OrderId, o: Order)
    requires id in orders
    ensures KeepsOrder(orders[id], o) ==> Evolves(orders, orders[id := o])
    ensures KeepsOrder(orders[id], o) && ReachableStore(orders) && CanSave(orders, id, o) && OrderConsistent(o) ==>
      ReachableStore(orders[id := o])
  {
    if KeepsOrder(orders[id], o) && ReachableStore(orders) && CanSave(orders, id, o) && OrderConsistent(o) {
      SavePreservesInvariant(orders, id, o);
    }
  }

  /** Load by id, apply `f`, save: the common shape of the staff handlers
      that take only the id from the route. */
  function SaveChanged(orders: map<OrderId, Order>, orderId: Option<OrderId>, o: Order): (r: Outcome)
    requires orderId.Some? && orderId.value in orders
    ensures r.code == 200 || r.code == 500
    ensures r.code == 200 ==> r.orders == orders[orderId.value := o]
    ensures r.code == 500 ==> r.orders == orders
    ensures StoreInvariant(orders) ==> StoreInvariant(r.orders)
    ensures StoreInvariant(orders) && ValidOrder(o) && o.invoiceRef == orders[orderId.value].invoiceRef ==> r.code == 200
    ensures KeepsOrder(orders[orderId.value], o) ==> Evolves(orders, r.orders)
    ensures ReachableStore(orders) && KeepsOrder(orders[orderId.value], o) && OrderConsistent(o) ==> ReachableStore(r.orders)
  {
    var id := orderId.value;
    if CanSave(orders, id, o) then
      SavePreservesInvariant(orders, id, o);
      ReplaceKeeps(orders, id, o);
      Outcome(200, orders[id := o])
    else Outcome(500, orders)
  }

  function UpdateOrderStatusOutcome(orders: map<OrderId, Order>, orderId: Option<OrderId>, status: Option<string>, now: Time): (r: Outcome)
    ensures r.code == 200 || r.code == 404 || r.code == 500
    ensures r.code != 200 ==> r.orders == orders
    ensures r.code == 404 <==> orderId.None? || orderId.value !in orders
    ensures r.code == 200 ==> r.orders == orders[orderId.value := SetDeliveryStatus(orders[orderId.value], status, now)]
    ensures StoreInvariant(orders) ==> r.code != 500
    ensures Evolves(orders, r.orders)
    ensures ReachableStore(orders) ==> ReachableStore(r.orders)
  {
    if orderId.None? || orderId.value !in orders then Outcome(404, orders)
    else
      var o := orders[orderId.value];
      assert StoreInvariant(orders) ==> ValidOrder(o);
      SaveChanged(orders, orderId, SetDeliveryStatus(o, status, now))
  }

  method UpdateOrderStatus(db: OrderCollection, orderId: Option<OrderId>, status: Option<string>, now: Time) returns (code: int)
    requires db.Valid()
    modifies db
    ensures db.Valid()
    ensures Outcome(code, db.orders) == UpdateOrderStatusOutcome(old(db.orders), orderId, status, now)
  {
    if orderId.None? || orderId.value !in db.orders {
      return 404;
    }
    var id := orderId.value;
    var order := db.orders[id];
    order := order.(deliveryStatus := status);
    order := order.(statusHistory := order.statusHistory + [StatusEntry(status, now)]);
    var saved := db.Save(id, order);
    code := if saved then 200 else 500;
  }

  function UpdateOrderToDeliveredOutcome(orders: map<OrderId, Order>, orderId: Option<OrderId>, now: Time): (r: Outcome)
    ensures r.code == 200 || r.code == 404 || r.code == 500
    ensures r.code != 200 ==> r.orders == orders
    ensures r.code == 404 <==> orderId.None? || orderId.value !in orders
    ensures r.code == 200 ==> r.orders == orders[orderId.value := MarkDelivered(orders[orderId.value], now)]
    ensures StoreInvariant(orders) ==> r.code != 500
    ensures Evolves(orders, r.orders)
    ensures ReachableStore(orders) ==> ReachableStore(r.orders)
  {
    if orderId.None? || orderId.value !in orders then Outcome(404, orders)
    else
      var o := orders[orderId.value];
      assert StoreInvariant(orders) ==> ValidOrder(o);
      SaveChanged(orders, orderId, MarkDelivered(o, now))
  }

  method UpdateOrderToDelivered(db: OrderCollection, orderId: Option<OrderId>, now: Time) returns (code: int)
    requires db.Valid()
    modifies db
    ensures db.Valid()
    ensures Outcome(code, db.orders) == UpdateOrderToDeliveredOutcome(old(db.orders), orderId, now)
  {
    if orderId.None? || orderId.value !in db.orders {
      return 404;
    }
    var id := orderId.value;
    var order := db.orders[id];
    order := order.(isDelivered := true);
    order := order.(deliveredAt := Some(now));
    order := order.(deliveryStatus := Some("delivered"));
    order := order.(statusHistory := order.statusHistory + [StatusEntry(Some("delivered"), now)]);
    var saved := db.Save(id, order);
    code := if saved then 200 else 500;
  }

  /** Checkout, a payment confirmation and delivery leave three history
      entries in that order, stamped with their own times. */
  lemma CheckoutPaidDeliveredHistory(
    user: UserId, items: seq<OrderItem>, address: ShippingAddress, pm: Option<string>,
    total: Option<real>, m: string, input: PaymentResultInput, t0: Time, t1: Time, t2: Time)
    ensures var o := MarkDelivered(MarkPaid(CheckoutOrder(user, items, address, pm, total, None, CheckoutInvoiceRef, t0), m, input, t1), t2);
      o.statusHistory == [StatusEntry(Some("processing"), t0), StatusEntry(Some("paid"), t1), StatusEntry(Some("delivered"), t2)]
  {
    var o0 := CheckoutOrder(user, items, address, pm, total, None, CheckoutInvoiceRef, t0);
    var o1 := MarkPaid(o0, m, input, t1);
    assert o1.statusHistory == [StatusEntry(Some("processing"), t0), StatusEntry(Some("paid"), t1)];
  }

  // ---------------------------------------------------------------------
  // processRefund
  // ---------------------------------------------------------------------

  /** The fields processRefund assigns. It checks neither approval nor the
      amount against `totalPrice`. */
  function ApplyRefund(o: Order, amount: Option<real>, reason: Option<string>, now: Time): (r: Order)
    ensures r.returnRequest.refunded && r.returnRequest.refundedAt == Some(now)
    ensures r.returnRequest.refundAmount == amount && r.returnRequest.refundReason == reason
    ensures r.returnRequest.requested == o.returnRequest.requested && r.returnRequest.approved == o.returnRequest.approved
    ensures r.returnRequest.reason == o.returnRequest.reason
    ensures SamePurchase(o, r) && SamePayment(o, r) && SameDelivery(o, r)
    ensures r.statusHistory == o.statusHistory && r.invoiceRef == o.invoiceRef
  {
    o.(returnRequest := o.returnRequest.(refunded := true, refundedAt := Some(now),
                                          refundAmount := amount, refundReason := reason))
  }

  function ProcessRefundOutcome(orders: map<OrderId, Order>, orderId: Option<OrderId>, amount: Option<real>, reason: Option<string>, now: Time): (r: Outcome)
    ensures r.code == 200 || r.code == 404 || r.code == 500
    ensures r.code != 200 ==> r.orders == orders
    ensures r.code == 404 <==> orderId.None? || orderId.value !in orders
    ensures r.code == 200 ==> r.orders == orders[orderId.value := ApplyRefund(orders[orderId.value], amount, reason, now)]
    ensures StoreInvariant(orders) ==> r.code != 500
    ensures Evolves(orders, r.orders)
    ensures ReachableStore(orders) ==> ReachableStore(r.orders)
  {
    if orderId.None? || orderId.value !in orders then Outcome(404, orders)
    else
      var o := orders[orderId.value];
      assert StoreInvariant(orders) ==> ValidOrder(o);
      SaveChanged(orders, orderId, ApplyRefund(o, amount, reason, now))
  }

  /** A refund of any size is recorded on an order whose return was never
      approved, or never requested. */
  lemma RefundNeedsNoApprovalNorCap(orders: map<OrderId, Order>, id: OrderId, amount: real, reason: Option<string>, now: Time)
    requires StoreInvariant(orders) && id in orders
    requires !orders[id].returnRequest.approved
    requires amount > orders[id].totalPrice.value
    ensures var r := ProcessRefundOutcome(orders, Some(id), Some(amount), reason, now);
      && r.code == 200
      && r.orders[id].returnRequest.refunded && !r.orders[id].returnRequest.approved
      && r.orders[id].returnRequest.refundAmount.value > r.orders[id].totalPrice.value
  {
    assert ValidOrder(orders[id]);
  }

  method ProcessRefund(db: OrderCollection, orderId: Option<OrderId>, refundAmount: Option<real>, reason: Option<string>, now: Time) returns (code: int)
    requires db.Valid()
    modifies db
    ensures db.Valid()
    ensures Outcome(code, db.orders) == ProcessRefundOutcome(old(db.orders), orderId, refundAmount, reason, now)
  {
    if orderId.None? || orderId.value !in db.orders {
      return 404;
    }
    var id := orderId.value;
    var order := db.orders[id];
    order := order.(returnRequest := order.returnRequest.(refunded := true));
    order := order.(returnRequest := order.returnRequest.(refundedAt := Some(now)));
    order := order.(returnRequest := order.returnRequest.(refundAmount := refundAmount));
    order := order.(returnRequest := order.returnRequest.(refundReason := reason));
    var saved := db.Save(id, order);
    code := if saved then 200 else 500;
  }

  // ---------------------------------------------------------------------
  // handleReturnOrRefund
  // ---------------------------------------------------------------------

  const ReturnActions: set<string> := {"requested", "approved", "rejected"}

  /** `req.user.role || (req.user.isAdmin ? "admin" : "user")`. */
  function ReviewerRole(u: User): (role: string)
    ensures u.role != "" ==> role == u.role
    ensures u.role == "" ==> (role == "admin" <==> u.isAdmin)
  {
    if u.role != "" then u.role else if u.isAdmin then "admin" else "user"
  }

  predicate MayReview(u: User) {
    ReviewerRole(u) == "admin" || ReviewerRole(u) == "salesgirl"
  }

  /** A stored user always has a role, so the `isAdmin` fallback never decides. */
  lemma StoredUserReviewsByRole(u: User)
    requires ValidUser(u)
    ensures MayReview(u) <==> u.role == "admin" || u.role == "salesgirl"
    ensures MayReview(u) == MayReview(u.(isAdmin := !u.isAdmin))
  {
  }

  /** A first return request replaces the whole sub-record: every other flag
      and date of an earlier review or refund is dropped. */
  function RequestReturn(o: Order, reason: Option<string>): (r: Order)
    ensures r.returnRequest.requested && r.returnRequest.reason == Some(StrOr(reason, "Not specified"))
    ensures !r.returnRequest.approved && !r.returnRequest.refunded
    ensures r.returnRequest.approvedAt.None? && r.returnRequest.refundedAt.None?
    ensures r.returnRequest.refundAmount.None? && r.returnRequest.refundReason.None?
    ensures SamePurchase(o, r) && SamePayment(o, r) && SameDelivery(o, r)
    ensures r.statusHistory == o.statusHistory && r.invoiceRef == o.invoiceRef
  {
    o.(returnRequest := ReturnRequest(true, Some(StrOr(reason, "Not specified")), false, None, false, None, None, None))
  }

  function ApproveReturn(o: Order, now: Time): (r: Order)
    ensures r.returnRequest == o.returnRequest.(approved := true, approvedAt := Some(now))
    ensures SamePurchase(o, r) && SamePayment(o, r) && SameDelivery(o, r)
    ensures r.statusHistory == o.statusHistory && r.invoiceRef == o.invoiceRef
  {
    o.(returnRequest := o.returnRequest.(approved := true, approvedAt := Some(now)))
  }

  /** The reason kept on rejection: the new one, else the stored one, else a fixed text. */
  function RejectReason(given: Option<string>, stored: Option<string>): (r: string)
    ensures StrTruthy(given) ==> r == given.value
    ensures !StrTruthy(given) && StrTruthy(stored) ==> r == stored.value
    ensures !StrTruthy(given) && !StrTruthy(stored) ==> r == "Return rejected."
  {
    StrOr(given, StrOr(stored, "Return rejected."))
  }

  function RejectReturn(o: Order, reason: Option<string>, now: Time): (r: Order)
    ensures r.returnRequest == o.returnRequest.(approved := false, approvedAt := Some(now),
                                                reason := Some(RejectReason(reason, o.returnRequest.reason)))
    ensures SamePurchase(o, r) && SamePayment(o, r) && SameDelivery(o, r)
    ensures r.statusHistory == o.statusHistory && r.invoiceRef == o.invoiceRef
  {
    o.(returnRequest := o.returnRequest.(approved := false, approvedAt := Some(now),
                                         reason := Some(RejectReason(reason, o.returnRequest.reason))))
  }

  /** A return request on a stored order: refused once one is recorded. */
  function RequestReturnOutcome(orders: map<OrderId, Order>, id: OrderId, reason: Option<string>): (r: Outcome)
    requires id in orders
    ensures r.code == 200 || r.code == 400 || r.code == 500
    ensures r.code != 200 ==> r.orders == orders
    ensures r.code == 400 <==> orders[id].returnRequest.requested
    ensures r.code == 200 ==> r.orders == orders[id := RequestReturn(orders[id], reason)]
    ensures StoreInvariant(orders) ==> r.code != 500
    ensures Evolves(orders, r.orders)
    ensures ReachableStore(orders) ==> ReachableStore(r.orders)
  {
    var o := orders[id];
    assert StoreInvariant(orders) ==> ValidOrder(o);
    if o.returnRequest.requested then Outcome(400, orders)
    else SaveChanged(orders, Some(id), RequestReturn(o, reason))
  }

  /** An approval (`approve`) or rejection of a stored order's return. */
  function ReviewReturnOutcome(
    orders: map<OrderId, Order>, id: OrderId, approve: bool, reason: Option<string>, user: User, now: Time): (r: Outcome)
    requires id in orders
    ensures r.code == 200 || r.code == 403 || r.code == 500
    ensures r.code != 200 ==> r.orders == orders
    ensures r.code == 403 <==> !MayReview(user)
    ensures r.code == 200 && approve ==> r.orders == orders[id := ApproveReturn(orders[id], now)]
    ensures r.code == 200 && !approve ==> r.orders == orders[id := RejectReturn(orders[id], reason, now)]
    ensures StoreInvariant(orders) ==> r.code != 500
    ensures Evolves(orders, r.orders)
    ensures ReachableStore(orders) ==> ReachableStore(r.orders)
  {
    var o := orders[id];
    assert StoreInvariant(orders) ==> ValidOrder(o);
    if !MayReview(user) then Outcome(403, orders)
    else if approve then SaveChanged(orders, Some(id), ApproveReturn(o, now))
    else SaveChanged(orders, Some(id), RejectReturn(o, reason, now))
  }

  function HandleReturnOutcome(
    orders: map<OrderId, Order>, orderId: Option<OrderId>, action: Option<string>,
    reason: Option<string>, user: User, now: Time): (r: Outcome)
    ensures r.code == 200 || r.code == 400 || r.code == 403 || r.code == 404 || r.code == 500
    ensures r.code != 200 ==> r.orders == orders
    ensures action.None? || action.value !in ReturnActions ==> r.code == 400
    ensures r.code == 404 <==> action.Some? && action.value in ReturnActions && (orderId.None? || orderId.value !in orders)
    ensures r.code == 403 <==> action.Some? && action.value in {"approved", "rejected"} &&
                               orderId.Some? && orderId.value in orders && !MayReview(user)
    ensures r.code == 200 && action == Some("requested") ==>
      r.orders == orders[orderId.value := RequestReturn(orders[orderId.value], reason)]
    ensures r.code == 200 && action == Some("approved") ==>
      r.orders == orders[orderId.value := ApproveReturn(orders[orderId.value], now)]
    ensures r.code == 200 && action == Some("rejected") ==>
      r.orders == orders[orderId.value := RejectReturn(orders[orderId.value], reason, now)]
    ensures StoreInvariant(orders) ==> r.code != 500
    ensures Evolves(orders, r.orders)
    ensures ReachableStore(orders) ==> ReachableStore(r.orders)
  {
    if action.None? || action.value !in ReturnActions then Outcome(400, orders)
    else if orderId.None? || orderId.value !in orders then Outcome(404, orders)
    else if action.value == "requested" then RequestReturnOutcome(orders, orderId.value, reason)
    else ReviewReturnOutcome(orders, orderId.value, action.value == "approved", reason, user, now)
  }

  /** A second request on the same order answers 400 and changes nothing. */
  lemma SecondReturnRequestRejected(orders: map<OrderId, Order>, id: OrderId, r1: Option<string>, r2: Option<string>, user: User, t1: Time, t2: Time)
    requires StoreInvariant(orders) && id in orders
    requires var first := HandleReturnOutcome(orders, Some(id), Some("requested"), r1, user, t1);
      first.code == 200
    ensures var first := HandleReturnOutcome(orders, Some(id), Some("requested"), r1, user, t1);
      var second := HandleReturnOutcome(first.orders, Some(id), Some("requested"), r2, user, t2);
      second.code == 400 && second.orders == first.orders && second.orders[id].returnRequest.requested
  {
    var first := HandleReturnOutcome(orders, Some(id), Some("requested"), r1, user, t1);
    assert first.orders[id] == RequestReturn(orders[id], r1);
  }

  /** Staff can approve an order nobody asked to return. */
  lemma ApprovalNeedsNoRequest(orders: map<OrderId, Order>, id: OrderId, staff: User, now: Time)
    requires StoreInvariant(orders) && id in orders && !orders[id].returnRequest.requested
    requires staff.role == "salesgirl"
    ensures var r := HandleReturnOutcome(orders, Some(id), Some("approved"), None, staff, now);
      r.code == 200 && r.orders[id].returnRequest.approved && !r.orders[id].returnRequest.requested
  {
    assert MayReview(staff);
  }

  /** A customer's approval or rejection is refused, whatever their `isAdmin` flag says. */
  lemma CustomerCannotReview(orders: map<OrderId, Order>, id: OrderId, customer: User, action: string, reason: Option<string>, now: Time)
    requires id in orders && customer.role == "customer"
    requires action == "approved" || action == "rejected"
    ensures HandleReturnOutcome(orders, Some(id), Some(action), reason, customer, now).code == 403
  {
  }

  method HandleReturnOrRefund(
    db: OrderCollection, orderId: Option<OrderId>, action: Option<string>,
    reason: Option<string>, user: User, now: Time) returns (code: int)
    requires db.Valid()
    modifies db
    ensures db.Valid()
    ensures Outcome(code, db.orders) == HandleReturnOutcome(old(db.orders), orderId, action, reason, user, now)
  {
    if action.None? || action.value !in ReturnActions {
      return 400;
    }
    if orderId.None? || orderId.value !in db.orders {
      return 404;
    }
    if action.value == "requested" {
      code := RequestReturnStep(db, orderId.value, reason);
    } else {
      code := ReviewReturnStep(db, orderId.value, action.value == "approved", reason, user, now);
    }
  }

  /** The customer's branch of handleReturnOrRefund. */
  method RequestReturnStep(db: OrderCollection, id: OrderId, reason: Option<string>) returns (code: int)
    requires db.Valid() && id in db.orders
    modifies db
    ensures db.Valid()
    ensures Outcome(code, db.orders) == RequestReturnOutcome(old(db.orders), id, reason)
  {
    var order := db.orders[id];
    if order.returnRequest.requested {
      return 400;
    }
    order := order.(returnRequest := ReturnRequest(true, Some(StrOr(reason, "Not specified")), false, None, false, None, None, None));
    assert order == RequestReturn(db.orders[id], reason);
    var saved := db.Save(id, order);
    code := if saved then 200 else 500;
  }

  /** The reviewer's branch of handleReturnOrRefund: approval when `approve`, else rejection. */
  method ReviewReturnStep(
    db: OrderCollection, id: OrderId, approve: bool, reason: Option<string>, user: User, now: Time) returns (code: int)
    requires db.Valid() && id in db.orders
    modifies db
    ensures db.Valid()
    ensures Outcome(code, db.orders) == ReviewReturnOutcome(old(db.orders), id, approve, reason, user, now)
  {
    var order := db.orders[id];
    var userRole := if user.role != "" then user.role else if user.isAdmin then "admin" else "user";
    assert userRole == ReviewerRole(user);
    if userRole != "admin" && userRole != "salesgirl" {
      return 403;
    }
    var request := order.returnRequest;
    if approve {
      request := request.(approved := true);
      request := request.(approvedAt := Some(now));
    } else {
      request := request.(approved := false);
      request := request.(approvedAt := Some(now));
      request := request.(reason := Some(StrOr(reason, StrOr(request.reason, "Return rejected."))));
    }
    order := order.(returnRequest := request);
    assert order == if approve then ApproveReturn(db.orders[id], now) else RejectReturn(db.orders[id], reason, now);
    var saved := db.Save(id, order);
    code := if saved then 200 else 500;
  }

  // ---------------------------------------------------------------------
  // generateInvoice (line totals only; no document rendering)
  // ---------------------------------------------------------------------

  /** The populated product of an item resolves to a price. */
  predicate Priced(item: OrderItem, prices: map<ProductId, real>) {
    item.product.Some? && item.product.value in prices
  }

  /** The per-line amount printed for each item: unit price times quantity,
      computed in item order; an item whose product does not resolve stops
      the rendering. */
  method LineTotals(items: seq<OrderItem>, prices: map<ProductId, real>) returns (totals: Option<seq<real>>)
    ensures totals.Some? <==> forall i :: 0 <= i < |items| ==> Priced(items[i], prices)
    ensures totals.Some? ==> |totals.value| == |items|
    ensures totals.Some? ==> forall i :: 0 <= i < |items| ==>
      totals.value[i] == prices[items[i].product.value] * items[i].quantity as real
  {
    var lines: seq<real> := [];
    var n := 0;
    while n < |items|
      invariant 0 <= n <= |items| && |lines| == n
      invariant forall i :: 0 <= i < n ==> Priced(items[i], prices)
      invariant forall i :: 0 <= i < n ==> lines[i] == prices[items[i].product.value] * items[i].quantity as real
    {
      var item := items[n];
      if !Priced(item, prices) {
        return None;
      }
      lines := lines + [prices[item.product.value] * item.quantity as real];
      n := n + 1;
    }
    totals := Some(lines);
  }

  datatype Invoice = Invoice(lineTotals: seq<real>, totalPrice: Option<real>, paymentStatus: string, deliveryStatus: Option<string>)

  /** The figures the invoice shows. The grand total is the stored
      `totalPrice`, not a sum of the lines. */
  method GenerateInvoice(
    db: OrderCollection, orderId: Option<OrderId>, customers: set<UserId>, prices: map<ProductId, real>)
    returns (code: int, invoice: Option<Invoice>)
    ensures code == 200 || code == 404 || code == 500
    ensures code == 404 <==> orderId.None? || orderId.value !in db.orders
    ensures code == 200 <==> invoice.Some?
    ensures code == 200 <==>
      && orderId.Some? && orderId.value in db.orders
      && db.orders[orderId.value].user in customers
      && (forall i :: 0 <= i < |db.orders[orderId.value].orderItems| ==>
            Priced(db.orders[orderId.value].orderItems[i], prices))
    ensures code == 200 ==>
      var o := db.orders[orderId.value];
      && o.user in customers
      && |invoice.value.lineTotals| == |o.orderItems|
      && (forall i :: 0 <= i < |o.orderItems| ==>
            Priced(o.orderItems[i], prices) &&
            invoice.value.lineTotals[i] == prices[o.orderItems[i].product.value] * o.orderItems[i].quantity as real)
      && invoice.value.totalPrice == o.totalPrice
      && invoice.value.paymentStatus == (if o.isPaid then "Paid" else "Unpaid")
      && invoice.value.deliveryStatus == o.deliveryStatus
  {
    if orderId.None? || orderId.value !in db.orders {
      return 404, None;
    }
    var order := db.orders[orderId.value];
    if order.user !in customers {
      return 500, None;
    }
    var lines := LineTotals(order.orderItems, prices);
    if lines.None? {
      return 500, None;
    }
    code := 200;
    invoice := Some(Invoice(lines.value, order.totalPrice, if order.isPaid then "Paid" else "Unpaid", order.deliveryStatus));
  }
}
