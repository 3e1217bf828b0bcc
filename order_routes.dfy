/** The order router (routes/order.js): for each route, the guards in front
    of its handler, the name of its path parameter, and the `trim()`
    sanitizers that rewrite the body before the handler reads it. No handler
    reads the validation result of the express-validator chains, so their
    checks never refuse a request; their `trim()` steps do change what the
    handler stores. */
module OrderRoutes {
  import opened Basics
  import opened UserSchema
  import opened OrderSchema
  import opened OrderController
  import opened AuthMiddleware

  datatype Route =
    | CheckoutRoute | MyOrdersRoute | AllOrdersRoute | StatusRoute
    | RefundRoute | DeliverRoute | InvoiceRoute | ReturnRoute

  /** The order handlers; `UpdateOrderToPaidHandler` is exported by the
      controller but mounted on no route. */
  datatype Handler =
    | CheckoutHandler | GetMyOrdersHandler | GetAllOrdersHandler | UpdateOrderStatusHandler
    | ProcessRefundHandler | UpdateOrderToDeliveredHandler | GenerateInvoiceHandler
    | HandleReturnOrRefundHandler | UpdateOrderToPaidHandler

  const StaffRoles: seq<string> := ["admin", "salesgirl"]
  const AdminRoles: seq<string> := ["admin"]

  function HandlerOf(r: Route): (h: Handler)
    ensures h != UpdateOrderToPaidHandler
  {
    match r
    case CheckoutRoute => CheckoutHandler
    case MyOrdersRoute => GetMyOrdersHandler
    case AllOrdersRoute => GetAllOrdersHandler
    case StatusRoute => UpdateOrderStatusHandler
    case RefundRoute => ProcessRefundHandler
    case DeliverRoute => UpdateOrderToDeliveredHandler
    case InvoiceRoute => GenerateInvoiceHandler
    case ReturnRoute => HandleReturnOrRefundHandler
  }

  /** The role list given to `authorizeRoles`, or None where the route has only `verifyToken`. */
  function RoleGate(r: Route): Option<seq<string>> {
    match r
    case AllOrdersRoute | StatusRoute | DeliverRoute => Some(StaffRoles)
    case RefundRoute => Some(AdminRoles)
    case _ => None
  }

  /** The guards in order: `verifyToken`, then `authorizeRoles` where present. */
  function Admit(r: Route, header: Option<string>, tokens: map<string, UserId>, users: map<UserId, User>): (g: AuthResult)
    ensures g.Rejected? ==> g.code == 401 || g.code == 403
    ensures VerifyToken(header, tokens, users).Rejected? ==> g == Rejected(401)
    ensures RoleGate(r).None? ==> g == VerifyToken(header, tokens, users)
    ensures g.Authenticated? ==> g == VerifyToken(header, tokens, users)
  {
    var v := VerifyToken(header, tokens, users);
    if v.Rejected? then v
    else if RoleGate(r).Some? && !AuthorizeRoles(RoleGate(r).value, Some(v.user)) then Rejected(403)
    else v
  }

  /** The staff routes admit an authenticated stored user exactly when the
      role is admin or salesgirl; `isAdmin` plays no part. */
  lemma StaffRoutesAdmitStaff(r: Route, header: Option<string>, tokens: map<string, UserId>, users: map<UserId, User>)
    requires r == AllOrdersRoute || r == StatusRoute || r == DeliverRoute
    requires UserStoreInvariant(users)
    requires VerifyToken(header, tokens, users).Authenticated?
    ensures var u := users[VerifyToken(header, tokens, users).id];
      Admit(r, header, tokens, users).Authenticated? <==> u.role == "admin" || u.role == "salesgirl"
  {
  }

  /** The refund route admits only the admin role: a customer flagged
      `isAdmin` is refused. */
  lemma RefundRouteAdmitsAdminRole(header: Option<string>, tokens: map<string, UserId>, users: map<UserId, User>)
    requires UserStoreInvariant(users)
    requires VerifyToken(header, tokens, users).Authenticated?
    ensures var u := users[VerifyToken(header, tokens, users).id];
      && (Admit(RefundRoute, header, tokens, users).Authenticated? <==> u.role == "admin")
      && (u.role == "customer" ==> Admit(RefundRoute, header, tokens, users) == Rejected(403))
  {
  }

  /** Checkout, my-orders, invoice and return need only a valid token. */
  lemma TokenOnlyRoutes(r: Route, header: Option<string>, tokens: map<string, UserId>, users: map<UserId, User>)
    requires r == CheckoutRoute || r == MyOrdersRoute || r == InvoiceRoute || r == ReturnRoute
    ensures Admit(r, header, tokens, users) == VerifyToken(header, tokens, users)
  {
  }

  // ---------------------------------------------------------------------
  // Sanitizers
  // ---------------------------------------------------------------------

  /** A field the schema's `required` refuses once trimmed: missing, or
      nothing but spaces. */
  predicate Blank(s: Option<string>) {
    s.None? || AllSpace(s.value)
  }

  /** The `trim()` steps of the checkout chain: the five address fields it
      names are trimmed, `postalCode` is stored as sent. */
  function SanitizeAddress(a: ShippingAddress): (b: ShippingAddress)
    ensures b.postalCode == a.postalCode
    ensures b.fullName.Some? <==> a.fullName.Some?
    ensures b.address.Some? <==> a.address.Some?
    ensures b.city.Some? <==> a.city.Some?
    ensures b.country.Some? <==> a.country.Some?
    ensures b.phoneNumber.Some? <==> a.phoneNumber.Some?
    ensures ValidAddress(b) <==>
      !Blank(a.fullName) && !Blank(a.address) && !Blank(a.city) && !Blank(a.country) && !Blank(a.phoneNumber)
  {
    a.(fullName := TrimOpt(a.fullName), address := TrimOpt(a.address), city := TrimOpt(a.city),
       country := TrimOpt(a.country), phoneNumber := TrimOpt(a.phoneNumber))
  }

  /** Fields sent with spaces around them are stored without them. */
  lemma SanitizeStripsPadding(a: ShippingAddress, pre: string, post: string)
    requires AllSpace(pre) && AllSpace(post)
    requires a.city.Some? && Trimmed(a.city.value)
    ensures SanitizeAddress(a.(city := Some(pre + a.city.value + post))).city == a.city
  {
    TrimStripsPadding(pre, a.city.value, post);
  }

  /** Sanitizing an address a second time changes nothing. */
  lemma SanitizeIdempotent(a: ShippingAddress)
    ensures SanitizeAddress(SanitizeAddress(a)) == SanitizeAddress(a)
  {
    if a.fullName.Some? { TrimIdempotent(a.fullName.value); }
    if a.address.Some? { TrimIdempotent(a.address.value); }
    if a.city.Some? { TrimIdempotent(a.city.value); }
    if a.country.Some? { TrimIdempotent(a.country.value); }
    if a.phoneNumber.Some? { TrimIdempotent(a.phoneNumber.value); }
  }

  /** POST /checkout: the address as the sanitizers leave it, handed to checkout. */
  function CheckoutRequestOutcome(
    orders: map<OrderId, Order>, newId: OrderId, user: UserId, items: Option<seq<OrderItem>>,
    address: ShippingAddress, paymentMethod: Option<string>, totalPrice: Option<real>,
    notes: Option<string>, ref: string, now: Time): (r: Outcome)
    requires newId !in orders
    ensures r.code == 201 ==> newId in r.orders && r.orders[newId].shippingAddress == SanitizeAddress(address)
    ensures r.code == 201 ==>
      && !Blank(address.fullName) && !Blank(address.address) && !Blank(address.city)
      && !Blank(address.country) && !Blank(address.phoneNumber)
  {
    CheckoutOutcome(orders, newId, user, items, SanitizeAddress(address), paymentMethod, totalPrice, notes, ref, now)
  }

  /** A city of spaces only passes the `required` check when sent as is,
      but not once trimmed: the same checkout is then refused with 500. */
  lemma BlankCityRefusedAfterTrim(
    orders: map<OrderId, Order>, newId: OrderId, user: UserId, items: seq<OrderItem>,
    address: ShippingAddress, paymentMethod: Option<string>, totalPrice: Option<real>,
    notes: Option<string>, ref: string, now: Time)
    requires newId !in orders && items != []
    requires address.city.Some? && address.city.value != [] && AllSpace(address.city.value)
    ensures StrTruthy(address.city)
    ensures CheckoutRequestOutcome(orders, newId, user, Some(items), address, paymentMethod, totalPrice, notes, ref, now)
         == Outcome(500, orders)
  {
  }

  // ---------------------------------------------------------------------
  // Route parameters
  // ---------------------------------------------------------------------

  /** The name of the path parameter each route declares. */
  function PathParam(r: Route): Option<string> {
    match r
    case StatusRoute | RefundRoute | DeliverRoute => Some("id")
    case InvoiceRoute | ReturnRoute => Some("orderId")
    case _ => None
  }

  /** `req.params.orderId` for a request whose path segment is `segment`. */
  function RouteOrderId(r: Route, segment: OrderId): (id: Option<OrderId>)
    ensures id.Some? <==> r == InvoiceRoute || r == ReturnRoute
    ensures id.Some? ==> id.value == segment
  {
    if PathParam(r) == Some("orderId") then Some(segment) else None
  }

  /** As declared, the status, refund and deliver routes hand their
      handlers no order id, so each answers 404 and changes nothing, even
      for a stored order. `status` and `reason` reach the handlers trimmed. */
  lemma StaffOrderRoutesAnswer404(
    orders: map<OrderId, Order>, segment: OrderId, status: Option<string>,
    amount: Option<real>, reason: Option<string>, now: Time)
    ensures UpdateOrderStatusOutcome(orders, RouteOrderId(StatusRoute, segment), TrimOpt(status), now) == Outcome(404, orders)
    ensures ProcessRefundOutcome(orders, RouteOrderId(RefundRoute, segment), amount, TrimOpt(reason), now) == Outcome(404, orders)
    ensures UpdateOrderToDeliveredOutcome(orders, RouteOrderId(DeliverRoute, segment), now) == Outcome(404, orders)
  {
  }

  /** The parameter names the handlers read, declared on every route that
      takes an order id. */
  function CorrectedPathParam(r: Route): Option<string> {
    match r
    case StatusRoute | RefundRoute | DeliverRoute | InvoiceRoute | ReturnRoute => Some("orderId")
    case _ => None
  }

  function CorrectedRouteOrderId(r: Route, segment: OrderId): (id: Option<OrderId>)
    ensures id.Some? <==> r in {StatusRoute, RefundRoute, DeliverRoute, InvoiceRoute, ReturnRoute}
    ensures id.Some? ==> id.value == segment
  {
    if CorrectedPathParam(r) == Some("orderId") then Some(segment) else None
  }

  /** With the corrected names, each staff route reaches the stored order
      its path names and applies its change, storing the trimmed status and
      reason. */
  lemma CorrectedStaffRoutesApply(
    orders: map<OrderId, Order>, segment: OrderId, status: Option<string>,
    amount: Option<real>, reason: Option<string>, now: Time)
    requires StoreInvariant(orders) && segment in orders
    ensures var r := UpdateOrderStatusOutcome(orders, CorrectedRouteOrderId(StatusRoute, segment), TrimOpt(status), now);
      r.code == 200 && r.orders[segment].deliveryStatus == TrimOpt(status)
    ensures var r := ProcessRefundOutcome(orders, CorrectedRouteOrderId(RefundRoute, segment), amount, TrimOpt(reason), now);
      r.code == 200 && r.orders[segment].returnRequest.refunded
      && r.orders[segment].returnRequest.refundReason == TrimOpt(reason)
    ensures var r := UpdateOrderToDeliveredOutcome(orders, CorrectedRouteOrderId(DeliverRoute, segment), now);
      r.code == 200 && r.orders[segment].isDelivered
  {
  }

  /** The return route reaches its order, and a request is accepted from
      any authenticated user alike: nothing checks who owns the order. */
  lemma ReturnRouteIgnoresOwner(
    orders: map<OrderId, Order>, segment: OrderId, reason: Option<string>, u1: User, u2: User, now: Time)
    ensures RouteOrderId(ReturnRoute, segment) == Some(segment)
    ensures HandleReturnOutcome(orders, RouteOrderId(ReturnRoute, segment), Some("requested"), reason, u1, now)
         == HandleReturnOutcome(orders, RouteOrderId(ReturnRoute, segment), Some("requested"), reason, u2, now)
  {
  }
}
