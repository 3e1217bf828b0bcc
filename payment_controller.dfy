/** The payment handlers (controllers/paymentController.js). The gateways
    (Paystack over HTTP, Stripe's SDK) are not modelled: what a handler sends
    to them is an output and what they answer is an input. Mail is an output
    too: `sendEmail` never throws, so each handler's mails are just a list. */
module PaymentController {
  import opened Basics
  import opened OrderSchema
  import opened OrderController

  /** One call of `sendEmail`: recipient and subject. */
  datatype Mail = Mail(to: string, subject: string)

  const PaystackFailedSubject: string := " Payment Initialization Failed - Aso Asiko"
  const StripeFailedSubject: string := " Payment Failed - Aso Asiko"
  const CryptoReceivedSubject: string := " Crypto Payment Received - Aso Asiko"
  const CryptoFailedSubject: string := " Crypto Payment Failed - Aso Asiko"

  // ---------------------------------------------------------------------
  // initializePaystackPayment
  // ---------------------------------------------------------------------

  /** The body posted to Paystack's initialize endpoint; the amount is in kobo. */
  datatype PaystackRequest = PaystackRequest(email: string, amountKobo: real, orderId: OrderId)

  /** What the gateway answers: its checkout URL and reference, or an error. */
  datatype GatewayReply = Accepted(authorizationUrl: string, reference: string) | Rejected

  datatype PaystackInit = PaystackInit(
    code: int, request: Option<PaystackRequest>, body: Option<GatewayReply>, mails: seq<Mail>)

  predicate PaystackInputsPresent(email: Option<string>, amount: Option<real>, orderId: Option<OrderId>) {
    StrTruthy(email) && NumTruthy(amount) && orderId.Some?
  }

  /** `reply` is what the gateway would answer to the request, if one is sent. */
  function InitializePaystackPayment(
    email: Option<string>, amount: Option<real>, orderId: Option<OrderId>, reply: GatewayReply): (r: PaystackInit)
    ensures r.code == 200 || r.code == 400 || r.code == 500
    ensures r.code == 400 <==> !PaystackInputsPresent(email, amount, orderId)
    ensures r.code == 400 <==> r.request.None?
    ensures r.request.Some? ==>
      r.request.value == PaystackRequest(email.value, amount.value * 100.0, orderId.value)
    ensures r.code == 200 <==> r.request.Some? && reply.Accepted?
    ensures r.code == 200 ==> r.body == Some(reply) && r.mails == []
    ensures r.code == 500 ==> r.body.None? && r.mails == [Mail(email.value, PaystackFailedSubject)]
    ensures r.code == 400 ==> r.body.None? && r.mails == []
  {
    if !PaystackInputsPresent(email, amount, orderId) then PaystackInit(400, None, None, [])
    else
      var request := PaystackRequest(email.value, amount.value * 100.0, orderId.value);
      if reply.Accepted? then PaystackInit(200, Some(request), Some(reply), [])
      else PaystackInit(500, Some(request), None, [Mail(email.value, PaystackFailedSubject)])
  }

  /** Converting to kobo loses nothing: a hundredth of what is sent is what was asked. */
  lemma PaystackAmountRoundTrip(email: string, amount: real, orderId: OrderId, reply: GatewayReply)
    requires email != "" && amount != 0.0
    ensures var r := InitializePaystackPayment(Some(email), Some(amount), Some(orderId), reply);
      r.request.Some? && r.request.value.amountKobo / 100.0 == amount
  {
  }

  /** Only a zero amount is refused: a negative one is sent on to the gateway. */
  lemma NegativeAmountReachesPaystack(email: string, amount: real, orderId: OrderId, reply: GatewayReply)
    requires email != "" && amount < 0.0
    ensures var r := InitializePaystackPayment(Some(email), Some(amount), Some(orderId), reply);
      r.code != 400 && r.request.Some? && r.request.value.amountKobo < 0.0
  {
  }

  // ---------------------------------------------------------------------
  // createStripePaymentIntent
  // ---------------------------------------------------------------------

  /** The payment intent asked of Stripe: an integral amount in the smallest unit. */
  datatype StripeRequest = StripeRequest(amount: int, currency: string, email: string, orderId: OrderId)

  datatype StripeInit = StripeInit(
    code: int, request: Option<StripeRequest>, clientSecret: Option<string>, mails: seq<Mail>)

  predicate StripeInputsPresent(amount: Option<real>, currency: Option<string>, email: Option<string>, orderId: Option<OrderId>) {
    NumTruthy(amount) && StrTruthy(currency) && StrTruthy(email) && orderId.Some?
  }

  /** `Math.floor(amount * 100)`. */
  function MinorUnits(amount: real): (n: int)
    ensures n as real <= amount * 100.0 < n as real + 1.0
  {
    (amount * 100.0).Floor
  }

  /** `secret` is the client secret Stripe would return, or None when it throws. */
  function CreateStripePaymentIntent(
    amount: Option<real>, currency: Option<string>, email: Option<string>, orderId: Option<OrderId>,
    secret: Option<string>): (r: StripeInit)
    ensures r.code == 200 || r.code == 400 || r.code == 500
    ensures r.code == 400 <==> !StripeInputsPresent(amount, currency, email, orderId)
    ensures r.code == 400 <==> r.request.None?
    ensures r.request.Some? ==>
      r.request.value == StripeRequest(MinorUnits(amount.value), currency.value, email.value, orderId.value)
    ensures r.code == 200 <==> r.request.Some? && secret.Some?
    ensures r.code == 200 ==> r.clientSecret == secret && r.mails == []
    ensures r.code == 500 ==> r.clientSecret.None? && r.mails == [Mail(email.value, StripeFailedSubject)]
    ensures r.code == 400 ==> r.clientSecret.None? && r.mails == []
  {
    if !StripeInputsPresent(amount, currency, email, orderId) then StripeInit(400, None, None, [])
    else
      var request := StripeRequest(MinorUnits(amount.value), currency.value, email.value, orderId.value);
      if secret.Some? then StripeInit(200, Some(request), secret, [])
      else StripeInit(500, Some(request), None, [Mail(email.value, StripeFailedSubject)])
  }

  /** Over the reals, an amount given in whole minor units reaches Stripe
      unchanged. */
  lemma StripeWholeCentsExact(cents: int, currency: string, email: string, orderId: OrderId, secret: Option<string>)
    requires cents != 0 && currency != "" && email != ""
    ensures var r := CreateStripePaymentIntent(Some(cents as real / 100.0), Some(currency), Some(email), Some(orderId), secret);
      r.request.Some? && r.request.value.amount == cents
  {
    assert (cents as real / 100.0) * 100.0 == cents as real;
  }

  /** A positive amount below one minor unit passes the check yet asks for zero. */
  lemma StripeSubUnitAmountAsksForZero(currency: string, email: string, orderId: OrderId, secret: Option<string>)
    requires currency != "" && email != ""
    ensures var r := CreateStripePaymentIntent(Some(0.005), Some(currency), Some(email), Some(orderId), secret);
      r.code != 400 && r.request.Some? && r.request.value.amount == 0
  {
  }

  // ---------------------------------------------------------------------
  // cryptoPayment
  // ---------------------------------------------------------------------

  datatype CryptoOutcome = CryptoOutcome(code: int, orders: map<OrderId, Order>, mails: seq<Mail>)

  predicate CryptoInputsPresent(
    txHash: Option<string>, email: Option<string>, amount: Option<real>, currency: Option<string>, orderId: Option<OrderId>) {
    StrTruthy(txHash) && StrTruthy(email) && NumTruthy(amount) && StrTruthy(currency) && orderId.Some?
  }

  /** The fields cryptoPayment assigns: the whole `paymentResult` is replaced,
      so an earlier payment date or exchange rate is dropped. Nothing checks
      `isPaid` and nothing is pushed to the history. */
  function RecordCrypto(o: Order, txHash: string, currency: string, amount: real, now: Time): (r: Order)
    ensures r.isPaid && r.paidAt == Some(now) && r.paymentMethod == Some("crypto")
    ensures r.paymentResult == Some(PaymentResult(Some(txHash), Some("success"), None, Some(currency), None, Some(amount)))
    ensures r.statusHistory == o.statusHistory && r.invoiceRef == o.invoiceRef
    ensures r.notifications == o.notifications && SamePurchase(o, r) && SameDelivery(o, r)
    ensures ValidOrder(o) ==> ValidOrder(r)
    ensures OrderConsistent(o) ==> OrderConsistent(r)
  {
    o.(isPaid := true, paidAt := Some(now), paymentMethod := Some("crypto"),
       paymentResult := Some(PaymentResult(Some(txHash), Some("success"), None, Some(currency), None, Some(amount))))
  }

  function CryptoPaymentOutcome(
    orders: map<OrderId, Order>, txHash: Option<string>, email: Option<string>, amount: Option<real>,
    currency: Option<string>, orderId: Option<OrderId>, now: Time): (r: CryptoOutcome)
    ensures r.code == 200 || r.code == 400 || r.code == 500
    ensures r.code != 200 ==> r.orders == orders
    ensures r.code == 400 <==> !CryptoInputsPresent(txHash, email, amount, currency, orderId)
    ensures r.code == 400 ==> r.mails == []
    ensures r.code == 200 ==> r.mails == [Mail(email.value, CryptoReceivedSubject)]
    ensures r.code == 500 ==> r.mails == [Mail(email.value, CryptoFailedSubject)]
    ensures r.code == 200 && orderId.value in orders ==>
      r.orders == orders[orderId.value := RecordCrypto(orders[orderId.value], txHash.value, currency.value, amount.value, now)]
    ensures r.code == 200 && orderId.value !in orders ==> r.orders == orders
    ensures StoreInvariant(orders) ==> r.code != 500 && StoreInvariant(r.orders)
    ensures Evolves(orders, r.orders)
    ensures ReachableStore(orders) ==> ReachableStore(r.orders)
  {
    if !CryptoInputsPresent(txHash, email, amount, currency, orderId) then CryptoOutcome(400, orders, [])
    else if orderId.value !in orders then CryptoOutcome(200, orders, [Mail(email.value, CryptoReceivedSubject)])
    else
      var id := orderId.value;
      var o := RecordCrypto(orders[id], txHash.value, currency.value, amount.value, now);
      ReplaceKeeps(orders, id, o);
      if CanSave(orders, id, o) then
        SavePreservesInvariant(orders, id, o);
        CryptoOutcome(200, orders[id := o], [Mail(email.value, CryptoReceivedSubject)])
      else CryptoOutcome(500, orders, [Mail(email.value, CryptoFailedSubject)])
  }

  /** An unknown order id is answered as a success: the customer is told the
      payment was received and no order changes. */
  lemma CryptoUnknownOrderReportsSuccess(
    orders: map<OrderId, Order>, txHash: string, email: string, amount: real, currency: string, id: OrderId, now: Time)
    requires txHash != "" && email != "" && amount != 0.0 && currency != "" && id !in orders
    ensures var r := CryptoPaymentOutcome(orders, Some(txHash), Some(email), Some(amount), Some(currency), Some(id), now);
      r.code == 200 && r.orders == orders && r.mails == [Mail(email, CryptoReceivedSubject)]
  {
  }

  /** A second crypto payment for an order already paid overwrites the first. */
  lemma CryptoRepaymentOverwrites(
    orders: map<OrderId, Order>, id: OrderId, tx1: string, tx2: string, email: string, amount: real, currency: string, t1: Time, t2: Time)
    requires StoreInvariant(orders) && id in orders
    requires tx1 != "" && tx2 != "" && email != "" && amount != 0.0 && currency != ""
    ensures var first := CryptoPaymentOutcome(orders, Some(tx1), Some(email), Some(amount), Some(currency), Some(id), t1);
      var second := CryptoPaymentOutcome(first.orders, Some(tx2), Some(email), Some(amount), Some(currency), Some(id), t2);
      && first.orders[id].isPaid
      && second.code == 200
      && second.orders[id].paidAt == Some(t2)
      && second.orders[id].paymentResult.value.transactionId == Some(tx2)
  {
    var first := CryptoPaymentOutcome(orders, Some(tx1), Some(email), Some(amount), Some(currency), Some(id), t1);
    assert StoreInvariant(first.orders);
    assert id in first.orders;
  }

  method CryptoPayment(
    db: OrderCollection, txHash: Option<string>, email: Option<string>, amount: Option<real>,
    currency: Option<string>, orderId: Option<OrderId>, now: Time) returns (code: int, mails: seq<Mail>)
    requires db.Valid()
    modifies db
    ensures db.Valid()
    ensures CryptoOutcome(code, db.orders, mails) ==
      CryptoPaymentOutcome(old(db.orders), txHash, email, amount, currency, orderId, now)
  {
    if !StrTruthy(txHash) || !StrTruthy(email) || !NumTruthy(amount) || !StrTruthy(currency) || orderId.None? {
      return 400, [];
    }
    var id := orderId.value;
    if id in db.orders {
      var order := db.orders[id];
      order := order.(isPaid := true);
      order := order.(paidAt := Some(now));
      order := order.(paymentMethod := Some("crypto"));
      order := order.(paymentResult := Some(PaymentResult(txHash, Some("success"), None, currency, None, amount)));
      var saved := db.Save(id, order);
      if !saved {
        return 500, [Mail(email.value, CryptoFailedSubject)];
      }
    }
    code, mails := 200, [Mail(email.value, CryptoReceivedSubject)];
  }

  // ---------------------------------------------------------------------
  // handlePaymentWebhook
  // ---------------------------------------------------------------------

  datatype Metadata = Metadata(orderId: Option<OrderId>)

  /** `req.body.data` as the handler reads it: the event name is looked up
      inside `data`. */
  datatype EventData = EventData(
    event: Option<string>, metadata: Option<Metadata>, reference: Option<string>,
    currency: Option<string>, amount: Option<real>)

  datatype WebhookBody = WebhookBody(data: Option<EventData>)

  /** The reply: a status code, or no reply at all when the handler throws
      outside its `try`. */
  datatype WebhookReply = Status(code: int) | NoReply

  datatype WebhookOutcome = WebhookOutcome(reply: WebhookReply, orders: map<OrderId, Order>)

  /** The handler as written: `crypto` is never imported in the file, so
      computing the HMAC throws before any comparison, outside the `try`. */
  function HandlePaymentWebhookAsWritten(
    orders: map<OrderId, Order>, body: WebhookBody, signatureMatches: bool, now: Time): (r: WebhookOutcome)
    ensures r.reply == NoReply && r.orders == orders
  {
    WebhookOutcome(NoReply, orders)
  }

  /** The fields the webhook assigns to an unpaid order, for an event that
      carries an amount (the amount arrives in kobo and is stored in naira). */
  function ConfirmPaystack(o: Order, data: EventData, now: Time): (r: Order)
    requires data.amount.Some?
    ensures r.isPaid && r.paidAt == Some(now) && r.paymentMethod == Some("paystack")
    ensures r.paymentResult == Some(PaymentResult(data.reference, Some("success"), Some(now), data.currency, None,
                                                  Some(data.amount.value / 100.0)))
    ensures r.notifications.paymentNotified && r.notifications.deliveryNotified == o.notifications.deliveryNotified
    ensures r.statusHistory == o.statusHistory && r.invoiceRef == o.invoiceRef
    ensures SamePurchase(o, r) && SameDelivery(o, r)
    ensures ValidOrder(o) ==> ValidOrder(r)
    ensures OrderConsistent(o) ==> OrderConsistent(r)
  {
    o.(isPaid := true, paidAt := Some(now), paymentMethod := Some("paystack"),
       paymentResult := Some(PaymentResult(data.reference, Some("success"), Some(now), data.currency, None,
                                           Some(data.amount.value / 100.0))),
       notifications := o.notifications.(paymentNotified := true))
  }

  /** An event that names an unpaid stored order. */
  predicate ConfirmsOrder(orders: map<OrderId, Order>, body: WebhookBody) {
    && body.data.Some? && body.data.value.event == Some("charge.success")
    && body.data.value.metadata.Some? && body.data.value.metadata.value.orderId.Some?
    && body.data.value.metadata.value.orderId.value in orders
    && !orders[body.data.value.metadata.value.orderId.value].isPaid
  }

  /** The handler with `crypto` imported; `signatureMatches` is whether the
      HMAC-SHA512 of the body equals the `x-paystack-signature` header. */
  function HandlePaymentWebhookOutcome(
    orders: map<OrderId, Order>, body: WebhookBody, signatureMatches: bool, now: Time): (r: WebhookOutcome)
    ensures r.reply.Status? && (r.reply.code == 200 || r.reply.code == 401 || r.reply.code == 500)
    ensures r.reply.code == 401 <==> !signatureMatches
    ensures r.reply.code != 200 ==> r.orders == orders
    ensures signatureMatches && body.data.None? ==> r.reply.code == 500
    ensures r.reply.code == 200 && ConfirmsOrder(orders, body) ==>
      var id := body.data.value.metadata.value.orderId.value;
      body.data.value.amount.Some? && r.orders == orders[id := ConfirmPaystack(orders[id], body.data.value, now)]
    ensures r.reply.code == 200 && !ConfirmsOrder(orders, body) ==> r.orders == orders
    ensures signatureMatches && body.data.Some? && body.data.value.event != Some("charge.success") ==>
      r.reply == Status(200)
    ensures (&& signatureMatches && body.data.Some? && body.data.value.event == Some("charge.success")
             && body.data.value.metadata.Some? && !ConfirmsOrder(orders, body)) ==>
      r.reply == Status(200)
    ensures signatureMatches && ConfirmsOrder(orders, body) && body.data.value.amount.None? ==> r.reply.code == 500
    ensures signatureMatches && ConfirmsOrder(orders, body) && body.data.value.amount.Some? && StoreInvariant(orders) ==>
      r.reply.code == 200
    ensures StoreInvariant(orders) ==> StoreInvariant(r.orders)
    ensures Evolves(orders, r.orders)
    ensures ReachableStore(orders) ==> ReachableStore(r.orders)
  {
    if !signatureMatches then WebhookOutcome(Status(401), orders)
    else if body.data.None? then WebhookOutcome(Status(500), orders)
    else
      var data := body.data.value;
      if data.event != Some("charge.success") then WebhookOutcome(Status(200), orders)
      else if data.metadata.None? then WebhookOutcome(Status(500), orders)
      else if data.metadata.value.orderId.None? || data.metadata.value.orderId.value !in orders then
        WebhookOutcome(Status(200), orders)
      else
        var id := data.metadata.value.orderId.value;
        if orders[id].isPaid then WebhookOutcome(Status(200), orders)
        // `undefined / 100` is NaN, which the Number cast of `paymentResult.amount` refuses: the save rejects.
        else if data.amount.None? then WebhookOutcome(Status(500), orders)
        else
          var o := ConfirmPaystack(orders[id], data, now);
          assert StoreInvariant(orders) ==> ValidOrder(orders[id]);
          ReplaceKeeps(orders, id, o);
          if CanSave(orders, id, o) then
            SavePreservesInvariant(orders, id, o);
            WebhookOutcome(Status(200), orders[id := o])
          else WebhookOutcome(Status(500), orders)
  }

  /** A signed `charge.success` for an unpaid order: the code as written
      leaves it unpaid and answers nothing; the corrected handler marks it
      paid and answers 200. */
  lemma WebhookAsWrittenNeverConfirms(orders: map<OrderId, Order>, body: WebhookBody, now: Time)
    requires StoreInvariant(orders) && ConfirmsOrder(orders, body) && body.data.value.amount.Some?
    ensures var id := body.data.value.metadata.value.orderId.value;
      && !HandlePaymentWebhookAsWritten(orders, body, true, now).orders[id].isPaid
      && HandlePaymentWebhookAsWritten(orders, body, true, now).reply == NoReply
      && HandlePaymentWebhookOutcome(orders, body, true, now).orders[id].isPaid
      && HandlePaymentWebhookOutcome(orders, body, true, now).reply == Status(200)
  {
  }

  /** A redelivered event changes nothing the first delivery did not, and
      one acknowledged with 200 is acknowledged again. */
  lemma {:induction false} WebhookRedeliveryIsNoOp(orders: map<OrderId, Order>, body: WebhookBody, t1: Time, t2: Time)
    requires StoreInvariant(orders)
    ensures var first := HandlePaymentWebhookOutcome(orders, body, true, t1);
      && HandlePaymentWebhookOutcome(first.orders, body, true, t2).orders == first.orders
      && (first.reply == Status(200) ==> HandlePaymentWebhookOutcome(first.orders, body, true, t2).reply == Status(200))
  {
    var first := HandlePaymentWebhookOutcome(orders, body, true, t1);
    if ConfirmsOrder(orders, body) && body.data.value.amount.Some? {
      var id := body.data.value.metadata.value.orderId.value;
      assert first.orders[id].isPaid;
      assert !ConfirmsOrder(first.orders, body);
    } else {
      assert first.orders == orders;
    }
  }

  /** What Paystack reports back in kobo is recorded in naira: the amount
      initialised is the amount stored. */
  lemma KoboRoundTripThroughWebhook(
    orders: map<OrderId, Order>, email: string, amount: real, id: OrderId, url: string, reference: string,
    currency: Option<string>, now: Time)
    requires StoreInvariant(orders) && id in orders && !orders[id].isPaid
    requires email != "" && amount != 0.0
    ensures var init := InitializePaystackPayment(Some(email), Some(amount), Some(id), Accepted(url, reference));
      var data := EventData(Some("charge.success"), Some(Metadata(Some(init.request.value.orderId))),
                            Some(reference), currency, Some(init.request.value.amountKobo));
      var r := HandlePaymentWebhookOutcome(orders, WebhookBody(Some(data)), true, now);
      r.orders[id].paymentResult.value.amount == Some(amount)
  {
  }

  method HandlePaymentWebhook(db: OrderCollection, body: WebhookBody, signatureMatches: bool, now: Time) returns (reply: WebhookReply)
    requires db.Valid()
    modifies db
    ensures db.Valid()
    ensures WebhookOutcome(reply, db.orders) == HandlePaymentWebhookOutcome(old(db.orders), body, signatureMatches, now)
  {
    if !signatureMatches {
      return Status(401);
    }
    if body.data.None? {
      return Status(500);
    }
    var event := body.data.value;
    if event.event == Some("charge.success") {
      if event.metadata.None? {
        return Status(500);
      }
      var orderId := event.metadata.value.orderId;
      if orderId.Some? && orderId.value in db.orders && !db.orders[orderId.value].isPaid {
        if event.amount.None? {
          return Status(500);
        }
        var id := orderId.value;
        var order := db.orders[id];
        order := order.(isPaid := true);
        order := order.(paidAt := Some(now));
        order := order.(paymentMethod := Some("paystack"));
        order := order.(paymentResult := Some(PaymentResult(
          event.reference, Some("success"), Some(now), event.currency, None, Some(event.amount.value / 100.0))));
        order := order.(notifications := order.notifications.(paymentNotified := true));
        assert order == ConfirmPaystack(old(db.orders)[id], event, now);
        var saved := db.Save(id, order);
        if !saved {
          return Status(500);
        }
      }
    }
    reply := Status(200);
  }
}
