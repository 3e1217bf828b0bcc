# Aso Asiko order, payment and account back end — a Dafny model

Aso Asiko is an Express/Mongoose shop back end. This project models its core:

- **Two document collections.** `Order`, with a sparse unique index on `invoiceRef`. `User`, with a unique index on `email`.
- **Order handlers.** checkout, payment confirmation, status change, delivery, refund, return request and review, the order listings, and the invoice figures.
- **Payment handlers.** Paystack and Stripe initialisation, crypto payment recording, and the Paystack webhook.
- **Account handlers.** Registration, login with a one-time code sent by SMS, code verification, password reset by an SMS link, and the current-user lookup.
- **The guards and the router.** The bearer-token guard, the role guard, and the order router that puts them in front of the handlers.

**How the collections and handlers are modelled**
- Each collection is a class (`OrderCollection`, `UserCollection`). Its map of documents changes only through `Save` and `Insert`.
- `Save` and `Insert` apply the schema validation and the unique index, and keep the collection invariant.
- Every handler that writes is a method over its collection. Its `ensures` ties the status code and the new collection to a pure `...Outcome` function of the old collection.
- The properties the handlers promise are lemmas about those functions.

**Inputs and outputs that stand in for external services**
- The clock, `Math.random`, `crypto.randomBytes`, bcrypt's hash and compare verdicts, JWT verification, the HMAC comparison, and the gateways' answers are all inputs.
- The mails and SMS messages a handler sends are outputs.

**How `findOne` is modelled**
- `findOne` over several matches returns the earliest inserted document. The model takes this to be the one with the least id (`AuthController.Least`).
- `AuthController.FindFirst` is the loop that computes it.

The files:
- `basics.dfy`: JavaScript truthiness and `||` fallbacks, decimal `toString` with its inverse, and `String.prototype.trim`.
- `order_schema.dfy`, `user_schema.dfy`: the documents, their validation and the collections.
- `order_controller.dfy`, `payment_controller.dfy`, `auth_controller.dfy`: the handlers.
- `auth_middleware.dfy`: `verifyToken` and `authorizeRoles`.
- `order_routes.dfy`: the order router.

## Model

| member | source | states |
|---|---|---|
| Basics.Trim | model/User.js:8 | `trim` leaves no space at either end, and its result is empty exactly when the string is all spaces. |
| Basics.TrimOpt | model/User.js:23-25 | A trimmed optional field is present exactly when the field was; its value has no space at either end and is empty exactly when the field was all spaces. |
| Basics.TrimmedTruthy | model/User.js:5-9 | A trimmed field is truthy exactly when it was sent and holds a character other than a space. |
| Basics.TrimStripsPadding | routes/order.js:13-17 | Text with no space at either end, padded by spaces on both sides, trims back to itself. |
| Basics.TrimIdempotent | model/User.js:8 | Trimming twice gives the same as trimming once. |
| OrderSchema.SavePreservesInvariant | model/Order.js:81-85 | A save that passes validation and finds its `invoiceRef` free of other orders keeps every stored order valid and no present reference shared. |
| OrderSchema.SparseIndexIgnoresMissingRefs | model/Order.js:81-85 | The sparse index does not constrain orders without a reference: any number of them satisfy it together. |
| OrderSchema.NewOrder | model/Order.js:55-103 | A new order has the given fields. It is unpaid, undelivered and "processing", with no payment result. Its return request and notifications are at their defaults, and every history entry is stamped with the creation time. |
| OrderSchema.OrderCollection.Save | model/Order.js:3-113 | A save succeeds exactly when the document validates and its reference is free. On success only that id changes; on failure nothing changes. The invariant is kept either way. |
| OrderSchema.OrderCollection.Insert | model/Order.js:3-113 | An insert draws a fresh id and succeeds under the same conditions as a save. It adds exactly that document or nothing. |
| UserSchema.SaveUserPreservesInvariant | model/User.js:10-17 | A save that validates and whose email no other user holds keeps every user valid and every email unique. |
| UserSchema.ShortestEmailAccepted | model/User.js:16 | The email pattern accepts `a@b.c`. |
| UserSchema.DotBeforeAtRejected | model/User.js:16 | The email pattern rejects an address whose only dot comes before the `@`. |
| UserSchema.NewUser | model/User.js:3-64 | A new user has the given fields, with username and phone number trimmed by their setters. It has no login code and no reset token, is subscribed, and has email and in-app notifications on and SMS off. |
| UserSchema.DefaultUserIsPlainCustomer | model/User.js:31-39 | With neither `isAdmin` nor `role` given, a user is a non-admin "customer", a role in the enumeration. |
| UserSchema.UserCollection.Save | model/User.js:3-69 | A save succeeds exactly when the user validates and no other user holds its email. Only that id changes, and the invariant is kept. |
| UserSchema.UserCollection.Insert | model/User.js:3-69 | An insert draws a fresh id and adds exactly that user, or nothing when validation or the email index refuses it. |
| OrderController.AtMostOneOrder | controllers/orderController.js:86 | In any collection the handlers can produce, every order carries checkout's one fixed reference, so the collection never holds two orders. |
| OrderController.CheckoutOrder | controllers/orderController.js:86-97 | The checkout document belongs to the caller, has the given items and reference, and has one "processing" history entry. |
| OrderController.CheckoutOutcome | controllers/orderController.js:72-109 | No or empty items give 400 with nothing stored. Otherwise the order is stored under the new id (201), or 500 exactly when it cannot be saved. The collection only evolves and the invariant is kept. |
| OrderController.SecondCheckoutFails | controllers/orderController.js:86-107 | Once one checkout is stored, no later checkout answers 201, because its reference collides. |
| OrderController.CheckoutExample | controllers/orderController.js:72-104 | A valid one-item checkout into an empty collection answers 201 and stores an unpaid "processing" order with one history entry. |
| OrderController.PlaceOrder | controllers/orderController.js:80-108 | Given a reference, checkout leaves exactly the code and collection that `CheckoutOutcome` prescribes. |
| OrderController.Checkout | controllers/orderController.js:72-109 | checkout as written stores the constant reference and matches `CheckoutOutcome` with it. |
| OrderController.Last6 | controllers/orderController.js:86 | `slice(-6)` returns the last six characters, or the whole of a shorter string; it is a suffix of its input. |
| OrderController.RandomBucket | controllers/orderController.js:86 | `Math.floor(Math.random() * 10000)` is a whole number below 10000 and the floor of the scaled value. |
| OrderController.IntendedInvoiceRef | controllers/orderController.js:86 | The intended reference starts with "INV-" followed by a digit. |
| OrderController.IntendedRefIsNotLiteral | controllers/orderController.js:86 | The intended reference is never the text either literal produces. |
| OrderController.BucketIsSuffix | controllers/orderController.js:86 | The random bucket's digits are exactly what follows "INV-", the stamp and "-" in the intended reference. |
| OrderController.IntendedRefsDiffer | controllers/orderController.js:86 | Two intended references drawn in the same millisecond differ whenever their random buckets differ. |
| OrderController.DistinctRefsLetCheckoutsCoexist | controllers/orderController.js:86-107 | Two checkouts whose references differ both answer 201 in an empty collection. Both orders are stored and the invariant holds. |
| OrderController.IntendedRefsLetCheckoutsCoexist | controllers/orderController.js:86-107 | With intended references, a second checkout in the same millisecond with another bucket answers 201. Both orders are then stored and the invariant holds. |
| OrderController.CheckoutCorrected | controllers/orderController.js:72-109 | checkout with the intended reference matches `CheckoutOutcome` with that reference. |
| OrderController.ConfirmedPaymentResult | controllers/orderController.js:35-41 | Each payment-result field is the request's value when truthy, else "", "success", "NGN" or 1. The payment date is the current time. |
| OrderController.PaymentResultFallbacks | controllers/orderController.js:35-41 | An empty `paymentResult` object yields exactly the fallback record. |
| OrderController.MarkPaid | controllers/orderController.js:30-57 | The order becomes paid now with the given method and result, and is flagged as payment-notified. A truthy reference is kept and a missing one is filled. One "paid" entry is appended; purchase, delivery and return are unchanged. |
| OrderController.RepeatedMarkPaidAppendsTwice | controllers/orderController.js:54-57 | There is no `isPaid` guard: confirming twice appends two "paid" entries. |
| OrderController.UpdateOrderToPaidOutcome | controllers/orderController.js:11-69 | Missing id, method or result gives 400. An unknown id gives 404. Otherwise the order is marked paid (200) or nothing changes (500). The collection only evolves and reachable collections stay reachable. |
| OrderController.UpdateOrderToPaidSavesIff | controllers/orderController.js:30-59 | On a stored order the confirmation is saved exactly when the method is in the enumeration and the order keeps its own reference or the filled-in one is free. |
| OrderController.UpdateOrderToPaid | controllers/orderController.js:11-69 | The handler leaves exactly the code and collection `UpdateOrderToPaidOutcome` prescribes. |
| OrderController.NewestFirst | controllers/orderController.js:113 | The listed ids are exactly the stored orders of the owner (or all orders), strictly newest first. |
| OrderController.GetMyOrders | controllers/orderController.js:112-119 | getMyOrders answers 200 with every order of the caller, each once, newest first. |
| OrderController.GetAllOrders | controllers/orderController.js:123-130 | getAllOrders answers 200 with every stored order, each once, newest first. |
| OrderController.SetDeliveryStatus | controllers/orderController.js:144-145 | The delivery status becomes the given tag, even a missing one, and one entry with that tag is appended. Nothing else changes. |
| OrderController.MarkDelivered | controllers/orderController.js:191-196 | The order becomes delivered now with status "delivered", and one "delivered" entry is appended. Payment and purchase are unchanged. |
| OrderController.UpdateOrderStatusOutcome | controllers/orderController.js:134-153 | An unknown id gives 404. Otherwise the status is set and 200 answered; on a valid collection never 500. The collection only evolves. |
| OrderController.UpdateOrderStatus | controllers/orderController.js:134-153 | The handler matches `UpdateOrderStatusOutcome`. |
| OrderController.UpdateOrderToDeliveredOutcome | controllers/orderController.js:182-208 | An unknown id gives 404. Otherwise the order is marked delivered (200), never 500 on a valid collection. The collection only evolves. |
| OrderController.UpdateOrderToDelivered | controllers/orderController.js:182-208 | The handler matches `UpdateOrderToDeliveredOutcome`. |
| OrderController.CheckoutPaidDeliveredHistory | controllers/orderController.js:54-57 | Checkout, confirmation and delivery leave exactly three history entries — processing, paid, delivered — with their own times. |
| OrderController.ApplyRefund | controllers/orderController.js:166-169 | The refund flag, time, amount and reason are recorded. The request and approval flags and everything outside the return record are unchanged. |
| OrderController.ProcessRefundOutcome | controllers/orderController.js:156-179 | An unknown id gives 404. Otherwise the refund is recorded (200), never 500 on a valid collection. |
| OrderController.RefundNeedsNoApprovalNorCap | controllers/orderController.js:161-172 | A refund larger than the total is recorded on an order whose return was never approved. |
| OrderController.ProcessRefund | controllers/orderController.js:156-179 | The handler matches `ProcessRefundOutcome`. |
| OrderController.ReviewerRole | controllers/orderController.js:304 | A non-empty role is used as is. Only an empty role falls back to `isAdmin`. |
| OrderController.StoredUserReviewsByRole | controllers/orderController.js:304-308 | For a stored user, review is allowed exactly for admin and salesgirl, whatever `isAdmin` says. |
| OrderController.RequestReturn | controllers/orderController.js:293-296 | The return record is replaced: requested, with the reason or "Not specified"; every earlier approval or refund detail is dropped. |
| OrderController.ApproveReturn | controllers/orderController.js:310-312 | Approval sets the approved flag and time and nothing else. |
| OrderController.RejectReason | controllers/orderController.js:316 | The kept reason is the new one if truthy, else the stored one if truthy, else "Return rejected.". |
| OrderController.RejectReturn | controllers/orderController.js:313-316 | Rejection clears approval, stamps the review time and keeps the chosen reason. |
| OrderController.RequestReturnOutcome | controllers/orderController.js:288-301 | A request on an order already requested gives 400. Otherwise the request is recorded (200). |
| OrderController.ReviewReturnOutcome | controllers/orderController.js:303-321 | A reviewer who is not admin or salesgirl gets 403. Otherwise approval or rejection is recorded (200). |
| OrderController.HandleReturnOutcome | controllers/orderController.js:272-326 | An invalid action gives 400 before the lookup, and an unknown id 404. 403 is answered exactly for an unauthorised review. On 200 the order is changed by the action's function; otherwise nothing changes. |
| OrderController.SecondReturnRequestRejected | controllers/orderController.js:289-291 | A second return request answers 400 and changes nothing. |
| OrderController.ApprovalNeedsNoRequest | controllers/orderController.js:310-312 | Staff can approve the return of an order nobody asked to return. |
| OrderController.CustomerCannotReview | controllers/orderController.js:304-308 | A customer's approval or rejection always answers 403. |
| OrderController.HandleReturnOrRefund | controllers/orderController.js:272-326 | The handler matches `HandleReturnOutcome`. |
| OrderController.RequestReturnStep | controllers/orderController.js:288-301 | The request branch matches `RequestReturnOutcome`. |
| OrderController.ReviewReturnStep | controllers/orderController.js:303-321 | The review branch matches `ReviewReturnOutcome`. |
| OrderController.LineTotals | controllers/orderController.js:248-252 | Each line is its product's price times its quantity, in item order. The result is absent exactly when some product does not resolve. |
| OrderController.GenerateInvoice | controllers/orderController.js:215-265 | An unknown id gives 404. A missing customer or product gives 500. 200 is answered exactly when the order, its customer and every product resolve, with the line totals, the stored total (not the sum of lines), "Paid"/"Unpaid" and the delivery status. |
| PaymentController.InitializePaystackPayment | controllers/paymentController.js:7-45 | A missing or falsy field gives 400 and no request. Otherwise the amount times 100 is sent. 200 with the gateway's URL and reference when it accepts; otherwise 500 and one failure mail. |
| PaymentController.PaystackAmountRoundTrip | controllers/paymentController.js:19 | A hundredth of the kobo amount sent is the amount asked. |
| PaymentController.NegativeAmountReachesPaystack | controllers/paymentController.js:10-19 | A negative amount passes the check and is sent on. |
| PaymentController.MinorUnits | controllers/paymentController.js:57 | The Stripe amount is the floor of the amount times 100. |
| PaymentController.CreateStripePaymentIntent | controllers/paymentController.js:48-74 | A missing field gives 400. Otherwise the floored amount is requested. 200 with the client secret, or 500 and one failure mail. |
| PaymentController.StripeWholeCentsExact | controllers/paymentController.js:57 | Over the reals, an amount in whole cents reaches Stripe exactly. |
| PaymentController.StripeSubUnitAmountAsksForZero | controllers/paymentController.js:51-57 | 0.005 passes the check but asks Stripe for zero. |
| PaymentController.RecordCrypto | controllers/paymentController.js:91-101 | The order becomes paid by crypto now. Its payment result is replaced by the hash, "success", currency and amount. Purchase, delivery, history, notifications and reference are unchanged, and validity and consistency are kept. |
| PaymentController.CryptoPaymentOutcome | controllers/paymentController.js:77-122 | A missing field gives 400 and no mail. A known order is recorded, or on save failure 500 with the failure mail. Success mails the customer. The collection only evolves and reachable collections stay reachable. |
| PaymentController.CryptoUnknownOrderReportsSuccess | controllers/paymentController.js:90-110 | An unknown order id answers 200 and mails "received" while changing nothing. |
| PaymentController.CryptoRepaymentOverwrites | controllers/paymentController.js:91-101 | A second crypto payment for a paid order overwrites the first. |
| PaymentController.CryptoPayment | controllers/paymentController.js:77-122 | The handler matches `CryptoPaymentOutcome`, mails included. |
| PaymentController.HandlePaymentWebhookAsWritten | controllers/paymentController.js:125-129 | As written, the handler never replies and never changes an order. |
| PaymentController.ConfirmPaystack | controllers/paymentController.js:138-149 | The order becomes paid by Paystack now. Its payment result holds the reference, currency and the amount divided by 100, and it is flagged payment-notified. Purchase and delivery are unchanged and consistency is kept. |
| PaymentController.HandlePaymentWebhookOutcome | controllers/paymentController.js:125-162 | A bad signature gives 401. Missing data gives 500. A signed `charge.success` for an unpaid stored order marks it paid (200); without an amount it gives 500 and changes nothing, since the Number cast refuses NaN. Any other signed event, and a signed `charge.success` whose order is unknown or already paid, answers 200 unchanged. The collection only evolves and reachable collections stay reachable. |
| PaymentController.WebhookAsWrittenNeverConfirms | controllers/paymentController.js:129 | For a signed success event, the written handler leaves the order unpaid with no reply, while the corrected one pays it and answers 200. |
| PaymentController.WebhookRedeliveryIsNoOp | controllers/paymentController.js:137-138 | Delivering the same event again changes nothing more, and a first delivery answered 200 is answered 200 again. |
| PaymentController.KoboRoundTripThroughWebhook | controllers/paymentController.js:145 | The naira amount initialised is the amount the webhook records from the kobo report. |
| PaymentController.HandlePaymentWebhook | controllers/paymentController.js:125-162 | The corrected handler matches `HandlePaymentWebhookOutcome`. |
| AuthMiddleware.Split | middlewares/auth.js:12 | `split(' ')` yields at least one part, and no part holds a space. |
| AuthMiddleware.JoinSplit | middlewares/auth.js:12 | Joining the parts with spaces gives the header back. |
| AuthMiddleware.SplitNoSpace | middlewares/auth.js:12 | A string without spaces splits into itself. |
| AuthMiddleware.SplitAtFirstSpace | middlewares/auth.js:12 | The text before the first space is the first part, and the rest splits on its own. |
| AuthMiddleware.BearerToken | middlewares/auth.js:12 | The token taken from a bearer header holds no space. |
| AuthMiddleware.BearerTokenIsFollowingWord | middlewares/auth.js:7-12 | The token is the word after "Bearer ", with or without text after it. |
| AuthMiddleware.VerifyToken | middlewares/auth.js:5-20 | 401 unless the header starts with "Bearer ", the token verifies and its user exists. Otherwise that user is loaded without its password. |
| AuthMiddleware.DoubleSpaceIsRejected | middlewares/auth.js:12-13 | With two spaces after "Bearer" the token is empty and refused. |
| AuthMiddleware.ValidBearerAdmits | middlewares/auth.js:5-16 | A well-formed header whose token decodes to a stored user admits that user. |
| AuthMiddleware.AuthorizeRoles | middlewares/auth.js:22-30 | The gate passes only a loaded user whose role is listed. |
| AuthMiddleware.AuthorizeIgnoresIsAdmin | middlewares/auth.js:24 | `isAdmin` never changes the verdict. |
| AuthMiddleware.StoredUserPassesIffRoleListed | middlewares/auth.js:24 | For a stored user the gate passes exactly when the role is listed. |
| AuthMiddleware.EmptyRoleNeverPasses | middlewares/auth.js:24 | An empty role or a missing user never passes. |
| AuthController.Least | controllers/authController.js:75 | `findOne` returns nothing exactly for no match, else the earliest-inserted match. |
| AuthController.FindFirst | controllers/authController.js:75 | The scan returns exactly `Least` of the matching ids. |
| AuthController.EmailMatches | controllers/authController.js:18 | The ids matched are exactly the users with that email. |
| AuthController.PhoneMatches | controllers/authController.js:148 | The ids matched are exactly the users whose stored phone number equals the query value after the `trim` setter. |
| AuthController.ResetMatchesOf | controllers/authController.js:170-173 | The ids matched are exactly the users holding the token with an expiry strictly after now. |
| AuthController.RegisterOutcome | controllers/authController.js:10-38 | A missing field gives 400. A registered email gives 409. Otherwise the new user with the hash is stored (201), or 500 when validation refuses it. The invariant is kept. |
| AuthController.RegisterSucceedsIff | controllers/authController.js:23-34 | With all fields present and a new email, registration succeeds exactly when the username holds a character other than a space, the email matches the pattern and the hash has at least six characters. |
| AuthController.SecondRegistrationConflicts | controllers/authController.js:18-21 | Registering the same email again answers 409 and changes nothing. |
| AuthController.RegisterAdmin | controllers/authController.js:10-38 | registerAdmin matches `RegisterOutcome` with `isAdmin` true and role "admin". |
| AuthController.RegisterCustomer | controllers/authController.js:41-68 | registerCustomer matches `RegisterOutcome` with `isAdmin` false and role "customer". |
| AuthController.Register | controllers/authController.js:13-34 | The shared registration steps match `RegisterOutcome`. |
| AuthController.OtpValue | controllers/authController.js:82 | The code is a number from 100000 to 999999. |
| AuthController.OtpHasSixDigits | controllers/authController.js:82 | Every code prints as exactly six digits. |
| AuthController.IssueOtp | controllers/authController.js:83-86 | Login stores the code with an expiry ten minutes on, and changes nothing else. |
| AuthController.LoginOutcome | controllers/authController.js:71-99 | Unknown email gives 404; a wrong password gives 401. Otherwise the first match gets the code, an SMS with the code goes to its phone, and 200 returns its id exactly when the SMS is accepted. |
| AuthController.Login | controllers/authController.js:71-99 | The handler matches `LoginOutcome`. |
| AuthController.ExpiryOrZero | controllers/authController.js:111 | A null expiry compares as 0. |
| AuthController.ClearOtp | controllers/authController.js:116-117 | Verification removes the code and expiry and nothing else. |
| AuthController.VerifyCodeOutcome | controllers/authController.js:102-141 | An unknown user or wrong code gives 401; an expiry before now gives 410. Otherwise the code is cleared and the token names the user's id, email and role (200). |
| AuthController.CodeIsSingleUse | controllers/authController.js:107-118 | A verified code is refused the second time. |
| AuthController.ExpiryIsInclusive | controllers/authController.js:111-113 | A code verifies at its expiry instant and is refused one millisecond later. |
| AuthController.LoginThenVerify | controllers/authController.js:82-122 | The code a login sends verifies within ten minutes, and the token carries the login email. |
| AuthController.VerifyCode | controllers/authController.js:102-141 | The handler matches `VerifyCodeOutcome`. |
| AuthController.IssueResetToken | controllers/authController.js:151-153 | The token and its expiry are stored and nothing else changes. |
| AuthController.ForgotPasswordOutcome | controllers/authController.js:144-163 | An unknown phone gives 404. A non-numeric lifetime gives 500 with nothing stored or sent, since the Date cast refuses the Invalid Date. Otherwise the first match gets the token, the SMS carries the link origin + "/reset-password/" + token, and 200 exactly when the SMS is accepted. |
| AuthController.SendResetLink | controllers/authController.js:151-163 | On a found user the token is stored when the save validates; the SMS goes out only after a successful save, and 200 is answered exactly when both succeed. The invariant is kept. |
| AuthController.SendResetLinkStep | controllers/authController.js:151-163 | The steps after the lookup match `SendResetLink`. |
| AuthController.ForgotPassword | controllers/authController.js:144-163 | The handler matches `ForgotPasswordOutcome`. |
| AuthController.ApplyReset | controllers/authController.js:180-182 | The new hash is stored and the token cleared; nothing else changes. |
| AuthController.ResetPasswordOutcome | controllers/authController.js:166-189 | No user with the unexpired token gives 400. Otherwise the first holder gets the new hash (200), or 500. |
| AuthController.ResetExpiryIsExclusive | controllers/authController.js:172 | A token expiring at the current instant is already refused. |
| AuthController.ResetTokenIsSingleUse | controllers/authController.js:170-183 | A token held by one user resets at most once. |
| AuthController.ForgotThenReset | controllers/authController.js:151-183 | A fresh reset link used in time sets the new hash on the user it was sent to. |
| AuthController.ResetPassword | controllers/authController.js:166-189 | The handler matches `ResetPasswordOutcome`. |
| AuthController.GetCurrentUser | controllers/authController.js:192-199 | Always 200, with the stored user without its password, or null. |
| AuthController.CurrentUserIsGuardUser | controllers/authController.js:194-195 | Behind `verifyToken` the handler answers with exactly the user the guard loaded. |
| OrderRoutes.HandlerOf | routes/order.js:23-35 | No route is mounted on `updateOrderToPaid`: payment confirmation cannot be reached through the order router. |
| OrderRoutes.Admit | routes/order.js:23-35 | A token failure gives 401 before any role check. A role failure gives 403. Token-only routes are exactly `verifyToken`. |
| OrderRoutes.StaffRoutesAdmitStaff | routes/order.js:27-33 | The list, status and deliver routes admit exactly admin and salesgirl. |
| OrderRoutes.RefundRouteAdmitsAdminRole | routes/order.js:29 | The refund route admits only the admin role, and a customer is refused with 403. |
| OrderRoutes.TokenOnlyRoutes | routes/order.js:23-35 | Checkout, my-orders, invoice and return need only a valid token. |
| OrderRoutes.RouteOrderId | routes/order.js:28-35 | As declared, only the invoice and return routes hand their handler an `orderId`, and it is the id in the path. |
| OrderRoutes.SanitizeAddress | routes/order.js:13-17 | The checkout chain trims full name, address, city, country and phone number, and leaves postal code as sent. The sanitized address passes the schema exactly when none of the five fields is missing or all spaces. |
| OrderRoutes.SanitizeStripsPadding | routes/order.js:15 | A city sent with spaces around it is stored without them. |
| OrderRoutes.SanitizeIdempotent | routes/order.js:13-17 | Sanitizing an address twice is sanitizing it once. |
| OrderRoutes.CheckoutRequestOutcome | routes/order.js:8-23 | POST /checkout hands checkout the sanitized address: a stored order holds exactly that address, and none of its required fields was blank. |
| OrderRoutes.BlankCityRefusedAfterTrim | routes/order.js:15 | A city of spaces only is truthy as sent, but once trimmed the checkout answers 500 and stores nothing. |
| OrderRoutes.StaffOrderRoutesAnswer404 | routes/order.js:28 | As declared, the status, refund and deliver routes answer 404 and change nothing, even for a stored order. |
| OrderRoutes.CorrectedRouteOrderId | routes/order.js:28-35 | With the corrected names, exactly the five routes with an id in the path hand that id to their handler. |
| OrderRoutes.CorrectedStaffRoutesApply | routes/order.js:28-33 | With the corrected names, status, refund and deliver apply their change to the stored order and answer 200. The status and refund reason are stored trimmed. |
| OrderRoutes.ReturnRouteIgnoresOwner | routes/order.js:35 | The return route reaches its order, and a request is handled alike whoever sends it. |

## Left out

**Outside the model**
- PDF rendering in generateInvoice: only the figures it prints are modelled. The "Phone" line reads `shippingAddress.phone`, which the schema does not have.
- The user projection that getAllOrders populates (`username email`) is not modelled.
- Listing order: creation order is taken to be id order. Two orders created in the same millisecond are listed newest id first, though Mongo leaves their order open.
- `initiatePayment` is not modelled. It answers 501 with a fixed message and touches nothing.
- The checks of the express-validator chains on the order routes are not modelled: no handler reads their result, so they never refuse a request. Their `trim()` steps are modelled.
- A body field that a `trim()` sanitizer finds missing stays missing in the model; express-validator may write back an empty string instead. The schema's `required` refuses both alike, so no response differs.
- The User `address` path and its `trim` setter are not modelled: no handler in the model writes it.
- forgotPassword without a `phoneNumber` in the body is not modelled: the phone is taken to be a string.
- Concurrency between requests is not modelled. Every handler runs as one atomic step.

**Simplified to model inputs and outputs**
- Hashing, token signing and verification, random numbers, SMS and mail delivery, the HMAC, the gateways, and the clock are inputs and outputs.
- A handler that reads `new Date()` twice is modelled with one `now`.
- Numbers are reals and ids are naturals. NaN is modelled in two places: a webhook event with no `amount`, and a non-numeric `RESET_TOKEN_EXPIRY`. In both, the save is refused and the handler answers 500. NaN is not modelled elsewhere.
- An item's `quantity` is an integer. The schema's Number type with `min: 1` also accepts a fraction such as 1.5, which the model cannot hold.
- Malformed ids are treated as unknown ids. The CastError they raise is not modelled.

**Validation**
- `Save` validates the whole document; Mongoose validates only modified paths. The two agree on every collection that satisfies the invariant, which is the only kind the methods accept.
- The lowercase and trim setters on `email` are not modelled. As a result, the model treats an email that differs from a stored one only in case or surrounding spaces as a different address.

**Weaker contracts**
- PaymentController.StripeWholeCentsExact: holds only over the reals. With JavaScript doubles, `Math.floor(0.29 * 100)` is `Math.floor(28.999999999999996)`, which is 28, so that amount loses a cent; floating-point rounding is not modelled.
- AuthController.LoginOutcome: a request without a password is not modelled. The model takes bcrypt's verdict as a boolean instead of letting `compare` throw.
- AuthController.ResetPasswordOutcome: a missing new password is modelled only as bcrypt throwing (500).

## Findings

| source | as written | input that shows it | evidently intended | confidence | as-written member | corrected member |
|---|---|---|---|---|---|---|
| controllers/paymentController.js:129 | `crypto` is used but never required in the file, so computing the HMAC throws before the `try` and no reply is sent | any webhook POST, e.g. a correctly signed `charge.success` for an unpaid order | verify the signature, mark the order paid, answer 200 | high (not executed) | PaymentController.HandlePaymentWebhookAsWritten | PaymentController.HandlePaymentWebhookOutcome |
| routes/order.js:28 | the status, refund and deliver routes declare `:id`, but their handlers read `req.params.orderId` | `PUT /orders/<stored id>/status` by an admin answers 404 | name the parameter `:orderId`, as the invoice and return routes do | high (not executed) | OrderRoutes.StaffOrderRoutesAnswer404 | OrderRoutes.CorrectedStaffRoutesApply |
| controllers/orderController.js:86 | the template literal escapes its placeholders (`\{` with no `${`), so every order gets the same `invoiceRef`; under the unique index a second checkout answers 500 | two valid checkouts, by any customers | a reference built from the last six digits of `Date.now()` and a random number below 10000 | high (not executed) | OrderController.SecondCheckoutFails | OrderController.CheckoutCorrected with OrderController.IntendedInvoiceRef, proved by OrderController.IntendedRefsLetCheckoutsCoexist |
