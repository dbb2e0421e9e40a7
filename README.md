# stcker backend — a verified Dafny model

This project models the decision logic of the stcker sticker-shop backend, an
Express/GraphQL server in TypeScript: its session middleware, its rate limiter,
its resolvers for users, orders, support requests, products, password and
Google sign-in, the cart and PayPal helpers, the input validation rules, the
PayPal pretty-printer, the user model's tokens and links, the cookie
configuration and the CORS predicate. It then proves what these promise.

The modules follow the source files:

- `Config` covers `src/config.ts`: the environment flags and the cookie options.
- `Tokens` covers `src/utils/tokens.ts` and the `jwt.sign` calls. A signed token records its claims and secret.
  Validation succeeds exactly for the right secret before expiry, and never raises.
- `UserModel` covers `src/models/user.ts`: the user record, schema defaults, token payload shapes and e-mail links.
- `Documents` holds the product, order and support-request records, and the validation `Order.create` applies against the order schema.
- `Store` holds the MongoDB collections as maps in a `Db` class. It also keeps the unique index from e-mail address to user id.
  A log records every outside effect (e-mails sent, storage objects deleted).
  The single-document lookup is shared by `customer`, `order`, `request` and `product`.
- `Http` models the Express request and response as an `Exchange` class: `req.cookies`, `req.ip`, `req.user`,
  every cookie the response writes or clears, and the number of `next()` calls.
- `Session` covers `src/middlewares/auth.ts`.
  - `tokenValidator` is a pure decision (`Decide`) and a method that applies it to an `Exchange`.
  - `IsAuthorized` and `IsAdmin` are guards.
  - `RateLimit` runs over a `Redis` class of counters with expiry times.
- `Helpers` covers `src/utils/helpers.ts`.
  - Grouping products into a cart object is an imperative loop proved against a reference function.
  - It also covers the item total, the PayPal order request body, the order document built from a capture, and the two cookie helpers.
- `Validation` covers `src/utils/validation.ts`: the field rules, the schemas, and the fold of errors into a field-to-message map.
- `PayPal` covers `capitalize` and the recursive `prettyPrint` of `src/utils/services/paypal.ts`.
- `Listing` holds the pagination and sort options. The four list queries build them with the same code.
- `UserResolver`, `OrderResolver`, `RequestResolver`, `ProductResolver`, `AuthResolver` and `SocialResolver` cover the resolvers.
  - Each operation is a pure function of the old state and the oracles' answers, returning the reply, the new collections and the effects.
  - A method on `Db` does the same step by step, and its postcondition ties it to that function.
  - Lemmas relate operations to one another: toggling twice, replying then deleting, registering then verifying then logging in, signing up then signing in.
- `App` covers `src/app/middlewares.ts`: the CORS origin predicate, the middleware order and the error handler, with how Express dispatches errors to it.
- `Text` holds ASCII case mapping and decimal rendering and parsing. `Wrappers` holds `Option` and `Result`.

Everything outside the process is a parameter of the operation that uses it:

- the JWT library (through `Tokens`)
- bcrypt comparison and hashing
- `ObjectId.isValid`, and freshly generated ObjectIds
- the e-mail format test of the validator
- the mail service, S3, PayPal and Google, as their answers
- the clock

Prices are whole cents.

Behaviours of the source that the model keeps on purpose, and proves:

- **CORS:** in production, any origin that merely contains `stcker.com` is accepted, such as `https://evilstcker.com` (`App.ProductionMatchesSubstring`).
  Outside production, a request without an origin passes when either configured origin is unset.
- **tokenValidator, refresh-only branch:** the access cookie is written even when the refresh token's user no longer exists. It then holds the text `undefined`.
- **Validation errors:** an empty name reports both "is required" and the pattern message.
  The map keeps the later one (`Validation.EmptyNameReportsPattern`).
  This follows the order in which the fastest-validator string rule checks emptiness, length and pattern.
  That order is the library's and is assumed here.
  Likewise the e-mail rule is assumed to check its 255-character bound before the format, so a long malformed address reports the format message.
- **deleteRequests:** it rejects a list that names a request twice, with "Some requests are not found" (`RequestResolver.RepeatedIdRejected`).
- **createRequest:** the request is stored before the two mails are sent. A failed mail still leaves it stored.
- **register:** a refused verification mail is reported as "A user with this email already exists", although the account was created.
- **resetPassword:** it does not apply the password rule, so a reset to a short password succeeds.
  Login then refuses that password (`AuthResolver.ShortResetPasswordLocksOut`).
- **Product images:** the image default is the text `"false"`, which is truthy. Deleting a product created without an image therefore asks S3 to delete `products/<id>`.
- **createOrder:** the cart is checked for emptiness after populating it, so a cart of deleted products counts as empty.
- **captureOrder:** it does not check for an empty cart.
  A failed mail leaves the order stored and the cart emptied, yet reports an error.
  Fields the order schema refuses, such as a shipping address without a postal code, fail after PayPal has captured the payment: nothing is stored, the cart is kept and no mail goes out.

## Model

| member | source | states |
|---|---|---|
| Config.BaseCookieOptions | src/config.ts:36-41 | The cookies are always httpOnly and carry no maxAge. They are secure exactly in production or staging. sameSite is "none" exactly when secure, and absent otherwise. The domain is ".stcker.com" exactly in production. |
| Config.CookieLifetimes | src/config.ts:42-50 | The access cookie lives 3 600 000 ms and the refresh cookie 86 400 000 ms, 24 times as long. Apart from maxAge the two option sets are equal, and both are httpOnly. |
| Tokens.Sign | src/models/user.ts:84-92 | A signed token carries exactly the given payload, is issued now, expires after expiresIn seconds, and is bound to the signing secret. |
| Tokens.ValidateToken | src/utils/tokens.ts:9-18 | Yields the decoded claims exactly when a token is present, was signed with this secret and has not expired. Otherwise it yields null rather than an error. |
| Tokens.SignValidateRoundTrip | src/utils/tokens.ts:9-18 | A token validates to the payload it was signed with until its expiry, and never validates under a different secret. |
| UserModel.NewUser | src/models/user.ts:63-74 | A user created with only the required fields has role "Customer", is not verified, has the empty password, and has an empty cart and empty favourites. |
| UserModel.GeneratedTokensVerify | src/models/user.ts:81-155 | Three tokens each verify under their own secret until their lifetime ends: the access token (one hour), the refresh token (one day) and the general token (one hour). Their payloads are exactly {email, _id, role}, {_id} and {_id}. |
| UserModel.VerificationLink | src/models/user.ts:110-111 | The verification link is the client origin, then "/verify-email/", then the token. |
| UserModel.PasswordResetFields | src/models/user.ts:130-143 | The reset mail's link is the client origin plus "/password-reset/". The token travels as its own template field. |
| UserModel.ResetLinkIndependentOfToken | src/models/user.ts:133-134 | The reset link does not depend on the token. Two reset mails differ only in their token field. |
| Documents.CreateOrderDocument | src/models/order.ts:44-127 | Creation succeeds exactly when every required text path (capture id, order id, both statuses, each item's id and name, and the shipping name, address, city, postal code, country and e-mail) is non-empty; otherwise it fails with the validation message. The created order has no PayPal fee, a phone number defaulting to the empty text, and every other field as given. |
| Documents.CreateOrderDocumentIdempotent | src/models/order.ts:44-127 | Creating again from a created order's own fields gives the same order. |
| Text.ToLower | src/middlewares/auth.ts:92 | Lower-cases each letter and keeps the length. |
| Text.ToUpper | src/utils/services/paypal.ts:17 | Upper-cases each letter and keeps the length. |
| Text.BeforeFirst | src/resolvers/social.ts:91 | The part of the text before the first separator: a prefix of the text that contains no separator, followed in the text by the separator or by the end. |
| Text.NatToStringRoundTrip | src/utils/helpers.ts:235 | A quantity written in decimal reads back as the same number. |
| Text.NatToStringInjective | src/utils/helpers.ts:235 | Different quantities are written differently. |
| Text.MoneyRoundTrip | src/utils/helpers.ts:233 | A price in cents written as a decimal amount reads back as the same number of cents, negative amounts included. |
| Session.Decide | src/middlewares/auth.ts:18-77 | With neither cookie, nothing is decided or written. With both tokens valid, the access claims are the identity, and the refresh cookie is rewritten exactly when the refresh token expires no later than the access token and its user still exists; it is then the only write, a fresh one-day refresh token of that user under the refresh cookie options. With only the refresh token valid, the identity is its user or none, and the access cookie is always written (with "undefined" when the user is gone). With the refresh token invalid and some cookie present, both cookies are cleared and a valid access token still sets the identity. |
| Session.TokenValidator | src/middlewares/auth.ts:18-77 | Sets req.user and appends the cookie writes that Decide gives for the request's cookies. It calls next exactly once and never fails when the user lookup answers. |
| Session.LoginThenAuthenticated | src/middlewares/auth.ts:40-56 | For the hour after a login response, the browser is identified by the new access token and no cookie is rewritten. |
| Session.TransparentRefresh | src/middlewares/auth.ts:59-68 | A browser with a stale access token and a valid refresh token for a stored user is identified as that user. It receives an access token that identifies it for the next hour. |
| Session.RotatedRefreshValidates | src/middlewares/auth.ts:40-56 | After a rotation the browser's refresh cookie verifies under the refresh secret, for exactly one day from the rotation, to the claims of the same subject. |
| Session.ClearedMeansLoggedOut | src/middlewares/auth.ts:70-76 | After the cookies are cleared for an invalid refresh token, the next request carries neither cookie. It is passed through untouched. |
| Session.RotationAfterLateRefresh | src/middlewares/auth.ts:44-51 | With an access token minted at refresh time, the refresh token is rotated exactly when it expires within that access token's hour. |
| Session.IsAuthorized | src/middlewares/auth.ts:79-86 | Rejects with "Unauthorized" exactly when there is no identity. |
| Session.IsAdmin | src/middlewares/auth.ts:88-95 | Passes exactly when the identity's role, lower-cased, is "admin". It answers "Forbidden" otherwise, and a TypeError for an identity that has no role. |
| Session.AdminIsAuthorized | src/middlewares/auth.ts:79-95 | Whoever passes IsAdmin passes IsAuthorized. The roles "admin", "Admin" and "ADMIN" pass. The default role "Customer" is forbidden. |
| Session.RateLimitKey | src/middlewares/auth.ts:100-103 | The key starts with "rate-limit:". Its length is the prefix, plus the operation, plus one separator, plus the caller. |
| Session.RateLimitKeyInjective | src/middlewares/auth.ts:100-103 | Different operations, or different callers, get different counters. |
| Session.LimitStep | src/middlewares/auth.ts:105-114 | One call raises its key's count by one before checking. It passes exactly when the new count is within the limit, and otherwise fails with the fixed message and no rollback. A one-day expiry is set only on a first, passing call; an existing expiry is kept unchanged. Other keys are untouched. |
| Session.CallsInWindow | src/middlewares/auth.ts:105-116 | After n calls on one key, the count has grown by n, and call i passed exactly when the old count plus i + 1 is within the limit. |
| Session.FirstLimitCallsPass | src/middlewares/auth.ts:105-116 | From a fresh key, exactly the first `limit` calls of a window pass. The expiry is set exactly when some call passed. |
| Session.Evict | src/middlewares/auth.ts:111-114 | At time t, the keys whose expiry has passed are gone. Every other count and expiry is kept. |
| Session.WindowResets | src/middlewares/auth.ts:111-114 | Once a day has gone by since a key's first call, the next call passes and opens a new one-day window. |
| Session.Redis.Incr | src/middlewares/auth.ts:105 | INCR returns the previous count plus one and stores it. |
| Session.Redis.Expire | src/middlewares/auth.ts:113 | EXPIRE sets the expiry of an existing key to now plus the given seconds, and ignores a missing key. |
| Session.RateLimit | src/middlewares/auth.ts:97-117 | The counter store and the verdict are LimitStep's, for the key of the operation and the caller (its id, or its address when anonymous). next is called only when the call passes. |
| Helpers.CartValues | src/utils/helpers.ts:206-222 | The cart has one line per distinct product id, in order of first occurrence. |
| Helpers.CartValuesSnoc | src/utils/helpers.ts:208-219 | One more product raises the quantity of its existing line by one and changes nothing else, or appends a new line of quantity one named and priced after it. |
| Helpers.MapProductsToCartObject | src/utils/helpers.ts:206-222 | The object built key by key has no repeated key, stores each entry under its own id, and its values are exactly CartValues of the products. |
| Helpers.CartTotals | src/utils/helpers.ts:206-222 | The cart's quantities add up to the number of products. When equal ids mean equal products, the cart's value is the sum of the products' prices. |
| Helpers.TruncToUnitsBounds | src/utils/helpers.ts:36 | parseInt of the two-decimal total cuts toward zero, dropping less than one whole unit. |
| Helpers.CalculateItemTotal | src/utils/helpers.ts:30-38 | The loop's result is the sum of quantity × price cut to whole units. For a non-negative sum it is the largest whole amount not above the sum. |
| Helpers.MapCartToOrderItems | src/utils/helpers.ts:224-238 | One PayPal item per cart line, in the same order. |
| Helpers.OrderItemsReadBack | src/utils/helpers.ts:224-238 | Each item's sku is the product id, its name is the product name, and its category is "PHYSICAL_GOODS". Its unit amount reads back as the price and its quantity as the count. |
| Helpers.UsdAmount | src/utils/helpers.ts:131-138 | An amount is in USD and its text reads back as the amount. |
| Helpers.PurchaseAmountFor | src/utils/helpers.ts:127-139 | The amount asked for reads back as item total plus shipping fee. The breakdown reports exactly those two parts, all in USD. |
| Helpers.GenerateOrderRequestBody | src/utils/helpers.ts:100-149 | A CAPTURE intent with one purchase unit. Its reference, custom and invoice ids are all the fresh id. Its items are the mapped cart, and its amount is that of the cart's item total and the shipping fee. |
| Helpers.OrderRequestCoversCart | src/utils/helpers.ts:106-141 | The request has one item per distinct product, and a product id appears as some item's sku exactly when it is in the cart. The item total is the sum of the product prices, cut to whole units. |
| Helpers.GenerateOrderDocumentFields | src/utils/helpers.ts:151-196 | Fails as reading undefined does when the capture has no purchase unit or no capture. Otherwise the order status is "PLACED" exactly when the payment is "COMPLETED" and "PENDING" otherwise. The shipping name, address line 1, city (admin area 2), postal code, country code and payer e-mail are copied from the capture. The state falls back to address line 2 when admin area 1 is falsy. The items are the cart's lines. Ids and statuses come from the capture and the user. |
| Helpers.OrderDocumentCountsEveryProduct | src/utils/helpers.ts:157-168 | The stored order's item quantities add up to the number of products captured. |
| Helpers.ClearingRemovesBothTokens | src/utils/helpers.ts:40-49 | After a clearing response the browser holds neither token cookie, and every other cookie is kept. |
| Helpers.CookieResponseStoresBothTokens | src/utils/helpers.ts:64-71 | After a login response the browser holds a fresh access token and a fresh refresh token for the user. |
| Helpers.ClearCookiesResponse | src/utils/helpers.ts:40-49 | Clears the access and the refresh cookie, in that order, each with its own options and maxAge -1. Nothing else on the exchange changes. |
| Helpers.CookieResponse | src/utils/helpers.ts:64-71 | Writes the user's access and refresh tokens, in that order, each with its own cookie options. Nothing else on the exchange changes. |
| Validation.RuleMessagesEmptyIffAccepted | src/utils/validation.ts:71-109 | A rule reports nothing exactly when it accepts the value. A name must be non-empty, at most 50 characters and match the name pattern. An e-mail must pass the format test and be at most 255 characters. A password needs at least 12 characters and has no upper bound. Subject and message must be non-empty and within 255 and 1024 characters. |
| Validation.ValidateEmptyIffAllAccepted | src/utils/validation.ts:11-13 | Validation reports no error exactly when every field's rule accepts its value. |
| Validation.SchemaComposition | src/utils/validation.ts:23-43 | The register schema is the login schema followed by both names, and is validated as such. The profile schema is the e-mail followed by both names. |
| Validation.FoldErrors | src/utils/validation.ts:15-18 | The map has an entry for exactly the fields that have an error. |
| Validation.FoldKeepsLast | src/utils/validation.ts:15-18 | A field's entry is the message of its last error: later errors overwrite earlier ones. |
| Validation.GetValidationErrors | src/utils/validation.ts:5-21 | Returns null exactly when validation reports no error, and otherwise the folded field-to-message map. |
| Validation.ReportedIffFails | src/utils/validation.ts:11-18 | A field is reported exactly when one of its rules rejects the input. |
| Validation.ErrorFieldsAreFailingFields | src/utils/validation.ts:15-20 | The keys of the error map are exactly the failing fields. |
| Validation.EmptyNameReportsPattern | src/utils/validation.ts:71-84 | An empty name is reported with the pattern message, which overwrites "is required". |
| PayPal.Capitalize | src/utils/services/paypal.ts:16-18 | Keeps the length, upper-cases the first character and lower-cases the rest. It is defined for non-empty text only. |
| PayPal.CapitalizeIdempotent | src/utils/services/paypal.ts:16-18 | Capitalising twice is capitalising once. |
| PayPal.KeyLabel | src/utils/services/paypal.ts:25-26 | A non-numeric key is labelled by its capitalised form. A numeric key is labelled by its value plus one. The empty key is labelled "NaN". |
| PayPal.PrettyPrint | src/utils/services/paypal.ts:20-36 | The loop, with its recursive calls, produces exactly the reference rendering of the value under the prefix. |
| PayPal.AppendProperty | src/utils/services/paypal.ts:24-32 | One loop step appends exactly one property's text: the label and ": ", then either the scalar and a newline, or a newline and the nested rendering indented four more spaces. |
| PayPal.OneLinePerProperty | src/utils/services/paypal.ts:20-36 | When no key, scalar or prefix contains a newline, the rendering has exactly one line per property, nested ones included. |
| PayPal.SmallObjects | src/utils/services/paypal.ts:21-35 | An empty object renders as the empty text. One scalar property renders as prefix, label, ": ", value and newline. |
| App.OriginAllowed | src/app/middlewares.ts:14-35 | In production an origin is accepted exactly when present and containing "stcker.com". Elsewhere it is accepted exactly when equal to the customer or admin origin, where an unset origin matches a missing one. |
| App.ProductionMatchesSubstring | src/app/middlewares.ts:24-27 | In production the site itself is accepted. Any host ending in, or any address starting with, the site name is accepted too. A request without origin is refused. |
| App.MissingOriginOutsideProduction | src/app/middlewares.ts:29-32 | Outside production a request without origin is accepted exactly when one of the two configured origins is unset. |
| App.Application.RegisterBeforeRoute | src/app/middlewares.ts:19-42 | Appends CORS, helmet, the JSON body parser, the cookie parser and tokenValidator, in that order. |
| App.Application.RegisterAfterRoute | src/app/middlewares.ts:44-50 | Appends the error handler after everything registered so far. |
| App.CookiesParsedBeforeSession | src/app/middlewares.ts:38-41 | Once registered, CORS runs before cookie parsing, which runs before tokenValidator. |
| App.HandleError | src/app/middlewares.ts:45-49 | The registered function's own body answers status 500 with "Server error", whatever the error. Express never reaches it with an error (see Findings). |
| App.RegisteredHandlerIsSkipped | src/app/middlewares.ts:44-50 | As written, with three parameters, the function is skipped for errors, which get Express's final handler instead: never "Server error", a 400 parse error stays 400, and an unknown path gets 500 from the function's own TypeError. |
| App.CorrectedHandlerAnswersEveryError | src/app/middlewares.ts:44-50 | Declared with four parameters, the handler answers every error alike with 500 "Server error", and an unknown path gets Express's 404. |
| Listing.QueryOptionsFor | src/resolvers/user.ts:45-63 | limit and skip are set exactly when page and page size are both given and non-zero, as the page size and (page - 1) × page size. The sort is set exactly when field and order are both given and non-empty, ascending exactly for "ASC". No params means no options. |
| Listing.BuildQueryOptions | src/resolvers/order.ts:38-56 | The step-by-step construction yields QueryOptionsFor of the arguments. |
| Listing.PagesTile | src/resolvers/request.ts:21-30 | Page 1 starts at offset 0, and each page starts where the previous one ends. |
| Listing.PaginationIndependentOfSort | src/resolvers/product.ts:22-40 | The pagination options do not depend on the sort arguments, nor the sort on the pagination. |
| Store.FindByEmail | src/resolvers/auth.ts:55-60 | Finds a user exactly when some stored user has that address, and then returns that stored user. |
| Store.SaveKeepsIndex | src/resolvers/social.ts:39-42 | Saving a user with an unchanged address keeps the address index exact. |
| Store.CreateExtendsIndex | src/resolvers/auth.ts:94-102 | Creating a user with a fresh id and an unused address keeps the index exact, now including the new address. |
| Store.ReaddressKeepsIndex | src/resolvers/user.ts:145-164 | Saving a user under its own or an unused address moves the address's index entry and keeps the index exact. |
| Store.FindById | src/resolvers/product.ts:58-65 | The lookup succeeds exactly for a valid ObjectId of a stored document and returns that document. Otherwise it reports "Invalid ObjectID" or the collection's not-found message. |
| Store.Populate | src/resolvers/order.ts:94-97 | The stored products of the listed ids, dropping deleted ones. When all are stored there is exactly one per id, in order. An empty list populates to an empty list. |
| Store.Db.SaveUser | src/resolvers/social.ts:39-42 | Replaces one user with an unchanged address and keeps the store valid. |
| Store.Db.ReaddressUser | src/resolvers/user.ts:155-156 | Replaces one user, moves its address in the index, and keeps the store valid. |
| Store.Db.CreateUser | src/resolvers/auth.ts:94-95 | Adds the user under its fresh id and unused address, and keeps the store valid. |
| Store.Db.Emit | src/resolvers/request.ts:93 | Appends one outside effect to the log. |
| UserResolver.IndexOf | src/resolvers/user.ts:186-187 | The first position of the id, or -1 exactly when it is absent. |
| UserResolver.Pull | src/resolvers/user.ts:181-184 | $pull removes every occurrence and nothing else. The other ids keep their counts. |
| UserResolver.RemoveFirst | src/resolvers/user.ts:185-190 | Splicing at the first occurrence removes exactly one occurrence when there is one, and otherwise nothing. |
| UserResolver.RemoveFirstKeepsOthersInOrder | src/resolvers/user.ts:185-190 | Removing the first occurrence keeps the other ids in their order. |
| UserResolver.AddToCartResult | src/resolvers/user.ts:94-114 | The checks run in order: invalid ObjectId, unknown caller, a cart already holding 50 entries, then a missing product. On success exactly one occurrence is appended. On failure nothing changes. |
| UserResolver.AddToCartKeepsLimit | src/resolvers/user.ts:103-111 | No cart ever grows past 50 entries, and a successful add adds exactly one occurrence. |
| UserResolver.RemoveFromCartResult | src/resolvers/user.ts:168-194 | Checks the ObjectId, the caller and the product's existence. Then it removes every occurrence (all) or only the first. On failure nothing changes. |
| UserResolver.RemoveFromCartCounts | src/resolvers/user.ts:181-190 | The count of the id drops to zero (all) or by exactly one (otherwise). Removing an absent id changes nothing, the other ids keep their order, and the cart limit is kept. |
| UserResolver.ToggleFavouritesResult | src/resolvers/user.ts:198-224 | A present id is pulled, every occurrence removed and the rest kept in order. An absent one is appended at the end unless the list already holds 100, which fails with "favourites is full". Membership of the id flips, the other fields stay, and failures change nothing. |
| UserResolver.ToggleKeepsLimit | src/resolvers/user.ts:210-221 | Toggling never takes the favourites past 100. |
| UserResolver.ToggleTwiceRestores | src/resolvers/user.ts:210-221 | Toggling an absent product twice restores the accounts exactly. |
| UserResolver.ToggleTwiceFromPresent | src/resolvers/user.ts:210-221 | Toggling a present product twice moves it to the end of the favourites. |
| UserResolver.ChangePasswordResult | src/resolvers/user.ts:118-141 | Validation errors come first. Success requires both passwords to be at least 12 characters, a known caller and a matching current password. Success stores the hash of the new password; failure changes nothing. |
| UserResolver.EditProfileResult | src/resolvers/user.ts:145-164 | Validation first, then the caller, then an address held by another user, which is reported as a field error. On success the three fields are replaced and the address index stays exact. |
| UserResolver.EditedProfileFoundByNewAddress | src/resolvers/user.ts:145-164 | After an edit the user is found under the new address, and no longer under a changed old one. |
| UserResolver.Customers | src/resolvers/user.ts:65 | Exactly the users whose role is "Customer". |
| UserResolver.AddToCart | src/resolvers/user.ts:94-114 | The reply and the new users are AddToCartResult's, and the store stays valid. |
| UserResolver.RemoveFromCart | src/resolvers/user.ts:168-194 | The reply and the new users are RemoveFromCartResult's, and the store stays valid. |
| UserResolver.ToggleFavourites | src/resolvers/user.ts:198-224 | The reply and the new users are ToggleFavouritesResult's, and the store stays valid. |
| UserResolver.ChangePassword | src/resolvers/user.ts:118-141 | The reply and the new users are ChangePasswordResult's, and the store stays valid. |
| UserResolver.EditProfile | src/resolvers/user.ts:145-164 | The reply, users and index are EditProfileResult's, and the store stays valid. |
| UserResolver.CustomerQuery | src/resolvers/user.ts:83-90 | Succeeds exactly for a valid id of a stored user and returns it. A valid unknown id gives "User not found". |
| UserResolver.CustomersQuery | src/resolvers/user.ts:42-79 | Matches exactly the customers, with the shared query options. |
| OrderResolver.StatusGuard | src/resolvers/order.ts:166-182 | A stored COMPLETED payment or DELIVERED order status is only accepted unchanged, and the payment check comes first. A confirmation mail is due exactly when the payment becomes COMPLETED. |
| OrderResolver.UpdateOrderResult | src/resolvers/order.ts:158-187 | Invalid and unknown ids fail. A status guard failure or a refused confirmation mail changes nothing. Success overwrites both statuses and reports "Success". The confirmation mail is logged exactly when due and sent. |
| OrderResolver.StatusesAreTerminal | src/resolvers/order.ts:166-178 | Across any sequence of updates, a COMPLETED payment stays COMPLETED and a DELIVERED order stays DELIVERED. |
| OrderResolver.PaymentCheckedFirst | src/resolvers/order.ts:166-171 | A locked payment is reported whatever order status is asked for. |
| OrderResolver.UpdateOrder | src/resolvers/order.ts:158-187 | The reply, orders and logged effects are UpdateOrderResult's. |
| OrderResolver.CreateOrder | src/resolvers/order.ts:92-119 | An unknown caller or an empty populated cart fails before PayPal is called. Otherwise the body sent is the order request of the cart with a zero shipping fee, so the amount is the item total. The reply is PayPal's order id or its error. |
| OrderResolver.CapturedOrder | src/resolvers/order.ts:127-138 | An unknown caller gives "User not found" and a failed capture its error. An order is created exactly when the capture has a capture record and the order schema accepts the fields; a refusal by the schema gives the validation message. The order has one item per distinct product of the cart with quantities adding up to the cart's length, the capture's payment status, and no PayPal fee. |
| OrderResolver.CaptureOrderEffects | src/resolvers/order.ts:123-154 | When no order is created, nothing is stored or sent and the failure is the reply. Otherwise the created order is stored under the new id and the caller's cart is emptied. The confirmation is sent exactly for a COMPLETED payment the mail service accepts. Success, which returns PayPal's id, needs the due mails to be sent and ends with the admin notification. |
| OrderResolver.CaptureOrder | src/resolvers/order.ts:123-154 | The reply, users, orders and effects are CaptureOrderResult's, and the store stays valid. |
| OrderResolver.StoreCapture | src/resolvers/order.ts:136-147 | The order goes in under the new id and the cart is emptied whatever the mails do. The confirmation is sent exactly for a COMPLETED payment the mail service accepts. Success returns PayPal's id, needs every due mail sent, and ends with the admin notification; a failure sends no admin notification. |
| OrderResolver.StoreCapturedOrder | src/resolvers/order.ts:136-147 | Storing, emptying and mailing follow StoreCapture, and the store stays valid. |
| OrderResolver.OrdersQuery | src/resolvers/order.ts:35-71 | Every order, with the shared query options. |
| OrderResolver.UserOrders | src/resolvers/order.ts:75-77 | Exactly the orders whose user is the caller. |
| OrderResolver.OrderQuery | src/resolvers/order.ts:81-88 | Succeeds exactly for a valid id of a stored order and returns it. A valid unknown id gives "Order not found". |
| RequestResolver.RequestsQuery | src/resolvers/request.ts:18-54 | Every request, with the shared query options. |
| RequestResolver.RequestQuery | src/resolvers/request.ts:58-65 | Succeeds exactly for a valid id of a stored request and returns it. A valid unknown id gives "Request not found". |
| RequestResolver.DeleteRequestResult | src/resolvers/request.ts:104-115 | Invalid, unknown and unreplied requests are refused, each with its own message, and nothing changes. A replied request is removed and nothing else is. |
| RequestResolver.DeleteRequest | src/resolvers/request.ts:104-115 | The reply and the new requests are DeleteRequestResult's. |
| RequestResolver.ElementsCount | src/resolvers/request.ts:125-126 | A list names at most as many requests as it has entries, and exactly as many when no id repeats. |
| RequestResolver.FoundAll | src/resolvers/request.ts:125-127 | The lookup finds as many requests as ids were given exactly when every id is stored and none repeats. |
| RequestResolver.DeleteRequestsAllOrNothing | src/resolvers/request.ts:119-135 | The batch succeeds exactly when the list is non-empty, repeats no id, and every id is a valid id of a stored, replied request. It then removes exactly the listed requests and keeps the others unchanged. Otherwise nothing is removed. |
| RequestResolver.RepeatedIdRejected | src/resolvers/request.ts:125-127 | Naming one deletable request twice fails with "Some requests are not found" and deletes nothing. |
| RequestResolver.DeleteRequests | src/resolvers/request.ts:119-135 | The reply and the new requests are DeleteRequestsResult's. |
| RequestResolver.ReplyRequestResult | src/resolvers/request.ts:86-100 | Invalid and unknown ids fail. A refused reply mail reports the mail error and leaves the flag unset. Only after the mail is sent is the request marked replied. |
| RequestResolver.ReplyThenDelete | src/resolvers/request.ts:92-111 | After a reply, an unreplied request can be deleted exactly when the reply mail was sent. |
| RequestResolver.ReplyRequest | src/resolvers/request.ts:86-100 | The reply, requests and logged mail are ReplyRequestResult's. |
| RequestResolver.RequestAccepted | src/utils/validation.ts:45-70 | The request schema passes exactly a valid address within the e-mail limit, a non-empty subject of at most 255 characters and a non-empty message of at most 1024 characters. |
| RequestResolver.CreateRequestResult | src/resolvers/request.ts:69-82 | Invalid input is refused before anything is stored. A stored request always holds the given fields, unreplied, and is stored exactly for valid input, even when a mail is then refused. Success needs both mails sent and logs the admin notification, then the confirmation. |
| RequestResolver.CreateRequest | src/resolvers/request.ts:69-82 | The reply, requests and logged mails are CreateRequestResult's. |
| ProductResolver.ImageKey | src/resolvers/product.ts:83 | The image key is "products/" followed by the id. |
| ProductResolver.ImageKeyInjective | src/resolvers/product.ts:83 | Two products share an image key exactly when they share an id. |
| ProductResolver.ProductsQuery | src/resolvers/product.ts:19-55 | The options are exactly QueryOptionsFor of the nullable params: without params there are none, and pagination and sort are set exactly when the params ask for them. |
| ProductResolver.ProductQuery | src/resolvers/product.ts:58-65 | Succeeds exactly for a valid id of a stored product and returns it. A valid unknown id gives "Product not found". |
| ProductResolver.PresignedUpload | src/resolvers/product.ts:69-86 | A given id must be a valid id of a stored product. The upload is a putObject on the bucket, expiring after 300 seconds, under "products/" plus the given id or else a fresh one. |
| ProductResolver.GetProductPresignedUrl | src/resolvers/product.ts:69-86 | The request signed is PresignedUpload's. |
| ProductResolver.NewProduct | src/resolvers/product.ts:94-99 | The stored product has the given id, name and price. Its image is the given one, or the schema default "false" when none is given. |
| ProductResolver.CreateProductResult | src/resolvers/product.ts:90-101 | Success exactly for a valid, unused id, which stores the new product. An invalid id gives "Invalid ObjectID". Failures change nothing. |
| ProductResolver.CreateProduct | src/resolvers/product.ts:90-101 | The reply and the new products are CreateProductResult's. |
| ProductResolver.BuildUpdate | src/resolvers/product.ts:111-117 | The update always sets name and price. It sets the image exactly when a truthy image is given. |
| ProductResolver.Applied | src/resolvers/product.ts:119-123 | The update replaces name and price, replaces the image only when one is set, and stamps updatedAt. |
| ProductResolver.UpdateProductResult | src/resolvers/product.ts:105-127 | An invalid id is refused. "Product not found" is reported exactly when no stored document was modified. |
| ProductResolver.UpdateOfStoredProduct | src/resolvers/product.ts:105-127 | Updating a stored product succeeds. It sets name and price, sets the image only when a truthy one is given, and leaves every other product unchanged. |
| ProductResolver.UpdateProduct | src/resolvers/product.ts:105-127 | The reply and the new products are UpdateProductResult's. |
| ProductResolver.DeleteProductResult | src/resolvers/product.ts:131-153 | Invalid and unknown ids fail and change nothing. A product with an image first has its S3 object "products/<id>" deleted, and an S3 error fails without deleting the product. On success exactly that product is removed. |
| ProductResolver.DeleteRemovesUploadedImage | src/resolvers/product.ts:76-85 | The object deleted is exactly the one the upload URL was signed for. A product created without an image still has the truthy image "false". |
| ProductResolver.DeleteProduct | src/resolvers/product.ts:131-153 | The reply, products and logged storage deletion are DeleteProductResult's. |
| AuthResolver.LoginValidation | src/utils/validation.ts:34-37 | The login schema passes exactly for a well-formed address of at most 255 characters and a password of at least 12. |
| AuthResolver.RegisterValidation | src/utils/validation.ts:39-43 | The register schema passes exactly when the login credentials pass and both names are accepted. |
| AuthResolver.LoginResult | src/resolvers/auth.ts:51-78 | Validation errors come first. An unknown address and a wrong password both give "Invalid Email or Password". An unverified user is refused even with the right password. asAdmin additionally requires the role "admin", in any case. Success returns the stored user. |
| AuthResolver.UnknownEmailLooksLikeWrongPassword | src/resolvers/auth.ts:58-65 | A login with an unknown address cannot be told apart from one with a known address and a wrong password. |
| AuthResolver.Login | src/resolvers/auth.ts:51-78 | The reply is LoginResult's. Only a successful login writes both token cookies. |
| AuthResolver.Logout | src/resolvers/auth.ts:81-84 | Always clears both token cookies and replies "Success". |
| AuthResolver.Registered | src/resolvers/auth.ts:94-99 | A registered user has the schema defaults and the hashed password, and is not verified. |
| AuthResolver.RegisterResult | src/resolvers/auth.ts:88-103 | Validation errors come first. Success requires an unused address and a sent verification mail. For valid input with an unused address the user is created even when the mail is refused. Every other failure is reported as "A user with this email already exists". |
| AuthResolver.Register | src/resolvers/auth.ts:88-103 | The reply, users, index and logged mail are RegisterResult's, and the store stays valid. |
| AuthResolver.ResetPasswordResult | src/resolvers/auth.ts:107-126 | An invalid or expired token gives "Invalid or expired token", and an unknown subject "User not found". Otherwise the subject's password becomes the hash of the new one, and no password rule is applied. |
| AuthResolver.ResetPassword | src/resolvers/auth.ts:107-126 | The reply and the new users are ResetPasswordResult's. A successful reset writes both token cookies. |
| AuthResolver.ShortResetPasswordLocksOut | src/resolvers/auth.ts:107-126 | A reset to a password shorter than 12 characters succeeds. Logging in with that password then fails validation. |
| AuthResolver.ResendVerificationResult | src/resolvers/auth.ts:130-142 | Unknown and already verified users are refused, and no mail goes out. Otherwise success is exactly a sent verification mail. |
| AuthResolver.ResendVerificationMail | src/resolvers/auth.ts:130-142 | The reply and the logged mail are ResendVerificationResult's. |
| AuthResolver.PasswordResetMailResult | src/resolvers/auth.ts:146-156 | An unknown address gives "User not found". Success is exactly a sent reset mail to that user. A refused mail reports its error. |
| AuthResolver.SendPasswordResetMail | src/resolvers/auth.ts:146-156 | The reply and the logged mail are PasswordResetMailResult's. |
| AuthResolver.VerifyEmailResult | src/resolvers/auth.ts:160-180 | Invalid tokens, unknown users and already verified users are refused and change nothing. Otherwise the subject becomes verified and is returned. |
| AuthResolver.VerifyEmailOnce | src/resolvers/auth.ts:170-175 | Reusing a verification token finds the account already verified. |
| AuthResolver.VerifyEmail | src/resolvers/auth.ts:160-180 | The reply and the new users are VerifyEmailResult's. A successful verification writes both token cookies. |
| AuthResolver.RegisterVerifyLogin | src/resolvers/auth.ts:51-180 | Right after registering, login is refused with "Please verify your email address". After verifying with the mailed token, the same credentials log in as the verified user. |
| SocialResolver.PayloadFrom | src/resolvers/social.ts:81-99 | A verification error is reported by the part of its message before the first colon. An absent payload gives "Token is not valid". Otherwise the result is the payload. |
| SocialResolver.GoogleLoginResult | src/resolvers/social.ts:22-47 | Token errors and unknown addresses fail. A non-admin asAdmin request is refused before any flag changes. Success marks the account verified and changes nothing else. |
| SocialResolver.GoogleLoginIdempotent | src/resolvers/social.ts:39-42 | A second Google sign-in with the same token gives the same reply and changes no account. |
| SocialResolver.GoogleLogin | src/resolvers/social.ts:22-47 | The reply and the new users are GoogleLoginResult's. Only success writes both token cookies. |
| SocialResolver.SignedUp | src/resolvers/social.ts:60-65 | A Google account has the schema defaults, is already verified and has no password. |
| SocialResolver.GoogleSignUpResult | src/resolvers/social.ts:50-78 | An unverified Google address gives "Please verify your email address". Success requires an unused, non-empty address of at most 255 characters and non-empty names of at most 50 characters, as the user schema demands, and creates the verified account. Every creation failure reads "A user with this email already exists". |
| SocialResolver.SignUpThenLogin | src/resolvers/social.ts:22-78 | Right after a Google sign-up, a Google sign-in with the same token succeeds with the new account and changes nothing. |
| SocialResolver.GoogleSignUp | src/resolvers/social.ts:50-78 | The reply, users and index are GoogleSignUpResult's. Only success writes both token cookies. |

## Findings

| source | as written | input that shows it | evidently intended | confidence | as-written member | corrected member |
|---|---|---|---|---|---|---|
| src/app/middlewares.ts:45 | The function registered after the routes declares three parameters `(err, _, res)`. Express treats only a four-parameter function as an error handler, so errors skip it and get Express's final handler; a request for an unknown path runs it as ordinary middleware with `res` bound to `next`, and `res.status` throws. | A request with a malformed JSON body (the body parser's 400 error) is answered 400 with Express's error page; `GET /` is answered 500 with Express's page for the TypeError. | A four-parameter handler `(err, req, res, next)` that answers every error with 500 "Server error". | not executed | App.RegisteredHandlerIsSkipped | App.CorrectedHandlerAnswersEveryError |

## Left out

- JWT signing and verification are abstract. A token records its claims and secret, and validation checks secret and expiry. HS256 itself is foreign cryptography.
- bcrypt `compare` and `hash`, `ObjectId.isValid`, fresh ObjectIds and the validator's e-mail format test are parameters of the operations that use them.
- The mail service (SendGrid), HTML template rendering, S3 URL signing and object deletion, the PayPal HTTP client and Google's ID-token verification are not modelled. Each operation that calls one takes its answer as a parameter.
- Creating the S3, Google and PayPal clients, `generateRandomPort` and `parseValueIfJSONString` are outside the modelled logic. They are configuration or I/O.
- The `me` query is not modelled. It only returns the caller's stored document with cart and favourites populated.
- Mongoose population of replies is not modelled. Replies return the stored documents.
- The list queries return the whole collection together with the query options. Applying limit, skip and sort inside MongoDB is not modelled.
- The schemas' `lowercase`, `trim` and `normalize` transformations are not modelled, nor the `maxlength` checks that Mongoose applies on update.
- Mongoose validation of product fields is not modelled.
- Documents.CreateOrderDocument: the failure message stands for Mongoose's "Order validation failed" followed by the list of failing paths, which is not modelled. The cast of the gross amount to a number is not modelled either, since the amount stays as text.
- Store failures are not modelled. MongoDB and Redis are total maps, so a rejected `User.findById`, a rejected `redis.incr` or `expire`, or a failed save cannot happen. In the source such a failure propagates as an error and `next` is not called.
- Session.TokenValidator: it never fails only because the user lookup always answers; a rejected lookup is a store failure, which is not modelled.
- Concurrency is not modelled: two requests racing on a Redis counter or on the unique e-mail index, and the parallel sending in `Promise.all`.
- `RateLimit(n)` is modelled once, in `Session.RateLimit`. Its use as a decorator in front of individual resolvers is not modelled.
- The error handler's `console.error` logging is not modelled, nor the content of the pages Express's final handler renders (only their status). The JSON body parser and helmet appear only as entries of the middleware stack.
- `googleLogin` with a Google payload that carries no e-mail address is not modelled. The payload always carries one.
- Helpers.CalculateItemTotal: prices are exact cents. The floating-point sum and `toFixed(2)` rounding of JavaScript numbers are not modelled, so float rounding error does not appear.
- Helpers.GenerateOrderDocumentFields: the gross amount and PayPal fee stay as PayPal's decimal text, because `parseFloat` into a binary float is not modelled.
- Text.ToLower: only ASCII letters change case. JavaScript's full Unicode case mapping is not modelled.
- Text.ToUpper: only ASCII letters change case. `toLocaleUpperCase` maps all of Unicode, and can lengthen the text ("ß" becomes "SS"); that is not modelled.
- PayPal.Capitalize: the case mapping is ASCII only, so the length is always kept. JavaScript's `capitalize("ßa")` is "SSa", one character longer.
- PayPal.CapitalizeIdempotent: holds under ASCII case mapping only. Under JavaScript's mapping `capitalize("ßa")` is "SSa", and capitalising that gives "Ssa".
- PayPal.KeyLabel: a key counts as numeric only when it is empty or all decimal digits. JavaScript's `isNaN` converts with `Number`, so it also treats keys like "1.5", "-1", " 1", "1e3", "0x10" and " " as numeric; the full number syntax of JavaScript strings is not modelled. PayPal's response keys are property names and array indices, which the model covers.
- PayPal.PrettyPrint: numbers in a PayPal response are integers here. A fractional number and its JavaScript text form are not modelled.
- ProductResolver.UpdateProductResult: MongoDB's `nModified` is modelled as "the stored document differs after the update". The timestamps plugin's `updatedAt` makes that true for any update at a new time. Two updates within the same clock tick are not distinguished.
- ProductResolver.CreateProductResult: a duplicate id is reported with a stand-in for the database driver's duplicate-key message.
- RequestResolver.CreateRequestResult: when both mails are refused, the admin notification's error is reported. `Promise.all` would report whichever refusal arrives first.
- Session.Decide: in the branch where only the access token is valid, or none is, an identity already on the request is kept when no valid access token replaces it. In the running server none is attached before this middleware.
