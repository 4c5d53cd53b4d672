# Mondial marketplace backend: authentication, accounts, shops and coupons

This project is a Dafny model of the stateful core of the Mondial marketplace backend, an Express
server over MongoDB. It covers:

- the authentication and authorisation middleware (`isAuthenticated`, `isSeller`, `isAdmin`);
- the customer routes: registration, activation, login, logout, profile update and address removal;
- the seller routes: registration, activation, login, logout, profile update and admin removal of a shop;
- the discount-code routes;
- `sendToken`, which opens a customer session.

Each route handler is one atomic step over an abstract store. The User, Shop and coupon collections
are maps from ids to records. A handler that writes its collection is a method on the class holding
that collection (`Users.UserDb`, `Shops.ShopDb`, `Coupons.CouponTable`), proved equal to a
specification function of the old collection. A handler that only reads it (`/create-user`,
`/create-shop`, `/get-coupon/:id`) is a function of that class, and the logout handlers, which
touch no collection, are functions of their module. The properties the routes promise are proved as
lemmas about those functions.

Collaborators the handlers await appear as parameters holding what they answered:

- the image host (Cloudinary upload);
- the mailer;
- `comparePassword`;
- the id the store hands out on insert;
- the clock (`nowMs`, milliseconds);
- the session token lifetime (`ttl`, seconds).

JSON Web Tokens (RFC 7519) are modelled as a datatype recording the claims, the issue and expiry
times in whole seconds (the `exp` claim of section 4.1.4 of RFC 7519) and the key that signed
them: one of the two configured secrets, or any other key (a forged or edited token).
`Jwt.Verify` follows `jsonwebtoken`'s order of checks and its error messages for the cases it represents. The browser's cookie
store follows section 5.3 of RFC 6265: a `Set-Cookie` whose expiry is not in the future
removes the cookie.

Modules, one per file:

- `Entities` (`entities.dfy`): records and result types.
- `Jwt` (`jwt.dfy`): tokens.
- `Http` (`http.dfy`): cookies.
- `Auth` (`auth.dfy`): the gates, and the `Request` class whose fields they assign.
- `Session` (`session.dfy`): `sendToken`.
- `Users` (`users.dfy`), `Shops` (`shops.dfy`) and `Coupons` (`coupons.dfy`): the three controllers.

Where the code and its description differ, the model follows the code:

- The customer `/activation` route never answers 400 "Token invalide". `jwt.verify` throws on every bad
  token, and the surrounding `catch` answers 500 with the verifier's message.
- `/update-user-info` does not check that a new email is free. So emails are not unique in the User
  collection, and login may pick any record with the email. In the Shop and coupon collections,
  emails and names stay unique.
- An activation token is not consumed when it is used. The only guard against a second use is the
  check that its email is free, and `/update-user-info` may move the new account to another email.
  A token presented again within its five minutes after such a change creates a second account.
- `isAdmin` on a request without an attached user reads `.role` of `undefined`, and the resulting
  TypeError gives 500, not 401.

## Model

| member | source | states |
|---|---|---|
| Jwt.Verify | backend/controller/user.js:75 | a token is accepted exactly when it was signed with the secret asked for and its expiry second is still ahead; the claims returned are the signed ones; "not provided" exactly for a missing value, "malformed" exactly for other text without two dots, "invalid token" exactly for other text of three dot-separated parts, "invalid signature" exactly for a token signed with another key |
| Jwt.SignThenVerify | backend/controller/user.js:63-75 | claims signed with a secret verify under it to the same claims while the lifetime lasts, and are refused as expired afterwards |
| Jwt.ForeignSecretRefused | backend/middleware/auth.js:18 | a token signed with another key (the other secret, or a key the server does not hold) is refused with "invalid signature", whatever its age |
| Jwt.ExpiredRefused | backend/middleware/auth.js:18 | a token past its expiry is refused under any secret, and with "jwt expired" under the secret that signed it |
| Jwt.FiveMinuteWindow | backend/controller/user.js:63-67 | a "5m" activation token is refused at every instant 300000 ms or more after signing and accepted for the first 299000 ms |
| Http.Receive | backend/controller/user.js:157-162 | the browser keeps a cookie exactly when its expiry is in the future, with the value sent, and leaves every other cookie as it was |
| Http.ClearCookieRemoves | backend/controller/user.js:157-162 | a cookie set to null with `expires` = now is removed from the browser and nothing else changes |
| Auth.Authenticate | backend/middleware/auth.js:8-33 | 401 "Please login to continue" exactly when there is no `token` cookie; 401 "Invalid or expired token" exactly when verification fails; 404 "User not found" exactly for a verified id with no record; otherwise continue with the record under that id |
| Auth.AuthenticateSeller | backend/middleware/auth.js:36-61 | the same ladder on the `seller_token` cookie against the Shop collection, with "Invalid or expired seller token" and "Seller not found" |
| Auth.IsAdmin | backend/middleware/auth.js:64-72 | takes no store and returns no request: admits exactly when the user's role is one of the roles; otherwise 403 "<role> cannot access this resource!"; an unset user gives 500 |
| Auth.AdminOnly | backend/controller/shop.js:194-195 | the chain `isAuthenticated, isAdmin("Admin")`: a customer-gate rejection passes through unchanged; otherwise it admits exactly the authenticated customer whose role is "Admin", and answers 403 naming any other role |
| Auth.NoCookieNoLookup | backend/middleware/auth.js:9-14 | without a `token` cookie the answer is 401 whatever the User collection holds |
| Auth.TamperedAndExpiredAlike | backend/middleware/auth.js:16-32 | a token with a foreign signature and an expired token get the identical 401 |
| Auth.GatesReadOwnCookie | backend/middleware/auth.js:9-37 | the customer gate ignores `seller_token` and the seller gate ignores `token` |
| Auth.NoCrossKindSession | backend/middleware/auth.js:9-41 | a request carrying only a seller session is unauthenticated at a customer route, and the converse |
| Auth.SharedSessionSecret | backend/middleware/auth.js:18-46 | both gates verify with the same secret: a seller's session token moved into the `token` cookie passes verification at the customer gate and is looked up among customers |
| Auth.AdminRoleExact | backend/middleware/auth.js:64-72 | `isAdmin("Admin")` admits exactly the role "Admin"; the default role "user" gets 403 "user cannot access this resource!" |
| Auth.Request.IsAuthenticated | backend/middleware/auth.js:8-33 | decides as `Authenticate`; on success `req.user` is the record; on 404 it is null; on 401 it is untouched; `req.seller` is never assigned |
| Auth.Request.IsSeller | backend/middleware/auth.js:36-61 | decides as `AuthenticateSeller`; assigns `req.seller` only, never `req.user` |
| Session.SendToken | backend/utils/jwtToken.js:2-28 | status is the one asked for; the cookie is `token`, holding the body's token, expiring now + 90 days, httpOnly, `sameSite: "none"`, secure; `success` is true; the user view is id, name, email and role; the token is signed for the user's id with the session secret |
| Session.ResponseHidesPrivateFields | backend/utils/jwtToken.js:15-27 | two records agreeing on id, name, email and role get the same response: the password and every other field stay out |
| Session.SessionAdmits | backend/utils/jwtToken.js:2-28 | once the browser has the cookie, the customer gate admits the stored record until the token expires |
| Users.CreateActivationToken | backend/controller/user.js:63-67 | the token carries the whole prospective record (a user or, for shop.js:74-78, a seller), is signed with the activation secret, is issued at the current second and expires 300 s later |
| Users.ActivationRefusedToken | backend/controller/user.js:73-98 | a token the verifier refuses gives 500 with the verifier's message and changes nothing; no input gives the 400 "Token invalide" |
| Users.ActivationForgedToken | backend/controller/user.js:75-97 | a token signed with another key gives 500 "invalid signature"; text that is not a token gives 500 "invalid token" when it has three dot-separated parts and "jwt malformed" otherwise; nothing is created |
| Users.ActivationRegisteredEmail | backend/controller/user.js:83-86 | an email already registered gives 400 "L'utilisateur existe déjà" and the collection is unchanged |
| Users.ActivationCreatesOne | backend/controller/user.js:88-95 | otherwise exactly one record is added under the fresh id, built from the token's name, email, password and avatar with role "user"; every other record stays; the answer is `sendToken(user, 201)` |
| Users.ActivationKeepsInvariants | backend/controller/user.js:83-93 | activation keeps records under their own ids and keeps emails unique when they were |
| Users.ActivationOnce | backend/controller/user.js:83-86 | a token that created an account, presented again to the collection its first use left, is refused with 400 and changes nothing |
| Users.ActivationReplayAfterEmailChange | backend/controller/user.js:75-97 | after the new account changes its email through the profile update, the same token within its lifetime creates a second account under the token's email |
| Users.UpdateWrongPassword | backend/controller/user.js:186-189 | a wrong password gives 400 "Mot de passe incorrect" and the collection is unchanged |
| Users.UpdateMergesTruthyFields | backend/controller/user.js:191-200 | name, email and phoneNumber take the body's value exactly when it is truthy; every other field and every other record stays; the answer is the saved record |
| Users.MergeIdempotent | backend/controller/user.js:191-193 | applying the same profile body twice is applying it once |
| Users.UpdateMayDuplicateEmail | backend/controller/user.js:192-195 | a customer who sends another customer's email gets it: the update succeeds and emails are no longer unique |
| Users.Pull | backend/controller/user.js:216 | the pulled list is no longer than the original; every survivor was in it and has another id |
| Users.PullKeepsOthers | backend/controller/user.js:216 | every address with another id survives |
| Users.PullConcat | backend/controller/user.js:216 | the pull works address by address, so survivors keep their order |
| Users.PullIdempotent | backend/controller/user.js:216 | pulling an absent id changes nothing; pulling twice is pulling once |
| Users.WithoutPassword | backend/controller/user.js:218-220 | the record read back without `+password` keeps every field of the stored record except the password |
| Users.DeleteAddressTouchesOneList | backend/controller/user.js:213-220 | only the authenticated customer's address list changes, by the pull; the answer is the updated record without its password |
| Users.DeleteAddressHidesPassword | backend/controller/user.js:218-220 | the answer does not depend on the stored password |
| Users.LogoutUser | backend/controller/user.js:153-171 | 200 "Déconnexion réussie" with a `token` cookie whose expiry is not in the future, httpOnly, `sameSite: "none"`, secure |
| Users.LogoutEndsCustomerSession | backend/controller/user.js:157-166 | after logout the customer gate answers as for a browser that never logged in; the seller session is untouched |
| Users.UserDb.CreateUser | backend/controller/user.js:13-60 | 400 for a missing field; 400 for a registered email; 500 exactly when the upload or the mail throws, with the upload's own message or "Erreur lors de l'envoi de l'email"; otherwise 201 with the message naming the email and a mail "Activez votre compte" to the email carrying a 5-minute activation token of the record with the uploaded avatar; never writes the collection |
| Users.UserDb.Activation | backend/controller/user.js:70-100 | the collection and answer are those of the activation specification; records stay keyed by id |
| Users.UserDb.LoginUser | backend/controller/user.js:103-128 | missing field, then unknown email, then wrong password ("Informations incorrectes"), each 400; otherwise 200 with `sendToken` for a record with that email whose password matches |
| Users.UserDb.UpdateUserInfo | backend/controller/user.js:174-205 | the collection and answer are those of the update specification |
| Users.UserDb.DeleteUserAddress | backend/controller/user.js:208-225 | the collection and answer (the record without its password) are those of the address-removal specification |
| Users.RegistrationRoundTrip | backend/controller/user.js:40-95 | a mailed token presented within five minutes, while the email is free, creates the customer exactly as registered and opens a session the customer gate accepts |
| Users.RegistrationExpires | backend/controller/user.js:63-67 | presented five minutes or more later, the mailed token gives 500 "jwt expired" and nothing is created |
| Shops.ActivationMissingToken | backend/controller/shop.js:88-90 | no token gives 400 "Token d'activation manquant" whatever the collection holds |
| Shops.ActivationForgedToken | backend/controller/shop.js:92 | a token signed with another key gives 500 "invalid signature"; text that is not a token gives 500 "invalid token" when it has three dot-separated parts and "jwt malformed" otherwise; nothing is created |
| Shops.ActivationOutcomes | backend/controller/shop.js:97-103 | a registered email gives 400 and nothing changes; otherwise exactly one shop is added from the token's seller fields, with an empty description, and a seller session for it is returned |
| Shops.ActivationKeepsConsistent | backend/controller/shop.js:97-102 | activation keeps shops keyed by id with unique emails |
| Shops.SellerTokenActivatesCustomer | backend/controller/shop.js:74-78 | both activation routes share the activation secret: a seller's activation token presented at the customer route creates a customer with the seller's name, email, password and avatar |
| Shops.UpdateMergesTruthyFields | backend/controller/shop.js:171-185 | name, description, address, phoneNumber and zipCode take the body's value exactly when truthy; email, password and avatar never change; other shops stay; the answer is the saved shop without its password |
| Shops.WithoutPassword | backend/controller/shop.js:173-185 | the shop read back without `+password` keeps every field of the record except the password |
| Shops.UpdateHidesPassword | backend/controller/shop.js:173-185 | the update's answer is the same whatever password is stored, so it discloses none |
| Shops.UpdateKeepsConsistent | backend/controller/shop.js:178-184 | the update keeps shops keyed and emails unique |
| Shops.DeleteSellerOutcomes | backend/controller/shop.js:192-204 | only a customer whose role is exactly "Admin" removes a shop; an unknown id gives 404 "Boutique introuvable"; otherwise that shop and no other is removed |
| Shops.DeleteKeepsConsistent | backend/controller/shop.js:202 | removal keeps shops keyed and emails unique |
| Shops.LogoutShop | backend/controller/shop.js:136-147 | 200 "Déconnexion réussie !" with a `seller_token` cookie whose expiry is not in the future, httpOnly, `sameSite: "none"`, secure |
| Shops.LogoutEndsSellerSession | backend/controller/shop.js:139-145 | after seller logout the seller gate answers as for a browser that never logged in; the customer session is untouched |
| Shops.ServeAllKeepsConsistent | backend/controller/shop.js:97-102 | no sequence of activations, updates and removals, each against the User collection of its moment, gives two shops the same email |
| Shops.ShopDb.CreateShop | backend/controller/shop.js:21-69 | 400 unless all seven fields are truthy; 400 for a registered email; 500 with the thrower's message when the upload or the mail throws; otherwise 201 with the message naming the email and a mail "Activation de votre boutique" to the email carrying a 5-minute activation token of the full seller record; never writes the collection |
| Shops.ShopDb.Activation | backend/controller/shop.js:83-105 | the collection and answer are those of the shop activation specification; emails stay unique |
| Shops.ShopDb.LoginShop | backend/controller/shop.js:110-131 | missing field, then unknown email, then wrong password, each 400; otherwise 200 with the session of the only shop with that email |
| Shops.ShopDb.UpdateSellerInfo | backend/controller/shop.js:167-187 | the collection and answer are those of the seller update specification: the saved shop, answered without its password |
| Shops.ShopDb.DeleteSellerRoute | backend/controller/shop.js:192-205 | the collection and answer are those of the admin removal specification |
| Shops.SellerSessionAdmits | backend/controller/shop.js:103 | the seller session token, held as `seller_token`, passes the seller gate until it expires |
| Coupons.CreateOutcomes | backend/controller/coupounCode.js:15-28 | a name in use gives 400 "Le code de réduction existe déjà !" and nothing changes; a throwing insert gives 400; otherwise exactly one code is added with the body as sent, `shopId` unchecked |
| Coupons.DeleteOutcomes | backend/controller/coupounCode.js:58-66 | an unknown id gives 400 "Le code de réduction n'existe pas !"; otherwise that code and no other is removed, whichever shop owns it |
| Coupons.GateProtectsTable | backend/controller/coupounCode.js:12-55 | without a valid seller session neither create nor delete changes the table, and both answer with the gate's rejection |
| Coupons.CreateKeepsConsistent | backend/controller/coupounCode.js:15-23 | creation keeps codes keyed by id with unique names |
| Coupons.DeleteKeepsConsistent | backend/controller/coupounCode.js:58 | deletion keeps codes keyed by id with unique names |
| Coupons.ServeAllKeepsNamesUnique | backend/controller/coupounCode.js:15-23 | no sequence of creates and deletes, each against the Shop collection of its moment, gives two codes the same name |
| Coupons.CouponTable.CreateCouponCode | backend/controller/coupounCode.js:10-33 | the table and answer are those of the create specification; names stay unique |
| Coupons.CouponTable.GetCoupons | backend/controller/coupounCode.js:36-50 | behind the seller gate, 201 with exactly the codes whose `shopId` is the logged-in seller's id; the path id plays no part |
| Coupons.CouponTable.DeleteCoupon | backend/controller/coupounCode.js:53-71 | the table and answer are those of the delete specification |
| Coupons.CouponTable.GetCouponValue | backend/controller/coupounCode.js:74-88 | open to anyone, always 200: the only code with that name, or null when none has it |

## Left out

- Jwt.Verify: unsigned tokens (algorithm "none", "jwt signature is required") and tokens whose header names an algorithm the secret cannot check ("invalid algorithm") are not represented, because the model has no algorithm header.
- Signature cryptography: a token records the secret that signed it, and verification compares secrets.
- Cloudinary, the mailer, `comparePassword` and the database driver are foreign calls. Each is a parameter holding its answer.
- `getJwtToken` (in the schema files, which are not part of this model): modelled as a token for the record's id signed with the session secret, with the lifetime `ttl` as a parameter.
- `sendShopToken` (backend/utils/shopToken.js is not part of this model): modelled as the shop and its session token. Its cookie and response body are not modelled.
- `catchAsyncErrors` and the error middleware are not part of this model. An exception escaping a handler without a `catch` is assumed to answer 500 with its message. This covers the seller upload, the shop activation verify, and the shop insert.
- Mongoose schema validation is not part of this model, except in two places. A customer activation token at the shop `/activation` is assumed to fail the Shop schema (no address, phone number or postal code): 500 "Shop validation failed". A coupon insert may throw, which its `catch` answers with 400.
- The User schema is not part of this model. It is assumed to declare no unique index on `email`, so the `save()` after `/update-user-info` succeeds with a duplicated email. A unique index would make it throw, and the route would answer 500.
- Password hashing on save (implied by `comparePassword`) is in the schemas, which are not part of this model. The stored `password` is the text the activation token carried. `Users.RegistrationRoundTrip` therefore says the stored record equals the registered one, password included.
- Malformed ids (Mongoose cast errors) are not modelled: ids are naturals.
- Numeric fields (a `0` value is falsy in JavaScript) are not modelled: only string fields take part in truthiness tests. A missing field and the empty string are both the empty string.
- Concurrency is left out. Each handler is atomic, so the check-then-insert race on emails and coupon names is not modelled.
- The 404 branches that re-read the record after the gate (backend/controller/user.js:182-184, backend/controller/shop.js:174-176) cannot fire when handlers are atomic, so they are not modelled.
- `/getuser` and `/get-shop-info/:id` only read one record by id, and are not modelled.
- Cookie expiry: a `Date` in the header is rounded to whole seconds, and the browser later drops a cookie when it expires. Neither is modelled; the browser only applies each `Set-Cookie` on receipt.
- The activation token carries the password in clear. The model records this as a claim field, and no confidentiality property is stated.
- Users.UserDb.LoginUser: the record `findOne` returns when several customers share an email is left open. The contract says only that it is one of them.
- Coupons.CouponTable.GetCoupons: returns the set of matching codes, not the array in storage order.
