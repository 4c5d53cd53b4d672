/// The seller routes of backend/controller/shop.js over the Shop
/// collection: registration (`/create-shop`), activation (`/activation`),
/// login (`/login-shop`), logout, profile update (`/update-seller-info`) and
/// the admin-only removal of a shop (`/delete-seller/:id`). Each handler is
/// one atomic step over the collection; the collaborators it awaits are
/// parameters holding what they answered. Unlike the User collection, the
/// Shop collection keeps its emails unique: only activation adds a record,
/// after checking, and nothing ever changes a shop's email.
module Shops {
  import opened Entities
  import opened Jwt
  import opened Http
  import opened Auth
  import opened Session
  import Users

  predicate EmailTaken(shops: map<Id, Shop>, email: string) {
    exists id :: id in shops && shops[id].email == email
  }

  predicate KeyedById(shops: map<Id, Shop>) {
    forall id :: id in shops ==> shops[id].id == id
  }

  predicate UniqueEmails(shops: map<Id, Shop>) {
    forall i, j :: i in shops && j in shops && shops[i].email == shops[j].email ==> i == j
  }

  /** The invariant every route keeps. */
  predicate Consistent(shops: map<Id, Shop>) {
    KeyedById(shops) && UniqueEmails(shops)
  }

  // ---------------------------------------------------------------- registration

  datatype ShopBody = ShopBody(email: string, name: string, password: string, address: string,
                               phoneNumber: string, zipCode: string, avatar: string)

  predicate AllGiven(b: ShopBody) {
    && Truthy(b.email) && Truthy(b.name) && Truthy(b.password) && Truthy(b.address)
    && Truthy(b.phoneNumber) && Truthy(b.zipCode) && Truthy(b.avatar)
  }

  // ---------------------------------------------------------------- activation

  /** What `sendShopToken(shop, status, res)` hands the seller: the record
      and the session token signed for its id. Its cookie options are not
      part of this model. */
  datatype SellerSession = SellerSession(shop: Shop, token: Token<Id>)

  /** A handler's answer together with the collection it leaves behind. */
  datatype Step<+T> = Step(outcome: Outcome<T>, shops: map<Id, Shop>)

  /** `Shop.create(newSeller)`: a seller draft becomes a record with an empty
      description. A customer draft (signed with the same secret) lacks the
      address, phone number and postal code the Shop schema requires, so the
      insert throws. */
  function NewShop(id: Id, d: Draft): Option<Shop> {
    match d
    case UserDraft(_, _, _, _) => None
    case SellerDraft(name, email, password, avatar, address, phoneNumber, zipCode) =>
      Some(Shop(id, name, email, password, "", address, phoneNumber, zipCode, avatar))
  }

  /** `/activation` of the shop routes. The missing token is caught before
      verification; a token `jwt.verify` refuses throws out of the handler
      and reaches the error handler as a 500 with the verifier's message. */
  function Activate(shops: map<Id, Shop>, activationToken: Credential<Draft>, nowMs: nat,
                    freshId: Id, ttl: nat): Step<SellerSession>
  {
    if !Present(activationToken) then Step(Failed(HttpError(400, "Token d'activation manquant")), shops)
    else match Verify(activationToken, ActivationSecret, nowMs)
      case Refused(e) => Step(Failed(HttpError(500, ErrorMessage(e))), shops)
      case Accepted(d) =>
        if EmailTaken(shops, d.email) then Step(Failed(HttpError(400, "Cet utilisateur existe déjà")), shops)
        else match NewShop(freshId, d)
          case None => Step(Failed(HttpError(500, "Shop validation failed")), shops)
          case Some(shop) =>
            Step(Done(201, SellerSession(shop, GetJwtToken(freshId, nowMs, ttl))), shops[freshId := shop])
  }

  /** Without a token the answer is 400 whatever the collection holds, and
      the verifier is never asked. */
  lemma ActivationMissingToken(shops: map<Id, Shop>, nowMs: nat, freshId: Id, ttl: nat)
    ensures Activate(shops, Raw(""), nowMs, freshId, ttl)
         == Step(Failed(HttpError(400, "Token d'activation manquant")), shops)
  {
  }

  /** A present token that does not verify escapes the handler: a token
      signed with another key gives 500 "invalid signature", other text
      gives 500 "invalid token" or "jwt malformed" according to whether it
      has the three parts of a token, and nothing is created. */
  lemma ActivationForgedToken(shops: map<Id, Shop>, forged: Token<Draft>, text: string, nowMs: nat,
                              freshId: Id, ttl: nat)
    requires forged.secret != ActivationSecret
    requires text != ""
    ensures Activate(shops, Signed(forged), nowMs, freshId, ttl)
         == Step(Failed(HttpError(500, "invalid signature")), shops)
    ensures Activate(shops, Raw(text), nowMs, freshId, ttl)
         == Step(Failed(HttpError(500, if Dots(text) == 2 then "invalid token" else "jwt malformed")), shops)
  {
  }

  /** A registered email: 400 and nothing created. A fresh email and a seller
      draft: exactly one shop, built from the token's fields alone. */
  lemma ActivationOutcomes(shops: map<Id, Shop>, d: Draft, activationToken: Credential<Draft>,
                           nowMs: nat, freshId: Id, ttl: nat)
    requires Verify(activationToken, ActivationSecret, nowMs) == Accepted(d)
    requires freshId !in shops
    ensures EmailTaken(shops, d.email) ==>
      Activate(shops, activationToken, nowMs, freshId, ttl)
        == Step(Failed(HttpError(400, "Cet utilisateur existe déjà")), shops)
    ensures !EmailTaken(shops, d.email) && d.SellerDraft? ==>
      var s := Activate(shops, activationToken, nowMs, freshId, ttl);
      && s.shops.Keys == shops.Keys + {freshId}
      && |s.shops| == |shops| + 1
      && (forall id :: id in shops ==> s.shops[id] == shops[id])
      && s.shops[freshId] == Shop(freshId, d.name, d.email, d.password, "", d.address, d.phoneNumber,
                                  d.zipCode, d.avatar)
      && s.outcome == Done(201, SellerSession(s.shops[freshId], GetJwtToken(freshId, nowMs, ttl)))
  {
    assert Present(activationToken);
    if !EmailTaken(shops, d.email) && d.SellerDraft? {
      var s := Activate(shops, activationToken, nowMs, freshId, ttl);
      assert s.shops.Keys == shops.Keys + {freshId};
    }
  }

  /** Activation keeps the collection consistent. */
  lemma ActivationKeepsConsistent(shops: map<Id, Shop>, activationToken: Credential<Draft>,
                                  nowMs: nat, freshId: Id, ttl: nat)
    requires Consistent(shops)
    ensures Consistent(Activate(shops, activationToken, nowMs, freshId, ttl).shops)
  {
    var s := Activate(shops, activationToken, nowMs, freshId, ttl);
    if s.shops != shops {
      var d := Verify(activationToken, ActivationSecret, nowMs).claims;
      assert !EmailTaken(shops, d.email);
      assert forall id :: id in shops ==> shops[id].email != d.email;
    }
  }

  /** Both activation routes verify with `ACTIVATION_SECRET`, so a seller's
      activation token presented at the customer `/activation` creates a
      customer account with the seller's name, email, password and avatar. */
  lemma SellerTokenActivatesCustomer(d: Draft, signedMs: nat, users: map<Id, User>, nowMs: nat,
                                     freshId: Id, ttl: nat)
    requires d.SellerDraft?
    requires Seconds(nowMs) < Seconds(signedMs) + ActivationTtl
    requires !Users.EmailTaken(users, d.email) && freshId !in users
    ensures var s := Users.Activate(users, Signed(Users.CreateActivationToken(d, signedMs)), nowMs, freshId, ttl);
      s.outcome.Done? && s.users[freshId] == User(freshId, d.name, d.email, d.password, DefaultRole, d.avatar, "", [])
  {
    SignThenVerify(d, ActivationSecret, signedMs, nowMs, ActivationTtl);
  }

  // ---------------------------------------------------------------- profile update

  /** The fields `/update-seller-info` reads from the body. */
  datatype SellerProfile = SellerProfile(name: string, description: string, address: string,
                                         phoneNumber: string, zipCode: string)

  /** `if (name) shop.name = name;` and so on for the five editable fields. */
  function Merge(s: Shop, b: SellerProfile): Shop {
    s.(name := Or(b.name, s.name), description := Or(b.description, s.description),
       address := Or(b.address, s.address), phoneNumber := Or(b.phoneNumber, s.phoneNumber),
       zipCode := Or(b.zipCode, s.zipCode))
  }

  /** A shop record as `Shop.findById` returns it when the query does not
      ask for `+password`: every field but the password. */
  datatype ShopProfile = ShopProfile(id: Id, name: string, email: string, description: string,
                                     address: string, phoneNumber: string, zipCode: string, avatar: Avatar)

  function WithoutPassword(s: Shop): (p: ShopProfile)
    ensures p.id == s.id && p.name == s.name && p.email == s.email && p.description == s.description
    ensures p.address == s.address && p.phoneNumber == s.phoneNumber && p.zipCode == s.zipCode
    ensures p.avatar == s.avatar
  {
    ShopProfile(s.id, s.name, s.email, s.description, s.address, s.phoneNumber, s.zipCode, s.avatar)
  }

  /** `/update-seller-info` behind `isSeller`: the shop is re-read without
      its password, the truthy fields are assigned, and the saved record is
      the answer. */
  function UpdateInfo(shops: map<Id, Shop>, jar: Cookies, nowMs: nat, body: SellerProfile): Step<ShopProfile> {
    match AuthenticateSeller(jar, shops, nowMs)
    case Reject(e) => Step(Failed(e), shops)
    case Continue(s) =>
      var s' := Merge(s, body);
      Step(Done(200, WithoutPassword(s')), shops[s.id := s'])
  }

  /** Each editable field takes the body's value exactly when it is truthy;
      email, password and avatar never change; other shops stay as they were. */
  lemma UpdateMergesTruthyFields(shops: map<Id, Shop>, jar: Cookies, nowMs: nat, body: SellerProfile)
    requires KeyedById(shops)
    requires AuthenticateSeller(jar, shops, nowMs).Continue?
    ensures var s := AuthenticateSeller(jar, shops, nowMs).principal;
      var r := UpdateInfo(shops, jar, nowMs, body);
      && s.id in shops && r.shops.Keys == shops.Keys
      && (forall id :: id in shops && id != s.id ==> r.shops[id] == shops[id])
      && r.outcome == Done(200, WithoutPassword(r.shops[s.id]))
      && (r.shops[s.id].name == if Truthy(body.name) then body.name else s.name)
      && (r.shops[s.id].description == if Truthy(body.description) then body.description else s.description)
      && (r.shops[s.id].address == if Truthy(body.address) then body.address else s.address)
      && (r.shops[s.id].phoneNumber == if Truthy(body.phoneNumber) then body.phoneNumber else s.phoneNumber)
      && (r.shops[s.id].zipCode == if Truthy(body.zipCode) then body.zipCode else s.zipCode)
      && r.shops[s.id].email == s.email && r.shops[s.id].password == s.password
      && r.shops[s.id].avatar == s.avatar && r.shops[s.id].id == s.id
  {
  }

  /** The answer does not depend on the stored password: two collections
      that differ only in the seller's password give the same answer. */
  lemma UpdateHidesPassword(shops: map<Id, Shop>, jar: Cookies, nowMs: nat, body: SellerProfile, other: string)
    requires KeyedById(shops)
    requires AuthenticateSeller(jar, shops, nowMs).Continue?
    ensures var s := AuthenticateSeller(jar, shops, nowMs).principal;
      s.id in shops &&
      UpdateInfo(shops[s.id := s.(password := other)], jar, nowMs, body).outcome
        == UpdateInfo(shops, jar, nowMs, body).outcome
  {
    var s := AuthenticateSeller(jar, shops, nowMs).principal;
    var shops' := shops[s.id := s.(password := other)];
    assert AuthenticateSeller(jar, shops', nowMs) == Continue(s.(password := other));
  }

  /** The update keeps the collection consistent: emails are never touched. */
  lemma UpdateKeepsConsistent(shops: map<Id, Shop>, jar: Cookies, nowMs: nat, body: SellerProfile)
    requires Consistent(shops)
    ensures Consistent(UpdateInfo(shops, jar, nowMs, body).shops)
  {
    var g := AuthenticateSeller(jar, shops, nowMs);
    if g.Continue? {
      var r := UpdateInfo(shops, jar, nowMs, body);
      assert forall id :: id in r.shops ==> r.shops[id].email == shops[id].email;
    }
  }

  // ---------------------------------------------------------------- removal

  /** `/delete-seller/:id` behind `isAuthenticated, isAdmin("Admin")`. */
  function DeleteSeller(users: map<Id, User>, shops: map<Id, Shop>, jar: Cookies, nowMs: nat,
                        shopId: Id): Step<string>
  {
    match AdminOnly(jar, users, nowMs)
    case Reject(e) => Step(Failed(e), shops)
    case Continue(_) =>
      if shopId !in shops then Step(Failed(HttpError(404, "Boutique introuvable")), shops)
      else Step(Done(200, "Boutique supprimée avec succès !"), shops - {shopId})
  }

  /** Only an authenticated customer whose role is exactly "Admin" removes a
      shop; an unknown id gives 404; otherwise that shop and no other goes. */
  lemma DeleteSellerOutcomes(users: map<Id, User>, shops: map<Id, Shop>, jar: Cookies, nowMs: nat, shopId: Id)
    ensures var r := DeleteSeller(users, shops, jar, nowMs, shopId);
      && (r.shops != shops ==> Authenticate(jar, users, nowMs).Continue?
                               && Authenticate(jar, users, nowMs).principal.role == "Admin")
      && (AdminOnly(jar, users, nowMs).Continue? && shopId !in shops ==>
            r == Step(Failed(HttpError(404, "Boutique introuvable")), shops))
      && (AdminOnly(jar, users, nowMs).Continue? && shopId in shops ==>
            r.outcome.Done? && r.shops.Keys == shops.Keys - {shopId}
            && forall id :: id in r.shops ==> r.shops[id] == shops[id])
  {
    var g := Authenticate(jar, users, nowMs);
    if g.Continue? {
      AdminRoleExact(g.principal);
    }
  }

  /** Removal keeps the collection consistent. */
  lemma DeleteKeepsConsistent(users: map<Id, User>, shops: map<Id, Shop>, jar: Cookies, nowMs: nat, shopId: Id)
    requires Consistent(shops)
    ensures Consistent(DeleteSeller(users, shops, jar, nowMs, shopId).shops)
  {
  }

  // ---------------------------------------------------------------- logout

  /** Seller `/logout`: clears the `seller_token` cookie only. */
  function LogoutShop(nowMs: nat): (r: Outcome<LoggedOut>)
    ensures r.Done? && r.status == 200 && r.value.message == "Déconnexion réussie !"
    ensures r.value.cookie.name == SellerCookie && r.value.cookie.options.expires <= nowMs
    ensures r.value.cookie.options.httpOnly && r.value.cookie.options.secure && r.value.cookie.options.sameSite == "none"
  {
    Done(200, LoggedOut(ClearCookie(SellerCookie, nowMs), "Déconnexion réussie !"))
  }

  /** After seller logout the seller gate answers as for a browser that never
      had a seller session, and the customer session is untouched. */
  lemma LogoutEndsSellerSession(jar: Cookies, users: map<Id, User>, shops: map<Id, Shop>,
                                nowMs: nat, laterMs: nat)
    ensures var jar' := Receive(jar, LogoutShop(nowMs).value.cookie, nowMs);
      && AuthenticateSeller(jar', shops, laterMs) == AuthenticateSeller(map[], shops, laterMs)
      && Authenticate(jar', users, laterMs) == Authenticate(jar, users, laterMs)
  {
    var jar' := Receive(jar, LogoutShop(nowMs).value.cookie, nowMs);
    assert CookieValue(jar', CustomerCookie) == CookieValue(jar, CustomerCookie);
  }

  // ---------------------------------------------------------------- any sequence of writes

  /** A request to one of the routes that write the Shop collection. A
      removal carries the User collection as it stands when the request
      arrives, since the admin gate reads it and customers come and go
      between requests. */
  datatype ShopRequest =
    | ActivationRequest(activationToken: Credential<Draft>, nowMs: nat, freshId: Id, ttl: nat)
    | UpdateRequest(jar: Cookies, nowMs: nat, body: SellerProfile)
    | DeleteRequest(users: map<Id, User>, jar: Cookies, nowMs: nat, shopId: Id)

  function Serve(shops: map<Id, Shop>, req: ShopRequest): map<Id, Shop> {
    match req
    case ActivationRequest(t, nowMs, freshId, ttl) => Activate(shops, t, nowMs, freshId, ttl).shops
    case UpdateRequest(jar, nowMs, body) => UpdateInfo(shops, jar, nowMs, body).shops
    case DeleteRequest(users, jar, nowMs, shopId) => DeleteSeller(users, shops, jar, nowMs, shopId).shops
  }

  /** The collection after serving the requests one at a time, in order. */
  function ServeAll(shops: map<Id, Shop>, reqs: seq<ShopRequest>): map<Id, Shop>
    decreases |reqs|
  {
    if reqs == [] then shops else ServeAll(Serve(shops, reqs[0]), reqs[1..])
  }

  /** Served one at a time, no sequence of requests ever gives two shops the
      same email. */
  lemma {:induction false} ServeAllKeepsConsistent(shops: map<Id, Shop>, reqs: seq<ShopRequest>)
    requires Consistent(shops)
    ensures Consistent(ServeAll(shops, reqs))
    decreases |reqs|
  {
    if reqs != [] {
      match reqs[0] {
        case ActivationRequest(t, nowMs, freshId, ttl) => ActivationKeepsConsistent(shops, t, nowMs, freshId, ttl);
        case UpdateRequest(jar, nowMs, body) => UpdateKeepsConsistent(shops, jar, nowMs, body);
        case DeleteRequest(users, jar, nowMs, shopId) => DeleteKeepsConsistent(users, shops, jar, nowMs, shopId);
      }
      ServeAllKeepsConsistent(Serve(shops, reqs[0]), reqs[1..]);
    }
  }

  // ---------------------------------------------------------------- the collection

  /** The Shop collection and the routes that read or write it. */
  class ShopDb {
    var shops: map<Id, Shop>

    ghost predicate Valid()
      reads this
    {
      Consistent(shops)
    }

    constructor ()
      ensures Valid() && shops == map[]
    {
      shops := map[];
    }

    /** `/create-shop`, given what Cloudinary and the mailer answered. It
        reads the collection and never writes it. */
    function CreateShop(body: ShopBody, upload: Attempt<Avatar>, mail: Attempt<()>, nowMs: nat): (r: Outcome<Users.Registered>)
      reads this
      ensures !AllGiven(body) ==> r == Failed(HttpError(400, "Tous les champs sont obligatoires"))
      ensures AllGiven(body) && EmailTaken(shops, body.email) ==> r == Failed(HttpError(400, "Cet utilisateur existe déjà"))
      ensures r.Done? <==> AllGiven(body) && !EmailTaken(shops, body.email) && upload.Returned? && mail.Returned?
      ensures AllGiven(body) && !EmailTaken(shops, body.email) && upload.Threw? ==>
        r == Failed(HttpError(500, upload.message))
      ensures AllGiven(body) && !EmailTaken(shops, body.email) && upload.Returned? && mail.Threw? ==>
        r == Failed(HttpError(500, mail.message))
      ensures r.Done? ==>
        && r.status == 201
        && r.value.message == "Veuillez vérifier votre email (" + body.email + ") pour activer votre boutique."
        && r.value.mail.to == body.email
        && r.value.mail.subject == "Activation de votre boutique"
        && r.value.mail.token.claims == SellerDraft(body.name, body.email, body.password, upload.value,
                                                    body.address, body.phoneNumber, body.zipCode)
        && r.value.mail.token.secret == ActivationSecret
        && r.value.mail.token.issuedAt == Seconds(nowMs)
        && r.value.mail.token.expiresAt == Seconds(nowMs) + 300
    {
      if !AllGiven(body) then Failed(HttpError(400, "Tous les champs sont obligatoires"))
      else if EmailTaken(shops, body.email) then Failed(HttpError(400, "Cet utilisateur existe déjà"))
      else match upload
        case Threw(m) => Failed(HttpError(500, m))
        case Returned(avatar) =>
          var d := SellerDraft(body.name, body.email, body.password, avatar,
                               body.address, body.phoneNumber, body.zipCode);
          var token := Users.CreateActivationToken(d, nowMs);
          match mail
          case Threw(m) => Failed(HttpError(500, m))
          case Returned(_) =>
            Done(201, Users.Registered(Users.ActivationMail(body.email, "Activation de votre boutique", token),
                                 "Veuillez vérifier votre email (" + body.email + ") pour activer votre boutique."))
    }

    /** Shop `/activation`, inserting under the fresh id the store hands out. */
    method Activation(activationToken: Credential<Draft>, nowMs: nat, freshId: Id, ttl: nat)
      returns (r: Outcome<SellerSession>)
      requires Valid() && freshId !in shops
      modifies this
      ensures Valid()
      ensures Step(r, shops) == Activate(old(shops), activationToken, nowMs, freshId, ttl)
    {
      if !Present(activationToken) {
        return Failed(HttpError(400, "Token d'activation manquant"));
      }
      var newSeller := Verify(activationToken, ActivationSecret, nowMs);
      if newSeller.Refused? {
        return Failed(HttpError(500, ErrorMessage(newSeller.error)));
      }
      if EmailTaken(shops, newSeller.claims.email) {
        return Failed(HttpError(400, "Cet utilisateur existe déjà"));
      }
      var created := NewShop(freshId, newSeller.claims);
      if created.None? {
        return Failed(HttpError(500, "Shop validation failed"));
      }
      ActivationKeepsConsistent(shops, activationToken, nowMs, freshId, ttl);
      shops := shops[freshId := created.value];
      r := Done(201, SellerSession(created.value, GetJwtToken(freshId, nowMs, ttl)));
    }

    /** `/login-shop`: three ordered rejections, then a seller session. The
        collection's emails being unique, the record found is the only one
        with that email. */
    method LoginShop(email: string, password: string, comparePassword: PasswordCheck, nowMs: nat, ttl: nat)
      returns (r: Outcome<SellerSession>)
      requires Valid()
      ensures !Truthy(email) || !Truthy(password) ==>
        r == Failed(HttpError(400, "Tous les champs sont obligatoires"))
      ensures Truthy(email) && Truthy(password) && !EmailTaken(shops, email) ==>
        r == Failed(HttpError(400, "Utilisateur introuvable"))
      ensures forall id :: id in shops && shops[id].email == email && Truthy(email) && Truthy(password) ==>
        r == if comparePassword(password, shops[id].password)
             then Done(200, SellerSession(shops[id], GetJwtToken(id, nowMs, ttl)))
             else Failed(HttpError(400, "Informations incorrectes"))
    {
      if !Truthy(email) || !Truthy(password) {
        return Failed(HttpError(400, "Tous les champs sont obligatoires"));
      }
      if !EmailTaken(shops, email) {
        return Failed(HttpError(400, "Utilisateur introuvable"));
      }
      var id :| id in shops && shops[id].email == email;
      var shop := shops[id];
      if !comparePassword(password, shop.password) {
        return Failed(HttpError(400, "Informations incorrectes"));
      }
      r := Done(200, SellerSession(shop, GetJwtToken(shop.id, nowMs, ttl)));
    }

    /** `/update-seller-info`: the truthy fields are assigned one by one, then saved. */
    method UpdateSellerInfo(jar: Cookies, nowMs: nat, body: SellerProfile) returns (r: Outcome<ShopProfile>)
      requires Valid()
      modifies this
      ensures Valid()
      ensures Step(r, shops) == UpdateInfo(old(shops), jar, nowMs, body)
    {
      UpdateKeepsConsistent(shops, jar, nowMs, body);
      var gate := AuthenticateSeller(jar, shops, nowMs);
      if gate.Reject? {
        return Failed(gate.error);
      }
      var shop := gate.principal;
      if Truthy(body.name) { shop := shop.(name := body.name); }
      if Truthy(body.description) { shop := shop.(description := body.description); }
      if Truthy(body.address) { shop := shop.(address := body.address); }
      if Truthy(body.phoneNumber) { shop := shop.(phoneNumber := body.phoneNumber); }
      if Truthy(body.zipCode) { shop := shop.(zipCode := body.zipCode); }
      shops := shops[shop.id := shop];
      r := Done(200, WithoutPassword(shop));
    }

    /** `/delete-seller/:id`, the customer collection serving the gates. */
    method DeleteSellerRoute(users: map<Id, User>, jar: Cookies, nowMs: nat, shopId: Id) returns (r: Outcome<string>)
      requires Valid()
      modifies this
      ensures Valid()
      ensures Step(r, shops) == DeleteSeller(users, old(shops), jar, nowMs, shopId)
    {
      var gate := AdminOnly(jar, users, nowMs);
      if gate.Reject? {
        return Failed(gate.error);
      }
      if shopId !in shops {
        return Failed(HttpError(404, "Boutique introuvable"));
      }
      shops := shops - {shopId};
      r := Done(200, "Boutique supprimée avec succès !");
    }
  }

  /** The session `sendShopToken` hands out is one the seller gate accepts
      while the token is alive, once the browser holds it as `seller_token`. */
  lemma SellerSessionAdmits(shops: map<Id, Shop>, session: SellerSession, issuedMs: nat, ttl: nat,
                            jar: Cookies, nowMs: nat)
    requires session.token == GetJwtToken(session.shop.id, issuedMs, ttl)
    requires session.shop.id in shops
    requires Seconds(nowMs) < Seconds(issuedMs) + ttl
    ensures AuthenticateSeller(jar[SellerCookie := Signed(session.token)], shops, nowMs)
         == Continue(shops[session.shop.id])
  {
    assert CookieValue(jar[SellerCookie := Signed(session.token)], SellerCookie) == Signed(session.token);
  }
}
