/// The customer routes of backend/controller/user.js over the User
/// collection: registration (`/create-user`), activation (`/activation`),
/// login (`/login-user`), logout, profile update (`/update-user-info`) and
/// address removal (`/delete-user-address/:id`). Each handler is one atomic
/// step over the collection. The collaborators it awaits (Cloudinary, the
/// mailer, `comparePassword`) are parameters holding what they answered.
module Users {
  import opened Entities
  import opened Jwt
  import opened Http
  import opened Auth
  import opened Session

  /** `User.findOne({ email })` finds something. */
  predicate EmailTaken(users: map<Id, User>, email: string) {
    exists id :: id in users && users[id].email == email
  }

  /** Every record sits under its own `_id`. */
  predicate KeyedById(users: map<Id, User>) {
    forall id :: id in users ==> users[id].id == id
  }

  predicate UniqueEmails(users: map<Id, User>) {
    forall i, j :: i in users && j in users && users[i].email == users[j].email ==> i == j
  }

  // ---------------------------------------------------------------- registration

  datatype RegisterBody = RegisterBody(name: string, email: string, password: string, avatar: string)

  predicate AllGiven(b: RegisterBody) {
    Truthy(b.name) && Truthy(b.email) && Truthy(b.password) && Truthy(b.avatar)
  }

  /** The activation mail: its recipient, subject, and the token its link carries. */
  datatype ActivationMail = ActivationMail(to: string, subject: string, token: Token<Draft>)

  /** A successful `/create-user`: the mail sent, and the answer's message. */
  datatype Registered = Registered(mail: ActivationMail, message: string)

  /** `createActivationToken(user)` of the customer routes, and its twin
      `createActivationToken(seller)` of the seller routes: the whole
      prospective record (for a seller, address, phone number and postal code
      included), signed with `ACTIVATION_SECRET`, expiring after five
      minutes. */
  function CreateActivationToken(d: Draft, nowMs: nat): (t: Token<Draft>)
    ensures t.claims == d && t.secret == ActivationSecret
    ensures t.issuedAt == Seconds(nowMs) && t.expiresAt == t.issuedAt + 300
  {
    Sign(d, ActivationSecret, nowMs, ActivationTtl)
  }

  /** The record `User.create({ name, email, avatar, password })` stores. */
  function NewUser(id: Id, d: Draft): User {
    User(id, d.name, d.email, d.password, DefaultRole, d.avatar, "", [])
  }

  /** A handler's answer together with the collection it leaves behind. */
  datatype Step<+T> = Step(outcome: Outcome<T>, users: map<Id, User>)

  // ---------------------------------------------------------------- activation

  /** `/activation`. `jwt.verify` signals a bad, expired or missing token by
      throwing, and the catch turns that into a 500 with the verifier's
      message; the handler's own "Token invalide" branch is never reached. */
  function Activate(users: map<Id, User>, activationToken: Credential<Draft>, nowMs: nat,
                    freshId: Id, ttl: nat): Step<SessionResponse>
  {
    match Verify(activationToken, ActivationSecret, nowMs)
    case Refused(e) => Step(Failed(HttpError(500, ErrorMessage(e))), users)
    case Accepted(d) =>
      if EmailTaken(users, d.email) then Step(Failed(HttpError(400, "L'utilisateur existe déjà")), users)
      else
        var u := NewUser(freshId, d);
        Step(Done(201, SendToken(u, 201, nowMs, ttl)), users[freshId := u])
  }

  /** A token `jwt.verify` refuses yields a 500 carrying the verifier's
      message and leaves the collection as it was; no input yields the 400
      "Token invalide" the handler spells out. */
  lemma ActivationRefusedToken(users: map<Id, User>, activationToken: Credential<Draft>, nowMs: nat,
                               freshId: Id, ttl: nat)
    ensures Activate(users, activationToken, nowMs, freshId, ttl).outcome != Failed(HttpError(400, "Token invalide"))
    ensures Verify(activationToken, ActivationSecret, nowMs).Refused? ==>
      Activate(users, activationToken, nowMs, freshId, ttl)
        == Step(Failed(HttpError(500, ErrorMessage(Verify(activationToken, ActivationSecret, nowMs).error))), users)
  {
    assert "Token invalide" != "L'utilisateur existe déjà" by {
      assert |"Token invalide"| != |"L'utilisateur existe déjà"|;
    }
  }

  /** A well-formed token signed with a key other than `ACTIVATION_SECRET`
      (forged, or edited after signing) is refused as "invalid signature",
      whatever its age; other text is "invalid token" when it has the three
      dot-separated parts of a token and "jwt malformed" when it does not. */
  lemma ActivationForgedToken(users: map<Id, User>, forged: Token<Draft>, text: string, nowMs: nat,
                              freshId: Id, ttl: nat)
    requires forged.secret != ActivationSecret
    requires text != ""
    ensures Activate(users, Signed(forged), nowMs, freshId, ttl)
         == Step(Failed(HttpError(500, "invalid signature")), users)
    ensures Activate(users, Raw(text), nowMs, freshId, ttl)
         == Step(Failed(HttpError(500, if Dots(text) == 2 then "invalid token" else "jwt malformed")), users)
  {
  }

  /** An email already registered: 400, and the collection is unchanged. */
  lemma ActivationRegisteredEmail(users: map<Id, User>, d: Draft, activationToken: Credential<Draft>,
                                  nowMs: nat, freshId: Id, ttl: nat)
    requires Verify(activationToken, ActivationSecret, nowMs) == Accepted(d)
    requires EmailTaken(users, d.email)
    ensures Activate(users, activationToken, nowMs, freshId, ttl)
         == Step(Failed(HttpError(400, "L'utilisateur existe déjà")), users)
  {
  }

  /** Otherwise exactly one record is added, under the fresh id, holding the
      token's name, email, password and avatar; every other record stays. */
  lemma ActivationCreatesOne(users: map<Id, User>, d: Draft, activationToken: Credential<Draft>,
                             nowMs: nat, freshId: Id, ttl: nat)
    requires Verify(activationToken, ActivationSecret, nowMs) == Accepted(d)
    requires !EmailTaken(users, d.email) && freshId !in users
    ensures var s := Activate(users, activationToken, nowMs, freshId, ttl);
      && s.users.Keys == users.Keys + {freshId}
      && |s.users| == |users| + 1
      && (forall id :: id in users ==> s.users[id] == users[id])
      && s.users[freshId] == User(freshId, d.name, d.email, d.password, DefaultRole, d.avatar, "", [])
      && s.outcome == Done(201, SendToken(s.users[freshId], 201, nowMs, ttl))
  {
    var s := Activate(users, activationToken, nowMs, freshId, ttl);
    assert s.users == users[freshId := NewUser(freshId, d)];
    assert s.users.Keys == users.Keys + {freshId};
  }

  /** Activation keeps every record under its own id and, while emails are
      unique, keeps them unique. */
  lemma ActivationKeepsInvariants(users: map<Id, User>, activationToken: Credential<Draft>,
                                  nowMs: nat, freshId: Id, ttl: nat)
    requires KeyedById(users) && freshId !in users
    ensures KeyedById(Activate(users, activationToken, nowMs, freshId, ttl).users)
    ensures UniqueEmails(users) ==> UniqueEmails(Activate(users, activationToken, nowMs, freshId, ttl).users)
  {
    var s := Activate(users, activationToken, nowMs, freshId, ttl);
    if s.users != users {
      var d := Verify(activationToken, ActivationSecret, nowMs).claims;
      assert !EmailTaken(users, d.email);
      assert forall id :: id in users ==> users[id].email != d.email;
    }
  }

  /** Presented again to the collection its first use left, an activation
      token is refused with 400 and changes nothing: the email it carries is
      now taken. This is all the email check guarantees; see
      `ActivationReplayAfterEmailChange`. */
  lemma ActivationOnce(users: map<Id, User>, activationToken: Credential<Draft>, nowMs: nat,
                       freshId: Id, laterMs: nat, otherId: Id, ttl: nat)
    requires Activate(users, activationToken, nowMs, freshId, ttl).outcome.Done?
    requires Verify(activationToken, ActivationSecret, laterMs).Accepted?
    ensures var after := Activate(users, activationToken, nowMs, freshId, ttl).users;
      Activate(after, activationToken, laterMs, otherId, ttl)
        == Step(Failed(HttpError(400, "L'utilisateur existe déjà")), after)
  {
    var d := Verify(activationToken, ActivationSecret, nowMs).claims;
    var after := Activate(users, activationToken, nowMs, freshId, ttl).users;
    assert after[freshId].email == d.email;
    assert EmailTaken(after, d.email);
  }

  /** The email check is the only guard against replay, and the profile
      update may change the email. So a customer who activates, moves the
      new account to another email and presents the same token again while
      it lives gets a second account under the token's email. */
  lemma ActivationReplayAfterEmailChange(users: map<Id, User>, activationToken: Credential<Draft>, nowMs: nat,
                                         freshId: Id, jar: Cookies, midMs: nat, body: ProfileBody,
                                         comparePassword: PasswordCheck, laterMs: nat, otherId: Id, ttl: nat)
    requires KeyedById(users) && freshId !in users && otherId !in users && otherId != freshId
    requires Activate(users, activationToken, nowMs, freshId, ttl).outcome.Done?
    requires var after := Activate(users, activationToken, nowMs, freshId, ttl).users;
      Authenticate(jar, after, midMs).Continue? && Authenticate(jar, after, midMs).principal.id == freshId
    requires comparePassword(body.password, Verify(activationToken, ActivationSecret, nowMs).claims.password)
    requires Truthy(body.email) && body.email != Verify(activationToken, ActivationSecret, nowMs).claims.email
    requires Verify(activationToken, ActivationSecret, laterMs).Accepted?
    ensures var d := Verify(activationToken, ActivationSecret, nowMs).claims;
      var first := Activate(users, activationToken, nowMs, freshId, ttl);
      var edit := UpdateInfo(first.users, jar, midMs, body, comparePassword);
      var replay := Activate(edit.users, activationToken, laterMs, otherId, ttl);
      && edit.outcome.Done?
      && replay.outcome.Done?
      && replay.users.Keys == users.Keys + {freshId, otherId}
      && replay.users[freshId].email == body.email
      && replay.users[otherId] == User(otherId, d.name, d.email, d.password, DefaultRole, d.avatar, "", [])
  {
    var d := Verify(activationToken, ActivationSecret, nowMs).claims;
    var first := Activate(users, activationToken, nowMs, freshId, ttl);
    ActivationKeepsInvariants(users, activationToken, nowMs, freshId, ttl);
    assert first.users == users[freshId := NewUser(freshId, d)];
    var v := Verify(CookieValue(jar, CustomerCookie), SessionSecret, midMs);
    assert v.claims in first.users && first.users[v.claims].id == v.claims;
    var edit := UpdateInfo(first.users, jar, midMs, body, comparePassword);
    assert edit.users == first.users[freshId := Merge(NewUser(freshId, d), body)];
    assert !EmailTaken(edit.users, d.email) by {
      assert !EmailTaken(users, d.email);
      forall id | id in edit.users
        ensures edit.users[id].email != d.email
      {
        if id != freshId {
          assert edit.users[id] == users[id];
        }
      }
    }
  }

  // ---------------------------------------------------------------- profile update

  /** The fields `/update-user-info` reads from the body. */
  datatype ProfileBody = ProfileBody(email: string, password: string, phoneNumber: string, name: string)

  /** `user.name = name || user.name` and the same for email and phoneNumber. */
  function Merge(u: User, b: ProfileBody): User {
    u.(name := Or(b.name, u.name), email := Or(b.email, u.email), phoneNumber := Or(b.phoneNumber, u.phoneNumber))
  }

  /** `/update-user-info` behind `isAuthenticated`. */
  function UpdateInfo(users: map<Id, User>, jar: Cookies, nowMs: nat, body: ProfileBody,
                      comparePassword: PasswordCheck): Step<User>
  {
    match Authenticate(jar, users, nowMs)
    case Reject(e) => Step(Failed(e), users)
    case Continue(u) =>
      if !comparePassword(body.password, u.password) then
        Step(Failed(HttpError(400, "Mot de passe incorrect")), users)
      else
        var u' := Merge(u, body);
        Step(Done(200, u'), users[u.id := u'])
  }

  /** A wrong password: 400, and the record is unchanged. */
  lemma UpdateWrongPassword(users: map<Id, User>, jar: Cookies, nowMs: nat, body: ProfileBody,
                            comparePassword: PasswordCheck)
    requires Authenticate(jar, users, nowMs).Continue?
    requires !comparePassword(body.password, Authenticate(jar, users, nowMs).principal.password)
    ensures UpdateInfo(users, jar, nowMs, body, comparePassword)
         == Step(Failed(HttpError(400, "Mot de passe incorrect")), users)
  {
  }

  /** With the right password each of name, email and phoneNumber takes the
      body's value exactly when that value is truthy; every other field of the
      record, and every other record, stays as it was. */
  lemma UpdateMergesTruthyFields(users: map<Id, User>, jar: Cookies, nowMs: nat, body: ProfileBody,
                                 comparePassword: PasswordCheck)
    requires KeyedById(users)
    requires Authenticate(jar, users, nowMs).Continue?
    requires comparePassword(body.password, Authenticate(jar, users, nowMs).principal.password)
    ensures var u := Authenticate(jar, users, nowMs).principal;
      var s := UpdateInfo(users, jar, nowMs, body, comparePassword);
      && u.id in users && s.users.Keys == users.Keys
      && (forall id :: id in users && id != u.id ==> s.users[id] == users[id])
      && s.outcome == Done(200, s.users[u.id])
      && (s.users[u.id].name == if Truthy(body.name) then body.name else u.name)
      && (s.users[u.id].email == if Truthy(body.email) then body.email else u.email)
      && (s.users[u.id].phoneNumber == if Truthy(body.phoneNumber) then body.phoneNumber else u.phoneNumber)
      && s.users[u.id].(name := u.name, email := u.email, phoneNumber := u.phoneNumber) == u
  {
  }

  /** Sending the same profile body twice has the effect of sending it once. */
  lemma MergeIdempotent(u: User, b: ProfileBody)
    ensures Merge(Merge(u, b), b) == Merge(u, b)
  {
  }

  /** The update does not check that the new email is free: a customer who
      sends another customer's email ends up sharing it, after which login
      may find either record. */
  lemma UpdateMayDuplicateEmail(users: map<Id, User>, jar: Cookies, nowMs: nat, body: ProfileBody,
                                comparePassword: PasswordCheck, other: Id)
    requires KeyedById(users)
    requires Authenticate(jar, users, nowMs).Continue?
    requires comparePassword(body.password, Authenticate(jar, users, nowMs).principal.password)
    requires other in users && other != Authenticate(jar, users, nowMs).principal.id
    requires body.email == users[other].email && Truthy(body.email)
    ensures UpdateInfo(users, jar, nowMs, body, comparePassword).outcome.Done?
    ensures !UniqueEmails(UpdateInfo(users, jar, nowMs, body, comparePassword).users)
  {
    var u := Authenticate(jar, users, nowMs).principal;
    var s := UpdateInfo(users, jar, nowMs, body, comparePassword);
    assert s.users[u.id].email == s.users[other].email;
  }

  // ---------------------------------------------------------------- addresses

  /** `$pull: { addresses: { _id: addressId } }`. */
  function Pull(addrs: seq<Address>, addressId: Id): (r: seq<Address>)
    ensures |r| <= |addrs|
    ensures forall a :: a in r ==> a in addrs && a.id != addressId
  {
    if addrs == [] then []
    else (if addrs[0].id == addressId then [] else [addrs[0]]) + Pull(addrs[1..], addressId)
  }

  /** Every address with another id survives the pull. */
  lemma {:induction false} PullKeepsOthers(addrs: seq<Address>, addressId: Id, a: Address)
    requires a in addrs && a.id != addressId
    ensures a in Pull(addrs, addressId)
  {
    if addrs[0] != a {
      PullKeepsOthers(addrs[1..], addressId, a);
    }
  }

  /** The pull works address by address, so the survivors keep their order:
      pulling from a concatenation is concatenating the pulls. */
  lemma {:induction false} PullConcat(xs: seq<Address>, ys: seq<Address>, addressId: Id)
    ensures Pull(xs + ys, addressId) == Pull(xs, addressId) + Pull(ys, addressId)
  {
    if xs == [] {
      assert xs + ys == ys;
    } else {
      assert (xs + ys)[1..] == xs[1..] + ys;
      PullConcat(xs[1..], ys, addressId);
    }
  }

  /** Pulling when no address has the id changes nothing; pulling twice is
      pulling once. */
  lemma PullIdempotent(addrs: seq<Address>, addressId: Id)
    ensures (forall a :: a in addrs ==> a.id != addressId) ==> Pull(addrs, addressId) == addrs
    ensures Pull(Pull(addrs, addressId), addressId) == Pull(addrs, addressId)
  {
    if forall a :: a in addrs ==> a.id != addressId {
      PullAbsent(addrs, addressId);
    }
    PullTwice(addrs, addressId);
  }

  lemma {:induction false} PullAbsent(addrs: seq<Address>, addressId: Id)
    requires forall a :: a in addrs ==> a.id != addressId
    ensures Pull(addrs, addressId) == addrs
  {
    if addrs != [] {
      assert addrs[0] in addrs;
      assert forall a :: a in addrs[1..] ==> a in addrs;
      PullAbsent(addrs[1..], addressId);
      assert addrs == [addrs[0]] + addrs[1..];
    }
  }

  lemma {:induction false} PullTwice(addrs: seq<Address>, addressId: Id)
    ensures Pull(Pull(addrs, addressId), addressId) == Pull(addrs, addressId)
  {
    if addrs != [] {
      var head := [addrs[0]];
      var rest := Pull(addrs[1..], addressId);
      PullTwice(addrs[1..], addressId);
      PullOne(addrs[0], addressId);
      PullConcat(Pull(head, addressId), rest, addressId);
      assert Pull(addrs, addressId) == Pull(head, addressId) + rest;
    }
  }

  lemma PullOne(a: Address, addressId: Id)
    ensures Pull([a], addressId) == if a.id == addressId then [] else [a]
    ensures Pull(Pull([a], addressId), addressId) == Pull([a], addressId)
  {
    assert [a][1..] == [];
  }

  /** A customer record as `User.findById` returns it when the query does
      not ask for `+password`: every field but the password. */
  datatype Profile = Profile(id: Id, name: string, email: string, role: string, avatar: Avatar,
                             phoneNumber: string, addresses: seq<Address>)

  function WithoutPassword(u: User): (p: Profile)
    ensures p.id == u.id && p.name == u.name && p.email == u.email && p.role == u.role
    ensures p.avatar == u.avatar && p.phoneNumber == u.phoneNumber && p.addresses == u.addresses
  {
    Profile(u.id, u.name, u.email, u.role, u.avatar, u.phoneNumber, u.addresses)
  }

  /** `/delete-user-address/:id` behind `isAuthenticated`: the pull, then the
      record read back without its password. */
  function DeleteAddress(users: map<Id, User>, jar: Cookies, nowMs: nat, addressId: Id): Step<Profile> {
    match Authenticate(jar, users, nowMs)
    case Reject(e) => Step(Failed(e), users)
    case Continue(u) =>
      var u' := u.(addresses := Pull(u.addresses, addressId));
      Step(Done(200, WithoutPassword(u')), users[u.id := u'])
  }

  /** The removal touches the authenticated customer's address list only. */
  lemma DeleteAddressTouchesOneList(users: map<Id, User>, jar: Cookies, nowMs: nat, addressId: Id)
    requires KeyedById(users)
    requires Authenticate(jar, users, nowMs).Continue?
    ensures var u := Authenticate(jar, users, nowMs).principal;
      var s := DeleteAddress(users, jar, nowMs, addressId);
      && u.id in users && s.users.Keys == users.Keys
      && (forall id :: id in users && id != u.id ==> s.users[id] == users[id])
      && s.users[u.id] == u.(addresses := Pull(u.addresses, addressId))
      && s.outcome == Done(200, WithoutPassword(s.users[u.id]))
  {
  }

  /** The answer does not depend on the stored password: two collections
      that differ only in the customer's password give the same answer. */
  lemma DeleteAddressHidesPassword(users: map<Id, User>, jar: Cookies, nowMs: nat, addressId: Id,
                                   other: string)
    requires KeyedById(users)
    requires Authenticate(jar, users, nowMs).Continue?
    ensures var u := Authenticate(jar, users, nowMs).principal;
      u.id in users &&
      DeleteAddress(users[u.id := u.(password := other)], jar, nowMs, addressId).outcome
        == DeleteAddress(users, jar, nowMs, addressId).outcome
  {
    var u := Authenticate(jar, users, nowMs).principal;
    var users' := users[u.id := u.(password := other)];
    assert Authenticate(jar, users', nowMs) == Continue(u.(password := other));
  }

  // ---------------------------------------------------------------- logout

  /** Customer `/logout`: clears the `token` cookie; reads and writes nothing
      on the server. */
  function LogoutUser(nowMs: nat): (r: Outcome<LoggedOut>)
    ensures r.Done? && r.status == 200 && r.value.message == "Déconnexion réussie"
    ensures r.value.cookie.name == CustomerCookie && r.value.cookie.options.expires <= nowMs
    ensures r.value.cookie.options.httpOnly && r.value.cookie.options.secure && r.value.cookie.options.sameSite == "none"
  {
    Done(200, LoggedOut(ClearCookie(CustomerCookie, nowMs), "Déconnexion réussie"))
  }

  /** After logout the customer gate treats the browser's next request like
      one that never had a session, and a seller session the same browser
      holds is untouched. Nothing is revoked on the server. */
  lemma LogoutEndsCustomerSession(jar: Cookies, users: map<Id, User>, shops: map<Id, Shop>,
                                  nowMs: nat, laterMs: nat)
    ensures var jar' := Receive(jar, LogoutUser(nowMs).value.cookie, nowMs);
      && Authenticate(jar', users, laterMs) == Authenticate(map[], users, laterMs)
      && AuthenticateSeller(jar', shops, laterMs) == AuthenticateSeller(jar, shops, laterMs)
  {
    var jar' := Receive(jar, LogoutUser(nowMs).value.cookie, nowMs);
    assert CookieValue(jar', SellerCookie) == CookieValue(jar, SellerCookie);
  }

  // ---------------------------------------------------------------- the collection

  /** The User collection and the routes that read or write it. */
  class UserDb {
    var users: map<Id, User>

    ghost predicate Valid()
      reads this
    {
      KeyedById(users)
    }

    constructor ()
      ensures Valid() && users == map[]
    {
      users := map[];
    }

    /** `/create-user`, given what Cloudinary and the mailer answered. It
        reads the collection and never writes it. */
    function CreateUser(body: RegisterBody, upload: Attempt<Avatar>, mail: Attempt<()>, nowMs: nat): (r: Outcome<Registered>)
      reads this
      ensures !AllGiven(body) ==> r == Failed(HttpError(400, "Veuillez fournir tous les champs requis"))
      ensures AllGiven(body) && EmailTaken(users, body.email) ==> r == Failed(HttpError(400, "L'utilisateur existe déjà"))
      ensures r.Done? <==> AllGiven(body) && !EmailTaken(users, body.email) && upload.Returned? && mail.Returned?
      ensures r.Failed? && r.error.status == 500 <==>
        AllGiven(body) && !EmailTaken(users, body.email) && (upload.Threw? || mail.Threw?)
      ensures AllGiven(body) && !EmailTaken(users, body.email) && upload.Threw? ==>
        r == Failed(HttpError(500, upload.message))
      ensures AllGiven(body) && !EmailTaken(users, body.email) && upload.Returned? && mail.Threw? ==>
        r == Failed(HttpError(500, "Erreur lors de l'envoi de l'email"))
      ensures r.Done? ==>
        && r.status == 201
        && r.value.message == "Veuillez vérifier votre email : " + body.email + " pour activer votre compte."
        && r.value.mail.to == body.email
        && r.value.mail.subject == "Activez votre compte"
        && r.value.mail.token.claims == UserDraft(body.name, body.email, body.password, upload.value)
        && r.value.mail.token.secret == ActivationSecret
        && r.value.mail.token.issuedAt == Seconds(nowMs)
        && r.value.mail.token.expiresAt == Seconds(nowMs) + 300
    {
      if !AllGiven(body) then Failed(HttpError(400, "Veuillez fournir tous les champs requis"))
      else if EmailTaken(users, body.email) then Failed(HttpError(400, "L'utilisateur existe déjà"))
      else match upload
        case Threw(m) => Failed(HttpError(500, m))
        case Returned(avatar) =>
          var token := CreateActivationToken(UserDraft(body.name, body.email, body.password, avatar), nowMs);
          match mail
          case Threw(_) => Failed(HttpError(500, "Erreur lors de l'envoi de l'email"))
          case Returned(_) =>
            Done(201, Registered(ActivationMail(body.email, "Activez votre compte", token),
                                 "Veuillez vérifier votre email : " + body.email + " pour activer votre compte."))
    }

    /** `/activation`, inserting under the fresh id the store hands out. */
    method Activation(activationToken: Credential<Draft>, nowMs: nat, freshId: Id, ttl: nat)
      returns (r: Outcome<SessionResponse>)
      requires Valid() && freshId !in users
      modifies this
      ensures Valid()
      ensures Step(r, users) == Activate(old(users), activationToken, nowMs, freshId, ttl)
    {
      var newUser := Verify(activationToken, ActivationSecret, nowMs);
      if newUser.Refused? {
        return Failed(HttpError(500, ErrorMessage(newUser.error)));
      }
      var d := newUser.claims;
      if EmailTaken(users, d.email) {
        return Failed(HttpError(400, "L'utilisateur existe déjà"));
      }
      var user := NewUser(freshId, d);
      users := users[freshId := user];
      r := Done(201, SendToken(user, 201, nowMs, ttl));
    }

    /** `/login-user`: three ordered rejections, then a session. When several
        records share the email, `findOne` may return any of them. */
    method LoginUser(email: string, password: string, comparePassword: PasswordCheck, nowMs: nat, ttl: nat)
      returns (r: Outcome<SessionResponse>)
      ensures !Truthy(email) || !Truthy(password) ==>
        r == Failed(HttpError(400, "Veuillez fournir tous les champs requis"))
      ensures Truthy(email) && Truthy(password) && !EmailTaken(users, email) ==>
        r == Failed(HttpError(400, "L'utilisateur n'existe pas"))
      ensures Truthy(email) && Truthy(password) && EmailTaken(users, email)
              && (forall id :: id in users && users[id].email == email ==> !comparePassword(password, users[id].password)) ==>
        r == Failed(HttpError(400, "Informations incorrectes"))
      ensures Truthy(email) && Truthy(password) && EmailTaken(users, email)
              && (forall id :: id in users && users[id].email == email ==> comparePassword(password, users[id].password)) ==>
        r.Done?
      ensures r.Failed? ==> r.error.status == 400
      ensures Truthy(email) && Truthy(password) && EmailTaken(users, email) && r.Failed? ==>
        r == Failed(HttpError(400, "Informations incorrectes"))
      ensures r.Done? ==> exists id :: (id in users && users[id].email == email
        && comparePassword(password, users[id].password)
        && r == Done(200, SendToken(users[id], 200, nowMs, ttl)))
    {
      if !Truthy(email) || !Truthy(password) {
        return Failed(HttpError(400, "Veuillez fournir tous les champs requis"));
      }
      if !EmailTaken(users, email) {
        return Failed(HttpError(400, "L'utilisateur n'existe pas"));
      }
      var id :| id in users && users[id].email == email;
      var user := users[id];
      if !comparePassword(password, user.password) {
        return Failed(HttpError(400, "Informations incorrectes"));
      }
      r := Done(200, SendToken(user, 200, nowMs, ttl));
    }

    /** `/update-user-info`: the record is changed field by field, then saved. */
    method UpdateUserInfo(jar: Cookies, nowMs: nat, body: ProfileBody, comparePassword: PasswordCheck)
      returns (r: Outcome<User>)
      requires Valid()
      modifies this
      ensures Valid()
      ensures Step(r, users) == UpdateInfo(old(users), jar, nowMs, body, comparePassword)
    {
      var gate := Authenticate(jar, users, nowMs);
      if gate.Reject? {
        return Failed(gate.error);
      }
      var user := gate.principal;
      if !comparePassword(body.password, user.password) {
        return Failed(HttpError(400, "Mot de passe incorrect"));
      }
      user := user.(name := Or(body.name, user.name));
      user := user.(email := Or(body.email, user.email));
      user := user.(phoneNumber := Or(body.phoneNumber, user.phoneNumber));
      users := users[user.id := user];
      r := Done(200, user);
    }

    /** `/delete-user-address/:id`. */
    method DeleteUserAddress(jar: Cookies, nowMs: nat, addressId: Id) returns (r: Outcome<Profile>)
      requires Valid()
      modifies this
      ensures Valid()
      ensures Step(r, users) == DeleteAddress(old(users), jar, nowMs, addressId)
    {
      var gate := Authenticate(jar, users, nowMs);
      if gate.Reject? {
        return Failed(gate.error);
      }
      var userId := gate.principal.id;
      users := users[userId := users[userId].(addresses := Pull(users[userId].addresses, addressId))];
      r := Done(200, WithoutPassword(users[userId]));
    }
  }

  /** Registration and activation together: a token mailed by `/create-user`
      and presented within its five minutes, while no record has the email,
      creates the customer exactly as registered and opens a session the
      customer gate accepts. */
  lemma RegistrationRoundTrip(db: UserDb, body: RegisterBody, upload: Attempt<Avatar>, mail: Attempt<()>,
                              registeredMs: nat, users: map<Id, User>, nowMs: nat, freshId: Id, ttl: nat,
                              jar: Cookies, laterMs: nat)
    requires db.CreateUser(body, upload, mail, registeredMs).Done?
    requires Seconds(nowMs) < Seconds(registeredMs) + 300
    requires !EmailTaken(users, body.email) && freshId !in users
    requires Seconds(laterMs) < Seconds(nowMs) + ttl
    ensures var token := db.CreateUser(body, upload, mail, registeredMs).value.mail.token;
      var s := Activate(users, Signed(token), nowMs, freshId, ttl);
      && s.outcome.Done?
      && s.users == users[freshId := User(freshId, body.name, body.email, body.password, DefaultRole,
                                          upload.value, "", [])]
      && Authenticate(Receive(jar, s.outcome.value.cookie, nowMs), s.users, laterMs) == Continue(s.users[freshId])
  {
    var token := db.CreateUser(body, upload, mail, registeredMs).value.mail.token;
    var d := UserDraft(body.name, body.email, body.password, upload.value);
    assert Verify(Signed(token), ActivationSecret, nowMs) == Accepted(d);
    var s := Activate(users, Signed(token), nowMs, freshId, ttl);
    SessionAdmits(s.users, s.users[freshId], jar, 201, nowMs, laterMs, ttl);
  }

  /** Presented five minutes or more after registration, the mailed token is
      refused as expired and nothing is created. */
  lemma RegistrationExpires(db: UserDb, body: RegisterBody, upload: Attempt<Avatar>, mail: Attempt<()>,
                            registeredMs: nat, users: map<Id, User>, nowMs: nat, freshId: Id, ttl: nat)
    requires db.CreateUser(body, upload, mail, registeredMs).Done?
    requires nowMs >= registeredMs + 300 * 1000
    ensures var token := db.CreateUser(body, upload, mail, registeredMs).value.mail.token;
      Activate(users, Signed(token), nowMs, freshId, ttl) == Step(Failed(HttpError(500, "jwt expired")), users)
  {
    var token := db.CreateUser(body, upload, mail, registeredMs).value.mail.token;
    FiveMinuteWindow(token.claims, registeredMs, nowMs);
  }
}
