/// The authentication and authorisation middleware of backend/middleware/auth.js.
///
/// `isAuthenticated` and `isSeller` are one ladder over two cookie names and
/// two collections: no cookie gives 401, a token `jwt.verify` refuses gives
/// 401 (one message for a bad signature and for expiry), a verified id with
/// no record gives 404, and otherwise the record is attached to the request
/// and the next handler runs. `isAdmin(...roles)` is an exact-string
/// membership test on the attached customer's role.
///
/// The functions below state what each gate decides; the `Request` class
/// below them carries the request fields the gates assign.
module Auth {
  import opened Entities
  import opened Jwt
  import opened Http

  const CustomerCookie := "token"
  const SellerCookie := "seller_token"

  /** `next()` with the principal attached, or `next(error)`. */
  datatype Gate<+P> = Continue(principal: P) | Reject(error: HttpError)

  /** The ladder both session gates run on the cookie they read. */
  function Resolve<P>(c: Credential<Id>, store: map<Id, P>, nowMs: nat,
                      invalidMessage: string, notFoundMessage: string): Gate<P>
  {
    if !Present(c) then Reject(HttpError(401, "Please login to continue"))
    else match Verify(c, SessionSecret, nowMs)
      case Refused(_) => Reject(HttpError(401, invalidMessage))
      case Accepted(id) =>
        if id in store then Continue(store[id]) else Reject(HttpError(404, notFoundMessage))
  }

  /** `isAuthenticated`: the customer session gate, on the `token` cookie. */
  function Authenticate(jar: Cookies, users: map<Id, User>, nowMs: nat): (g: Gate<User>)
    ensures var v := Verify(CookieValue(jar, CustomerCookie), SessionSecret, nowMs);
      && (g == Reject(HttpError(401, "Please login to continue")) <==> CustomerCookie !in jar || jar[CustomerCookie] == Raw(""))
      && (g == Reject(HttpError(401, "Invalid or expired token")) <==> v.Refused? && v.error != NotProvided)
      && (g == Reject(HttpError(404, "User not found")) <==> v.Accepted? && v.claims !in users)
      && (g.Continue? <==> v.Accepted? && v.claims in users)
      && (g.Continue? ==> g.principal == users[v.claims])
  {
    Resolve(CookieValue(jar, CustomerCookie), users, nowMs, "Invalid or expired token", "User not found")
  }

  /** `isSeller`: the seller session gate, on the `seller_token` cookie. */
  function AuthenticateSeller(jar: Cookies, shops: map<Id, Shop>, nowMs: nat): (g: Gate<Shop>)
    ensures var v := Verify(CookieValue(jar, SellerCookie), SessionSecret, nowMs);
      && (g == Reject(HttpError(401, "Please login to continue")) <==> SellerCookie !in jar || jar[SellerCookie] == Raw(""))
      && (g == Reject(HttpError(401, "Invalid or expired seller token")) <==> v.Refused? && v.error != NotProvided)
      && (g == Reject(HttpError(404, "Seller not found")) <==> v.Accepted? && v.claims !in shops)
      && (g.Continue? <==> v.Accepted? && v.claims in shops)
      && (g.Continue? ==> g.principal == shops[v.claims])
  {
    Resolve(CookieValue(jar, SellerCookie), shops, nowMs, "Invalid or expired seller token", "Seller not found")
  }

  /** `isAdmin(...roles)` applied to `req.user`. Reading `.role` of an
      unset `req.user` throws a TypeError, which Express turns into a 500. */
  function IsAdmin(roles: seq<string>, user: Option<User>): (g: Gate<User>)
    ensures g.Continue? <==> user.Some? && user.value.role in roles
    ensures g.Continue? ==> g.principal == user.value
    ensures user.Some? && user.value.role !in roles ==>
      g == Reject(HttpError(403, user.value.role + " cannot access this resource!"))
    ensures user.None? ==> g.Reject? && g.error.status == 500
  {
    match user
    case None => Reject(HttpError(500, "Cannot read properties of undefined (reading 'role')"))
    case Some(u) =>
      if u.role !in roles then Reject(HttpError(403, u.role + " cannot access this resource!"))
      else Continue(u)
  }

  /** The chain `isAuthenticated, isAdmin("Admin")` that guards seller deletion. */
  function AdminOnly(jar: Cookies, users: map<Id, User>, nowMs: nat): (g: Gate<User>)
    ensures var a := Authenticate(jar, users, nowMs);
      && (a.Reject? ==> g == a)
      && (g.Continue? <==> a.Continue? && a.principal.role == "Admin")
      && (g.Continue? ==> g.principal == a.principal)
      && (a.Continue? && a.principal.role != "Admin" ==>
            g == Reject(HttpError(403, a.principal.role + " cannot access this resource!")))
  {
    match Authenticate(jar, users, nowMs)
    case Reject(e) => Reject(e)
    case Continue(u) =>
      assert u.role in ["Admin"] <==> u.role == ["Admin"][0];
      IsAdmin(["Admin"], Some(u))
  }

  /** Without a `token` cookie the customer gate answers 401 without looking
      at the User collection: any two collections give the same answer. */
  lemma NoCookieNoLookup(jar: Cookies, users1: map<Id, User>, users2: map<Id, User>, nowMs: nat)
    requires CustomerCookie !in jar
    ensures Authenticate(jar, users1, nowMs) == Authenticate(jar, users2, nowMs)
                                             == Reject(HttpError(401, "Please login to continue"))
  {
  }

  /** A tampered token and an expired one get the very same answer. */
  lemma TamperedAndExpiredAlike(users: map<Id, User>, tampered: Token<Id>, expired: Token<Id>,
                                jar1: Cookies, jar2: Cookies, nowMs: nat)
    requires tampered.secret != SessionSecret
    requires expired.expiresAt <= Seconds(nowMs)
    requires CustomerCookie in jar1 && jar1[CustomerCookie] == Signed(tampered)
    requires CustomerCookie in jar2 && jar2[CustomerCookie] == Signed(expired)
    ensures Authenticate(jar1, users, nowMs) == Authenticate(jar2, users, nowMs)
                                             == Reject(HttpError(401, "Invalid or expired token"))
  {
  }

  /** Each gate reads its own cookie only: whatever the request carries under
      the other name leaves the decision unchanged. */
  lemma GatesReadOwnCookie(jar: Cookies, v: Credential<Id>, users: map<Id, User>,
                           shops: map<Id, Shop>, nowMs: nat)
    ensures Authenticate(jar[SellerCookie := v], users, nowMs) == Authenticate(jar, users, nowMs)
    ensures AuthenticateSeller(jar[CustomerCookie := v], shops, nowMs) == AuthenticateSeller(jar, shops, nowMs)
  {
    assert CookieValue(jar[SellerCookie := v], CustomerCookie) == CookieValue(jar, CustomerCookie);
    assert CookieValue(jar[CustomerCookie := v], SellerCookie) == CookieValue(jar, SellerCookie);
  }

  /** A request that carries only a seller session is unauthenticated for a
      customer route, and one carrying only a customer session for a seller
      route. */
  lemma NoCrossKindSession(t: Token<Id>, users: map<Id, User>, shops: map<Id, Shop>, nowMs: nat)
    ensures Authenticate(map[SellerCookie := Signed(t)], users, nowMs)
         == Reject(HttpError(401, "Please login to continue"))
    ensures AuthenticateSeller(map[CustomerCookie := Signed(t)], shops, nowMs)
         == Reject(HttpError(401, "Please login to continue"))
  {
  }

  /** Both session gates verify with the same secret, so the cross-kind
      separation rests on the cookie names alone: a seller's session token
      moved into the `token` cookie passes verification at the customer gate
      and is then looked up among the customers. */
  lemma SharedSessionSecret(t: Token<Id>, users: map<Id, User>, shops: map<Id, Shop>, nowMs: nat)
    requires AuthenticateSeller(map[SellerCookie := Signed(t)], shops, nowMs).Continue?
    ensures Authenticate(map[CustomerCookie := Signed(t)], users, nowMs)
         == if t.claims in users then Continue(users[t.claims]) else Reject(HttpError(404, "User not found"))
  {
  }

  /** The admin gate admits exactly the roles listed, compared as whole
      strings; "admin" is not "Admin". */
  lemma AdminRoleExact(u: User)
    ensures IsAdmin(["Admin"], Some(u)).Continue? <==> u.role == "Admin"
    ensures u.role == DefaultRole ==>
      IsAdmin(["Admin"], Some(u)) == Reject(HttpError(403, DefaultRole + " cannot access this resource!"))
  {
    assert u.role in ["Admin"] <==> u.role == ["Admin"][0];
  }

  /** The request object the middleware sees. The gates assign `req.user`
      and `req.seller`; the cookies are read-only. */
  class Request {
    const cookies: Cookies
    var user: Option<User>
    var seller: Option<Shop>

    constructor (cookies: Cookies)
      ensures this.cookies == cookies && user == None && seller == None
    {
      this.cookies := cookies;
      user := None;
      seller := None;
    }

    /** `isAuthenticated`. `req.user` is assigned the lookup's result before
        it is tested, so a 404 leaves it null; the 401 paths leave it alone. */
    method IsAuthenticated(users: map<Id, User>, nowMs: nat) returns (g: Gate<User>)
      modifies this`user
      ensures g == Authenticate(cookies, users, nowMs)
      ensures g.Continue? ==> user == Some(g.principal)
      ensures g.Reject? && g.error.status == 404 ==> user == None
      ensures g.Reject? && g.error.status == 401 ==> user == old(user)
    {
      var token := CookieValue(cookies, CustomerCookie);
      if !Present(token) {
        return Reject(HttpError(401, "Please login to continue"));
      }
      var decoded := Verify(token, SessionSecret, nowMs);
      if decoded.Refused? {
        return Reject(HttpError(401, "Invalid or expired token"));
      }
      user := if decoded.claims in users then Some(users[decoded.claims]) else None;
      if user.None? {
        return Reject(HttpError(404, "User not found"));
      }
      g := Continue(user.value);
    }

    /** `isSeller`: the same ladder on `seller_token`, assigning `req.seller`
        and never `req.user`. */
    method IsSeller(shops: map<Id, Shop>, nowMs: nat) returns (g: Gate<Shop>)
      modifies this`seller
      ensures g == AuthenticateSeller(cookies, shops, nowMs)
      ensures g.Continue? ==> seller == Some(g.principal)
      ensures g.Reject? && g.error.status == 404 ==> seller == None
      ensures g.Reject? && g.error.status == 401 ==> seller == old(seller)
    {
      var token := CookieValue(cookies, SellerCookie);
      if !Present(token) {
        return Reject(HttpError(401, "Please login to continue"));
      }
      var decoded := Verify(token, SessionSecret, nowMs);
      if decoded.Refused? {
        return Reject(HttpError(401, "Invalid or expired seller token"));
      }
      seller := if decoded.claims in shops then Some(shops[decoded.claims]) else None;
      if seller.None? {
        return Reject(HttpError(404, "Seller not found"));
      }
      g := Continue(seller.value);
    }
  }
}
