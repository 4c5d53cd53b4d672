/// `sendToken` of backend/utils/jwtToken.js: the response that opens a
/// customer session after activation or login. It mints the session token,
/// sets it as the `token` cookie for 90 days (httpOnly, `sameSite: "none"`,
/// secure) and answers with the status asked for, `success: true`, a public
/// view of the customer that leaves the password out, and the token again.
module Session {
  import opened Entities
  import opened Jwt
  import opened Http
  import opened Auth

  /** `90 * 24 * 60 * 60 * 1000`: the cookie's lifetime in milliseconds. */
  const NinetyDaysMs: nat := 90 * 24 * 60 * 60 * 1000

  /** The `user` object of the response body. */
  datatype PublicUser = PublicUser(id: Id, name: string, email: string, role: string)

  datatype SessionBody = SessionBody(success: bool, message: string, user: PublicUser, token: Token<Id>)

  datatype SessionResponse = SessionResponse(status: nat, cookie: SetCookie, body: SessionBody)

  /** `record.getJwtToken()`, a method of the User and Shop schemas (not part
      of this model): it signs the record's id with `JWT_SECRET_KEY`, the key
      both session gates verify with before they read `decoded.id`; its
      lifetime is the configuration's `ttl` seconds. */
  function GetJwtToken(id: Id, nowMs: nat, ttl: nat): Token<Id> {
    Sign(id, SessionSecret, nowMs, ttl)
  }

  /** `sendToken(user, statusCode, res)` at time nowMs. */
  function SendToken(user: User, statusCode: nat, nowMs: nat, ttl: nat): (r: SessionResponse)
    ensures r.status == statusCode
    ensures r.cookie.name == CustomerCookie && r.cookie.value == Signed(r.body.token)
    ensures r.cookie.options == CookieOptions(nowMs + NinetyDaysMs, true, "none", true)
    ensures r.body.success
    ensures r.body.user == PublicUser(user.id, user.name, user.email, user.role)
    ensures r.body.token.claims == user.id && r.body.token.secret == SessionSecret
  {
    var token := GetJwtToken(user.id, nowMs, ttl);
    SessionResponse(
      statusCode,
      SetCookie(CustomerCookie, Signed(token), CookieOptions(nowMs + NinetyDaysMs, true, "none", true)),
      SessionBody(true, "Token generated successfully",
                  PublicUser(user.id, user.name, user.email, user.role), token))
  }

  /** The response does not depend on the password, nor on any field other
      than id, name, email and role: two records that agree on those four get
      the same response. */
  lemma ResponseHidesPrivateFields(u: User, v: User, statusCode: nat, nowMs: nat, ttl: nat)
    requires u.id == v.id && u.name == v.name && u.email == v.email && u.role == v.role
    ensures SendToken(u, statusCode, nowMs, ttl) == SendToken(v, statusCode, nowMs, ttl)
  {
  }

  /** The session the response opens is one the customer gate accepts: once
      the browser has taken in the cookie, every request it sends while the
      token is alive is admitted as the stored customer with that id. */
  lemma SessionAdmits(users: map<Id, User>, u: User, jar: Cookies, statusCode: nat,
                      issuedMs: nat, nowMs: nat, ttl: nat)
    requires u.id in users
    requires Seconds(nowMs) < Seconds(issuedMs) + ttl
    ensures var r := SendToken(u, statusCode, issuedMs, ttl);
      Authenticate(Receive(jar, r.cookie, issuedMs), users, nowMs) == Continue(users[u.id])
  {
    var r := SendToken(u, statusCode, issuedMs, ttl);
    var jar' := Receive(jar, r.cookie, issuedMs);
    assert CookieValue(jar', CustomerCookie) == Signed(GetJwtToken(u.id, issuedMs, ttl));
  }
}
