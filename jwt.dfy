/// JSON Web Tokens (RFC 7519) as the backend uses them through the
/// `jsonwebtoken` package: `jwt.sign(claims, secret, { expiresIn })` and
/// `jwt.verify(token, secret)`. The signature is abstracted to the secret the
/// token was signed with: a token verifies under a secret exactly when it was
/// signed with it. The expiry is the `exp` claim of section 4.1.4 of RFC 7519,
/// in whole seconds.
module Jwt {
  import opened Entities

  /** The key a token's signature was made with: one of the two secrets of
      the configuration (`ACTIVATION_SECRET` for activation tokens,
      `JWT_SECRET_KEY` for the session tokens of both customers and sellers),
      or any other key. A well-formed token signed with a key the server does
      not hold, or a real token whose payload was edited afterwards, carries
      `OtherKey`: its signature matches neither secret. */
  datatype Secret = ActivationSecret | SessionSecret | OtherKey

  /** A signed token carrying claims of type C. */
  datatype Token<+C> = Token(claims: C, issuedAt: nat, expiresAt: nat, secret: Secret)

  /** What a client presents where a token is expected (a cookie, a body
      field): either text that is not a signed token (the empty text stands
      for a missing value), or a token some key signed. */
  datatype Credential<+C> = Raw(text: string) | Signed(token: Token<C>)

  /** The truthiness test `if (!token)` the handlers apply first. */
  predicate Present<C>(c: Credential<C>) {
    !(c.Raw? && c.text == "")
  }

  /** Why `jwt.verify` throws, in the order it checks: no value; not three
      dot-separated parts; three parts that do not decode to a header and
      a payload; a signature the secret does not produce; an expiry passed. */
  datatype VerifyError = NotProvided | Malformed | Undecodable | BadSignature | Expired

  /** The number of dots in a text: a token has exactly two. */
  function Dots(s: string): nat {
    if s == [] then 0 else (if s[0] == '.' then 1 else 0) + Dots(s[1..])
  }

  datatype Verified<+C> = Accepted(claims: C) | Refused(error: VerifyError)

  /** `Math.floor(Date.now() / 1000)`: token times are in seconds. */
  function Seconds(nowMs: nat): nat {
    nowMs / 1000
  }

  /** `expiresIn: "5m"`. */
  const ActivationTtl: nat := 300

  /** `jwt.sign(claims, secret, { expiresIn: ttl })` at time nowMs. */
  function Sign<C>(claims: C, secret: Secret, nowMs: nat, ttl: nat): Token<C> {
    Token(claims, Seconds(nowMs), Seconds(nowMs) + ttl, secret)
  }

  /** `jwt.verify(c, secret)` at time nowMs: the claims, or why it throws. */
  function Verify<C>(c: Credential<C>, secret: Secret, nowMs: nat): (r: Verified<C>)
    ensures r.Accepted? <==> c.Signed? && c.token.secret == secret && Seconds(nowMs) < c.token.expiresAt
    ensures r.Accepted? ==> r.claims == c.token.claims
    ensures r.Refused? && r.error == NotProvided <==> !Present(c)
    ensures r.Refused? && r.error == Malformed <==> c.Raw? && Present(c) && Dots(c.text) != 2
    ensures r.Refused? && r.error == Undecodable <==> c.Raw? && Dots(c.text) == 2
    ensures r.Refused? && r.error == BadSignature <==> c.Signed? && c.token.secret != secret
  {
    match c
    case Raw(text) =>
      if text == "" then Refused(NotProvided)
      else if Dots(text) != 2 then Refused(Malformed)
      else Refused(Undecodable)
    case Signed(t) =>
      if t.secret != secret then Refused(BadSignature)
      else if t.expiresAt <= Seconds(nowMs) then Refused(Expired)
      else Accepted(t.claims)
  }

  /** The `message` of the error `jwt.verify` throws. */
  function ErrorMessage(e: VerifyError): string {
    match e
    case NotProvided => "jwt must be provided"
    case Malformed => "jwt malformed"
    case Undecodable => "invalid token"
    case BadSignature => "invalid signature"
    case Expired => "jwt expired"
  }

  /** Round trip: claims signed with a secret verify under that secret to
      exactly the same claims until the token's lifetime is over, and are
      refused as expired from then on. */
  lemma SignThenVerify<C>(claims: C, secret: Secret, signedMs: nat, nowMs: nat, ttl: nat)
    ensures Verify(Signed(Sign(claims, secret, signedMs, ttl)), secret, nowMs)
         == if Seconds(nowMs) < Seconds(signedMs) + ttl then Accepted(claims) else Refused(Expired)
  {
  }

  /** A token signed with another key (forged, edited, or meant for the other
      flow) is refused with "invalid signature", whatever its age. */
  lemma ForeignSecretRefused<C>(t: Token<C>, secret: Secret, nowMs: nat)
    requires t.secret != secret
    ensures Verify(Signed(t), secret, nowMs) == Refused(BadSignature)
  {
  }

  /** An expired token is refused whether or not its signature holds. */
  lemma ExpiredRefused<C>(t: Token<C>, secret: Secret, nowMs: nat)
    requires t.expiresAt <= Seconds(nowMs)
    ensures Verify(Signed(t), secret, nowMs).Refused?
    ensures t.secret == secret ==> Verify(Signed(t), secret, nowMs) == Refused(Expired)
  {
  }

  /** A token with a five-minute lifetime signed at signedMs is refused at
      every instant five minutes or more later, and accepted before the
      second in which it was signed has been followed by 300 more. */
  lemma FiveMinuteWindow<C>(claims: C, signedMs: nat, nowMs: nat)
    ensures nowMs >= signedMs + 300 * 1000 ==>
      Verify(Signed(Sign(claims, ActivationSecret, signedMs, ActivationTtl)), ActivationSecret, nowMs)
        == Refused(Expired)
    ensures signedMs <= nowMs < signedMs + 299 * 1000 ==>
      Verify(Signed(Sign(claims, ActivationSecret, signedMs, ActivationTtl)), ActivationSecret, nowMs)
        == Accepted(claims)
  {
    assert Seconds(signedMs + 300 * 1000) == Seconds(signedMs) + 300;
    if nowMs >= signedMs + 300 * 1000 {
      assert Seconds(nowMs) >= Seconds(signedMs + 300 * 1000);
    }
    if signedMs <= nowMs < signedMs + 299 * 1000 {
      assert Seconds(nowMs) <= Seconds(signedMs + 299 * 1000);
      assert Seconds(signedMs + 299 * 1000) == Seconds(signedMs) + 299;
    }
  }
}
