/// The browser side of the session cookies: the cookies a request carries,
/// the `Set-Cookie` a response sends (Express's `res.cookie(name, value,
/// options)`), and how the browser's store takes it in (section 5.3 of
/// RFC 6265: a cookie whose expiry date is not in the future evicts any
/// cookie of the same name and is not stored).
module Http {
  import opened Entities
  import opened Jwt

  /** The cookies a request carries, by name. */
  type Cookies = map<string, Credential<Id>>

  /** Express cookie options; `expires` is a `Date`, in milliseconds. */
  datatype CookieOptions = CookieOptions(expires: nat, httpOnly: bool, sameSite: string, secure: bool)

  datatype SetCookie = SetCookie(name: string, value: Credential<Id>, options: CookieOptions)

  /** The cookie of that name, or the empty text when the request has none
      (`req.cookies[name]` is then `undefined`). */
  function CookieValue(jar: Cookies, name: string): Credential<Id> {
    if name in jar then jar[name] else Raw("")
  }

  /** The browser's cookies after it receives `sc` at time nowMs. */
  function Receive(jar: Cookies, sc: SetCookie, nowMs: nat): (r: Cookies)
    ensures forall n :: n != sc.name ==> (n in r <==> n in jar)
    ensures forall n :: n != sc.name && n in r ==> r[n] == jar[n]
    ensures sc.name in r <==> nowMs < sc.options.expires
    ensures sc.name in r ==> r[sc.name] == sc.value
  {
    if sc.options.expires <= nowMs then jar - {sc.name} else jar[sc.name := sc.value]
  }

  /** The cookie both logout routes send: `res.cookie(name, null, { expires:
      new Date(Date.now()), httpOnly: true, sameSite: "none", secure: true })`.
      Express serialises the `null` value as the text "j:null". */
  function ClearCookie(name: string, nowMs: nat): SetCookie {
    SetCookie(name, Raw("j:null"), CookieOptions(nowMs, true, "none", true))
  }

  /** What both logout routes answer: the cookie they send and the message. */
  datatype LoggedOut = LoggedOut(cookie: SetCookie, message: string)

  /** A cleared cookie is gone from the browser, and nothing else changes. */
  lemma ClearCookieRemoves(jar: Cookies, name: string, nowMs: nat)
    ensures Receive(jar, ClearCookie(name, nowMs), nowMs) == jar - {name}
  {
  }
}
