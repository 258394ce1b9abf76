/**
 * The admin back end's authentication middleware (adminAuth.ts). All four
 * guards find the token the same way (a `Bearer ` authorization header
 * first, then the `token` cookie), verify it, and then check the claims
 * their role needs. Signature checking is the oracle `verify`: `None`
 * stands for a token that does not verify or has expired.
 */
module AdminAuth {
  import opened Wrappers
  import opened Text

  const BearerPrefix: string := "Bearer "

  /** The claims the guards read from a verified token; `kind` is the token's `type` claim. */
  datatype Payload = Payload(accessLevel: Option<string>, kind: Option<string>)

  datatype Guard =
    | StateAdmin
    | MunicipalAdmin
    | AgentOnly
    | Multiple(allowed: seq<string>)

  datatype Decision =
    | NoToken                    // 401
    | Forbidden(message: string) // 403
    | Admitted(user: Payload)    // the request goes on with `req.user` set

  /**
   * The token the request carries; "" stands for none. After a `Bearer `
   * prefix it is the text up to the next space (`split(' ')[1]`), so a
   * header with nothing or a second space right after the prefix carries
   * no token even when a cookie is present.
   */
  function ExtractToken(header: Option<string>, cookie: Option<string>): (r: string)
    ensures header.Some? && BearerPrefix <= header.value ==>
      && ' ' !in r
      && BearerPrefix + r <= header.value
      && (|header.value| == |BearerPrefix| + |r| || header.value[|BearerPrefix| + |r|] == ' ')
    ensures !(header.Some? && BearerPrefix <= header.value) ==> r == cookie.GetOr("")
  {
    if header.Some? && BearerPrefix <= header.value then
      var rest := header.value[|BearerPrefix|..];
      var k := IndexOf(rest, ' ');
      var r := if k == -1 then rest else rest[..k];
      assert header.value == BearerPrefix + rest;
      assert BearerPrefix + r == header.value[..|BearerPrefix| + |r|];
      r
    else cookie.GetOr("")
  }

  /** Whether a verified payload has the claims the guard requires. */
  predicate Permits(guard: Guard, p: Payload) {
    match guard
    case StateAdmin => p.accessLevel == Some("DEPT_STATE_ADMIN")
    case MunicipalAdmin => p.accessLevel == Some("DEPT_MUNICIPAL_ADMIN")
    case AgentOnly => p.accessLevel == Some("AGENT") && p.kind == Some("AGENT")
    case Multiple(allowed) => p.accessLevel.Some? && p.accessLevel.value in allowed
  }

  function DenialMessage(guard: Guard): string {
    match guard
    case StateAdmin => "Unauthorized: Not a state admin"
    case MunicipalAdmin => "Unauthorized: Not a municipal admin"
    case AgentOnly => "Unauthorized: Not an agent"
    case Multiple(allowed) => "Unauthorized: Access level not permitted. Required: " + Join(allowed, " or ")
  }

  /** One guard's decision on a request. */
  function Authenticate(guard: Guard, header: Option<string>, cookie: Option<string>,
                        verify: string -> Option<Payload>): (d: Decision)
    ensures d.NoToken? <==> ExtractToken(header, cookie) == ""
    ensures d.Admitted? <==>
      var t := ExtractToken(header, cookie);
      t != "" && verify(t).Some? && Permits(guard, verify(t).value)
    ensures d.Admitted? ==> d.user == verify(ExtractToken(header, cookie)).value
    ensures d.Forbidden? ==> d.message == "Invalid or expired token" || d.message == DenialMessage(guard)
    ensures ExtractToken(header, cookie) != "" && verify(ExtractToken(header, cookie)).None? ==>
      d == Forbidden("Invalid or expired token")
    ensures var t := ExtractToken(header, cookie);
      t != "" && verify(t).Some? && !Permits(guard, verify(t).value) ==> d == Forbidden(DenialMessage(guard))
  {
    var token := ExtractToken(header, cookie);
    if token == "" then NoToken
    else match verify(token)
      case None => Forbidden("Invalid or expired token")
      case Some(p) => if Permits(guard, p) then Admitted(p) else Forbidden(DenialMessage(guard))
  }

  /** A `Bearer ` header decides the token; the cookie is then never read. */
  lemma BearerHeaderHidesCookie(header: string, cookie1: Option<string>, cookie2: Option<string>)
    requires BearerPrefix <= header
    ensures ExtractToken(Some(header), cookie1) == ExtractToken(Some(header), cookie2)
  {
  }

  /** `Bearer ` followed by nothing is refused with 401 although a cookie is present. */
  lemma EmptyBearerIsNoToken(guard: Guard, cookie: Option<string>, verify: string -> Option<Payload>)
    ensures Authenticate(guard, Some(BearerPrefix), cookie, verify) == NoToken
  {
  }

  /** A header without the exact `Bearer ` prefix (e.g. lower-case `bearer `) falls back to the cookie. */
  lemma OtherSchemeUsesCookie(header: string, cookie: string)
    requires !(BearerPrefix <= header)
    ensures ExtractToken(Some(header), Some(cookie)) == cookie
  {
  }

  /** The token is exactly what follows `Bearer ` when that contains no space. */
  lemma BearerTokenRoundTrip(token: string)
    requires ' ' !in token
    ensures ExtractToken(Some(BearerPrefix + token), None) == token
  {
    var h := BearerPrefix + token;
    var r := ExtractToken(Some(h), None);
    assert h[..|BearerPrefix|] == BearerPrefix;
    assert h[|BearerPrefix|..] == token;
  }

  /** A one-element `Multiple` list admits exactly whom the dedicated admin guard admits. */
  lemma MultipleGeneralisesAdminGuards(header: Option<string>, cookie: Option<string>, verify: string -> Option<Payload>)
    ensures Authenticate(Multiple(["DEPT_STATE_ADMIN"]), header, cookie, verify).Admitted?
            <==> Authenticate(StateAdmin, header, cookie, verify).Admitted?
    ensures Authenticate(Multiple(["DEPT_MUNICIPAL_ADMIN"]), header, cookie, verify).Admitted?
            <==> Authenticate(MunicipalAdmin, header, cookie, verify).Admitted?
  {
  }

  /** No payload passes both the state and the municipal admin guard. */
  lemma AdminGuardsAreDisjoint(p: Payload)
    ensures !(Permits(StateAdmin, p) && Permits(MunicipalAdmin, p))
  {
  }

  /** The agent guard is stricter than a `Multiple` guard listing AGENT: it also needs the `type` claim. */
  lemma AgentGuardNeedsTypeClaim(p: Payload)
    ensures Permits(AgentOnly, p) ==> Permits(Multiple(["AGENT"]), p)
    ensures p.accessLevel == Some("AGENT") && p.kind != Some("AGENT") ==>
            Permits(Multiple(["AGENT"]), p) && !Permits(AgentOnly, p)
  {
  }
}
