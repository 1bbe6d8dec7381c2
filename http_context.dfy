/** The parts of an ASP.NET Core request the enrichers read: the signed-in
    principal's identity and claims, the remote address and the User-Agent header. */
module Http {
  import opened Common

  datatype Claim = Claim(claimType: string, value: string)

  /** ClaimsPrincipal.Identity. */
  datatype Identity = Identity(isAuthenticated: bool, name: Option<string>)

  /** HttpContext.User: the identity may be missing; the claims are in enumeration order. */
  datatype Principal = Principal(identity: Option<Identity>, claims: seq<Claim>)

  /** userAgent holds the header's values (StringValues), empty when the header is absent. */
  datatype HttpContext = HttpContext(user: Principal, remoteIpAddress: Option<string>, userAgent: seq<string>)
}
