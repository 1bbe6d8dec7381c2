/** UseSimpleSerilogRequestLogging: the EnrichDiagnosticContext callback that
    adds the client address, the User-Agent header and, for a signed-in user,
    the user name with every claim under a counter-suffixed key. */
module RequestLogging {
  import opened Common
  import opened Http

  /** "{Type} ({i})" */
  function ClaimKey(claimType: string, i: nat): (k: string)
    ensures |k| == |claimType| + 3 + |NatToString(i)|
    ensures k[..|claimType|] == claimType
  {
    claimType + " (" + NatToString(i) + ")"
  }

  /** Where the parenthesised counter sits in a claim key: '(' then the digits then ')'. */
  lemma ClaimKeyLayout(claimType: string, i: nat)
    ensures var k := ClaimKey(claimType, i);
      && k[|k| - 1] == ')'
      && k[|k| - 2 - |NatToString(i)|] == '('
      && (forall q :: |k| - 1 - |NatToString(i)| <= q < |k| - 1 ==> '0' <= k[q] <= '9')
      && k[|claimType| + 2..|k| - 1] == NatToString(i)
  {
    var d := NatToString(i);
    var k := ClaimKey(claimType, i);
    assert k == claimType + " (" + d + ")";
    forall q | |k| - 1 - |d| <= q < |k| - 1 ensures '0' <= k[q] <= '9' {
      assert k[q] == d[q - (|claimType| + 2)];
    }
  }

  /** The counter makes keys unique: no two (type, index) pairs share a key. */
  lemma ClaimKeyInjective(t1: string, i: nat, t2: string, j: nat)
    ensures ClaimKey(t1, i) == ClaimKey(t2, j) ==> t1 == t2 && i == j
  {
    if ClaimKey(t1, i) == ClaimKey(t2, j) {
      var k := ClaimKey(t1, i);
      ClaimKeyLayout(t1, i);
      ClaimKeyLayout(t2, j);
      assert |NatToString(i)| == |NatToString(j)|;
      assert |t1| == |t2|;
      assert t1 == k[..|t1|] == t2;
      assert NatToString(i) == k[|t1| + 2..|k| - 1] == NatToString(j);
      NatToStringInjective(i, j);
    }
  }

  /** What `Claims.ToDictionary(x => $"{x.Type} ({i++})", y => y.Value)` builds:
      one entry per claim, keyed by its type and position. */
  ghost predicate IsNumberedClaims(claims: seq<Claim>, d: map<string, string>) {
    NumberedUpTo(claims, |claims|, d)
  }

  /** The dictionary after the first n claims: one entry per claim before n and no other key. */
  ghost predicate NumberedUpTo(claims: seq<Claim>, n: nat, d: map<string, string>)
    requires n <= |claims|
  {
    && (forall i :: 0 <= i < n ==>
          ClaimKey(claims[i].claimType, i) in d && d[ClaimKey(claims[i].claimType, i)] == claims[i].value)
    && (forall k :: k in d ==> exists i :: 0 <= i < n && k == ClaimKey(claims[i].claimType, i))
  }

  /** The dictionary is determined by the claims. */
  lemma NumberedClaimsDetermined(claims: seq<Claim>, d1: map<string, string>, d2: map<string, string>)
    requires IsNumberedClaims(claims, d1) && IsNumberedClaims(claims, d2)
    ensures d1 == d2
  {
    forall k | k in d1 ensures k in d2 && d1[k] == d2[k] {
      var i :| 0 <= i < |claims| && k == ClaimKey(claims[i].claimType, i);
    }
    forall k | k in d2 ensures k in d1 {
      var i :| 0 <= i < |claims| && k == ClaimKey(claims[i].claimType, i);
    }
  }

  /** The next claim's key is new, and adding it extends the dictionary by that claim. */
  lemma NumberedStep(claims: seq<Claim>, n: nat, d: map<string, string>)
    requires n < |claims| && NumberedUpTo(claims, n, d)
    ensures ClaimKey(claims[n].claimType, n) !in d
    ensures NumberedUpTo(claims, n + 1, d[ClaimKey(claims[n].claimType, n) := claims[n].value])
  {
    var key := ClaimKey(claims[n].claimType, n);
    forall k | k in d ensures k != key {
      var j :| 0 <= j < n && k == ClaimKey(claims[j].claimType, j);
      ClaimKeyInjective(claims[j].claimType, j, claims[n].claimType, n);
    }
  }

  /** ToDictionary over the claims with the running counter. ToDictionary
      throws on a repeated key; the loop shows each key is new when it is
      added, so the dictionary has one entry per claim. */
  method NumberedClaims(claims: seq<Claim>) returns (d: map<string, string>)
    ensures IsNumberedClaims(claims, d)
    ensures |d| == |claims|
  {
    d := map[];
    var i := 0;
    while i < |claims|
      invariant 0 <= i <= |claims|
      invariant |d| == i
      invariant NumberedUpTo(claims, i, d)
    {
      var key := ClaimKey(claims[i].claimType, i);
      NumberedStep(claims, i, d);
      d := d[key := claims[i].value];
      i := i + 1;
    }
  }

  /** The values the callback puts on the diagnostic context. */
  datatype DiagnosticValue =
    | RemoteAddress(address: Option<string>)
    | HeaderValues(values: seq<string>)
    | RequestUserInfo(name: Option<string>, claims: map<string, string>)

  datatype DiagnosticEntry = DiagnosticEntry(value: DiagnosticValue, destructureObjects: bool)

  /** IDiagnosticContext: properties set during the request, attached to its completion event. */
  class DiagnosticContext {
    var properties: map<string, DiagnosticEntry>

    constructor ()
      ensures properties == map[]
    {
      properties := map[];
    }

    method Set(propertyName: string, value: DiagnosticValue, destructureObjects: bool)
      modifies this
      ensures properties == old(properties)[propertyName := DiagnosticEntry(value, destructureObjects)]
    {
      properties := properties[propertyName := DiagnosticEntry(value, destructureObjects)];
    }
  }

  /** The EnrichDiagnosticContext callback. ClientIP and UserAgent are always
      set; reading IsAuthenticated of a missing identity throws; UserInfo is
      set, destructured, only for an authenticated identity. */
  method EnrichDiagnosticContext(diagCtx: DiagnosticContext, httpCtx: HttpContext) returns (outcome: Outcome)
    modifies diagCtx
    ensures outcome.Fail? <==> httpCtx.user.identity.None?
    ensures outcome.Fail? ==> outcome.fault == NullReference
    ensures "ClientIP" in diagCtx.properties
         && diagCtx.properties["ClientIP"] == DiagnosticEntry(RemoteAddress(httpCtx.remoteIpAddress), false)
    ensures "UserAgent" in diagCtx.properties
         && diagCtx.properties["UserAgent"] == DiagnosticEntry(HeaderValues(httpCtx.userAgent), false)
    ensures forall name :: name !in {"ClientIP", "UserAgent", "UserInfo"} ==>
      (name in diagCtx.properties <==> name in old(diagCtx.properties))
      && (name in diagCtx.properties ==> diagCtx.properties[name] == old(diagCtx.properties)[name])
    ensures var signedIn := httpCtx.user.identity.Some? && httpCtx.user.identity.value.isAuthenticated;
      && (!signedIn ==> ("UserInfo" in diagCtx.properties <==> "UserInfo" in old(diagCtx.properties)))
      && (!signedIn && "UserInfo" in old(diagCtx.properties) ==>
            diagCtx.properties["UserInfo"] == old(diagCtx.properties)["UserInfo"])
      && (signedIn ==>
            && "UserInfo" in diagCtx.properties
            && diagCtx.properties["UserInfo"].destructureObjects
            && diagCtx.properties["UserInfo"].value.RequestUserInfo?
            && diagCtx.properties["UserInfo"].value.name == httpCtx.user.identity.value.name
            && IsNumberedClaims(httpCtx.user.claims, diagCtx.properties["UserInfo"].value.claims)
            && |diagCtx.properties["UserInfo"].value.claims| == |httpCtx.user.claims|)
  {
    diagCtx.Set("ClientIP", RemoteAddress(httpCtx.remoteIpAddress), false);
    diagCtx.Set("UserAgent", HeaderValues(httpCtx.userAgent), false);
    if httpCtx.user.identity.None? {
      return Fail(NullReference);
    }
    outcome := Pass;
    if httpCtx.user.identity.value.isAuthenticated {
      var claims := NumberedClaims(httpCtx.user.claims);
      diagCtx.Set("UserInfo", RequestUserInfo(httpCtx.user.identity.value.name, claims), true);
    }
  }
}
