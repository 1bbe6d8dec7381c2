/** AddCustomContextDetails: the UserInfo the HTTP-context enricher attaches
    to every event — user name, the `sub` claim, and the remaining claims
    grouped by type. */
module ContextEnrichment {
  import opened Common
  import opened Http

  /** Claim types left out of UserClaims. */
  const ExcludedClaimTypes: seq<string> := ["nbf", "exp", "auth_time", "amr", "sub"]
  const UserIdClaimType: string := "sub"

  /** FirstOrDefault(a => a.Type == claimType)?.Value */
  function FirstValueOf(claims: seq<Claim>, claimType: string): (r: Option<string>)
    ensures r.None? <==> forall k :: 0 <= k < |claims| ==> claims[k].claimType != claimType
    ensures r.Some? ==> exists k :: 0 <= k < |claims| && claims[k] == Claim(claimType, r.value)
                                   && forall j :: 0 <= j < k ==> claims[j].claimType != claimType
    decreases |claims|
  {
    if |claims| == 0 then None
    else if claims[0].claimType == claimType then Some(claims[0].value)
    else
      var r := FirstValueOf(claims[1..], claimType);
      assert forall k :: 0 <= k < |claims| - 1 ==> claims[1..][k] == claims[k + 1];
      if r.Some? then
        var k :| 0 <= k < |claims[1..]| && claims[1..][k] == Claim(claimType, r.value)
                 && forall j :: 0 <= j < k ==> claims[1..][j].claimType != claimType;
        assert claims[k + 1] == Claim(claimType, r.value);
        r
      else r
  }

  /** Where(a => a.Type == claimType).Select(c => c.Value).ToList() */
  function ValuesOf(claims: seq<Claim>, claimType: string): (r: seq<string>)
    ensures |r| <= |claims|
    ensures forall v :: v in r ==> Claim(claimType, v) in claims
    decreases |claims|
  {
    if |claims| == 0 then []
    else
      assert forall c :: c in claims[1..] ==> c in claims;
      (if claims[0].claimType == claimType then [claims[0].value] else []) + ValuesOf(claims[1..], claimType)
  }

  /** Values are collected in claim order: the values of a concatenation are
      the values of each part, one after the other. */
  lemma {:induction false} ValuesOfAppend(a: seq<Claim>, b: seq<Claim>, claimType: string)
    ensures ValuesOf(a + b, claimType) == ValuesOf(a, claimType) + ValuesOf(b, claimType)
    decreases |a|
  {
    if |a| > 0 {
      assert (a + b)[0] == a[0];
      assert (a + b)[1..] == a[1..] + b;
      ValuesOfAppend(a[1..], b, claimType);
    } else {
      assert a + b == b;
    }
  }

  /** Duplicate types are aggregated: every claim of the type contributes its value. */
  lemma {:induction false} ValuesOfCollectsEvery(claims: seq<Claim>, claimType: string)
    ensures forall k :: 0 <= k < |claims| && claims[k].claimType == claimType ==>
      claims[k].value in ValuesOf(claims, claimType)
    decreases |claims|
  {
    if |claims| > 0 {
      ValuesOfCollectsEvery(claims[1..], claimType);
      forall k | 0 <= k < |claims| && claims[k].claimType == claimType
        ensures claims[k].value in ValuesOf(claims, claimType)
      {
        if k > 0 {
          assert claims[1..][k - 1] == claims[k];
        }
      }
    }
  }

  /** UserId is the first of the values UserClaims would list for `sub`. */
  lemma {:induction false} FirstValueIsFirstOfValues(claims: seq<Claim>, claimType: string)
    ensures FirstValueOf(claims, claimType)
         == if |ValuesOf(claims, claimType)| == 0 then None else Some(ValuesOf(claims, claimType)[0])
    decreases |claims|
  {
    if |claims| > 0 && claims[0].claimType != claimType {
      FirstValueIsFirstOfValues(claims[1..], claimType);
    }
  }

  /** Where(a => excluded.All(ex => ex != a.Type)).Select(a => a.Type) */
  function IncludedTypes(claims: seq<Claim>): (r: seq<string>)
    ensures forall t :: t in r <==>
      t !in ExcludedClaimTypes && exists k :: 0 <= k < |claims| && claims[k].claimType == t
    decreases |claims|
  {
    if |claims| == 0 then []
    else
      var rest := IncludedTypes(claims[1..]);
      assert forall k :: 0 <= k < |claims| - 1 ==> claims[1..][k] == claims[k + 1];
      (if claims[0].claimType in ExcludedClaimTypes then [] else [claims[0].claimType]) + rest
  }

  /** Enumerable.Distinct: the first occurrence of each element, in order. */
  function Distinct(s: seq<string>): (r: seq<string>)
    ensures forall x :: x in r <==> x in s
    ensures forall i, j :: 0 <= i < j < |r| ==> r[i] != r[j]
    decreases |s|
  {
    if |s| == 0 then []
    else
      var init := s[..|s| - 1];
      var last := s[|s| - 1];
      assert s == init + [last];
      Distinct(init) + (if last in init then [] else [last])
  }

  /** The enricher's UserInfo. */
  datatype UserInfo = UserInfo(userName: Option<string>, userId: Option<string>, userClaims: map<string, seq<string>>)

  /** AddCustomContextDetails: null without an authenticated identity;
      otherwise UserClaims maps each non-excluded claim type to all its values. */
  method AddCustomContextDetails(context: Option<HttpContext>) returns (r: Option<UserInfo>)
    ensures r.None? <==>
      context.None? || context.value.user.identity.None? || !context.value.user.identity.value.isAuthenticated
    ensures r.Some? ==>
      && r.value.userName == context.value.user.identity.value.name
      && r.value.userId == FirstValueOf(context.value.user.claims, UserIdClaimType)
      && (forall t :: t in r.value.userClaims <==>
            t !in ExcludedClaimTypes
            && exists k :: 0 <= k < |context.value.user.claims| && context.value.user.claims[k].claimType == t)
      && (forall t :: t in r.value.userClaims ==> r.value.userClaims[t] == ValuesOf(context.value.user.claims, t))
  {
    if context.None? || context.value.user.identity.None? || !context.value.user.identity.value.isAuthenticated {
      return None;
    }
    var user := context.value.user.identity.value;
    var claims := context.value.user.claims;
    var userId := FirstValueOf(claims, UserIdClaimType);
    var types := Distinct(IncludedTypes(claims));
    var userClaims: map<string, seq<string>> := map[];
    var i := 0;
    while i < |types|
      invariant 0 <= i <= |types|
      invariant forall t :: t in userClaims <==> t in types[..i]
      invariant forall t :: t in userClaims ==> userClaims[t] == ValuesOf(claims, t)
    {
      assert types[..i + 1] == types[..i] + [types[i]];
      userClaims := userClaims[types[i] := ValuesOf(claims, types[i])];
      i := i + 1;
    }
    assert types[..|types|] == types;
    r := Some(UserInfo(user.name, userId, userClaims));
  }
}
