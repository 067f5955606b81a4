/**
 * The VTN's authorisation vocabulary: the roles a token grants, the claims
 * it carries, the questions asked of them, and the outcomes of the request
 * extractors that guard the handlers.
 */
module Jwt {
  import opened Wrappers
  import opened Ids
  import AppErrors

  /** A role granted by a token. */
  datatype AuthRole =
    | UserManager
    | VenManager
    | Business(businessId: string)
    | AnyBusiness
    | VEN(venId: VenId)

  predicate IsBusinessRole(r: AuthRole)
  {
    r.Business? || r.AnyBusiness?
  }

  predicate IsVenRole(r: AuthRole)
  {
    r.VEN?
  }

  predicate IsUserManagerRole(r: AuthRole)
  {
    r.UserManager?
  }

  predicate IsVenManagerRole(r: AuthRole)
  {
    r.VenManager?
  }

  /** Every role satisfies exactly one of the four role predicates. */
  lemma RolePredicatesPartition(r: AuthRole)
    ensures IsBusinessRole(r) || IsVenRole(r) || IsUserManagerRole(r) || IsVenManagerRole(r)
    ensures IsBusinessRole(r) ==> !IsVenRole(r) && !IsUserManagerRole(r) && !IsVenManagerRole(r)
    ensures IsVenRole(r) ==> !IsUserManagerRole(r) && !IsVenManagerRole(r)
    ensures IsUserManagerRole(r) ==> !IsVenManagerRole(r)
  {
  }

  /** The validated content of a token; `exp` and `nbf` are checked by the token library. */
  datatype Claims = Claims(exp: nat, nbf: nat, sub: string, roles: seq<AuthRole>)

  /** `iter().any(p)` over the roles. */
  function HasRole(roles: seq<AuthRole>, p: AuthRole -> bool): (b: bool)
    ensures b <==> exists i :: 0 <= i < |roles| && p(roles[i])
  {
    if roles == [] then false
    else
      assert forall i :: 1 <= i < |roles| ==> roles[1..][i - 1] == roles[i];
      p(roles[0]) || HasRole(roles[1..], p)
  }

  predicate IsVen(c: Claims)
  {
    HasRole(c.roles, IsVenRole)
  }

  predicate IsBusiness(c: Claims)
  {
    HasRole(c.roles, IsBusinessRole)
  }

  predicate IsUserManager(c: Claims)
  {
    HasRole(c.roles, IsUserManagerRole)
  }

  predicate IsVenManager(c: Claims)
  {
    HasRole(c.roles, IsVenManagerRole)
  }

  /** `ven_ids`: the id of every VEN role, in role order, duplicates kept. */
  function VenIds(roles: seq<AuthRole>): (ids: seq<VenId>)
    ensures |ids| <= |roles|
    ensures forall v :: v in ids <==> VEN(v) in roles
  {
    if roles == [] then []
    else
      var rest := VenIds(roles[1..]);
      assert roles == [roles[0]] + roles[1..];
      if roles[0].VEN? then [roles[0].venId] + rest else rest
  }

  /** `ven_ids` distributes over concatenation, so it keeps the role order. */
  lemma {:induction false} VenIdsAppend(a: seq<AuthRole>, b: seq<AuthRole>)
    ensures VenIds(a + b) == VenIds(a) + VenIds(b)
    decreases |a|
  {
    if a == [] {
      assert a + b == b;
    } else {
      assert (a + b)[1..] == a[1..] + b;
      VenIdsAppend(a[1..], b);
    }
  }

  /** A single role contributes its id when it is a VEN role, and nothing otherwise. */
  lemma VenIdsSingle(r: AuthRole)
    ensures VenIds([r]) == (if r.VEN? then [r.venId] else [])
  {
    assert [r][1..] == [];
  }

  /** `ven_ids_string`: the same list, each id rendered as text. */
  function VenIdsString(roles: seq<AuthRole>): (ss: seq<string>)
    ensures |ss| == |VenIds(roles)|
    ensures forall i :: 0 <= i < |ss| ==> ss[i] == VenIdAsStr(VenIds(roles)[i])
  {
    if roles == [] then []
    else
      var rest := VenIdsString(roles[1..]);
      if roles[0].VEN? then [VenIdAsStr(roles[0].venId)] + rest else rest
  }

  /** A claim set is a VEN's exactly when it yields some VEN id. */
  lemma IsVenIffVenIds(c: Claims)
    ensures IsVen(c) <==> VenIds(c.roles) != []
  {
    if IsVen(c) {
      var i :| 0 <= i < |c.roles| && IsVenRole(c.roles[i]);
      assert c.roles[i].venId in VenIds(c.roles);
    }
    if VenIds(c.roles) != [] {
      var v := VenIds(c.roles)[0];
      var i :| 0 <= i < |c.roles| && c.roles[i] == VEN(v);
      assert IsVenRole(c.roles[i]);
    }
  }

  /** The businesses a user may act for. */
  datatype BusinessIds = Specific(ids: seq<string>) | Any

  /** The ids of the `Business` roles, in role order. */
  function BusinessIdList(roles: seq<AuthRole>): (ids: seq<string>)
    ensures forall b :: b in ids <==> Business(b) in roles
  {
    if roles == [] then []
    else
      var rest := BusinessIdList(roles[1..]);
      assert roles == [roles[0]] + roles[1..];
      if roles[0].Business? then [roles[0].businessId] + rest else rest
  }

  lemma {:induction false} BusinessIdListAppend(a: seq<AuthRole>, b: seq<AuthRole>)
    ensures BusinessIdList(a + b) == BusinessIdList(a) + BusinessIdList(b)
    decreases |a|
  {
    if a == [] {
      assert a + b == b;
    } else {
      assert (a + b)[1..] == a[1..] + b;
      BusinessIdListAppend(a[1..], b);
    }
  }

  /**
   * `business_ids`: `Any` as soon as an `AnyBusiness` role is met, wherever
   * it sits among the `Business` roles; otherwise the ids of all `Business`
   * roles in order, possibly none.
   */
  method BusinessIdsOf(c: Claims) returns (r: BusinessIds)
    ensures r.Any? <==> AnyBusiness in c.roles
    ensures r.Specific? ==> r.ids == BusinessIdList(c.roles)
  {
    var ids: seq<string> := [];
    var i := 0;
    while i < |c.roles|
      invariant 0 <= i <= |c.roles|
      invariant AnyBusiness !in c.roles[..i]
      invariant ids == BusinessIdList(c.roles[..i])
    {
      var role := c.roles[i];
      BusinessIdListAppend(c.roles[..i], [role]);
      assert c.roles[..i + 1] == c.roles[..i] + [role];
      assert [role][1..] == [];
      match role {
        case Business(id) =>
          ids := ids + [id];
        case AnyBusiness =>
          return Any;
        case _ =>
      }
      i := i + 1;
    }
    assert c.roles[..i] == c.roles;
    return Specific(ids);
  }

  /** The fixed texts of the extractors' rejections. */
  const MissingBearerMessage: string := "Authorization via Bearer token in Authorization header required"
  const InvalidTokenMessage: string := "Invalid authentication token provided"
  const MissingRoleMessage: string := "User does not have the required role"

  /**
   * The `User` extractor. `bearer` is the token of a well-formed
   * `Authorization: Bearer` header, if there is one; `validate` stands for
   * the token library's decoding and validation.
   */
  function ExtractUser(bearer: Option<string>, validate: string -> Option<Claims>): (r: Result<Claims, AppErrors.AppError>)
    ensures r.Ok? <==> bearer.Some? && validate(bearer.value).Some?
    ensures r.Ok? ==> r.value == validate(bearer.value).value
    ensures bearer.None? ==> r == Err(AppErrors.Auth(MissingBearerMessage))
    ensures bearer.Some? && validate(bearer.value).None? ==> r == Err(AppErrors.Forbidden(InvalidTokenMessage))
  {
    match bearer
    case None => Err(AppErrors.Auth(MissingBearerMessage))
    case Some(token) =>
      match validate(token)
      case None => Err(AppErrors.Forbidden(InvalidTokenMessage))
      case Some(claims) => Ok(claims)
  }

  /** The role-checking extractors built on `User`. */
  datatype Guard = BusinessUser | VenUser | UserManagerUser | VenManagerUser

  predicate Admits(g: Guard, c: Claims)
  {
    match g
    case BusinessUser => IsBusiness(c)
    case VenUser => IsVen(c)
    case UserManagerUser => IsUserManager(c)
    case VenManagerUser => IsVenManager(c)
  }

  /**
   * A role-checking extractor: the `User` rejection passes through; a user
   * without the role is refused, as `Forbidden` by three of the guards but
   * as `Auth` by the VEN-manager guard.
   */
  function ExtractWithRole(g: Guard, bearer: Option<string>, validate: string -> Option<Claims>): (r: Result<Claims, AppErrors.AppError>)
    ensures r.Ok? <==> ExtractUser(bearer, validate).Ok? && Admits(g, ExtractUser(bearer, validate).value)
    ensures r.Ok? ==> r.value == ExtractUser(bearer, validate).value
    ensures ExtractUser(bearer, validate).Err? ==> r == ExtractUser(bearer, validate)
    ensures ExtractUser(bearer, validate).Ok? && !Admits(g, ExtractUser(bearer, validate).value) ==>
      r == Err(if g == VenManagerUser then AppErrors.Auth(MissingRoleMessage) else AppErrors.Forbidden(MissingRoleMessage))
  {
    match ExtractUser(bearer, validate)
    case Err(e) => Err(e)
    case Ok(c) =>
      if Admits(g, c) then Ok(c)
      else if g == VenManagerUser then Err(AppErrors.Auth(MissingRoleMessage))
      else Err(AppErrors.Forbidden(MissingRoleMessage))
  }

  /**
   * The status a client sees when a guard refuses a valid token: 403 from
   * three guards, 401 from the VEN-manager guard, the same 401 a missing
   * header gets.
   */
  lemma RoleRefusalStatus(g: Guard, token: string, validate: string -> Option<Claims>)
    requires validate(token).Some? && !Admits(g, validate(token).value)
    ensures var r := ExtractWithRole(g, Some(token), validate);
      r.Err? && AppErrors.StatusOf(r.error) == (if g == VenManagerUser then 401 else 403)
    ensures AppErrors.StatusOf(ExtractWithRole(g, None, validate).error) == 401
  {
  }
}
