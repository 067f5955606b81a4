/**
 * Which VENs a user may see: the permission value derived from a token's
 * claims, and the access check of the single-VEN read endpoint.
 */
module Permissions {
  import opened Wrappers
  import opened Ids
  import Jwt
  import AppErrors

  /** Every VEN, or only the listed ones. */
  datatype VenPermissions = AllAllowed | Specific(ids: seq<VenId>)

  /** `as_value`: no restriction, or the permitted ids as text in the same order. */
  function AsValue(p: VenPermissions): (r: Option<seq<string>>)
    ensures r.None? <==> p.AllAllowed?
    ensures r.Some? ==> |r.value| == |p.ids| && forall i :: 0 <= i < |p.ids| ==> r.value[i] == VenIdAsStr(p.ids[i])
  {
    match p
    case AllAllowed => None
    case Specific(ids) => Some(seq(|ids|, i requires 0 <= i < |ids| => VenIdAsStr(ids[i])))
  }

  const NotAuthorizedForVensMessage: string := "User not authorized to access this vens"

  /**
   * `TryFrom<Claims>`: a VEN manager may see every VEN, even when it also
   * holds VEN roles; a VEN sees its own ids; anyone else is refused.
   */
  function FromClaims(c: Jwt.Claims): (r: Result<VenPermissions, AppErrors.AppError>)
    ensures r.Ok? <==> Jwt.IsVenManager(c) || Jwt.IsVen(c)
    ensures Jwt.IsVenManager(c) ==> r == Ok(AllAllowed)
    ensures !Jwt.IsVenManager(c) && Jwt.IsVen(c) ==> r == Ok(Specific(Jwt.VenIds(c.roles)))
    ensures r.Err? ==> r.error == AppErrors.Forbidden(NotAuthorizedForVensMessage)
  {
    if Jwt.IsVenManager(c) then Ok(AllAllowed)
    else if Jwt.IsVen(c) then Ok(Specific(Jwt.VenIds(c.roles)))
    else Err(AppErrors.Forbidden(NotAuthorizedForVensMessage))
  }

  /** A `Specific` permission derived from claims always names at least one VEN. */
  lemma FromClaimsSpecificNonEmpty(c: Jwt.Claims)
    requires FromClaims(c).Ok? && FromClaims(c).value.Specific?
    ensures FromClaims(c).value.ids != []
  {
    Jwt.IsVenIffVenIds(c);
  }

  /** The permitted ids as text are the claims' `ven_ids_string`. */
  lemma FromClaimsAsValue(c: Jwt.Claims)
    requires FromClaims(c).Ok? && FromClaims(c).value.Specific?
    ensures AsValue(FromClaims(c).value) == Some(Jwt.VenIdsString(c.roles))
  {
    var v := AsValue(FromClaims(c).value).value;
    var w := Jwt.VenIdsString(c.roles);
    assert |v| == |w|;
    assert forall i :: 0 <= i < |v| ==> v[i] == w[i];
    assert v == w;
  }

  const NoAccessToVenMessage: string := "User does not have access to this VEN"
  const NotVenOrManagerMessage: string := "User is not a VEN or VEN Manager"

  /**
   * The access check of the single-VEN `get` handler followed by the
   * permission derivation it hands to the store. A VEN may read only its
   * own ids, and that branch comes first, so a user that is both a VEN and
   * a VEN manager is still refused a foreign id; a non-VEN passes only as a
   * VEN manager.
   */
  function VenGetAccess(c: Jwt.Claims, id: VenId): (r: Result<VenPermissions, AppErrors.AppError>)
    ensures r.Ok? <==> (Jwt.IsVen(c) && id in Jwt.VenIds(c.roles)) || (!Jwt.IsVen(c) && Jwt.IsVenManager(c))
    ensures Jwt.IsVen(c) && id !in Jwt.VenIds(c.roles) ==> r == Err(AppErrors.Forbidden(NoAccessToVenMessage))
    ensures !Jwt.IsVen(c) && !Jwt.IsVenManager(c) ==> r == Err(AppErrors.Forbidden(NotVenOrManagerMessage))
    ensures r.Ok? ==> FromClaims(c) == r
  {
    if Jwt.IsVen(c) && id !in Jwt.VenIds(c.roles) then Err(AppErrors.Forbidden(NoAccessToVenMessage))
    else if !Jwt.IsVen(c) && !Jwt.IsVenManager(c) then Err(AppErrors.Forbidden(NotVenOrManagerMessage))
    else FromClaims(c)
  }

  /**
   * Whoever passes the check reads a VEN their permissions cover: either
   * every VEN, or a list that contains the requested id.
   */
  lemma VenGetAccessCovers(c: Jwt.Claims, id: VenId)
    requires VenGetAccess(c, id).Ok?
    ensures VenGetAccess(c, id).value.AllAllowed? || id in VenGetAccess(c, id).value.ids
  {
  }

  /** A VEN manager that also holds VEN roles is refused a VEN that is not its own. */
  lemma VenBranchFirst(c: Jwt.Claims, own: VenId, other: VenId)
    requires c.roles == [Jwt.VenManager, Jwt.VEN(own)] && other != own
    ensures VenGetAccess(c, other) == Err(AppErrors.Forbidden(NoAccessToVenMessage))
    ensures FromClaims(c) == Ok(AllAllowed)
  {
    assert Jwt.IsVenRole(c.roles[1]);
    assert Jwt.IsVenManagerRole(c.roles[0]);
    assert Jwt.VenIds(c.roles) == [own] by {
      Jwt.VenIdsAppend([Jwt.VenManager], [Jwt.VEN(own)]);
      Jwt.VenIdsSingle(Jwt.VenManager);
      Jwt.VenIdsSingle(Jwt.VEN(own));
      assert [Jwt.VenManager] + [Jwt.VEN(own)] == c.roles;
    }
  }
}
