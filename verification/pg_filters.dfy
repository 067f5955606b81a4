/**
 * The filter values the Postgres stores build from a listing query and
 * from a token's claims before they are bound into SQL. Only the building
 * is modelled; the SQL that consumes them is not.
 */
module PgFilters {
  import opened Wrappers
  import opened Ids
  import opened Intervals
  import opened Targets
  import opened Queries
  import Jwt

  /**
   * `PgTargetsFilter`: one target label with exactly one value (the source
   * uses a one-element array, so the value is a single string here).
   */
  datatype PgTargetsFilter = PgTargetsFilter(labelText: string, value: string)

  /** One single-valued entry per value, all under the label's text, in order. */
  function TargetsFilters(l: TargetLabel, values: seq<string>): (fs: seq<PgTargetsFilter>)
    ensures |fs| == |values|
    ensures forall i :: 0 <= i < |fs| ==> fs[i].labelText == AsStr(l) && fs[i].value == values[i]
  {
    seq(|values|, i requires 0 <= i < |values| => PgTargetsFilter(AsStr(l), values[i]))
  }

  /** The entries give back the values they were built from. */
  lemma TargetsFiltersValues(l: TargetLabel, values: seq<string>)
    ensures var fs := TargetsFilters(l, values);
      seq(|fs|, i requires 0 <= i < |fs| => fs[i].value) == values
  {
  }

  /** The program store's filter. */
  datatype ProgramFilter = ProgramFilter(
    venNames: Option<seq<string>>,
    eventNames: Option<seq<string>>,
    programNames: Option<seq<string>>,
    targetType: Option<string>,
    targetValues: Option<seq<string>>,
    skip: I64,
    limit: I64)

  /**
   * `PostgresFilter::from` in the program store: VEN, event and program
   * names get a list of their own; any other label goes to the generic
   * type/values pair.
   */
  function ProgramFilterOf(q: ListQuery): (f: ProgramFilter)
    ensures f.skip == q.skip && f.limit == q.limit
    ensures f.venNames == (if q.targetType == Some(VenName) then q.targetValues else None)
    ensures f.eventNames == (if q.targetType == Some(EventName) then q.targetValues else None)
    ensures f.programNames == (if q.targetType == Some(ProgramName) then q.targetValues else None)
    ensures f.targetType.Some? <==> q.targetType.Some? && q.targetType.value !in {VenName, EventName, ProgramName}
    ensures f.targetType.Some? ==> f.targetType.value == AsStr(q.targetType.value) && f.targetValues == q.targetValues
    ensures f.targetType.None? ==> f.targetValues.None?
  {
    var base := ProgramFilter(None, None, None, None, None, q.skip, q.limit);
    match q.targetType
    case Some(VenName) => base.(venNames := q.targetValues)
    case Some(EventName) => base.(eventNames := q.targetValues)
    case Some(ProgramName) => base.(programNames := q.targetValues)
    case Some(l) => base.(targetType := Some(AsStr(l)), targetValues := q.targetValues)
    case None => base
  }

  /** How many of the four filter groups a program filter populates. */
  function ProgramGroups(f: ProgramFilter): nat
  {
    (if f.venNames.Some? then 1 else 0) + (if f.eventNames.Some? then 1 else 0)
    + (if f.programNames.Some? then 1 else 0) + (if f.targetType.Some? || f.targetValues.Some? then 1 else 0)
  }

  /**
   * At most one group is populated, and for a validated query exactly one
   * is when a target type is given and none otherwise.
   */
  lemma ProgramFilterOneGroup(q: ListQuery)
    ensures ProgramGroups(ProgramFilterOf(q)) <= 1
    ensures TargetPairOk(q.targetType, q.targetValues) ==>
      (ProgramGroups(ProgramFilterOf(q)) == 1 <==> q.targetType.Some?)
  {
  }

  /** The VEN store's filter. */
  datatype VenFilter = VenFilter(
    venNames: Option<seq<string>>,
    resourceNames: Option<seq<string>>,
    targets: seq<PgTargetsFilter>,
    skip: I64,
    limit: I64)

  /**
   * `PostgresFilter::from` in the VEN store: VEN and resource names get a
   * list of their own; any other label becomes one single-valued target
   * entry per value.
   */
  function VenFilterOf(q: ListQuery): (f: VenFilter)
    ensures f.skip == q.skip && f.limit == q.limit
    ensures f.venNames == (if q.targetType == Some(VenName) then q.targetValues else None)
    ensures f.resourceNames == (if q.targetType == Some(ResourceName) then q.targetValues else None)
    ensures f.targets != [] ==> q.targetType.Some? && q.targetType.value !in {VenName, ResourceName}
    ensures q.targetType.Some? && q.targetType.value !in {VenName, ResourceName} ==>
      f.targets == TargetsFilters(q.targetType.value, if q.targetValues.Some? then q.targetValues.value else [])
  {
    var base := VenFilter(None, None, [], q.skip, q.limit);
    match q.targetType
    case Some(VenName) => base.(venNames := q.targetValues)
    case Some(ResourceName) => base.(resourceNames := q.targetValues)
    case Some(l) =>
      if q.targetValues.Some? then base.(targets := TargetsFilters(l, q.targetValues.value)) else base
    case None => base
  }

  /** The resource store's filter. */
  datatype ResourceFilter = ResourceFilter(
    resourceNames: Option<seq<string>>,
    targets: seq<PgTargetsFilter>,
    skip: I64,
    limit: I64)

  /**
   * `PostgresFilter::from` in the resource store: a VEN-name target is
   * treated as a resource-name target; any other label becomes one
   * single-valued entry per value.
   */
  function ResourceFilterOf(q: ListQuery): (f: ResourceFilter)
    ensures f.skip == q.skip && f.limit == q.limit
    ensures f.resourceNames == (if q.targetType in {Some(VenName), Some(ResourceName)} then q.targetValues else None)
    ensures f.targets != [] ==> q.targetType.Some? && q.targetType.value !in {VenName, ResourceName}
    ensures q.targetType.Some? && q.targetType.value !in {VenName, ResourceName} ==>
      f.targets == TargetsFilters(q.targetType.value, if q.targetValues.Some? then q.targetValues.value else [])
  {
    var base := ResourceFilter(None, [], q.skip, q.limit);
    match q.targetType
    case Some(VenName) => base.(resourceNames := q.targetValues)
    case Some(ResourceName) => base.(resourceNames := q.targetValues)
    case Some(l) =>
      if q.targetValues.Some? then base.(targets := TargetsFilters(l, q.targetValues.value)) else base
    case None => base
  }

  /** The resource store cannot filter by VEN: a VEN-name target filters resource names instead. */
  lemma ResourceFilterVenNameIsResourceName(q: ListQuery)
    ensures ResourceFilterOf(q.(targetType := Some(VenName))) == ResourceFilterOf(q.(targetType := Some(ResourceName)))
  {
  }

  /**
   * Apart from the VEN-name case, the VEN and resource stores build the
   * same resource-name list and target entries.
   */
  lemma VenAndResourceFiltersAgree(q: ListQuery)
    requires q.targetType != Some(VenName)
    ensures VenFilterOf(q).resourceNames == ResourceFilterOf(q).resourceNames
    ensures VenFilterOf(q).targets == ResourceFilterOf(q).targets
  {
  }

  /**
   * `PgPermissionFilter::from`: one `VEN_NAME` entry per VEN role, in role
   * order, each carrying that VEN's id.
   */
  function PermissionFilter(c: Jwt.Claims): (fs: seq<PgTargetsFilter>)
    ensures |fs| == |Jwt.VenIds(c.roles)|
    ensures forall i :: 0 <= i < |fs| ==> fs[i] == PgTargetsFilter(AsStr(VenName), VenIdAsStr(Jwt.VenIds(c.roles)[i]))
  {
    var ids := Jwt.VenIds(c.roles);
    seq(|ids|, i requires 0 <= i < |ids| => PgTargetsFilter(AsStr(VenName), VenIdAsStr(ids[i])))
  }

  /**
   * The permission entries' values are the claims' `ven_ids_string`, and
   * there are none exactly when the claims hold no VEN role.
   */
  lemma PermissionFilterValues(c: Jwt.Claims)
    ensures var fs := PermissionFilter(c);
      seq(|fs|, i requires 0 <= i < |fs| => fs[i].value) == Jwt.VenIdsString(c.roles)
    ensures PermissionFilter(c) == [] <==> !Jwt.IsVen(c)
    ensures forall i :: 0 <= i < |PermissionFilter(c)| ==> PermissionFilter(c)[i].labelText == "VEN_NAME"
  {
    Jwt.IsVenIffVenIds(c);
  }
}
