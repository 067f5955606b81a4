/**
 * The query parameters of the VTN's listing endpoints: how a query string
 * is decoded and validated, and the in-memory `matches` filters of the
 * event and report listings.
 */
module Queries {
  import opened Wrappers
  import opened Identifiers
  import opened Ids
  import opened Intervals
  import opened Targets
  import Events
  import Reports
  import AppErrors

  predicate IsI64(x: int)
  {
    I64Min <= x <= I64Max
  }

  predicate IsU32(x: int)
  {
    0 <= x <= U32Max
  }

  /** The default `limit` of every listing, and its largest accepted value. */
  const DefaultLimit: int := 50
  const MaxLimit: int := 50

  /**
   * Why a query string is refused. `Undecodable` is a rejection of the
   * query deserialiser (`AppError::QueryParams`), `Invalid` a failed
   * validation (`AppError::Validation`) listing what the validators found.
   */
  datatype QueryIssue = SkipTooSmall | LimitOutOfRange | TargetPairMismatch
  datatype QueryError = Undecodable | Invalid(issues: seq<QueryIssue>)

  /** The `AppError` a refused query becomes; `text` is the library's rendering of it. */
  function QueryAppError(e: QueryError, text: string): (r: AppErrors.AppError)
    ensures e.Undecodable? ==> r.QueryParams?
    ensures e.Invalid? ==> r.Validation?
    ensures AppErrors.StatusOf(r) == 400
  {
    match e
    case Undecodable => AppErrors.QueryParams(text)
    case Invalid(_) => AppErrors.Validation(text)
  }

  /** The value of a parameter, or its default when it is absent. */
  function OrDefault(o: Option<int>, default: int): (x: int)
    ensures o.None? ==> x == default
    ensures o.Some? ==> x == o.value
  {
    if o.Some? then o.value else default
  }

  /** A query string of the VEN, program or resource listing, with the numbers as written. */
  datatype RawListQuery = RawListQuery(
    targetType: Option<TargetLabel>,
    targetValues: Option<seq<string>>,
    skip: Option<int>,
    limit: Option<int>)

  /** `QueryParams` of the VEN, program and resource listings (the three are identical). */
  datatype ListQuery = ListQuery(
    targetType: Option<TargetLabel>,
    targetValues: Option<seq<string>>,
    skip: I64,
    limit: I64)

  /** `validate_target_type_value_pair`: type and values both set or both unset. */
  predicate TargetPairOk(targetType: Option<TargetLabel>, targetValues: Option<seq<string>>)
  {
    targetType.Some? == targetValues.Some?
  }

  const TargetPairMessage: string := "targetType and targetValues query parameter must either both be set or not set at the same time."

  /** The range checks on the fields: `skip >= 0` and `1 <= limit <= 50`. */
  function ListFieldIssues(q: ListQuery): (issues: seq<QueryIssue>)
    ensures SkipTooSmall in issues <==> q.skip < 0
    ensures LimitOutOfRange in issues <==> !(1 <= q.limit <= MaxLimit)
    ensures TargetPairMismatch !in issues
  {
    (if q.skip < 0 then [SkipTooSmall] else [])
    + (if 1 <= q.limit <= MaxLimit then [] else [LimitOutOfRange])
  }

  /**
   * Validation of a decoded query. The schema-level pair check runs only
   * when the field checks pass, as the validator does by default.
   */
  function ValidateListQuery(q: ListQuery): (issues: seq<QueryIssue>)
    ensures issues == [] <==> q.skip >= 0 && 1 <= q.limit <= MaxLimit && TargetPairOk(q.targetType, q.targetValues)
    ensures SkipTooSmall in issues <==> q.skip < 0
    ensures LimitOutOfRange in issues <==> !(1 <= q.limit <= MaxLimit)
    ensures TargetPairMismatch in issues <==> q.skip >= 0 && 1 <= q.limit <= MaxLimit && !TargetPairOk(q.targetType, q.targetValues)
  {
    var fieldIssues := ListFieldIssues(q);
    if fieldIssues != [] then fieldIssues
    else if TargetPairOk(q.targetType, q.targetValues) then []
    else [TargetPairMismatch]
  }

  /**
   * What the `ValidatedQuery` extractor makes of a listing query string:
   * numbers outside `i64` are undecodable, absent numbers take their
   * defaults (skip 0, limit 50), then the validators run.
   */
  function ParseListQuery(raw: RawListQuery): (r: Result<ListQuery, QueryError>)
    ensures r.Ok? <==>
      && (raw.skip.None? || 0 <= raw.skip.value <= I64Max)
      && (raw.limit.None? || 1 <= raw.limit.value <= MaxLimit)
      && TargetPairOk(raw.targetType, raw.targetValues)
    ensures r.Err? && r.error.Undecodable? <==>
      (raw.skip.Some? && !IsI64(raw.skip.value)) || (raw.limit.Some? && !IsI64(raw.limit.value))
    ensures r.Ok? ==> r.value == ListQuery(raw.targetType, raw.targetValues, OrDefault(raw.skip, 0), OrDefault(raw.limit, DefaultLimit))
  {
    if (raw.skip.Some? && !IsI64(raw.skip.value)) || (raw.limit.Some? && !IsI64(raw.limit.value)) then Err(Undecodable)
    else
      var q := ListQuery(raw.targetType, raw.targetValues, OrDefault(raw.skip, 0), OrDefault(raw.limit, DefaultLimit));
      var issues := ValidateListQuery(q);
      if issues == [] then Ok(q) else Err(Invalid(issues))
  }

  /** An empty query string gives skip 0, limit 50 and no target filter. */
  lemma ListQueryDefaults()
    ensures ParseListQuery(RawListQuery(None, None, None, None)) == Ok(ListQuery(None, None, 0, DefaultLimit))
  {
  }

  /**
   * The listing cases the program endpoint's tests exercise: skip -1, limit
   * 0 and limit -1 are refused, a target type without values is refused,
   * skip 0 and limit 2 are accepted; every refusal becomes a 400.
   */
  lemma ListQueryExamples(l: TargetLabel, text: string)
    ensures ParseListQuery(RawListQuery(None, None, Some(-1), None)) == Err(Invalid([SkipTooSmall]))
    ensures ParseListQuery(RawListQuery(None, None, None, Some(0))) == Err(Invalid([LimitOutOfRange]))
    ensures ParseListQuery(RawListQuery(None, None, None, Some(-1))) == Err(Invalid([LimitOutOfRange]))
    ensures ParseListQuery(RawListQuery(Some(l), None, None, None)) == Err(Invalid([TargetPairMismatch]))
    ensures ParseListQuery(RawListQuery(None, None, Some(0), None)).Ok?
    ensures ParseListQuery(RawListQuery(None, None, None, Some(2))).Ok?
    ensures forall e: QueryError :: AppErrors.StatusOf(QueryAppError(e, text)) == 400
  {
    assert !TargetPairOk(Some(l), None);
    assert ListFieldIssues(ListQuery(None, None, -1, DefaultLimit)) == [SkipTooSmall];
    assert ListFieldIssues(ListQuery(None, None, 0, 0)) == [LimitOutOfRange];
    assert ListFieldIssues(ListQuery(None, None, 0, -1)) == [LimitOutOfRange];
  }

  /** A query string of the event listing. */
  datatype RawEventQuery = RawEventQuery(
    programId: Option<string>,
    targetType: Option<TargetLabel>,
    targetValues: Option<seq<string>>,
    skip: Option<int>,
    limit: Option<int>)

  /** `QueryParams` of the event listing: unsigned numbers and no pair check. */
  datatype EventQuery = EventQuery(
    programId: Option<ProgramId>,
    targetType: Option<TargetLabel>,
    targetValues: Option<seq<string>>,
    skip: U32,
    limit: U32)

  /**
   * The event listing's query: `programID` must be an identifier and the
   * numbers must be `u32`, or the string is undecodable; `limit` has no
   * lower bound but at most 50.
   */
  function ParseEventQuery(raw: RawEventQuery): (r: Result<EventQuery, QueryError>)
    ensures r.Ok? <==>
      && (raw.programId.None? || IsIdentifier(raw.programId.value))
      && (raw.skip.None? || IsU32(raw.skip.value))
      && (raw.limit.None? || 0 <= raw.limit.value <= MaxLimit)
    ensures r.Err? && r.error.Invalid? ==> r.error.issues == [LimitOutOfRange]
    ensures r.Ok? ==> r.value.skip == OrDefault(raw.skip, 0) && r.value.limit == OrDefault(raw.limit, DefaultLimit)
    ensures r.Ok? ==> r.value.targetType == raw.targetType && r.value.targetValues == raw.targetValues
    ensures r.Ok? && raw.programId.Some? ==> r.value.programId.Some? && ProgramIdAsStr(r.value.programId.value) == raw.programId.value
    ensures r.Ok? ==> (r.value.programId.None? <==> raw.programId.None?)
  {
    var pid := if raw.programId.Some? then NewProgramId(raw.programId.value) else None;
    if (raw.programId.Some? && pid.None?) || (raw.skip.Some? && !IsU32(raw.skip.value)) || (raw.limit.Some? && !IsU32(raw.limit.value)) then
      Err(Undecodable)
    else
      var q := EventQuery(pid, raw.targetType, raw.targetValues, OrDefault(raw.skip, 0), OrDefault(raw.limit, DefaultLimit));
      if q.limit <= MaxLimit then Ok(q) else Err(Invalid([LimitOutOfRange]))
  }

  const EventNameValuesMessage: string := "If targetType is specified, targetValues must be specified as well"
  const EventNameOnlyMessage: string := "only filtering by event name is supported"

  /**
   * The event listing's `matches`: a program id decides alone; otherwise
   * only the event-name target is supported, and an unnamed event fails it
   * before the values are even looked at.
   */
  function EventMatches(q: EventQuery, e: Events.Event): (r: Result<bool, AppErrors.AppError>)
    ensures q.programId.Some? ==> r == Ok(e.content.programId == q.programId.value)
    ensures q.programId.None? && q.targetType == Some(EventName) ==>
      r == (if e.content.eventName.None? then Ok(false)
            else if q.targetValues.None? then Err(AppErrors.BadRequest(EventNameValuesMessage))
            else Ok(e.content.eventName.value in q.targetValues.value))
    ensures q.programId.None? && q.targetType.Some? && q.targetType != Some(EventName) ==>
      r == Err(AppErrors.NotImplemented(EventNameOnlyMessage))
    ensures q.programId.None? && q.targetType.None? ==> r == Ok(true)
  {
    if q.programId.Some? then Ok(e.content.programId == q.programId.value)
    else if q.targetType.None? then Ok(true)
    else if q.targetType != Some(EventName) then Err(AppErrors.NotImplemented(EventNameOnlyMessage))
    else if e.content.eventName.None? then Ok(false)
    else if q.targetValues.None? then Err(AppErrors.BadRequest(EventNameValuesMessage))
    else Ok(e.content.eventName.value in q.targetValues.value)
  }

  /**
   * When `matches` fails, and how the failure is reported: only without a
   * program id and with a target type, as 400 for missing values and 501
   * for an unsupported label.
   */
  lemma EventMatchesFailures(q: EventQuery, e: Events.Event)
    requires EventMatches(q, e).Err?
    ensures q.programId.None? && q.targetType.Some?
    ensures AppErrors.StatusOf(EventMatches(q, e).error) == (if q.targetType == Some(EventName) then 400 else 501)
    ensures q.targetType == Some(EventName) ==> e.content.eventName.Some? && q.targetValues.None?
  {
  }

  /** A query's decision about one event depends only on that event's program id and name. */
  lemma EventMatchesLocal(q: EventQuery, e1: Events.Event, e2: Events.Event)
    requires e1.content.programId == e2.content.programId && e1.content.eventName == e2.content.eventName
    ensures EventMatches(q, e1) == EventMatches(q, e2)
  {
  }

  /** A query string of the report listing. */
  datatype RawReportQuery = RawReportQuery(
    programId: Option<string>,
    eventId: Option<string>,
    clientName: Option<string>,
    skip: Option<int>,
    limit: Option<int>)

  /** `QueryParams` of the report listing. */
  datatype ReportQuery = ReportQuery(
    programId: Option<ProgramId>,
    eventId: Option<EventId>,
    clientName: Option<string>,
    skip: U32,
    limit: U32)

  /** The report listing's query: ids must be identifiers, numbers `u32`, and `limit` at most 50. */
  function ParseReportQuery(raw: RawReportQuery): (r: Result<ReportQuery, QueryError>)
    ensures r.Ok? <==>
      && (raw.programId.None? || IsIdentifier(raw.programId.value))
      && (raw.eventId.None? || IsIdentifier(raw.eventId.value))
      && (raw.skip.None? || IsU32(raw.skip.value))
      && (raw.limit.None? || 0 <= raw.limit.value <= MaxLimit)
    ensures r.Err? && r.error.Invalid? ==> r.error.issues == [LimitOutOfRange]
    ensures r.Ok? ==> r.value.skip == OrDefault(raw.skip, 0) && r.value.limit == OrDefault(raw.limit, DefaultLimit)
    ensures r.Ok? ==> r.value.clientName == raw.clientName
    ensures r.Ok? ==> (r.value.eventId.None? <==> raw.eventId.None?)
    ensures r.Ok? && raw.eventId.Some? ==> Identifiers.AsStr(r.value.eventId.value.id) == raw.eventId.value
  {
    ParseIdentifierIffGrammar(if raw.eventId.Some? then raw.eventId.value else "");
    var pid := if raw.programId.Some? then NewProgramId(raw.programId.value) else None;
    var eid := if raw.eventId.Some? && ParseIdentifier(raw.eventId.value).Ok? then Some(EventId(ParseIdentifier(raw.eventId.value).value)) else None;
    if (raw.programId.Some? && pid.None?) || (raw.eventId.Some? && eid.None?)
      || (raw.skip.Some? && !IsU32(raw.skip.value)) || (raw.limit.Some? && !IsU32(raw.limit.value)) then
      Err(Undecodable)
    else
      var q := ReportQuery(pid, eid, raw.clientName, OrDefault(raw.skip, 0), OrDefault(raw.limit, DefaultLimit));
      if q.limit <= MaxLimit then Ok(q) else Err(Invalid([LimitOutOfRange]))
  }

  /** The report listing's `matches`: the first filter given decides, in the order event, client, program. */
  function ReportMatches(q: ReportQuery, rep: Reports.Report): (r: Result<bool, AppErrors.AppError>)
    ensures r.Ok?
    ensures q.eventId.Some? ==> r.value == (rep.content.eventId == q.eventId.value)
    ensures q.eventId.None? && q.clientName.Some? ==> r.value == (rep.content.clientName == q.clientName.value)
    ensures q.eventId.None? && q.clientName.None? && q.programId.Some? ==> r.value == (rep.content.programId == q.programId.value)
    ensures q.eventId.None? && q.clientName.None? && q.programId.None? ==> r.value
  {
    if q.eventId.Some? then Ok(rep.content.eventId == q.eventId.value)
    else if q.clientName.Some? then Ok(rep.content.clientName == q.clientName.value)
    else if q.programId.Some? then Ok(rep.content.programId == q.programId.value)
    else Ok(true)
  }

  /**
   * A report that satisfies every given filter matches; the converse fails
   * because only the first given filter is consulted.
   */
  lemma ReportMatchesAllFilters(q: ReportQuery, rep: Reports.Report)
    requires q.eventId.Some? ==> rep.content.eventId == q.eventId.value
    requires q.clientName.Some? ==> rep.content.clientName == q.clientName.value
    requires q.programId.Some? ==> rep.content.programId == q.programId.value
    ensures ReportMatches(q, rep) == Ok(true)
  {
  }

  /** With an event id given, a report of another program still matches. */
  lemma ReportMatchesIgnoresLaterFilters(q: ReportQuery, rep: Reports.Report)
    requires q.eventId == Some(rep.content.eventId)
    ensures ReportMatches(q, rep) == Ok(true)
    ensures ReportMatches(q.(programId := None, clientName := None), rep) == ReportMatches(q, rep)
  {
  }
}
