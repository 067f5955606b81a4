/**
 * Report content of the wire format: report types and resource names with
 * their wire texts, the report descriptor with its defaults, and the
 * constructors and builders of report values.
 */
module Reports {
  import opened Wrappers
  import opened Text
  import opened Identifiers
  import opened Ids
  import opened Intervals
  import Targets
  import opened ReportTypes

  /** How a reading was obtained. */
  datatype ReadingType =
    | DirectRead | Estimated | Summed | Mean | Peak | Forecast | Average
    | PrivateReadingType(name: string)

  /** `ReadingType::default()`. */
  const DefaultReadingType: ReadingType := DirectRead

  /** `ReadingType::is_default`: compares with the default. */
  function IsDefaultReadingType(r: ReadingType): (b: bool)
  {
    r == DefaultReadingType
  }

  /** The default is `DirectRead`, and only it counts as default. */
  lemma DefaultReadingTypeIsDirectRead(r: ReadingType)
    ensures DefaultReadingType == DirectRead
    ensures IsDefaultReadingType(r) <==> r == DirectRead
  {
  }

  /** The resource a report speaks for; `Private` names must have 1..=128 bytes. */
  datatype ResourceName = AggregatedReport | PrivateResourceName(name: string)

  predicate ValidResourceName(n: ResourceName)
  {
    n.PrivateResourceName? ==> 1 <= ByteLen(n.name) <= 128
  }

  function ResourceNameText(n: ResourceName): string
  {
    match n
    case AggregatedReport => "AGGREGATED_REPORT"
    case PrivateResourceName(s) => s
  }

  /** Reading a resource name from its wire text. */
  function ParseResourceName(s: string): (r: Result<ResourceName, UntaggedError>)
    ensures r.Ok? ==> ValidResourceName(r.value) && ResourceNameText(r.value) == s
    ensures r.Err? <==> s != "AGGREGATED_REPORT" && !(1 <= ByteLen(s) <= 128)
    ensures r.Err? ==> r.error == NoVariantMatched("ResourceName")
  {
    if s == "AGGREGATED_REPORT" then Ok(AggregatedReport)
    else
      match StringWithinRange(1, 128, s)
      case Ok(_) => Ok(PrivateResourceName(s))
      case Err(_) => Err(NoVariantMatched("ResourceName"))
  }

  /** A valid resource name is read back from its own wire text. */
  lemma ResourceNameRoundTrip(n: ResourceName)
    requires ValidResourceName(n)
    requires n.PrivateResourceName? ==> n.name != "AGGREGATED_REPORT"
    ensures ParseResourceName(ResourceNameText(n)) == Ok(n)
  {
  }

  /** The examples the resource-name tests use; texts over 128 characters are refused. */
  lemma ResourceNameExamples(other: string, long: string)
    requires other == "something else" && |long| > 128
    ensures ParseResourceName("AGGREGATED_REPORT") == Ok(AggregatedReport)
    ensures ParseResourceName(other) == Ok(PrivateResourceName(other))
    ensures ParseResourceName("") == Err(NoVariantMatched("ResourceName"))
    ensures ParseResourceName(long) == Err(NoVariantMatched("ResourceName"))
  {
    assert AllAscii(other);
    AsciiEncoding(other);
    ByteLenAtLeastCharCount(long);
  }

  /** A request for reports sent along with an event. */
  datatype ReportDescriptor = ReportDescriptor(
    payloadType: ReportType,
    readingType: ReadingType,
    units: Option<Unit>,
    targets: Option<Targets.TargetMap>,
    aggregate: bool,
    startInterval: I32,
    numIntervals: I32,
    historical: bool,
    frequency: I32,
    repeat: I32)

  /** `ReportDescriptor::new`: the payload type and every other field at its documented default. */
  function NewReportDescriptor(t: ReportType): (d: ReportDescriptor)
    ensures d.payloadType == t && d.readingType == DirectRead
    ensures d.units.None? && d.targets.None?
    ensures !d.aggregate && d.historical
    ensures d.startInterval == -1 && d.numIntervals == -1 && d.frequency == -1
    ensures d.repeat == 1
  {
    ReportDescriptor(t, DefaultReadingType, None, None, false, -1, -1, true, -1, 1)
  }

  function OrElse<T>(o: Option<T>, default: T): T
  {
    match o
    case Some(v) => v
    case None => default
  }

  /**
   * A descriptor as read from the wire: fields left out take the serde
   * defaults (`default`, `bool_false`, `neg_one`, `bool_true`, `pos_one`).
   */
  function DescriptorFromWire(
    payloadType: ReportType,
    readingType: Option<ReadingType>,
    units: Option<Unit>,
    targets: Option<Targets.TargetMap>,
    aggregate: Option<bool>,
    startInterval: Option<I32>,
    numIntervals: Option<I32>,
    historical: Option<bool>,
    frequency: Option<I32>,
    repeat: Option<I32>): (d: ReportDescriptor)
    ensures d.payloadType == payloadType && d.units == units && d.targets == targets
    ensures readingType.Some? ==> d.readingType == readingType.value
    ensures aggregate.Some? ==> d.aggregate == aggregate.value
    ensures startInterval.Some? ==> d.startInterval == startInterval.value
    ensures numIntervals.Some? ==> d.numIntervals == numIntervals.value
    ensures historical.Some? ==> d.historical == historical.value
    ensures frequency.Some? ==> d.frequency == frequency.value
    ensures repeat.Some? ==> d.repeat == repeat.value
  {
    ReportDescriptor(
      payloadType,
      OrElse(readingType, DefaultReadingType),
      units,
      targets,
      OrElse(aggregate, false),
      OrElse(startInterval, -1),
      OrElse(numIntervals, -1),
      OrElse(historical, true),
      OrElse(frequency, -1),
      OrElse(repeat, 1))
  }

  /** A descriptor carrying only its payload type reads as `ReportDescriptor::new` of it. */
  lemma MinimalDescriptorIsNew(t: ReportType)
    ensures DescriptorFromWire(t, None, None, None, None, None, None, None, None, None) == NewReportDescriptor(t)
  {
  }

  /** Context for interpreting report payload values. */
  datatype ReportPayloadDescriptor = ReportPayloadDescriptor(
    payloadType: ReportType,
    readingType: ReadingType,
    units: Option<Unit>,
    accuracy: Option<bv32>,
    confidence: Option<nat>)

  /** `ReportPayloadDescriptor::new`. */
  function NewReportPayloadDescriptor(t: ReportType): (d: ReportPayloadDescriptor)
    ensures d.payloadType == t && IsDefaultReadingType(d.readingType)
    ensures d.units.None? && d.accuracy.None? && d.confidence.None?
  {
    ReportPayloadDescriptor(t, DefaultReadingType, None, None, None)
  }

  /** Report data of one resource. */
  datatype Resource = Resource(resourceName: ResourceName, intervalPeriod: Option<IntervalPeriod>, intervals: seq<Interval>)

  /** `Resource::new`: no period of its own. */
  function NewResource(name: ResourceName, intervals: seq<Interval>): (r: Resource)
    ensures r.resourceName == name && r.intervalPeriod.None? && r.intervals == intervals
  {
    Resource(name, None, intervals)
  }

  datatype ReportValuesMap = ReportValuesMap(valueType: ReportType, values: seq<Value>)

  datatype ReportInterval = ReportInterval(id: I32, intervalPeriod: Option<IntervalPeriod>, payloads: seq<ReportValuesMap>)

  /** `ReportInterval::new`: no period of its own. */
  function NewReportInterval(id: I32, payloads: seq<ReportValuesMap>): (r: ReportInterval)
    ensures r.id == id && r.intervalPeriod.None? && r.payloads == payloads
  {
    ReportInterval(id, None, payloads)
  }

  datatype ReportObjectType = ReportObject

  /** The client-supplied part of a report. */
  datatype ReportContent = ReportContent(
    objectType: Option<ReportObjectType>,
    programId: ProgramId,
    eventId: EventId,
    clientName: string,
    reportName: Option<string>,
    payloadDescriptors: Option<seq<ReportPayloadDescriptor>>,
    resources: seq<Resource>)

  /** What deserialization admits: a client name of 1..=128 bytes and valid resource names. */
  predicate ValidReportContent(c: ReportContent)
  {
    StringWithinRange(1, 128, c.clientName).Ok?
    && forall i :: 0 <= i < |c.resources| ==> ValidResourceName(c.resources[i].resourceName)
  }

  /** `with_client_name`: only the client name changes. */
  function WithClientName(c: ReportContent, name: string): (r: ReportContent)
    ensures r.clientName == name && r.(clientName := c.clientName) == c
  {
    c.(clientName := name)
  }

  /** `with_name`: only the report name changes, to `Some(name)`. */
  function WithName(c: ReportContent, name: string): (r: ReportContent)
    ensures r.reportName == Some(name) && r.(reportName := c.reportName) == c
  {
    c.(reportName := Some(name))
  }

  /** `with_payload_descriptors`: only the descriptors change, to `Some(ds)`. */
  function WithReportPayloadDescriptors(c: ReportContent, ds: seq<ReportPayloadDescriptor>): (r: ReportContent)
    ensures r.payloadDescriptors == Some(ds) && r.(payloadDescriptors := c.payloadDescriptors) == c
  {
    c.(payloadDescriptors := Some(ds))
  }

  /** `with_resources`: only the resources change. */
  function WithResources(c: ReportContent, rs: seq<Resource>): (r: ReportContent)
    ensures r.resources == rs && r.(resources := c.resources) == c
  {
    c.(resources := rs)
  }

  /**
   * Builders touch disjoint fields, so their order does not matter, and a
   * repeated builder keeps only its last argument.
   */
  lemma ReportBuildersCommute(c: ReportContent, n: string, m: string, ds: seq<ReportPayloadDescriptor>, rs: seq<Resource>)
    ensures WithName(WithClientName(c, n), m) == WithClientName(WithName(c, m), n)
    ensures WithResources(WithReportPayloadDescriptors(c, ds), rs) == WithReportPayloadDescriptors(WithResources(c, rs), ds)
    ensures WithClientName(WithResources(c, rs), n) == WithResources(WithClientName(c, n), rs)
    ensures WithClientName(WithClientName(c, n), m) == WithClientName(c, m)
    ensures WithName(WithName(c, n), m) == WithName(c, m)
  {
  }

  /** A builder-set client name passes the length check exactly when it has 1..=128 bytes. */
  lemma WithClientNameValidity(c: ReportContent, name: string)
    requires ValidReportContent(c)
    ensures ValidReportContent(WithClientName(c, name)) <==> 1 <= ByteLen(name) <= 128
  {
  }

  type Report = Stored<ReportId, ReportContent>
}
