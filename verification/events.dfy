/**
 * Event content of the wire format: the demand-response request a VTN sends
 * to VENs, its constructor and its builders.
 */
module Events {
  import opened Wrappers
  import opened Ids
  import opened Intervals
  import opened Priorities
  import opened Targets
  import opened Reports
  import opened EventTypes

  /** Currencies are not yet enumerated by the wire format. */
  datatype Currency = Todo

  /** Context for interpreting event payload values. */
  datatype EventPayloadDescriptor = EventPayloadDescriptor(payloadType: EventType, units: Option<Unit>, currency: Option<Currency>)

  /** `EventPayloadDescriptor::new`: no units, no currency. */
  function NewEventPayloadDescriptor(t: EventType): (d: EventPayloadDescriptor)
    ensures d.payloadType == t && d.units.None? && d.currency.None?
  {
    EventPayloadDescriptor(t, None, None)
  }

  /** Event values of one type. */
  datatype EventValuesMap = EventValuesMap(valueType: EventType, values: seq<Value>)

  /** One interval of an event; without a period of its own it uses the event's. */
  datatype EventInterval = EventInterval(id: I32, intervalPeriod: Option<IntervalPeriod>, payloads: seq<EventValuesMap>)

  /** `EventInterval::new`: no period of its own. */
  function NewEventInterval(id: I32, payloads: seq<EventValuesMap>): (r: EventInterval)
    ensures r.id == id && r.intervalPeriod.None? && r.payloads == payloads
  {
    EventInterval(id, None, payloads)
  }

  datatype EventObjectType = EventObject

  /** The client-supplied part of an event. */
  datatype EventContent = EventContent(
    objectType: Option<EventObjectType>,
    programId: ProgramId,
    eventName: Option<string>,
    priority: Priority,
    targets: Option<TargetMap>,
    reportDescriptors: Option<seq<ReportDescriptor>>,
    payloadDescriptors: Option<seq<EventPayloadDescriptor>>,
    intervalPeriod: Option<IntervalPeriod>,
    intervals: seq<EventInterval>)

  /**
   * `EventContent::new`: the code panics on an empty interval list, so a
   * caller must supply at least one interval. The priority is unspecified
   * and every optional field absent.
   */
  function NewEventContent(programId: ProgramId, intervals: seq<EventInterval>): (c: EventContent)
    requires |intervals| > 0
    ensures c.programId == programId && c.intervals == intervals
    ensures c.priority == Unspecified && c.priority == Min
    ensures c.objectType.None? && c.eventName.None? && c.targets.None?
    ensures c.reportDescriptors.None? && c.payloadDescriptors.None? && c.intervalPeriod.None?
  {
    EventContent(None, programId, None, Unspecified, None, None, None, None, intervals)
  }

  /** `with_event_name`: only the name changes, to `Some(name)`. */
  function WithEventName(c: EventContent, name: string): (r: EventContent)
    ensures r.eventName == Some(name) && r.(eventName := c.eventName) == c
  {
    c.(eventName := Some(name))
  }

  /** `with_priority`: only the priority changes. */
  function WithPriority(c: EventContent, p: Priority): (r: EventContent)
    ensures r.priority == p && r.(priority := c.priority) == c
  {
    c.(priority := p)
  }

  /** `with_targets`: only the targets change, to `Some(ts)`. */
  function WithTargets(c: EventContent, ts: TargetMap): (r: EventContent)
    ensures r.targets == Some(ts) && r.(targets := c.targets) == c
  {
    c.(targets := Some(ts))
  }

  /** `with_report_descriptors`: only the report descriptors change, to `Some(ds)`. */
  function WithReportDescriptors(c: EventContent, ds: seq<ReportDescriptor>): (r: EventContent)
    ensures r.reportDescriptors == Some(ds) && r.(reportDescriptors := c.reportDescriptors) == c
  {
    c.(reportDescriptors := Some(ds))
  }

  /** `with_payload_descriptors`: only the payload descriptors change, to `Some(ds)`. */
  function WithEventPayloadDescriptors(c: EventContent, ds: seq<EventPayloadDescriptor>): (r: EventContent)
    ensures r.payloadDescriptors == Some(ds) && r.(payloadDescriptors := c.payloadDescriptors) == c
  {
    c.(payloadDescriptors := Some(ds))
  }

  /** `with_interval_period`: only the default period changes, to `Some(p)`. */
  function WithIntervalPeriod(c: EventContent, p: IntervalPeriod): (r: EventContent)
    ensures r.intervalPeriod == Some(p) && r.(intervalPeriod := c.intervalPeriod) == c
  {
    c.(intervalPeriod := Some(p))
  }

  /** `with_intervals`: only the intervals change; unlike `new`, an empty list is accepted. */
  function WithIntervals(c: EventContent, ivs: seq<EventInterval>): (r: EventContent)
    ensures r.intervals == ivs && r.(intervals := c.intervals) == c
  {
    c.(intervals := ivs)
  }

  /**
   * Builders touch disjoint fields, so their order does not matter, and a
   * repeated builder keeps only its last argument.
   */
  lemma EventBuildersCommute(c: EventContent, n: string, m: string, p: Priority, q: Priority, ts: TargetMap, ip: IntervalPeriod)
    ensures WithPriority(WithEventName(c, n), p) == WithEventName(WithPriority(c, p), n)
    ensures WithTargets(WithIntervalPeriod(c, ip), ts) == WithIntervalPeriod(WithTargets(c, ts), ip)
    ensures WithEventName(WithEventName(c, n), m) == WithEventName(c, m)
    ensures WithPriority(WithPriority(c, p), q) == WithPriority(c, q)
  {
  }

  /**
   * Building up a fresh event: the fields set by builders carry their
   * arguments and the rest keep the constructor's defaults.
   */
  lemma BuiltEventFields(pid: ProgramId, ivs: seq<EventInterval>, n: string, p: Priority)
    requires |ivs| > 0
    ensures var c := WithPriority(WithEventName(NewEventContent(pid, ivs), n), p);
      c == EventContent(None, pid, Some(n), p, None, None, None, None, ivs)
  {
  }

  type Event = Stored<EventId, EventContent>
}
