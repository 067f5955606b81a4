/**
 * Target labels and target entries of the wire format, and the client's
 * `Target` selector that turns into a label plus a list of values.
 */
module Targets {

  /** The kind of a target; `Private` carries an application-defined name. */
  datatype TargetLabel =
    | PowerServiceLocation
    | ServiceArea
    | Group
    | ResourceName
    | VenName
    | EventName
    | ProgramName
    | Private(name: string)

  /** The seven labels the standard names. */
  const NamedLabels: seq<TargetLabel> :=
    [PowerServiceLocation, ServiceArea, Group, ResourceName, VenName, EventName, ProgramName]

  /** The wire texts of the named labels, in the same order. */
  const NamedTexts: seq<string> :=
    ["POWER_SERVICE_LOCATION", "SERVICE_AREA", "GROUP", "RESOURCE_NAME", "VEN_NAME", "EVENT_NAME",
     "PROGRAM_NAME"]

  /** `TargetLabel::as_str`. */
  function AsStr(l: TargetLabel): string
  {
    match l
    case PowerServiceLocation => "POWER_SERVICE_LOCATION"
    case ServiceArea => "SERVICE_AREA"
    case Group => "GROUP"
    case ResourceName => "RESOURCE_NAME"
    case VenName => "VEN_NAME"
    case EventName => "EVENT_NAME"
    case ProgramName => "PROGRAM_NAME"
    case Private(s) => s
  }

  /** `Display for TargetLabel`: it writes `as_str`. */
  function Display(l: TargetLabel): (r: string)
    ensures r == AsStr(l)
  {
    AsStr(l)
  }

  /**
   * Reading a label from its wire text: a named label's text gives that
   * label, any other text gives `Private` of itself.
   */
  function ParseLabel(s: string): (l: TargetLabel)
    ensures l.Private? <==> s !in NamedTexts
  {
    if s == "POWER_SERVICE_LOCATION" then PowerServiceLocation
    else if s == "SERVICE_AREA" then ServiceArea
    else if s == "GROUP" then Group
    else if s == "RESOURCE_NAME" then ResourceName
    else if s == "VEN_NAME" then VenName
    else if s == "EVENT_NAME" then EventName
    else if s == "PROGRAM_NAME" then ProgramName
    else Private(s)
  }

  /** The named labels are exactly the non-`Private` ones. */
  lemma NamedLabelsAreTheNonPrivate(l: TargetLabel)
    ensures l in NamedLabels <==> !l.Private?
  {
  }

  /** The seven named labels have pairwise distinct texts, the ones listed in `NamedTexts`. */
  lemma NamedLabelsDistinct()
    ensures forall i :: 0 <= i < |NamedLabels| ==> AsStr(NamedLabels[i]) == NamedTexts[i]
    ensures forall i, j :: 0 <= i < j < |NamedLabels| ==> AsStr(NamedLabels[i]) != AsStr(NamedLabels[j])
  {
  }

  /** `as_str` is not injective: a `Private` label can spell a named one. */
  lemma AsStrNotInjective()
    ensures AsStr(Private("GROUP")) == AsStr(Group) && Private("GROUP") != Group
  {
  }

  /** Reading back a label's text gives the label, unless it is a `Private` spelling a named one. */
  lemma ParseAsStrRoundTrip(l: TargetLabel)
    requires l.Private? ==> l.name !in NamedTexts
    ensures ParseLabel(AsStr(l)) == l
  {
  }

  /** The text of a read label is the text it was read from. */
  lemma AsStrParseRoundTrip(s: string)
    ensures AsStr(ParseLabel(s)) == s
  {
  }

  /** The fixed-size array `[String; 1]`. */
  type OneValue = s: seq<string> | |s| == 1 witness [""]

  /** `TargetEntry`: one label and exactly one value. */
  datatype TargetEntry = TargetEntry(targetLabel: TargetLabel, values: OneValue)

  /** `TargetMap`. */
  type TargetMap = seq<TargetEntry>

  /** The client's query target (openadr-client `Target`). */
  datatype Target =
    | Program(program: string)
    | Programs(programs: seq<string>)
    | Event(event: string)
    | Events(events: seq<string>)
    | Ven(ven: string)
    | Vens(vens: seq<string>)
    | GroupTarget(group: string)
    | Groups(groups: seq<string>)
    | Resource(resource: string)
    | Resources(resources: seq<string>)
    | ServiceAreaTarget(area: string)
    | ServiceAreas(areas: seq<string>)
    | PowerServiceLocationTarget(location: string)
    | PowerServiceLocations(locations: seq<string>)
    | Other(kind: string, value: string)
    | Others(kind: string, values: seq<string>)

  /** `Target::target_label`. */
  function TargetLabelOf(t: Target): TargetLabel
  {
    match t
    case Program(_) | Programs(_) => ProgramName
    case Event(_) | Events(_) => EventName
    case Ven(_) | Vens(_) => VenName
    case GroupTarget(_) | Groups(_) => Group
    case Resource(_) | Resources(_) => ResourceName
    case ServiceAreaTarget(_) | ServiceAreas(_) => ServiceArea
    case PowerServiceLocationTarget(_) | PowerServiceLocations(_) => PowerServiceLocation
    case Other(_, _) | Others(_, _) => Private(t.kind)
  }

  predicate IsSingular(t: Target)
  {
    t.Program? || t.Event? || t.Ven? || t.GroupTarget? || t.Resource? || t.ServiceAreaTarget?
    || t.PowerServiceLocationTarget? || t.Other?
  }

  /** `Target::target_values`. */
  function TargetValues(t: Target): (r: seq<string>)
    ensures IsSingular(t) ==> |r| == 1
  {
    match t
    case Program(v) => [v]
    case Programs(vs) => vs
    case Event(v) => [v]
    case Events(vs) => vs
    case Ven(v) => [v]
    case Vens(vs) => vs
    case GroupTarget(v) => [v]
    case Groups(vs) => vs
    case Resource(v) => [v]
    case Resources(vs) => vs
    case ServiceAreaTarget(v) => [v]
    case ServiceAreas(vs) => vs
    case PowerServiceLocationTarget(v) => [v]
    case PowerServiceLocations(vs) => vs
    case Other(_, v) => [v]
    case Others(_, vs) => vs
  }

  /** The plural target of a label and a value list: the reference to compare against. */
  function PluralTarget(l: TargetLabel, vs: seq<string>): (t: Target)
    ensures !IsSingular(t)
  {
    match l
    case ProgramName => Programs(vs)
    case EventName => Events(vs)
    case VenName => Vens(vs)
    case Group => Groups(vs)
    case ResourceName => Resources(vs)
    case ServiceArea => ServiceAreas(vs)
    case PowerServiceLocation => PowerServiceLocations(vs)
    case Private(p) => Others(p, vs)
  }

  /** A singular target means the same as the plural one with its single value. */
  function Pluralize(t: Target): (r: Target)
    ensures !IsSingular(r)
  {
    match t
    case Program(v) => Programs([v])
    case Event(v) => Events([v])
    case Ven(v) => Vens([v])
    case GroupTarget(v) => Groups([v])
    case Resource(v) => Resources([v])
    case ServiceAreaTarget(v) => ServiceAreas([v])
    case PowerServiceLocationTarget(v) => PowerServiceLocations([v])
    case Other(p, v) => Others(p, [v])
    case _ => t
  }

  /**
   * A target is determined, up to singular versus plural, by its label and
   * values: rebuilding it from `target_label` and `target_values` gives
   * its plural form, and a plural target's label and values are the ones it
   * was built from.
   */
  lemma LabelAndValuesDetermineTarget(t: Target, l: TargetLabel, vs: seq<string>)
    ensures PluralTarget(TargetLabelOf(t), TargetValues(t)) == Pluralize(t)
    ensures TargetLabelOf(PluralTarget(l, vs)) == l && TargetValues(PluralTarget(l, vs)) == vs
  {
  }

  /** Singular and plural variants of one kind have the same label, whatever they carry. */
  lemma LabelIgnoresValues(t: Target)
    ensures TargetLabelOf(Pluralize(t)) == TargetLabelOf(t)
    ensures IsSingular(t) ==> TargetValues(Pluralize(t)) == TargetValues(t)
    ensures !IsSingular(t) ==> Pluralize(t) == t
  {
  }
}
