/**
 * Program content of the wire format: the program metadata a VTN offers to
 * VENs, and its constructor.
 */
module Programs {
  import opened Wrappers
  import opened Text
  import opened Identifiers
  import opened Ids
  import opened Intervals
  import opened Targets
  import opened Reports
  import opened Events

  datatype ProgramObjectType = ProgramObject

  /** A human or machine readable program description, by URL. */
  datatype ProgramDescription = ProgramDescription(url: string)

  /** A program announces the payloads of its events and of the reports it expects. */
  datatype PayloadDescriptor =
    | EventPayload(event: EventPayloadDescriptor)
    | ReportPayload(report: ReportPayloadDescriptor)

  /** The client-supplied part of a program. */
  datatype ProgramContent = ProgramContent(
    objectType: Option<ProgramObjectType>,
    programName: string,
    programLongName: Option<string>,
    retailerName: Option<string>,
    retailerLongName: Option<string>,
    programType: Option<string>,
    country: Option<string>,
    principalSubdivision: Option<string>,
    timeZoneOffset: Option<Duration>,
    intervalPeriod: Option<IntervalPeriod>,
    programDescriptions: Option<seq<ProgramDescription>>,
    bindingEvents: Option<bool>,
    localPrice: Option<bool>,
    payloadDescriptors: Option<seq<PayloadDescriptor>>,
    targets: Option<TargetMap>)

  /** What deserialization admits: a program name of 1..=128 bytes. */
  predicate ValidProgramContent(c: ProgramContent)
  {
    StringWithinRange(1, 128, c.programName).Ok?
  }

  /** All optional fields absent. */
  predicate NoOptionalFields(c: ProgramContent)
  {
    && c.programLongName.None? && c.retailerName.None? && c.retailerLongName.None?
    && c.programType.None? && c.country.None? && c.principalSubdivision.None?
    && c.timeZoneOffset.None? && c.intervalPeriod.None? && c.programDescriptions.None?
    && c.bindingEvents.None? && c.localPrice.None? && c.payloadDescriptors.None?
    && c.targets.None?
  }

  /** `ProgramContent::new`: tagged as a program, named, and nothing else set. */
  function NewProgramContent(name: string): (c: ProgramContent)
    ensures c.objectType == Some(ProgramObject) && c.programName == name
    ensures NoOptionalFields(c)
  {
    ProgramContent(Some(ProgramObject), name, None, None, None, None, None, None, None, None, None, None, None, None, None)
  }

  /**
   * `new` does not check the name: the content it builds would be accepted
   * on the wire exactly when the name has 1..=128 bytes.
   */
  lemma NewProgramContentValidity(name: string)
    ensures ValidProgramContent(NewProgramContent(name)) <==> 1 <= ByteLen(name) <= 128
  {
  }

  /** `new` is determined by the name alone, and different names give different contents. */
  lemma NewProgramContentInjective(a: string, b: string)
    ensures NewProgramContent(a) == NewProgramContent(b) <==> a == b
  {
  }

  /** A content with only its name set is the one `new` builds from that name. */
  lemma NewProgramContentCharacterised(c: ProgramContent)
    requires c.objectType == Some(ProgramObject) && NoOptionalFields(c)
    ensures c == NewProgramContent(c.programName)
  {
  }

  type Program = Stored<ProgramId, ProgramContent>
}
