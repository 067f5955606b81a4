/**
 * Report types: the named kinds of report values with their wire texts, and
 * the private names the wire format also admits.
 */
module ReportTypes {
  import opened Wrappers
  import opened Text
  import opened Identifiers

  /** The nature of report values; `Private` names must have 1..=128 bytes. */
  datatype ReportType =
    | Reading | Usage | Demand | Setpoint | DeltaUsage | Baseline | OperatingState
    | UpRegulationAvailable | DownRegulationAvailable | RegulationSetpoint
    | StorageUsableCapacity | StorageChargeLevel | StorageMaxDischargePower | StorageMaxChargePower
    | SimpleLevel | UsageForecast | StorageDispatchForecast | LoadShedDeltaAvailable
    | GenerationDeltaAvailable | DataQuality | ImportReservationCapacity | ImportReservationFee
    | ExportReservationCapacity | ExportReservationFee
    | PrivateReportType(name: string)

  /** The wire text of a report type (SCREAMING_SNAKE_CASE of the variant). */
  function ReportTypeText(t: ReportType): string
  {
    match t
    case Reading => "READING"
    case Usage => "USAGE"
    case Demand => "DEMAND"
    case Setpoint => "SETPOINT"
    case DeltaUsage => "DELTA_USAGE"
    case Baseline => "BASELINE"
    case OperatingState => "OPERATING_STATE"
    case UpRegulationAvailable => "UP_REGULATION_AVAILABLE"
    case DownRegulationAvailable => "DOWN_REGULATION_AVAILABLE"
    case RegulationSetpoint => "REGULATION_SETPOINT"
    case StorageUsableCapacity => "STORAGE_USABLE_CAPACITY"
    case StorageChargeLevel => "STORAGE_CHARGE_LEVEL"
    case StorageMaxDischargePower => "STORAGE_MAX_DISCHARGE_POWER"
    case StorageMaxChargePower => "STORAGE_MAX_CHARGE_POWER"
    case SimpleLevel => "SIMPLE_LEVEL"
    case UsageForecast => "USAGE_FORECAST"
    case StorageDispatchForecast => "STORAGE_DISPATCH_FORECAST"
    case LoadShedDeltaAvailable => "LOAD_SHED_DELTA_AVAILABLE"
    case GenerationDeltaAvailable => "GENERATION_DELTA_AVAILABLE"
    case DataQuality => "DATA_QUALITY"
    case ImportReservationCapacity => "IMPORT_RESERVATION_CAPACITY"
    case ImportReservationFee => "IMPORT_RESERVATION_FEE"
    case ExportReservationCapacity => "EXPORT_RESERVATION_CAPACITY"
    case ExportReservationFee => "EXPORT_RESERVATION_FEE"
    case PrivateReportType(s) => s
  }

  /**
   * The named report type whose wire text is `s`, if any. The texts are
   * told apart by their first letter, then compared whole.
   */
  function NamedReportType(s: string): (r: Option<ReportType>)
    ensures r.Some? ==> !r.value.PrivateReportType? && ReportTypeText(r.value) == s
  {
    if s == [] then None
    else match s[0]
      case 'R' => NamedWithR(s)
      case 'U' => NamedWithU(s)
      case 'D' => NamedWithD(s)
      case 'S' => NamedWithS(s)
      case 'B' => NamedWithB(s)
      case 'O' => NamedWithO(s)
      case 'L' => NamedWithL(s)
      case 'G' => NamedWithG(s)
      case 'I' => NamedWithI(s)
      case 'E' => NamedWithE(s)
      case _ => None
  }

  function NamedWithR(s: string): (r: Option<ReportType>)
    ensures r.Some? ==> !r.value.PrivateReportType? && ReportTypeText(r.value) == s
  {
    if s == "READING" then Some(Reading)
    else if s == "REGULATION_SETPOINT" then Some(RegulationSetpoint)
    else None
  }

  function NamedWithU(s: string): (r: Option<ReportType>)
    ensures r.Some? ==> !r.value.PrivateReportType? && ReportTypeText(r.value) == s
  {
    if s == "USAGE" then Some(Usage)
    else if s == "UP_REGULATION_AVAILABLE" then Some(UpRegulationAvailable)
    else if s == "USAGE_FORECAST" then Some(UsageForecast)
    else None
  }

  function NamedWithD(s: string): (r: Option<ReportType>)
    ensures r.Some? ==> !r.value.PrivateReportType? && ReportTypeText(r.value) == s
  {
    if s == "DEMAND" then Some(Demand)
    else if s == "DELTA_USAGE" then Some(DeltaUsage)
    else if s == "DOWN_REGULATION_AVAILABLE" then Some(DownRegulationAvailable)
    else if s == "DATA_QUALITY" then Some(DataQuality)
    else None
  }

  function NamedWithS(s: string): (r: Option<ReportType>)
    ensures r.Some? ==> !r.value.PrivateReportType? && ReportTypeText(r.value) == s
  {
    if s == "SETPOINT" then Some(Setpoint)
    else if s == "STORAGE_USABLE_CAPACITY" then Some(StorageUsableCapacity)
    else if s == "STORAGE_CHARGE_LEVEL" then Some(StorageChargeLevel)
    else if s == "STORAGE_MAX_DISCHARGE_POWER" then Some(StorageMaxDischargePower)
    else if s == "STORAGE_MAX_CHARGE_POWER" then Some(StorageMaxChargePower)
    else if s == "SIMPLE_LEVEL" then Some(SimpleLevel)
    else if s == "STORAGE_DISPATCH_FORECAST" then Some(StorageDispatchForecast)
    else None
  }

  function NamedWithB(s: string): (r: Option<ReportType>)
    ensures r.Some? ==> !r.value.PrivateReportType? && ReportTypeText(r.value) == s
  {
    if s == "BASELINE" then Some(Baseline)
    else None
  }

  function NamedWithO(s: string): (r: Option<ReportType>)
    ensures r.Some? ==> !r.value.PrivateReportType? && ReportTypeText(r.value) == s
  {
    if s == "OPERATING_STATE" then Some(OperatingState)
    else None
  }

  function NamedWithL(s: string): (r: Option<ReportType>)
    ensures r.Some? ==> !r.value.PrivateReportType? && ReportTypeText(r.value) == s
  {
    if s == "LOAD_SHED_DELTA_AVAILABLE" then Some(LoadShedDeltaAvailable)
    else None
  }

  function NamedWithG(s: string): (r: Option<ReportType>)
    ensures r.Some? ==> !r.value.PrivateReportType? && ReportTypeText(r.value) == s
  {
    if s == "GENERATION_DELTA_AVAILABLE" then Some(GenerationDeltaAvailable)
    else None
  }

  function NamedWithI(s: string): (r: Option<ReportType>)
    ensures r.Some? ==> !r.value.PrivateReportType? && ReportTypeText(r.value) == s
  {
    if s == "IMPORT_RESERVATION_CAPACITY" then Some(ImportReservationCapacity)
    else if s == "IMPORT_RESERVATION_FEE" then Some(ImportReservationFee)
    else None
  }

  function NamedWithE(s: string): (r: Option<ReportType>)
    ensures r.Some? ==> !r.value.PrivateReportType? && ReportTypeText(r.value) == s
  {
    if s == "EXPORT_RESERVATION_CAPACITY" then Some(ExportReservationCapacity)
    else if s == "EXPORT_RESERVATION_FEE" then Some(ExportReservationFee)
    else None
  }

  /** A report type the wire format admits: private names of 1..=128 bytes. */
  predicate ValidReportType(t: ReportType)
  {
    t.PrivateReportType? ==> 1 <= ByteLen(t.name) <= 128
  }

  /**
   * How serde fails on an enum with an untagged fallback variant: when the
   * text is no named variant and the fallback's own check refuses it, that
   * check's error is dropped and only the enum's name is reported.
   */
  datatype UntaggedError = NoVariantMatched(enumName: string)

  /** The message serde gives for that failure. */
  function UntaggedMessage(e: UntaggedError): string
  {
    "data did not match any variant of untagged enum " + e.enumName
  }

  /**
   * Reading a report type from its wire text: a named text gives its
   * variant; any other text is a private name, refused unless it has
   * 1..=128 bytes.
   */
  function ParseReportType(s: string): (r: Result<ReportType, UntaggedError>)
    ensures r.Ok? ==> ValidReportType(r.value) && ReportTypeText(r.value) == s
    ensures r.Err? <==> NamedReportType(s).None? && !(1 <= ByteLen(s) <= 128)
    ensures r.Err? ==> r.error == NoVariantMatched("ReportType")
    ensures r.Ok? && r.value.PrivateReportType? <==> NamedReportType(s).None? && 1 <= ByteLen(s) <= 128
  {
    match NamedReportType(s)
    case Some(t) => Ok(t)
    case None =>
      match StringWithinRange(1, 128, s)
      case Ok(_) => Ok(PrivateReportType(s))
      case Err(_) => Err(NoVariantMatched("ReportType"))
  }

  /** Every named report type is found again from its wire text. */
  lemma NamedReportTypeRoundTrip(t: ReportType)
    requires !t.PrivateReportType?
    ensures NamedReportType(ReportTypeText(t)) == Some(t)
  {
    match t
    case Reading | RegulationSetpoint => RoundTripWithR(t);
    case Usage | UpRegulationAvailable | UsageForecast => RoundTripWithU(t);
    case Demand | DeltaUsage | DownRegulationAvailable | DataQuality => RoundTripWithD(t);
    case Setpoint | StorageUsableCapacity | StorageChargeLevel | StorageMaxDischargePower | StorageMaxChargePower | SimpleLevel | StorageDispatchForecast => RoundTripWithS(t);
    case Baseline => RoundTripWithB(t);
    case OperatingState => RoundTripWithO(t);
    case LoadShedDeltaAvailable => RoundTripWithL(t);
    case GenerationDeltaAvailable => RoundTripWithG(t);
    case ImportReservationCapacity | ImportReservationFee => RoundTripWithI(t);
    case ExportReservationCapacity | ExportReservationFee => RoundTripWithE(t);
  }

  lemma RoundTripWithR(t: ReportType)
    requires t == Reading || t == RegulationSetpoint
    ensures NamedReportType(ReportTypeText(t)) == Some(t)
  {
  }

  lemma RoundTripWithU(t: ReportType)
    requires t == Usage || t == UpRegulationAvailable || t == UsageForecast
    ensures NamedReportType(ReportTypeText(t)) == Some(t)
  {
  }

  lemma RoundTripWithD(t: ReportType)
    requires t == Demand || t == DeltaUsage || t == DownRegulationAvailable || t == DataQuality
    ensures NamedReportType(ReportTypeText(t)) == Some(t)
  {
  }

  lemma RoundTripWithS(t: ReportType)
    requires t == Setpoint || t == StorageUsableCapacity || t == StorageChargeLevel || t == StorageMaxDischargePower || t == StorageMaxChargePower || t == SimpleLevel || t == StorageDispatchForecast
    ensures NamedReportType(ReportTypeText(t)) == Some(t)
  {
  }

  lemma RoundTripWithB(t: ReportType)
    requires t == Baseline
    ensures NamedReportType(ReportTypeText(t)) == Some(t)
  {
  }

  lemma RoundTripWithO(t: ReportType)
    requires t == OperatingState
    ensures NamedReportType(ReportTypeText(t)) == Some(t)
  {
  }

  lemma RoundTripWithL(t: ReportType)
    requires t == LoadShedDeltaAvailable
    ensures NamedReportType(ReportTypeText(t)) == Some(t)
  {
  }

  lemma RoundTripWithG(t: ReportType)
    requires t == GenerationDeltaAvailable
    ensures NamedReportType(ReportTypeText(t)) == Some(t)
  {
  }

  lemma RoundTripWithI(t: ReportType)
    requires t == ImportReservationCapacity || t == ImportReservationFee
    ensures NamedReportType(ReportTypeText(t)) == Some(t)
  {
  }

  lemma RoundTripWithE(t: ReportType)
    requires t == ExportReservationCapacity || t == ExportReservationFee
    ensures NamedReportType(ReportTypeText(t)) == Some(t)
  {
  }

  /**
   * A valid report type is read back from its own wire text, unless it is a
   * private name spelling a named type.
   */
  lemma ReportTypeRoundTrip(t: ReportType)
    requires ValidReportType(t)
    requires t.PrivateReportType? ==> NamedReportType(t.name).None?
    ensures ParseReportType(ReportTypeText(t)) == Ok(t)
  {
    if !t.PrivateReportType? {
      NamedReportTypeRoundTrip(t);
    }
  }

  /** Named texts read as their variants, as the report-type tests expect. */
  lemma NamedReportTypeExamples(demand: string, fee: string)
    requires demand == "DEMAND" && fee == "EXPORT_RESERVATION_FEE"
    ensures ParseReportType(demand) == Ok(Demand)
    ensures ParseReportType(fee) == Ok(ExportReservationFee)
  {
    NamedReportTypeRoundTrip(Demand);
    NamedReportTypeRoundTrip(ExportReservationFee);
  }

  /** Any other short text is a private report type. */
  lemma PrivateReportTypeExample(other: string)
    requires other == "something else"
    ensures ParseReportType(other) == Ok(PrivateReportType(other))
  {
    assert other[0] == 's';
    assert NamedReportType(other).None?;
    assert AllAscii(other);
    AsciiEncoding(other);
  }

  /** The empty text and every text over 128 characters are refused. */
  lemma ReportTypeLengthRefusals(s: string)
    requires |s| > 128
    ensures ParseReportType("") == Err(NoVariantMatched("ReportType"))
    ensures ParseReportType(s) == Err(NoVariantMatched("ReportType"))
  {
    ByteLenAtLeastCharCount(s);
  }
}
