/**
 * Event types: the named kinds of event values with their wire texts, and
 * the private names the wire format also admits.
 */
module EventTypes {
  import opened Wrappers
  import opened Text
  import opened Identifiers
  import opened ReportTypes

  /** The nature of event values; `Private` names must have 1..=128 bytes. */
  datatype EventType =
    | Simple | Price | ChargeStateSetpoint | DispatchSetpoint | DispatchSetpointRelative
    | ControlSetpoint | ExportPrice | Ghg | Curve | Ols
    | ImportCapacitySubscription | ImportCapacityReservation | ImportCapacityReservationFee
    | ImportCapacityAvailable | ImportCapacityAvailablePrice
    | ExportCapacitySubscription | ExportCapacityReservation | ExportCapacityReservationFee
    | ExportCapacityAvailable | ExportCapacityAvailablePrice
    | ImportCapacityLimit | ExportCapacityLimit
    | AlertGridEmergency | AlertBlackStart | AlertPossibleOutage | AlertFlexAlert | AlertFire
    | AlertFreezing | AlertWind | AlertTsunami | AlertAirQuality | AlertOther
    | Cta2045Reboot | Cta2045SetOverrideStatus
    | PrivateEventType(name: string)

  /**
   * The wire text of an event type: SCREAMING_SNAKE_CASE of the variant,
   * with `GHG`, `OLS` and the two CTA-2045 names spelled out by the source.
   */
  function EventTypeText(t: EventType): string
  {
    match t
    case Simple => "SIMPLE"
    case Price => "PRICE"
    case ChargeStateSetpoint => "CHARGE_STATE_SETPOINT"
    case DispatchSetpoint => "DISPATCH_SETPOINT"
    case DispatchSetpointRelative => "DISPATCH_SETPOINT_RELATIVE"
    case ControlSetpoint => "CONTROL_SETPOINT"
    case ExportPrice => "EXPORT_PRICE"
    case Ghg => "GHG"
    case Curve => "CURVE"
    case Ols => "OLS"
    case ImportCapacitySubscription => "IMPORT_CAPACITY_SUBSCRIPTION"
    case ImportCapacityReservation => "IMPORT_CAPACITY_RESERVATION"
    case ImportCapacityReservationFee => "IMPORT_CAPACITY_RESERVATION_FEE"
    case ImportCapacityAvailable => "IMPORT_CAPACITY_AVAILABLE"
    case ImportCapacityAvailablePrice => "IMPORT_CAPACITY_AVAILABLE_PRICE"
    case ExportCapacitySubscription => "EXPORT_CAPACITY_SUBSCRIPTION"
    case ExportCapacityReservation => "EXPORT_CAPACITY_RESERVATION"
    case ExportCapacityReservationFee => "EXPORT_CAPACITY_RESERVATION_FEE"
    case ExportCapacityAvailable => "EXPORT_CAPACITY_AVAILABLE"
    case ExportCapacityAvailablePrice => "EXPORT_CAPACITY_AVAILABLE_PRICE"
    case ImportCapacityLimit => "IMPORT_CAPACITY_LIMIT"
    case ExportCapacityLimit => "EXPORT_CAPACITY_LIMIT"
    case AlertGridEmergency => "ALERT_GRID_EMERGENCY"
    case AlertBlackStart => "ALERT_BLACK_START"
    case AlertPossibleOutage => "ALERT_POSSIBLE_OUTAGE"
    case AlertFlexAlert => "ALERT_FLEX_ALERT"
    case AlertFire => "ALERT_FIRE"
    case AlertFreezing => "ALERT_FREEZING"
    case AlertWind => "ALERT_WIND"
    case AlertTsunami => "ALERT_TSUNAMI"
    case AlertAirQuality => "ALERT_AIR_QUALITY"
    case AlertOther => "ALERT_OTHER"
    case Cta2045Reboot => "CTA2045_REBOOT"
    case Cta2045SetOverrideStatus => "CTA2045_SET_OVERRIDE_STATUS"
    case PrivateEventType(s) => s
  }

  /**
   * The named event type whose wire text is `s`, if any. The texts are told
   * apart by their length, then compared whole.
   */
  function NamedEventType(s: string): (r: Option<EventType>)
    ensures r.Some? ==> !r.value.PrivateEventType? && EventTypeText(r.value) == s
  {
    if |s| == 3 then NamedOfLength3(s)
    else if |s| == 5 then NamedOfLength5(s)
    else if |s| == 6 then NamedOfLength6(s)
    else if |s| == 10 then NamedOfLength10(s)
    else if |s| == 11 then NamedOfLength11(s)
    else if |s| == 12 then NamedOfLength12(s)
    else if |s| == 13 then NamedOfLength13(s)
    else if |s| == 14 then NamedOfLength14(s)
    else if |s| == 16 then NamedOfLength16(s)
    else if |s| == 17 then NamedOfLength17(s)
    else if |s| == 20 then NamedOfLength20(s)
    else if |s| == 21 then NamedOfLength21(s)
    else if |s| == 25 then NamedOfLength25(s)
    else if |s| == 26 then NamedOfLength26(s)
    else if |s| == 27 then NamedOfLength27(s)
    else if |s| == 28 then NamedOfLength28(s)
    else if |s| == 31 then NamedOfLength31(s)
    else None
  }

  function NamedOfLength3(s: string): (r: Option<EventType>)
    requires |s| == 3
    ensures r.Some? ==> !r.value.PrivateEventType? && EventTypeText(r.value) == s
  {
    match s[0]
    case 'G' => if s == "GHG" then Some(Ghg) else None
    case 'O' => if s == "OLS" then Some(Ols) else None
    case _ => None
  }

  function NamedOfLength5(s: string): (r: Option<EventType>)
    requires |s| == 5
    ensures r.Some? ==> !r.value.PrivateEventType? && EventTypeText(r.value) == s
  {
    match s[0]
    case 'P' => if s == "PRICE" then Some(Price) else None
    case 'C' => if s == "CURVE" then Some(Curve) else None
    case _ => None
  }

  function NamedOfLength6(s: string): (r: Option<EventType>)
    requires |s| == 6
    ensures r.Some? ==> !r.value.PrivateEventType? && EventTypeText(r.value) == s
  {
    if s == "SIMPLE" then Some(Simple) else None
  }

  function NamedOfLength10(s: string): (r: Option<EventType>)
    requires |s| == 10
    ensures r.Some? ==> !r.value.PrivateEventType? && EventTypeText(r.value) == s
  {
    match s[6]
    case 'F' => if s == "ALERT_FIRE" then Some(AlertFire) else None
    case 'W' => if s == "ALERT_WIND" then Some(AlertWind) else None
    case _ => None
  }

  function NamedOfLength11(s: string): (r: Option<EventType>)
    requires |s| == 11
    ensures r.Some? ==> !r.value.PrivateEventType? && EventTypeText(r.value) == s
  {
    if s == "ALERT_OTHER" then Some(AlertOther) else None
  }

  function NamedOfLength12(s: string): (r: Option<EventType>)
    requires |s| == 12
    ensures r.Some? ==> !r.value.PrivateEventType? && EventTypeText(r.value) == s
  {
    if s == "EXPORT_PRICE" then Some(ExportPrice) else None
  }

  function NamedOfLength13(s: string): (r: Option<EventType>)
    requires |s| == 13
    ensures r.Some? ==> !r.value.PrivateEventType? && EventTypeText(r.value) == s
  {
    if s == "ALERT_TSUNAMI" then Some(AlertTsunami) else None
  }

  function NamedOfLength14(s: string): (r: Option<EventType>)
    requires |s| == 14
    ensures r.Some? ==> !r.value.PrivateEventType? && EventTypeText(r.value) == s
  {
    match s[0]
    case 'A' => if s == "ALERT_FREEZING" then Some(AlertFreezing) else None
    case 'C' => if s == "CTA2045_REBOOT" then Some(Cta2045Reboot) else None
    case _ => None
  }

  function NamedOfLength16(s: string): (r: Option<EventType>)
    requires |s| == 16
    ensures r.Some? ==> !r.value.PrivateEventType? && EventTypeText(r.value) == s
  {
    match s[0]
    case 'C' => if s == "CONTROL_SETPOINT" then Some(ControlSetpoint) else None
    case 'A' => if s == "ALERT_FLEX_ALERT" then Some(AlertFlexAlert) else None
    case _ => None
  }

  function NamedOfLength17(s: string): (r: Option<EventType>)
    requires |s| == 17
    ensures r.Some? ==> !r.value.PrivateEventType? && EventTypeText(r.value) == s
  {
    match s[6]
    case 'C' => if s == "DISPATCH_SETPOINT" then Some(DispatchSetpoint) else None
    case 'B' => if s == "ALERT_BLACK_START" then Some(AlertBlackStart) else None
    case 'A' => if s == "ALERT_AIR_QUALITY" then Some(AlertAirQuality) else None
    case _ => None
  }

  function NamedOfLength20(s: string): (r: Option<EventType>)
    requires |s| == 20
    ensures r.Some? ==> !r.value.PrivateEventType? && EventTypeText(r.value) == s
  {
    if s == "ALERT_GRID_EMERGENCY" then Some(AlertGridEmergency) else None
  }

  function NamedOfLength21(s: string): (r: Option<EventType>)
    requires |s| == 21
    ensures r.Some? ==> !r.value.PrivateEventType? && EventTypeText(r.value) == s
  {
    match s[0]
    case 'C' => if s == "CHARGE_STATE_SETPOINT" then Some(ChargeStateSetpoint) else None
    case 'I' => if s == "IMPORT_CAPACITY_LIMIT" then Some(ImportCapacityLimit) else None
    case 'E' => if s == "EXPORT_CAPACITY_LIMIT" then Some(ExportCapacityLimit) else None
    case 'A' => if s == "ALERT_POSSIBLE_OUTAGE" then Some(AlertPossibleOutage) else None
    case _ => None
  }

  function NamedOfLength25(s: string): (r: Option<EventType>)
    requires |s| == 25
    ensures r.Some? ==> !r.value.PrivateEventType? && EventTypeText(r.value) == s
  {
    match s[0]
    case 'I' => if s == "IMPORT_CAPACITY_AVAILABLE" then Some(ImportCapacityAvailable) else None
    case 'E' => if s == "EXPORT_CAPACITY_AVAILABLE" then Some(ExportCapacityAvailable) else None
    case _ => None
  }

  function NamedOfLength26(s: string): (r: Option<EventType>)
    requires |s| == 26
    ensures r.Some? ==> !r.value.PrivateEventType? && EventTypeText(r.value) == s
  {
    if s == "DISPATCH_SETPOINT_RELATIVE" then Some(DispatchSetpointRelative) else None
  }

  function NamedOfLength27(s: string): (r: Option<EventType>)
    requires |s| == 27
    ensures r.Some? ==> !r.value.PrivateEventType? && EventTypeText(r.value) == s
  {
    match s[0]
    case 'I' => if s == "IMPORT_CAPACITY_RESERVATION" then Some(ImportCapacityReservation) else None
    case 'E' => if s == "EXPORT_CAPACITY_RESERVATION" then Some(ExportCapacityReservation) else None
    case 'C' => if s == "CTA2045_SET_OVERRIDE_STATUS" then Some(Cta2045SetOverrideStatus) else None
    case _ => None
  }

  function NamedOfLength28(s: string): (r: Option<EventType>)
    requires |s| == 28
    ensures r.Some? ==> !r.value.PrivateEventType? && EventTypeText(r.value) == s
  {
    match s[0]
    case 'I' => if s == "IMPORT_CAPACITY_SUBSCRIPTION" then Some(ImportCapacitySubscription) else None
    case 'E' => if s == "EXPORT_CAPACITY_SUBSCRIPTION" then Some(ExportCapacitySubscription) else None
    case _ => None
  }

  function NamedOfLength31(s: string): (r: Option<EventType>)
    requires |s| == 31
    ensures r.Some? ==> !r.value.PrivateEventType? && EventTypeText(r.value) == s
  {
    match s[0]
    case 'I' => ImportOfLength31(s)
    case 'E' => ExportOfLength31(s)
    case _ => None
  }

  function ImportOfLength31(s: string): (r: Option<EventType>)
    requires |s| == 31
    ensures r.Some? ==> !r.value.PrivateEventType? && EventTypeText(r.value) == s
  {
    match s[16]
    case 'R' => if s == "IMPORT_CAPACITY_RESERVATION_FEE" then Some(ImportCapacityReservationFee) else None
    case 'A' => if s == "IMPORT_CAPACITY_AVAILABLE_PRICE" then Some(ImportCapacityAvailablePrice) else None
    case _ => None
  }

  function ExportOfLength31(s: string): (r: Option<EventType>)
    requires |s| == 31
    ensures r.Some? ==> !r.value.PrivateEventType? && EventTypeText(r.value) == s
  {
    match s[16]
    case 'R' => if s == "EXPORT_CAPACITY_RESERVATION_FEE" then Some(ExportCapacityReservationFee) else None
    case 'A' => if s == "EXPORT_CAPACITY_AVAILABLE_PRICE" then Some(ExportCapacityAvailablePrice) else None
    case _ => None
  }

  /** An event type the wire format admits: private names of 1..=128 bytes. */
  predicate ValidEventType(t: EventType)
  {
    t.PrivateEventType? ==> 1 <= ByteLen(t.name) <= 128
  }

  /**
   * Reading an event type from its wire text: a named text gives its
   * variant; any other text is a private name, refused unless it has
   * 1..=128 bytes, with serde's untagged-enum failure.
   */
  function ParseEventType(s: string): (r: Result<EventType, UntaggedError>)
    ensures r.Ok? ==> ValidEventType(r.value) && EventTypeText(r.value) == s
    ensures r.Err? <==> NamedEventType(s).None? && !(1 <= ByteLen(s) <= 128)
    ensures r.Err? ==> r.error == NoVariantMatched("EventType")
    ensures r.Ok? && r.value.PrivateEventType? <==> NamedEventType(s).None? && 1 <= ByteLen(s) <= 128
  {
    match NamedEventType(s)
    case Some(t) => Ok(t)
    case None =>
      match StringWithinRange(1, 128, s)
      case Ok(_) => Ok(PrivateEventType(s))
      case Err(_) => Err(NoVariantMatched("EventType"))
  }

  /** Every named event type is found again from its wire text. */
  lemma NamedEventTypeRoundTrip(t: EventType)
    requires !t.PrivateEventType?
    ensures NamedEventType(EventTypeText(t)) == Some(t)
  {
    match t
    case Ghg | Ols => RoundTripOfLength3(t);
    case Price | Curve => RoundTripOfLength5(t);
    case Simple => RoundTripOfLength6(t);
    case AlertFire | AlertWind => RoundTripOfLength10(t);
    case AlertOther => RoundTripOfLength11(t);
    case ExportPrice => RoundTripOfLength12(t);
    case AlertTsunami => RoundTripOfLength13(t);
    case AlertFreezing | Cta2045Reboot => RoundTripOfLength14(t);
    case ControlSetpoint | AlertFlexAlert => RoundTripOfLength16(t);
    case DispatchSetpoint | AlertBlackStart | AlertAirQuality => RoundTripOfLength17(t);
    case AlertGridEmergency => RoundTripOfLength20(t);
    case ChargeStateSetpoint | ImportCapacityLimit | ExportCapacityLimit | AlertPossibleOutage => RoundTripOfLength21(t);
    case ImportCapacityAvailable | ExportCapacityAvailable => RoundTripOfLength25(t);
    case DispatchSetpointRelative => RoundTripOfLength26(t);
    case ImportCapacityReservation | ExportCapacityReservation | Cta2045SetOverrideStatus => RoundTripOfLength27(t);
    case ImportCapacitySubscription | ExportCapacitySubscription => RoundTripOfLength28(t);
    case ImportCapacityReservationFee | ImportCapacityAvailablePrice | ExportCapacityReservationFee | ExportCapacityAvailablePrice => RoundTripOfLength31(t);
  }

  lemma RoundTripOfLength3(t: EventType)
    requires t == Ghg || t == Ols
    ensures NamedEventType(EventTypeText(t)) == Some(t)
  {
    var s := EventTypeText(t);
    assert |s| == 3;
    assert NamedEventType(s) == NamedOfLength3(s);
  }

  lemma RoundTripOfLength5(t: EventType)
    requires t == Price || t == Curve
    ensures NamedEventType(EventTypeText(t)) == Some(t)
  {
    var s := EventTypeText(t);
    assert |s| == 5;
    assert NamedEventType(s) == NamedOfLength5(s);
  }

  lemma RoundTripOfLength6(t: EventType)
    requires t == Simple
    ensures NamedEventType(EventTypeText(t)) == Some(t)
  {
    var s := EventTypeText(t);
    assert |s| == 6;
    assert NamedEventType(s) == NamedOfLength6(s);
  }

  lemma RoundTripOfLength10(t: EventType)
    requires t == AlertFire || t == AlertWind
    ensures NamedEventType(EventTypeText(t)) == Some(t)
  {
    var s := EventTypeText(t);
    assert |s| == 10;
    assert NamedEventType(s) == NamedOfLength10(s);
  }

  lemma RoundTripOfLength11(t: EventType)
    requires t == AlertOther
    ensures NamedEventType(EventTypeText(t)) == Some(t)
  {
    var s := EventTypeText(t);
    assert |s| == 11;
    assert NamedEventType(s) == NamedOfLength11(s);
  }

  lemma RoundTripOfLength12(t: EventType)
    requires t == ExportPrice
    ensures NamedEventType(EventTypeText(t)) == Some(t)
  {
    var s := EventTypeText(t);
    assert |s| == 12;
    assert NamedEventType(s) == NamedOfLength12(s);
  }

  lemma RoundTripOfLength13(t: EventType)
    requires t == AlertTsunami
    ensures NamedEventType(EventTypeText(t)) == Some(t)
  {
    var s := EventTypeText(t);
    assert |s| == 13;
    assert NamedEventType(s) == NamedOfLength13(s);
  }

  lemma RoundTripOfLength14(t: EventType)
    requires t == AlertFreezing || t == Cta2045Reboot
    ensures NamedEventType(EventTypeText(t)) == Some(t)
  {
    var s := EventTypeText(t);
    assert |s| == 14;
    assert NamedEventType(s) == NamedOfLength14(s);
  }

  lemma RoundTripOfLength16(t: EventType)
    requires t == ControlSetpoint || t == AlertFlexAlert
    ensures NamedEventType(EventTypeText(t)) == Some(t)
  {
    var s := EventTypeText(t);
    assert |s| == 16;
    assert NamedEventType(s) == NamedOfLength16(s);
  }

  lemma RoundTripOfLength17(t: EventType)
    requires t == DispatchSetpoint || t == AlertBlackStart || t == AlertAirQuality
    ensures NamedEventType(EventTypeText(t)) == Some(t)
  {
    var s := EventTypeText(t);
    assert |s| == 17;
    assert NamedEventType(s) == NamedOfLength17(s);
  }

  lemma RoundTripOfLength20(t: EventType)
    requires t == AlertGridEmergency
    ensures NamedEventType(EventTypeText(t)) == Some(t)
  {
    var s := EventTypeText(t);
    assert |s| == 20;
    assert NamedEventType(s) == NamedOfLength20(s);
  }

  lemma RoundTripOfLength21(t: EventType)
    requires t == ChargeStateSetpoint || t == ImportCapacityLimit || t == ExportCapacityLimit || t == AlertPossibleOutage
    ensures NamedEventType(EventTypeText(t)) == Some(t)
  {
    var s := EventTypeText(t);
    assert |s| == 21;
    assert NamedEventType(s) == NamedOfLength21(s);
  }

  lemma RoundTripOfLength25(t: EventType)
    requires t == ImportCapacityAvailable || t == ExportCapacityAvailable
    ensures NamedEventType(EventTypeText(t)) == Some(t)
  {
    var s := EventTypeText(t);
    assert |s| == 25;
    assert NamedEventType(s) == NamedOfLength25(s);
  }

  lemma RoundTripOfLength26(t: EventType)
    requires t == DispatchSetpointRelative
    ensures NamedEventType(EventTypeText(t)) == Some(t)
  {
    var s := EventTypeText(t);
    assert |s| == 26;
    assert NamedEventType(s) == NamedOfLength26(s);
  }

  lemma RoundTripOfLength27(t: EventType)
    requires t == ImportCapacityReservation || t == ExportCapacityReservation || t == Cta2045SetOverrideStatus
    ensures NamedEventType(EventTypeText(t)) == Some(t)
  {
    var s := EventTypeText(t);
    assert |s| == 27;
    assert NamedEventType(s) == NamedOfLength27(s);
  }

  lemma RoundTripOfLength28(t: EventType)
    requires t == ImportCapacitySubscription || t == ExportCapacitySubscription
    ensures NamedEventType(EventTypeText(t)) == Some(t)
  {
    var s := EventTypeText(t);
    assert |s| == 28;
    assert NamedEventType(s) == NamedOfLength28(s);
  }

  lemma RoundTripOfLength31(t: EventType)
    requires t == ImportCapacityReservationFee || t == ImportCapacityAvailablePrice || t == ExportCapacityReservationFee || t == ExportCapacityAvailablePrice
    ensures NamedEventType(EventTypeText(t)) == Some(t)
  {
    var s := EventTypeText(t);
    assert |s| == 31;
    assert NamedEventType(s) == NamedOfLength31(s);
  }

  /**
   * A valid event type is read back from its own wire text, unless it is a
   * private name spelling a named type.
   */
  lemma EventTypeRoundTrip(t: EventType)
    requires ValidEventType(t)
    requires t.PrivateEventType? ==> NamedEventType(t.name).None?
    ensures ParseEventType(EventTypeText(t)) == Ok(t)
  {
    if !t.PrivateEventType? {
      NamedEventTypeRoundTrip(t);
    }
  }

  /** The empty text and every text over 128 characters are refused. */
  lemma EventTypeLengthRefusals(s: string)
    requires |s| > 128
    ensures ParseEventType("") == Err(NoVariantMatched("EventType"))
    ensures ParseEventType(s) == Err(NoVariantMatched("EventType"))
  {
    ByteLenAtLeastCharCount(s);
  }

  /** Named texts, spelled-out ones included, as the event-type tests expect. */
  lemma NamedEventTypeExamples(ghg: string)
    requires ghg == "GHG"
    ensures EventTypeText(Simple) == "SIMPLE" && EventTypeText(Cta2045Reboot) == "CTA2045_REBOOT"
    ensures ParseEventType(ghg) == Ok(Ghg)
  {
    RoundTripOfLength3(Ghg);
  }

  /** Any other short text is a private event type. */
  lemma PrivateEventTypeExample(other: string)
    requires other == "something else"
    ensures ParseEventType(other) == Ok(PrivateEventType(other))
  {
    assert NamedEventType(other) == NamedOfLength14(other);
    assert AllAscii(other);
    AsciiEncoding(other);
  }
}
