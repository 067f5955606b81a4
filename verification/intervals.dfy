/**
 * Shared wire types: durations, interval periods, payload values, units and
 * the generic `Interval`, plus the envelope every VTN object is stored in.
 */
module Intervals {
  import opened Wrappers

  /** The bounds of the source's fixed-width integer types. */
  const I32Min: int := -0x8000_0000
  const I32Max: int := 0x7FFF_FFFF
  const I64Min: int := -0x8000_0000_0000_0000
  const I64Max: int := 0x7FFF_FFFF_FFFF_FFFF
  const U32Max: int := 0xFFFF_FFFF

  type I32 = x: int | I32Min <= x <= I32Max
  type I64 = x: int | I64Min <= x <= I64Max
  type U32 = x: int | 0 <= x <= U32Max

  /** An ISO 8601 duration, as a whole number of seconds. */
  datatype Duration = Duration(seconds: nat)

  /**
   * Start and extent of an interval; times are seconds since the epoch. A
   * missing duration means "unbounded", a missing `randomizeStart` means no
   * randomisation.
   */
  datatype IntervalPeriod = IntervalPeriod(start: int, duration: Option<Duration>, randomizeStart: Option<Duration>)

  /** `IntervalPeriod::new`. */
  function NewIntervalPeriod(start: int): (p: IntervalPeriod)
    ensures p.start == start && p.duration.None? && p.randomizeStart.None?
  {
    IntervalPeriod(start, None, None)
  }

  /** A point of two `f32` coordinates, kept as their bit patterns. */
  datatype Point = Point(x: bv32, y: bv32)

  /** A payload value; an `f64` is kept as its bit pattern. */
  datatype Value =
    | Integer(i: I64)
    | Number(bits: bv64)
    | Boolean(b: bool)
    | PointValue(point: Point)
    | Text(text: string)

  /** `ValuesMap`: a type name and its values. */
  datatype ValuesMap = ValuesMap(valueType: string, values: seq<Value>)

  /** The generic `Interval` used in reports. */
  datatype Interval = Interval(id: I32, intervalPeriod: Option<IntervalPeriod>, payloads: seq<ValuesMap>)

  /** `Interval::new`: no period of its own. */
  function NewInterval(id: I32, payloads: seq<ValuesMap>): (r: Interval)
    ensures r.id == id && r.intervalPeriod.None? && r.payloads == payloads
  {
    Interval(id, None, payloads)
  }

  /** Units of measure. */
  datatype Unit =
    | Kwh | Ghg | Volts | Amps | Celcius | Fahrenheit | Percent | Kw | Kvah | Kvarh | Kva | Kvar
    | PrivateUnit(name: string)

  /**
   * The envelope of a stored VTN object: its VTN-assigned id, creation and
   * last-modification times, and the client-supplied content.
   */
  datatype Stored<K, C> = Stored(id: K, createdDateTime: int, modificationDateTime: int, content: C)
}
