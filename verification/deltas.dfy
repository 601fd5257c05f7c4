/**
 * The `delta_type` of a scripted clock: the name of the `timedelta` keyword
 * that the auto-advance amount is passed under, and the length of one unit.
 */
module Deltas {
  import opened Wrappers
  import Calendar

  /** The seven keywords `timedelta(...)` accepts, and any other name. */
  datatype DeltaType =
    | Days | Seconds | Microseconds | Milliseconds | Minutes | Hours | Weeks
    | Invalid(name: string)

  const KeywordNames: set<string> :=
    {"days", "seconds", "microseconds", "milliseconds", "minutes", "hours", "weeks"}

  /** Reads a `delta_type` string; only the seven `timedelta` keywords are units. */
  function Parse(name: string): (u: DeltaType)
    ensures u.Invalid? <==> name !in KeywordNames
    ensures Name(u) == name
  {
    match name
    case "days" => Days
    case "seconds" => Seconds
    case "microseconds" => Microseconds
    case "milliseconds" => Milliseconds
    case "minutes" => Minutes
    case "hours" => Hours
    case "weeks" => Weeks
    case _ => Invalid(name)
  }

  /** The keyword a unit is passed under. */
  function Name(u: DeltaType): string {
    match u
    case Days => "days"
    case Seconds => "seconds"
    case Microseconds => "microseconds"
    case Milliseconds => "milliseconds"
    case Minutes => "minutes"
    case Hours => "hours"
    case Weeks => "weeks"
    case Invalid(name) => name
  }

  /** Microseconds in one unit; None for a name `timedelta` does not know. */
  function UnitMicros(u: DeltaType): (f: Option<nat>)
    ensures f.None? <==> u.Invalid?
    ensures f.Some? ==> f.value >= 1
  {
    match u
    case Microseconds => Some(1)
    case Milliseconds => Some(1_000)
    case Seconds => Some(1_000_000)
    case Minutes => Some(60_000_000)
    case Hours => Some(3_600_000_000)
    case Days => Some(86_400_000_000)
    case Weeks => Some(604_800_000_000)
    case Invalid(_) => None
  }

  /** The units are related as `timedelta` defines its keywords: a
      millisecond is 1000 microseconds, a second 1000 milliseconds, a minute
      60 seconds, an hour 60 minutes, a day 24 hours (the calendar's day) and
      a week 7 days. */
  lemma UnitLengths()
    ensures UnitMicros(Microseconds) == Some(1)
    ensures UnitMicros(Milliseconds).value == 1000 * UnitMicros(Microseconds).value
    ensures UnitMicros(Seconds).value == 1000 * UnitMicros(Milliseconds).value
    ensures UnitMicros(Minutes).value == 60 * UnitMicros(Seconds).value
    ensures UnitMicros(Hours).value == 60 * UnitMicros(Minutes).value
    ensures UnitMicros(Days).value == 24 * UnitMicros(Hours).value == Calendar.MicrosPerDay
    ensures UnitMicros(Weeks).value == 7 * UnitMicros(Days).value
  {
  }

  /** `timedelta(**{Name(u): amount})` in microseconds, or the TypeError it raises. */
  function Timedelta(u: DeltaType, amount: int): (r: Result<int>)
    ensures r.Err? <==> u.Invalid?
    ensures r.Err? ==> r.error == UnknownDeltaType(Name(u))
    ensures r.Ok? ==> r.value == amount * UnitMicros(u).value
  {
    match UnitMicros(u)
    case None => Err(UnknownDeltaType(Name(u)))
    case Some(f) => Ok(amount * f)
  }

  /** Every unit other than an unknown name is read back from its keyword. */
  lemma ParseName(u: DeltaType)
    requires !u.Invalid? || u.name !in KeywordNames
    ensures Parse(Name(u)) == u
  {
  }
}
