/**
 * The mock `datetime` class that `mock_datetime` builds: its configuration
 * (`__init_subclass__`), its mutators `add` and `set`, its read `now`, and
 * the construction done by `mock_factory` and `mock_datetime`.
 *
 * One `MockDateTime` object stands for one generated subclass: its queue is
 * the class-level `_mock_queue`, shared by every caller of that class.
 */
module Mock {
  import opened Wrappers
  import Calendar
  import Deltas
  import opened Zones
  import opened Arguments
  import opened Queues

  /** The default `mock_datetime` passes to `mock_factory`. */
  const DefaultDateTime: seq<int> := [2001, 1, 1, 0, 0, 0]

  /** The instant that default denotes, 2001-01-01 00:00:00. */
  const DefaultInstant: int := Calendar.ToMicros(Calendar.Components(2001, 1, 1, 0, 0, 0, 0))

  /** `delta_type` when `mock_datetime` is given none. */
  const DefaultDeltaType: string := "seconds"

  /** `delta_delta` as `mock_datetime` passes it: steps grow by 10 units. */
  const MockDatetimeDeltaDelta := 10

  /** The positionals `mock_factory` calls `add` with: the default when it
      was given neither positionals nor keywords. */
  function ConstructionArgs(default: seq<int>, args: seq<Arg>, kw: map<string, Arg>): seq<Arg> {
    if args == [] && kw == map[] then AsIntArgs(default) else args
  }

  /** The queue `mock_factory` leaves, or the exception its `add` raises:
      an explicit `None` leaves it empty, anything else queues exactly one
      instant. */
  function InitialItems(default: seq<int>, args: seq<Arg>, kw: map<string, Arg>, tzinfo: Option<TzInfo>)
    : (r: Result<seq<int>>)
    ensures r.Ok? ==> (|r.value| == 0 <==> args == [NoneArg]) && |r.value| <= 1
    ensures r.Err? <==> args != [NoneArg] && AddedInstance(ConstructionArgs(default, args, kw), kw, tzinfo).Err?
    ensures r.Ok? && args != [NoneArg] ==> r.value == [AddedInstance(ConstructionArgs(default, args, kw), kw, tzinfo).value]
  {
    if args == [NoneArg] then Ok([])
    else
      match AddedInstance(ConstructionArgs(default, args, kw), kw, tzinfo)
      case Ok(instance) => Ok([instance])
      case Err(e) => Err(e)
  }

  /** How `mock_datetime` picks the zone and the positionals: an 8th
      positional is the zone and is cut off with anything after it, beating
      the `tzinfo` keyword; otherwise the keyword, else the zone of a
      `datetime` passed first. */
  function SelectTzInfo(args: seq<Arg>, tzinfo: Option<TzInfo>): (r: (Option<TzInfo>, seq<Arg>))
    requires |args| > 7 ==> args[7].TzArg? || args[7].NoneArg?
    ensures r.1 == if |args| > 7 then args[..7] else args
    ensures |args| > 7 ==> r.0 == if args[7].TzArg? then Some(args[7].tz) else None
    ensures |args| <= 7 && tzinfo.Some? ==> r.0 == tzinfo
    ensures |args| <= 7 && tzinfo.None? ==> r.0 == (if TakesInstance(args) then args[0].dt.tzinfo else None)
  {
    if |args| > 7 then
      (if args[7].TzArg? then Some(args[7].tz) else None, args[..7])
    else if tzinfo.Some? then (tzinfo, args)
    else if TakesInstance(args) then (args[0].dt.tzinfo, args)
    else (None, args)
  }

  /** A generated mock `datetime` class. */
  class MockDateTime {
    const queue: Queue
    const tzinfo: Option<TzInfo>
    /** Only decides which class instances are built as; no rule uses it. */
    const strict: bool

    /** The configuration `__init_subclass__` stores for a concrete class. */
    constructor (queue: Queue, strict: bool, tzinfo: Option<TzInfo>)
      ensures this.queue == queue && this.strict == strict && this.tzinfo == tzinfo
    {
      this.queue := queue;
      this.strict := strict;
      this.tzinfo := tzinfo;
    }

    /** `add`: appends one instant at the back, or raises ValueError and
        leaves the queue as it was. */
    method Add(args: seq<Arg>, kw: map<string, Arg>) returns (r: Outcome)
      modifies queue`items
      ensures match AddedInstance(args, kw, tzinfo)
              case Ok(instance) => r == Pass && queue.items == old(queue.items) + [instance]
              case Err(e) => r == Fail(e) && queue.items == old(queue.items)
    {
      var added := AddedInstance(args, kw, tzinfo);
      if added.Err? {
        return Fail(added.error);
      }
      queue.items := queue.items + [added.value];
      r := Pass;
    }

    /** `set`: clears the queue, then adds. A failed `set` leaves it empty. */
    method Set(args: seq<Arg>, kw: map<string, Arg>) returns (r: Outcome)
      modifies queue`items
      ensures match AddedInstance(args, kw, tzinfo)
              case Ok(instance) => r == Pass && queue.items == [instance]
              case Err(e) => r == Fail(e) && queue.items == []
    {
      queue.items := [];
      r := Add(args, kw);
    }

    /** `now(tz)`: one read of the queue, then the zone arithmetic. The read
        happens even when the arithmetic then raises. */
    method Now(tz: Option<TzInfo>) returns (r: Result<DateTime>)
      modifies queue`items, queue`delta
      ensures queue.State() == Step(old(queue.State())).1
      ensures r == match Step(old(queue.State())).0
                   case Err(e) => Err(e)
                   case Ok(instance) => NowValue(instance, tzinfo, tz)
    {
      var read := queue.Next();
      if read.Err? {
        return Err(read.error);
      }
      var instance := read.value;
      if tz.Some? {
        var utc := AdjustToUtc(instance, tzinfo);
        if utc.Err? {
          return Err(utc.error);
        }
        instance := utc.value;
        if tz.value.offset.Some? {
          instance := instance + tz.value.offset.value;
        }
        r := Ok(DateTime(instance, tz));
      } else {
        r := Ok(DateTime(instance, None));
      }
    }
  }

  /** `date()` of a mock instance: the day, as a proleptic Gregorian ordinal,
      that its wall clock falls in. The zone plays no part. */
  function Date(dt: DateTime): (d: int)
    ensures d * Calendar.MicrosPerDay <= dt.wall < (d + 1) * Calendar.MicrosPerDay
  {
    Calendar.DateOf(dt.wall)
  }

  /** The date of an instant built from components is their year, month and
      day, and no other valid components share it. */
  lemma DateOfComponents(c: Calendar.Components, zone: Option<TzInfo>)
    requires Calendar.Valid(c)
    ensures Date(DateTime(Calendar.ToMicros(c), zone)) == Calendar.Ordinal(c.year, c.month, c.day)
    ensures forall d :: Calendar.Valid(d) && Date(DateTime(Calendar.ToMicros(d), zone)) == Date(DateTime(Calendar.ToMicros(c), zone))
                        ==> (d.year, d.month, d.day) == (c.year, c.month, c.day)
  {
    Calendar.DateOfToMicros(c);
  }

  /** `mock_factory`: a fresh class with a fresh queue, filled by one `add`
      unless the positionals are exactly `(None,)`. */
  method MockFactory(
    default: seq<int>, args: seq<Arg>, kw: map<string, Arg>,
    delta: Option<int>, deltaType: string, deltaDelta: int := 1,
    tzinfo: Option<TzInfo> := None, strict: bool := false)
    returns (r: Result<MockDateTime>)
    ensures var items := InitialItems(default, args, kw, tzinfo);
            && (r.Err? <==> items.Err?)
            && (r.Err? ==> r.error == items.error)
            && (r.Ok? ==> fresh(r.value) && fresh(r.value.queue)
                          && r.value.tzinfo == tzinfo && r.value.strict == strict
                          && r.value.queue.State() == Initial(delta, deltaDelta, deltaType).(items := items.value))
  {
    var queue := new Queue(delta, deltaDelta, deltaType);
    var cls := new MockDateTime(queue, strict, tzinfo);
    if args != [NoneArg] {
      var addArgs := args;
      if args == [] && kw == map[] {
        addArgs := AsIntArgs(default);
      }
      var added := cls.Add(addArgs, kw);
      if added.Fail? {
        return Err(added.error);
      }
    }
    r := Ok(cls);
  }

  /** `mock_datetime`: chooses the zone, then builds the class with the
      default 2001-01-01 00:00:00 and steps growing by 10 when no `delta`
      is given. */
  method MockDatetime(
    args: seq<Arg>, tzinfo: Option<TzInfo> := None, delta: Option<int> := None,
    deltaType: string := DefaultDeltaType, strict: bool := false, kw: map<string, Arg> := map[])
    returns (r: Result<MockDateTime>)
    requires |args| > 7 ==> args[7].TzArg? || args[7].NoneArg?
    ensures var (zone, rest) := SelectTzInfo(args, tzinfo);
            var items := InitialItems(DefaultDateTime, rest, kw, zone);
            && (r.Err? <==> items.Err?)
            && (r.Err? ==> r.error == items.error)
            && (r.Ok? ==> fresh(r.value) && fresh(r.value.queue)
                          && r.value.tzinfo == zone && r.value.strict == strict
                          && r.value.queue.State()
                             == Initial(delta, MockDatetimeDeltaDelta, deltaType).(items := items.value))
  {
    var (zone, rest) := SelectTzInfo(args, tzinfo);
    r := MockFactory(DefaultDateTime, rest, kw, delta, deltaType, MockDatetimeDeltaDelta, zone, strict);
  }

  /** `mock_datetime()` with no arguments queues 2001-01-01 00:00:00 in a
      naive clock. */
  lemma DefaultMockDatetimeQueue()
    ensures SelectTzInfo([], None) == (None, [])
    ensures InitialItems(DefaultDateTime, [], map[], None) == Ok([DefaultInstant])
  {
    var c := Calendar.Components(2001, 1, 1, 0, 0, 0, 0);
    var args := AsIntArgs(DefaultDateTime);
    assert ConstructionArgs(DefaultDateTime, [], map[]) == args;
    assert ResolveComponents(args, map[]) == c by {
      IntArgsOfInts(DefaultDateTime);
    }
    assert Calendar.Valid(c);
    assert AddedInstance(args, map[], None) == Ok(DefaultInstant);
  }

  /** With no `delta`, a `mock_datetime` clock holding `x` in seconds reads
      it back advanced by 0, 10, 30, 60, ... seconds: read `k + 1` comes
      `10 * (k + 1)` seconds after read `k`. */
  lemma DefaultMockDatetimeReads(x: int, k: nat)
    ensures var s := Initial(None, MockDatetimeDeltaDelta, DefaultDeltaType).(items := [x]);
            && ReadAt(s, k) == Ok(x + 10_000_000 * Tri(k))
            && ReadAt(s, k + 1) == Ok(x + 10_000_000 * Tri(k) + (k + 1) * 10_000_000)
  {
    var s := Initial(None, MockDatetimeDeltaDelta, DefaultDeltaType).(items := [x]);
    assert s.deltaType == Deltas.Seconds;
    NoDeltaReads(s, k);
  }

  /** `mock_datetime(None)` leaves the queue empty, so the first `now()`
      raises IndexError until something is added. */
  lemma ExplicitNoneLeavesQueueEmpty(kw: map<string, Arg>, zone: Option<TzInfo>, delta: Option<int>, deltaType: string)
    ensures InitialItems(DefaultDateTime, [NoneArg], kw, zone) == Ok([])
    ensures ReadAt(Initial(delta, MockDatetimeDeltaDelta, deltaType), 0) == Err(EmptyQueue)
  {
  }

  /** An aware `datetime` passed first, with no `tzinfo` keyword, configures
      its own zone, so its `add` is accepted and queues its wall clock. */
  lemma AwareDefaultConfiguresItsZone(dt: DateTime, kw: map<string, Arg>)
    requires dt.tzinfo.Some?
    ensures SelectTzInfo([DateTimeArg(dt)], None) == (dt.tzinfo, [DateTimeArg(dt)])
    ensures InitialItems(DefaultDateTime, [DateTimeArg(dt)], kw, dt.tzinfo) == Ok([dt.wall])
  {
  }

  /** An aware `datetime` passed first together with a different `tzinfo`
      keyword makes construction raise ValueError. */
  lemma ConflictingZoneRejected(dt: DateTime, zone: TzInfo, kw: map<string, Arg>)
    requires dt.tzinfo.Some? && dt.tzinfo != Some(zone)
    ensures SelectTzInfo([DateTimeArg(dt)], Some(zone)).0 == Some(zone)
    ensures InitialItems(DefaultDateTime, [DateTimeArg(dt)], kw, Some(zone)) == Err(TzInfoMismatch)
  {
  }

  /** With eight or more positionals the `tzinfo` keyword is not consulted at
      all: a disagreeing keyword is silently overridden, never an error. */
  lemma EighthPositionalOverridesKeyword(args: seq<Arg>, kw1: Option<TzInfo>, kw2: Option<TzInfo>)
    requires |args| > 7 && (args[7].TzArg? || args[7].NoneArg?)
    ensures SelectTzInfo(args, kw1) == SelectTzInfo(args, kw2)
    ensures |SelectTzInfo(args, kw1).1| == 7
  {
  }

  /** `mock_datetime(2001, 1, 1, delta=1, delta_type='days')` reads
      2001-01-01, 2001-01-02, 2001-01-03, ... through January. */
  lemma DailyClockReads(k: nat)
    requires k < 31
    ensures var args := [IntArg(2001), IntArg(1), IntArg(1)];
            InitialItems(DefaultDateTime, args, map[], None) == Ok([DefaultInstant])
    ensures var s := Initial(Some(1), MockDatetimeDeltaDelta, "days").(items := [DefaultInstant]);
            ReadAt(s, k) == Ok(Calendar.ToMicros(Calendar.Components(2001, 1, 1 + k, 0, 0, 0, 0)))
  {
    var args := [IntArg(2001), IntArg(1), IntArg(1)];
    assert ResolveComponents(args, map[]) == Calendar.Components(2001, 1, 1, 0, 0, 0, 0) by {
      assert args == AsIntArgs([2001, 1, 1]);
      IntArgsOfInts([2001, 1, 1]);
    }
    assert Calendar.Valid(Calendar.Components(2001, 1, 1, 0, 0, 0, 0));
    assert AddedInstance(args, map[], None) == Ok(DefaultInstant);
    var day := Calendar.Components(2001, 1, 1 + k, 0, 0, 0, 0);
    assert Calendar.ToMicros(day) == DefaultInstant + k * Calendar.MicrosPerDay by {
      assert Calendar.Ordinal(2001, 1, 1 + k) == Calendar.Ordinal(2001, 1, 1) + k;
    }
    var s := Initial(Some(1), MockDatetimeDeltaDelta, "days").(items := [DefaultInstant]);
    assert ReadAt(s, k) == Ok(DefaultInstant + k * Calendar.MicrosPerDay) by {
      assert s.deltaType == Deltas.Days;
      ExplicitDeltaReads(s, k);
    }
  }

  /** The reads of a clock holding `x, y` that does not advance. */
  lemma FrozenScript(x: int, y: int)
    ensures Step(QueueState([x, y], 0, 0, Deltas.Seconds)) == (Ok(x), QueueState([y], 0, 0, Deltas.Seconds))
    ensures Step(QueueState([y], 0, 0, Deltas.Seconds)) == (Ok(y), QueueState([y], 0, 0, Deltas.Seconds))
  {
    assert [x, y][1..] == [y];
    LastStep(y, 0, 0, Deltas.Seconds);
  }

  /** A scripted sequence on a clock that does not advance: after
      `mock_datetime(None, delta=0)`, `add(a)` and `add(b)`, reads return
      `a`, then `b`, then `b` again. */
  method ScriptedReads(a: Calendar.Components, b: Calendar.Components)
    returns (first: Result<DateTime>, second: Result<DateTime>, third: Result<DateTime>)
    requires Calendar.Valid(a) && Calendar.Valid(b)
    ensures first == Ok(DateTime(Calendar.ToMicros(a), None))
    ensures second == Ok(DateTime(Calendar.ToMicros(b), None))
    ensures third == second
  {
    ExplicitNoneLeavesQueueEmpty(map[], None, Some(0), "seconds");
    var made := MockDatetime([NoneArg], delta := Some(0));
    var clock := made.value;
    AddedComponentsDetermineInstant(a, a, None);
    AddedComponentsDetermineInstant(b, b, None);
    var x, y := Calendar.ToMicros(a), Calendar.ToMicros(b);
    var added := clock.Add(AsPositionals(a), map[]);
    added := clock.Add(AsPositionals(b), map[]);
    var full := QueueState([x, y], 0, 0, Deltas.Seconds);
    FrozenScript(x, y);
    assert clock.queue.State() == full;
    first := clock.Now(None);
    second := clock.Now(None);
    third := clock.Now(None);
  }
}
