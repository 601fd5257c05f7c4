# A model of testfixtures' scripted clock

`testfixtures.mock_datetime` builds a stand-in for `datetime.datetime` whose
`now()` is scripted by the test. Instants go into a queue with `add`/`set`.
Each `now()` pops the front instant. When it pops the last one, the queue
first re-appends that instant advanced by a step, so the clock does not run
dry. With no `delta` the step grows by `delta_delta` at every such read; an
explicit `delta` keeps it fixed (`delta=0` freezes the clock, and a negative
`delta` moves it back). This project models that engine in Dafny and proves what it
does:

- `Queue` and its `next` / `advance_next` (module `Queues`);
- how `add` turns its arguments into an instant (module `Arguments`), over a
  model of the proleptic Gregorian calendar that `datetime(...)` uses (module
  `Calendar`);
- the `timedelta` units a `delta_type` can name (module `Deltas`);
- the zone arithmetic of `now(tz)` (module `Zones`);
- the mock class itself (`add`, `set`, `now`, `date`) and its construction by
  `mock_factory` and `mock_datetime` (module `Mock`).

Representation:

- An instant is an integer count of microseconds since 0001-01-01 00:00 minus
  one day, so `Calendar.ToMicros(c) / MicrosPerDay` is the date's proleptic
  Gregorian ordinal, as `date.toordinal()` gives it.
- Every queued instant is naive, because `add` strips the zone. So the queue
  holds bare integers.
- A `tzinfo` is a fixed UTC offset in microseconds, or None when its
  `utcoffset()` returns None.
- The exceptions the code raises are `Wrappers.Error` values:
  - `EmptyQueue` is IndexError;
  - `UnknownDeltaType` is TypeError from `timedelta`;
  - `ComponentOutOfRange` is ValueError, or OverflowError for a component
    beyond the C int range;
  - `TzInfoMismatch` is ValueError;
  - `UtcOffsetIsNone` is TypeError.

The queue and the mock class are Dafny classes, because the source updates
them in place. `Queue.Next` is proved against the pure `Queues.Step`. The
lemmas about several reads are stated with `Iterate` / `ReadAt`, which apply
`Step` repeatedly.

Behaviour of the code that is easy to misread:

- **No `delta` does not freeze the clock.** With no `delta` the step starts
  at 0 and grows by `delta_delta` before each auto-advance. For
  `mock_datetime` that is 10 units, giving gaps of 10, 20, 30 seconds
  (`Mock.DefaultMockDatetimeReads`). Only an explicit `delta=0` freezes the
  clock (`Queues.ExplicitDeltaReads`).
- **A bad `delta_type` is not refused at construction or at `add`.** It
  raises at the read that drains the queue. By then that read has already
  popped the instant and grown the step, so the read after it raises
  IndexError (`Queues.UnknownUnitFailsWhenDrained`).
- **An 8th positional zone and the `tzinfo` keyword never conflict.** The
  8th positional silently replaces the `tzinfo` keyword (`Mock.EighthPositionalOverridesKeyword`).
- **`strict` does not check awareness.** It only chooses the class that
  instances are built as.
- **There is no `tick`: nothing appends the last instant plus a delta on
  request.** The only such append is the auto-advance inside a read that
  drains the queue. `advance_next` shifts the last queued instant in place.
- **A clock built with an explicit `None` has an empty queue.** Its first
  `now()` raises IndexError until something is added
  (`Mock.ExplicitNoneLeavesQueueEmpty`).

## Model

| member | source | states |
|---|---|---|
| Queues.Queue.constructor | testfixtures/datetime.py:16-24 | The queue starts empty. An explicit `delta` sets the step and zeroes `delta_delta`. No `delta` sets the step to 0 and keeps `delta_delta`. |
| Queues.Step | testfixtures/datetime.py:29-35 | A read fails exactly when the queue is empty, or when it holds one instant and the unit is unknown. An empty queue is left unchanged. A successful read returns the front instant and keeps the rest in order. Afterwards the length is max(n-1, 1). `delta_delta` and `delta_type` never change. |
| Queues.Queue.Next | testfixtures/datetime.py:29-35 | The returned value and the new fields are exactly `Step` of the old fields. |
| Queues.Queue.AdvanceNext | testfixtures/datetime.py:26-27 | On an empty queue it raises IndexError and changes nothing. Otherwise the queue becomes `AdvanceLast(old, d)`. |
| Queues.AdvanceLast | testfixtures/datetime.py:26-27 | The length is the same, the last element has moved by `d`, and every other element is unchanged. |
| Queues.AdvanceMovesLastRead | testfixtures/datetime.py:26-35 | After `advance_next(d)` the reads before the last queued instant are unchanged, and the read of that instant moves by `d`. |
| Queues.LastInstantReads | testfixtures/datetime.py:29-35 | From the last queued instant on, read `k` is that instant plus the steps of the auto-advances before it. |
| Queues.AdvanceMovesLaterReads | testfixtures/datetime.py:26-35 | Every read from the last queued instant on moves by `d` after `advance_next(d)`, because the auto-advance re-queues from the shifted instant. |
| Queues.ReadsInInsertionOrder | testfixtures/datetime.py:29-35 | Read `k` of a queue holding `n` instants returns the `k`-th instant, for `k < n`. The queue then holds the remaining suffix, with no auto-advance yet. The one exception is the last read with an unknown unit, which raises TypeError. |
| Queues.ReadsKeepSuffix | testfixtures/datetime.py:29-31 | Until the last instant is taken, each read only drops the front instant. |
| Queues.QueueDrained | testfixtures/datetime.py:29-35 | Reading a queue of `n` instants `n` times ends in the state that reading its last instant alone gives, with the same `delta`. |
| Queues.LastStep | testfixtures/datetime.py:31-35 | Reading the only queued instant returns it, grows the step by `delta_delta` and queues the instant advanced by the grown step. With an unknown unit it raises TypeError and leaves the queue empty, with the step already grown. |
| Queues.UnknownUnitFailsWhenDrained | testfixtures/datetime.py:31-33 | With an unknown unit, read `n-1` raises TypeError naming the unit and read `n` raises IndexError. |
| Queues.IterateSplit | testfixtures/datetime.py:29-35 | `j + k` reads are `j` reads followed by `k` reads. |
| Queues.SingleInstantIterate | testfixtures/datetime.py:31-34 | Starting from one instant `x`, after `k` reads the step is `delta + k*delta_delta`. The queued instant is then `x + unit*(k*delta + delta_delta*(1+...+k))`. |
| Queues.ExplicitDeltaReads | testfixtures/datetime.py:21-23 | With an explicit `delta` d, read `k` of a single instant `x` is `x + k*d` units. With `d = 0` every read returns `x`. |
| Queues.NoDeltaReads | testfixtures/datetime.py:18-20 | With no `delta`, read `k` is `x + delta_delta*(1+...+k)` units. So read `k+1` comes `(k+1)*delta_delta` units after read `k`. |
| Deltas.Parse | testfixtures/datetime.py:24 | A `delta_type` is a unit exactly when it is one of the seven `timedelta` keywords. `Name` gives the string back unchanged. |
| Deltas.ParseName | testfixtures/datetime.py:24 | Every unit reads back from its keyword. |
| Deltas.UnitMicros | testfixtures/datetime.py:33 | Each known unit is a positive number of microseconds. An unknown name has none. |
| Deltas.UnitLengths | testfixtures/datetime.py:33 | The units relate as `timedelta` defines them: 1 microsecond, 1000 of those a millisecond, 1000 milliseconds a second, 60 seconds a minute, 60 minutes an hour, 24 hours a day (the calendar's day) and 7 days a week. |
| Deltas.Timedelta | testfixtures/datetime.py:33 | `timedelta(**{unit: amount})` raises TypeError naming the unit exactly when the unit is unknown. Otherwise it is `amount` units. |
| Calendar.DaysInMonth | testfixtures/datetime.py:106 | A month has 28 to 31 days, and 29 exactly in February of a leap year. |
| Calendar.ToMicros | testfixtures/datetime.py:106 | The built instant splits into the date's ordinal (whole days) and the time of day. |
| Calendar.ToMicrosInOrder | testfixtures/datetime.py:106 | Components earlier in year, month, day, hour, minute, second, microsecond order build an earlier instant. |
| Calendar.ToMicrosInjective | testfixtures/datetime.py:106 | Different valid components never build the same instant, so a queued instant determines the components it was built from. |
| Calendar.DateOfToMicros | testfixtures/datetime.py:362-366 | The day an instant falls in is its date's ordinal. Instants on the same day share year, month and day. |
| Arguments.IntArgs | testfixtures/datetime.py:82 | The integer positionals: each of them and nothing else. |
| Arguments.AddedInstance | testfixtures/datetime.py:64-106 | For a `datetime` first positional, ValueError exactly when it is aware with a zone other than the configured one, else its naive wall clock. Otherwise the components must pass `datetime(...)`'s range checks (ValueError, or OverflowError beyond a C int, if not), and then the result is the instant they denote. |
| Arguments.PositionalsRoundTrip | testfixtures/datetime.py:82-106 | Seven integer positionals are taken as year..microsecond in order. |
| Arguments.KeywordsOverridePositionals | testfixtures/datetime.py:85-104 | With all seven components given as integer keywords, the components are exactly those keywords, whatever the positionals are. |
| Arguments.OnlyIntComponentsMatter | testfixtures/datetime.py:82-104 | Non-integer positionals, non-integer keywords and keywords that name no component are all ignored. |
| Arguments.NonIntPositionalIgnored | testfixtures/datetime.py:82 | Inserting a non-integer positional anywhere changes none of the seven components. |
| Arguments.AddedComponentsDetermineInstant | testfixtures/datetime.py:82-107 | Valid positional components queue the instant they denote, and that instant determines them. |
| Zones.AdjustToUtc | testfixtures/datetime.py:326-332 | With no configured zone the instant is unchanged. With one, the result plus the zone's offset is the instant. An offset of None raises TypeError. |
| Zones.NowValue | testfixtures/datetime.py:346-355 | With no `tz` the naive instant is returned. With `tz`, TypeError exactly when the configured zone has no offset, and otherwise the result is tagged with `tz`. |
| Zones.NowDenotesQueuedInstant | testfixtures/datetime.py:346-355 | Whatever zone with a UTC offset is asked for, the result denotes the same UTC instant: the queued wall clock read in the configured zone. |
| Zones.NowInZoneWithoutOffset | testfixtures/datetime.py:346-355 | For a `tz` whose offset is None, no offset is added: the result is the queued wall clock converted to UTC from the configured zone, tagged with `tz`. |
| Zones.NowInConfiguredZone | testfixtures/datetime.py:346-355 | Asking for the configured zone, when that zone has a UTC offset, gives back the queued wall clock, tagged with that zone. |
| Mock.MockDateTime.constructor | testfixtures/datetime.py:55-61 | The class keeps the queue, `strict` and the zone it was configured with. |
| Mock.MockDateTime.Add | testfixtures/datetime.py:64-107 | On success exactly one instant, the one `AddedInstance` gives, is appended at the back. When `add` raises, the queue is unchanged. |
| Mock.MockDateTime.Set | testfixtures/datetime.py:110-112 | A successful `set` leaves exactly the one instant. A failed `set` leaves the queue empty. |
| Mock.MockDateTime.Now | testfixtures/datetime.py:335-355 | The queue moves exactly as one `Step`. The result is that read's error, or `NowValue` of the instant read, so the pop happens even when the zone arithmetic then raises. |
| Mock.Date | testfixtures/datetime.py:357-366 | `date()` is the day whose span of microseconds contains the wall clock. |
| Mock.DateOfComponents | testfixtures/datetime.py:357-366 | The date of an instant built from components is their year, month and day, and no other valid components share it. |
| Mock.InitialItems | testfixtures/datetime.py:190-193 | Construction leaves an empty queue exactly for `(None,)`, and otherwise exactly the one instant that its `add` builds. It fails exactly when that one `add` fails. |
| Mock.SelectTzInfo | testfixtures/datetime.py:462-466 | An 8th positional is the zone, and the positionals are cut to seven. Otherwise the zone is the keyword if given; without one it is exactly the zone of a `datetime` passed first, and None when no `datetime` comes first. |
| Mock.MockFactory | testfixtures/datetime.py:166-195 | A fresh class and a fresh queue, configured with the given zone and `strict`. The queue is `Queue(delta, delta_delta, delta_type)` filled with `InitialItems`, or the `add` error is raised. `delta_delta` defaults to 1, the zone to None and `strict` to false. |
| Mock.MockDatetime | testfixtures/datetime.py:446-479 | Same as `mock_factory`, but with the zone and positionals from `SelectTzInfo`, the default 2001-01-01 00:00:00 and `delta_delta` 10. The zone and `delta` default to None, `delta_type` to 'seconds', `strict` to false and the keywords to none. |
| Mock.DefaultMockDatetimeQueue | testfixtures/datetime.py:466-475 | With no arguments the clock is naive and holds 2001-01-01 00:00:00. |
| Mock.DefaultMockDatetimeReads | testfixtures/datetime.py:470-476 | With no `delta`, successive reads are 10, 20, 30, ... seconds apart. |
| Mock.ExplicitNoneLeavesQueueEmpty | testfixtures/datetime.py:190 | `mock_datetime(None)` queues nothing, so the first read raises IndexError. |
| Mock.AwareDefaultConfiguresItsZone | testfixtures/datetime.py:466 | An aware `datetime` passed first configures its own zone, so its `add` succeeds. |
| Mock.ConflictingZoneRejected | testfixtures/datetime.py:66-75 | An aware `datetime` passed first together with a different `tzinfo` keyword raises ValueError. |
| Mock.EighthPositionalOverridesKeyword | testfixtures/datetime.py:462-464 | With eight or more positionals the keyword is never consulted, and seven positionals remain. |
| Mock.DailyClockReads | testfixtures/datetime.py:446-479 | `mock_datetime(2001, 1, 1, delta=1, delta_type='days')` reads 2001-01-01, 2001-01-02, ... through January. |
| Mock.ScriptedReads | testfixtures/datetime.py:63-112 | After `mock_datetime(None, delta=0)`, `add(a)` and `add(b)`, three reads give `a`, `b`, `b`. |

## Left out

- The dynamic class machinery is reduced to one configuration object per generated class: `type(...)` creation, `__init_subclass__` wiring, `__new__` dispatch and `_mock_base_class`.
- `strict` is stored but not modelled further: it only chooses which class `__new__` builds instances as.
- `date_type` is not modelled: `Mock.Date` returns the day as an ordinal instead of an instance of the configured date class.
- Code that is commented out in the source is not modelled: `tick`, `utcnow`, `MockDate`/`mock_date`, `MockTime`/`mock_time` and `_correct_mock_type`.
- `delta` and `delta_delta` are integers; float amounts and `timedelta`'s rounding of them are not modelled.
- Python's `datetime` range limits on arithmetic (OverflowError when a step leaves years 1-9999) are not modelled. Auto-advanced instants are unbounded integers.
- Time zones are fixed offsets. DST-dependent `utcoffset()` and `datetime`'s check that an offset is less than a day are not modelled.
- Adding a plain `date` (not a `datetime`) as the first positional of `add` is not modelled.
- Components that do not fit a C int make `datetime(...)` raise OverflowError rather than ValueError; the model reports every rejected tuple as `ComponentOutOfRange`, with the same effect on the queue.
- A `bool` counts as an `int` in Python's `isinstance`; the model has no separate `bool` argument.
- Mock.SelectTzInfo: requires the 8th positional, when present, to be a `tzinfo` or None. The source would store any other value there as the zone.
- Mock.MockDatetime: requires the 8th positional, when present, to be a `tzinfo` or None. The source would store any other value there as the zone.
- `type_name` and the repr of the generated class are not modelled.
- testfixtures/django.py and testfixtures/rmtree.py are not part of this model: they are database glue and filesystem I/O.
