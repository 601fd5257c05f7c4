/**
 * Time zones and the value `now()` returns.
 *
 * A `tzinfo` is reduced to a fixed UTC offset in microseconds, or None when
 * its `utcoffset()` returns None. A `datetime` is its wall-clock instant
 * (see module Calendar) with an optional `tzinfo`; without one it is naive.
 */
module Zones {
  import opened Wrappers

  /** A `tzinfo` object. `id` stands for whatever else makes two zones
      unequal under Python's `==`: their identity, for `tzinfo` classes
      without their own `==`. A `datetime.timezone` equals any other with the
      same offset, so two of those differ only in `offset`. */
  datatype TzInfo = TzInfo(id: nat, offset: Option<int>)

  /** A `datetime`: wall-clock microseconds and the zone it is tagged with. */
  datatype DateTime = DateTime(wall: int, tzinfo: Option<TzInfo>)

  /** `_adjust_instance_using_tzinfo`: reads a queued wall-clock instant as
      local time in the configured zone and turns it into UTC. Without a
      configured zone the instant is taken to be UTC already. */
  function AdjustToUtc(instance: int, configured: Option<TzInfo>): (r: Result<int>)
    ensures r.Err? <==> configured.Some? && configured.value.offset.None?
    ensures r.Err? ==> r.error == UtcOffsetIsNone
    ensures r.Ok? && configured.Some? ==> r.value + configured.value.offset.value == instance
    ensures r.Ok? && configured.None? ==> r.value == instance
  {
    match configured
    case None => Ok(instance)
    case Some(zone) =>
      match zone.offset
      case None => Err(UtcOffsetIsNone)
      case Some(offset) => Ok(instance - offset)
  }

  /** The UTC instant an aware `datetime` denotes; None when it has no offset. */
  function UtcOf(dt: DateTime): Option<int> {
    if dt.tzinfo.Some? && dt.tzinfo.value.offset.Some? then Some(dt.wall - dt.tzinfo.value.offset.value)
    else None
  }

  /** What `now(tz)` makes of the instant it read from the queue. Without
      `tz` the naive instant is returned as it is. With `tz` the instant is
      moved to UTC, then to `tz`'s wall clock, and tagged with `tz`; a `tz`
      without an offset only tags it. */
  function NowValue(instance: int, configured: Option<TzInfo>, tz: Option<TzInfo>): (r: Result<DateTime>)
    ensures tz.None? ==> r == Ok(DateTime(instance, None))
    ensures tz.Some? ==> (r.Err? <==> configured.Some? && configured.value.offset.None?)
    ensures r.Err? ==> r.error == UtcOffsetIsNone
    ensures r.Ok? && tz.Some? ==> r.value.tzinfo == tz
  {
    match tz
    case None => Ok(DateTime(instance, None))
    case Some(zone) =>
      match AdjustToUtc(instance, configured)
      case Err(e) => Err(e)
      case Ok(utc) =>
        var local := match zone.offset
                     case Some(offset) => utc + offset
                     case None => utc;
        Ok(DateTime(local, tz))
  }

  /** Whatever zone with a UTC offset is asked for, `now(tz)` denotes the same UTC instant:
      the queued wall-clock instant read in the configured zone. */
  lemma NowDenotesQueuedInstant(instance: int, configured: Option<TzInfo>, tz: TzInfo)
    requires tz.offset.Some?
    requires configured.Some? ==> configured.value.offset.Some?
    ensures NowValue(instance, configured, Some(tz)).Ok?
    ensures UtcOf(NowValue(instance, configured, Some(tz)).value)
            == Some(if configured.Some? then instance - configured.value.offset.value else instance)
  {
  }

  /** A `tz` whose `utcoffset()` is None adds no offset: the result is the
      queued wall clock read in the configured zone, tagged with `tz`. */
  lemma NowInZoneWithoutOffset(instance: int, configured: Option<TzInfo>, tz: TzInfo)
    requires tz.offset.None?
    requires configured.Some? ==> configured.value.offset.Some?
    ensures AdjustToUtc(instance, configured).Ok?
    ensures NowValue(instance, configured, Some(tz)) == Ok(DateTime(AdjustToUtc(instance, configured).value, Some(tz)))
  {
  }

  /** Asking for the configured zone itself, when that zone has a UTC
      offset, gives the queued wall-clock instant back, now tagged with it. */
  lemma NowInConfiguredZone(instance: int, zone: TzInfo)
    requires zone.offset.Some?
    ensures NowValue(instance, Some(zone), Some(zone)) == Ok(DateTime(instance, Some(zone)))
  {
  }
}
