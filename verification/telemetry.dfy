/**
 * The row of vehicle telemetry that CarDrawable.update reads from its cursor,
 * already decoded: every flag is the result of comparing the column text with
 * "true", every time is a Java `long` of epoch milliseconds.
 */
module Telemetry {

  const MinLong: int := -0x8000_0000_0000_0000
  const MaxLong: int := 0x7FFF_FFFF_FFFF_FFFF
  const LongModulus: int := 0x1_0000_0000_0000_0000

  /** A Java `long`. */
  type Long = x: int | -0x8000_0000_0000_0000 <= x <= 0x7FFF_FFFF_FFFF_FFFF

  /** 24 * 60 * 60 * 1000: the staleness window; it fits a Java `int`. */
  const DayMillis: int := 24 * 60 * 60 * 1000

  /** Two's-complement wrap of a mathematical integer into the `long` range. */
  function WrapLong(x: int): (r: Long)
    ensures MinLong <= x <= MaxLong ==> r == x
    ensures x < MinLong && MinLong <= x + LongModulus ==> r == x + LongModulus
  {
    (x + 0x8000_0000_0000_0000) % 0x1_0000_0000_0000_0000 - 0x8000_0000_0000_0000
  }

  datatype Snapshot = Snapshot(
    eventTime: Long,     // time of the last telemetry event
    guardTime: Long,     // when the alarm was armed
    cardTime: Long,      // when the access card was last used
    guard: bool,
    guard0: bool,
    guard1: bool,
    zoneAccessory: bool,
    zoneDoor: bool,
    zoneHood: bool,
    zoneTrunk: bool,
    zoneIgnition: bool,
    input1: bool,        // doors open (two-door layout)
    input2: bool,        // trunk open
    input3: bool,        // ignition on
    input4: bool,        // hood open
    az: bool,            // autostart: engine running
    doors4: bool,        // four-door icon set
    doorFl: bool,
    doorFr: bool,
    doorBl: bool,
    doorBr: bool)

  /** The 24-hour threshold `now - DayMillis`, computed in `long` arithmetic. */
  function StaleThreshold(now: Long): Long {
    WrapLong(now - DayMillis)
  }

  /** The data is too old to show: its event lies strictly before the threshold. */
  predicate IsStale(eventTime: Long, now: Long) {
    eventTime < StaleThreshold(now)
  }

  /**
   * The card override: armed, with a positive card time that is earlier
   * than the (positive) guard time. The times are only read while armed.
   */
  function CardUsed(s: Snapshot): (card: bool)
    ensures card <==> s.guard && 0 < s.cardTime < s.guardTime
  {
    if s.guard then s.guardTime > 0 && s.cardTime > 0 && s.cardTime < s.guardTime
    else false
  }

  /** The light ("safe") palette: not armed, both guard bits set, or card override. */
  function IsWhite(s: Snapshot): (white: bool)
    ensures !s.guard ==> white
    ensures !white ==> s.guard && !(s.guard0 && s.guard1) && !CardUsed(s)
  {
    !s.guard || (s.guard0 && s.guard1) || CardUsed(s)
  }

  /** While the clock has not wrapped, staleness is a plain comparison, and the boundary itself is fresh. */
  lemma StaleBoundary(eventTime: Long, now: Long)
    requires MinLong + DayMillis <= now
    ensures IsStale(eventTime, now) <==> eventTime < now - DayMillis
    ensures eventTime == now - DayMillis ==> !IsStale(eventTime, now)
  {
  }

  /** Within a day of the smallest `long`, the threshold wraps to a huge value and every event is stale. */
  lemma StaleThresholdWraps(eventTime: Long, now: Long)
    requires now < MinLong + DayMillis
    ensures StaleThreshold(now) == now - DayMillis + LongModulus
    ensures eventTime <= MaxLong - DayMillis ==> IsStale(eventTime, now)
  {
  }
}
