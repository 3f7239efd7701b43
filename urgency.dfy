/**
 * Minutes until departure, the "passed" test and the urgency tiers.
 *
 * Time is integer milliseconds since today's local midnight. `setHours(h, m, 0, 0)`
 * on today's date is the instant `h * 3600000 + m * 60000`, also when `h` or `m`
 * overflow (hour 25 is 01:00 tomorrow), which is what `setHours` does.
 */
module Urgency {
  import opened Wrappers
  import opened Text
  import opened TimeText

  const MsPerMinute: int := 60000
  const MsPerHour: int := 3600000
  const MsPerDay: int := 86400000

  /** The value used when the departure text cannot be read: two hours, never urgent. */
  const FallbackMinutes: real := 120.0

  /** Today at `h:m`. */
  function DepartureMs(h: int, m: int): int { h * MsPerHour + m * MsPerMinute }

  /** Today at `h:m` lies strictly before `now` (no rollover). */
  predicate PassedAt(h: int, m: int, now: int) { DepartureMs(h, m) < now }

  /**
   * `calculateTimeDifference` once the text is read: today at `h:m`, moved one
   * day on when that is before `now`, minus `now`, in (possibly fractional) minutes.
   */
  function MinutesUntil(h: int, m: int, now: int): (r: real)
    ensures 0 <= h < 24 && 0 <= m < 60 && 0 <= now < MsPerDay ==> 0.0 <= r < 1440.0
    ensures !PassedAt(h, m, now) ==> r >= 0.0
  {
    var departure := if DepartureMs(h, m) < now then DepartureMs(h, m) + MsPerDay else DepartureMs(h, m);
    (departure - now) as real / 60000.0
  }

  /** The one-day rollover happens exactly when today's departure has passed. */
  lemma RolloverIffPassed(h: int, m: int, now: int)
    ensures PassedAt(h, m, now) ==> MinutesUntil(h, m, now) * 60000.0 == (DepartureMs(h, m) + MsPerDay - now) as real
    ensures !PassedAt(h, m, now) ==> MinutesUntil(h, m, now) * 60000.0 == (DepartureMs(h, m) - now) as real
  {
  }

  /** At 23:50 a departure at "00:10" (no date) is 20 minutes away, not negative. */
  lemma MidnightRollover()
    ensures ExtractOrNull("00:10") == Some("00:10")
    ensures DepartureClock("00:10") == Some((0, 10))
    ensures MinutesLeft("00:10", 23 * MsPerHour + 50 * MsPerMinute) == 20.0
  {
    ParseClock("00:10");
    assert ClockHour("00:10") == "00" && ClockMinute("00:10") == "10";
    assert DigitsValue("00") == 0 by { assert "00"[..1] == "0"; }
    assert DigitsValue("10") == 10 by { assert "10"[..1] == "1"; }
  }

  // ---------------------------------------------------------------- from text

  /** The TVDisplay / StatsPage reading of a departure text: extract, then split and `Number`. */
  function DepartureClock(departure: string): (r: Option<(nat, nat)>)
    ensures r.Some? <==> ExtractOrNull(departure).Some?
    ensures r.Some? ==> r.value.0 < 100 && r.value.1 < 100
  {
    match ExtractOrNull(departure)
    case None => None
    case Some(t) => ParseClock(t); ParseHourMinute(t)
  }

  /**
   * The PassengerItem / PassengerList reading: the `"??:??"` placeholder is
   * refused, any other extracted (or raw) text goes through split and `Number`.
   */
  function RawDepartureClock(departure: string): Option<(nat, nat)>
  {
    var t := ExtractOrRaw(departure);
    if t == Unknown then None else ParseHourMinute(t)
  }

  /** On text that a rule recognises, both readings give the same hour and minute. */
  lemma ReadingsAgree(departure: string)
    ensures ExtractOrNull(departure).Some? ==> RawDepartureClock(departure) == DepartureClock(departure)
  {
  }

  /** `calculateTimeDifference` (TVDisplay): 120 when the text yields no time. */
  function MinutesLeft(departure: string, now: int): real
  {
    match DepartureClock(departure)
    case None => FallbackMinutes
    case Some((h, m)) => MinutesUntil(h, m, now)
  }

  /** `isFlightPassed` (TVDisplay, StatsPage): never passed when the text yields no time. */
  predicate IsPassed(departure: string, now: int)
  {
    match DepartureClock(departure)
    case None => false
    case Some((h, m)) => PassedAt(h, m, now)
  }

  /** `calculateTimeDifference` (PassengerItem). */
  function MinutesLeftRaw(departure: string, now: int): real
  {
    match RawDepartureClock(departure)
    case None => FallbackMinutes
    case Some((h, m)) => MinutesUntil(h, m, now)
  }

  /** `isFlightPassed` (PassengerItem) and the `activePassengers` filter of PassengerList. */
  predicate IsPassedRaw(departure: string, now: int)
  {
    match RawDepartureClock(departure)
    case None => false
    case Some((h, m)) => PassedAt(h, m, now)
  }

  /**
   * A flight is passed exactly when its text yields a time and the
   * time-difference rule had to roll that time over to tomorrow; otherwise
   * the minutes left are never negative.
   */
  lemma PassedIffRolledOver(departure: string, now: int)
    ensures IsPassedRaw(departure, now) <==>
      (RawDepartureClock(departure).Some? &&
       var (h, m) := RawDepartureClock(departure).value;
       MinutesLeftRaw(departure, now) * 60000.0 == (DepartureMs(h, m) + MsPerDay - now) as real)
    ensures !IsPassedRaw(departure, now) ==> MinutesLeftRaw(departure, now) >= 0.0
  {
    match RawDepartureClock(departure)
    case None =>
    case Some((h, m)) =>
      RolloverIffPassed(h, m, now);
      if !PassedAt(h, m, now) {
        assert (DepartureMs(h, m) - now) as real != (DepartureMs(h, m) + MsPerDay - now) as real;
      }
  }

  // ---------------------------------------------------------------- tiers

  /** The three flags the components derive from the minutes left. */
  datatype TimeDiff = TimeDiff(minutes: real, isUrgent: bool, isWarning: bool, isNormal: bool)

  function DiffData(minutes: real): TimeDiff
  {
    TimeDiff(minutes, minutes < 60.0, minutes >= 60.0 && minutes < 90.0, minutes >= 90.0)
  }

  /** Exactly one tier holds; 60 minutes is a warning and 90 is normal. */
  lemma TiersPartition(minutes: real)
    ensures var d := DiffData(minutes);
      (d.isUrgent || d.isWarning || d.isNormal)
      && !(d.isUrgent && d.isWarning) && !(d.isUrgent && d.isNormal) && !(d.isWarning && d.isNormal)
    ensures DiffData(60.0).isWarning && !DiffData(60.0).isUrgent
    ensures DiffData(90.0).isNormal && !DiffData(90.0).isWarning
    ensures DiffData(FallbackMinutes).isNormal
  {
  }

  datatype Colour = Green | Orange | Red

  /** The border and time colour: `>= 90` green, else `>= 60` orange, else red. */
  function TierColour(minutes: real): (c: Colour)
    ensures c == Green <==> DiffData(minutes).isNormal
    ensures c == Orange <==> DiffData(minutes).isWarning
    ensures c == Red <==> DiffData(minutes).isUrgent
  {
    if minutes >= 90.0 then Green else if minutes >= 60.0 then Orange else Red
  }
}
