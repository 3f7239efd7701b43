/**
 * The statistics page: counts by PMR status, airline, destination and
 * departure terminal, an hourly histogram of departures, and the number of
 * flights not yet passed.
 */
module StatsPage {
  import opened Wrappers
  import opened Text
  import opened TimeText
  import opened Urgency
  import opened Records
  import opened Counting
  import Sorting
  import Collect

  // ================================================================ status buckets

  datatype StatusCounts = StatusCounts(wchr: nat, wchs: nat, wchc: nat, other: nat)

  function Sum4(c: StatusCounts): nat { c.wchr + c.wchs + c.wchc + c.other }

  /** One truthy status: its own bucket for the three wheelchair codes, `Autre` for anything else. */
  function CountStatus(c: StatusCounts, status: string): (r: StatusCounts)
    ensures Sum4(r) == Sum4(c) + 1
    ensures status == "WCHR" ==> r == c.(wchr := c.wchr + 1)
    ensures status == "WCHS" ==> r == c.(wchs := c.wchs + 1)
    ensures status == "WCHC" ==> r == c.(wchc := c.wchc + 1)
    ensures status !in {"WCHR", "WCHS", "WCHC"} ==> r == c.(other := c.other + 1)
  {
    if status == "WCHR" then c.(wchr := c.wchr + 1)
    else if status == "WCHS" then c.(wchs := c.wchs + 1)
    else if status == "WCHC" then c.(wchc := c.wchc + 1)
    else c.(other := c.other + 1)
  }

  /** The field values of the records, in list order. */
  function Project(ps: seq<Passenger>, field: Passenger -> string): (r: seq<string>)
    ensures |r| == |ps| && forall k :: 0 <= k < |ps| ==> r[k] == field(ps[k])
  {
    seq(|ps|, k requires 0 <= k < |ps| => field(ps[k]))
  }

  function StatusOf(p: Passenger): string { p.status }
  function AirlineOf(p: Passenger): string { p.airline }
  function DestinationOf(p: Passenger): string { p.destination }
  function TerminalOf(p: Passenger): string { p.terminalDepart }

  function Statuses(ps: seq<Passenger>): seq<string> { Project(ps, StatusOf) }
  function Airlines(ps: seq<Passenger>): seq<string> { Project(ps, AirlineOf) }
  function Destinations(ps: seq<Passenger>): seq<string> { Project(ps, DestinationOf) }
  function Terminals(ps: seq<Passenger>): seq<string> { Project(ps, TerminalOf) }

  /** `if (status) …`: a record without a status is not counted. */
  function StatusTally(c: StatusCounts, status: string): StatusCounts
  {
    if status == "" then c else CountStatus(c, status)
  }

  function StatusCountsOf(statuses: seq<string>): StatusCounts
  {
    if statuses == [] then StatusCounts(0, 0, 0, 0)
    else StatusTally(StatusCountsOf(statuses[..|statuses| - 1]), statuses[|statuses| - 1])
  }

  /**
   * Each named bucket counts the records with exactly that status, `Autre` the
   * other non-empty ones, and the buckets add up to the records with a status.
   */
  lemma {:induction false} StatusBuckets(statuses: seq<string>)
    ensures var c := StatusCountsOf(statuses);
      && c.wchr == multiset(statuses)["WCHR"]
      && c.wchs == multiset(statuses)["WCHS"]
      && c.wchc == multiset(statuses)["WCHC"]
      && Sum4(c) == NonEmpty(statuses) <= |statuses|
  {
    if statuses != [] {
      var init := statuses[..|statuses| - 1];
      StatusBuckets(init);
      assert statuses == init + [statuses[|statuses| - 1]];
      assert multiset(statuses) == multiset(init) + multiset{statuses[|statuses| - 1]};
    }
  }

  /** `Object.entries(statusCounts)` before filtering, in the object's key order. */
  function StatusEntries(c: StatusCounts): Table
  {
    [("WCHR", c.wchr), ("WCHS", c.wchs), ("WCHC", c.wchc), ("Autre", c.other)]
  }

  // ================================================================ hours

  /** `parseInt(timeHHMM.split(':')[0])` for a departure a rule recognises. */
  function HourOf(departure: string): Option<nat>
  {
    match ExtractOrNull(departure)
    case None => None
    case Some(t) => ParseInt(Split(t, ':')[0])
  }

  /** The hour a record counts under, when it is a valid hour of the day. */
  function HourBucket(p: Passenger): Option<nat>
  {
    var h := HourOf(p.departureTime);
    if h.Some? && h.value < 24 then h else None
  }

  /** The histogram reads the same hour as the tier and passed tests do. */
  lemma HourAgreesWithClock(departure: string)
    ensures DepartureClock(departure).Some? ==> HourOf(departure) == Some(DepartureClock(departure).value.0)
  {
    if DepartureClock(departure).Some? {
      var t := ExtractOrNull(departure).value;
      ClockSplit(t);
      ParseClock(t);
    }
  }

  /** `9:05` and `09:05` fall in the same hour. */
  lemma LeadingZeroSameHour()
    ensures HourOf("9:05") == HourOf("09:05") == Some(9)
  {
    assert IsClock("9:05") && IsClock("09:05");
    assert ExtractOrNull("9:05") == Some("9:05") && ExtractOrNull("09:05") == Some("09:05");
    ClockSplit("9:05");
    ClockSplit("09:05");
    assert Split("9:05", ':')[0] == "9" && Split("09:05", ':')[0] == "09";
    assert AllDigits("9") && AllDigits("09");
    assert DigitsValue("9") == 9;
    assert DigitsValue("09") == 9 by {
      assert "09"[..1] == "0";
      assert DigitsValue("0") == 0;
    }
    assert ParseInt("9") == Some(DigitsValue("9"));
    assert ParseInt("09") == Some(DigitsValue("09"));
  }

  function ZeroHours(): (r: seq<nat>)
    ensures |r| == 24 && forall h :: 0 <= h < 24 ==> r[h] == 0
  {
    seq(24, _ => 0)
  }

  /** `hourCounts` after the records of `ps`, each counted under `bucket`. */
  function Histogram(ps: seq<Passenger>, bucket: Passenger -> Option<nat>): (r: seq<nat>)
    requires forall p :: bucket(p).Some? ==> bucket(p).value < 24
    ensures |r| == 24
  {
    if ps == [] then ZeroHours() else HourTally(Histogram(ps[..|ps| - 1], bucket), bucket(ps[|ps| - 1]))
  }

  /** `hourCounts[hour]++` when the record has a valid hour. */
  function HourTally(c: seq<nat>, hour: Option<nat>): (r: seq<nat>)
    requires |c| == 24 && (hour.Some? ==> hour.value < 24)
    ensures |r| == 24
  {
    match hour
    case None => c
    case Some(h) => c[h := c[h] + 1]
  }

  lemma HourBucketBounded()
    ensures forall p :: HourBucket(p).Some? ==> HourBucket(p).value < 24
  {
  }

  function HourCounts(ps: seq<Passenger>): (r: seq<nat>)
    ensures |r| == 24
  {
    HourBucketBounded();
    Histogram(ps, HourBucket)
  }

  function Sum(s: seq<nat>): nat
  {
    if s == [] then 0 else s[0] + Sum(s[1..])
  }

  lemma {:induction false} SumBump(s: seq<nat>, h: nat)
    requires h < |s|
    ensures Sum(s[h := s[h] + 1]) == Sum(s) + 1
  {
    if h > 0 {
      SumBump(s[1..], h - 1);
      assert s[h := s[h] + 1][1..] == s[1..][h - 1 := s[h] + 1];
    }
  }

  lemma {:induction false} SumZero(n: nat)
    ensures Sum(seq(n, _ => 0)) == 0
  {
    if n > 0 {
      SumZero(n - 1);
      assert seq(n, _ => 0)[1..] == seq(n - 1, _ => 0);
    }
  }

  /**
   * Bucket `h` counts the records that fall under `h`; the buckets add up to
   * the records that fall under some hour, which is at most the list.
   */
  lemma {:induction false} HistogramCounts(ps: seq<Passenger>, bucket: Passenger -> Option<nat>)
    requires forall p :: bucket(p).Some? ==> bucket(p).value < 24
    ensures forall h :: 0 <= h < 24 ==> Histogram(ps, bucket)[h] == multiset(Collect.Collect(ps, bucket))[h]
    ensures Sum(Histogram(ps, bucket)) == |Collect.Collect(ps, bucket)| <= |ps|
  {
    if ps == [] {
      SumZero(24);
    } else {
      var init := ps[..|ps| - 1];
      HistogramCounts(init, bucket);
      var hs := Collect.Collect(init, bucket);
      match bucket(ps[|ps| - 1])
      case None =>
      case Some(x) =>
        SumBump(Histogram(init, bucket), x);
        assert Collect.Collect(ps, bucket) == hs + [x];
        assert multiset(hs + [x]) == multiset(hs) + multiset{x};
    }
  }

  /** The hourly histogram counts, for each hour, the records departing in it. */
  lemma HourHistogram(ps: seq<Passenger>)
    ensures forall h :: 0 <= h < 24 ==> HourCounts(ps)[h] == multiset(Collect.Collect(ps, HourBucket))[h]
    ensures Sum(HourCounts(ps)) == |Collect.Collect(ps, HourBucket)| <= |ps|
  {
    HourBucketBounded();
    HistogramCounts(ps, HourBucket);
  }

  // ================================================================ the whole page

  datatype Stats = Stats(
    totalPassengers: nat, activePassengers: nat, statusStats: Table, airlineStats: Table,
    destinationStats: Table, terminalStats: Table, hourStats: seq<nat>)

  /** `.sort((a, b) => b.count - a.count)`. */
  function ByCountDesc(a: (string, nat), b: (string, nat)): int { b.1 - a.1 }

  function SortDesc(t: Table): Table { Sorting.SortBy(t, ByCountDesc) }

  /** Every list is shown with the largest count first, and holds the same entries. */
  lemma SortDescOrdered(t: Table)
    ensures multiset(SortDesc(t)) == multiset(t)
    ensures forall i, j :: 0 <= i < j < |SortDesc(t)| ==> SortDesc(t)[i].1 >= SortDesc(t)[j].1
  {
    var key: ((string, nat)) -> int := (e: (string, nat)) => -(e.1 as int);
    Sorting.KeyedIsPreorder(ByCountDesc, key, t);
    Sorting.SortBySorted(t, ByCountDesc);
  }

  predicate Active(p: Passenger, now: int) { !IsPassed(p.departureTime, now) }

  /** `activePassengers.length`. */
  function ActiveCount(ps: seq<Passenger>, now: int): (n: nat)
    ensures n <= |ps|
  {
    |Collect.Filter(ps, (p: Passenger) => Active(p, now))|
  }

  /** `.filter(item => item.count > 0)`. */
  predicate Positive(e: (string, nat)) { e.1 > 0 }

  /** `statusStats`: the non-empty buckets, largest first. */
  function StatusStats(c: StatusCounts): Table
  {
    SortDesc(Collect.Filter(StatusEntries(c), Positive))
  }

  /** `airlineStats`, `destinationStats`, `terminalStats`: the table of the field, largest first. */
  function KeyStats(keys: seq<string>): Table
  {
    SortDesc(TableOf(keys))
  }

  /** `calculateStats()`; `None` is the page's `null` for an empty list. */
  function StatsOf(ps: seq<Passenger>, now: int): Option<Stats>
  {
    if ps == [] then None
    else Some(Stats(|ps|, ActiveCount(ps, now), StatusStats(StatusCountsOf(Statuses(ps))),
                    KeyStats(Airlines(ps)), KeyStats(Destinations(ps)), KeyStats(Terminals(ps)),
                    HourCounts(ps)))
  }

  /** One more record: the table of a field grows by that record's value, unless it is empty. */
  lemma TableSnoc(ps: seq<Passenger>, i: nat, field: Passenger -> string)
    requires i < |ps|
    ensures TableOf(Project(ps[..i + 1], field)) == Tally(TableOf(Project(ps[..i], field)), field(ps[i]))
  {
    var keys := Project(ps[..i + 1], field);
    assert keys[..i] == Project(ps[..i], field);
    assert keys[i] == field(ps[i]);
  }

  lemma StatusSnoc(ps: seq<Passenger>, i: nat)
    requires i < |ps|
    ensures StatusCountsOf(Statuses(ps[..i + 1])) == StatusTally(StatusCountsOf(Statuses(ps[..i])), ps[i].status)
  {
    var keys := Statuses(ps[..i + 1]);
    assert keys[..i] == Statuses(ps[..i]);
    assert keys[i] == ps[i].status;
  }

  lemma HistogramSnoc(ps: seq<Passenger>, i: nat, bucket: Passenger -> Option<nat>)
    requires i < |ps|
    requires forall p :: bucket(p).Some? ==> bucket(p).value < 24
    ensures Histogram(ps[..i + 1], bucket) == HourTally(Histogram(ps[..i], bucket), bucket(ps[i]))
  {
    assert ps[..i + 1][..i] == ps[..i];
  }

  /** `hourCounts[hour]++` on the page's 24-slot array, for a valid hour. */
  method CountHour(hours: array<nat>, hour: Option<nat>)
    requires hours.Length == 24 && (hour.Some? ==> hour.value < 24)
    modifies hours
    ensures hours[..] == HourTally(old(hours[..]), hour)
  {
    if hour.Some? {
      hours[hour.value] := hours[hour.value] + 1;
    }
  }

  /** The page's counting pass: one walk over the list filling every table at once. */
  method CalculateStats(ps: seq<Passenger>, now: int) returns (r: Option<Stats>)
    ensures r == StatsOf(ps, now)
  {
    if ps == [] {
      return None;
    }
    var statusCounts := StatusCounts(0, 0, 0, 0);
    var airlines: Table, destinations: Table, terminals: Table := [], [], [];
    var hours := new nat[24](_ => 0);
    var i := 0;
    while i < |ps|
      invariant 0 <= i <= |ps|
      invariant statusCounts == StatusCountsOf(Statuses(ps[..i]))
      invariant airlines == TableOf(Airlines(ps[..i]))
      invariant destinations == TableOf(Destinations(ps[..i]))
      invariant terminals == TableOf(Terminals(ps[..i]))
      invariant hours[..] == Histogram(ps[..i], HourBucket)
    {
      var p := ps[i];
      StatusSnoc(ps, i);
      TableSnoc(ps, i, AirlineOf);
      TableSnoc(ps, i, DestinationOf);
      TableSnoc(ps, i, TerminalOf);
      HourBucketBounded();
      HistogramSnoc(ps, i, HourBucket);
      statusCounts := StatusTally(statusCounts, p.status);
      airlines := Tally(airlines, p.airline);
      destinations := Tally(destinations, p.destination);
      terminals := Tally(terminals, p.terminalDepart);
      CountHour(hours, HourBucket(p));
      i := i + 1;
    }
    assert ps[..i] == ps;
    r := Some(Stats(|ps|, ActiveCount(ps, now), StatusStats(statusCounts), SortDesc(airlines),
                    SortDesc(destinations), SortDesc(terminals), hours[..]));
  }

  /** The status list holds the non-empty buckets and nothing else. */
  lemma StatusStatsMembers(c: StatusCounts)
    ensures forall e :: e in StatusStats(c) <==> e in StatusEntries(c) && e.1 > 0
    ensures |StatusStats(c)| <= 4
  {
    var kept := Collect.Filter(StatusEntries(c), Positive);
    var s := StatusStats(c);
    SortDescOrdered(kept);
    assert |s| == |multiset(s)| == |multiset(kept)| == |kept|;
    forall e ensures e in s <==> e in kept {
      assert e in multiset(s) <==> e in multiset(kept);
    }
  }

  /** Each of the four buckets is listed, with its count, exactly when it is not empty. */
  lemma StatusStatsListed(c: StatusCounts)
    ensures ("WCHR", c.wchr) in StatusStats(c) <==> c.wchr > 0
    ensures ("WCHS", c.wchs) in StatusStats(c) <==> c.wchs > 0
    ensures ("WCHC", c.wchc) in StatusStats(c) <==> c.wchc > 0
    ensures ("Autre", c.other) in StatusStats(c) <==> c.other > 0
  {
    StatusStatsMembers(c);
    var entries := StatusEntries(c);
    assert entries[0] in entries && entries[1] in entries && entries[2] in entries && entries[3] in entries;
  }

  /**
   * A key list counts each non-empty key once with its number of records, all
   * counts positive, largest first, adding up to the records that have the field.
   */
  lemma KeyStatsCount(keys: seq<string>)
    ensures multiset(KeyStats(keys)) == multiset(TableOf(keys))
    ensures DistinctKeys(TableOf(keys))
    ensures forall k :: k != "" ==> Get(TableOf(keys), k) == multiset(keys)[k]
    ensures forall k :: Has(TableOf(keys), k) <==> k != "" && k in keys
    ensures Total(TableOf(keys)) == NonEmpty(keys) <= |keys|
    ensures forall i, j :: 0 <= i < j < |KeyStats(keys)| ==> KeyStats(keys)[i].1 >= KeyStats(keys)[j].1
  {
    TableOfCounts(keys);
    SortDescOrdered(TableOf(keys));
  }
}
