/**
 * The wall display: the flights not yet passed, in departure order, each card
 * with its urgency flags, its shown time and its defaults for absent fields.
 */
module TVDisplay {
  import opened Wrappers
  import opened Text
  import opened TimeText
  import opened Urgency
  import opened Records
  import Sorting
  import Collect

  /** The display comparator: hours, then minutes, when both times read; otherwise the raw texts. */
  function CompareForDisplay(a: Passenger, b: Passenger): int
  {
    var ca, cb := DepartureClock(a.departureTime), DepartureClock(b.departureTime);
    if ca.Some? && cb.Some? then
      if ca.value.0 != cb.value.0 then ca.value.0 - cb.value.0 else ca.value.1 - cb.value.1
    else LexCompare(a.departureTime, b.departureTime)
  }

  /** The records whose flight has not passed, in list order. */
  function Unpassed(ps: seq<Passenger>, now: int): seq<Passenger>
  {
    Collect.Filter(ps, (p: Passenger) => !IsPassed(p.departureTime, now))
  }

  /** `displayPassengers`: the flights not passed, sorted for display. */
  function DisplayPassengers(ps: seq<Passenger>, now: int): seq<Passenger>
  {
    Sorting.SortBy(Unpassed(ps, now), CompareForDisplay)
  }

  /** The display holds exactly the records whose flight has not passed, each as often as in the list. */
  lemma DisplayIsUnpassed(ps: seq<Passenger>, now: int)
    ensures forall p :: p in DisplayPassengers(ps, now) <==> p in ps && !IsPassed(p.departureTime, now)
    ensures multiset(DisplayPassengers(ps, now)) == multiset(Unpassed(ps, now))
    ensures |DisplayPassengers(ps, now)| <= |ps|
  {
    var kept := Unpassed(ps, now);
    forall p ensures p in DisplayPassengers(ps, now) <==> p in kept {
      assert p in multiset(DisplayPassengers(ps, now)) <==> p in multiset(kept);
    }
  }

  /** Hour and minute as one number; both are below 100, so this orders by hour, then minute. */
  function ClockKey(p: Passenger): int
  {
    var c := DepartureClock(p.departureTime);
    if c.Some? then c.value.0 * 100 + c.value.1 else 0
  }

  /** On two readable times the comparator orders exactly as the combined key does. */
  lemma ClockKeyOrder(a: Passenger, b: Passenger)
    ensures DepartureClock(a.departureTime).Some? && DepartureClock(b.departureTime).Some? ==>
      (CompareForDisplay(a, b) <= 0 <==> ClockKey(a) <= ClockKey(b))
  {
    if DepartureClock(a.departureTime).Some? && DepartureClock(b.departureTime).Some? {
      var x, y := DepartureClock(a.departureTime).value, DepartureClock(b.departureTime).value;
      assert ClockKey(a) == x.0 * 100 + x.1 && ClockKey(b) == y.0 * 100 + y.1;
      if x.0 < y.0 {
        assert x.0 * 100 + 100 <= y.0 * 100;
      } else if y.0 < x.0 {
        assert y.0 * 100 + 100 <= x.0 * 100;
      }
    }
  }

  /** When every time reads, the display is in ascending (hour, minute) order. */
  lemma DisplayOrdered(ps: seq<Passenger>, now: int)
    requires forall p :: p in ps ==> DepartureClock(p.departureTime).Some?
    ensures forall i, j :: 0 <= i < j < |DisplayPassengers(ps, now)| ==>
      ClockKey(DisplayPassengers(ps, now)[i]) <= ClockKey(DisplayPassengers(ps, now)[j])
  {
    var kept := Unpassed(ps, now);
    forall a, b | a in kept && b in kept
      ensures CompareForDisplay(a, b) <= 0 <==> ClockKey(a) <= ClockKey(b)
    {
      ClockKeyOrder(a, b);
    }
    Sorting.KeyedIsPreorder(CompareForDisplay, ClockKey, kept);
    Sorting.SortBySorted(kept, CompareForDisplay);
    var r := DisplayPassengers(ps, now);
    forall i, j | 0 <= i < j < |r| ensures ClockKey(r[i]) <= ClockKey(r[j]) {
      assert r[i] in multiset(kept) && r[j] in multiset(kept);
      assert CompareForDisplay(r[i], r[j]) <= 0;
    }
  }

  /** When no time reads, the display is in text order of the departure fields. */
  lemma DisplayTextOrdered(ps: seq<Passenger>, now: int)
    requires forall p :: p in ps ==> DepartureClock(p.departureTime).None?
    ensures forall i, j :: 0 <= i < j < |DisplayPassengers(ps, now)| ==>
      LexCompare(DisplayPassengers(ps, now)[i].departureTime, DisplayPassengers(ps, now)[j].departureTime) <= 0
  {
    var kept := Unpassed(ps, now);
    forall a, b | a in kept && b in kept ensures CompareForDisplay(a, b) <= 0 || CompareForDisplay(b, a) <= 0 {
      LexAntisymmetric(a.departureTime, b.departureTime);
    }
    forall a, b, c | a in kept && b in kept && c in kept && CompareForDisplay(a, b) <= 0 && CompareForDisplay(b, c) <= 0
      ensures CompareForDisplay(a, c) <= 0
    {
      LexTransitive(a.departureTime, b.departureTime, c.departureTime);
    }
    Sorting.SortBySorted(kept, CompareForDisplay);
    var r := DisplayPassengers(ps, now);
    forall i, j | 0 <= i < j < |r|
      ensures LexCompare(r[i].departureTime, r[j].departureTime) <= 0
    {
      assert r[i] in multiset(kept) && r[j] in multiset(kept);
      assert CompareForDisplay(r[i], r[j]) <= 0;
    }
  }

  /** The header's SkyPriority count. */
  function SkyPriorityCount(ps: seq<Passenger>, now: int): (n: nat)
    ensures n <= |DisplayPassengers(ps, now)|
  {
    |Collect.Filter(DisplayPassengers(ps, now), (p: Passenger) => p.isSkyPriority)|
  }

  datatype Card = Card(
    passenger: Passenger, isUrgent: bool, isWarning: bool, displayTime: string, isAgentEnRoute: bool)

  /** The card's `safePassenger`: defaults for absent names, flight, status, destination and date. */
  function SafeView(p: Passenger, currentDate: string): (r: Passenger)
    ensures r.lastName != "" && r.airline != "" && r.flightNumber != "" && r.status != "" && r.destination != ""
    ensures r.id == p.id && r.idPax == p.idPax && r.isSkyPriority == p.isSkyPriority && r.goAcc == p.goAcc
    ensures r.departureTime == p.departureTime
    ensures p.status != "" ==> r.status == p.status
    ensures p.status == "" ==> r.status == "WCHR"
    ensures p.lastName != "" ==> r.lastName == p.lastName
    ensures p.lastName == "" ==> r.lastName == "Sans nom"
    ensures r.airline == (if p.airline != "" then p.airline else "N/A")
    ensures r.flightNumber == (if p.flightNumber != "" then p.flightNumber else "N/A")
    ensures r.destination == (if p.destination != "" then p.destination else "N/A")
    ensures r.date == (if p.date != "" then p.date else currentDate)
    ensures currentDate != "" ==> r.date != ""
    ensures r.(lastName := p.lastName, airline := p.airline, flightNumber := p.flightNumber,
               status := p.status, destination := p.destination, date := p.date) == p
  {
    p.(lastName := OrElse(p.lastName, "Sans nom"),
       airline := OrElse(p.airline, "N/A"),
       flightNumber := OrElse(p.flightNumber, "N/A"),
       status := OrElse(p.status, "WCHR"),
       destination := OrElse(p.destination, "N/A"),
       date := OrElse(p.date, currentDate))
  }

  /** `extractTimeHHMM(t) || t || "??:??"`. */
  function DisplayTime(departure: string): (r: string)
    ensures r != ""
    ensures ExtractOrNull(departure).Some? ==> r == ExtractOrNull(departure).value && IsClock(r)
    ensures ExtractOrNull(departure).None? && departure != "" ==> r == departure
    ensures departure == "" ==> r == Unknown
  {
    match ExtractOrNull(departure)
    case Some(t) => t
    case None => if departure != "" then departure else Unknown
  }

  /** One card; `currentDate` is the header's date text, shown when the record has none. */
  function CardOf(p: Passenger, now: int, currentDate: string): (c: Card)
    ensures c.passenger == SafeView(p, currentDate) && c.displayTime == DisplayTime(p.departureTime)
    ensures !(c.isUrgent && c.isWarning)
    ensures c.displayTime != ""
    ensures c.isAgentEnRoute <==> !Blank(p.goAcc)
  {
    var minutes := MinutesLeft(p.departureTime, now);
    var safe := SafeView(p, currentDate);
    Card(safe, minutes < 60.0, 60.0 <= minutes < 90.0, DisplayTime(p.departureTime), Trim(safe.goAcc) != "")
  }

  /** A card's flags agree with the tiers, and one without a readable time is calm. */
  lemma CardFlagsFollowTiers(p: Passenger, now: int, currentDate: string)
    ensures var c := CardOf(p, now, currentDate); var d := DiffData(MinutesLeft(p.departureTime, now));
      c.isUrgent == d.isUrgent && c.isWarning == d.isWarning
    ensures DepartureClock(p.departureTime).None? ==>
      !CardOf(p, now, currentDate).isUrgent && !CardOf(p, now, currentDate).isWarning
  {
  }

}
