/**
 * The passenger list page: the sheet parser that keys rows by `idPax`, the
 * refresh merge with its agent-change events, select / toggle / remove, the
 * "active" counter filter and the departure-order comparator.
 */
module PassengerList {
  import opened Wrappers
  import opened Text
  import opened TimeText
  import opened Urgency
  import opened Records
  import opened SheetRows
  import Sorting
  import Collect

  // ================================================================ sheet parsing

  datatype SheetEntry = SheetEntry(
    idPax: string, lastName: string, firstName: string, flightNumber: string,
    departureTime: string, goAcc: string, ssr1: string)

  predicate EntryTrimmed(e: SheetEntry) {
    IsTrimmed(e.idPax) && IsTrimmed(e.lastName) && IsTrimmed(e.firstName) && IsTrimmed(e.flightNumber)
    && IsTrimmed(e.departureTime) && IsTrimmed(e.goAcc) && IsTrimmed(e.ssr1)
  }

  /** One data row: kept when it has six columns and a non-empty idPax and last name. */
  function EntryOf(row: seq<string>): (r: Option<SheetEntry>)
    ensures r.Some? ==> r.value.idPax != "" && r.value.lastName != "" && EntryTrimmed(r.value)
  {
    var cells := ProcessRow(row);
    if |cells| < MinColumns then None
    else
      var e := SheetEntry(CellAt(cells, 0), CellAt(cells, 1), CellAt(cells, 2), CellAt(cells, 3),
                          CellAt(cells, 4), CellAt(cells, 5), CellAt(cells, 6));
      if e.idPax != "" && e.lastName != "" then Some(e) else None
  }

  /**
   * A row is kept exactly when it has six columns and its first two cells are
   * not blank; each field is the trimmed cell of its column, `ssr1` reading as
   * `""` when the seventh column is missing.
   */
  lemma EntryOfKept(row: seq<string>)
    ensures EntryOf(row).Some? <==>
      |ProcessRow(row)| >= MinColumns && CellAt(ProcessRow(row), 0) != "" && CellAt(ProcessRow(row), 1) != ""
    ensures EntryOf(row).Some? ==> var e, cells := EntryOf(row).value, ProcessRow(row);
      && e.idPax == Trim(cells[0]) && e.lastName == Trim(cells[1]) && e.firstName == Trim(cells[2])
      && e.flightNumber == Trim(cells[3]) && e.departureTime == Trim(cells[4]) && e.goAcc == Trim(cells[5])
      && e.ssr1 == (if |cells| > 6 then Trim(cells[6]) else "")
  {
  }

  function Entries(rows: seq<seq<string>>): (r: seq<Option<SheetEntry>>)
    ensures |r| == |rows| && forall i :: 0 <= i < |rows| ==> r[i] == EntryOf(rows[i])
  {
    seq(|rows|, i requires 0 <= i < |rows| => EntryOf(rows[i]))
  }

  /** The map the parsing loop builds, a later entry overwriting an earlier one. */
  function MapOfEntries(es: seq<Option<SheetEntry>>): map<string, SheetEntry>
  {
    if es == [] then map[]
    else
      var m := MapOfEntries(es[..|es| - 1]);
      match es[|es| - 1]
      case None => m
      case Some(e) => m[e.idPax := e]
  }

  /** `parseSheetData`'s result: empty for absent or empty input, row 0 being the header. */
  function SheetMap(values: Option<seq<seq<string>>>): map<string, SheetEntry>
  {
    if values.None? || values.value == [] then map[] else MapOfEntries(Entries(values.value[1..]))
  }

  /** `parseSheetData` (PassengerList): fills the map row by row. */
  method ParseSheetData(values: Option<seq<seq<string>>>) returns (sheet: map<string, SheetEntry>)
    ensures sheet == SheetMap(values)
  {
    sheet := map[];
    if values.None? || values.value == [] {
      return;
    }
    var rows := values.value;
    ghost var es := Entries(rows[1..]);
    var i := 1;
    while i < |rows|
      invariant 1 <= i <= |rows|
      invariant sheet == MapOfEntries(es[..i - 1])
    {
      var entry := EntryOf(rows[i]);
      assert entry == es[i - 1];
      MapOfEntriesSnoc(es, i);
      if entry.Some? {
        sheet := sheet[entry.value.idPax := entry.value];
      }
      i := i + 1;
    }
    assert es[..i - 1] == es;
  }

  /** One more entry: the map of a prefix extended by one row. */
  lemma MapOfEntriesSnoc(es: seq<Option<SheetEntry>>, n: nat)
    requires 0 < n <= |es|
    ensures MapOfEntries(es[..n]) ==
      if es[n - 1].Some? then MapOfEntries(es[..n - 1])[es[n - 1].value.idPax := es[n - 1].value]
      else MapOfEntries(es[..n - 1])
  {
    assert es[..n][..n - 1] == es[..n - 1];
  }

  predicate WellFormed(es: seq<Option<SheetEntry>>)
  {
    forall i :: 0 <= i < |es| && es[i].Some? ==> es[i].value.idPax != "" && es[i].value.lastName != "" && EntryTrimmed(es[i].value)
  }

  /** Every entry sits under its own (trimmed, non-empty) idPax and has a last name. */
  lemma {:induction false} MapWellKeyed(es: seq<Option<SheetEntry>>)
    requires WellFormed(es)
    ensures forall k :: k in MapOfEntries(es) ==>
      MapOfEntries(es)[k].idPax == k && k != "" && MapOfEntries(es)[k].lastName != "" && EntryTrimmed(MapOfEntries(es)[k])
  {
    if es != [] {
      MapWellKeyed(es[..|es| - 1]);
    }
  }

  lemma SheetMapWellKeyed(values: Option<seq<seq<string>>>)
    ensures forall k :: k in SheetMap(values) ==>
      SheetMap(values)[k].idPax == k && k != "" && SheetMap(values)[k].lastName != "" && EntryTrimmed(SheetMap(values)[k])
  {
    if values.Some? && values.value != [] {
      MapWellKeyed(Entries(values.value[1..]));
    }
  }

  /** A key is present exactly when some kept entry carries it. */
  lemma {:induction false} MapKeys(es: seq<Option<SheetEntry>>, k: string)
    ensures k in MapOfEntries(es) <==> exists i :: 0 <= i < |es| && es[i].Some? && es[i].value.idPax == k
  {
    if es != [] {
      var init := es[..|es| - 1];
      MapKeys(init, k);
      if k in MapOfEntries(init) {
        var i :| 0 <= i < |init| && init[i].Some? && init[i].value.idPax == k;
        assert es[i] == init[i];
      }
      if exists i :: 0 <= i < |es| && es[i].Some? && es[i].value.idPax == k {
        var i :| 0 <= i < |es| && es[i].Some? && es[i].value.idPax == k;
        if i < |es| - 1 {
          assert init[i] == es[i];
        }
      }
    }
  }

  /** An idPax is a key of the parsed sheet exactly when some kept data row carries it. */
  lemma SheetMapKeys(rows: seq<seq<string>>, k: string)
    requires rows != []
    ensures k in SheetMap(Some(rows)) <==>
      exists i :: 1 <= i < |rows| && EntryOf(rows[i]).Some? && EntryOf(rows[i]).value.idPax == k
  {
    var es := Entries(rows[1..]);
    MapKeys(es, k);
    if k in SheetMap(Some(rows)) {
      var i :| 0 <= i < |es| && es[i].Some? && es[i].value.idPax == k;
      assert es[i] == EntryOf(rows[i + 1]);
    }
    if exists i :: 1 <= i < |rows| && EntryOf(rows[i]).Some? && EntryOf(rows[i]).value.idPax == k {
      var i :| 1 <= i < |rows| && EntryOf(rows[i]).Some? && EntryOf(rows[i]).value.idPax == k;
      assert es[i - 1] == EntryOf(rows[i]);
    }
  }

  /** A key holds the last kept entry that carries it. */
  lemma {:induction false} MapLastWins(es: seq<Option<SheetEntry>>, i: nat)
    requires i < |es| && es[i].Some?
    requires forall j :: i < j < |es| && es[j].Some? ==> es[j].value.idPax != es[i].value.idPax
    ensures es[i].value.idPax in MapOfEntries(es) && MapOfEntries(es)[es[i].value.idPax] == es[i].value
  {
    if i < |es| - 1 {
      var init := es[..|es| - 1];
      assert init[i] == es[i];
      forall j | i < j < |init| && init[j].Some?
        ensures init[j].value.idPax != init[i].value.idPax
      {
        assert init[j] == es[j];
      }
      MapLastWins(init, i);
    }
  }

  // ================================================================ refresh

  /** The sheet entry for a record: `sheetDataMap[passenger.idPax]`. */
  function Lookup(sheet: map<string, SheetEntry>, p: Passenger): Option<SheetEntry>
  {
    var key := PropertyKey(p.idPax);
    if key in sheet then Some(sheet[key]) else None
  }

  /** A matched record takes the sheet's agent marker, names, flight and departure text. */
  function MergeOne(sheet: map<string, SheetEntry>, p: Passenger): Passenger
  {
    match Lookup(sheet, p)
    case None => p
    case Some(e) =>
      p.(goAcc := Trim(e.goAcc), lastName := e.lastName, firstName := e.firstName,
         flightNumber := e.flightNumber, departureTime := e.departureTime)
  }

  /**
   * An unmatched record is left alone; a matched one takes exactly the sheet's
   * trimmed marker, names, flight and departure text, and nothing else changes.
   */
  lemma MergeOneFields(sheet: map<string, SheetEntry>, p: Passenger)
    ensures var r := MergeOne(sheet, p);
      && (Lookup(sheet, p).None? ==> r == p)
      && r.(goAcc := p.goAcc, lastName := p.lastName, firstName := p.firstName,
            flightNumber := p.flightNumber, departureTime := p.departureTime) == p
      && (Lookup(sheet, p).Some? ==>
        var e := Lookup(sheet, p).value;
        r.goAcc == Trim(e.goAcc) && r.lastName == e.lastName && r.firstName == e.firstName
        && r.flightNumber == e.flightNumber && r.departureTime == e.departureTime)
  {
  }

  /** After the merge a record agrees with the sheet, so merging again changes nothing. */
  lemma MergeOneSettles(sheet: map<string, SheetEntry>, p: Passenger)
    ensures !GoAccChanged(sheet, MergeOne(sheet, p))
    ensures MergeOne(sheet, MergeOne(sheet, p)) == MergeOne(sheet, p)
  {
    if Lookup(sheet, p).Some? {
      TrimIdempotent(Lookup(sheet, p).value.goAcc);
    }
  }

  function MergeAll(sheet: map<string, SheetEntry>, ps: seq<Passenger>): (r: seq<Passenger>)
    ensures |r| == |ps|
    ensures forall i :: 0 <= i < |ps| ==> r[i] == MergeOne(sheet, ps[i])
  {
    seq(|ps|, i requires 0 <= i < |ps| => MergeOne(sheet, ps[i]))
  }

  /** The trimmed agent marker of a matched record differs from the sheet's. */
  predicate GoAccChanged(sheet: map<string, SheetEntry>, p: Passenger)
  {
    Lookup(sheet, p).Some? && Trim(p.goAcc) != Trim(Lookup(sheet, p).value.goAcc)
  }

  /** The `agentStatusChanged` event sent for a record whose marker went from `before` to `after`. */
  function ChangeEvent(p: Passenger, before: string, after: string): (ev: AgentEvent)
    requires before != after
    ensures ev.passengerId == p.id && ev.idPax == p.idPax && !ev.isInitial
    ensures ev.hasAgent <==> after != ""
    ensures ev.isNew <==> before == "" && after != ""
    ensures ev.isRemoved <==> before != "" && after == ""
    ensures !(ev.isNew && ev.isRemoved)
  {
    AgentEvent(p.id, p.idPax, after != "", false, before == "" && after != "", before != "" && after == "")
  }

  function EventFor(sheet: map<string, SheetEntry>, p: Passenger): AgentEvent
    requires GoAccChanged(sheet, p)
  {
    ChangeEvent(p, Trim(p.goAcc), Trim(Lookup(sheet, p).value.goAcc))
  }

  /** The event, if any, that a refresh sends for one record. */
  function EventDue(sheet: map<string, SheetEntry>, p: Passenger): Option<AgentEvent>
  {
    if GoAccChanged(sheet, p) then Some(EventFor(sheet, p)) else None
  }

  /** The events of one refresh, in list order. */
  function Events(sheet: map<string, SheetEntry>, ps: seq<Passenger>): seq<AgentEvent>
  {
    Collect.Collect(ps, p => EventDue(sheet, p))
  }

  predicate AnyGoAccChanged(sheet: map<string, SheetEntry>, ps: seq<Passenger>)
  {
    exists i :: 0 <= i < |ps| && GoAccChanged(sheet, ps[i])
  }

  /** An event is sent exactly for each matched record whose marker changed. */
  lemma EventsExactly(sheet: map<string, SheetEntry>, ps: seq<Passenger>, ev: AgentEvent)
    ensures ev in Events(sheet, ps) <==>
      exists i :: 0 <= i < |ps| && GoAccChanged(sheet, ps[i]) && ev == EventFor(sheet, ps[i])
  {
    Collect.CollectExactly(ps, p => EventDue(sheet, p), ev);
  }

  /** No event is sent exactly when no matched record's marker changed. */
  lemma NoEventsIffUnchanged(sheet: map<string, SheetEntry>, ps: seq<Passenger>)
    ensures Events(sheet, ps) == [] <==> !AnyGoAccChanged(sheet, ps)
  {
    Collect.CollectEmpty(ps, p => EventDue(sheet, p));
  }

  /** One more record adds its event, if it has one, at the end. */
  lemma EventsSnoc(sheet: map<string, SheetEntry>, ps: seq<Passenger>, i: nat)
    requires i < |ps|
    ensures Events(sheet, ps[..i + 1]) ==
      Events(sheet, ps[..i]) + (if GoAccChanged(sheet, ps[i]) then [EventFor(sheet, ps[i])] else [])
  {
    assert ps[..i + 1][..i] == ps[..i];
    assert ps[..i + 1][i] == ps[i];
  }

  /** What the fetch gave: the sheet's `values` (possibly absent), or a failure. */
  datatype Fetch = Fetched(values: Option<seq<seq<string>>>) | FetchFailed

  /** The body of the merge loop for one record: the event when its trimmed marker differs from the sheet's. */
  method CompareMarker(sheet: map<string, SheetEntry>, p: Passenger) returns (due: Option<AgentEvent>)
    ensures due == EventDue(sheet, p)
  {
    due := None;
    var entry := Lookup(sheet, p);
    if entry.Some? {
      var current, incoming := Trim(p.goAcc), Trim(entry.value.goAcc);
      if current != incoming {
        due := Some(ChangeEvent(p, current, incoming));
      }
    }
  }

  /** The merge loop of `refreshData` over the list against the parsed sheet. */
  method MergeSheet(sheet: map<string, SheetEntry>, passengers: seq<Passenger>)
    returns (updated: seq<Passenger>, events: seq<AgentEvent>, hasChanges: bool)
    ensures updated == MergeAll(sheet, passengers)
    ensures events == Events(sheet, passengers)
    ensures hasChanges <==> AnyGoAccChanged(sheet, passengers)
  {
    updated, events, hasChanges := [], [], false;
    var i := 0;
    while i < |passengers|
      invariant 0 <= i <= |passengers|
      invariant updated == MergeAll(sheet, passengers[..i])
      invariant events == Events(sheet, passengers[..i])
      invariant hasChanges <==> events != []
    {
      var p := passengers[i];
      EventsSnoc(sheet, passengers, i);
      var due := CompareMarker(sheet, p);
      if due.Some? {
        hasChanges := true;
        events := events + [due.value];
      }
      MergeAllSnoc(sheet, passengers, i);
      updated := updated + [MergeOne(sheet, p)];
      i := i + 1;
    }
    assert passengers[..i] == passengers;
    NoEventsIffUnchanged(sheet, passengers);
  }

  /**
   * `refreshData`: nothing for an empty list or a failed fetch; otherwise the
   * merge runs over the list, collecting events and a `hasChanges` flag, and
   * the merged list is committed only when some agent marker changed.
   */
  method RefreshData(passengers: seq<Passenger>, fetch: Fetch)
    returns (commit: Option<seq<Passenger>>, events: seq<AgentEvent>)
    ensures passengers == [] || fetch.FetchFailed? ==> commit == None && events == []
    ensures passengers != [] && fetch.Fetched? ==>
      var sheet := SheetMap(fetch.values);
      && events == Events(sheet, passengers)
      && commit == (if AnyGoAccChanged(sheet, passengers) then Some(MergeAll(sheet, passengers)) else None)
  {
    commit, events := None, [];
    if passengers == [] || fetch.FetchFailed? {
      return;
    }
    var sheet := ParseSheetData(fetch.values);
    var updated, hasChanges;
    updated, events, hasChanges := MergeSheet(sheet, passengers);
    if hasChanges {
      commit := Some(updated);
    }
  }

  /** The list a refresh leaves behind. */
  function AfterRefresh(sheet: map<string, SheetEntry>, ps: seq<Passenger>): seq<Passenger>
  {
    if AnyGoAccChanged(sheet, ps) then MergeAll(sheet, ps) else ps
  }

  /**
   * Refreshing again against the same sheet neither sends events nor commits:
   * the stored marker is the sheet's trimmed marker, and trimming is idempotent.
   */
  lemma RefreshIdempotent(sheet: map<string, SheetEntry>, ps: seq<Passenger>)
    ensures !AnyGoAccChanged(sheet, AfterRefresh(sheet, ps))
    ensures Events(sheet, AfterRefresh(sheet, ps)) == []
  {
    var after := AfterRefresh(sheet, ps);
    forall i | 0 <= i < |after| ensures !GoAccChanged(sheet, after[i]) {
      if AnyGoAccChanged(sheet, ps) {
        assert after[i].idPax == ps[i].idPax;
        if Lookup(sheet, ps[i]).Some? {
          TrimIdempotent(Lookup(sheet, ps[i]).value.goAcc);
        }
      }
    }
    NoEventsIffUnchanged(sheet, after);
  }

  // ================================================================ list operations

  datatype Selection = Selection(passengers: seq<Passenger>, event: Option<AgentEvent>)

  predicate HasIdPax(ps: seq<Passenger>, idPax: Option<string>)
  {
    exists q :: q in ps && q.idPax == idPax
  }

  /** The record `handlePassengerSelect` appends. */
  function Selected(p: Passenger, freshId: string, addedAt: string): Passenger
  {
    p.(id := freshId, addedAt := addedAt, isSkyPriority := false)
  }

  /**
   * `handlePassengerSelect`: nothing for no choice or a known idPax; otherwise the
   * choice is appended with a fresh id, the current time and no SkyPriority, and an
   * initial agent event is sent when it already has an agent marker.
   */
  function HandlePassengerSelect(ps: seq<Passenger>, chosen: Option<Passenger>, freshId: string, addedAt: string)
    : (r: Selection)
    ensures chosen.None? || HasIdPax(ps, chosen.value.idPax) ==> r == Selection(ps, None)
    ensures chosen.Some? && !HasIdPax(ps, chosen.value.idPax) ==>
      && |r.passengers| == |ps| + 1 && r.passengers[..|ps|] == ps
      && r.passengers[|ps|] == Selected(chosen.value, freshId, addedAt)
      && !r.passengers[|ps|].isSkyPriority
      && (r.event.Some? <==> !Blank(chosen.value.goAcc))
    ensures r.event.Some? ==> r.event.value.hasAgent && r.event.value.isInitial && r.event.value.passengerId == freshId
  {
    if chosen.None? || HasIdPax(ps, chosen.value.idPax) then Selection(ps, None)
    else
      var added := Selected(chosen.value, freshId, addedAt);
      var ev := if Trim(added.goAcc) != "" then Some(AgentEvent(freshId, added.idPax, true, true, false, false)) else None;
      Selection(ps + [added], ev)
  }

  /** The list never holds two records with the same idPax through selection. */
  predicate UniqueIdPax(ps: seq<Passenger>)
  {
    forall i, j :: 0 <= i < j < |ps| ==> ps[i].idPax != ps[j].idPax
  }

  lemma SelectKeepsIdPaxUnique(ps: seq<Passenger>, chosen: Option<Passenger>, freshId: string, addedAt: string)
    requires UniqueIdPax(ps)
    ensures UniqueIdPax(HandlePassengerSelect(ps, chosen, freshId, addedAt).passengers)
  {
    var r := HandlePassengerSelect(ps, chosen, freshId, addedAt).passengers;
    if chosen.Some? && !HasIdPax(ps, chosen.value.idPax) {
      forall i, j | 0 <= i < j < |r| ensures r[i].idPax != r[j].idPax {
        if j == |ps| {
          assert r[i] == ps[i];
          assert ps[i] in ps;
        }
      }
    }
  }

  /** Selecting the same passenger again adds nothing. */
  lemma SelectTwiceAddsOnce(ps: seq<Passenger>, chosen: Passenger, id1: string, id2: string, at1: string, at2: string)
    ensures var once := HandlePassengerSelect(ps, Some(chosen), id1, at1).passengers;
      HandlePassengerSelect(once, Some(chosen), id2, at2) == Selection(once, None)
  {
    var once := HandlePassengerSelect(ps, Some(chosen), id1, at1).passengers;
    if !HasIdPax(ps, chosen.idPax) {
      assert once[|ps|] in once;
    }
  }

  /** `handleToggleSkyPriority`: flips the flag on the records with that id, nothing else. */
  function ToggleSkyPriority(ps: seq<Passenger>, id: string): (r: seq<Passenger>)
    ensures |r| == |ps|
    ensures forall i :: 0 <= i < |ps| ==>
      && r[i].(isSkyPriority := ps[i].isSkyPriority) == ps[i]
      && (r[i].isSkyPriority != ps[i].isSkyPriority <==> ps[i].id == id)
  {
    seq(|ps|, i requires 0 <= i < |ps| =>
      if ps[i].id == id then ps[i].(isSkyPriority := !ps[i].isSkyPriority) else ps[i])
  }

  lemma ToggleTwice(ps: seq<Passenger>, id: string)
    ensures ToggleSkyPriority(ToggleSkyPriority(ps, id), id) == ps
  {
  }

  /** `handleRemovePassenger`: `filter(p => p.id !== id)`. */
  function RemovePassenger(ps: seq<Passenger>, id: string): (r: seq<Passenger>)
    ensures forall p :: p in r <==> p in ps && p.id != id
    ensures |r| <= |ps|
  {
    Collect.Filter(ps, (p: Passenger) => p.id != id)
  }

  /** Adding a record with a fresh id and removing it again restores the list, in order. */
  lemma AddThenRemove(ps: seq<Passenger>, added: Passenger)
    requires forall p :: p in ps ==> p.id != added.id
    ensures RemovePassenger(ps + [added], added.id) == ps
  {
    var keep := (p: Passenger) => p.id != added.id;
    Collect.FilterConcat(ps, [added], keep);
    Collect.FilterAll(ps, keep);
    assert Collect.Filter([added], keep) == [] + Collect.Filter([], keep);
  }

  // ================================================================ counters and order

  /** The counter's filter: kept unless the time reads and today's instant is before now. */
  predicate KeepActive(p: Passenger, now: int)
  {
    var t := ExtractOrRaw(p.departureTime);
    if t == Unknown then true
    else match ParseHourMinute(t)
      case None => true
      case Some((h, m)) => DepartureMs(h, m) >= now
  }

  function ActivePassengers(ps: seq<Passenger>, now: int): (r: seq<Passenger>)
    ensures |r| <= |ps|
    ensures forall p :: p in r <==> p in ps && KeepActive(p, now)
  {
    Collect.Filter(ps, (p: Passenger) => KeepActive(p, now))
  }

  /** The counter keeps exactly the records the list item would not hide as passed. */
  lemma ActiveIsNotPassed(p: Passenger, now: int)
    ensures KeepActive(p, now) <==> !IsPassedRaw(p.departureTime, now)
  {
  }

  /** `filter(p => p.isSkyPriority).length`. */
  function CountSkyPriority(ps: seq<Passenger>): (n: nat)
    ensures n <= |ps|
  {
    |Collect.Filter(ps, (p: Passenger) => p.isSkyPriority)|
  }

  /** The SkyPriority counter never exceeds the active counter, which never exceeds the list. */
  lemma CountersBounded(ps: seq<Passenger>, now: int)
    ensures CountSkyPriority(ActivePassengers(ps, now)) <= |ActivePassengers(ps, now)| <= |ps|
  {
  }

  /**
   * The `sortedPassengers` comparator: today's instants subtracted; a time that
   * does not read makes the difference NaN, which the sort reads as 0.
   */
  function CompareByDeparture(a: Passenger, b: Passenger): int
  {
    if RawDepartureClock(a.departureTime).Some? && RawDepartureClock(b.departureTime).Some?
    then DepartureKey(a) - DepartureKey(b)
    else 0
  }

  function SortedPassengers(ps: seq<Passenger>): seq<Passenger>
  {
    Sorting.SortBy(ps, CompareByDeparture)
  }

  function DepartureKey(p: Passenger): int
  {
    var c := RawDepartureClock(p.departureTime);
    if c.Some? then DepartureMs(c.value.0, c.value.1) else 0
  }

  /** When every time reads, the list is shown in ascending departure order, nothing lost or added. */
  lemma SortedPassengersOrdered(ps: seq<Passenger>)
    requires forall p :: p in ps ==> RawDepartureClock(p.departureTime).Some?
    ensures multiset(SortedPassengers(ps)) == multiset(ps)
    ensures forall i, j :: 0 <= i < j < |ps| ==>
      DepartureKey(SortedPassengers(ps)[i]) <= DepartureKey(SortedPassengers(ps)[j])
  {
    forall a, b | a in ps && b in ps
      ensures CompareByDeparture(a, b) <= 0 <==> DepartureKey(a) <= DepartureKey(b)
    {
    }
    Sorting.KeyedIsPreorder(CompareByDeparture, DepartureKey, ps);
    Sorting.SortBySorted(ps, CompareByDeparture);
    var r := SortedPassengers(ps);
    forall i, j | 0 <= i < j < |r| ensures DepartureKey(r[i]) <= DepartureKey(r[j]) {
      assert r[i] in multiset(ps) && r[j] in multiset(ps);
      assert CompareByDeparture(r[i], r[j]) <= 0;
    }
  }

  // ================================================================ refresh timer

  /**
   * One timer tick as written: the interval was set up when the list length last
   * changed, so the `refreshData` it calls still sees the list of that render
   * (`snapshot`), merges that, and commits over whatever the list is now.
   */
  function TickAsWritten(snapshot: seq<Passenger>, current: seq<Passenger>, sheet: map<string, SheetEntry>)
    : (r: (seq<Passenger>, seq<AgentEvent>))
    ensures r.1 == Events(sheet, snapshot)
    ensures AnyGoAccChanged(sheet, snapshot) ==> r.0 == MergeAll(sheet, snapshot)
    ensures !AnyGoAccChanged(sheet, snapshot) ==> r.0 == current
  {
    if snapshot == [] then (current, [])
    else if AnyGoAccChanged(sheet, snapshot) then (MergeAll(sheet, snapshot), Events(sheet, snapshot))
    else (current, Events(sheet, snapshot))
  }

  /** One tick as intended: the refresh merges the list as it is now. */
  function Tick(current: seq<Passenger>, sheet: map<string, SheetEntry>): (r: (seq<Passenger>, seq<AgentEvent>))
    ensures |r.0| == |current|
    ensures forall i :: 0 <= i < |current| ==>
      r.0[i].id == current[i].id && r.0[i].isSkyPriority == current[i].isSkyPriority
  {
    if current == [] then (current, [])
    else
      MergeKeepsIdentity(sheet, current);
      (AfterRefresh(sheet, current), Events(sheet, current))
  }

  lemma MergeAllSnoc(sheet: map<string, SheetEntry>, ps: seq<Passenger>, i: nat)
    requires i < |ps|
    ensures MergeAll(sheet, ps[..i + 1]) == MergeAll(sheet, ps[..i]) + [MergeOne(sheet, ps[i])]
  {
    assert ps[..i + 1][i] == ps[i];
  }

  /** The merge keeps each record's id and SkyPriority flag. */
  lemma MergeKeepsIdentity(sheet: map<string, SheetEntry>, ps: seq<Passenger>)
    ensures forall i :: 0 <= i < |ps| ==>
      MergeAll(sheet, ps)[i].id == ps[i].id && MergeAll(sheet, ps)[i].isSkyPriority == ps[i].isSkyPriority
  {
    forall i | 0 <= i < |ps|
      ensures MergeAll(sheet, ps)[i].id == ps[i].id && MergeAll(sheet, ps)[i].isSkyPriority == ps[i].isSkyPriority
    {
      MergeOneFields(sheet, ps[i]);
    }
  }

  /** A second intended tick against the same sheet is silent and changes nothing. */
  lemma TickSettles(current: seq<Passenger>, sheet: map<string, SheetEntry>)
    ensures Tick(Tick(current, sheet).0, sheet) == (Tick(current, sheet).0, [])
  {
    RefreshIdempotent(sheet, current);
    var once := Tick(current, sheet).0;
    if once != [] && !AnyGoAccChanged(sheet, once) {
      assert AfterRefresh(sheet, once) == once;
    }
  }

  const StalePassenger: Passenger :=
    Unset.(id := "passenger-1", idPax := Some("P1"), lastName := "DUPONT", departureTime := "10:00")

  const AssignedSheet: map<string, SheetEntry> :=
    map["P1" := SheetEntry("P1", "DUPONT", "", "", "10:00", "AGENT7", "")]

  /** The stale record's marker differs from the sheet's, so each merge of it sends one event. */
  lemma StaleSnapshotAnnounces()
    ensures GoAccChanged(AssignedSheet, StalePassenger)
    ensures Events(AssignedSheet, [StalePassenger]) == [EventFor(AssignedSheet, StalePassenger)]
  {
    var e := AssignedSheet["P1"];
    assert Lookup(AssignedSheet, StalePassenger) == Some(e);
    assert Trim(e.goAcc) == "AGENT7" by {
      assert !IsSpace(e.goAcc[0]) && !IsSpace(e.goAcc[|e.goAcc| - 1]);
    }
    assert EventDue(AssignedSheet, StalePassenger) == Some(EventFor(AssignedSheet, StalePassenger));
    assert [StalePassenger][..0] == [];
    assert Events(AssignedSheet, [StalePassenger]) == Events(AssignedSheet, []) + [EventFor(AssignedSheet, StalePassenger)];
  }

  /** Once merged, the record agrees with the sheet whatever its flag. */
  lemma MergedRecordSettled(flag: bool)
    ensures !GoAccChanged(AssignedSheet, MergeOne(AssignedSheet, StalePassenger).(isSkyPriority := flag))
  {
    var e := AssignedSheet["P1"];
    TrimIdempotent(e.goAcc);
  }

  /**
   * With the list as written, a sheet that assigns an agent once re-announces the
   * assignment on every tick, and a SkyPriority toggle made between two ticks is
   * undone by the second; the intended tick announces once and keeps the toggle.
   */
  lemma StaleClosureRepeatsAndReverts()
    ensures var snapshot := [StalePassenger];
      var (afterOne, first) := TickAsWritten(snapshot, snapshot, AssignedSheet);
      var toggled := ToggleSkyPriority(afterOne, "passenger-1");
      var (afterTwo, second) := TickAsWritten(snapshot, toggled, AssignedSheet);
      && |first| == 1 && |second| == 1 && second[0].isNew
      && toggled[0].isSkyPriority && !afterTwo[0].isSkyPriority
      && Tick(toggled, AssignedSheet) == (toggled, [])
  {
    var snapshot := [StalePassenger];
    StaleSnapshotAnnounces();
    assert AnyGoAccChanged(AssignedSheet, snapshot);
    var afterOne := MergeAll(AssignedSheet, snapshot);
    var toggled := ToggleSkyPriority(afterOne, "passenger-1");
    assert toggled[0] == MergeOne(AssignedSheet, StalePassenger).(isSkyPriority := true);
    MergedRecordSettled(true);
    assert !AnyGoAccChanged(AssignedSheet, toggled);
    NoEventsIffUnchanged(AssignedSheet, toggled);
  }
}
