/**
 * The passenger picker: its own sheet parser, which keeps every row with six
 * columns in row order, the name order of the drop-down, and the lookup
 * behind a choice.
 */
module PassengerSelector {
  import opened Wrappers
  import opened Text
  import opened Records
  import opened SheetRows
  import Sorting
  import Collect

  // ================================================================ sheet parsing

  /** `String(row[6] || 'WCHR').trim()`: a missing or empty SSR1 cell reads as WCHR. */
  function StatusCell(cells: seq<string>): (r: string)
    ensures IsTrimmed(r)
    ensures |cells| <= 6 || cells[6] == "" ==> r == "WCHR"
    ensures |cells| > 6 && cells[6] != "" ==> r == Trim(cells[6])
  {
    if |cells| > 6 && cells[6] != "" then Trim(cells[6]) else "WCHR"
  }

  /** One data row, given the fresh id the page generates for it. */
  function PassengerOfRow(row: seq<string>, id: string): (r: Option<Passenger>)
    ensures r.Some? <==> |ProcessRow(row)| >= MinColumns
  {
    var cells := ProcessRow(row);
    if |cells| < MinColumns then None
    else Some(Unset.(
      id := id,
      idPax := Some(CellAt(cells, 0)),
      lastName := CellAt(cells, 1),
      firstName := CellAt(cells, 2),
      flightNumber := CellAt(cells, 3),
      departureTime := CellAt(cells, 4),
      goAcc := CellAt(cells, 5),
      ssr1 := CellAt(cells, 6),
      terminalDepart := CellAt(cells, 7),
      status := StatusCell(cells)))
  }

  /** The shape of every record the parser produces. */
  predicate ParsedShape(p: Passenger)
  {
    && p.idPax.Some? && IsTrimmed(p.idPax.value)
    && IsTrimmed(p.lastName) && IsTrimmed(p.firstName) && IsTrimmed(p.flightNumber)
    && IsTrimmed(p.departureTime) && IsTrimmed(p.goAcc) && IsTrimmed(p.ssr1)
    && IsTrimmed(p.terminalDepart) && IsTrimmed(p.status)
    && p.airline == "" && p.destination == ""
    && !p.isSkyPriority && !p.isAssisted
  }

  /** The fields of a kept row: trimmed cells, SSR1 doubling as the status unless it is empty. */
  lemma RowFields(row: seq<string>, id: string)
    requires PassengerOfRow(row, id).Some?
    ensures var p := PassengerOfRow(row, id).value; var cells := ProcessRow(row);
      && ParsedShape(p) && p.id == id
      && p.idPax == Some(Trim(cells[0])) && p.lastName == Trim(cells[1]) && p.firstName == Trim(cells[2])
      && p.flightNumber == Trim(cells[3]) && p.departureTime == Trim(cells[4]) && p.goAcc == Trim(cells[5])
      && p.ssr1 == CellAt(cells, 6) && p.terminalDepart == CellAt(cells, 7)
      && (|cells| > 6 && cells[6] != "" ==> p.status == p.ssr1)
      && (|cells| == 6 || cells[6] == "" ==> p.ssr1 == "" && p.status == "WCHR")
  {
  }

  /** Data row `i` (1-based in the sheet) with its fresh id. */
  function RowStep(freshId: nat -> string): ((nat, seq<string>)) -> Option<Passenger>
  {
    (r: (nat, seq<string>)) => PassengerOfRow(r.1, freshId(r.0))
  }

  /** The data rows, each with its index in the sheet. */
  function DataRows(rows: seq<seq<string>>): (r: seq<(nat, seq<string>)>)
    requires rows != []
    ensures |r| == |rows| - 1
    ensures forall k :: 0 <= k < |r| ==> r[k] == (k + 1, rows[k + 1])
  {
    seq(|rows| - 1, k requires 0 <= k < |rows| - 1 => (k + 1, rows[k + 1]))
  }

  /** `parseSheetData` (PassengerSelector): the kept rows' records, in row order. */
  function SelectorRows(values: Option<seq<seq<string>>>, freshId: nat -> string): seq<Passenger>
  {
    if values.None? || values.value == [] then []
    else Collect.Collect(DataRows(values.value), RowStep(freshId))
  }

  method ParseSheetArray(values: Option<seq<seq<string>>>, freshId: nat -> string)
    returns (passengers: seq<Passenger>)
    ensures passengers == SelectorRows(values, freshId)
  {
    passengers := [];
    if values.None? || values.value == [] {
      return;
    }
    var rows := values.value;
    ghost var data, step := DataRows(rows), RowStep(freshId);
    var i := 1;
    while i < |rows|
      invariant 1 <= i <= |rows|
      invariant passengers == Collect.Collect(data[..i - 1], step)
    {
      Collect.CollectSnoc(data, i - 1, step);
      var passenger := PassengerOfRow(rows[i], freshId(i));
      assert step(data[i - 1]) == passenger by {
        assert data[i - 1] == (i, rows[i]);
      }
      if passenger.Some? {
        passengers := passengers + [passenger.value];
      }
      i := i + 1;
    }
    assert data[..i - 1] == data;
  }

  /** Every record comes from a data row with six columns, fields as `RowFields` states. */
  lemma SelectorRowsFrom(values: Option<seq<seq<string>>>, freshId: nat -> string, p: Passenger)
    ensures p in SelectorRows(values, freshId) <==>
      values.Some? && exists i :: 1 <= i < |values.value| && PassengerOfRow(values.value[i], freshId(i)) == Some(p)
    ensures p in SelectorRows(values, freshId) ==> ParsedShape(p)
  {
    if values.Some? && values.value != [] {
      var rows, f := values.value, RowStep(freshId);
      var data := DataRows(rows);
      Collect.CollectExactly(data, f, p);
      if p in SelectorRows(values, freshId) {
        var k :| 0 <= k < |data| && f(data[k]) == Some(p);
        assert data[k] == (k + 1, rows[k + 1]);
        assert PassengerOfRow(rows[k + 1], freshId(k + 1)) == Some(p);
        RowFields(rows[k + 1], freshId(k + 1));
      } else {
        forall i | 1 <= i < |rows| ensures PassengerOfRow(rows[i], freshId(i)) != Some(p) {
          assert data[i - 1] == (i, rows[i]);
          assert f(data[i - 1]) != Some(p);
        }
      }
    }
  }

  /** Absent or empty input gives no records, and never more records than data rows. */
  lemma SelectorRowsBounded(values: Option<seq<seq<string>>>, freshId: nat -> string)
    ensures values.None? || values.value == [] ==> SelectorRows(values, freshId) == []
    ensures values.Some? && values.value != [] ==> |SelectorRows(values, freshId)| <= |values.value| - 1
  {
    if values.Some? && values.value != [] {
      Collect.CollectBounded(DataRows(values.value), RowStep(freshId));
    }
  }

  /**
   * Row order is kept: the records of the first rows come first. Unlike the
   * list page's parser, a wide row is kept whatever its idPax and last name.
   */
  lemma SelectorRowsInOrder(rows: seq<seq<string>>, n: nat, freshId: nat -> string)
    requires 1 <= n <= |rows|
    ensures SelectorRows(Some(rows), freshId) ==
      SelectorRows(Some(rows[..n]), freshId) + Collect.Collect(DataRows(rows)[n - 1..], RowStep(freshId))
  {
    var data := DataRows(rows);
    assert data == data[..n - 1] + data[n - 1..];
    assert DataRows(rows[..n]) == data[..n - 1];
    Collect.CollectConcat(data[..n - 1], data[n - 1..], RowStep(freshId));
  }

  /** A last row with six columns adds exactly its own record at the end. */
  lemma WideRowAppended(rows: seq<seq<string>>, row: seq<string>, freshId: nat -> string)
    requires rows != [] && |ProcessRow(row)| >= MinColumns
    ensures SelectorRows(Some(rows + [row]), freshId) ==
      SelectorRows(Some(rows), freshId) + [PassengerOfRow(row, freshId(|rows|)).value]
  {
    var last: (nat, seq<string>) := (|rows|, row);
    DataRowsSnoc(rows, row);
    Collect.CollectConcat(DataRows(rows), [last], RowStep(freshId));
    Collect.CollectSingle(last, RowStep(freshId));
  }

  lemma DataRowsSnoc(rows: seq<seq<string>>, row: seq<string>)
    requires rows != []
    ensures DataRows(rows + [row]) == DataRows(rows) + [(|rows|, row)]
  {
  }

  // ================================================================ name order

  /** `sortByLastName`: lower-cased last names, ties broken on lower-cased first names. */
  function ByLastName(a: Passenger, b: Passenger): int
  {
    var c := LexCompare(ToLower(a.lastName), ToLower(b.lastName));
    if c == 0 then LexCompare(ToLower(a.firstName), ToLower(b.firstName)) else c
  }

  lemma ByLastNameTransitive(a: Passenger, b: Passenger, c: Passenger)
    requires ByLastName(a, b) <= 0 && ByLastName(b, c) <= 0
    ensures ByLastName(a, c) <= 0
  {
    var la, lb, lc := ToLower(a.lastName), ToLower(b.lastName), ToLower(c.lastName);
    var fa, fb, fc := ToLower(a.firstName), ToLower(b.firstName), ToLower(c.firstName);
    LexTransitive(la, lb, lc);
    if la == lc && la != lb {
      LexAntisymmetric(la, lb);
    }
    if la == lb && lb == lc {
      LexTransitive(fa, fb, fc);
    }
  }

  lemma ByLastNameTotal(ps: seq<Passenger>)
    ensures Sorting.TotalPreorderOn(ByLastName, ps)
  {
    forall a, b | a in ps && b in ps ensures ByLastName(a, b) <= 0 || ByLastName(b, a) <= 0 {
      LexAntisymmetric(ToLower(a.lastName), ToLower(b.lastName));
      LexAntisymmetric(ToLower(a.firstName), ToLower(b.firstName));
    }
    forall a, b, c | a in ps && b in ps && c in ps && ByLastName(a, b) <= 0 && ByLastName(b, c) <= 0
      ensures ByLastName(a, c) <= 0
    {
      ByLastNameTransitive(a, b, c);
    }
  }

  function SortedByName(ps: seq<Passenger>): seq<Passenger> { Sorting.SortBy(ps, ByLastName) }

  /**
   * The drop-down lists the same records, by lower-cased last name, and by
   * lower-cased first name among equal last names.
   */
  lemma SortedByNameOrdered(ps: seq<Passenger>)
    ensures multiset(SortedByName(ps)) == multiset(ps)
    ensures var r := SortedByName(ps);
      forall i, j :: 0 <= i < j < |r| ==> LexCompare(ToLower(r[i].lastName), ToLower(r[j].lastName)) <= 0
    ensures var r := SortedByName(ps);
      forall i, j :: 0 <= i < j < |r| && ToLower(r[i].lastName) == ToLower(r[j].lastName) ==>
        LexCompare(ToLower(r[i].firstName), ToLower(r[j].firstName)) <= 0
  {
    ByLastNameTotal(ps);
    Sorting.SortBySorted(ps, ByLastName);
  }

  // ================================================================ choosing

  /** `passengers.find(p => p.id === id)`: the first record with that id. */
  function FindById(ps: seq<Passenger>, id: string): (r: Option<Passenger>)
    ensures r.None? <==> forall k :: 0 <= k < |ps| ==> ps[k].id != id
    ensures r.Some? ==> exists k :: (0 <= k < |ps| && ps[k] == r.value && r.value.id == id
                                     && forall j :: 0 <= j < k ==> ps[j].id != id)
  {
    if ps == [] then None
    else if ps[0].id == id then Some(ps[0])
    else
      var r := FindById(ps[1..], id);
      if r.Some? then
        var k :| 0 <= k < |ps[1..]| && ps[1..][k] == r.value && r.value.id == id
          && forall j :: 0 <= j < k ==> ps[1..][j].id != id;
        assert ps[k + 1] == r.value;
        r
      else r
  }

  /** The call `handleChange` makes: none, `onSelect(null)`, or `onSelect(record)`. */
  datatype Choice = Choice(selectedId: string, call: Option<Option<Passenger>>)

  /** `handleChange`: the shown value becomes the choice, and `onSelect` hears about it. */
  function HandleChange(ps: seq<Passenger>, value: string, hasOnSelect: bool): (r: Choice)
    ensures r.selectedId == value
    ensures !hasOnSelect ==> r.call.None?
    ensures hasOnSelect && value == "" ==> r.call == Some(None)
    ensures value != "" && r.call.Some? ==> r.call.value.Some? && r.call.value.value in ps && r.call.value.value.id == value
    ensures hasOnSelect && value != "" ==> (r.call.None? <==> forall k :: 0 <= k < |ps| ==> ps[k].id != value)
  {
    if value != "" then
      var selected := FindById(ps, value);
      Choice(value, if selected.Some? && hasOnSelect then Some(selected) else None)
    else Choice(value, if hasOnSelect then Some(None) else None)
  }
}
