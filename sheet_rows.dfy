/**
 * What both `parseSheetData` copies do to one spreadsheet row before reading
 * its columns: a row delivered as a single cell that contains `;` is split on
 * `;` into trimmed cells, and a column is read as `String(row[k] || '').trim()`.
 */
module SheetRows {
  import opened Text

  /** Rows shorter than this are dropped. */
  const MinColumns: nat := 6

  function TrimAll(cells: seq<string>): (r: seq<string>)
    ensures |r| == |cells|
    ensures forall k :: 0 <= k < |r| ==> r[k] == Trim(cells[k]) && IsTrimmed(r[k])
  {
    seq(|cells|, k requires 0 <= k < |cells| => Trim(cells[k]))
  }

  predicate IsPackedRow(row: seq<string>) { |row| == 1 && ';' in row[0] }

  function ProcessRow(row: seq<string>): (r: seq<string>)
    ensures !IsPackedRow(row) ==> r == row
    ensures IsPackedRow(row) ==> |r| == CountChar(row[0], ';') + 1
    ensures IsPackedRow(row) ==> forall k :: 0 <= k < |r| ==> IsTrimmed(r[k]) && ';' !in r[k]
    ensures IsPackedRow(row) ==> r == TrimAll(Split(row[0], ';'))
  {
    if IsPackedRow(row) then
      SplitCount(row[0], ';');
      var pieces := Split(row[0], ';');
      var r := TrimAll(pieces);
      forall k | 0 <= k < |r| ensures ';' !in r[k] {
        if ';' in r[k] {
          TrimWithin(pieces[k], ';');
        }
      }
      r
    else row
  }

  /** Column `k`, trimmed; a missing column reads as `""`. */
  function CellAt(row: seq<string>, k: nat): (r: string)
    ensures IsTrimmed(r)
    ensures k < |row| ==> r == Trim(row[k])
    ensures k >= |row| ==> r == ""
  {
    if k < |row| then Trim(row[k]) else ""
  }
}
