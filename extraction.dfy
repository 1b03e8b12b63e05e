/**
 * The table shaping of `processExcel` (server.js:25-38). The spreadsheet
 * library turns the first sheet into a list of rows (`sheetData`); that list
 * is the input here, and a cell is left abstract.
 */
module Extraction {
  import opened Wrappers

  /** What `processExcel` returns: the header labels and the data series. */
  datatype Table<Cell> = Table(labels: seq<Cell>, datachart: seq<seq<Cell>>)

  /** `row.slice(1)`: every cell but the first, in order; an empty row stays empty. */
  function DropFirst<Cell>(row: seq<Cell>): (r: seq<Cell>)
    ensures |row| == 0 ==> r == []
    ensures |row| > 0 ==> |r| == |row| - 1 && row == [row[0]] + r
  {
    if |row| == 0 then [] else row[1..]
  }

  /** `rows.map(row => row.slice(1))` */
  function DropFirstEach<Cell>(rows: seq<seq<Cell>>): (r: seq<seq<Cell>>)
    ensures |r| == |rows|
    ensures forall i :: 0 <= i < |rows| ==> r[i] == DropFirst(rows[i])
  {
    if rows == [] then [] else [DropFirst(rows[0])] + DropFirstEach(rows[1..])
  }

  /**
   * `processExcel` after the parse: the labels are the header row without its
   * first cell, and the series holds every later row, in order, without its
   * first cell. A sheet with no rows at all makes `labels.slice(1)` throw.
   */
  function ProcessRows<Cell>(sheetData: seq<seq<Cell>>): (r: Result<Table<Cell>>)
    ensures r.Err? <==> |sheetData| == 0
    ensures r.Err? ==> r.error == EmptySheet
    ensures r.Ok? ==> |r.value.labels| == if |sheetData[0]| == 0 then 0 else |sheetData[0]| - 1
    ensures r.Ok? ==> forall i :: 0 <= i < |r.value.labels| ==> r.value.labels[i] == sheetData[0][i + 1]
    ensures r.Ok? ==> |r.value.datachart| == |sheetData| - 1
    ensures r.Ok? ==> forall i :: 0 <= i < |r.value.datachart| ==> r.value.datachart[i] == DropFirst(sheetData[i + 1])
  {
    if |sheetData| == 0 then Err(EmptySheet)
    else
      var datachart := DropFirstEach(sheetData[1..]);
      Ok(Table(DropFirst(sheetData[0]), datachart))
  }

  /** Every row has a first cell, the column that extraction drops. */
  predicate AllRowsNonEmpty<Cell>(rows: seq<seq<Cell>>) {
    forall i :: 0 <= i < |rows| ==> |rows[i]| > 0
  }

  /** The first cell of every row: the column extraction drops. */
  function FirstColumn<Cell>(rows: seq<seq<Cell>>): (c: seq<Cell>)
    requires AllRowsNonEmpty(rows)
    ensures |c| == |rows|
    ensures forall i :: 0 <= i < |rows| ==> c[i] == rows[i][0]
  {
    if rows == [] then [] else [rows[0][0]] + FirstColumn(rows[1..])
  }

  /** Puts a first cell back in front of each row. */
  function Reattach<Cell>(firsts: seq<Cell>, rest: seq<seq<Cell>>): (rows: seq<seq<Cell>>)
    requires |firsts| == |rest|
    ensures |rows| == |rest|
  {
    if rest == [] then [] else [[firsts[0]] + rest[0]] + Reattach(firsts[1..], rest[1..])
  }

  lemma {:induction false} ReattachDropFirstEach<Cell>(rows: seq<seq<Cell>>)
    requires AllRowsNonEmpty(rows)
    ensures Reattach(FirstColumn(rows), DropFirstEach(rows)) == rows
  {
    if rows != [] {
      assert AllRowsNonEmpty(rows[1..]) by {
        forall i | 0 <= i < |rows| - 1 ensures |rows[1..][i]| > 0 {
          assert rows[1..][i] == rows[i + 1];
        }
      }
      ReattachDropFirstEach(rows[1..]);
      assert FirstColumn(rows)[1..] == FirstColumn(rows[1..]);
      assert DropFirstEach(rows)[1..] == DropFirstEach(rows[1..]);
    }
  }

  /**
   * Extraction loses only the first column: putting each row's first cell
   * back in front of the labels and of each series row rebuilds the sheet.
   */
  lemma {:induction false} ExtractionLosesOnlyFirstColumn<Cell>(sheetData: seq<seq<Cell>>)
    requires |sheetData| > 0 && AllRowsNonEmpty(sheetData)
    ensures ProcessRows(sheetData).Ok?
    ensures var t := ProcessRows(sheetData).value;
            Reattach(FirstColumn(sheetData), [t.labels] + t.datachart) == sheetData
  {
    var t := ProcessRows(sheetData).value;
    assert [t.labels] + t.datachart == DropFirstEach(sheetData);
    ReattachDropFirstEach(sheetData);
  }

  /** A concrete cell type for the worked example. */
  datatype Value = Text(text: string) | Number(n: int)

  /** A header `Month, A, B` and two data rows: the month column is dropped. */
  lemma MonthlyExample()
    ensures ProcessRows([[Text("Month"), Text("A"), Text("B")],
                         [Text("Jan"), Number(1), Number(2)],
                         [Text("Feb"), Number(3), Number(4)]])
         == Ok(Table([Text("A"), Text("B")], [[Number(1), Number(2)], [Number(3), Number(4)]]))
  {
    var sheet := [[Text("Month"), Text("A"), Text("B")],
                  [Text("Jan"), Number(1), Number(2)],
                  [Text("Feb"), Number(3), Number(4)]];
    var t := ProcessRows(sheet).value;
    assert t.labels == [Text("A"), Text("B")];
    assert t.datachart == [[Number(1), Number(2)], [Number(3), Number(4)]];
  }
}
