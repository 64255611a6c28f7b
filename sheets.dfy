/** The values of a spreadsheet workbook, as the tournament generator writes
    them: each sheet is a title and a map from (row, column) to the value last
    written there. Styles, widths and saving are not modelled. */
module Sheets {

  /** What a cell can hold here: a player id or a piece of text. */
  datatype Value = Int(n: int) | Str(s: string)

  /** A cell position (row, column), both counted from 1. */
  type Key = (int, int)

  type Cells = map<Key, Value>

  datatype Sheet = Sheet(title: string, cells: Cells)

  datatype Workbook = Workbook(sheets: seq<Sheet>)

  /** A new workbook starts with one empty sheet of this title. */
  const DefaultTitle: string := "Sheet"

  function NewWorkbook(): (wb: Workbook)
    ensures |wb.sheets| == 1 && wb.sheets[0].title == DefaultTitle && wb.sheets[0].cells == map[]
  {
    Workbook([Sheet(DefaultTitle, map[])])
  }

  /** `key` is one of the `count` cells of column `col` starting at row `firstRow`. */
  predicate InColumnRun(key: Key, col: int, firstRow: int, count: int) {
    key.1 == col && firstRow <= key.0 < firstRow + count
  }

  /** `key` is one of the `count` cells of row `row` starting at column `firstCol`. */
  predicate InRowRun(key: Key, row: int, firstCol: int, count: int) {
    key.0 == row && firstCol <= key.1 < firstCol + count
  }

  function PlayerValues(team: seq<int>): (vs: seq<Value>)
    ensures |vs| == |team| && forall i :: 0 <= i < |team| ==> vs[i] == Int(team[i])
  {
    seq(|team|, i requires 0 <= i < |team| => Int(team[i]))
  }

  function TextValues(texts: seq<string>): (vs: seq<Value>)
    ensures |vs| == |texts| && forall i :: 0 <= i < |texts| ==> vs[i] == Str(texts[i])
  {
    seq(|texts|, i requires 0 <= i < |texts| => Str(texts[i]))
  }

  /** `n` empty texts. */
  function Blanks(n: nat): (vs: seq<Value>)
    ensures |vs| == n && forall i :: 0 <= i < n ==> vs[i] == Str("")
  {
    seq(n, _ => Str(""))
  }

  /** `out` is `cells` after writing `values` down column `col` from row
      `firstRow`: those cells hold the new values, every other cell is as it was. */
  ghost predicate WrittenDown(out: Cells, cells: Cells, col: int, firstRow: int, values: seq<Value>) {
    (forall key :: key in out <==> key in cells || InColumnRun(key, col, firstRow, |values|))
    && forall key :: key in out ==>
      out[key] == if InColumnRun(key, col, firstRow, |values|) then values[key.0 - firstRow] else cells[key]
  }

  /** `out` is `cells` after writing `values` along row `row` from column
      `firstCol`: those cells hold the new values, every other cell is as it was. */
  ghost predicate WrittenAcross(out: Cells, cells: Cells, row: int, firstCol: int, values: seq<Value>) {
    (forall key :: key in out <==> key in cells || InRowRun(key, row, firstCol, |values|))
    && forall key :: key in out ==>
      out[key] == if InRowRun(key, row, firstCol, |values|) then values[key.1 - firstCol] else cells[key]
  }

  /** Writes `values` one by one down column `col` from row `firstRow`: those
      cells now hold the new values, every other cell is as it was. Rows and
      columns start at 1; the spreadsheet library refuses anything lower. */
  method WriteDown(cells: Cells, col: int, firstRow: int, values: seq<Value>) returns (out: Cells)
    requires col >= 1 && firstRow >= 1
    ensures WrittenDown(out, cells, col, firstRow, values)
  {
    out := cells;
    var i := 0;
    while i < |values|
      invariant 0 <= i <= |values|
      invariant forall key :: key in out <==> key in cells || InColumnRun(key, col, firstRow, i)
      invariant forall key :: key in out ==>
        out[key] == if InColumnRun(key, col, firstRow, i) then values[key.0 - firstRow] else cells[key]
    {
      out := out[(firstRow + i, col) := values[i]];
      i := i + 1;
    }
  }

  /** Writes `values` one by one along row `row` from column `firstCol`: those
      cells now hold the new values, every other cell is as it was. Rows and
      columns start at 1; the spreadsheet library refuses anything lower. */
  method WriteAcross(cells: Cells, row: int, firstCol: int, values: seq<Value>) returns (out: Cells)
    requires row >= 1 && firstCol >= 1
    ensures WrittenAcross(out, cells, row, firstCol, values)
  {
    out := cells;
    var i := 0;
    while i < |values|
      invariant 0 <= i <= |values|
      invariant forall key :: key in out <==> key in cells || InRowRun(key, row, firstCol, i)
      invariant forall key :: key in out ==>
        out[key] == if InRowRun(key, row, firstCol, i) then values[key.1 - firstCol] else cells[key]
    {
      out := out[(row, firstCol + i) := values[i]];
      i := i + 1;
    }
  }

  function Titles(sheets: seq<Sheet>): (ts: seq<string>)
    ensures |ts| == |sheets| && forall i :: 0 <= i < |sheets| ==> ts[i] == sheets[i].title
  {
    seq(|sheets|, i requires 0 <= i < |sheets| => sheets[i].title)
  }

  /** Where the workbook finds the sheet of a given title: the first one so
      titled, or -1 when there is none. */
  function IndexOfTitle(sheets: seq<Sheet>, title: string): (r: int)
    ensures -1 <= r < |sheets|
    ensures r >= 0 ==> sheets[r].title == title
    ensures forall j :: 0 <= j < |sheets| && (r < 0 || j < r) ==> sheets[j].title != title
  {
    if sheets == [] then -1
    else if sheets[0].title == title then 0
    else
      var r := IndexOfTitle(sheets[1..], title);
      if r < 0 then -1 else r + 1
  }
}
