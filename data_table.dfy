/** The dashboard data table: header cells from the columns, one body row per
    data item (or a single "No data available" row), the row keys, the cell
    text, and the keyboard activation of clickable rows. */
module DataTable {
  import opened Optional
  import Text

  /** The field values a row can hold, as far as the table looks at them.
      Numbers are integers in this model. */
  datatype Value = Str(s: string) | Num(n: int) | Bool(b: bool) | Null | Undefined | Object

  /** A row: its fields by key; a key that is absent reads as undefined. */
  type Row = map<string, Value>

  function Field(row: Row, key: string): (v: Value)
    ensures key !in row ==> v == Undefined
  {
    if key in row then row[key] else Undefined
  }

  /** `String(v ?? "")`: null and undefined become the empty string. */
  function Display(v: Value): (s: string)
    ensures v.Null? || v.Undefined? ==> s == ""
    ensures v.Str? ==> s == v.s
    ensures v.Num? ==> s == Text.IntToString(v.n)
  {
    match v
    case Str(s) => s
    case Num(n) => Text.IntToString(n)
    case Bool(b) => if b then "true" else "false"
    case Null => ""
    case Undefined => ""
    case Object => "[object Object]"
  }

  /** getRowId: the row's own `id` when it is a string or a number, otherwise
      `row-` and the row's index. */
  function RowId(row: Row, index: nat): (id: string)
    ensures Field(row, "id").Str? ==> id == Field(row, "id").s
    ensures Field(row, "id").Num? ==> id == Text.IntToString(Field(row, "id").n)
    ensures !Field(row, "id").Str? && !Field(row, "id").Num? ==>
      |id| > 4 && id[..4] == "row-" && (forall k :: 4 <= k < |id| ==> Text.IsDigit(id[k])) &&
      Text.ParseNat(id[4..]) == index
  {
    match Field(row, "id")
    case Str(s) => s
    case Num(n) => Text.IntToString(n)
    case _ =>
      var digits := Text.NatToString(index);
      Text.ParseNatToString(index);
      assert ("row-" + digits)[4..] == digits;
      "row-" + digits
  }

  /** Rows without an id of their own get keys that differ from each other. */
  lemma FallbackIdsDistinct(a: Row, i: nat, b: Row, j: nat)
    requires !Field(a, "id").Str? && !Field(a, "id").Num?
    requires !Field(b, "id").Str? && !Field(b, "id").Num?
    requires i != j
    ensures RowId(a, i) != RowId(b, j)
  {
  }

  datatype Column = Column(key: string, caption: string, render: Option<Row -> string>)

  /** A cell shows `render(row)` when the column has a renderer, else the
      field's text. */
  function CellText(col: Column, row: Row): (s: string)
    ensures col.render.Some? ==> s == col.render.value(row)
    ensures col.render.None? ==> s == Display(Field(row, col.key))
  {
    if col.render.Some? then col.render.value(row) else Display(Field(row, col.key))
  }

  /** Without a renderer a missing, null or undefined field shows nothing. */
  lemma MissingFieldBlank(col: Column, row: Row)
    requires col.render.None?
    requires col.key !in row || row[col.key].Null? || row[col.key].Undefined?
    ensures CellText(col, row) == ""
  {
  }

  /** A body row: its key, whether it can take focus (`tabIndex` 0 and role
      "row"), and its cells. */
  datatype RowView = RowView(key: string, focusable: bool, cells: seq<string>)

  /** The body: the placeholder row spanning every column, or the rows. */
  datatype Body = Placeholder(colSpan: nat, text: string) | Rows(rows: seq<RowView>)

  function RowViewOf(columns: seq<Column>, row: Row, index: nat, clickable: bool): (r: RowView)
    ensures r.key == RowId(row, index) && r.focusable == clickable
    ensures |r.cells| == |columns| && forall j :: 0 <= j < |columns| ==> r.cells[j] == CellText(columns[j], row)
  {
    RowView(RowId(row, index), clickable, seq(|columns|, j requires 0 <= j < |columns| => CellText(columns[j], row)))
  }

  /** The table body for these columns and data; `clickable` says whether an
      `onRowClick` handler was given. */
  function TableBody(columns: seq<Column>, data: seq<Row>, clickable: bool): (b: Body)
    ensures data == [] <==> b.Placeholder?
    ensures b.Placeholder? ==> b.colSpan == |columns| && b.text == "No data available"
    ensures b.Rows? ==> |b.rows| == |data|
    ensures b.Rows? ==> forall i :: 0 <= i < |data| ==> b.rows[i] == RowViewOf(columns, data[i], i, clickable)
  {
    if data == [] then Placeholder(|columns|, "No data available")
    else Rows(seq(|data|, i requires 0 <= i < |data| => RowViewOf(columns, data[i], i, clickable)))
  }

  /** Every body row has one cell per column, in column order, and rows are
      focusable exactly when a click handler was given. */
  lemma RowsFollowColumns(columns: seq<Column>, data: seq<Row>, clickable: bool)
    requires data != []
    ensures forall i, j :: 0 <= i < |data| && 0 <= j < |columns| ==>
      |TableBody(columns, data, clickable).rows[i].cells| == |columns| &&
      TableBody(columns, data, clickable).rows[i].cells[j] == CellText(columns[j], data[i]) &&
      TableBody(columns, data, clickable).rows[i].focusable == clickable
  {
    var b := TableBody(columns, data, clickable);
    forall i, j | 0 <= i < |data| && 0 <= j < |columns|
      ensures |b.rows[i].cells| == |columns| && b.rows[i].cells[j] == CellText(columns[j], data[i])
        && b.rows[i].focusable == clickable
    {
      assert b.rows[i] == RowViewOf(columns, data[i], i, clickable);
    }
  }

  /** The header cells: the column captions in order. */
  function Headers(columns: seq<Column>): (h: seq<string>)
    ensures |h| == |columns| && forall j :: 0 <= j < |columns| ==> h[j] == columns[j].caption
  {
    seq(|columns|, j requires 0 <= j < |columns| => columns[j].caption)
  }

  /** `{caption && <caption>…}`: shown only when given and non-empty. */
  function CaptionShown(caption: Option<string>): (c: Option<string>)
    ensures c.Some? <==> caption.Some? && caption.value != ""
    ensures c.Some? ==> c == caption
  {
    if caption.Some? && caption.value != "" then caption else None
  }

  /** What a key press on a row does: whether the default is prevented and
      whether `onRowClick` is called. */
  datatype KeyOutcome = KeyOutcome(preventDefault: bool, clicked: bool)

  /** handleKeyDown: Enter and Space activate the row (calling the handler if
      there is one); every other key does nothing. */
  function HandleKeyDown(key: string, clickable: bool): (o: KeyOutcome)
    ensures o.preventDefault <==> key == "Enter" || key == " "
    ensures o.clicked <==> (key == "Enter" || key == " ") && clickable
  {
    if key == "Enter" || key == " " then KeyOutcome(true, clickable) else KeyOutcome(false, false)
  }
}
