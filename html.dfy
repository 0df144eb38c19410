// The already-parsed HTML document the parsers walk: tables, their rows
// and cells, and BeautifulSoup's `find("table", …)` selection rules.
module Html {
  import opened Wrappers
  import opened PyStr

  /** A `<td>` (isHeader false) or `<th>` (isHeader true) with its raw text. */
  datatype Cell = Cell(isHeader: bool, raw: string)

  /** A `<tr>`: its cells in document order and `row.get_text()`. */
  datatype Row = Row(cells: seq<Cell>, text: string)

  /** A `<table>`: its id, class list, every `<tr>` in it, and the rows of
      its `<tbody>` and `<tfoot>` when those elements exist. */
  datatype Table = Table(
    id: Option<string>,
    classes: seq<string>,
    rows: seq<Row>,
    body: Option<seq<Row>>,
    foot: Option<seq<Row>>)

  /** The tables of a document, in document order. */
  type Page = seq<Table>

  /** `cell.get_text(strip=True)`. */
  function CellText(c: Cell): string
  {
    Strip(c.raw)
  }

  /** Texts of `row.find_all("td")`. */
  function Tds(row: Row): (ts: seq<string>)
    ensures |ts| <= |row.cells|
  {
    TdsOf(row.cells)
  }

  function TdsOf(cells: seq<Cell>): (ts: seq<string>)
    ensures |ts| <= |cells|
  {
    if cells == [] then []
    else (if cells[0].isHeader then [] else [CellText(cells[0])]) + TdsOf(cells[1..])
  }

  /** Unstripped texts of `row.find_all("td")`, as `cell.get_text()`. */
  function TdRaws(row: Row): (ts: seq<string>)
    ensures |ts| <= |row.cells|
  {
    TdRawsOf(row.cells)
  }

  function TdRawsOf(cells: seq<Cell>): (ts: seq<string>)
    ensures |ts| <= |cells|
  {
    if cells == [] then []
    else (if cells[0].isHeader then [] else [cells[0].raw]) + TdRawsOf(cells[1..])
  }

  /** Texts of `row.find_all("th")`. */
  function Ths(row: Row): seq<string>
  {
    ThsOf(row.cells)
  }

  function ThsOf(cells: seq<Cell>): seq<string>
  {
    if cells == [] then []
    else (if cells[0].isHeader then [CellText(cells[0])] else []) + ThsOf(cells[1..])
  }

  /** Texts of `row.find_all(["td", "th"])`. */
  function AllCells(row: Row): (ts: seq<string>)
    ensures |ts| == |row.cells|
  {
    seq(|row.cells|, i requires 0 <= i < |row.cells| => CellText(row.cells[i]))
  }

  /** `soup.find("table", …)` with a condition on the table. */
  function FindTable(page: Page, p: Table -> bool): (r: Option<Table>)
    ensures r.None? <==> forall i :: 0 <= i < |page| ==> !p(page[i])
    ensures r.Some? ==> p(r.value) && (exists i :: 0 <= i < |page| && page[i] == r.value
                                         && forall j :: 0 <= j < i ==> !p(page[j]))
  {
    if page == [] then None
    else if p(page[0]) then Some(page[0])
    else
      var r := FindTable(page[1..], p);
      if r.Some? then
        var i :| 0 <= i < |page[1..]| && page[1..][i] == r.value
                  && forall j :: 0 <= j < i ==> !p(page[1..][j]);
        assert page[i + 1] == r.value;
        assert forall j :: 0 <= j < i + 1 ==> !p(page[j]) by {
          forall j | 0 <= j < i + 1 ensures !p(page[j]) {
            if j > 0 { assert page[j] == page[1..][j - 1]; }
          }
        }
        r
      else
        assert forall i :: 0 <= i < |page| ==> !p(page[i]) by {
          forall i | 0 <= i < |page| ensures !p(page[i]) {
            if i > 0 { assert page[i] == page[1..][i - 1]; }
          }
        }
        r
  }

  predicate HasId(t: Table, id: string)
  {
    t.id == Some(id)
  }

  predicate HasClass(t: Table, cls: string)
  {
    cls in t.classes
  }

  /** `soup.find("table", {"id": id})`. */
  function ById(page: Page, id: string): Option<Table>
  {
    FindTable(page, t => HasId(t, id))
  }

  /** `soup.find("table", class_=cls)`. */
  function ByClass(page: Page, cls: string): Option<Table>
  {
    FindTable(page, t => HasClass(t, cls))
  }

  /** `soup.find("table")`. */
  function First(page: Page): Option<Table>
  {
    FindTable(page, t => true)
  }

  /** `soup.find("table", {"class": cls})`, else the first table that
      `fallback` accepts. */
  function ClassOr(page: Page, cls: string, fallback: Table -> bool): (r: Option<Table>)
    ensures ByClass(page, cls).Some? ==> r == ByClass(page, cls)
    ensures ByClass(page, cls).None? ==> r == FindTable(page, fallback)
  {
    match ByClass(page, cls)
    case Some(t) => Some(t)
    case None => FindTable(page, fallback)
  }

  /** First-cell texts, lower-cased, that mark a header row. */
  const HeaderLabels: seq<string> := ["s.no", "sno", "sl.no", "#", "report dated"]

  /** The rows of `tbody.find_all("tr")`, or of the table when there is no
      tbody, as `(tbody or table).find_all("tr")` reads them. */
  function BodyOrAll(t: Table): seq<Row>
  {
    match t.body
    case Some(rows) => rows
    case None => t.rows
  }

  /** A cell's text and what the parser's number reader makes of it. The
      readers never raise, so reading every cell up front changes nothing. */
  datatype Field = Field(text: string, number: Option<real>)

  function Fields(texts: seq<string>, read: string -> Option<real>): (fs: seq<Field>)
    ensures |fs| == |texts|
    ensures forall k :: 0 <= k < |texts| ==> fs[k] == Field(texts[k], read(texts[k]))
  {
    seq(|texts|, k requires 0 <= k < |texts| => Field(texts[k], read(texts[k])))
  }

  /** Every row's `td` texts read into fields. */
  function ReadRows(rows: seq<Row>, read: string -> Option<real>): (ls: seq<seq<Field>>)
    ensures |ls| == |rows|
    ensures forall i :: 0 <= i < |rows| ==> ls[i] == Fields(Tds(rows[i]), read)
  {
    seq(|rows|, i requires 0 <= i < |rows| => Fields(Tds(rows[i]), read))
  }

  /** The number a field holds, if any. */
  function Number(f: Field): Option<real>
  {
    f.number
  }

  /** Texts of `table.find_all("th")`: the header cells of every row, in
      document order. */
  function HeaderTexts(rows: seq<Row>): seq<string>
  {
    if rows == [] then [] else Ths(rows[0]) + HeaderTexts(rows[1..])
  }
}
