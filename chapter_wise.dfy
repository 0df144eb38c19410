// The chapter-wise (EIDB) parser of the package: every row of the data
// table becomes a record whose shape depends on its cell count, total rows
// are routed to one slot, and a request for one HS code keeps only the
// last record with exactly that code.
module ChapterWise {
  import opened Wrappers
  import opened PyStr
  import opened Html
  import opened Scan
  import opened Numbers
  import opened TradeRecords

  /** `parse_numeric`: symbols removed, non-breaking spaces made spaces,
      then the placeholders. */
  function Numeric(text: string): Option<real>
  {
    ParseNumericSymbols(text, SymbolPlaceholders, true)
  }

  /** `get_value_unit`. */
  function ValueUnit(valueType: string): (unit: string)
    ensures valueType == "usd" ==> unit == "US $ Million"
    ensures valueType == "inr" ==> unit == "₹ Crore"
    ensures valueType != "usd" && valueType != "inr" ==> unit == "Quantity (in thousands)"
  {
    if valueType == "usd" then "US $ Million"
    else if valueType == "inr" then "₹ Crore"
    else "Quantity (in thousands)"
  }

  /** The three record layouts: eight cells or more carry a serial, six or
      seven cells none, and three to five cells only a total line's text
      and up to two large values. */
  datatype Shape =
    | Full(serialNo: Option<real>, hsCode: string, commodity: string,
           prevValue: Option<real>, prevShare: Option<real>,
           currValue: Option<real>, currShare: Option<real>, growth: Option<real>)
    | NoSerial(hsCode: string, commodity: string,
               prevValue: Option<real>, prevShare: Option<real>,
               currValue: Option<real>, currShare: Option<real>)
    | TotalOnly(commodity: string, prevValue: Option<real>, currValue: Option<real>)

  datatype Record = Record(shape: Shape, valueUnit: string, hsLevel: string)

  /** A first cell that is empty, a header label, or names "hscode". */
  predicate HeaderLike(first: string)
  {
    first == "" || Lower(first) in HeaderLabels || Find(Lower(first), "hscode")
  }

  /** A value above 1000, which a short total line takes for a total. */
  function Big(f: Field): (v: Option<real>)
    ensures v.Some? <==> f.number.Some? && f.number.value > 1000.0
    ensures v.Some? ==> v == f.number
  {
    if f.number.Some? && f.number.value > 1000.0 then f.number else None
  }

  function Nth(xs: seq<real>, k: nat): (v: Option<real>)
    ensures v.Some? <==> k < |xs|
    ensures v.Some? ==> v.value == xs[k]
  {
    if k < |xs| then Some(xs[k]) else None
  }

  /** `" ".join` of the first three cell texts. */
  function Combined(fs: seq<Field>): string
    requires |fs| >= 3
  {
    fs[0].text + " " + fs[1].text + " " + fs[2].text
  }

  /** `parse_row` on the row's cells, read up front. */
  function ParseRow(fs: seq<Field>, valueType: string, hsLevel: string): (r: Option<Record>)
    ensures r.Some? ==> |fs| >= 3 && !HeaderLike(fs[0].text)
                        && r.value.valueUnit == ValueUnit(valueType) && r.value.hsLevel == hsLevel
    ensures |fs| >= 8 && !HeaderLike(fs[0].text) ==>
      r.Some? && r.value.shape == Full(fs[0].number, fs[1].text, fs[2].text, fs[3].number,
                                       fs[4].number, fs[5].number, fs[6].number, fs[7].number)
    ensures 6 <= |fs| < 8 && !HeaderLike(fs[0].text) ==>
      r.Some? && r.value.shape == NoSerial(fs[0].text, fs[1].text, fs[2].number, fs[3].number,
                                           fs[4].number, fs[5].number)
    ensures 3 <= |fs| < 6 && !HeaderLike(fs[0].text) ==>
      && (r.Some? <==> Contains(Lower(Combined(fs)), "total"))
      && (r.Some? ==> r.value.shape == TotalOnly(Strip(Combined(fs)), Nth(FilterMap(fs, Big), 0),
                                                 Nth(FilterMap(fs, Big), 1)))
  {
    if |fs| < 3 || HeaderLike(fs[0].text) then None
    else
      var shape :=
        if |fs| >= 8 then
          Some(Full(fs[0].number, fs[1].text, fs[2].text, fs[3].number, fs[4].number,
                    fs[5].number, fs[6].number, fs[7].number))
        else if |fs| >= 6 then
          Some(NoSerial(fs[0].text, fs[1].text, fs[2].number, fs[3].number, fs[4].number, fs[5].number))
        else if Find(Lower(Combined(fs)), "total") then
          var bigs := FilterMap(fs, Big);
          Some(TotalOnly(Strip(Combined(fs)), Nth(bigs, 0), Nth(bigs, 1)))
        else None;
      match shape
      case None => None
      case Some(s) => Some(Record(s, ValueUnit(valueType), hsLevel))
  }

  /** The loop of a short total line: the first value above 1000 fills
      the previous year, the second the current year, later ones are
      ignored. */
  method BigValues(fs: seq<Field>) returns (prev: Option<real>, curr: Option<real>)
    ensures prev == Nth(FilterMap(fs, Big), 0) && curr == Nth(FilterMap(fs, Big), 1)
  {
    prev, curr := None, None;
    var i := 0;
    while i < |fs|
      invariant 0 <= i <= |fs|
      invariant prev == Nth(FilterMap(fs[..i], Big), 0)
      invariant curr == Nth(FilterMap(fs[..i], Big), 1)
    {
      assert fs[..i + 1][..i] == fs[..i];
      var v := Big(fs[i]);
      if v.Some? {
        if prev.None? {
          prev := v;
        } else if curr.None? {
          curr := v;
        }
      }
      i := i + 1;
    }
    assert fs[..i] == fs;
  }

  method ParseRowCells(fs: seq<Field>, valueType: string, hsLevel: string) returns (r: Option<Record>)
    ensures r == ParseRow(fs, valueType, hsLevel)
  {
    if |fs| < 3 || HeaderLike(fs[0].text) {
      return None;
    }
    var shape: Shape;
    if |fs| >= 8 {
      shape := Full(fs[0].number, fs[1].text, fs[2].text, fs[3].number, fs[4].number,
                    fs[5].number, fs[6].number, fs[7].number);
    } else if |fs| >= 6 {
      shape := NoSerial(fs[0].text, fs[1].text, fs[2].number, fs[3].number, fs[4].number, fs[5].number);
    } else if Find(Lower(Combined(fs)), "total") {
      var prev, curr := BigValues(fs);
      shape := TotalOnly(Strip(Combined(fs)), prev, curr);
    } else {
      return None;
    }
    r := Some(Record(shape, ValueUnit(valueType), hsLevel));
  }

  /** A short total line always reads as a total: its text names "total"
      before `strip()`, and stripping keeps the word. */
  lemma ShortRowIsTotal(fs: seq<Field>, valueType: string, hsLevel: string)
    requires ParseRow(fs, valueType, hsLevel).Some? && |fs| < 6
    ensures ParseRow(fs, valueType, hsLevel).value.shape.TotalOnly?
    ensures Contains(Lower(ParseRow(fs, valueType, hsLevel).value.shape.commodity), "total")
  {
    StripLowerKeeps(Combined(fs), "total");
  }

  // ---- routing the rows ----

  /** A row as the response loop sees it: its record, whether the
      record's lower-cased commodity names "total" ("india's total" names
      it too), and its stripped HS code ("" when it has none). */
  datatype Line = Line(record: Option<Record>, isTotal: bool, hsKey: string)

  function LineOf(row: Row, valueType: string, hsLevel: string): (l: Line)
    ensures l.record == ParseRow(Fields(Tds(row), Numeric), valueType, hsLevel)
    ensures l.isTotal <==> l.record.Some? && Contains(Lower(l.record.value.shape.commodity), "total")
    ensures l.hsKey == if l.record.Some? && !l.record.value.shape.TotalOnly?
                       then Strip(l.record.value.shape.hsCode) else ""
  {
    var r := ParseRow(Fields(Tds(row), Numeric), valueType, hsLevel);
    Line(r, r.Some? && Find(Lower(r.value.shape.commodity), "total"),
         if r.Some? && !r.value.shape.TotalOnly? then Strip(r.value.shape.hsCode) else "")
  }

  function LinesOf(rows: seq<Row>, valueType: string, hsLevel: string): (ls: seq<Line>)
    ensures |ls| == |rows|
    ensures forall i :: 0 <= i < |rows| ==> ls[i] == LineOf(rows[i], valueType, hsLevel)
  {
    seq(|rows|, i requires 0 <= i < |rows| => LineOf(rows[i], valueType, hsLevel))
  }

  /** One row of the response loop: its cells parsed when there are at
      least three, and the record's commodity and code read. */
  method ReadLine(row: Row, valueType: string, hsLevel: string) returns (l: Line)
    ensures l == LineOf(row, valueType, hsLevel)
  {
    var fs := Fields(Tds(row), Numeric);
    var record: Option<Record> := None;
    if |fs| >= 3 {
      record := ParseRowCells(fs, valueType, hsLevel);
    }
    var isTotal := record.Some? && Find(Lower(record.value.shape.commodity), "total");
    var key := if record.Some? && !record.value.shape.TotalOnly? then Strip(record.value.shape.hsCode) else "";
    l := Line(record, isTotal, key);
  }

  /** A record that is not a total is appended. */
  function Kept(l: Line): Option<Record>
  {
    if l.record.Some? && !l.isTotal then l.record else None
  }

  /** A total record overwrites the total slot. */
  function TotalRow(l: Line): Option<Record>
  {
    if l.record.Some? && l.isTotal then l.record else None
  }

  /** For a specific code, a kept record with exactly that code
      overwrites the target slot. */
  function TargetOf(code: string, l: Line): Option<Record>
  {
    if code != "all" && Kept(l).Some? && l.hsKey == code then l.record else None
  }

  datatype Routed = Routed(records: seq<Record>, total: Option<Record>, target: Option<Record>)

  /** What the response loop leaves behind. */
  function Route(ls: seq<Line>, code: string): Routed
  {
    Routed(FilterMap(ls, Kept), LastMatch(ls, TotalRow), LastMatch(ls, l => TargetOf(code, l)))
  }

  /** One line's effect on what the loop has gathered. */
  function Absorb(routed: Routed, l: Line, code: string): Routed
  {
    if l.record.None? then routed
    else if l.isTotal then routed.(total := l.record)
    else if code != "all" && l.hsKey == code then
      routed.(records := routed.records + [l.record.value], target := l.record)
    else routed.(records := routed.records + [l.record.value])
  }

  lemma RouteStep(ls: seq<Line>, i: nat, code: string)
    requires i < |ls|
    ensures Route(ls[..i + 1], code) == Absorb(Route(ls[..i], code), ls[i], code)
  {
    assert ls[..i + 1][..i] == ls[..i];
    LastMatchStep(ls, i, TotalRow);
    LastMatchStep(ls, i, l => TargetOf(code, l));
  }

  /** The response loop over every `tr` of the table. Rows with fewer than
      three cells are not parsed, which `parse_row` would reject anyway. */
  method RouteRows(rows: seq<Row>, code: string, valueType: string, hsLevel: string)
    returns (routed: Routed)
    ensures routed == Route(LinesOf(rows, valueType, hsLevel), code)
  {
    ghost var ls := LinesOf(rows, valueType, hsLevel);
    var records: seq<Record> := [];
    var total: Option<Record> := None;
    var target: Option<Record> := None;
    var i := 0;
    while i < |rows|
      invariant 0 <= i <= |rows|
      invariant Routed(records, total, target) == Route(ls[..i], code)
    {
      RouteStep(ls, i, code);
      var l := ReadLine(rows[i], valueType, hsLevel);
      assert l == ls[i];
      var record, isTotal, key := l.record, l.isTotal, l.hsKey;
      if record.Some? {
        if isTotal {
          total := record;
        } else {
          records := records + [record.value];
          if code != "all" && key == code {
            target := record;
          }
        }
      }
      i := i + 1;
    }
    assert ls[..i] == ls;
    routed := Routed(records, total, target);
  }

  /** No record that reaches the list is a total, and no short total line
      reaches it: every listed record has a full or serial-less layout. */
  lemma ListedAreNotTotals(rows: seq<Row>, code: string, valueType: string, hsLevel: string, r: Record)
    requires r in Route(LinesOf(rows, valueType, hsLevel), code).records
    ensures !r.shape.TotalOnly? && !Contains(Lower(r.shape.commodity), "total")
  {
    var ls := LinesOf(rows, valueType, hsLevel);
    FilterMapSound(ls, Kept, r);
    var i :| 0 <= i < |ls| && Kept(ls[i]) == Some(r);
    KeptIsNotTotal(Fields(Tds(rows[i]), Numeric), valueType, hsLevel, ls[i], r);
  }

  /** One kept row: its record is not a total. */
  lemma KeptIsNotTotal(fs: seq<Field>, valueType: string, hsLevel: string, l: Line, r: Record)
    requires l.record == ParseRow(fs, valueType, hsLevel)
    requires l.isTotal <==> l.record.Some? && Contains(Lower(l.record.value.shape.commodity), "total")
    requires Kept(l) == Some(r)
    ensures !r.shape.TotalOnly? && !Contains(Lower(r.shape.commodity), "total")
  {
    if r.shape.TotalOnly? {
      ShortRowIsTotal(fs, valueType, hsLevel);
    }
  }

  /** The total is the last total row: a row routed to the slot with no
      total row after it fills the slot. */
  lemma LastTotalWins(rows: seq<Row>, code: string, valueType: string, hsLevel: string, i: nat)
    requires i < |rows|
    requires TotalRow(LineOf(rows[i], valueType, hsLevel)).Some?
    requires forall j :: i < j < |rows| ==> TotalRow(LineOf(rows[j], valueType, hsLevel)).None?
    ensures Route(LinesOf(rows, valueType, hsLevel), code).total == LineOf(rows[i], valueType, hsLevel).record
  {
    LastMatchAt(LinesOf(rows, valueType, hsLevel), TotalRow, i);
  }

  // ---- the requested code ----

  /** The records returned and `exact_match_found`: every record for
      "all", else the last record with exactly that code, or nothing. */
  function Select(code: string, routed: Routed): (seq<Record>, bool)
  {
    if code == "all" then (routed.records, true)
    else
      match routed.target
      case Some(t) => ([t], true)
      case None => ([], false)
  }

  /** For a specific code the result is the last listed record with that
      exact code, and it is missing exactly when no listed record has it. */
  lemma SpecificCode(ls: seq<Line>, code: string)
    requires code != "all"
    ensures var (records, exact) := Select(code, Route(ls, code));
      && (exact <==> exists i :: 0 <= i < |ls| && Kept(ls[i]).Some? && ls[i].hsKey == code)
      && (!exact ==> records == [])
      && (exact ==> |records| == 1 && records[0] in Route(ls, code).records)
  {
    var routed := Route(ls, code);
    var f := l => TargetOf(code, l);
    if routed.target.Some? {
      var i :| 0 <= i < |ls| && f(ls[i]) == routed.target && forall j :: i < j < |ls| ==> f(ls[j]).None?;
      FilterMapComplete(ls, Kept, i);
    } else {
      assert forall i :: 0 <= i < |ls| ==> f(ls[i]).None?;
    }
  }

  /** For "all" every listed record is returned and the match flag holds. */
  lemma AllCodes(ls: seq<Line>)
    ensures Select("all", Route(ls, "all")) == (FilterMap(ls, Kept), true)
  {
  }

  // ---- the response ----

  datatype Parsed = Parsed(
    fiscalYear: string, records: seq<Record>, total: Option<Record>,
    exactMatchFound: bool, warning: Option<string>, recordCount: nat, valueUnit: string)

  /** The table of class "table", else the first table with a row. */
  function DataTable(page: Page): Option<Table>
  {
    ClassOr(page, "table", (t: Table) => |t.rows| > 0)
  }

  /** `parse_chapter_wise_response`. A year that `int()` rejects raises
      ValueError out of the function. */
  function ParseChapterWiseResponse(page: Page, year: string, code: string, hsLevel: string,
                                    valueType: string): (r: Result<Parsed>)
    ensures r.Failure? <==> FiscalRange(year).None?
    ensures r.Failure? ==> r.error.ValueError?
    ensures r.Success? ==>
      var routed := Route(LinesOf(if DataTable(page).Some? then DataTable(page).value.rows else [],
                                  valueType, hsLevel), code);
      && (r.value.records, r.value.exactMatchFound) == Select(code, routed)
      && r.value.total == routed.total
      && r.value.recordCount == |r.value.records|
      && (r.value.warning.None? <==> r.value.exactMatchFound)
      && r.value.fiscalYear == FiscalRange(year).value
  {
    var rows := if DataTable(page).Some? then DataTable(page).value.rows else [];
    var routed := Route(LinesOf(rows, valueType, hsLevel), code);
    var (records, exact) := Select(code, routed);
    match FiscalRange(year)
    case None => Failure(ValueError("invalid literal for int() with base 10"))
    case Some(fy) =>
      Success(Parsed(fy, records, routed.total, exact,
                     if exact then None else Some("HS code '" + code + "' not found in database"),
                     |records|, ValueUnit(valueType)))
  }

  method ParseChapterWise(page: Page, year: string, code: string, hsLevel: string, valueType: string)
    returns (r: Result<Parsed>)
    ensures r == ParseChapterWiseResponse(page, year, code, hsLevel, valueType)
  {
    var table := DataTable(page);
    var rows := if table.Some? then table.value.rows else [];
    var routed := RouteRows(rows, code, valueType, hsLevel);
    var records, exact := routed.records, true;
    if code != "all" {
      if routed.target.Some? {
        records := [routed.target.value];
      } else {
        exact := false;
        records := [];
      }
    }
    var fy := FiscalRange(year);
    if fy.None? {
      return Failure(ValueError("invalid literal for int() with base 10"));
    }
    r := Success(Parsed(fy.value, records, routed.total, exact,
                        if exact then None else Some("HS code '" + code + "' not found in database"),
                        |records|, ValueUnit(valueType)));
  }
}
