// The region-wise (EIDB) parser of the package: every row naming a region
// becomes a record whose layout depends on its cell count, and a row whose
// region names "total" fills the total slot instead of the list.
module RegionWise {
  import opened Wrappers
  import opened PyStr
  import opened Html
  import opened Scan
  import opened Numbers
  import opened TradeRecords

  /** `parse_numeric`: symbols removed, then the placeholders. */
  function Numeric(text: string): Option<real>
  {
    ParseNumericSymbols(text, SymbolPlaceholders, false)
  }

  function ValueUnit(valueType: string): (unit: string)
    ensures unit == "US $ Million" <==> valueType == "usd"
    ensures valueType != "usd" ==> unit == "₹ Crore"
  {
    if valueType == "usd" then "US $ Million" else "₹ Crore"
  }

  /** The three layouts: six cells or more carry two years, four or five
      cells one year with share and growth, two or three cells a value. */
  datatype Values =
    | TwoYears(prevValue: Option<real>, prevShare: Option<real>, currValue: Option<real>,
               currShare: Option<real>, growth: Option<real>)
    | OneYear(value: Option<real>, share: Option<real>, growth: Option<real>)
    | ValueOnly(value: Option<real>)

  datatype Record = Record(region: string, values: Values, valueUnit: string)

  /** An empty first cell, a header label, or the column-header row
      (a region heading over a "%share" heading). */
  predicate HeaderLike(fs: seq<Field>)
    requires |fs| >= 1
  {
    || fs[0].text == "" || Lower(fs[0].text) in HeaderLabels
    || (Find(Lower(fs[0].text), "region") && Find(Lower(fs[|fs| - 1].text), "%share"))
  }

  /** `parse_row` on the row's cells, read up front. */
  function ParseRow(fs: seq<Field>, valueType: string): (r: Option<Record>)
    ensures r.Some? <==> |fs| >= 2 && !HeaderLike(fs)
    ensures r.Some? ==>
      && r.value.region == fs[0].text
      && r.value.valueUnit == ValueUnit(valueType)
      && (|fs| >= 6 ==> r.value.values == TwoYears(fs[1].number, fs[2].number, fs[3].number,
                                                    fs[4].number, fs[5].number))
      && (4 <= |fs| < 6 ==> r.value.values == OneYear(fs[1].number, fs[2].number, fs[3].number))
      && (|fs| < 4 ==> r.value.values == ValueOnly(fs[1].number))
  {
    if |fs| < 2 || HeaderLike(fs) then None
    else
      var values :=
        if |fs| >= 6 then TwoYears(fs[1].number, fs[2].number, fs[3].number, fs[4].number, fs[5].number)
        else if |fs| >= 4 then OneYear(fs[1].number, fs[2].number, fs[3].number)
        else ValueOnly(fs[1].number);
      Some(Record(fs[0].text, values, ValueUnit(valueType)))
  }

  /** `record["region"]` is the stripped first cell, so it never starts or
      ends with white space. */
  lemma RegionTrimmed(row: Row, valueType: string)
    requires ParseRow(Fields(Tds(row), Numeric), valueType).Some?
    ensures var region := ParseRow(Fields(Tds(row), Numeric), valueType).value.region;
      region != [] && !IsSpace(region[0]) && !IsSpace(region[|region| - 1])
  {
    var fs := Fields(Tds(row), Numeric);
    var ts := Tds(row);
    assert fs[0].text == ts[0];
    TdTrimmed(row.cells, 0);
  }

  lemma {:induction false} TdTrimmed(cells: seq<Cell>, k: nat)
    requires k < |TdsOf(cells)|
    ensures var t := TdsOf(cells)[k]; t == [] || (!IsSpace(t[0]) && !IsSpace(t[|t| - 1]))
  {
    var head := if cells[0].isHeader then [] else [CellText(cells[0])];
    assert TdsOf(cells) == head + TdsOf(cells[1..]);
    if k < |head| {
      assert TdsOf(cells)[k] == Strip(cells[0].raw);
    } else {
      TdTrimmed(cells[1..], k - |head|);
    }
  }

  // ---- routing the rows ----

  /** A row as the response loop sees it: its record and whether the
      lower-cased region names "total" ("india's total" names it too). */
  datatype Line = Line(record: Option<Record>, isTotal: bool)

  function LineOf(row: Row, valueType: string): (l: Line)
    ensures l.record == ParseRow(Fields(Tds(row), Numeric), valueType)
    ensures l.isTotal <==> l.record.Some? && Contains(Lower(l.record.value.region), "total")
  {
    var r := ParseRow(Fields(Tds(row), Numeric), valueType);
    Line(r, r.Some? && Find(Lower(r.value.region), "total"))
  }

  function LinesOf(rows: seq<Row>, valueType: string): (ls: seq<Line>)
    ensures |ls| == |rows|
    ensures forall i :: 0 <= i < |rows| ==> ls[i] == LineOf(rows[i], valueType)
  {
    seq(|rows|, i requires 0 <= i < |rows| => LineOf(rows[i], valueType))
  }

  function Kept(l: Line): Option<Record>
  {
    if l.record.Some? && !l.isTotal then l.record else None
  }

  function TotalRow(l: Line): Option<Record>
  {
    if l.record.Some? && l.isTotal then l.record else None
  }

  datatype Routed = Routed(regions: seq<Record>, total: Option<Record>)

  function Route(ls: seq<Line>): Routed
  {
    Routed(FilterMap(ls, Kept), LastMatch(ls, TotalRow))
  }

  /** One line's effect on what the loop has gathered. */
  function Absorb(routed: Routed, l: Line): Routed
  {
    if l.record.None? then routed
    else if l.isTotal then routed.(total := l.record)
    else routed.(regions := routed.regions + [l.record.value])
  }

  lemma RouteStep(ls: seq<Line>, i: nat)
    requires i < |ls|
    ensures Route(ls[..i + 1]) == Absorb(Route(ls[..i]), ls[i])
  {
    assert ls[..i + 1][..i] == ls[..i];
    LastMatchStep(ls, i, TotalRow);
  }

  method ReadLine(row: Row, valueType: string) returns (l: Line)
    ensures l == LineOf(row, valueType)
  {
    var fs := Fields(Tds(row), Numeric);
    var record: Option<Record> := None;
    if |fs| >= 2 {
      record := ParseRow(fs, valueType);
    }
    l := Line(record, record.Some? && Find(Lower(record.value.region), "total"));
  }

  /** The response loop over every `tr` of the table. */
  method RouteRows(rows: seq<Row>, valueType: string) returns (routed: Routed)
    ensures routed == Route(LinesOf(rows, valueType))
  {
    ghost var ls := LinesOf(rows, valueType);
    var regions: seq<Record> := [];
    var total: Option<Record> := None;
    var i := 0;
    while i < |rows|
      invariant 0 <= i <= |rows|
      invariant Routed(regions, total) == Route(ls[..i])
    {
      RouteStep(ls, i);
      var l := ReadLine(rows[i], valueType);
      assert l == ls[i];
      if l.record.Some? {
        if l.isTotal {
          total := l.record;
        } else {
          regions := regions + [l.record.value];
        }
      }
      i := i + 1;
    }
    assert ls[..i] == ls;
    routed := Routed(regions, total);
  }

  /** Each row with a record lands in exactly one place: in the list when
      its region names no "total", and otherwise never in the list. */
  lemma ListedIffNotTotal(rows: seq<Row>, valueType: string, r: Record)
    ensures r in Route(LinesOf(rows, valueType)).regions ==>
      !Contains(Lower(r.region), "total")
    ensures (exists i :: 0 <= i < |rows| && ParseRow(Fields(Tds(rows[i]), Numeric), valueType) == Some(r))
            && !Contains(Lower(r.region), "total")
            ==> r in Route(LinesOf(rows, valueType)).regions
  {
    var ls := LinesOf(rows, valueType);
    if r in Route(ls).regions {
      FilterMapSound(ls, Kept, r);
    }
    if exists i :: 0 <= i < |rows| && ParseRow(Fields(Tds(rows[i]), Numeric), valueType) == Some(r) {
      var i :| 0 <= i < |rows| && ParseRow(Fields(Tds(rows[i]), Numeric), valueType) == Some(r);
      if !Contains(Lower(r.region), "total") {
        FilterMapComplete(ls, Kept, i);
      }
    }
  }

  /** The last total row fills the total slot. */
  lemma LastTotalWins(rows: seq<Row>, valueType: string, i: nat)
    requires i < |rows| && TotalRow(LineOf(rows[i], valueType)).Some?
    requires forall j :: i < j < |rows| ==> TotalRow(LineOf(rows[j], valueType)).None?
    ensures Route(LinesOf(rows, valueType)).total == LineOf(rows[i], valueType).record
  {
    LastMatchAt(LinesOf(rows, valueType), TotalRow, i);
  }

  // ---- the response ----

  datatype Parsed = Parsed(
    fiscalYear: string, regions: seq<Record>, total: Option<Record>,
    recordCount: nat, valueUnit: string)

  /** The table of class "table", else the first table with a row. */
  function DataTable(page: Page): Option<Table>
  {
    ClassOr(page, "table", (t: Table) => |t.rows| > 0)
  }

  /** `parse_region_wise_response`. A year that `int()` rejects raises
      ValueError out of the function. */
  function ParseRegionWiseResponse(page: Page, year: string, valueType: string): (r: Result<Parsed>)
    ensures r.Failure? <==> FiscalRange(year).None?
    ensures r.Failure? ==> r.error.ValueError?
    ensures r.Success? ==>
      var routed := Route(LinesOf(if DataTable(page).Some? then DataTable(page).value.rows else [],
                                  valueType));
      && r.value.regions == routed.regions && r.value.total == routed.total
      && r.value.recordCount == |r.value.regions|
      && r.value.fiscalYear == FiscalRange(year).value
      && r.value.valueUnit == ValueUnit(valueType)
  {
    var rows := if DataTable(page).Some? then DataTable(page).value.rows else [];
    var routed := Route(LinesOf(rows, valueType));
    match FiscalRange(year)
    case None => Failure(ValueError("invalid literal for int() with base 10"))
    case Some(fy) =>
      Success(Parsed(fy, routed.regions, routed.total, |routed.regions|, ValueUnit(valueType)))
  }

  method ParseRegionWise(page: Page, year: string, valueType: string) returns (r: Result<Parsed>)
    ensures r == ParseRegionWiseResponse(page, year, valueType)
  {
    var table := DataTable(page);
    var rows := if table.Some? then table.value.rows else [];
    var routed := RouteRows(rows, valueType);
    var fy := FiscalRange(year);
    if fy.None? {
      return Failure(ValueError("invalid literal for int() with base 10"));
    }
    r := Success(Parsed(fy.value, routed.regions, routed.total, |routed.regions|,
                        ValueUnit(valueType)));
  }
}
