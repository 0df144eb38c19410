// The library country-wise parser: every row of the data table's body that
// names a country becomes a record; the all-countries variant routes rows
// whose country names "total" to a single total slot.
module CountryWiseLib {
  import opened Wrappers
  import opened PyStr
  import opened PyNum
  import opened Html
  import opened Scan
  import opened Numbers
  import opened TradeRecords

  /** `parse_numeric`: symbols removed, then the shorter placeholder list. */
  function Numeric(text: string): Option<real>
  {
    ParseNumericSymbols(text, SymbolPlaceholdersShort, false)
  }

  function ValueUnit(valueType: string): (unit: string)
    ensures unit == "US $ Million" <==> valueType == "usd"
    ensures valueType != "usd" ==> unit == "₹ Crore"
  {
    if valueType == "usd" then "US $ Million" else "₹ Crore"
  }

  /** The header labels of this parser ("report dated" is not one). */
  const Labels: seq<string> := ["s.no", "sno", "sl.no", "#"]

  /** A record; a key the row is too short for is None. */
  datatype Record = Record(
    serialNo: Option<nat>, country: string, value: Option<real>, valueUnit: string,
    percentageShare: Option<real>, percentageGrowth: Option<real>)

  /** `parse_row` on the row's cells, read up front. */
  function ParseRow(fs: seq<Field>, valueType: string): (r: Option<Record>)
    ensures r.Some? <==> |fs| >= 3 && fs[0].text != "" && Lower(fs[0].text) !in Labels
    ensures r.Some? ==>
      && r.value.serialNo == Serial(fs[0].text)
      && r.value.country == fs[1].text && r.value.value == fs[2].number
      && r.value.valueUnit == ValueUnit(valueType)
      && (|fs| > 3 ==> r.value.percentageShare == fs[3].number)
      && (|fs| <= 3 ==> r.value.percentageShare.None?)
      && (|fs| > 4 ==> r.value.percentageGrowth == fs[4].number)
      && (|fs| <= 4 ==> r.value.percentageGrowth.None?)
  {
    if |fs| < 3 || fs[0].text == "" || Lower(fs[0].text) in Labels then None
    else
      Some(Record(Serial(fs[0].text), fs[1].text, fs[2].number, ValueUnit(valueType),
                  if |fs| > 3 then fs[3].number else None,
                  if |fs| > 4 then fs[4].number else None))
  }

  /** `int(text)` when the text is all digits, else None. */
  function Serial(text: string): (s: Option<nat>)
    ensures s.Some? <==> IsDigits(text)
    ensures s.Some? ==> ParseInt(text) == Some(s.value as int)
  {
    if IsDigits(text) then ParseIntDigits(text); Some(DigitsValue(text)) else None
  }

  /** The table of class "table", else the first table with a body; the
      rows read are that body's. */
  function BodyRows(page: Page): seq<Row>
  {
    match ClassOr(page, "table", (t: Table) => t.body.Some?)
    case None => []
    case Some(t) => if t.body.Some? then t.body.value else []
  }

  /** What the loops see of a row: its record and whether the lower-cased
      country names "total" ("grand total" names it too). */
  datatype Line = Line(record: Option<Record>, isTotal: bool)

  function LineOf(row: Row, valueType: string): (l: Line)
    ensures l.record == ParseRow(Fields(Tds(row), Numeric), valueType)
    ensures l.isTotal <==> l.record.Some? && Contains(Lower(l.record.value.country), "total")
  {
    var r := ParseRow(Fields(Tds(row), Numeric), valueType);
    Line(r, r.Some? && Find(Lower(r.value.country), "total"))
  }

  function LinesOf(rows: seq<Row>, valueType: string): (ls: seq<Line>)
    ensures |ls| == |rows|
    ensures forall i :: 0 <= i < |rows| ==> ls[i] == LineOf(rows[i], valueType)
  {
    seq(|rows|, i requires 0 <= i < |rows| => LineOf(rows[i], valueType))
  }

  method ReadLine(row: Row, valueType: string) returns (l: Line)
    ensures l == LineOf(row, valueType)
  {
    var fs := Fields(Tds(row), Numeric);
    var record: Option<Record> := None;
    if |fs| >= 2 {
      record := ParseRow(fs, valueType);
    }
    l := Line(record, record.Some? && Find(Lower(record.value.country), "total"));
  }

  function Parsed(l: Line): Option<Record>
  {
    l.record
  }

  // ---- one country ----

  datatype CountryResult = CountryResult(fiscalYear: string, records: seq<Record>, recordCount: nat)

  /** `parse_country_wise_response`: every parsed row is kept, totals
      included. A year that `int()` rejects raises ValueError. */
  function ParseCountryWiseResponse(page: Page, year: string, valueType: string)
    : (r: Result<CountryResult>)
    ensures r.Failure? <==> FiscalRange(year).None?
    ensures r.Failure? ==> r.error.ValueError?
    ensures r.Success? ==>
      && r.value.records == FilterMap(LinesOf(BodyRows(page), valueType), Parsed)
      && r.value.recordCount == |r.value.records|
      && r.value.fiscalYear == FiscalRange(year).value
  {
    var records := FilterMap(LinesOf(BodyRows(page), valueType), Parsed);
    match FiscalRange(year)
    case None => Failure(ValueError("invalid literal for int() with base 10"))
    case Some(fy) => Success(CountryResult(fy, records, |records|))
  }

  method ParseCountryWise(page: Page, year: string, valueType: string) returns (r: Result<CountryResult>)
    ensures r == ParseCountryWiseResponse(page, year, valueType)
  {
    var records := ParseRows(BodyRows(page), valueType);
    var fy := FiscalRange(year);
    if fy.None? {
      return Failure(ValueError("invalid literal for int() with base 10"));
    }
    r := Success(CountryResult(fy.value, records, |records|));
  }

  /** The row loop: every row that parses is appended. */
  method ParseRows(rows: seq<Row>, valueType: string) returns (records: seq<Record>)
    ensures records == FilterMap(LinesOf(rows, valueType), Parsed)
  {
    ghost var ls := LinesOf(rows, valueType);
    records := [];
    var i := 0;
    while i < |rows|
      invariant 0 <= i <= |rows|
      invariant records == FilterMap(ls[..i], Parsed)
    {
      assert ls[..i + 1][..i] == ls[..i];
      var l := ReadLine(rows[i], valueType);
      assert l == ls[i];
      if l.record.Some? {
        records := records + [l.record.value];
      }
      i := i + 1;
    }
    assert ls[..i] == ls;
  }

  /** Every row of three cells or more whose first cell is neither empty
      nor a header label is kept, total rows included. */
  lemma KeepsEveryParsedRow(page: Page, year: string, valueType: string, i: nat)
    requires ParseCountryWiseResponse(page, year, valueType).Success?
    requires i < |BodyRows(page)|
    requires var fs := Tds(BodyRows(page)[i]); |fs| >= 3 && fs[0] != "" && Lower(fs[0]) !in Labels
    ensures ParseRow(Fields(Tds(BodyRows(page)[i]), Numeric), valueType).value
            in ParseCountryWiseResponse(page, year, valueType).value.records
  {
    var ls := LinesOf(BodyRows(page), valueType);
    assert ls[i] == LineOf(BodyRows(page)[i], valueType);
    FilterMapComplete(ls, Parsed, i);
  }

  // ---- all countries ----

  function Kept(l: Line): Option<Record>
  {
    if l.record.Some? && !l.isTotal then l.record else None
  }

  function TotalRow(l: Line): Option<Record>
  {
    if l.record.Some? && l.isTotal then l.record else None
  }

  datatype Routed = Routed(countries: seq<Record>, total: Option<Record>)

  function Route(ls: seq<Line>): Routed
  {
    Routed(FilterMap(ls, Kept), LastMatch(ls, TotalRow))
  }

  /** One line's effect on what the loop has gathered. */
  function Absorb(routed: Routed, l: Line): Routed
  {
    if l.record.None? then routed
    else if l.isTotal then routed.(total := l.record)
    else routed.(countries := routed.countries + [l.record.value])
  }

  lemma RouteStep(ls: seq<Line>, i: nat)
    requires i < |ls|
    ensures Route(ls[..i + 1]) == Absorb(Route(ls[..i]), ls[i])
  {
    assert ls[..i + 1][..i] == ls[..i];
    LastMatchStep(ls, i, TotalRow);
  }

  method RouteRows(rows: seq<Row>, valueType: string) returns (routed: Routed)
    ensures routed == Route(LinesOf(rows, valueType))
  {
    ghost var ls := LinesOf(rows, valueType);
    var countries: seq<Record> := [];
    var total: Option<Record> := None;
    var i := 0;
    while i < |rows|
      invariant 0 <= i <= |rows|
      invariant Routed(countries, total) == Route(ls[..i])
    {
      RouteStep(ls, i);
      var l := ReadLine(rows[i], valueType);
      assert l == ls[i];
      if l.record.Some? {
        if l.isTotal {
          total := l.record;
        } else {
          countries := countries + [l.record.value];
        }
      }
      i := i + 1;
    }
    assert ls[..i] == ls;
    routed := Routed(countries, total);
  }

  /** The all-countries split divides the one-country records: a record
      is listed as a country exactly when it is a kept record whose
      country names no "total", and the total is a kept record too. */
  lemma RouteSplitsRecords(rows: seq<Row>, valueType: string, r: Record)
    ensures r in FilterMap(LinesOf(rows, valueType), Kept)
            <==> r in FilterMap(LinesOf(rows, valueType), Parsed) && !Contains(Lower(r.country), "total")
    ensures LastMatch(LinesOf(rows, valueType), TotalRow).Some? ==>
            LastMatch(LinesOf(rows, valueType), TotalRow).value in FilterMap(LinesOf(rows, valueType), Parsed)
  {
    var ls := LinesOf(rows, valueType);
    LinesFlagged(rows, valueType);
    KeptAreNonTotals(ls, r);
    TotalIsParsed(ls);
  }

  /** Lines whose total flag says whether the record's country names
      "total". */
  ghost predicate Flagged(ls: seq<Line>)
  {
    forall i :: 0 <= i < |ls| ==>
      (ls[i].isTotal <==> ls[i].record.Some? && Contains(Lower(ls[i].record.value.country), "total"))
  }

  lemma LinesFlagged(rows: seq<Row>, valueType: string)
    ensures Flagged(LinesOf(rows, valueType))
  {
  }

  lemma KeptAreNonTotals(ls: seq<Line>, r: Record)
    requires Flagged(ls)
    ensures r in FilterMap(ls, Kept) <==> r in FilterMap(ls, Parsed) && !Contains(Lower(r.country), "total")
  {
    if r in FilterMap(ls, Kept) {
      FilterMapSound(ls, Kept, r);
      var i :| 0 <= i < |ls| && Kept(ls[i]) == Some(r);
      FilterMapComplete(ls, Parsed, i);
    }
    if r in FilterMap(ls, Parsed) && !Contains(Lower(r.country), "total") {
      FilterMapSound(ls, Parsed, r);
      var i :| 0 <= i < |ls| && Parsed(ls[i]) == Some(r);
      FilterMapComplete(ls, Kept, i);
    }
  }

  lemma TotalIsParsed(ls: seq<Line>)
    ensures LastMatch(ls, TotalRow).Some? ==> LastMatch(ls, TotalRow).value in FilterMap(ls, Parsed)
  {
    if LastMatch(ls, TotalRow).Some? {
      var i :| 0 <= i < |ls| && TotalRow(ls[i]) == LastMatch(ls, TotalRow);
      FilterMapComplete(ls, Parsed, i);
    }
  }

  datatype AllResult = AllResult(fiscalYear: string, countries: seq<Record>, total: Option<Record>,
                                 countryCount: nat)

  /** `parse_all_countries_table`. A year that `int()` rejects raises
      ValueError. */
  function ParseAllCountriesTable(page: Page, year: string, valueType: string)
    : (r: Result<AllResult>)
    ensures r.Failure? <==> FiscalRange(year).None?
    ensures r.Success? ==>
      var routed := Route(LinesOf(BodyRows(page), valueType));
      && r.value.countries == routed.countries && r.value.total == routed.total
      && r.value.countryCount == |r.value.countries|
      && r.value.fiscalYear == FiscalRange(year).value
  {
    var routed := Route(LinesOf(BodyRows(page), valueType));
    match FiscalRange(year)
    case None => Failure(ValueError("invalid literal for int() with base 10"))
    case Some(fy) => Success(AllResult(fy, routed.countries, routed.total, |routed.countries|))
  }

  method ParseAllCountries(page: Page, year: string, valueType: string) returns (r: Result<AllResult>)
    ensures r == ParseAllCountriesTable(page, year, valueType)
  {
    var routed := RouteRows(BodyRows(page), valueType);
    var fy := FiscalRange(year);
    if fy.None? {
      return Failure(ValueError("invalid literal for int() with base 10"));
    }
    r := Success(AllResult(fy.value, routed.countries, routed.total, |routed.countries|));
  }
}
