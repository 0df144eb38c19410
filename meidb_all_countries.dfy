// The monthly (MEIDB) commodity-wise all-countries parser: one row per
// partner country with the same-month and year-to-date values of one HS
// code, the total row, and the data-quality block. The package parser and
// its library copy differ in the number reader, the row filter and the
// total-row search.
module MeidbAllCountries {
  import opened Wrappers
  import opened PyStr
  import opened PyNum
  import opened Html
  import opened Scan
  import opened Quality
  import opened TradeRecords
  import MeidbCommodityWise

  /** What the row filters need of a row: its cells and whether its text
      names "Total" or "India". */
  datatype Line = Line(fields: seq<Field>, hasTotal: bool, hasIndia: bool)

  function LineOf(b: Build, row: Row): (l: Line)
    ensures l.fields == Fields(Tds(row), t => MeidbCommodityWise.Read(b, t))
    ensures l.hasTotal <==> Contains(row.text, "Total")
    ensures l.hasIndia <==> Contains(row.text, "India")
  {
    Line(Fields(Tds(row), t => MeidbCommodityWise.Read(b, t)), Find(row.text, "Total"), Find(row.text, "India"))
  }

  function LinesOf(b: Build, rows: seq<Row>): (ls: seq<Line>)
    ensures |ls| == |rows|
    ensures forall i :: 0 <= i < |rows| ==> ls[i] == LineOf(b, rows[i])
  {
    seq(|rows|, i requires 0 <= i < |rows| => LineOf(b, rows[i]))
  }

  // ---- country rows ----

  datatype Country = Country(sno: nat, country: string, values: MeidbCommodityWise.Monthly)

  /** The package parser wants five cells, a row text naming neither
      "Total" nor "India", and an all-digit serial; the library copy wants
      five cells, an all-digit serial and no "total" in any case in the
      country cell. */
  predicate Accepted(b: Build, l: Line)
  {
    && |l.fields| >= 5 && IsDigits(l.fields[0].text)
    && match b
       case Package => !l.hasTotal && !l.hasIndia
       case Library => !Find(Lower(l.fields[1].text), "total")
  }

  /** A country's values are cells 2 to 7. */
  function CountryOf(b: Build, l: Line): (r: Option<Country>)
    ensures r.Some? <==> Accepted(b, l)
    ensures r.Some? ==>
      && ParseInt(l.fields[0].text) == Some(r.value.sno as int)
      && r.value.country == l.fields[1].text
      && r.value.values == MeidbCommodityWise.MonthlyFrom(l.fields, 2)
  {
    if !Accepted(b, l) then None
    else
      ParseIntDigits(l.fields[0].text);
      Some(Country(DigitsValue(l.fields[0].text), l.fields[1].text, MeidbCommodityWise.MonthlyFrom(l.fields, 2)))
  }

  /** `_extract_countries_data` / `_extract_countries`. */
  function Countries(b: Build, page: Page): seq<Country>
  {
    match First(page)
    case None => []
    case Some(t) => FilterMap(LinesOf(b, t.rows), l => CountryOf(b, l))
  }

  method ExtractCountries(b: Build, page: Page) returns (countries: seq<Country>)
    ensures countries == Countries(b, page)
  {
    var table := First(page);
    if table.None? {
      return [];
    }
    countries := KeepRows(LinesOf(b, table.value.rows), l => CountryOf(b, l));
  }

  /** Every country comes from a row of five cells or more whose serial
      `int()` reads as the record's; in the package parser that row's text
      names neither "Total" nor "India", so the total row is never a
      country. */
  lemma CountrySound(b: Build, page: Page, c: Country)
    requires c in Countries(b, page)
    ensures exists i :: 0 <= i < |First(page).value.rows| &&
                        var row := First(page).value.rows[i];
                        && |Tds(row)| >= 5 && ParseInt(Tds(row)[0]) == Some(c.sno as int)
                        && Tds(row)[1] == c.country
                        && (b == Package ==> !Contains(row.text, "Total") && !Contains(row.text, "India"))
  {
    var rows := First(page).value.rows;
    FilterMapSound(LinesOf(b, rows), l => CountryOf(b, l), c);
    var i :| 0 <= i < |rows| && CountryOf(b, LinesOf(b, rows)[i]) == Some(c);
    assert LinesOf(b, rows)[i] == LineOf(b, rows[i]);
  }

  /** Every accepted row of the first table yields its record. */
  lemma CountryComplete(b: Build, page: Page, i: nat)
    requires First(page).Some? && i < |First(page).value.rows|
    requires Accepted(b, LinesOf(b, First(page).value.rows)[i])
    ensures CountryOf(b, LinesOf(b, First(page).value.rows)[i]).value in Countries(b, page)
  {
    FilterMapComplete(LinesOf(b, First(page).value.rows), l => CountryOf(b, l), i);
  }

  // ---- the total row ----

  /** The first row naming "Total" with four cells or more (package) or
      five cells or more (library); shorter such rows are passed over.
      Cells 2 to 7 are its values. */
  function TotalOf(b: Build, l: Line): (r: Option<MeidbCommodityWise.Monthly>)
    ensures r.Some? <==> l.hasTotal && |l.fields| >= (if b == Package then 4 else 5)
    ensures r.Some? ==> r.value == MeidbCommodityWise.MonthlyFrom(l.fields, 2)
  {
    if l.hasTotal && |l.fields| >= (if b == Package then 4 else 5) then Some(MeidbCommodityWise.MonthlyFrom(l.fields, 2))
    else None
  }

  /** `_extract_totals` / `_extract_total`. */
  function TotalIn(b: Build, page: Page): Option<MeidbCommodityWise.Monthly>
  {
    match First(page)
    case None => None
    case Some(t) => FirstMatch(LinesOf(b, t.rows), l => TotalOf(b, l))
  }

  method ExtractTotal(b: Build, page: Page) returns (r: Option<MeidbCommodityWise.Monthly>)
    ensures r == TotalIn(b, page)
  {
    var table := First(page);
    if table.None? {
      return None;
    }
    r := FindFirst(LinesOf(b, table.value.rows), l => TotalOf(b, l));
  }

  /** The first qualifying row wins: a later total row never replaces it. */
  lemma FirstTotalWins(b: Build, page: Page, i: nat)
    requires First(page).Some? && i < |First(page).value.rows|
    requires TotalOf(b, LineOf(b, First(page).value.rows[i])).Some?
    requires forall j :: 0 <= j < i ==> TotalOf(b, LineOf(b, First(page).value.rows[j])).None?
    ensures TotalIn(b, page) == Some(MeidbCommodityWise.MonthlyFrom(LineOf(b, First(page).value.rows[i]).fields, 2))
  {
    var ls := LinesOf(b, First(page).value.rows);
    FirstMatchAt(ls, l => TotalOf(b, l), i);
  }

  // ---- the whole page ----

  datatype CommodityInfo = CommodityInfo(hscode: string, description: string, unit: string)

  /** `_extract_commodity_info` after its text search, given what the
      search found: an empty description or unit becomes "N/A". */
  function InfoOf(hscode: string, description: string, unit: string): (info: CommodityInfo)
    ensures info.hscode == hscode && info.description != "" && info.unit != ""
    ensures description != "" ==> info.description == description
    ensures unit != "" ==> info.unit == unit
  {
    CommodityInfo(hscode, if description == "" then "N/A" else description,
                  if unit == "" then "N/A" else unit)
  }

  predicate HasCurrentMonth(c: Country)
  {
    c.values.monthCurr.Some?
  }

  datatype Parsed = Parsed(
    hscode: string, digitLevel: nat, month: int, monthName: string, year: int, period: string,
    commodity: CommodityInfo, columnHeaders: seq<string>, countries: seq<Country>,
    totals: Option<MeidbCommodityWise.Monthly>, quality: Report, status: string, checksum: string)

  /** `parse_meidb_commodity_wise_all_countries_html`. The description and
      unit the text search found are parameters; the MD5 digest of the
      countries and totals is the function `checksum`. */
  function ParseAllCountriesHtml(page: Page, hscode: string, month: int, year: int,
                                 description: string, unit: string,
                                 checksum: (seq<Country>, Option<MeidbCommodityWise.Monthly>) -> string)
    : (r: Parsed)
    ensures r.digitLevel == |hscode|
    ensures r.countries == Countries(Package, page) && r.totals == TotalIn(Package, page)
    ensures r.columnHeaders == MeidbCommodityWise.ColumnHeaders(page)
    ensures r.period == MonthLabel(month) + " " + IntToString(year)
    ensures r.quality == Assess(r.countries, HasCurrentMonth)
    ensures r.status == "SUCCESS" <==> |r.countries| > 0
    ensures r.checksum == checksum(r.countries, r.totals)
  {
    var countries := Countries(Package, page);
    var totals := TotalIn(Package, page);
    var name := MonthLabel(month);
    Parsed(hscode, |hscode|, month, name, year, name + " " + IntToString(year),
           InfoOf(hscode, description, unit), MeidbCommodityWise.ColumnHeaders(page), countries, totals,
           Assess(countries, HasCurrentMonth),
           if |countries| > 0 then "SUCCESS" else "NO_DATA",
           checksum(countries, totals))
  }

  method ParseAllCountries(page: Page, hscode: string, month: int, year: int,
                           description: string, unit: string,
                           checksum: (seq<Country>, Option<MeidbCommodityWise.Monthly>) -> string)
    returns (r: Parsed)
    ensures r == ParseAllCountriesHtml(page, hscode, month, year, description, unit, checksum)
  {
    var countries := ExtractCountries(Package, page);
    var totals := ExtractTotal(Package, page);
    var name := MonthLabel(month);
    var status := if |countries| > 0 then "SUCCESS" else "NO_DATA";
    r := Parsed(hscode, |hscode|, month, name, year, name + " " + IntToString(year),
                InfoOf(hscode, description, unit), MeidbCommodityWise.ColumnHeaders(page), countries, totals,
                Assess(countries, HasCurrentMonth), status, checksum(countries, totals));
  }

  datatype LibParsed = LibParsed(
    hscode: string, digitLevel: nat, month: int, monthName: Option<string>, year: int,
    countries: seq<Country>, total: Option<MeidbCommodityWise.Monthly>, totalCountries: nat)

  /** The library `parse_commodity_countries_response`. */
  function ParseCountriesResponse(page: Page, hscode: string, month: int, year: int): (r: LibParsed)
    ensures r.digitLevel == |hscode| && r.totalCountries == |r.countries|
    ensures r.countries == Countries(Library, page) && r.total == TotalIn(Library, page)
    ensures r.monthName.Some? <==> 1 <= month <= 12
  {
    var countries := Countries(Library, page);
    LibParsed(hscode, |hscode|, month, MonthName(month), year,
              countries, TotalIn(Library, page), |countries|)
  }
}
