// The library copy of the region-wise parser: numbered rows of the first
// table become countries, and the first row naming "Total" gives the total.
module RegionWiseLib {
  import opened Wrappers
  import opened PyStr
  import opened PyNum
  import opened Html
  import opened Scan
  import opened Numbers

  /** `_parse_number`: only "-" and "NA" are placeholders. */
  function Number(text: string): Option<real>
  {
    ParseNumberCommaless(text, DashNa)
  }

  /** A row as both extractors see it: its `td` cells read, whether the
      lower-cased country cell names "total", and whether the row's text
      names "Total". */
  datatype Line = Line(fields: seq<Field>, countryTotal: bool, hasTotal: bool)

  function LineOf(row: Row): (l: Line)
    ensures l.fields == Fields(Tds(row), Number)
    ensures l.countryTotal <==> |l.fields| > 1 && Contains(Lower(l.fields[1].text), "total")
    ensures l.hasTotal <==> Contains(row.text, "Total")
  {
    var fs := Fields(Tds(row), Number);
    Line(fs, |fs| > 1 && Find(Lower(fs[1].text), "total"), Find(row.text, "Total"))
  }

  function LinesOf(rows: seq<Row>): (ls: seq<Line>)
    ensures |ls| == |rows|
    ensures forall i :: 0 <= i < |rows| ==> ls[i] == LineOf(rows[i])
  {
    seq(|rows|, i requires 0 <= i < |rows| => LineOf(rows[i]))
  }

  // ---- countries ----

  datatype Country = Country(
    sno: nat, country: string, value: Option<real>, sharePct: Option<real>, growthPct: Option<real>)

  /** Four cells or more, an all-digit serial, and no "total" in the
      country cell. */
  predicate Accepted(l: Line)
  {
    |l.fields| >= 4 && IsDigits(l.fields[0].text) && !l.countryTotal
  }

  function CountryOf(l: Line): (r: Option<Country>)
    ensures r.Some? <==> Accepted(l)
    ensures r.Some? ==>
      && ParseInt(l.fields[0].text) == Some(r.value.sno as int)
      && r.value.country == l.fields[1].text
      && r.value.value == l.fields[2].number && r.value.sharePct == l.fields[3].number
      && (|l.fields| == 4 ==> r.value.growthPct.None?)
      && (|l.fields| > 4 ==> r.value.growthPct == l.fields[4].number)
  {
    if !Accepted(l) then None
    else
      ParseIntDigits(l.fields[0].text);
      var fs := l.fields;
      Some(Country(DigitsValue(fs[0].text), fs[1].text, fs[2].number, fs[3].number,
                   if |fs| > 4 then fs[4].number else None))
  }

  /** `_extract_countries`: every row of the first table, in order. */
  function Countries(page: Page): seq<Country>
  {
    match First(page)
    case None => []
    case Some(t) => FilterMap(LinesOf(t.rows), CountryOf)
  }

  method ExtractCountries(page: Page) returns (countries: seq<Country>)
    ensures countries == Countries(page)
  {
    var table := First(page);
    if table.None? {
      return [];
    }
    countries := KeepRows(LinesOf(table.value.rows), CountryOf);
  }

  /** Every country comes from a numbered row of the first table whose
      country cell names no "total". */
  lemma CountrySound(page: Page, c: Country)
    requires c in Countries(page)
    ensures exists i :: 0 <= i < |First(page).value.rows| &&
                        var ts := Tds(First(page).value.rows[i]);
                        && |ts| >= 4 && ParseInt(ts[0]) == Some(c.sno as int)
                        && ts[1] == c.country && !Contains(Lower(ts[1]), "total")
                        && c.value == Number(ts[2]) && c.sharePct == Number(ts[3])
  {
    var rows := First(page).value.rows;
    FilterMapSound(LinesOf(rows), CountryOf, c);
    var i :| 0 <= i < |rows| && CountryOf(LinesOf(rows)[i]) == Some(c);
    assert LinesOf(rows)[i] == LineOf(rows[i]);
  }

  /** Every accepted row of the first table yields its country. */
  lemma CountryComplete(page: Page, i: nat)
    requires First(page).Some? && i < |First(page).value.rows|
    requires Accepted(LineOf(First(page).value.rows[i]))
    ensures CountryOf(LineOf(First(page).value.rows[i])).value in Countries(page)
  {
    FilterMapComplete(LinesOf(First(page).value.rows), CountryOf, i);
  }

  // ---- the total ----

  datatype Total = Total(totalValue: Option<real>, totalGrowthPct: Option<real>)

  /** A row naming "Total" with three cells or more: the value is cell 2,
      the growth cell 4 when present. */
  function TotalOf(l: Line): (r: Option<Total>)
    ensures r.Some? <==> l.hasTotal && |l.fields| >= 3
    ensures r.Some? ==> r.value.totalValue == l.fields[2].number
    ensures r.Some? && |l.fields| <= 4 ==> r.value.totalGrowthPct.None?
    ensures r.Some? && |l.fields| > 4 ==> r.value.totalGrowthPct == l.fields[4].number
  {
    if l.hasTotal && |l.fields| >= 3 then
      Some(Total(l.fields[2].number, if |l.fields| > 4 then l.fields[4].number else None))
    else None
  }

  /** `_extract_total`: the first qualifying row of the first table. */
  function TotalIn(page: Page): Option<Total>
  {
    match First(page)
    case None => None
    case Some(t) => FirstMatch(LinesOf(t.rows), TotalOf)
  }

  method ExtractTotal(page: Page) returns (r: Option<Total>)
    ensures r == TotalIn(page)
  {
    var table := First(page);
    if table.None? {
      return None;
    }
    r := FindFirst(LinesOf(table.value.rows), TotalOf);
  }

  /** The first row naming "Total" with three cells or more is the total. */
  lemma FirstTotalWins(page: Page, i: nat)
    requires First(page).Some? && i < |First(page).value.rows|
    requires TotalOf(LineOf(First(page).value.rows[i])).Some?
    requires forall j :: 0 <= j < i ==> TotalOf(LineOf(First(page).value.rows[j])).None?
    ensures TotalIn(page) == TotalOf(LineOf(First(page).value.rows[i]))
  {
    FirstMatchAt(LinesOf(First(page).value.rows), TotalOf, i);
  }

  // ---- the response ----

  datatype Parsed = Parsed(
    hscode: string, digitLevel: nat, commodity: string, year: int,
    countries: seq<Country>, total: Option<Total>, totalCountries: nat)

  /** `parse_region_wise_response`. The commodity name is always "", and
      a year that `int()` rejects makes the handler return None. */
  function ParseRegionWiseHtml(page: Page, hscode: string, year: string): (r: Option<Parsed>)
    ensures r.None? <==> ParseInt(year).None?
    ensures r.Some? ==>
      && r.value.year == ParseInt(year).value
      && r.value.digitLevel == |hscode| && r.value.commodity == ""
      && r.value.countries == Countries(page) && r.value.total == TotalIn(page)
      && r.value.totalCountries == |r.value.countries|
  {
    match ParseInt(year)
    case None => None
    case Some(y) =>
      var countries := Countries(page);
      Some(Parsed(hscode, |hscode|, "", y, countries, TotalIn(page), |countries|))
  }

  method ParseRegionWise(page: Page, hscode: string, year: string) returns (r: Option<Parsed>)
    ensures r == ParseRegionWiseHtml(page, hscode, year)
  {
    var countries := ExtractCountries(page);
    var total := ExtractTotal(page);
    var y := ParseInt(year);
    if y.None? {
      return None;
    }
    r := Some(Parsed(hscode, |hscode|, "", y.value, countries, total, |countries|));
  }
}
