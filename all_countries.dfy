// The commodity-wise all-countries page: one row per partner country in the
// body of the `example1` table, a footer with the total, India's total and
// the share, and the data-quality block computed over the countries.
module AllCountries {
  import opened Wrappers
  import opened PyStr
  import opened PyNum
  import opened Numbers
  import opened Html
  import opened Scan
  import opened Quality
  import opened TradeRecords

  // ---- the country rows ----

  /** Names whose upper-case form ends the country list. */
  const StopNames: seq<string> := ["TOTAL", "INDIA'S TOTAL", "% SHARE", ""]

  /** The stripped `td` texts of a row, each read by `_parse_numeric`. */
  function RowFields(row: Row): (fs: seq<Field>)
    ensures |fs| == |Tds(row)|
  {
    Fields(Tds(row), ParseNumericTrimmed)
  }

  function FieldRows(rows: seq<Row>): (ls: seq<seq<Field>>)
    ensures |ls| == |rows|
    ensures forall i :: 0 <= i < |rows| ==> ls[i] == RowFields(rows[i])
  {
    seq(|rows|, i requires 0 <= i < |rows| => RowFields(rows[i]))
  }

  /** `int(sno_text)`, or one more than the number of countries so far. */
  function SerialOr(text: string, n: nat): (sno: int)
    ensures ParseInt(text).Some? ==> sno == ParseInt(text).value
    ensures ParseInt(text).None? ==> sno == n + 1
  {
    match ParseInt(text)
    case Some(v) => v
    case None => n + 1
  }

  /** The loop body on one row, given the number of countries so far:
      rows of fewer than eight cells are skipped, a total or empty name
      ends the loop, any other row is a country with its values read from
      cells 2 to 4 (USD) and 5 to 7 (quantity). */
  function CountryStep(fs: seq<Field>, n: nat): Step<CountryRecord>
  {
    if |fs| < 8 then Skip
    else if Upper(fs[1].text) in StopNames then Stop
    else
      Keep(CountryRecord(SerialOr(fs[0].text, n), fs[1].text,
                         Metrics(fs[2].number, fs[3].number, fs[4].number),
                         Metrics(fs[5].number, fs[6].number, fs[7].number)))
  }

  /** The countries of a table body. */
  function CountriesOf(rows: seq<Row>): seq<CountryRecord>
  {
    Run(FieldRows(rows), CountryStep).out
  }

  /** `_extract_countries_data`: no `example1` table gives no countries, a
      table without a body gives None. */
  function Countries(page: Page): Option<seq<CountryRecord>>
  {
    match ById(page, "example1")
    case None => Some([])
    case Some(t) =>
      match t.body
      case None => None
      case Some(rows) => Some(CountriesOf(rows))
  }

  /** The country loop. */
  method ExtractCountries(rows: seq<Row>) returns (countries: seq<CountryRecord>)
    ensures countries == CountriesOf(rows)
  {
    countries := ScanRows(FieldRows(rows), CountryStep);
  }

  method ExtractCountriesData(page: Page) returns (r: Option<seq<CountryRecord>>)
    ensures r == Countries(page)
  {
    var table := ById(page, "example1");
    if table.None? {
      return Some([]);
    }
    if table.value.body.None? {
      return None;
    }
    var countries := ExtractCountries(table.value.body.value);
    r := Some(countries);
  }

  /** Every country comes from a row of at least eight cells whose name is
      not a stop name; its serial is the row's integer serial or one more
      than its position, and its values are cells 2 to 7 in order. */
  lemma {:induction false} CountryFromRow(rows: seq<Row>, k: nat)
    requires k < |CountriesOf(rows)|
    ensures var c := CountriesOf(rows)[k];
      exists i :: 0 <= i < |rows| &&
        var fs := RowFields(rows[i]);
        && |fs| >= 8
        && c.country == fs[1].text && Upper(c.country) !in StopNames
        && c.sno == SerialOr(fs[0].text, k)
        && c.usd == Metrics(fs[2].number, fs[3].number, fs[4].number)
        && c.qty == Metrics(fs[5].number, fs[6].number, fs[7].number)
  {
    var ls := FieldRows(rows);
    RunSound(ls, CountryStep, k);
    var i :| 0 <= i < |ls| && CountryStep(ls[i], k) == Keep(Run(ls, CountryStep).out[k]);
    assert ls[i] == RowFields(rows[i]);
  }

  /** No country is a stop name: the total rows never become countries. */
  lemma NoStopNameCountry(rows: seq<Row>, c: CountryRecord)
    requires c in CountriesOf(rows)
    ensures Upper(c.country) !in StopNames
  {
    var k :| 0 <= k < |CountriesOf(rows)| && CountriesOf(rows)[k] == c;
    CountryFromRow(rows, k);
  }

  /** A row of at least eight cells named as a total ends the list: the
      countries are those of the rows before it. */
  lemma StopsAtTotal(rows: seq<Row>, j: nat)
    requires j < |rows| && |Tds(rows[j])| >= 8
    requires Upper(Tds(rows[j])[1]) in StopNames
    ensures CountriesOf(rows) == CountriesOf(rows[..j])
  {
    var ls: seq<seq<Field>> := FieldRows(rows);
    assert ls[j][1].text == Tds(rows[j])[1];
    StopsAt(ls, CountryStep, j);
    assert ls[..j] == FieldRows(rows[..j]);
  }

  // ---- the footer ----

  datatype RowKind = TotalKind | IndiaKind | ShareKind | OtherKind

  /** `pct_share`: the two fiscal-year shares. */
  datatype Share = Share(y2023_2024: Option<real>, y2024_2025: Option<real>)

  const NoShare := Share(None, None)

  /** The totals dictionary starts with every value None; each matching
      footer row overwrites its slot. */
  datatype Totals = Totals(total: Metrics, indiaTotal: Metrics, pctShare: Share)

  const NoTotals := Totals(NoMetrics, NoMetrics, NoShare)

  /** A footer row of at least three cells is classified by its first two
      cells, upper-cased and joined by a space: TOTAL without INDIA, then
      INDIA with TOTAL, then SHARE. */
  function KindOf(fs: seq<Field>): (k: RowKind)
    ensures k != OtherKind ==> |fs| >= 3
  {
    if |fs| < 3 then OtherKind
    else
      var heading := Upper(fs[0].text) + " " + Upper(fs[1].text);
      if Find(heading, "TOTAL") && !Find(heading, "INDIA") then TotalKind
      else if Find(heading, "INDIA") && Find(heading, "TOTAL") then IndiaKind
      else if Find(heading, "SHARE") then ShareKind
      else OtherKind
  }

  function UsdOf(fs: seq<Field>): Metrics
    requires |fs| >= 5
  {
    Metrics(fs[2].number, fs[3].number, fs[4].number)
  }

  /** Total and India's total rows need five cells, the share row four;
      a shorter row of the kind changes nothing. */
  function TotalOf(fs: seq<Field>): Option<Metrics>
  {
    if KindOf(fs) == TotalKind && |fs| >= 5 then Some(UsdOf(fs)) else None
  }

  function IndiaOf(fs: seq<Field>): Option<Metrics>
  {
    if KindOf(fs) == IndiaKind && |fs| >= 5 then Some(UsdOf(fs)) else None
  }

  function ShareOf(fs: seq<Field>): Option<Share>
  {
    if KindOf(fs) == ShareKind && |fs| >= 4 then Some(Share(fs[2].number, fs[3].number)) else None
  }

  /** Each slot holds the values of the last footer row that fills it. */
  function TotalsOf(lines: seq<seq<Field>>): Totals
  {
    Totals(LastMatch(lines, TotalOf).GetOr(NoMetrics),
           LastMatch(lines, IndiaOf).GetOr(NoMetrics),
           LastMatch(lines, ShareOf).GetOr(NoShare))
  }

  /** `_extract_totals`: the footer of the `example1` table. */
  function FooterTotals(page: Page): Totals
  {
    match ById(page, "example1")
    case None => NoTotals
    case Some(t) =>
      match t.foot
      case None => NoTotals
      case Some(rows) => TotalsOf(FieldRows(rows))
  }

  /** The footer loop, overwriting the slots in place. */
  method ExtractFooter(lines: seq<seq<Field>>) returns (totals: Totals)
    ensures totals == TotalsOf(lines)
  {
    totals := NoTotals;
    var i := 0;
    while i < |lines|
      invariant 0 <= i <= |lines|
      invariant totals == TotalsOf(lines[..i])
    {
      var fs := lines[i];
      FooterStep(lines, i);
      if |fs| >= 3 {
        match KindOf(fs) {
          case TotalKind =>
            if |fs| >= 5 { totals := totals.(total := UsdOf(fs)); }
          case IndiaKind =>
            if |fs| >= 5 { totals := totals.(indiaTotal := UsdOf(fs)); }
          case ShareKind =>
            if |fs| >= 4 { totals := totals.(pctShare := Share(fs[2].number, fs[3].number)); }
          case OtherKind =>
        }
      }
      i := i + 1;
    }
    assert lines[..i] == lines;
  }

  /** One footer row overwrites at most the slot of its kind. */
  lemma FooterStep(lines: seq<seq<Field>>, i: nat)
    requires i < |lines|
    ensures var fs := lines[i];
      TotalsOf(lines[..i + 1]) == Totals(
        (if TotalOf(fs).Some? then TotalOf(fs).value else TotalsOf(lines[..i]).total),
        (if IndiaOf(fs).Some? then IndiaOf(fs).value else TotalsOf(lines[..i]).indiaTotal),
        (if ShareOf(fs).Some? then ShareOf(fs).value else TotalsOf(lines[..i]).pctShare))
  {
    LastMatchStep(lines, i, TotalOf);
    LastMatchStep(lines, i, IndiaOf);
    LastMatchStep(lines, i, ShareOf);
  }

  method ExtractTotals(page: Page) returns (totals: Totals)
    ensures totals == FooterTotals(page)
  {
    var table := ById(page, "example1");
    if table.None? || table.value.foot.None? {
      return NoTotals;
    }
    totals := ExtractFooter(FieldRows(table.value.foot.value));
  }

  /** The last total row of five or more cells wins. */
  lemma {:induction false} TotalLastWins(lines: seq<seq<Field>>, i: nat)
    requires i < |lines| && KindOf(lines[i]) == TotalKind && |lines[i]| >= 5
    requires forall j :: i < j < |lines| ==> TotalOf(lines[j]).None?
    ensures TotalsOf(lines).total == UsdOf(lines[i])
  {
    LastMatchAt(lines, TotalOf, i);
  }

  /** A slot that no row fills keeps its all-None values. */
  lemma UnfilledTotal(lines: seq<seq<Field>>)
    requires forall j :: 0 <= j < |lines| ==> KindOf(lines[j]) != TotalKind || |lines[j]| < 5
    ensures TotalsOf(lines).total == NoMetrics
  {
  }

  // ---- data quality and the whole page ----

  /** A country counts as having data when its 2024-25 USD value is set. */
  predicate HasData(c: CountryRecord)
  {
    c.usd.y2024_2025.Some?
  }

  datatype Parsed = Parsed(
    hsn: string, year: string,
    countries: seq<CountryRecord>, totals: Totals, quality: Report)

  /** `parse_commodity_html`: None when the country extraction gave None,
      since `len(None)` raises and the handler returns None. */
  function ParseCommodityHtml(page: Page, hsn: string, year: string): (r: Option<Parsed>)
    ensures r.None? <==> Countries(page).None?
    ensures r.Some? ==> r.value.countries == Countries(page).value
                        && r.value.totals == FooterTotals(page)
                        && r.value.quality == Assess(r.value.countries, HasData)
  {
    match Countries(page)
    case None => None
    case Some(countries) =>
      Some(Parsed(hsn, year, countries, FooterTotals(page), Assess(countries, HasData)))
  }

  method ParseCommodity(page: Page, hsn: string, year: string) returns (r: Option<Parsed>)
    ensures r == ParseCommodityHtml(page, hsn, year)
  {
    var countries := ExtractCountriesData(page);
    if countries.None? {
      return None;
    }
    var totals := ExtractTotals(page);
    r := Some(Parsed(hsn, year, countries.value, totals, Assess(countries.value, HasData)));
  }

  /** A table without a body makes the whole parse None. */
  lemma NoBodyNoResult(page: Page, hsn: string, year: string)
    requires ById(page, "example1").Some? && ById(page, "example1").value.body.None?
    ensures ParseCommodityHtml(page, hsn, year).None?
  {
  }
}
