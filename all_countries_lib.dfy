// The library copy of the all-countries parser. It reads rows exactly as
// the package parser does, but falls back to the first table of class
// "table", treats a missing body as no rows, adds the fiscal-year range and
// a checksum over the countries and totals.
module AllCountriesLib {
  import opened Wrappers
  import opened PyStr
  import opened PyNum
  import opened Html
  import opened Scan
  import opened TradeRecords
  import opened Quality
  import AllCountries

  /** The `example1` table, else the first table of class "table". */
  function DataTable(page: Page): (t: Option<Table>)
    ensures ById(page, "example1").Some? ==> t == ById(page, "example1")
    ensures ById(page, "example1").None? ==> t == ByClass(page, "table")
  {
    match ById(page, "example1")
    case Some(t) => Some(t)
    case None => ByClass(page, "table")
  }

  /** `_extract_countries_data`: no table or no body gives no countries. */
  function Countries(page: Page): (cs: seq<CountryRecord>)
    ensures DataTable(page).None? || DataTable(page).value.body.None? ==> cs == []
  {
    match DataTable(page)
    case None => []
    case Some(t) =>
      match t.body
      case None => []
      case Some(rows) => AllCountries.CountriesOf(rows)
  }

  method ExtractCountriesData(page: Page) returns (countries: seq<CountryRecord>)
    ensures countries == Countries(page)
  {
    var table := DataTable(page);
    if table.None? || table.value.body.None? {
      return [];
    }
    countries := AllCountries.ExtractCountries(table.value.body.value);
  }

  datatype Parsed = Parsed(
    hsn: string, year: string, fiscalRange: string,
    countries: seq<CountryRecord>, totals: AllCountries.Totals,
    quality: Report, checksum: string)

  /** `parse_commodity_html`. The MD5 digest of the countries and totals is
      the function `checksum`. A year that is not an integer makes the
      metadata raise, and the handler returns None. Totals come only from
      the footer of the `example1` table, even when the fallback table
      supplied the countries. */
  function ParseCommodityHtml(page: Page, hsn: string, year: string,
                              checksum: (seq<CountryRecord>, AllCountries.Totals) -> string)
    : (r: Option<Parsed>)
    ensures r.None? <==> ParseInt(year).None?
    ensures r.Some? ==>
      && r.value.countries == Countries(page)
      && r.value.totals == AllCountries.FooterTotals(page)
      && r.value.quality == Assess(r.value.countries, AllCountries.HasData)
      && r.value.checksum == checksum(r.value.countries, r.value.totals)
  {
    match FiscalRange(year)
    case None => None
    case Some(range) =>
      var countries := Countries(page);
      var totals := AllCountries.FooterTotals(page);
      Some(Parsed(hsn, year, range, countries, totals,
                  Assess(countries, AllCountries.HasData), checksum(countries, totals)))
  }

  method ParseCommodity(page: Page, hsn: string, year: string,
                        checksum: (seq<CountryRecord>, AllCountries.Totals) -> string)
    returns (r: Option<Parsed>)
    ensures r == ParseCommodityHtml(page, hsn, year, checksum)
  {
    var range := FiscalRange(year);
    if range.None? {
      return None;
    }
    var countries := ExtractCountriesData(page);
    var totals := AllCountries.ExtractTotals(page);
    r := Some(Parsed(hsn, year, range.value, countries, totals,
                     Assess(countries, AllCountries.HasData), checksum(countries, totals)));
  }

  /** With the fallback table the totals keep their all-None values. */
  lemma FallbackHasNoTotals(page: Page)
    requires ById(page, "example1").None?
    ensures AllCountries.FooterTotals(page) == AllCountries.NoTotals
  {
  }

  /** Both parsers agree on the countries whenever the `example1` table
      has a body. */
  lemma AgreesWithPackageParser(page: Page)
    requires ById(page, "example1").Some? && ById(page, "example1").value.body.Some?
    ensures AllCountries.Countries(page) == Some(Countries(page))
  {
  }
}
