// The library parser of a region's (or country's) commodities: numbered
// rows of the first table become commodities, and the first row naming
// "Total" with four cells or more gives the total value.
module RegionWiseAllCommoditiesLib {
  import opened Wrappers
  import opened PyStr
  import opened PyNum
  import opened Html
  import opened Scan
  import opened Numbers

  /** `_parse_number`: only "-" and "NA" are placeholders. */
  function Number(text: string): Option<real>
  {
    ParseNumberCommaless(text, DashNa)
  }

  /** A row as both extractors see it: its `td` cells read, whether the
      lower-cased code cell names "total", and whether the row's text names
      "Total". */
  datatype Line = Line(fields: seq<Field>, codeTotal: bool, hasTotal: bool)

  function LineOf(row: Row): (l: Line)
    ensures l.fields == Fields(Tds(row), Number)
    ensures l.codeTotal <==> |l.fields| > 1 && Contains(Lower(l.fields[1].text), "total")
    ensures l.hasTotal <==> Contains(row.text, "Total")
  {
    var fs := Fields(Tds(row), Number);
    Line(fs, |fs| > 1 && Find(Lower(fs[1].text), "total"), Find(row.text, "Total"))
  }

  function LinesOf(rows: seq<Row>): (ls: seq<Line>)
    ensures |ls| == |rows|
    ensures forall i :: 0 <= i < |rows| ==> ls[i] == LineOf(rows[i])
  {
    seq(|rows|, i requires 0 <= i < |rows| => LineOf(rows[i]))
  }

  // ---- commodities ----

  datatype Commodity = Commodity(
    sno: nat, hscode: string, commodity: string,
    value: Option<real>, sharePct: Option<real>, growthPct: Option<real>)

  /** Four cells or more, an all-digit serial, and no "total" in the code
      cell. */
  predicate Accepted(l: Line)
  {
    |l.fields| >= 4 && IsDigits(l.fields[0].text) && !l.codeTotal
  }

  function CommodityOf(l: Line): (r: Option<Commodity>)
    ensures r.Some? <==> Accepted(l)
    ensures r.Some? ==>
      && ParseInt(l.fields[0].text) == Some(r.value.sno as int)
      && r.value.hscode == l.fields[1].text && r.value.commodity == l.fields[2].text
      && r.value.value == l.fields[3].number
      && (|l.fields| == 4 ==> r.value.sharePct.None?)
      && (|l.fields| > 4 ==> r.value.sharePct == l.fields[4].number)
      && (|l.fields| <= 5 ==> r.value.growthPct.None?)
      && (|l.fields| > 5 ==> r.value.growthPct == l.fields[5].number)
  {
    if !Accepted(l) then None
    else
      ParseIntDigits(l.fields[0].text);
      var fs := l.fields;
      Some(Commodity(DigitsValue(fs[0].text), fs[1].text, fs[2].text, fs[3].number,
                     if |fs| > 4 then fs[4].number else None,
                     if |fs| > 5 then fs[5].number else None))
  }

  /** `_extract_commodities`: every row of the first table, in order. */
  function Commodities(page: Page): seq<Commodity>
  {
    match First(page)
    case None => []
    case Some(t) => FilterMap(LinesOf(t.rows), CommodityOf)
  }

  method ExtractCommodities(page: Page) returns (commodities: seq<Commodity>)
    ensures commodities == Commodities(page)
  {
    var table := First(page);
    if table.None? {
      return [];
    }
    commodities := KeepRows(LinesOf(table.value.rows), CommodityOf);
  }

  /** Every commodity comes from a numbered row of the first table whose
      code cell names no "total". */
  lemma CommoditySound(page: Page, c: Commodity)
    requires c in Commodities(page)
    ensures exists i :: 0 <= i < |First(page).value.rows| &&
                        var ts := Tds(First(page).value.rows[i]);
                        && |ts| >= 4 && ParseInt(ts[0]) == Some(c.sno as int)
                        && ts[1] == c.hscode && ts[2] == c.commodity
                        && !Contains(Lower(ts[1]), "total") && c.value == Number(ts[3])
  {
    var rows := First(page).value.rows;
    FilterMapSound(LinesOf(rows), CommodityOf, c);
    var i :| 0 <= i < |rows| && CommodityOf(LinesOf(rows)[i]) == Some(c);
    assert LinesOf(rows)[i] == LineOf(rows[i]);
  }

  /** Every accepted row of the first table yields its commodity. */
  lemma CommodityComplete(page: Page, i: nat)
    requires First(page).Some? && i < |First(page).value.rows|
    requires Accepted(LineOf(First(page).value.rows[i]))
    ensures CommodityOf(LineOf(First(page).value.rows[i])).value in Commodities(page)
  {
    FilterMapComplete(LinesOf(First(page).value.rows), CommodityOf, i);
  }

  // ---- the total ----

  /** A row naming "Total" with four cells or more; only cell 3 is kept. */
  function TotalOf(l: Line): (r: Option<Option<real>>)
    ensures r.Some? <==> l.hasTotal && |l.fields| >= 4
    ensures r.Some? ==> r.value == l.fields[3].number
  {
    if l.hasTotal && |l.fields| >= 4 then Some(l.fields[3].number) else None
  }

  /** `_extract_total`: the total value of the first qualifying row. */
  function TotalIn(page: Page): Option<Option<real>>
  {
    match First(page)
    case None => None
    case Some(t) => FirstMatch(LinesOf(t.rows), TotalOf)
  }

  method ExtractTotal(page: Page) returns (r: Option<Option<real>>)
    ensures r == TotalIn(page)
  {
    var table := First(page);
    if table.None? {
      return None;
    }
    r := FindFirst(LinesOf(table.value.rows), TotalOf);
  }

  /** The first row naming "Total" with four cells or more is the total;
      shorter rows naming it do not end the search. */
  lemma FirstTotalWins(page: Page, i: nat)
    requires First(page).Some? && i < |First(page).value.rows|
    requires TotalOf(LineOf(First(page).value.rows[i])).Some?
    requires forall j :: 0 <= j < i ==> TotalOf(LineOf(First(page).value.rows[j])).None?
    ensures TotalIn(page) == TotalOf(LineOf(First(page).value.rows[i]))
  {
    FirstMatchAt(LinesOf(First(page).value.rows), TotalOf, i);
  }

  // ---- the response ----

  datatype Parsed = Parsed(
    year: int, digitLevel: int, commodities: seq<Commodity>, total: Option<Option<real>>,
    totalCommodities: nat)

  /** `parse_region_commodities_response`. A year that `int()` rejects
      makes the handler return None. */
  function ParseRegionCommoditiesHtml(page: Page, year: string, digitLevel: int): (r: Option<Parsed>)
    ensures r.None? <==> ParseInt(year).None?
    ensures r.Some? ==>
      && r.value.year == ParseInt(year).value
      && r.value.commodities == Commodities(page) && r.value.total == TotalIn(page)
      && r.value.totalCommodities == |r.value.commodities|
  {
    match ParseInt(year)
    case None => None
    case Some(y) =>
      var commodities := Commodities(page);
      Some(Parsed(y, digitLevel, commodities, TotalIn(page), |commodities|))
  }

  method ParseRegionCommodities(page: Page, year: string, digitLevel: int) returns (r: Option<Parsed>)
    ensures r == ParseRegionCommoditiesHtml(page, year, digitLevel)
  {
    var commodities := ExtractCommodities(page);
    var total := ExtractTotal(page);
    var y := ParseInt(year);
    if y.None? {
      return None;
    }
    r := Some(Parsed(y.value, digitLevel, commodities, total, |commodities|));
  }
}
