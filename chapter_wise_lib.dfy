// The library copy of the chapter-wise parser: numbered rows of the first
// table become commodities, the first row naming India's total gives the
// total, and the result carries the data-quality counts.
module ChapterWiseLib {
  import opened Wrappers
  import opened PyStr
  import opened PyNum
  import opened Html
  import opened Scan
  import opened Numbers
  import opened Quality

  /** `_parse_number`. */
  function Number(text: string): Option<real>
  {
    ParseNumberCommaless(text, DashNaSlash)
  }

  /** A row as both extractors see it: its `td` cells read, whether the
      lower-cased code cell names "total", and whether the row's text
      names both "India" and "Total". */
  datatype Line = Line(fields: seq<Field>, codeTotal: bool, indiaTotal: bool)

  function LineOf(row: Row): (l: Line)
    ensures l.fields == Fields(Tds(row), Number)
    ensures l.codeTotal <==> |l.fields| > 1 && Contains(Lower(l.fields[1].text), "total")
    ensures l.indiaTotal <==> Contains(row.text, "India") && Contains(row.text, "Total")
  {
    var fs := Fields(Tds(row), Number);
    Line(fs, |fs| > 1 && Find(Lower(fs[1].text), "total"),
         Find(row.text, "India") && Find(row.text, "Total"))
  }

  function LinesOf(rows: seq<Row>): (ls: seq<Line>)
    ensures |ls| == |rows|
    ensures forall i :: 0 <= i < |rows| ==> ls[i] == LineOf(rows[i])
  {
    seq(|rows|, i requires 0 <= i < |rows| => LineOf(rows[i]))
  }

  // ---- commodities ----

  datatype Commodity = Commodity(
    sno: nat, hscode: string, commodity: string,
    value: Option<real>, sharePct: Option<real>, growthPct: Option<real>)

  /** Five cells or more, an all-digit serial, and no "total" in the code
      cell. */
  predicate Accepted(l: Line)
  {
    |l.fields| >= 5 && IsDigits(l.fields[0].text) && !l.codeTotal
  }

  function CommodityOf(l: Line): (r: Option<Commodity>)
    ensures r.Some? <==> Accepted(l)
    ensures r.Some? ==>
      && ParseInt(l.fields[0].text) == Some(r.value.sno as int)
      && r.value.hscode == l.fields[1].text && r.value.commodity == l.fields[2].text
      && r.value.value == l.fields[3].number && r.value.sharePct == l.fields[4].number
      && (r.value.growthPct.Some? ==> |l.fields| > 5 && r.value.growthPct == l.fields[5].number)
      && (|l.fields| > 5 ==> r.value.growthPct == l.fields[5].number)
  {
    if !Accepted(l) then None
    else
      ParseIntDigits(l.fields[0].text);
      var fs := l.fields;
      Some(Commodity(DigitsValue(fs[0].text), fs[1].text, fs[2].text, fs[3].number, fs[4].number,
                     if |fs| > 5 then fs[5].number else None))
  }

  /** `_extract_commodities`: every row of the first table, in order. */
  function Commodities(page: Page): seq<Commodity>
  {
    match First(page)
    case None => []
    case Some(t) => FilterMap(LinesOf(t.rows), CommodityOf)
  }

  method ExtractCommodities(page: Page) returns (commodities: seq<Commodity>)
    ensures commodities == Commodities(page)
  {
    var table := First(page);
    if table.None? {
      return [];
    }
    commodities := KeepRows(LinesOf(table.value.rows), CommodityOf);
  }

  /** Every commodity comes from a numbered row of the first table whose
      code cell names no "total", and keeps that row's cells. */
  lemma CommoditySound(page: Page, c: Commodity)
    requires c in Commodities(page)
    ensures exists i :: 0 <= i < |First(page).value.rows| &&
                        var ts := Tds(First(page).value.rows[i]);
                        && |ts| >= 5 && ParseInt(ts[0]) == Some(c.sno as int)
                        && ts[1] == c.hscode && ts[2] == c.commodity
                        && !Contains(Lower(ts[1]), "total")
                        && c.value == Number(ts[3])
  {
    var rows := First(page).value.rows;
    FilterMapSound(LinesOf(rows), CommodityOf, c);
    var i :| 0 <= i < |rows| && CommodityOf(LinesOf(rows)[i]) == Some(c);
    assert LinesOf(rows)[i] == LineOf(rows[i]);
  }

  /** Every accepted row of the first table yields its commodity. */
  lemma CommodityComplete(page: Page, i: nat)
    requires First(page).Some? && i < |First(page).value.rows|
    requires Accepted(LineOf(First(page).value.rows[i]))
    ensures CommodityOf(LineOf(First(page).value.rows[i])).value in Commodities(page)
  {
    FilterMapComplete(LinesOf(First(page).value.rows), CommodityOf, i);
  }

  // ---- India's total ----

  datatype IndiaTotal = IndiaTotal(totalValue: Option<real>, totalGrowthPct: Option<real>)

  /** A row naming "India" and "Total" with four cells or more; its value
      is cell 3 and its growth cell 5 when present. */
  function TotalOf(l: Line): (r: Option<IndiaTotal>)
    ensures r.Some? <==> l.indiaTotal && |l.fields| >= 4
    ensures r.Some? ==> r.value.totalValue == l.fields[3].number
    ensures r.Some? ==> (r.value.totalGrowthPct.Some? ==> |l.fields| > 5)
    ensures r.Some? && |l.fields| > 5 ==> r.value.totalGrowthPct == l.fields[5].number
  {
    if l.indiaTotal && |l.fields| >= 4 then
      Some(IndiaTotal(l.fields[3].number, if |l.fields| > 5 then l.fields[5].number else None))
    else None
  }

  /** `_extract_india_total`: the first qualifying row of the first table. */
  function TotalIn(page: Page): Option<IndiaTotal>
  {
    match First(page)
    case None => None
    case Some(t) => FirstMatch(LinesOf(t.rows), TotalOf)
  }

  method ExtractIndiaTotal(page: Page) returns (r: Option<IndiaTotal>)
    ensures r == TotalIn(page)
  {
    var table := First(page);
    if table.None? {
      return None;
    }
    r := FindFirst(LinesOf(table.value.rows), TotalOf);
  }

  /** The first row naming India's total with four cells or more is the
      total, whatever rows of that kind follow. */
  lemma FirstTotalWins(page: Page, i: nat)
    requires First(page).Some? && i < |First(page).value.rows|
    requires TotalOf(LineOf(First(page).value.rows[i])).Some?
    requires forall j :: 0 <= j < i ==> TotalOf(LineOf(First(page).value.rows[j])).None?
    ensures TotalIn(page) == TotalOf(LineOf(First(page).value.rows[i]))
  {
    FirstMatchAt(LinesOf(First(page).value.rows), TotalOf, i);
  }

  // ---- the response ----

  predicate HasValue(c: Commodity)
  {
    c.value.Some?
  }

  datatype Parsed = Parsed(
    year: int, digitLevel: int, commodities: seq<Commodity>, indiaTotal: Option<IndiaTotal>,
    quality: Report)

  /** `parse_chapter_wise_response`. A year that `int()` rejects raises
      inside the handler, which returns None. */
  function ParseChapterWiseHtml(page: Page, year: string, digitLevel: int): (r: Option<Parsed>)
    ensures r.None? <==> ParseInt(year).None?
    ensures r.Some? ==>
      && r.value.year == ParseInt(year).value
      && r.value.commodities == Commodities(page)
      && r.value.indiaTotal == TotalIn(page)
      && r.value.quality.total == |r.value.commodities|
      && r.value.quality.withData == CountWhere(r.value.commodities, HasValue)
      && r.value.quality.completeness
           == Completeness(r.value.quality.withData, r.value.quality.total)
  {
    match ParseInt(year)
    case None => None
    case Some(y) =>
      var commodities := Commodities(page);
      Some(Parsed(y, digitLevel, commodities, TotalIn(page), Assess(commodities, HasValue)))
  }

  method ParseChapterWise(page: Page, year: string, digitLevel: int) returns (r: Option<Parsed>)
    ensures r == ParseChapterWiseHtml(page, year, digitLevel)
  {
    var commodities := ExtractCommodities(page);
    var total := ExtractIndiaTotal(page);
    var y := ParseInt(year);
    if y.None? {
      return None;
    }
    r := Some(Parsed(y.value, digitLevel, commodities, total, Assess(commodities, HasValue)));
  }
}
