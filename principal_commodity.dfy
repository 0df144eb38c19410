// The monthly (MEIDB) principal-commodity parser: every HS code under one
// principal commodity with its same-month and year-to-date values, the
// total row, and the column headers of the first table.
module PrincipalCommodity {
  import opened Wrappers
  import opened PyStr
  import opened PyNum
  import opened Html
  import opened Scan
  import opened Numbers
  import opened TradeRecords
  import MeidbCommodityWise

  /** The first cell whose text contains "Total", or "" when none does. */
  function TotalLabel(ts: seq<string>): (cell: string)
    ensures cell == "" <==> forall k :: 0 <= k < |ts| ==> !Contains(ts[k], "Total")
    ensures cell != "" ==>
      exists k :: 0 <= k < |ts| && ts[k] == cell && Contains(cell, "Total")
                  && forall j :: 0 <= j < k ==> !Contains(ts[j], "Total")
  {
    if ts == [] then ""
    else if Find(ts[0], "Total") then
      assert ts[0] != "" by {
        var i :| OccursAt(ts[0], "Total", i);
      }
      ts[0]
    else
      var rest := TotalLabel(ts[1..]);
      assert forall k :: 0 < k < |ts| ==> ts[k] == ts[1..][k - 1];
      if rest != "" then
        assert exists k :: 0 <= k < |ts| && ts[k] == rest && Contains(rest, "Total")
                           && forall j :: 0 <= j < k ==> !Contains(ts[j], "Total") by {
          var k :| 0 <= k < |ts[1..]| && ts[1..][k] == rest && Contains(rest, "Total")
                   && forall j :: 0 <= j < k ==> !Contains(ts[1..][j], "Total");
          assert ts[k + 1] == rest;
        }
        rest
      else
        rest
  }

  /** What the row filters need of a row: its cells, whether its text
      names "Total", whether it names "total" in any case, and its label
      cell. */
  datatype Line = Line(fields: seq<Field>, hasTotal: bool, anyTotal: bool, totalCell: string)

  function LineOf(row: Row): (l: Line)
    ensures l.fields == Fields(Tds(row), ParseNumberStripped)
    ensures l.hasTotal <==> Contains(row.text, "Total")
    ensures l.anyTotal <==> Contains(Lower(row.text), "total")
    ensures l.totalCell == TotalLabel(Tds(row))
  {
    Line(Fields(Tds(row), ParseNumberStripped), Find(row.text, "Total"),
         Find(Lower(row.text), "total"), TotalLabel(Tds(row)))
  }

  function LinesOf(rows: seq<Row>): (ls: seq<Line>)
    ensures |ls| == |rows|
    ensures forall i :: 0 <= i < |rows| ==> ls[i] == LineOf(rows[i])
  {
    seq(|rows|, i requires 0 <= i < |rows| => LineOf(rows[i]))
  }

  // ---- HS-code rows ----

  datatype Commodity = Commodity(sno: nat, hscode: string, description: string,
                                 values: MeidbCommodityWise.Monthly)

  /** Five cells or more, an all-digit serial, and no "total" in any case
      anywhere in the row. */
  predicate Accepted(l: Line)
  {
    |l.fields| >= 5 && IsDigits(l.fields[0].text) && !l.anyTotal
  }

  /** Code and description are cells 1 and 2, the values cells 3 to 8. */
  function CommodityOf(l: Line): (r: Option<Commodity>)
    ensures r.Some? <==> Accepted(l)
    ensures r.Some? ==>
      && ParseInt(l.fields[0].text) == Some(r.value.sno as int)
      && r.value.hscode == l.fields[1].text
      && r.value.description == l.fields[2].text
      && r.value.values == MeidbCommodityWise.MonthlyFrom(l.fields, 3)
  {
    if !Accepted(l) then None
    else
      ParseIntDigits(l.fields[0].text);
      Some(Commodity(DigitsValue(l.fields[0].text), l.fields[1].text, l.fields[2].text,
                     MeidbCommodityWise.MonthlyFrom(l.fields, 3)))
  }

  /** `_extract_commodities`: every row of the first table, in order. */
  function Commodities(page: Page): seq<Commodity>
  {
    match First(page)
    case None => []
    case Some(t) => FilterMap(LinesOf(t.rows), CommodityOf)
  }

  method ExtractCommodities(page: Page) returns (commodities: seq<Commodity>)
    ensures commodities == Commodities(page)
  {
    var table := First(page);
    if table.None? {
      return [];
    }
    commodities := KeepRows(LinesOf(table.value.rows), CommodityOf);
  }

  /** Every record comes from a row of five cells or more whose serial
      `int()` reads as the record's and whose text has no "total" in any
      case. */
  lemma CommoditySound(page: Page, c: Commodity)
    requires c in Commodities(page)
    ensures exists i :: 0 <= i < |First(page).value.rows| &&
                        var row := First(page).value.rows[i];
                        && |Tds(row)| >= 5 && ParseInt(Tds(row)[0]) == Some(c.sno as int)
                        && Tds(row)[1] == c.hscode && Tds(row)[2] == c.description
                        && !Contains(Lower(row.text), "total")
  {
    var rows := First(page).value.rows;
    FilterMapSound(LinesOf(rows), CommodityOf, c);
    var i :| 0 <= i < |rows| && CommodityOf(LinesOf(rows)[i]) == Some(c);
    assert LinesOf(rows)[i] == LineOf(rows[i]);
  }

  /** Every accepted row of the first table yields its record. */
  lemma CommodityComplete(page: Page, i: nat)
    requires First(page).Some? && i < |First(page).value.rows|
    requires Accepted(LineOf(First(page).value.rows[i]))
    ensures CommodityOf(LineOf(First(page).value.rows[i])).value in Commodities(page)
  {
    FilterMapComplete(LinesOf(First(page).value.rows), CommodityOf, i);
  }

  // ---- the total row ----

  datatype Total = Total(rowLabel: string, values: MeidbCommodityWise.Monthly)

  /** A row naming "Total" ("India's Total" names it too) with eight cells
      or more. A row of five to seven cells gets its label looked up and is
      then passed over, like any shorter row. */
  function TotalOf(l: Line): (r: Option<Total>)
    ensures r.Some? <==> l.hasTotal && |l.fields| >= 8
    ensures r.Some? ==> r.value == Total(l.totalCell, MeidbCommodityWise.MonthlyFrom(l.fields, 3))
  {
    if l.hasTotal && |l.fields| >= 8 then Some(Total(l.totalCell, MeidbCommodityWise.MonthlyFrom(l.fields, 3)))
    else None
  }

  /** `_extract_total`: the first qualifying row of the first table. */
  function TotalIn(page: Page): Option<Total>
  {
    match First(page)
    case None => None
    case Some(t) => FirstMatch(LinesOf(t.rows), TotalOf)
  }

  method ExtractTotal(page: Page) returns (r: Option<Total>)
    ensures r == TotalIn(page)
  {
    var table := First(page);
    if table.None? {
      return None;
    }
    r := FindFirst(LinesOf(table.value.rows), TotalOf);
  }

  /** The first row naming "Total" with eight cells or more is the total,
      whatever rows of that kind follow it. */
  lemma FirstTotalWins(page: Page, i: nat)
    requires First(page).Some? && i < |First(page).value.rows|
    requires TotalOf(LineOf(First(page).value.rows[i])).Some?
    requires forall j :: 0 <= j < i ==> TotalOf(LineOf(First(page).value.rows[j])).None?
    ensures TotalIn(page) == TotalOf(LineOf(First(page).value.rows[i]))
  {
    FirstMatchAt(LinesOf(First(page).value.rows), TotalOf, i);
  }

  /** The total row is never an HS-code record: its text names "Total",
      so its lower-cased text names "total". */
  lemma TotalNotCommodity(l: Line, row: Row)
    requires l == LineOf(row) && TotalOf(l).Some?
    ensures CommodityOf(l).None?
  {
    LowerContains(row.text, "Total");
    LowerTotal();
    assert l.anyTotal;
  }

  lemma LowerTotal()
    ensures Lower("Total") == "total"
  {
    var lt := Lower("Total");
    assert lt[0] == 't' && lt[1] == 'o' && lt[2] == 't' && lt[3] == 'a' && lt[4] == 'l';
  }

  // ---- the whole page ----

  /** `f"{MONTHS.get(month)}"`: a month outside 1..12 prints as "None". */
  function MonthText(month: int): (s: string)
    ensures 1 <= month <= 12 ==> s == MonthName(month).value
    ensures !(1 <= month <= 12) ==> s == "None"
  {
    match MonthName(month)
    case Some(name) => name
    case None => "None"
  }

  datatype Parsed = Parsed(
    code: string, name: string, month: int, monthName: Option<string>, year: int, period: string,
    columnHeaders: seq<string>, commodities: seq<Commodity>, total: Option<Total>,
    totalHscodes: nat, hasTotal: bool)

  /** `parse_meidb_principal_commodity_wise_all_hscode_html`. */
  function ParsePrincipalHtml(page: Page, code: string, name: string, month: int, year: int)
    : (r: Parsed)
    ensures r.commodities == Commodities(page) && r.total == TotalIn(page)
    ensures r.columnHeaders == MeidbCommodityWise.ColumnHeaders(page)
    ensures r.totalHscodes == |r.commodities|
    ensures r.hasTotal <==> r.total.Some?
    ensures r.monthName.Some? <==> 1 <= month <= 12
    ensures r.period == MonthText(month) + " " + IntToString(year)
  {
    var commodities := Commodities(page);
    var total := TotalIn(page);
    Parsed(code, name, month, MonthName(month), year, MonthText(month) + " " + IntToString(year),
           MeidbCommodityWise.ColumnHeaders(page), commodities, total,
           |commodities|, total.Some?)
  }

  method ParsePrincipal(page: Page, code: string, name: string, month: int, year: int)
    returns (r: Parsed)
    ensures r == ParsePrincipalHtml(page, code, name, month, year)
  {
    var commodities := ExtractCommodities(page);
    var total := ExtractTotal(page);
    r := Parsed(code, name, month, MonthName(month), year, MonthText(month) + " " + IntToString(year),
                MeidbCommodityWise.ColumnHeaders(page), commodities, total,
                |commodities|, total.Some?);
  }
}
