// The monthly (MEIDB) commodity-wise parser: one row per commodity with a
// same-month pair and a cumulative pair of values, each with its growth,
// the India-total row, the first row's headings, and the legacy
// header-zipping parser. The package parser and its library copy differ
// in the number reader, the row filter and the India-total search.
module MeidbCommodityWise {
  import opened Wrappers
  import opened PyStr
  import opened PyNum
  import opened Numbers
  import opened Html
  import opened Scan
  import opened Quality
  import opened TradeRecords
  import CommodityWise

  /** `_parse_number`: the package reader deletes commas and spaces and
      knows "N/A"; the library reader deletes only commas and does not. */
  function Read(b: Build, text: string): Option<real>
  {
    match b
    case Package => ParseNumberSpaceless(text, DashNaSlash)
    case Library => ParseNumberCommaless(text, DashNa)
  }

  /** Both readers give None for the placeholders, "N/A" included: the
      library reader only reaches it through `float()` failing. */
  lemma ReadPlaceholders(b: Build, text: string)
    requires text in ["", "-", "NA", "N/A"]
    ensures Read(b, text).None?
  {
    if b == Library && text == "N/A" {
      Rejected(text);
      RemoveAbsent(text, ',');
    }
  }

  function Lines(b: Build, rows: seq<Row>): (ls: seq<seq<Field>>)
    ensures |ls| == |rows|
    ensures forall i :: 0 <= i < |rows| ==> ls[i] == Fields(Tds(rows[i]), t => Read(b, t))
  {
    ReadRows(rows, t => Read(b, t))
  }

  /** The number in cell k, or None when the row is shorter. */
  function At(fs: seq<Field>, k: nat): (v: Option<real>)
    ensures k >= |fs| ==> v.None?
    ensures k < |fs| ==> v == fs[k].number
  {
    if k < |fs| then fs[k].number else None
  }

  /** The same month in the previous and current year with its growth, and
      the same for the year to date. */
  datatype Monthly = Monthly(
    monthPrev: Option<real>, monthCurr: Option<real>, monthGrowth: Option<real>,
    cumulativePrev: Option<real>, cumulativeCurr: Option<real>, cumulativeGrowth: Option<real>)

  /** Six cells from cell k on, in order, None for each column the row
      lacks. */
  function MonthlyFrom(fs: seq<Field>, k: nat): (m: Monthly)
    ensures [m.monthPrev, m.monthCurr, m.monthGrowth, m.cumulativePrev, m.cumulativeCurr, m.cumulativeGrowth]
            == seq(6, j requires 0 <= j < 6 => At(fs, k + j))
  {
    Monthly(At(fs, k), At(fs, k + 1), At(fs, k + 2), At(fs, k + 3), At(fs, k + 4), At(fs, k + 5))
  }

  /** A commodity row's values are cells 3 to 8. */
  function MonthlyOf(fs: seq<Field>): Monthly
  {
    MonthlyFrom(fs, 3)
  }

  // ---- commodity rows ----

  datatype Commodity = Commodity(sno: nat, hscode: string, commodity: string, values: Monthly)

  /** The package parser wants six cells, no "Total" or "India" in the code
      cell and an all-digit serial; the library copy wants six cells, an
      all-digit serial and no "total" in any case in the code cell. */
  predicate Accepted(b: Build, fs: seq<Field>)
  {
    && |fs| >= 6 && IsDigits(fs[0].text)
    && match b
       case Package => !Find(fs[1].text, "Total") && !Find(fs[1].text, "India")
       case Library => !Find(Lower(fs[1].text), "total")
  }

  function CommodityOf(b: Build, fs: seq<Field>): (r: Option<Commodity>)
    ensures r.Some? <==> Accepted(b, fs)
    ensures r.Some? ==>
      && ParseInt(fs[0].text) == Some(r.value.sno as int)
      && r.value.hscode == fs[1].text && r.value.commodity == fs[2].text
      && r.value.values == MonthlyOf(fs)
  {
    if !Accepted(b, fs) then None
    else
      ParseIntDigits(fs[0].text);
      Some(Commodity(DigitsValue(fs[0].text), fs[1].text, fs[2].text, MonthlyOf(fs)))
  }

  /** `_extract_commodities_data` / `_extract_commodities`. */
  function Commodities(b: Build, page: Page): seq<Commodity>
  {
    match First(page)
    case None => []
    case Some(t) => FilterMap(Lines(b, t.rows), fs => CommodityOf(b, fs))
  }

  method ExtractCommodities(b: Build, page: Page) returns (commodities: seq<Commodity>)
    ensures commodities == Commodities(b, page)
  {
    var table := First(page);
    if table.None? {
      return [];
    }
    commodities := KeepRows(Lines(b, table.value.rows), fs => CommodityOf(b, fs));
  }

  /** Every commodity comes from an accepted row of six cells or more whose
      code cell is the record's code; the library copy keeps no code
      naming "total" in any letter case. */
  lemma CommoditySound(b: Build, page: Page, c: Commodity)
    requires c in Commodities(b, page)
    ensures exists i :: 0 <= i < |First(page).value.rows| &&
                        var ts := Tds(First(page).value.rows[i]);
                        && |ts| >= 6 && ParseInt(ts[0]) == Some(c.sno as int) && ts[1] == c.hscode
    ensures b == Library ==> !Contains(Lower(c.hscode), "total")
    ensures b == Package ==> !Contains(c.hscode, "Total") && !Contains(c.hscode, "India")
  {
    var rows := First(page).value.rows;
    FilterMapSound(Lines(b, rows), fs => CommodityOf(b, fs), c);
    var i :| 0 <= i < |rows| && CommodityOf(b, Lines(b, rows)[i]) == Some(c);
    assert Lines(b, rows)[i] == Fields(Tds(rows[i]), t => Read(b, t));
  }

  /** Every accepted row of the first table yields its record. */
  lemma CommodityComplete(b: Build, page: Page, i: nat)
    requires First(page).Some? && i < |First(page).value.rows|
    requires Accepted(b, Lines(b, First(page).value.rows)[i])
    ensures CommodityOf(b, Lines(b, First(page).value.rows)[i]).value in Commodities(b, page)
  {
    FilterMapComplete(Lines(b, First(page).value.rows), fs => CommodityOf(b, fs), i);
  }

  // ---- the India-total row ----

  /** What the India-total search needs of a row: its cells and which of
      the two markings its text carries. */
  datatype TotalLine = TotalLine(fields: seq<Field>, indiasTotal: bool, indiaAndTotal: bool)

  function LineOf(b: Build, row: Row): (l: TotalLine)
    ensures l.fields == Fields(Tds(row), t => Read(b, t))
    ensures l.indiasTotal <==> Contains(row.text, "India's Total") || Contains(row.text, "India Total")
    ensures l.indiaAndTotal <==> Contains(row.text, "India") && Contains(row.text, "Total")
  {
    TotalLine(Fields(Tds(row), t => Read(b, t)),
              Find(row.text, "India's Total") || Find(row.text, "India Total"),
              Find(row.text, "India") && Find(row.text, "Total"))
  }

  function TotalLines(b: Build, rows: seq<Row>): (ls: seq<TotalLine>)
    ensures |ls| == |rows|
    ensures forall i :: 0 <= i < |rows| ==> ls[i] == LineOf(b, rows[i])
  {
    seq(|rows|, i requires 0 <= i < |rows| => LineOf(b, rows[i]))
  }

  /** The package parser takes a row of four cells or more naming "India's
      Total" or "India Total"; the library copy a row of six cells or more
      naming both "India" and "Total". Either way cells 3 to 8 are read. */
  function IndiaTotalOf(b: Build, l: TotalLine): (r: Option<Monthly>)
    ensures r.Some? <==> match b
                         case Package => |l.fields| >= 4 && l.indiasTotal
                         case Library => |l.fields| >= 6 && l.indiaAndTotal
    ensures r.Some? ==> r.value == MonthlyOf(l.fields)
  {
    var marked := match b
                  case Package => |l.fields| >= 4 && l.indiasTotal
                  case Library => |l.fields| >= 6 && l.indiaAndTotal;
    if marked then Some(MonthlyOf(l.fields)) else None
  }

  /** `_extract_india_total`: the first qualifying row of the first table. */
  function IndiaTotalIn(b: Build, page: Page): Option<Monthly>
  {
    match First(page)
    case None => None
    case Some(t) => FirstMatch(TotalLines(b, t.rows), l => IndiaTotalOf(b, l))
  }

  method ExtractIndiaTotal(b: Build, page: Page) returns (r: Option<Monthly>)
    ensures r == IndiaTotalIn(b, page)
  {
    var table := First(page);
    if table.None? {
      return None;
    }
    r := FindFirst(TotalLines(b, table.value.rows), l => IndiaTotalOf(b, l));
  }

  /** In the library copy a marked row that is too short is passed over:
      the India total comes from a later row of six cells or more. */
  lemma ShortMarkedRowPassedOver(page: Page, i: nat)
    requires First(page).Some? && i < |First(page).value.rows|
    requires var l := LineOf(Library, First(page).value.rows[i]);
             l.indiaAndTotal && |l.fields| < 6
    requires IndiaTotalIn(Library, page).Some?
    ensures exists j :: 0 <= j < |First(page).value.rows| && j != i &&
                        var l := LineOf(Library, First(page).value.rows[j]);
                        && l.indiaAndTotal && |l.fields| >= 6
                        && IndiaTotalIn(Library, page) == Some(MonthlyOf(l.fields))
  {
    var rows := First(page).value.rows;
    var ls := TotalLines(Library, rows);
    var j :| 0 <= j < |ls| && IndiaTotalOf(Library, ls[j]) == IndiaTotalIn(Library, page);
    var l := ls[j];
    assert l == LineOf(Library, rows[j]);
    assert IndiaTotalOf(Library, l).Some?;
    assert l.indiaAndTotal && |l.fields| >= 6;
    assert IndiaTotalIn(Library, page) == Some(MonthlyOf(l.fields));
    assert j != i;
  }

  // ---- headings of the first row ----

  /** `_extract_column_headers`: the `th` and `td` texts of the first
      table's first row, or none. */
  function ColumnHeaders(page: Page): (hs: seq<string>)
    ensures First(page).None? || First(page).value.rows == [] ==> hs == []
    ensures First(page).Some? && First(page).value.rows != [] ==>
              |hs| == |First(page).value.rows[0].cells|
              && forall k :: 0 <= k < |hs| ==> hs[k] == Strip(First(page).value.rows[0].cells[k].raw)
  {
    match First(page)
    case None => []
    case Some(t) => if t.rows == [] then [] else AllCells(t.rows[0])
  }

  // ---- the whole page ----

  predicate HasCurrentMonth(c: Commodity)
  {
    c.values.monthCurr.Some?
  }

  datatype Parsed = Parsed(
    hscode: string, digitLevel: int, month: int, monthName: string, year: int, period: string,
    columnHeaders: seq<string>, commodities: seq<Commodity>, indiaTotal: Option<Monthly>,
    quality: Report, status: string, checksum: string)

  /** `parse_meidb_commodity_wise_html`. The MD5 digest of the commodities
      and the India total is the function `checksum`. An "all_" code whose
      level `int()` rejects raises inside the handler, which returns None. */
  function ParseMeidbCommodityWiseHtml(page: Page, hscode: string, month: int, year: int,
                                       checksum: (seq<Commodity>, Option<Monthly>) -> string)
    : (r: Option<Parsed>)
    ensures r.None? <==> CommodityWise.DigitLevel(hscode).None?
    ensures r.Some? ==>
      && r.value.commodities == Commodities(Package, page)
      && r.value.indiaTotal == IndiaTotalIn(Package, page)
      && r.value.columnHeaders == ColumnHeaders(page)
      && r.value.monthName == MonthLabel(month)
      && r.value.period == MonthLabel(month) + " " + IntToString(year)
      && r.value.quality == Assess(r.value.commodities, HasCurrentMonth)
      && (r.value.status == "SUCCESS" <==> |r.value.commodities| > 0)
      && r.value.checksum == checksum(r.value.commodities, r.value.indiaTotal)
  {
    match CommodityWise.DigitLevel(hscode)
    case None => None
    case Some(level) =>
      var commodities := Commodities(Package, page);
      var india := IndiaTotalIn(Package, page);
      var name := MonthLabel(month);
      Some(Parsed(hscode, level, month, name, year, name + " " + IntToString(year),
                  ColumnHeaders(page), commodities, india,
                  Assess(commodities, HasCurrentMonth),
                  if |commodities| > 0 then "SUCCESS" else "NO_DATA",
                  checksum(commodities, india)))
  }

  method ParseMeidbCommodityWise(page: Page, hscode: string, month: int, year: int,
                                 checksum: (seq<Commodity>, Option<Monthly>) -> string)
    returns (r: Option<Parsed>)
    ensures r == ParseMeidbCommodityWiseHtml(page, hscode, month, year, checksum)
  {
    var level := CommodityWise.DigitLevel(hscode);
    if level.None? {
      return None;
    }
    var commodities := ExtractCommodities(Package, page);
    var india := ExtractIndiaTotal(Package, page);
    var name := MonthLabel(month);
    var status := if |commodities| > 0 then "SUCCESS" else "NO_DATA";
    r := Some(Parsed(hscode, level.value, month, name, year, name + " " + IntToString(year),
                     ColumnHeaders(page), commodities, india,
                     Assess(commodities, HasCurrentMonth), status, checksum(commodities, india)));
  }

  datatype LibParsed = LibParsed(
    hscode: string, digitLevel: nat, month: int, monthName: Option<string>, year: int,
    commodities: seq<Commodity>, indiaTotal: Option<Monthly>, totalRecords: nat)

  /** The library `parse_commodity_response`: the level is the code's
      length and the month name is None outside 1 to 12. */
  function ParseCommodityResponse(page: Page, hscode: string, month: int, year: int): (r: LibParsed)
    ensures r.digitLevel == |hscode| && r.totalRecords == |r.commodities|
    ensures r.commodities == Commodities(Library, page) && r.indiaTotal == IndiaTotalIn(Library, page)
    ensures r.monthName.Some? <==> 1 <= month <= 12
  {
    var commodities := Commodities(Library, page);
    LibParsed(hscode, |hscode|, month, MonthName(month), year,
              commodities, IndiaTotalIn(Library, page), |commodities|)
  }

  // ---- the legacy parser ----

  /** `dict(zip(headers, cells))` for lists of equal length: a later
      heading overwrites an earlier one of the same text. */
  function Zip(headers: seq<string>, cells: seq<string>): (m: map<string, string>)
    requires |headers| == |cells|
    ensures m.Keys == set h | h in headers
    decreases |headers|
  {
    if headers == [] then map[]
    else
      var n := |headers| - 1;
      var m := Zip(headers[..n], cells[..n]);
      assert forall h :: h in headers <==> h in headers[..n] || h == headers[n];
      m[headers[n] := cells[n]]
  }

  /** Each heading maps to the cell under its last occurrence. */
  lemma {:induction false} ZipLastWins(headers: seq<string>, cells: seq<string>, i: nat)
    requires |headers| == |cells| && i < |headers|
    requires forall j :: i < j < |headers| ==> headers[j] != headers[i]
    ensures Zip(headers, cells)[headers[i]] == cells[i]
    decreases |headers|
  {
    var n := |headers| - 1;
    if i < n {
      ZipLastWins(headers[..n], cells[..n], i);
    }
  }

  function DictOf(headers: seq<string>, cells: seq<string>): Option<map<string, string>>
  {
    if cells == [] || |cells| != |headers| then None else Some(Zip(headers, cells))
  }

  /** The `td` texts of every `tr` after the first. */
  function LaterCells(rows: seq<Row>): (cs: seq<seq<string>>)
    ensures |cs| == (if rows == [] then 0 else |rows| - 1)
  {
    if rows == [] then [] else TdsOf(rows[1..])
  }

  /** The `td` texts of each of the given `tr`s. */
  function TdsOf(rows: seq<Row>): (cs: seq<seq<string>>)
    ensures |cs| == |rows|
  {
    seq(|rows|, i requires 0 <= i < |rows| => Tds(rows[i]))
  }

  lemma LaterCellsAt(rows: seq<Row>, i: nat)
    requires i < |LaterCells(rows)|
    ensures LaterCells(rows)[i] == Tds(rows[i + 1])
  {
    var later := rows[1..];
    assert LaterCells(rows) == TdsOf(later);
    assert later[i] == rows[i + 1];
  }

  /** The loop body of the legacy parser for the given headings. */
  function LegacyDict(headers: seq<string>): seq<string> -> Option<map<string, string>>
  {
    cells => DictOf(headers, cells)
  }

  /** The legacy `parse_commodity_wise_html`: ValueError without a table;
      otherwise every `tr` after the first whose `td` count is the number of
      `th` headings, zipped with them. */
  function LegacyRows(page: Page): (r: Result<seq<map<string, string>>>)
    ensures First(page).None? <==> r.Failure?
    ensures r.Failure? ==> r.error.ValueError?
  {
    match First(page)
    case None => Failure(ValueError("No data table found in response"))
    case Some(t) =>
      var headers := HeaderTexts(t.rows);
      Success(FilterMap(LaterCells(t.rows), LegacyDict(headers)))
  }

  /** A `tr` the legacy parser keeps: it has cells, as many as headings. */
  predicate LegacyKept(headers: seq<string>, row: Row)
  {
    Tds(row) != [] && |Tds(row)| == |headers|
  }

  /** The positions, counted from the `tr` after the first, of the `tr`s
      the legacy parser keeps. */
  function LaterKept(rows: seq<Row>): set<int>
  {
    set i | 0 <= i < |rows| && KeptAfterFirst(rows, i)
  }

  /** Whether the `i`-th `tr` after the first is kept. */
  predicate KeptAfterFirst(rows: seq<Row>, i: int)
  {
    0 <= i < |rows| - 1 && LegacyKept(HeaderTexts(rows), rows[i + 1])
  }

  /** Every legacy row has exactly the headings as its keys, and there is
      one per kept `tr` after the first. */
  lemma LegacyRowsKeys(page: Page)
    requires LegacyRows(page).Success?
    ensures var t := First(page).value;
      && |LegacyRows(page).value| == |LaterKept(t.rows)|
      && forall d :: d in LegacyRows(page).value ==> d.Keys == set h | h in HeaderTexts(t.rows)
  {
    var t := First(page).value;
    var headers := HeaderTexts(t.rows);
    var cs := LaterCells(t.rows);
    var f := LegacyDict(headers);
    assert LegacyRows(page) == Success(FilterMap(cs, f));
    forall d: map<string, string> | d in FilterMap(cs, f)
      ensures d.Keys == set h | h in headers
    {
      FilterMapSound(cs, f, d);
      var j :| 0 <= j < |cs| && f(cs[j]) == Some(d);
      assert DictOf(headers, cs[j]) == Some(d);
    }
    LegacyCount(t.rows);
  }

  /** The legacy parser keeps one row per kept `tr` after the first. */
  lemma LegacyCount(rows: seq<Row>)
    ensures |FilterMap(LaterCells(rows), LegacyDict(HeaderTexts(rows)))|
            == |LaterKept(rows)|
  {
    var cs := LaterCells(rows);
    var f := LegacyDict(HeaderTexts(rows));
    FilterMapCount(cs, f);
    forall i
      ensures i in Yielding(cs, f) <==> i in LaterKept(rows)
    {
      if 0 <= i < |cs| {
        LaterCellsAt(rows, i);
      }
    }
    assert Yielding(cs, f) == LaterKept(rows);
  }

  /** Every legacy row is the headings zipped with a kept `tr` after the
      first. */
  lemma LegacyRowSound(page: Page, d: map<string, string>)
    requires LegacyRows(page).Success? && d in LegacyRows(page).value
    ensures var t := First(page).value;
      exists i :: 1 <= i < |t.rows| && LegacyKept(HeaderTexts(t.rows), t.rows[i])
                  && d == Zip(HeaderTexts(t.rows), Tds(t.rows[i]))
  {
    var t := First(page).value;
    var headers := HeaderTexts(t.rows);
    var cs := LaterCells(t.rows);
    FilterMapSound(cs, LegacyDict(headers), d);
    var i :| 0 <= i < |cs| && LegacyDict(headers)(cs[i]) == Some(d);
    LaterCellsAt(t.rows, i);
  }

  /** Every kept `tr` after the first gives its zipped row. */
  lemma LegacyRowComplete(page: Page, i: nat)
    requires First(page).Some?
    requires var t := First(page).value;
      1 <= i < |t.rows| && LegacyKept(HeaderTexts(t.rows), t.rows[i])
    ensures var t := First(page).value;
      Zip(HeaderTexts(t.rows), Tds(t.rows[i])) in LegacyRows(page).value
  {
    var t := First(page).value;
    var headers := HeaderTexts(t.rows);
    var cs := LaterCells(t.rows);
    LaterCellsAt(t.rows, i - 1);
    assert LegacyRows(page) == Success(FilterMap(cs, LegacyDict(headers)));
    assert LegacyDict(headers)(cs[i - 1]) == Some(Zip(headers, Tds(t.rows[i])));
    FilterMapComplete(cs, LegacyDict(headers), i - 1);
  }
}
