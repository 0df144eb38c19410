// The commodity-wise parser: one row per commodity under an HS code, the
// India-total row, the two year-range column headings, and the data-quality
// block. The package parser and its library copy are the same program
// apart from the number reader and the India-total row's cell minimum, so
// both are modelled here with a `Build` switch.
module CommodityWise {
  import opened Wrappers
  import opened PyStr
  import opened PyNum
  import opened Numbers
  import opened Html
  import opened Scan
  import opened Quality
  import opened TradeRecords

  /** `_parse_number`: the package reader deletes commas and spaces, the
      library reader only commas. */
  function Read(b: Build, text: string): Option<real>
  {
    match b
    case Package => ParseNumberSpaceless(text, DashNaSlash)
    case Library => ParseNumberCommaless(text, DashNaSlash)
  }

  /** Both readers turn every placeholder into None, and neither raises. */
  lemma ReadPlaceholders(b: Build, text: string)
    requires text in ["", "-", "NA", "N/A"]
    ensures Read(b, text).None?
  {
  }

  /** Digits grouped with a space are one number to the package reader and
      no number to the library reader. */
  lemma ReadSpacedDigits(a: string, c: string)
    requires IsDigits(a) && IsDigits(c)
    ensures Read(Package, a + " " + c).Some? && Read(Library, a + " " + c).None?
  {
    InnerSpaces(a, c);
  }

  function Lines(b: Build, rows: seq<Row>): (ls: seq<seq<Field>>)
    ensures |ls| == |rows|
    ensures forall i :: 0 <= i < |rows| ==> ls[i] == Fields(Tds(rows[i]), t => Read(b, t))
  {
    ReadRows(rows, t => Read(b, t))
  }

  // ---- commodity rows ----

  datatype Commodity = Commodity(
    sno: nat, hscode: string, commodity: string,
    prevValue: Option<real>, prevShare: Option<real>,
    currValue: Option<real>, currShare: Option<real>,
    growth: Option<real>)

  /** A commodity row has seven cells or more, no "Total" or "India" in its
      code cell, and an all-digit serial. */
  predicate Accepted(fs: seq<Field>)
  {
    |fs| >= 7 && !Find(fs[1].text, "Total") && !Find(fs[1].text, "India") && IsDigits(fs[0].text)
  }

  function CommodityOf(fs: seq<Field>): (r: Option<Commodity>)
    ensures r.Some? <==> Accepted(fs)
    ensures r.Some? ==>
      && ParseInt(fs[0].text) == Some(r.value.sno as int)
      && r.value.hscode == fs[1].text && r.value.commodity == fs[2].text
      && [r.value.prevValue, r.value.prevShare, r.value.currValue, r.value.currShare]
           == [fs[3].number, fs[4].number, fs[5].number, fs[6].number]
      && (|fs| == 7 ==> r.value.growth.None?)
      && (|fs| > 7 ==> r.value.growth == fs[7].number)
  {
    if !Accepted(fs) then None
    else
      ParseIntDigits(fs[0].text);
      Some(Commodity(DigitsValue(fs[0].text), fs[1].text, fs[2].text,
                     fs[3].number, fs[4].number, fs[5].number, fs[6].number,
                     if |fs| > 7 then fs[7].number else None))
  }

  /** `_extract_commodities_data`: every `tr` of the first table. */
  function Commodities(b: Build, page: Page): seq<Commodity>
  {
    match First(page)
    case None => []
    case Some(t) => FilterMap(Lines(b, t.rows), CommodityOf)
  }

  method ExtractCommodities(b: Build, page: Page) returns (commodities: seq<Commodity>)
    ensures commodities == Commodities(b, page)
  {
    var table := First(page);
    if table.None? {
      return [];
    }
    commodities := KeepRows(Lines(b, table.value.rows), CommodityOf);
  }

  /** Every commodity comes from a row of the first table with seven cells
      or more, whose serial `int()` reads as the record's serial and whose
      code cell names neither "Total" nor "India". */
  lemma CommoditySound(b: Build, page: Page, c: Commodity)
    requires c in Commodities(b, page)
    ensures exists i :: 0 <= i < |First(page).value.rows| &&
                        var ts := Tds(First(page).value.rows[i]);
                        && |ts| >= 7 && ParseInt(ts[0]) == Some(c.sno as int) && ts[1] == c.hscode
                        && !Contains(c.hscode, "Total") && !Contains(c.hscode, "India")
  {
    var rows := First(page).value.rows;
    FilterMapSound(Lines(b, rows), CommodityOf, c);
    var i :| 0 <= i < |rows| && CommodityOf(Lines(b, rows)[i]) == Some(c);
    assert Lines(b, rows)[i] == Fields(Tds(rows[i]), t => Read(b, t));
  }

  /** Every accepted row of the first table yields its record. */
  lemma CommodityComplete(b: Build, page: Page, i: nat)
    requires First(page).Some? && i < |First(page).value.rows|
    requires Accepted(Lines(b, First(page).value.rows)[i])
    ensures CommodityOf(Lines(b, First(page).value.rows)[i]).value in Commodities(b, page)
  {
    FilterMapComplete(Lines(b, First(page).value.rows), CommodityOf, i);
  }

  // ---- the India-total row ----

  datatype IndiaTotal = IndiaTotal(prevValue: real, currValue: real, growth: Option<real>)

  /** What the India-total search needs of a row: its `td` count, whether
      its text names India's total, and the numbers among its cells. */
  datatype TotalLine = TotalLine(cells: nat, marked: bool, values: seq<real>)

  function LineOf(b: Build, row: Row): (l: TotalLine)
    ensures l.cells == |Tds(row)|
    ensures l.marked <==> Contains(row.text, "India's Total") || Contains(row.text, "India Total")
    ensures l.values == FilterMap(Fields(Tds(row), t => Read(b, t)), Number)
  {
    TotalLine(|Tds(row)|, Find(row.text, "India's Total") || Find(row.text, "India Total"),
              FilterMap(Fields(Tds(row), t => Read(b, t)), Number))
  }

  function TotalLines(b: Build, rows: seq<Row>): (ls: seq<TotalLine>)
    ensures |ls| == |rows|
    ensures forall i :: 0 <= i < |rows| ==> ls[i] == LineOf(b, rows[i])
  {
    seq(|rows|, i requires 0 <= i < |rows| => LineOf(b, rows[i]))
  }

  /** The package parser passes over rows of fewer than four cells; the
      library copy has no cell minimum. */
  function MinTotalCells(b: Build): nat
  {
    match b
    case Package => 4
    case Library => 0
  }

  /** A marked row with two numbers or more: the first three numbers, in
      cell order, are the previous value, the current value and growth. */
  function IndiaTotalOf(b: Build, l: TotalLine): (r: Option<IndiaTotal>)
    ensures r.Some? <==> l.cells >= MinTotalCells(b) && l.marked && |l.values| >= 2
    ensures r.Some? ==> r.value.prevValue == l.values[0] && r.value.currValue == l.values[1]
                        && (r.value.growth.Some? <==> |l.values| >= 3)
                        && (r.value.growth.Some? ==> r.value.growth.value == l.values[2])
  {
    if l.cells < MinTotalCells(b) || !l.marked || |l.values| < 2 then None
    else Some(IndiaTotal(l.values[0], l.values[1], if |l.values| > 2 then Some(l.values[2]) else None))
  }

  /** `_extract_india_total`: the first qualifying row of the first table. */
  function IndiaTotalIn(b: Build, page: Page): Option<IndiaTotal>
  {
    match First(page)
    case None => None
    case Some(t) => FirstMatch(TotalLines(b, t.rows), l => IndiaTotalOf(b, l))
  }

  method ExtractIndiaTotal(b: Build, page: Page) returns (r: Option<IndiaTotal>)
    ensures r == IndiaTotalIn(b, page)
  {
    var table := First(page);
    if table.None? {
      return None;
    }
    r := FindFirst(TotalLines(b, table.value.rows), l => IndiaTotalOf(b, l));
  }

  /** The India total's previous value is the first number among the cells
      of the first qualifying row, and no earlier row qualifies. */
  lemma IndiaTotalFirstRow(b: Build, page: Page)
    requires IndiaTotalIn(b, page).Some?
    ensures exists i :: 0 <= i < |First(page).value.rows| &&
                        var row := First(page).value.rows[i];
                        && IndiaTotalOf(b, LineOf(b, row)) == IndiaTotalIn(b, page)
                        && Some(IndiaTotalIn(b, page).value.prevValue)
                             == FirstMatch(Fields(Tds(row), t => Read(b, t)), Number)
                        && forall j :: 0 <= j < i ==> IndiaTotalOf(b, LineOf(b, First(page).value.rows[j])).None?
  {
    var rows := First(page).value.rows;
    var ls := TotalLines(b, rows);
    var i := FirstMatchIndex(ls, l => IndiaTotalOf(b, l));
    assert ls[i] == LineOf(b, rows[i]);
    RowTotalFirstNumber(b, rows[i]);
    assert forall j :: 0 <= j < i ==> IndiaTotalOf(b, LineOf(b, rows[j])).None? by {
      forall j | 0 <= j < i ensures IndiaTotalOf(b, LineOf(b, rows[j])).None? {
        assert ls[j] == LineOf(b, rows[j]);
      }
    }
  }

  /** A qualifying row's previous value is the first number among its
      cells. */
  lemma RowTotalFirstNumber(b: Build, row: Row)
    requires IndiaTotalOf(b, LineOf(b, row)).Some?
    ensures Some(IndiaTotalOf(b, LineOf(b, row)).value.prevValue)
            == FirstMatch(Fields(Tds(row), t => Read(b, t)), Number)
  {
    FilterMapFirst(Fields(Tds(row), t => Read(b, t)), Number);
  }

  // ---- year-range column headings ----

  /** `re.match(r'\d{4}\s*-\s*\d{4}', text)`: the text starts with four
      digits, optional whitespace, a dash, optional whitespace and four
      digits. */
  predicate YearRangeAt(text: string)
  {
    && |text| >= 4 && IsDigits(text[..4])
    && var a := LStrip(text[4..]);
    && |a| >= 1 && a[0] == '-'
    && var c := LStrip(a[1..]);
    && |c| >= 4 && IsDigits(c[..4])
  }

  /** A `th` text and whether it starts with a year range. */
  datatype Heading = Heading(text: string, isRange: bool)

  function Headings(texts: seq<string>): (hs: seq<Heading>)
    ensures |hs| == |texts|
    ensures forall i :: 0 <= i < |texts| ==> hs[i] == Heading(texts[i], YearRangeAt(texts[i]))
  {
    seq(|texts|, i requires 0 <= i < |texts| => Heading(texts[i], YearRangeAt(texts[i])))
  }

  function YearText(h: Heading): Option<string>
  {
    if h.isRange then Some(h.text) else None
  }

  datatype YearColumns = YearColumns(prevYear: Option<string>, currYear: Option<string>)

  /** The first year-range heading is the previous year; the last of any
      later ones is the current year. */
  function YearColumnsOf(hs: seq<Heading>): (yc: YearColumns)
    ensures yc.prevYear == FirstMatch(hs, YearText)
    ensures yc.currYear.Some? <==> |FilterMap(hs, YearText)| >= 2
    ensures yc.currYear.Some? ==> yc.currYear == LastMatch(hs, YearText)
  {
    var ms := FilterMap(hs, YearText);
    FilterMapFirst(hs, YearText);
    FilterMapLast(hs, YearText);
    YearColumns(if |ms| >= 1 then Some(ms[0]) else None,
                if |ms| >= 2 then Some(ms[|ms| - 1]) else None)
  }

  /** `_extract_year_columns`: the `th` cells of the first table. */
  function YearColumnsIn(page: Page): YearColumns
  {
    match First(page)
    case None => YearColumns(None, None)
    case Some(t) => YearColumnsOf(Headings(HeaderTexts(t.rows)))
  }

  method ExtractYearColumns(page: Page) returns (yc: YearColumns)
    ensures yc == YearColumnsIn(page)
  {
    var table := First(page);
    if table.None? {
      return YearColumns(None, None);
    }
    yc := ScanYearColumns(Headings(HeaderTexts(table.value.rows)));
  }

  /** The heading loop: a range fills the previous year first and then
      overwrites the current year. */
  method ScanYearColumns(hs: seq<Heading>) returns (yc: YearColumns)
    ensures yc == YearColumnsOf(hs)
  {
    yc := YearColumns(None, None);
    for i := 0 to |hs|
      invariant yc == YearColumnsOf(hs[..i])
    {
      YearColumnsStep(hs, i);
      if hs[i].isRange {
        if yc.prevYear.None? {
          yc := yc.(prevYear := Some(hs[i].text));
        } else {
          yc := yc.(currYear := Some(hs[i].text));
        }
      }
    }
    assert hs[..|hs|] == hs;
  }

  /** One more heading: a range fills the previous year first and then
      overwrites the current year. */
  lemma YearColumnsStep(hs: seq<Heading>, i: nat)
    requires i < |hs|
    ensures var yc := YearColumnsOf(hs[..i]);
      YearColumnsOf(hs[..i + 1])
        == if !hs[i].isRange then yc
           else if yc.prevYear.None? then yc.(prevYear := Some(hs[i].text))
           else yc.(currYear := Some(hs[i].text))
  {
    assert hs[..i + 1] == hs[..i] + [hs[i]];
    FilterMapAppend(hs[..i], [hs[i]], YearText);
    assert [hs[i]][..0] == [];
  }

  // ---- digit level ----

  /** `len(hscode)`, or N for a code "all_Ndigit"; None where `int()`
      raises on what is left. */
  function DigitLevel(hscode: string): (r: Option<int>)
    ensures !StartsWith(hscode, "all_") ==> r == Some(|hscode|)
  {
    if !StartsWith(hscode, "all_") then Some(|hscode|)
    else
      assert hscode[3] == '_';
      ParseInt(ReplaceAll(SplitOn(hscode, '_')[1], "digit", ""))
  }

  /** The "all" codes name their level: "all_8digit" is level 8. */
  lemma DigitLevelAll(n: nat)
    ensures DigitLevel("all_" + IntToString(n) + "digit") == Some(n)
  {
    var d := IntToString(n);
    var s := "all_" + d + "digit";
    assert s[..4] == "all_";
    assert '_' !in d;
    var tail := d + "digit";
    assert s == "all" + "_" + tail;
    assert '_' !in tail;
    assert IndexOf(s, '_') == 3 by {
      assert s[..3] == "all";
    }
    assert s[4..] == tail;
    assert SplitOn(s, '_')[1] == tail;
    assert 'd' !in d;
    ReplaceAllSuffix(d, "digit", "");
    assert d + "" == d;
    ParseIntString(n);
  }

  // ---- the whole page ----

  predicate HasCurrentValue(c: Commodity)
  {
    c.currValue.Some?
  }

  datatype Parsed = Parsed(
    hscode: string, year: string, digitLevel: int, fiscalRange: string,
    yearColumns: YearColumns, commodities: seq<Commodity>, indiaTotal: Option<IndiaTotal>,
    quality: Report, status: string, checksum: string)

  /** `parse_commodity_wise_html`. The MD5 digest of the commodities and the
      India total is the function `checksum`. A digit level or a year that
      `int()` rejects raises inside the handler, which returns None. */
  function ParseCommodityWiseHtml(b: Build, page: Page, hscode: string, year: string,
                                  checksum: (seq<Commodity>, Option<IndiaTotal>) -> string)
    : (r: Option<Parsed>)
    ensures r.None? <==> DigitLevel(hscode).None? || ParseInt(year).None?
    ensures r.Some? ==>
      && r.value.commodities == Commodities(b, page)
      && r.value.indiaTotal == IndiaTotalIn(b, page)
      && r.value.yearColumns == YearColumnsIn(page)
      && r.value.quality == Assess(r.value.commodities, HasCurrentValue)
      && (r.value.status == "SUCCESS" <==> |r.value.commodities| > 0)
      && r.value.checksum == checksum(r.value.commodities, r.value.indiaTotal)
  {
    match (DigitLevel(hscode), FiscalRange(year))
    case (Some(level), Some(range)) =>
      var commodities := Commodities(b, page);
      var india := IndiaTotalIn(b, page);
      Some(Parsed(hscode, year, level, range, YearColumnsIn(page), commodities, india,
                  Assess(commodities, HasCurrentValue),
                  if |commodities| > 0 then "SUCCESS" else "NO_DATA",
                  checksum(commodities, india)))
    case _ => None
  }

  method ParseCommodityWise(b: Build, page: Page, hscode: string, year: string,
                            checksum: (seq<Commodity>, Option<IndiaTotal>) -> string)
    returns (r: Option<Parsed>)
    ensures r == ParseCommodityWiseHtml(b, page, hscode, year, checksum)
  {
    var level := DigitLevel(hscode);
    var range := FiscalRange(year);
    if level.None? || range.None? {
      return None;
    }
    var commodities := ExtractCommodities(b, page);
    var india := ExtractIndiaTotal(b, page);
    var columns := ExtractYearColumns(page);
    var status := if |commodities| > 0 then "SUCCESS" else "NO_DATA";
    r := Some(Parsed(hscode, year, level.value, range.value, columns, commodities, india,
                     Assess(commodities, HasCurrentValue), status, checksum(commodities, india)));
  }
}
