// The commodity-by-country timeseries (EIDB) parser of the package: year
// columns come from the first heading row, labelled data rows fill a small
// table of series keyed by what their label names, and the series are then
// pivoted into one record per year.
module Timeseries {
  import opened Wrappers
  import opened PyStr
  import opened PyNum
  import opened Html
  import opened Scan
  import opened Numbers
  import opened TradeRecords
  import CommodityWise

  /** `parse_numeric`: symbols removed, non-breaking spaces made spaces,
      then the placeholders. */
  function Numeric(text: string): Option<real>
  {
    ParseNumericSymbols(text, SymbolPlaceholders, true)
  }

  // ---- year columns ----

  /** The `th` texts of a row with three or more of them. */
  function HeadingRow(row: Row): (r: Option<seq<string>>)
    ensures r.Some? <==> |Ths(row)| >= 3
    ensures r.Some? ==> r.value == Ths(row)
  {
    if |Ths(row)| >= 3 then Some(Ths(row)) else None
  }

  /** A heading that starts with a year range, with every space removed. */
  function YearOf(h: CommodityWise.Heading): (y: Option<string>)
    ensures y.Some? <==> h.isRange
    ensures y.Some? ==> y.value == Remove(h.text, ' ')
  {
    if h.isRange then Some(Remove(h.text, ' ')) else None
  }

  /** The years: the year-range headings of the first row with three or
      more `th` cells, in column order; later heading rows are ignored. */
  function Years(rows: seq<Row>): seq<string>
  {
    match FirstMatch(rows, HeadingRow)
    case None => []
    case Some(ths) => FilterMap(CommodityWise.Headings(ths), YearOf)
  }

  /** The header loop: the first qualifying row is read and the loop
      breaks. */
  method ExtractYears(rows: seq<Row>) returns (years: seq<string>)
    ensures years == Years(rows)
  {
    var ths := FindFirst(rows, HeadingRow);
    years := [];
    if ths.None? {
      return;
    }
    years := KeepRows(CommodityWise.Headings(ths.value), YearOf);
  }

  /** Every year is a year-range heading of the first heading row with its
      spaces removed, so it holds no space. */
  lemma YearsSound(rows: seq<Row>, y: string)
    requires y in Years(rows)
    ensures ' ' !in y
    ensures exists ths :: FirstMatch(rows, HeadingRow) == Some(ths) &&
                          exists t :: t in ths && CommodityWise.YearRangeAt(t) && Remove(t, ' ') == y
  {
    var ths := FirstMatch(rows, HeadingRow).value;
    var hs := CommodityWise.Headings(ths);
    FilterMapSound(hs, YearOf, y);
    var i :| 0 <= i < |hs| && YearOf(hs[i]) == Some(y);
    assert ths[i] in ths;
  }

  // ---- labelled data rows ----

  /** What a row's label (its second `td`) names. */
  datatype Label =
    | Info              // "Country:" or "HSCODE:": the header information row
    | ValuesLabel       // "Values in"
    | Growth            // "%Growth"
    | CommodityTotal    // "Total export of commodity" / "Total import of commodity"
    | CountryTotal      // "Total export to country" / "Total import from country"
    | CountryShare      // "%Share of country"
    | CommodityShare    // "%Share of commodity"
    | Unlabelled

  /** The label tests in the order the parser makes them. */
  function LabelOf(text: string): (l: Label)
    ensures l == Info <==> Contains(text, "Country:") || Contains(text, "HSCODE:")
    ensures l == ValuesLabel ==> Contains(text, "Values in")
    ensures l == Growth ==> Contains(text, "%Growth") && !Contains(text, "Values in")
    ensures l == CommodityTotal ==>
      Contains(text, "Total export of commodity") || Contains(text, "Total import of commodity")
    ensures l == CountryTotal ==>
      Contains(text, "Total export to country") || Contains(text, "Total import from country")
    ensures l == CountryShare ==> Contains(text, "%Share of country")
    ensures l == CommodityShare ==> Contains(text, "%Share of commodity")
    ensures l == Unlabelled ==>
      && !Contains(text, "Values in") && !Contains(text, "%Growth")
      && !Contains(text, "Total export of commodity") && !Contains(text, "Total import of commodity")
      && !Contains(text, "Total export to country") && !Contains(text, "Total import from country")
      && !Contains(text, "%Share of country") && !Contains(text, "%Share of commodity")
  {
    if Find(text, "Country:") || Find(text, "HSCODE:") then Info
    else if Find(text, "Values in") then ValuesLabel
    else if Find(text, "%Growth") then Growth
    else if Find(text, "Total export of commodity") || Find(text, "Total import of commodity") then CommodityTotal
    else if Find(text, "Total export to country") || Find(text, "Total import from country") then CountryTotal
    else if Find(text, "%Share of country") then CountryShare
    else if Find(text, "%Share of commodity") then CommodityShare
    else Unlabelled
  }

  /** A data row: its label and the readings of its cells from the third
      on. A row of fewer than three `td` cells is not a data row. */
  datatype Line = Line(kind: Label, values: seq<Option<real>>)

  function LineOf(row: Row): (l: Line)
    ensures |Tds(row)| < 3 ==> l.kind == Unlabelled
    ensures |Tds(row)| >= 3 ==>
      && l.kind == LabelOf(Tds(row)[1])
      && |l.values| == |Tds(row)| - 2
      && forall k :: 0 <= k < |l.values| ==> l.values[k] == Numeric(Tds(row)[k + 2])
  {
    var ts := Tds(row);
    if |ts| < 3 then Line(Unlabelled, [])
    else
      var vs := Readings(ts[2..]);
      assert forall k :: 0 <= k < |vs| ==> ts[2..][k] == ts[k + 2];
      Line(LabelOf(ts[1]), vs)
  }

  /** The readings of a run of cell texts, one per text. */
  function Readings(texts: seq<string>): (vs: seq<Option<real>>)
    ensures |vs| == |texts|
    ensures forall k :: 0 <= k < |texts| ==> vs[k] == Numeric(texts[k])
  {
    seq(|texts|, k requires 0 <= k < |texts| => Numeric(texts[k]))
  }

  function LinesOf(rows: seq<Row>): (ls: seq<Line>)
    ensures |ls| == |rows|
    ensures forall i :: 0 <= i < |rows| ==> ls[i] == LineOf(rows[i])
  {
    seq(|rows|, i requires 0 <= i < |rows| => LineOf(rows[i]))
  }

  // ---- the series table ----

  /** The keys of `time_series`. */
  datatype Key =
    | Values | ValuesGrowth
    | TotalCommodity | TotalCommodityGrowth
    | TotalCountry | TotalCountryGrowth
    | CountryShareKey | CommodityShareKey

  type Series = map<Key, seq<Option<real>>>

  predicate IsGrowth(k: Key)
  {
    k == ValuesGrowth || k == TotalCommodityGrowth || k == TotalCountryGrowth
  }

  /** The series a growth key follows. */
  function Base(k: Key): (b: Key)
    requires IsGrowth(k)
    ensures !IsGrowth(b)
  {
    match k
    case ValuesGrowth => Values
    case TotalCommodityGrowth => TotalCommodity
    case TotalCountryGrowth => TotalCountry
  }

  /** The key a label names on its own, whatever is already stored. */
  function FixedKey(kind: Label): (k: Option<Key>)
    ensures k.Some? ==> !IsGrowth(k.value)
  {
    match kind
    case ValuesLabel => Some(Values)
    case CommodityTotal => Some(TotalCommodity)
    case CountryTotal => Some(TotalCountry)
    case CountryShare => Some(CountryShareKey)
    case CommodityShare => Some(CommodityShareKey)
    case _ => None
  }

  /** The key a row fills. A "%Growth" row fills the first growth key
      whose series is stored and which is not, and no key when there is
      none. */
  function KeyFor(kind: Label, ts: Series): (k: Option<Key>)
    ensures kind != Growth ==> k == FixedKey(kind)
    ensures kind == Growth && k.Some? ==> IsGrowth(k.value) && Base(k.value) in ts && k.value !in ts
    ensures kind == Growth && k.None? ==>
      forall g :: IsGrowth(g) ==> Base(g) !in ts || g in ts
  {
    if kind != Growth then FixedKey(kind)
    else if Values in ts && ValuesGrowth !in ts then Some(ValuesGrowth)
    else if TotalCommodity in ts && TotalCommodityGrowth !in ts then Some(TotalCommodityGrowth)
    else if TotalCountry in ts && TotalCountryGrowth !in ts then Some(TotalCountryGrowth)
    else None
  }

  /** One data row: the key it names gets the row's values, replacing
      any earlier ones. */
  function Step(ts: Series, l: Line): Series
  {
    match KeyFor(l.kind, ts)
    case None => ts
    case Some(k) => ts[k := l.values]
  }

  /** `time_series` after the data loop over the given rows. */
  function SeriesOf(ls: seq<Line>): Series
  {
    if ls == [] then map[] else Step(SeriesOf(ls[..|ls| - 1]), ls[|ls| - 1])
  }

  method ReadSeries(rows: seq<Row>) returns (ts: Series)
    ensures ts == SeriesOf(LinesOf(rows))
  {
    ghost var ls := LinesOf(rows);
    ts := map[];
    var i := 0;
    while i < |rows|
      invariant 0 <= i <= |rows|
      invariant ts == SeriesOf(ls[..i])
    {
      assert ls[..i + 1][..i] == ls[..i];
      var l := LineOf(rows[i]);
      assert l == ls[i];
      ts := StoreRow(ts, l);
      i := i + 1;
    }
    assert ls[..i] == ls;
  }

  /** The loop body on one data row. */
  method StoreRow(ts: Series, l: Line) returns (ts': Series)
    ensures ts' == Step(ts, l)
  {
    var key: Option<Key> := None;
    match l.kind {
      case ValuesLabel => key := Some(Values);
      case Growth =>
        if Values in ts && ValuesGrowth !in ts {
          key := Some(ValuesGrowth);
        } else if TotalCommodity in ts && TotalCommodityGrowth !in ts {
          key := Some(TotalCommodityGrowth);
        } else if TotalCountry in ts && TotalCountryGrowth !in ts {
          key := Some(TotalCountryGrowth);
        }
      case CommodityTotal => key := Some(TotalCommodity);
      case CountryTotal => key := Some(TotalCountry);
      case CountryShare => key := Some(CountryShareKey);
      case CommodityShare => key := Some(CommodityShareKey);
      case _ =>
    }
    ts' := ts;
    if key.Some? {
      ts' := ts[key.value := l.values];
    }
  }

  /** A growth series is only ever stored after its base series. */
  lemma {:induction false} GrowthNeedsBase(ls: seq<Line>, g: Key)
    requires IsGrowth(g) && g in SeriesOf(ls)
    ensures Base(g) in SeriesOf(ls)
  {
    if ls != [] {
      var init := ls[..|ls| - 1];
      var ts := SeriesOf(init);
      if g in ts {
        GrowthNeedsBase(init, g);
      }
    }
  }

  /** The row a label-named key takes its values from. */
  function FixedRow(l: Line, k: Key): Option<seq<Option<real>>>
  {
    if FixedKey(l.kind) == Some(k) then Some(l.values) else None
  }

  /** A key named by its label alone is stored exactly when some row names
      it, and holds the values of the last such row. */
  lemma {:induction false} FixedLastWins(ls: seq<Line>, k: Key)
    requires !IsGrowth(k)
    ensures (k in SeriesOf(ls)) <==> LastMatch(ls, l => FixedRow(l, k)).Some?
    ensures k in SeriesOf(ls) ==> SeriesOf(ls)[k] == LastMatch(ls, l => FixedRow(l, k)).value
  {
    if ls != [] {
      var n := |ls| - 1;
      FixedLastWins(ls[..n], k);
      LastMatchStep(ls, n, l => FixedRow(l, k));
      assert ls[..n + 1] == ls;
    }
  }

  // ---- one record per year ----

  /** A year's record: the year and, for each stored series long enough,
      its value in that year's column. */
  datatype YearRecord = YearRecord(year: string, fields: map<Key, Option<real>>)

  function RecordFor(years: seq<string>, ts: Series, i: nat): (r: YearRecord)
    requires i < |years|
    ensures r.year == years[i]
    ensures forall k :: k in r.fields <==> k in ts && i < |ts[k]|
    ensures forall k :: k in r.fields ==> r.fields[k] == ts[k][i]
  {
    YearRecord(years[i], map k | k in ts && i < |ts[k]| :: ts[k][i])
  }

  function Pivot(years: seq<string>, ts: Series): (out: seq<YearRecord>)
    ensures |out| == |years|
    ensures forall i :: 0 <= i < |years| ==> out[i] == RecordFor(years, ts, i)
  {
    seq(|years|, i requires 0 <= i < |years| => RecordFor(years, ts, i))
  }

  /** The pivot loop: one record per year, in order. */
  method PivotYears(years: seq<string>, ts: Series) returns (out: seq<YearRecord>)
    ensures out == Pivot(years, ts)
  {
    out := [];
    var i := 0;
    while i < |years|
      invariant 0 <= i <= |years|
      invariant |out| == i
      invariant forall j :: 0 <= j < i ==> out[j] == RecordFor(years, ts, j)
    {
      out := out + [RecordFor(years, ts, i)];
      i := i + 1;
    }
  }

  /** Every year's record agrees with every stored series: a series with
      a value for that column puts the value in, a shorter one leaves the
      key out. */
  lemma PivotAgrees(years: seq<string>, ts: Series, i: nat, k: Key)
    requires i < |years| && k in ts
    ensures i < |ts[k]| ==> Pivot(years, ts)[i].fields[k] == ts[k][i]
    ensures i >= |ts[k]| ==> k !in Pivot(years, ts)[i].fields
  {
    assert Pivot(years, ts)[i] == RecordFor(years, ts, i);
  }

  // ---- the response ----

  /** `str(len(hs_code)) if hs_code else "0"`. */
  function HsLevel(hsCode: string): (s: string)
    ensures hsCode == "" ==> s == "0"
    ensures hsCode != "" ==> ParseInt(s) == Some(|hsCode|)
  {
    if hsCode == "" then "0"
    else
      ParseIntString(|hsCode|);
      IntToString(|hsCode|)
  }

  /** `time_series.get(key, [])`. */
  function Summary(ts: Series, k: Key): (s: seq<Option<real>>)
    ensures k in ts ==> s == ts[k]
    ensures k !in ts ==> s == []
  {
    if k in ts then ts[k] else []
  }

  datatype Parsed = Parsed(
    fiscalYear: string, hsLevel: string, years: seq<string>, timeSeries: seq<YearRecord>,
    series: Series, recordCount: nat)

  /** The table of class "table"; there is no fallback. */
  function TableRows(page: Page): seq<Row>
  {
    match ByClass(page, "table")
    case None => []
    case Some(t) => t.rows
  }

  /** `parse_commodity_country_response`. The description and unit come
      from regular expressions over the first cell and are not modelled.
      A year that `int()` rejects raises ValueError. */
  function ParseCommodityCountryResponse(page: Page, hsCode: string, year: string)
    : (r: Result<Parsed>)
    ensures r.Failure? <==> FiscalRange(year).None?
    ensures r.Success? ==>
      && r.value.years == Years(TableRows(page))
      && r.value.series == SeriesOf(LinesOf(TableRows(page)))
      && r.value.timeSeries == Pivot(r.value.years, r.value.series)
      && r.value.recordCount == |r.value.years|
      && r.value.hsLevel == HsLevel(hsCode)
      && r.value.fiscalYear == FiscalRange(year).value
  {
    var rows := TableRows(page);
    var years := Years(rows);
    var ts := SeriesOf(LinesOf(rows));
    var yearly := Pivot(years, ts);
    match FiscalRange(year)
    case None => Failure(ValueError("invalid literal for int() with base 10"))
    case Some(fy) => Success(Parsed(fy, HsLevel(hsCode), years, yearly, ts, |yearly|))
  }

  method ParseCommodityCountry(page: Page, hsCode: string, year: string) returns (r: Result<Parsed>)
    ensures r == ParseCommodityCountryResponse(page, hsCode, year)
  {
    var rows := TableRows(page);
    var years := ExtractYears(rows);
    var ts := ReadSeries(rows);
    var yearly := PivotYears(years, ts);
    var fy := FiscalRange(year);
    if fy.None? {
      return Failure(ValueError("invalid literal for int() with base 10"));
    }
    r := Success(Parsed(fy.value, HsLevel(hsCode), years, yearly, ts, |yearly|));
  }
}
