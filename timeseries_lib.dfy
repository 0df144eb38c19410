// The library timeseries parser: every row of the first table whose first
// cell is a year gives that year's value and growth.
module TimeseriesLib {
  import opened Wrappers
  import opened PyStr
  import opened PyNum
  import opened Html
  import opened Scan
  import opened Numbers

  /** `_parse_number`: only "-" and "NA" are placeholders. */
  function Number(text: string): Option<real>
  {
    ParseNumberCommaless(text, DashNa)
  }

  datatype Entry = Entry(year: nat, value: Option<real>, growthPct: Option<real>)

  /** Two cells or more and an all-digit first cell. */
  function EntryOf(fs: seq<Field>): (r: Option<Entry>)
    ensures r.Some? <==> |fs| >= 2 && IsDigits(fs[0].text)
    ensures r.Some? ==>
      && ParseInt(fs[0].text) == Some(r.value.year as int)
      && r.value.value == fs[1].number
      && (|fs| == 2 ==> r.value.growthPct.None?)
      && (|fs| > 2 ==> r.value.growthPct == fs[2].number)
  {
    if |fs| < 2 || !IsDigits(fs[0].text) then None
    else
      ParseIntDigits(fs[0].text);
      Some(Entry(DigitsValue(fs[0].text), fs[1].number, if |fs| > 2 then fs[2].number else None))
  }

  /** `_extract_timeseries`: the entries of the first table, in order. */
  function Timeseries(page: Page): seq<Entry>
  {
    match First(page)
    case None => []
    case Some(t) => FilterMap(ReadRows(t.rows, Number), EntryOf)
  }

  method ExtractTimeseries(page: Page) returns (entries: seq<Entry>)
    ensures entries == Timeseries(page)
  {
    var table := First(page);
    if table.None? {
      return [];
    }
    entries := KeepRows(ReadRows(table.value.rows, Number), EntryOf);
  }

  /** Every entry comes from a row of the first table whose first cell is
      its year written in digits; every such row gives an entry. */
  lemma EntriesAreYearRows(page: Page, e: Entry)
    requires e in Timeseries(page)
    ensures exists i :: 0 <= i < |First(page).value.rows| &&
                        var ts := Tds(First(page).value.rows[i]);
                        |ts| >= 2 && IsDigits(ts[0]) && ParseInt(ts[0]) == Some(e.year as int)
                        && e.value == Number(ts[1])
  {
    var rows := First(page).value.rows;
    var ls := ReadRows(rows, Number);
    FilterMapSound(ls, EntryOf, e);
    var i :| 0 <= i < |ls| && EntryOf(ls[i]) == Some(e);
    assert ls[i] == Fields(Tds(rows[i]), Number);
  }

  lemma YearRowsAreEntries(page: Page, i: nat)
    requires First(page).Some? && i < |First(page).value.rows|
    requires var ts := Tds(First(page).value.rows[i]); |ts| >= 2 && IsDigits(ts[0])
    ensures EntryOf(Fields(Tds(First(page).value.rows[i]), Number)).value in Timeseries(page)
  {
    var rows := First(page).value.rows;
    assert ReadRows(rows, Number)[i] == Fields(Tds(rows[i]), Number);
    FilterMapComplete(ReadRows(rows, Number), EntryOf, i);
  }

  datatype Parsed = Parsed(fromYear: int, toYear: int, timeseries: seq<Entry>, totalYears: nat)

  /** `parse_timeseries_response`. Either year failing `int()` makes the
      handler return None. */
  function ParseTimeseriesHtml(page: Page, fromYear: string, toYear: string): (r: Option<Parsed>)
    ensures r.None? <==> ParseInt(fromYear).None? || ParseInt(toYear).None?
    ensures r.Some? ==>
      && r.value.fromYear == ParseInt(fromYear).value && r.value.toYear == ParseInt(toYear).value
      && r.value.timeseries == Timeseries(page)
      && r.value.totalYears == |r.value.timeseries|
  {
    match (ParseInt(fromYear), ParseInt(toYear))
    case (Some(f), Some(t)) =>
      var entries := Timeseries(page);
      Some(Parsed(f, t, entries, |entries|))
    case _ => None
  }

  method ParseTimeseries(page: Page, fromYear: string, toYear: string) returns (r: Option<Parsed>)
    ensures r == ParseTimeseriesHtml(page, fromYear, toYear)
  {
    var entries := ExtractTimeseries(page);
    var f, t := ParseInt(fromYear), ParseInt(toYear);
    if f.None? || t.None? {
      return None;
    }
    r := Some(Parsed(f.value, t.value, entries, |entries|));
  }
}
