// The country record the all-countries parsers produce and the change
// detector compares: a USD triple and a quantity triple per country.
module TradeRecords {
  import opened Wrappers
  import opened PyNum

  /** `values_usd` / `values_quantity`: the two fiscal-year values and the
      growth percentage, each None when the cell held no number. */
  datatype Metrics = Metrics(y2023_2024: Option<real>, y2024_2025: Option<real>, pctGrowth: Option<real>)

  /** A country row: serial number, name, and the two value triples. */
  datatype CountryRecord = CountryRecord(sno: int, country: string, usd: Metrics, qty: Metrics)

  const NoMetrics := Metrics(None, None, None)

  /** Which copy of a parser: the module inside the package, or the
      stand-alone library copy beside its scraper. */
  datatype Build = Package | Library

  /** `f"{year}-{int(year)+1}"`, None where `int(year)` raises. */
  function FiscalRange(year: string): (r: Option<string>)
    ensures r.None? <==> ParseInt(year).None?
    ensures r.Some? ==> r.value == year + "-" + IntToString(ParseInt(year).value + 1)
  {
    match ParseInt(year)
    case None => None
    case Some(y) => Some(year + "-" + IntToString(y + 1))
  }

  /** The range of a year written as `str(y)` ends in the following year. */
  lemma FiscalRangeNext(y: int)
    ensures var s := IntToString(y);
      && FiscalRange(s).Some?
      && ParseInt(FiscalRange(s).value[|s| + 1..]) == Some(y + 1)
  {
    var s := IntToString(y);
    ParseIntString(y);
    ParseIntString(y + 1);
    var r := s + "-" + IntToString(y + 1);
    assert r[|s| + 1..] == IntToString(y + 1);
  }

  const MonthNames: seq<string> := [
    "January", "February", "March", "April", "May", "June",
    "July", "August", "September", "October", "November", "December"]

  /** `MONTHS.get(month)`. */
  function MonthName(month: int): (r: Option<string>)
    ensures r.Some? <==> 1 <= month <= 12
    ensures r.Some? ==> r.value in MonthNames
  {
    if 1 <= month <= 12 then Some(MonthNames[month - 1]) else None
  }

  /** `MONTHS.get(month, str(month))`: the month's name, or its number. */
  function MonthLabel(month: int): (r: string)
    ensures 1 <= month <= 12 ==> r == MonthName(month).value
    ensures !(1 <= month <= 12) ==> ParseInt(r) == Some(month)
  {
    match MonthName(month)
    case Some(name) => name
    case None => ParseIntString(month); IntToString(month)
  }
}
