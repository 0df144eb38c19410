// The request side of the MEIDB commodity-wise all-countries scraper: which
// calls are refused before any request, and the form sent for each
// direction.
module MeidbAllCountriesScraper {
  import opened Wrappers
  import opened PyStr
  import opened PyNum
  import PrincipalScraper
  import MeidbCommodityScraper

  /** `EXPORT_FIELDS` (cwacex) and `IMPORT_FIELDS` (cwacim). */
  datatype FieldNames = FieldNames(hscode: string, month: string, year: string, report: string, yearType: string)

  function FieldsFor(isExport: bool): (n: FieldNames)
    ensures isExport ==>
      n == FieldNames("cwacexHSCODE", "cwacexMonth", "cwacexYear", "cwacexReportVal", "cwacexReportYear")
    ensures !isExport ==>
      n == FieldNames("cwacimHSCODE", "cwacimMonth", "cwacimYear", "cwacimReportVal", "cwacimReportYear")
  {
    if isExport then FieldNames("cwacexHSCODE", "cwacexMonth", "cwacexYear", "cwacexReportVal", "cwacexReportYear")
    else FieldNames("cwacimHSCODE", "cwacimMonth", "cwacimYear", "cwacimReportVal", "cwacimReportYear")
  }

  /** The validations, in the scraper's order: month, trade type in any
      case, quantity only for an 8-character code. */
  predicate Accepted(hscode: string, month: int, tradeType: string, valueType: string)
  {
    && 1 <= month <= 12
    && Lower(tradeType) in {"export", "import"}
    && (Lower(valueType) == "quantity" ==> |hscode| == 8)
  }

  /** The report path and the form of one request. */
  datatype Request = Request(path: string, payload: map<string, string>)

  /** `scrape_meidb_commodity_wise_all_countries` up to the POST. A refused
      call is Success(None); an accepted call with no token in the state
      raises. */
  function BuildRequest(hscode: string, month: int, year: int, tradeType: string, valueType: string,
                        yearType: string, state: Option<map<string, string>>): (r: Result<Option<Request>>)
    ensures !Accepted(hscode, month, tradeType, valueType) ==> r == Success(None)
    ensures Accepted(hscode, month, tradeType, valueType) && MeidbCommodityScraper.StateToken(state).Failure? ==>
      r == Failure(MeidbCommodityScraper.StateToken(state).error)
    ensures r.Success? && r.value.Some? ==>
      var isExport := Lower(tradeType) == "export";
      var n := FieldsFor(isExport);
      && Accepted(hscode, month, tradeType, valueType) && MeidbCommodityScraper.StateToken(state).Success?
      && r.value.value.path == PathFor(isExport)
      && r.value.value.payload == Form(n, MeidbCommodityScraper.StateToken(state).value, hscode, IntToString(month),
                                       IntToString(year), MeidbCommodityScraper.ValueCode(valueType),
                                       PrincipalScraper.YearTypeCode(yearType))
  {
    if month < 1 || month > 12 then Success(None)
    else
      var t := Lower(tradeType);
      if t != "export" && t != "import" then Success(None)
      else if Lower(valueType) == "quantity" && |hscode| != 8 then Success(None)
      else
        match MeidbCommodityScraper.StateToken(state)
        case Failure(e) => Failure(e)
        case Success(token) =>
          var isExport := t == "export";
          Success(Some(Request(PathFor(isExport),
            Form(FieldsFor(isExport), token, hscode, IntToString(month), IntToString(year),
                 MeidbCommodityScraper.ValueCode(valueType), PrincipalScraper.YearTypeCode(yearType)))))
  }

  /** The report path of a direction. */
  function PathFor(isExport: bool): string
  {
    if isExport then "/meidb/commodity_wise_all_countries_export" else "/meidb/commodity_wise_all_countries_import"
  }

  /** The form under the given names: exactly the token, the code, the
      month, the year and the two report codes. */
  function Form(n: FieldNames, token: string, hscode: string, month: string, year: string, report: string,
                yearType: string): (p: map<string, string>)
    requires n == FieldsFor(true) || n == FieldsFor(false)
    ensures p.Keys == {"_token", n.hscode, n.month, n.year, n.report, n.yearType}
    ensures && p["_token"] == token && p[n.hscode] == hscode && p[n.month] == month && p[n.year] == year
            && p[n.report] == report && p[n.yearType] == yearType
  {
    map["_token" := token, n.hscode := hscode, n.month := month, n.year := year, n.report := report,
        n.yearType := yearType]
  }

  /** This scraper accepts exactly the calls the specific-code
      commodity-wise scraper accepts, and sends the same code, month, year
      and report codes, under other names. */
  lemma SameAcceptanceAsSpecific(hscode: string, month: int, year: int, tradeType: string, valueType: string,
                                 yearType: string, state: Option<map<string, string>>)
    ensures var a := BuildRequest(hscode, month, year, tradeType, valueType, yearType, state);
      var s := MeidbCommodityScraper.SpecificRequest(hscode, month, year, tradeType, valueType, yearType, state);
      && (a == Success(None) <==> s == Success(None))
      && (a.Failure? <==> s.Failure?)
      && (a.Success? && a.value.Some? ==>
            var n, m := FieldsFor(Lower(tradeType) == "export"),
                        MeidbCommodityScraper.FieldsFor(Lower(tradeType) == "export");
            && s.Success? && s.value.Some?
            && a.value.value.payload[n.hscode] == s.value.value.payload["comval"]
            && a.value.value.payload[n.month] == s.value.value.payload[m.month]
            && a.value.value.payload[n.year] == s.value.value.payload[m.year]
            && a.value.value.payload[n.report] == s.value.value.payload[m.report]
            && a.value.value.payload[n.yearType] == s.value.value.payload[m.yearType])
  {
  }
}
