// The request side of the MEIDB commodity-wise scraper: which calls are
// refused before any request, the form of a specific code and of a whole
// level, and the older form builder kept for compatibility.
module MeidbCommodityScraper {
  import opened Wrappers
  import opened PyStr
  import opened PyNum
  import PrincipalScraper

  /** `value_map.get(v.lower(), "1")`: usd 1, inr 2, quantity 3. */
  function ValueCode(valueType: string): (code: string)
    ensures Lower(valueType) == "usd" ==> code == "1"
    ensures Lower(valueType) == "inr" ==> code == "2"
    ensures Lower(valueType) == "quantity" ==> code == "3"
    ensures Lower(valueType) !in {"usd", "inr", "quantity"} ==> code == "1"
  {
    var v := Lower(valueType);
    if v == "inr" then "2" else if v == "quantity" then "3" else "1"
  }

  /** `state["_token"]`: no state raises TypeError, a state without a token
      KeyError. */
  function StateToken(state: Option<map<string, string>>): (r: Result<string>)
    ensures state.None? ==> r == Failure(TypeError)
    ensures state.Some? && "_token" !in state.value ==> r == Failure(KeyError("_token"))
    ensures state.Some? && "_token" in state.value ==> r == Success(state.value["_token"])
  {
    match state
    case None => Failure(TypeError)
    case Some(st) => if "_token" in st then Success(st["_token"]) else Failure(KeyError("_token"))
  }

  /** `EXPORT_FIELDS` and `IMPORT_FIELDS`. */
  datatype FieldNames = FieldNames(month: string, year: string, level: string, report: string, yearType: string)

  function FieldsFor(isExport: bool): (n: FieldNames)
    ensures isExport ==> n == FieldNames("ddMonth", "ddYear", "ddCommodityLevel", "ddReportVal", "ddReportYear")
    ensures !isExport ==>
      n == FieldNames("imddMonth", "imddYear", "imddCommodityLevel", "imddReportVal", "imddReportYear")
  {
    if isExport then FieldNames("ddMonth", "ddYear", "ddCommodityLevel", "ddReportVal", "ddReportYear")
    else FieldNames("imddMonth", "imddYear", "imddCommodityLevel", "imddReportVal", "imddReportYear")
  }

  /** The report path of a direction. */
  function PathFor(isExport: bool): string
  {
    if isExport then "/meidb/commoditywise_export" else "/meidb/commoditywise_import"
  }

  /** A request: the report path and the form. */
  datatype Request = Request(path: string, payload: map<string, string>)

  /** The validations of the specific-code scraper, in its order: month,
      trade type in any case, and quantity only for an 8-character code. */
  predicate SpecificAccepted(hscode: string, month: int, tradeType: string, valueType: string)
  {
    && 1 <= month <= 12
    && Lower(tradeType) in {"export", "import"}
    && (Lower(valueType) == "quantity" ==> |hscode| == 8)
  }

  /** `scrape_meidb_commodity_wise` up to the POST. A refused call is
      Success(None); an accepted call with no token in the state raises. The
      form holds the code under "comval" and its length as the level. */
  function SpecificRequest(hscode: string, month: int, year: int, tradeType: string, valueType: string,
                           yearType: string, state: Option<map<string, string>>): (r: Result<Option<Request>>)
    ensures !SpecificAccepted(hscode, month, tradeType, valueType) ==> r == Success(None)
    ensures SpecificAccepted(hscode, month, tradeType, valueType) && StateToken(state).Failure? ==>
      r == Failure(StateToken(state).error)
    ensures r.Success? && r.value.Some? ==>
      var isExport := Lower(tradeType) == "export";
      var n := FieldsFor(isExport);
      && SpecificAccepted(hscode, month, tradeType, valueType) && StateToken(state).Success?
      && r.value.value.path == PathFor(isExport)
      && r.value.value.payload == SpecificForm(n, StateToken(state).value, IntToString(month), IntToString(year),
                                               hscode, ValueCode(valueType), PrincipalScraper.YearTypeCode(yearType))
  {
    if month < 1 || month > 12 then Success(None)
    else
      var t := Lower(tradeType);
      if t != "export" && t != "import" then Success(None)
      else if Lower(valueType) == "quantity" && |hscode| != 8 then Success(None)
      else
        match StateToken(state)
        case Failure(e) => Failure(e)
        case Success(token) =>
          var n := FieldsFor(t == "export");
          Success(Some(Request(PathFor(t == "export"),
            SpecificForm(n, token, IntToString(month), IntToString(year), hscode, ValueCode(valueType),
                         PrincipalScraper.YearTypeCode(yearType)))))
  }

  /** The form of one specific code under the given names: the common
      form with "comlev" "specific", the code's length as the level, and the
      code under "comval". */
  function SpecificForm(n: FieldNames, token: string, month: string, year: string, hscode: string,
                        report: string, yearType: string): (p: map<string, string>)
    requires n == FieldsFor(true) || n == FieldsFor(false)
    ensures p.Keys == {"_token", n.month, n.year, "comlev", n.level, "comval", n.report, n.yearType}
    ensures && p["_token"] == token && p[n.month] == month && p[n.year] == year
            && p["comlev"] == "specific" && p[n.level] == IntToString(|hscode|) && p["comval"] == hscode
            && p[n.report] == report && p[n.yearType] == yearType
  {
    CommonForm(n, token, month, year, "specific", IntToString(|hscode|), report, yearType)["comval" := hscode]
  }

  /** The seven fields every form of this report holds, under the given
      names. */
  function CommonForm(n: FieldNames, token: string, month: string, year: string, comlev: string, level: string,
                      report: string, yearType: string): (p: map<string, string>)
    requires n == FieldsFor(true) || n == FieldsFor(false)
    ensures p.Keys == {"_token", n.month, n.year, "comlev", n.level, n.report, n.yearType}
    ensures && p["_token"] == token && p[n.month] == month && p[n.year] == year
            && p["comlev"] == comlev && p[n.level] == level && p[n.report] == report && p[n.yearType] == yearType
  {
    map["_token" := token, n.month := month, n.year := year, "comlev" := comlev,
        n.level := level, n.report := report, n.yearType := yearType]
  }

  /** The validations of the whole-level scraper, in its order: level,
      month, quantity only at level 8, trade type in any case. */
  predicate AllAccepted(digitLevel: int, month: int, tradeType: string, valueType: string)
  {
    && digitLevel in {2, 4, 6, 8}
    && 1 <= month <= 12
    && (Lower(valueType) == "quantity" ==> digitLevel == 8)
    && Lower(tradeType) in {"export", "import"}
  }

  /** `scrape_meidb_commodity_wise_all` up to the POST: the common form
      with "comlev" "all" and the level asked for. */
  function AllRequest(digitLevel: int, month: int, year: int, tradeType: string, valueType: string,
                      yearType: string, state: Option<map<string, string>>): (r: Result<Option<Request>>)
    ensures !AllAccepted(digitLevel, month, tradeType, valueType) ==> r == Success(None)
    ensures AllAccepted(digitLevel, month, tradeType, valueType) && StateToken(state).Failure? ==>
      r == Failure(StateToken(state).error)
    ensures r.Success? && r.value.Some? ==>
      var isExport := Lower(tradeType) == "export";
      var n := FieldsFor(isExport);
      && AllAccepted(digitLevel, month, tradeType, valueType) && StateToken(state).Success?
      && r.value.value.path == PathFor(isExport)
      && r.value.value.payload == CommonForm(n, StateToken(state).value, IntToString(month), IntToString(year),
                                             "all", IntToString(digitLevel), ValueCode(valueType),
                                             PrincipalScraper.YearTypeCode(yearType))
  {
    if digitLevel !in {2, 4, 6, 8} then Success(None)
    else if month < 1 || month > 12 then Success(None)
    else if Lower(valueType) == "quantity" && digitLevel != 8 then Success(None)
    else
      var t := Lower(tradeType);
      if t != "export" && t != "import" then Success(None)
      else
        match StateToken(state)
        case Failure(e) => Failure(e)
        case Success(token) =>
          var n := FieldsFor(t == "export");
          Success(Some(Request(PathFor(t == "export"),
            CommonForm(n, token, IntToString(month), IntToString(year), "all", IntToString(digitLevel),
                       ValueCode(valueType), PrincipalScraper.YearTypeCode(yearType)))))
  }

  /** The common form never holds a code: a whole-level request names no
      commodity. */
  lemma CommonFormHasNoCode(n: FieldNames, token: string, month: string, year: string, comlev: string,
                            level: string, report: string, yearType: string)
    requires n == FieldsFor(true) || n == FieldsFor(false)
    ensures "comval" !in CommonForm(n, token, month, year, comlev, level, report, yearType)
  {
  }

  /** Quantities are only ever requested at the 8-digit level, by either
      scraper. */
  lemma QuantityOnlyAtEight(hscode: string, digitLevel: int, month: int, year: int, tradeType: string,
                            yearType: string, state: Option<map<string, string>>)
    ensures SpecificRequest(hscode, month, year, tradeType, "quantity", yearType, state).Success? &&
            SpecificRequest(hscode, month, year, tradeType, "quantity", yearType, state).value.Some? ==>
            |hscode| == 8
    ensures AllRequest(digitLevel, month, year, tradeType, "quantity", yearType, state).Success? &&
            AllRequest(digitLevel, month, year, tradeType, "quantity", yearType, state).value.Some? ==>
            digitLevel == 8
  {
    assert Lower("quantity") == "quantity";
  }

  /** The portal the report paths are below. */
  const Portal: string := "https://tradestat.commerce.gov.in"

  /** `fetch_commodity_wise_data`: the older builder. Its trade type is
      compared exactly ("Export" means import), its codes are sent as given,
      and "comval" is added only for a specific level with a non-empty
      code (an absent code is written ""). */
  function LegacyRequest(csrfToken: string, tradeType: string, month: string, year: string, hsLevel: string,
                         valueType: string, yearType: string, comlev: string, comval: string): (r: Request)
    ensures var n := FieldsFor(tradeType == "export");
      && r.path == Portal + PathFor(tradeType == "export")
      && r.payload - {"comval"} == CommonForm(n, csrfToken, month, year, comlev, hsLevel, valueType, yearType)
      && ("comval" in r.payload <==> comlev == "specific" && comval != "")
      && ("comval" in r.payload ==> r.payload["comval"] == comval)
  {
    var isExport := tradeType == "export";
    var n := FieldsFor(isExport);
    CommonFormHasNoCode(n, csrfToken, month, year, comlev, hsLevel, valueType, yearType);
    var url := Portal + PathFor(isExport);
    var data := CommonForm(n, csrfToken, month, year, comlev, hsLevel, valueType, yearType);
    Request(url, if comlev == "specific" && comval != "" then data["comval" := comval] else data)
  }

  /** For a non-empty code of the same length, the older builder with
      "specific" gives the form of the specific scraper with the full URL. */
  lemma LegacyAgreesWithSpecific(hscode: string, month: int, year: int, valueType: string, yearType: string,
                                 token: string)
    requires hscode != [] && SpecificAccepted(hscode, month, "export", valueType)
    ensures var s := SpecificRequest(hscode, month, year, "export", valueType, yearType, Some(map["_token" := token]));
      var l := LegacyRequest(token, "export", IntToString(month), IntToString(year), IntToString(|hscode|),
                             ValueCode(valueType), PrincipalScraper.YearTypeCode(yearType), "specific", hscode);
      && s.Success? && s.value.Some? && s.value.value.payload == l.payload
      && l.path == Portal + s.value.value.path
  {
    assert Lower("export") == "export";
    var n := FieldsFor(true);
    var m, y, lv := IntToString(month), IntToString(year), IntToString(|hscode|);
    var v, yt := ValueCode(valueType), PrincipalScraper.YearTypeCode(yearType);
    assert StateToken(Some(map["_token" := token])) == Success(token);
    assert SpecificRequest(hscode, month, year, "export", valueType, yearType, Some(map["_token" := token]))
           == Success(Some(Request(PathFor(true), SpecificForm(n, token, m, y, hscode, v, yt))));
    assert LegacyRequest(token, "export", m, y, lv, v, yt, "specific", hscode)
           == Request(Portal + PathFor(true), CommonForm(n, token, m, y, "specific", lv, v, yt)["comval" := hscode]);
  }
}
