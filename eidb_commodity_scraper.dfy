// The request side of the EIDB commodity-wise scraper: which calls are
// refused before any request, and the form of a specific code and of a
// whole level for each direction. Export names end in "Cwe", import names
// in "Cwi".
module EidbCommodityScraper {
  import opened Wrappers
  import opened PyStr
  import opened PyNum
  import MeidbCommodityScraper

  /** `value_map.get(v.lower(), "2")`: usd 2, inr 1, quantity 3. */
  function ValueCode(valueType: string): (code: string)
    ensures Lower(valueType) == "usd" ==> code == "2"
    ensures Lower(valueType) == "inr" ==> code == "1"
    ensures Lower(valueType) == "quantity" ==> code == "3"
    ensures Lower(valueType) !in {"usd", "inr", "quantity"} ==> code == "2"
  {
    var v := Lower(valueType);
    if v == "inr" then "1" else if v == "quantity" then "3" else "2"
  }

  /** The direction-specific names of year, level, code and value code. */
  datatype FieldNames = FieldNames(year: string, level: string, hscode: string, report: string)

  function FieldsFor(isExport: bool): (n: FieldNames)
    ensures isExport ==> n == FieldNames("EidbYearCwe", "EidbComLevelCwe", "Eidb_hscodeCwe", "Eidb_ReportCwe")
    ensures !isExport ==> n == FieldNames("Eidb_YearCwi", "Eidb_ComLevelCwi", "Eidb_hscodeCwi", "Eidb_ReportCwi")
  {
    if isExport then FieldNames("EidbYearCwe", "EidbComLevelCwe", "Eidb_hscodeCwe", "Eidb_ReportCwe")
    else FieldNames("Eidb_YearCwi", "Eidb_ComLevelCwi", "Eidb_hscodeCwi", "Eidb_ReportCwi")
  }

  /** The field that selects specific or all: "comType" for export,
      "commodityType" for import. */
  function ModeField(isExport: bool): string
  {
    if isExport then "comType" else "commodityType"
  }

  function PathFor(isExport: bool): string
  {
    if isExport then "/eidb/commodity_wise_export" else "/eidb/commodity_wise_import"
  }

  datatype Request = Request(path: string, payload: map<string, string>)

  /** The form of one code: export sets both "comType" and "commodityType"
      to "specific", import only "commodityType". */
  function SpecificForm(isExport: bool, token: string, year: string, hscode: string, report: string)
    : (p: map<string, string>)
    ensures var n := FieldsFor(isExport);
      && p.Keys == {"_token", n.year, "commodityType", n.level, n.hscode, n.report} +
                   (if isExport then {"comType"} else {})
      && p["_token"] == token && p[n.year] == year && p["commodityType"] == "specific"
      && (isExport ==> p["comType"] == "specific")
      && p[n.level] == IntToString(|hscode|) && p[n.hscode] == hscode && p[n.report] == report
  {
    if isExport then
      map["_token" := token, "EidbYearCwe" := year, "comType" := "specific", "commodityType" := "specific",
          "EidbComLevelCwe" := IntToString(|hscode|), "Eidb_hscodeCwe" := hscode, "Eidb_ReportCwe" := report]
    else
      map["_token" := token, "Eidb_YearCwi" := year, "commodityType" := "specific",
          "Eidb_ComLevelCwi" := IntToString(|hscode|), "Eidb_hscodeCwi" := hscode, "Eidb_ReportCwi" := report]
  }

  /** The form of a whole level: the mode field is "all", and the export
      form has no "commodityType". */
  function AllForm(isExport: bool, token: string, year: string, digitLevel: int, report: string)
    : (p: map<string, string>)
    ensures var n := FieldsFor(isExport);
      && p.Keys == {"_token", n.year, ModeField(isExport), n.level, n.report}
      && p["_token"] == token && p[n.year] == year && p[ModeField(isExport)] == "all"
      && p[n.level] == IntToString(digitLevel) && p[n.report] == report
  {
    if isExport then
      map["_token" := token, "EidbYearCwe" := year, "comType" := "all",
          "EidbComLevelCwe" := IntToString(digitLevel), "Eidb_ReportCwe" := report]
    else
      map["_token" := token, "Eidb_YearCwi" := year, "commodityType" := "all",
          "Eidb_ComLevelCwi" := IntToString(digitLevel), "Eidb_ReportCwi" := report]
  }

  /** Whichever the direction, the field the portal reads to choose the
      mode says which form was sent, and no code is sent with "all". */
  lemma ModeFieldTellsForm(isExport: bool, token: string, year: string, hscode: string, digitLevel: int,
                           report: string)
    ensures SpecificForm(isExport, token, year, hscode, report)[ModeField(isExport)] == "specific"
    ensures AllForm(isExport, token, year, digitLevel, report)[ModeField(isExport)] == "all"
    ensures FieldsFor(isExport).hscode !in AllForm(isExport, token, year, digitLevel, report)
  {
  }

  /** The validations of the specific-code scraper: trade type in any case,
      then quantity only for an 8-character code. */
  predicate SpecificAccepted(hscode: string, tradeType: string, valueType: string)
  {
    Lower(tradeType) in {"export", "import"} && (Lower(valueType) == "quantity" ==> |hscode| == 8)
  }

  /** `scrape_commodity_wise` up to the POST: a refused call is
      Success(None), an accepted call with no token in the state raises. */
  function SpecificRequest(hscode: string, year: string, tradeType: string, valueType: string,
                           state: Option<map<string, string>>): (r: Result<Option<Request>>)
    ensures !SpecificAccepted(hscode, tradeType, valueType) ==> r == Success(None)
    ensures SpecificAccepted(hscode, tradeType, valueType) ==>
      match MeidbCommodityScraper.StateToken(state)
      case Failure(e) => r == Failure(e)
      case Success(token) =>
        var isExport := Lower(tradeType) == "export";
        r == Success(Some(Request(PathFor(isExport), SpecificForm(isExport, token, year, hscode, ValueCode(valueType)))))
  {
    var t := Lower(tradeType);
    if t != "export" && t != "import" then Success(None)
    else if Lower(valueType) == "quantity" && |hscode| != 8 then Success(None)
    else
      match MeidbCommodityScraper.StateToken(state)
      case Failure(e) => Failure(e)
      case Success(token) =>
        Success(Some(Request(PathFor(t == "export"), SpecificForm(t == "export", token, year, hscode, ValueCode(valueType)))))
  }

  /** The validations of the whole-level scraper: the level first, then
      quantity only at level 8, then the trade type in any case. */
  predicate AllAccepted(digitLevel: int, tradeType: string, valueType: string)
  {
    && digitLevel in {2, 4, 6, 8}
    && (Lower(valueType) == "quantity" ==> digitLevel == 8)
    && Lower(tradeType) in {"export", "import"}
  }

  /** `scrape_commodity_wise_all` up to the POST. */
  function AllRequest(digitLevel: int, year: string, tradeType: string, valueType: string,
                      state: Option<map<string, string>>): (r: Result<Option<Request>>)
    ensures !AllAccepted(digitLevel, tradeType, valueType) ==> r == Success(None)
    ensures AllAccepted(digitLevel, tradeType, valueType) ==>
      match MeidbCommodityScraper.StateToken(state)
      case Failure(e) => r == Failure(e)
      case Success(token) =>
        var isExport := Lower(tradeType) == "export";
        r == Success(Some(Request(PathFor(isExport), AllForm(isExport, token, year, digitLevel, ValueCode(valueType)))))
  {
    if digitLevel !in {2, 4, 6, 8} then Success(None)
    else if Lower(valueType) == "quantity" && digitLevel != 8 then Success(None)
    else
      var t := Lower(tradeType);
      if t != "export" && t != "import" then Success(None)
      else
        match MeidbCommodityScraper.StateToken(state)
        case Failure(e) => Failure(e)
        case Success(token) =>
          Success(Some(Request(PathFor(t == "export"), AllForm(t == "export", token, year, digitLevel, ValueCode(valueType)))))
  }

  /** A quantity request is only ever made for 8 digits; and a level
      outside 2, 4, 6, 8 is refused whatever else is given. */
  lemma QuantityOnlyAtEight(hscode: string, digitLevel: int, year: string, tradeType: string,
                            state: Option<map<string, string>>)
    ensures SpecificRequest(hscode, year, tradeType, "quantity", state) != Success(None) ==> |hscode| == 8
    ensures AllRequest(digitLevel, year, tradeType, "quantity", state) != Success(None) ==> digitLevel == 8
    ensures digitLevel !in {2, 4, 6, 8} ==>
      forall v: string :: AllRequest(digitLevel, year, tradeType, v, state) == Success(None)
  {
    assert Lower("quantity") == "quantity";
  }

  /** The level sent for a specific code reads back, through `int()`, as
      the code's length. */
  lemma LevelIsCodeLength(isExport: bool, token: string, year: string, hscode: string, report: string)
    ensures ParseInt(SpecificForm(isExport, token, year, hscode, report)[FieldsFor(isExport).level]) == Some(|hscode|)
  {
    ParseIntString(|hscode|);
  }
}
