// The request side of the MEIDB principal-commodity scraper: which calls
// are refused before any request, and the form sent for each direction.
module PrincipalScraper {
  import opened Wrappers
  import opened PyStr
  import opened PyNum

  /** `PRINCIPAL_COMMODITIES`: principal commodity code to name. */
  const PrincipalCommodities: map<string, string> := map[
    "A1" := "TEA", "A2" := "COFFEE", "A3" := "RICE -BASMOTI", "A4" := "RICE(OTHER THAN BASMOTI)",
    "A5" := "WHEAT", "A6" := "OTHER CEREALS", "A7" := "PULSES", "A8" := "TOBACCO UNMANUFACTURED",
    "A9" := "TOBACCO MANUFACTURED", "B1" := "SPICES", "B2" := "CASHEW", "B3" := "CASHEW NUT SHELL LIQUID",
    "B4" := "SESAME SEEDS", "B5" := "NIGER SEEDS", "B6" := "GROUNDNUT", "B7" := "OTHER OIL SEEDS",
    "B8" := "VEGETABLE OILS", "B9" := "OIL MEALS", "C1" := "GUERGAM MEAL", "C2" := "CASTOR OIL",
    "C3" := "SHELLAC", "C4" := "SUGAR", "C5" := "MOLLASES", "C6" := "FRUITS / VEGETABLE SEEDS",
    "C7" := "FRESH FRUITS", "C8" := "FRESH VEGETABLES", "C9" := "PROCESSED VEGETABLES",
    "D1" := "PROCESSED FRUITS AND JUICES", "D2" := "CEREAL PREPARATIONS", "D3" := "COCOA PRODUCTS",
    "D4" := "MILLED PRODUCTS", "D5" := "MISC PROCESSED ITEMS", "D6" := "ANIMAL CASINGS",
    "D7" := "BUFFALO MEAT", "D8" := "SHEEP/GOAT MEAT", "D9" := "OTHER MEAT", "E1" := "PROCESSED MEAT",
    "E2" := "DAIRY PRODUCTS", "E3" := "POULTRY PRODUCTS", "E4" := "FLORICLTR PRODUCTS",
    "E5" := "NATURAL RUBBER", "E6" := "ALCOHOLIC BEVERAGES", "E7" := "MARINE PRODUCTS", "E8" := "IRON ORE",
    "E9" := "MICA", "F1" := "COAL", "F2" := "BULK MINERALS AND ORES", "F3" := "GRANIT",
    "F4" := "PROCESSED MINERALS", "F5" := "SULPHER", "F6" := "OTHER CRUDE MINERALS",
    "F7" := "RAW HIDES AND SKINS", "F8" := "FINISHED LEATHER", "F9" := "LEATHER GOODS",
    "G1" := "LEATHER GARMENTS", "G2" := "FOOTWEAR OF LEATHER", "G3" := "LEATHER FOOTWEAR COMPONENT",
    "G4" := "SADDLERY AND HARNESS", "G5" := "PEARL", "G6" := "GOLD", "G7" := "SILVER",
    "G8" := "OTHER PRECIOUS AND BASE METALS", "G9" := "GOLD AND OTH PRECS METL JWLERY",
    "H1" := "SPORTS GOODS", "H2" := "FERTILEZERS CRUDE", "H3" := "FERTILEZERS MANUFACTURED",
    "H4" := "AYUSH AND HERBAL PRODUCTS", "H5" := "BULK DRUGS", "H6" := "DYE INTERMEDIATES", "H7" := "DYES",
    "H8" := "DRUG FORMULATIONS", "H9" := "AGRO CHEMICALS", "I1" := "SURGICALS",
    "I2" := "INORGANIC CHEMICALS", "I3" := "ORGANIC CHEMICALS", "I4" := "OTHER MISCELLAENIOUS CHEMICALS",
    "I5" := "COSMETICS AND TOILETRIES", "I6" := "ESSENTIAL OILS", "I7" := "RESIDUL CHEMICL AND ALLED PROD",
    "I8" := "AUTO TYRES AND TUBES", "I9" := "OTHR RUBBER PRODCT EXCPT FOOTW",
    "J1" := "FOOTWEAR OF RUBBER/CANVAS ETC.", "J2" := "PAINT", "J3" := "GRAPHITE", "J4" := "CMNT",
    "J5" := "CERAMICS AND ALLIED PRODUCTS", "J6" := "GLASS AND GLASSWARE", "J7" := "BOOKS",
    "J8" := "NEWSPRINT", "J9" := "PAPER", "K1" := "PLYWOOD AND ALLIED PRODUCTS",
    "K2" := "OTHER WOOD AND WOOD PRODUCTS", "K3" := "PULP AND WASTE PAPER",
    "K4" := "OPTICAL ITEMS (INCL.LENS ETC)", "K5" := "HUMAN HAIR", "K6" := "MOULDED AND EXTRUDED GOODS",
    "K7" := "PACKAGING MATERIALS", "K8" := "PLASTIC RAW MATERIALS", "K9" := "PLASTC SHT",
    "L1" := "STATIONRY/OFFCE", "L2" := "OTHER PLASTIC ITEMS", "L3" := "IRON AND STEEL",
    "L4" := "PRODUCTS OF IRON AND STEEL", "L5" := "ALUMINIUM", "L6" := "COPPER AND PRDCTS MADE OF COPR",
    "L7" := "LEAD AND PRODUCTS MADE OF LED", "L8" := "NICKEL", "L9" := "TIN AND PRODUCTS MADE OF TIN",
    "M1" := "ZINC AND PRODUCTS MADE OF ZINC", "M2" := "OTH NON FEROUS METAL AND PRODC",
    "M3" := "AUTO COMPONENTS/PARTS", "M4" := "ELECTRODES", "M5" := "ACCUMULATORS AND BATTERIES",
    "M6" := "HND TOOL", "M7" := "MACHINE TOOLS", "M8" := "MEDICAL AND SCIENTIFIC INSTRUM",
    "M9" := "OFFICE EQUIPMENTS", "N1" := "AC", "N2" := "BICYCLE AND PARTS", "N3" := "CRANES",
    "N4" := "ELECTRIC MACHINERY AND EQUIPME", "N5" := "IC ENGINES AND PARTS",
    "N6" := "INDL. MACHNRY FOR DAIRY ETC", "N7" := "ATM", "N8" := "NUCLER REACTR",
    "N9" := "OTHER CONSTRUCTION MACHINERY", "O1" := "OTHER MISC. ENGINEERING ITEMS",
    "O2" := "PRIME MICA AND MICA PRODUCTS", "O3" := "PUMPS OF ALL TYPES", "O4" := "AIRCRAFT",
    "O5" := "MOTOR VEHICLE/CARS", "O6" := "RAILWY TRNSPRT EQUIPMNTS", "O7" := "SHIP",
    "O8" := "TWO AND THREE WHEELERS", "O9" := "COMPUTER HARDWARE", "P1" := "CONSUMER ELECTRONICS",
    "P2" := "ELECTRONICS COMPONENTS", "P3" := "ELECTRONICS INSTRUMENTS", "P4" := "TELECOM INSTRUMENTS",
    "P5" := "PROJECT GOODS", "P6" := "MANMADE STAPLE FIBRE", "P7" := "COTTON YARN", "P8" := "COTTON FABRICS",
    "P9" := "OTH TXTL YRN", "Q1" := "SILK", "Q2" := "NATRL SILK YARN", "Q3" := "MANMADE YARN",
    "Q4" := "WOOL", "Q5" := "WOLLEN YARN", "Q6" := "RMG COTTON INCL ACCESSORIES", "Q7" := "RMG SILK",
    "Q8" := "RMG MANMADE FIBRES", "Q9" := "RMG WOOL", "R1" := "RMG OF OTHR TEXTLE MATRL",
    "R2" := "COIR AND COIR MANUFACTURES", "R3" := "HANDLOOM PRODUCTS", "R4" := "SILK WASTE", "R5" := "JUTE",
    "R6" := "JUTE YARN", "R7" := "JUTE HESSIAN", "R8" := "FLOOR CVRNG OF JUTE",
    "R9" := "OTHER JUTE MANUFACTURES", "S1" := "HANDCRFS(EXCL.HANDMADE CRPTS)",
    "S2" := "CARPET(EXCL. SILK) HANDMADE", "S3" := "SILK CARPET", "S4" := "COTTON RAW INCLD. WASTE",
    "S5" := "PETROLEUM: CRUDE", "S6" := "PETROLEUM PRODUCTS", "ZZ" := "OTHER COMMODITIES"]

  /** `VALUE_TYPES.get(v.lower(), "1")`: usd 1, quantity 2, inr 3. */
  function ValueCode(valueType: string): (code: string)
    ensures Lower(valueType) == "usd" ==> code == "1"
    ensures Lower(valueType) == "quantity" ==> code == "2"
    ensures Lower(valueType) == "inr" ==> code == "3"
    ensures Lower(valueType) !in {"usd", "quantity", "inr"} ==> code == "1"
  {
    var v := Lower(valueType);
    if v == "quantity" then "2" else if v == "inr" then "3" else "1"
  }

  /** `YEAR_TYPES.get(y.lower(), "1")`: financial 1, calendar 2. */
  function YearTypeCode(yearType: string): (code: string)
    ensures Lower(yearType) == "calendar" <==> code == "2"
    ensures code in {"1", "2"}
  {
    if Lower(yearType) == "calendar" then "2" else "1"
  }

  /** `get_commodity_name`: the name of the upper-cased code, or the code
      itself, unchanged, when the table lacks it. */
  function CommodityName(code: string): (name: string)
    ensures Upper(code) in PrincipalCommodities ==> name == PrincipalCommodities[Upper(code)]
    ensures Upper(code) !in PrincipalCommodities ==> name == code
  {
    if Upper(code) in PrincipalCommodities then PrincipalCommodities[Upper(code)] else code
  }

  /** The CSRF token of the optional state: "" without a state or without a
      token in it. */
  function Token(state: Option<map<string, string>>): (token: string)
    ensures state.Some? && "_token" in state.value ==> token == state.value["_token"]
    ensures state.None? || "_token" !in state.value ==> token == ""
  {
    match state
    case None => ""
    case Some(st) => if |st| > 0 && "_token" in st then st["_token"] else ""
  }

  /** The five direction-specific field names. */
  datatype FieldNames = FieldNames(month: string, year: string, commodity: string, report: string, yearType: string)

  /** The "p" names for export and the "imp" names for import. */
  function NamesFor(isExport: bool): (n: FieldNames)
    ensures isExport ==> n == FieldNames("pddMonth", "pddYear", "pbrcitmdata", "pddReportVal", "pddReportYear")
    ensures !isExport ==>
      n == FieldNames("impddMonth", "impddYear", "impbrcitmdata", "impddReportVal", "impddReportYear")
  {
    if isExport then FieldNames("pddMonth", "pddYear", "pbrcitmdata", "pddReportVal", "pddReportYear")
    else FieldNames("impddMonth", "impddYear", "impbrcitmdata", "impddReportVal", "impddReportYear")
  }

  /** A request: the report path and the form. */
  datatype Request = Request(path: string, payload: map<string, string>)

  /** `scrape_meidb_principal_commodity_wise_all_hscode` up to the POST: a
      month outside 1..12, a code that is not a principal commodity once
      upper-cased, or a trade type other than export or import in any case
      gives None. */
  function BuildRequest(commodityCode: string, month: int, year: int, tradeType: string, valueType: string,
                        yearType: string, state: Option<map<string, string>>): (r: Option<Request>)
    ensures r.Some? <==>
      1 <= month <= 12 && Upper(commodityCode) in PrincipalCommodities && Lower(tradeType) in {"export", "import"}
    ensures r.Some? ==>
      var isExport := Lower(tradeType) == "export";
      var n := NamesFor(isExport);
      && r.value.path == (if isExport then "/meidb/principal_commodity_wise_all_HSCode_export"
                          else "/meidb/principal_commodity_wise_all_HSCode_import")
      && r.value.payload.Keys == {"_token", n.month, n.year, n.commodity, n.report, n.yearType}
      && r.value.payload["_token"] == Token(state)
      && r.value.payload[n.month] == IntToString(month)
      && r.value.payload[n.year] == IntToString(year)
      && r.value.payload[n.commodity] == Upper(commodityCode)
      && r.value.payload[n.report] == ValueCode(valueType)
      && r.value.payload[n.yearType] == YearTypeCode(yearType)
  {
    if month < 1 || month > 12 then None
    else
      var code := Upper(commodityCode);
      if code !in PrincipalCommodities then None
      else
        var t := Lower(tradeType);
        if t != "export" && t != "import" then None
        else
          var isExport := t == "export";
          var n := NamesFor(isExport);
          var path := if isExport then "/meidb/principal_commodity_wise_all_HSCode_export"
                      else "/meidb/principal_commodity_wise_all_HSCode_import";
          Some(Request(path, Form(n, Token(state), IntToString(month), IntToString(year), code,
                                  ValueCode(valueType), YearTypeCode(yearType))))
  }

  /** The form under the given names. */
  function Form(n: FieldNames, token: string, month: string, year: string, commodity: string, report: string,
                yearType: string): (p: map<string, string>)
    requires n == NamesFor(true) || n == NamesFor(false)
    ensures p.Keys == {"_token", n.month, n.year, n.commodity, n.report, n.yearType}
    ensures && p["_token"] == token && p[n.month] == month && p[n.year] == year && p[n.commodity] == commodity
            && p[n.report] == report && p[n.yearType] == yearType
  {
    map["_token" := token, n.month := month, n.year := year, n.commodity := commodity,
        n.report := report, n.yearType := yearType]
  }

  /** The commodity sent is always a key of the table, so its name is
      known. */
  lemma SentCommodityIsNamed(commodityCode: string, month: int, year: int, tradeType: string,
                             valueType: string, yearType: string, state: Option<map<string, string>>)
    requires BuildRequest(commodityCode, month, year, tradeType, valueType, yearType, state).Some?
    ensures var r := BuildRequest(commodityCode, month, year, tradeType, valueType, yearType, state).value;
      var sent := r.payload[NamesFor(Lower(tradeType) == "export").commodity];
      sent in PrincipalCommodities && CommodityName(sent) == PrincipalCommodities[sent]
  {
    UpperIdempotent(commodityCode);
  }

  /** The code is matched ignoring case: the request for a code and for its
      upper-cased form are the same. */
  lemma CodeCaseIgnored(commodityCode: string, month: int, year: int, tradeType: string,
                        valueType: string, yearType: string, state: Option<map<string, string>>)
    ensures BuildRequest(commodityCode, month, year, tradeType, valueType, yearType, state) ==
            BuildRequest(Upper(commodityCode), month, year, tradeType, valueType, yearType, state)
  {
    UpperIdempotent(commodityCode);
  }
}
