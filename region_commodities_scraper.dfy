// The request side of the region-wise all-commodities scraper: the region
// table and its two-level grouping, the level and value-type defaults, and
// the form fields sent for each direction.
module RegionCommoditiesScraper {
  import opened PyStr
  import ChapterWiseScraper

  /** `REGIONS`: main regions have one-character codes, sub-regions longer
      codes that start with their main region's code. */
  const Regions: map<string, string> := map[
    "1" := "Europe", "2" := "Africa", "3" := "America", "4" := "Asia",
    "5" := "CIS & Baltics", "9" := "Unspecified Region",
    "111" := "EU Countries", "112" := "European Free Trade Association (EFTA)",
    "120" := "Other European Countries",
    "210" := "Southern African Customs Union (SACU)", "211" := "Other South African Countries",
    "220" := "West Africa", "230" := "Central Africa", "240" := "East Africa",
    "250" := "North Africa",
    "310" := "North America", "320" := "Latin America",
    "410" := "East Asia (Oceania)", "420" := "ASEAN", "430" := "West Asia - GCC",
    "431" := "Other West Asia", "440" := "NE Asia", "450" := "South Asia",
    "510" := "CARs Countries", "520" := "Other CIS Countries", "530" := "Baltics Countries",
    "999" := "Unspecified"]

  /** `get_region_name`: the table's name, or "Unknown (code)". */
  function RegionName(code: string): (name: string)
    ensures code in Regions ==> name == Regions[code]
    ensures code !in Regions ==> name == "Unknown (" + code + ")"
  {
    if code in Regions then Regions[code] else "Unknown (" + code + ")"
  }

  /** `get_main_regions` over a region table. */
  function MainRegions(regions: map<string, string>): (main: map<string, string>)
    ensures forall k :: k in main <==> k in regions && |k| == 1
    ensures forall k :: k in main ==> main[k] == regions[k]
  {
    map k | k in regions && |k| == 1 :: regions[k]
  }

  /** `get_sub_regions(m)` over a region table. */
  function SubRegions(regions: map<string, string>, m: string): (subs: map<string, string>)
    ensures forall k :: k in subs <==> k in regions && |k| > 1 && StartsWith(k, m)
    ensures forall k :: k in subs ==> subs[k] == regions[k]
  {
    map k | k in regions && |k| > 1 && StartsWith(k, m) :: regions[k]
  }

  /** No code is both a main region and anyone's sub-region. */
  lemma MainAndSubDisjoint(regions: map<string, string>, m: string)
    ensures MainRegions(regions).Keys !! SubRegions(regions, m).Keys
  {
  }

  /** For a main region's code, a longer code is its sub-region exactly when
      it starts with that one character; so no sub-region falls under two
      main regions. */
  lemma {:induction false} SubRegionOfOneMain(regions: map<string, string>, m1: string, m2: string, k: string)
    requires m1 in MainRegions(regions) && m2 in MainRegions(regions)
    requires k in SubRegions(regions, m1) && k in SubRegions(regions, m2)
    ensures m1 == m2
  {
    assert m1 == k[..1] && m2 == k[..1];
  }

  /** A table is grouped when no code is empty and every longer code
      starts with the code of a main region of the table. */
  predicate Grouped(regions: map<string, string>)
  {
    forall k :: k in regions ==> |k| >= 1 && (|k| > 1 ==> k[..1] in regions)
  }

  /** `REGIONS` is grouped. */
  lemma RegionsGrouped()
    ensures Grouped(Regions)
  {
    var mains := {"1", "2", "3", "4", "5", "9"};
    forall k | k in Regions ensures |k| >= 1 && (|k| > 1 ==> k[..1] in Regions) {
      assert |k| >= 1 && k[..1] in mains by {
        assert k[0] in {'1', '2', '3', '4', '5', '9'};
        assert k[..1] == [k[0]];
      }
    }
  }

  /** In a grouped table every region is a main region or a sub-region of
      exactly the main region its first character names. */
  lemma {:induction false} EveryRegionGrouped(regions: map<string, string>, k: string)
    requires Grouped(regions) && k in regions
    ensures k in MainRegions(regions) || (k[..1] in MainRegions(regions) && k in SubRegions(regions, k[..1]))
  {
    if |k| != 1 {
      assert StartsWith(k, k[..1]);
    }
  }

  /** An unknown level is sent as "2". */
  function NormalisedLevel(hsLevel: string): (level: string)
    ensures level in ChapterWiseScraper.HsLevels
    ensures hsLevel in ChapterWiseScraper.HsLevels ==> level == hsLevel
  {
    if hsLevel in ChapterWiseScraper.HsLevels then hsLevel else "2"
  }

  /** Normalising twice changes nothing more. */
  lemma NormalisedLevelIdempotent(hsLevel: string)
    ensures NormalisedLevel(NormalisedLevel(hsLevel)) == NormalisedLevel(hsLevel)
  {
  }

  /** The four direction-specific field names. */
  datatype FormNames = FormNames(year: string, region: string, level: string, report: string)

  /** eidbRwacme* names for "export", eidbRwacmi* names for anything else. */
  function NamesFor(tradeType: string): (n: FormNames)
    ensures tradeType == "export" ==>
      n == FormNames("eidbRwacmeYear", "eidbRwacmereg", "eidbRwacmeLevel", "eidbRwacmeReport")
    ensures tradeType != "export" ==>
      n == FormNames("eidbRwacmiYear", "eidbRwacmireg", "eidbRwacmiLevel", "eidbRwacmiReport")
  {
    if tradeType == "export" then FormNames("eidbRwacmeYear", "eidbRwacmereg", "eidbRwacmeLevel", "eidbRwacmeReport")
    else FormNames("eidbRwacmiYear", "eidbRwacmireg", "eidbRwacmiLevel", "eidbRwacmiReport")
  }

  /** The form of `fetch_region_commodities_data`: the token and the same
      four values under the direction's names, the level normalised and the
      value type coded. */
  function Payload(token: string, tradeType: string, year: string, regionCode: string,
                   hsLevel: string, valueType: string): (payload: map<string, string>)
    ensures var n := NamesFor(tradeType);
      && payload.Keys == {"_token", n.year, n.region, n.level, n.report}
      && payload["_token"] == token && payload[n.year] == year
      && payload[n.region] == regionCode && payload[n.level] == NormalisedLevel(hsLevel)
      && payload[n.report] == ChapterWiseScraper.ValueCode(valueType)
      && payload[n.level] in ChapterWiseScraper.HsLevels
  {
    var n := NamesFor(tradeType);
    map["_token" := token, n.year := year, n.region := regionCode,
        n.level := NormalisedLevel(hsLevel), n.report := ChapterWiseScraper.ValueCode(valueType)]
  }
}
