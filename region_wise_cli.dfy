// The command line of the region-wise all-commodities scraper: the years
// it scrapes, the fiscal year of each, and the file each year's data is
// written to.
module RegionWiseCli {
  import opened Wrappers
  import opened PyStr
  import opened PyNum
  import ChapterWiseScraper
  import RegionCommoditiesScraper
  import opened OsPath

  /** `AVAILABLE_YEARS` of the region-wise scraper. */
  const AvailableYears: seq<string> := ["2024", "2023", "2022", "2021", "2020", "2019", "2018"]

  /** The years to scrape: `--all-years`, else the `--years` list, else
      `--year`, else 2024 alone. An absent `--years` is the empty list and
      an absent `--year` is "" (both are falsy). */
  function Years(year: string, years: seq<string>, allYears: bool): (ys: seq<string>)
    ensures |ys| >= 1
    ensures allYears ==> ys == AvailableYears
    ensures !allYears && years != [] ==> ys == years
    ensures !allYears && years == [] ==> ys == [if year != "" then year else "2024"]
  {
    if allYears then AvailableYears
    else if years != [] then years
    else if year != "" then [year]
    else ["2024"]
  }

  /** `f"{year}-{int(year)+1}"`: the year as typed, then the next year;
      a year `int()` cannot read raises ValueError. */
  function FiscalYear(year: string): (r: Result<string>)
    ensures r.Failure? <==> ParseInt(year).None?
    ensures r.Failure? ==> r.error.ValueError?
    ensures r.Success? ==> r.value == year + "-" + IntToString(ParseInt(year).value + 1)
  {
    match ParseInt(year)
    case None => Failure(ValueError("invalid literal for int() with base 10"))
    case Some(y) => Success(year + "-" + IntToString(y + 1))
  }

  /** The characters the safe region name leaves out. */
  const Unsafe: set<char> := {' ', '&', '(', ')', '-'}

  /** The file-system-safe region name: spaces to '_', '&' to "and",
      parentheses dropped, '-' to '_'. */
  function SafeRegion(name: string): (safe: string)
    ensures forall c :: c in safe ==> c !in Unsafe
    ensures forall c :: c in safe ==> c in name || c in "_and"
  {
    var a := ReplaceChar(name, ' ', "_");
    assert forall x :: x in a ==> x in "_and" || (x in name && x != ' ');
    var b := ReplaceChar(a, '&', "and");
    assert forall x :: x in b ==> x in "_and" || (x in name && x !in {' ', '&'});
    var c := Remove(b, '(');
    RemoveOnlyDrops(b, '(');
    var d := Remove(c, ')');
    RemoveOnlyDrops(c, ')');
    ReplaceChar(d, '-', "_")
  }

  /** A name that is already safe is kept as it is. */
  lemma SafeRegionKeepsSafe(name: string)
    requires forall c :: c in name ==> c !in Unsafe
    ensures SafeRegion(name) == name
  {
    ReplaceCharAbsent(name, ' ', "_");
    ReplaceCharAbsent(name, '&', "and");
    RemoveAbsent(name, '(');
    RemoveAbsent(name, ')');
    ReplaceCharAbsent(name, '-', "_");
  }

  /** Making a name safe twice changes nothing more. */
  lemma SafeRegionIdempotent(name: string)
    ensures SafeRegion(SafeRegion(name)) == SafeRegion(name)
  {
    SafeRegionKeepsSafe(SafeRegion(name));
  }

  /** The head shared by both file-name patterns. */
  function Head(regionCode: string, safe: string): string
  {
    "region_" + regionCode + "_" + safe + "_"
  }

  /** The name of one year's file: the level pattern for "all", the code
      pattern for any other code, between the same head and tail. */
  function FileName(regionCode: string, regionName: string, hsCode: string, fiscalYear: string,
                    valueType: string): string
  {
    var head := Head(regionCode, SafeRegion(regionName));
    var tail := "_" + fiscalYear + "_" + valueType + ".json";
    if hsCode == "all" then head + "all_level" + ChapterWiseScraper.HsLevel(hsCode) + tail
    else head + "hs" + hsCode + tail
  }

  /** Two different codes of one region, year and value type are written to
      different files, and the "all" file is never a code's file. */
  lemma {:induction false} FileNamesDistinct(regionCode: string, regionName: string, h1: string, h2: string,
                                             fiscalYear: string, valueType: string)
    requires h1 != h2
    ensures FileName(regionCode, regionName, h1, fiscalYear, valueType) !=
            FileName(regionCode, regionName, h2, fiscalYear, valueType)
  {
    var head := Head(regionCode, SafeRegion(regionName));
    var tail := "_" + fiscalYear + "_" + valueType + ".json";
    var f1 := FileName(regionCode, regionName, h1, fiscalYear, valueType);
    var f2 := FileName(regionCode, regionName, h2, fiscalYear, valueType);
    if h1 != "all" && h2 != "all" {
      var n := |head| + 2;
      assert f1 == (head + "hs") + h1 + tail;
      assert f2 == (head + "hs") + h2 + tail;
      assert f1[n..|f1| - |tail|] == h1;
      assert f2[n..|f2| - |tail|] == h2;
    } else if h1 == "all" {
      assert f1[|head|] == 'a' && f2[|head|] == 'h';
    } else {
      assert f1[|head|] == 'h' && f2[|head|] == 'a';
    }
  }

  /** The file of one year: `output/type/level_N/file`, for the stripped
      region and code arguments and the table's name of the region. A year
      `int()` cannot read raises ValueError before any path is made. */
  function OutputPath(output: string, tradeType: string, regionArg: string, hsArg: string,
                      year: string, valueType: string): (r: Result<string>)
    requires tradeType in {"export", "import"}
    ensures r.Failure? <==> FiscalYear(year).Failure?
    ensures r.Success? ==>
      var code, hs := Strip(regionArg), Strip(hsArg);
      r.value == Join(Join(Join(output, tradeType), "level_" + ChapterWiseScraper.HsLevel(hs)),
                      FileName(code, RegionCommoditiesScraper.RegionName(code), hs, FiscalYear(year).value, valueType))
  {
    var code, hs := Strip(regionArg), Strip(hsArg);
    match FiscalYear(year)
    case Failure(e) => Failure(e)
    case Success(fy) =>
      var level := "level_" + ChapterWiseScraper.HsLevel(hs);
      Success(Join(Join(Join(output, tradeType), level),
                   FileName(code, RegionCommoditiesScraper.RegionName(code), hs, fy, valueType)))
  }

  lemma FileNameRelative(regionCode: string, regionName: string, hsCode: string, fiscalYear: string,
                         valueType: string)
    ensures Plain(FileName(regionCode, regionName, hsCode, fiscalYear, valueType))
  {
    var f := FileName(regionCode, regionName, hsCode, fiscalYear, valueType);
    assert f == "region_" + f[7..];
    assert f == f[..|f| - 5] + ".json";
  }

  lemma LevelDirectoryPlain(hs: string)
    ensures Plain("level_" + ChapterWiseScraper.HsLevel(hs))
  {
  }

  /** Below an output directory without a trailing '/', the path is the
      directory, the trade type, the level directory of the code's level
      and the file name, one '/' apart. */
  lemma OutputPathLayout(output: string, tradeType: string, regionArg: string, hsArg: string,
                         year: string, valueType: string)
    requires tradeType in {"export", "import"}
    requires output != [] && output[|output| - 1] != '/'
    requires ParseInt(year).Some?
    ensures var code, hs := Strip(regionArg), Strip(hsArg);
      var level := "level_" + ChapterWiseScraper.HsLevel(hs);
      OutputPath(output, tradeType, regionArg, hsArg, year, valueType) ==
      Success(output + "/" + tradeType + "/" + level + "/"
              + FileName(code, RegionCommoditiesScraper.RegionName(code), hs, FiscalYear(year).value, valueType))
  {
    var code, hs := Strip(regionArg), Strip(hsArg);
    var level := "level_" + ChapterWiseScraper.HsLevel(hs);
    assert Plain(tradeType);
    var f := FileName(code, RegionCommoditiesScraper.RegionName(code), hs, FiscalYear(year).value, valueType);
    FileNameRelative(code, RegionCommoditiesScraper.RegionName(code), hs, FiscalYear(year).value, valueType);
    LevelDirectoryPlain(hs);
    JoinThreePlain(output, tradeType, level, f);
  }
}
