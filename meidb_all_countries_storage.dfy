// Where the MEIDB commodity-wise all-countries scraper writes one month:
// a level directory named by the code's length, and a "_cal" file for the
// calendar year.
module MeidbAllCountriesStorage {
  import opened PyStr
  import opened PyNum
  import opened OsPath
  import opened StorageCommon

  /** `{hscode}_{month}_{year}_{value type}.json`, with "_cal" before
      ".json" for a calendar year; the value type is kept as given. */
  function FileName(hscode: string, month: int, year: int, valueType: string, yearType: string): string
  {
    var stem := hscode + "_" + MonthShort(month) + "_" + IntToString(year) + "_" + valueType;
    if Lower(yearType) == "calendar" then stem + "_cal" + ".json" else stem + ".json"
  }

  /** For a code that does not start with '/', the file name is one plain
      part. */
  lemma FileNamePlain(hscode: string, month: int, year: int, valueType: string, yearType: string)
    requires hscode == [] || hscode[0] != '/'
    ensures Plain(FileName(hscode, month, year, valueType, yearType))
  {
    var f := FileName(hscode, month, year, valueType, yearType);
    var stem := hscode + "_" + MonthShort(month) + "_" + IntToString(year) + "_" + valueType;
    assert f[|f| - 1] == 'n';
    assert f[0] == stem[0] == (hscode + "_")[0];
  }

  /** `get_output_path`: the file in
      base/meidb/commodity_wise_all_countries/<trade type>/level_<code length>,
      the trade type kept as given. */
  function OutputPath(baseDir: string, hscode: string, month: int, year: int, tradeType: string,
                      valueType: string, yearType: string): string
  {
    Join(Join(Join(Join(Join(baseDir, "meidb"), "commodity_wise_all_countries"), tradeType), LevelDir(|hscode|)),
         FileName(hscode, month, year, valueType, yearType))
  }

  /** Below a base directory without a trailing '/', and for a plain trade
      type, the path is the five parts one '/' apart, the level directory
      named by the code's length. */
  lemma OutputPathLayout(baseDir: string, hscode: string, month: int, year: int, tradeType: string,
                         valueType: string, yearType: string)
    requires baseDir != [] && baseDir[|baseDir| - 1] != '/'
    requires Plain(tradeType)
    requires hscode == [] || hscode[0] != '/'
    ensures OutputPath(baseDir, hscode, month, year, tradeType, valueType, yearType)
            == baseDir + "/" + "meidb" + "/" + "commodity_wise_all_countries" + "/" + tradeType + "/"
               + LevelDir(|hscode|) + "/" + FileName(hscode, month, year, valueType, yearType)
  {
    LevelDirPlain(|hscode|);
    FileNamePlain(hscode, month, year, valueType, yearType);
    JoinPlain(baseDir, "meidb");
    var d1 := baseDir + "/" + "meidb";
    JoinPlain(d1, "commodity_wise_all_countries");
    var d2 := d1 + "/" + "commodity_wise_all_countries";
    JoinPlain(d2, tradeType);
    var d3 := d2 + "/" + tradeType;
    JoinPlain(d3, LevelDir(|hscode|));
    JoinPlain(d3 + "/" + LevelDir(|hscode|), FileName(hscode, month, year, valueType, yearType));
  }

  /** The calendar-year file of a month is never its financial-year file:
      it is the same name with "_cal" before ".json". */
  lemma CalendarFileSeparate(baseDir: string, hscode: string, month: int, year: int, tradeType: string,
                             valueType: string, calendar: string, financial: string)
    requires Lower(calendar) == "calendar" && Lower(financial) != "calendar"
    requires hscode == [] || hscode[0] != '/'
    ensures var c, f := FileName(hscode, month, year, valueType, calendar),
                        FileName(hscode, month, year, valueType, financial);
      c == f[..|f| - 5] + "_cal" + ".json"
    ensures OutputPath(baseDir, hscode, month, year, tradeType, valueType, calendar) !=
            OutputPath(baseDir, hscode, month, year, tradeType, valueType, financial)
  {
    var c := FileName(hscode, month, year, valueType, calendar);
    var f := FileName(hscode, month, year, valueType, financial);
    var stem := hscode + "_" + MonthShort(month) + "_" + IntToString(year) + "_" + valueType;
    assert f == stem + ".json" && f[..|f| - 5] == stem;
    assert |c| == |f| + 4;
    FileNamePlain(hscode, month, year, valueType, calendar);
    FileNamePlain(hscode, month, year, valueType, financial);
    JoinDistinct(Join(Join(Join(Join(baseDir, "meidb"), "commodity_wise_all_countries"), tradeType),
                      LevelDir(|hscode|)), c, f);
  }
}
