// Where the time-series package writes a series: one directory per trade
// type, the country name reduced to word characters.
module TimeseriesLibStorage {
  import opened PyStr
  import opened OsPath
  import opened SafeNames
  import opened StorageCommon

  /** `hs{code}_{country code}_{SAFE NAME}_{from}-{to}_{value type}.json`,
      every non-word character of the name made '_' and the value type kept
      as given. */
  function FileName(hscode: string, countryCode: string, countryName: string, fromYear: string, toYear: string,
                    valueType: string): (f: string)
    ensures Plain(f)
  {
    var f := "hs" + hscode + "_" + countryCode + "_" + WordOnlyUpper(countryName) + "_" + fromYear + "-" + toYear
             + "_" + valueType + ".json";
    assert f[0] == 'h' && f[|f| - 1] == 'n';
    f
  }

  /** `get_output_path`: the file in base/<trade type lower-cased>. */
  function OutputPath(baseDir: string, tradeType: string, hscode: string, countryCode: string,
                      countryName: string, fromYear: string, toYear: string, valueType: string): string
  {
    Join(Join(baseDir, Lower(tradeType)), FileName(hscode, countryCode, countryName, fromYear, toYear, valueType))
  }

  /** Below a base directory without a trailing '/', and for a plain trade
      type, the path is base/trade/file; the name in it has one word
      character per character of the country name. */
  lemma OutputPathLayout(baseDir: string, tradeType: string, hscode: string, countryCode: string,
                         countryName: string, fromYear: string, toYear: string, valueType: string)
    requires baseDir != [] && baseDir[|baseDir| - 1] != '/'
    requires Plain(tradeType)
    ensures OutputPath(baseDir, tradeType, hscode, countryCode, countryName, fromYear, toYear, valueType)
            == baseDir + "/" + Lower(tradeType) + "/"
               + FileName(hscode, countryCode, countryName, fromYear, toYear, valueType)
    ensures |WordOnlyUpper(countryName)| == |countryName|
  {
    LowerKeepsPlain(tradeType);
    JoinPlain(baseDir, Lower(tradeType));
    JoinPlain(baseDir + "/" + Lower(tradeType), FileName(hscode, countryCode, countryName, fromYear, toYear, valueType));
  }

  /** Two value types are two files; unlike the scraper's own storage, the
      case of the value type is kept, so "USD" and "usd" are two files. */
  lemma ValueTypesSeparate(baseDir: string, tradeType: string, hscode: string, countryCode: string,
                           countryName: string, fromYear: string, toYear: string, v1: string, v2: string)
    requires v1 != v2
    ensures OutputPath(baseDir, tradeType, hscode, countryCode, countryName, fromYear, toYear, v1) !=
            OutputPath(baseDir, tradeType, hscode, countryCode, countryName, fromYear, toYear, v2)
  {
    var head := "hs" + hscode + "_" + countryCode + "_" + WordOnlyUpper(countryName) + "_" + fromYear + "-"
                + toYear + "_";
    MiddleDistinct(head, v1, v2, ".json");
    var f1 := FileName(hscode, countryCode, countryName, fromYear, toYear, v1);
    var f2 := FileName(hscode, countryCode, countryName, fromYear, toYear, v2);
    assert f1 == head + v1 + ".json" && f2 == head + v2 + ".json";
    JoinDistinct(Join(baseDir, Lower(tradeType)), f1, f2);
  }

  /** `save_data` without the directory creation and the write: the
      document gains a "storage" entry naming the returned path and the time
      it was saved (given). */
  method SaveData(doc: Document, baseDir: string, tradeType: string, hscode: string, countryCode: string,
                  countryName: string, fromYear: string, toYear: string, valueType: string, savedAt: string)
    returns (path: string)
    modifies doc
    ensures path == OutputPath(baseDir, tradeType, hscode, countryCode, countryName, fromYear, toYear, valueType)
    ensures doc.fields == old(doc.fields)["storage" := Obj(map["saved_at" := Str(savedAt), "file_path" := Str(path)])]
  {
    path := OutputPath(baseDir, tradeType, hscode, countryCode, countryName, fromYear, toYear, valueType);
    doc.SetStorage(map["saved_at" := Str(savedAt), "file_path" := Str(path)]);
  }
}
