// Where the commodity x country time-series scraper writes a series, and the
// storage entry it adds to the document before writing it.
module TimeseriesStorage {
  import opened PyStr
  import opened OsPath
  import opened SafeNames
  import opened StorageCommon

  /** `hs{code}_{country code}_{SAFE NAME}_{from}-{to}_{value type}.json`,
      the value type lower-cased. */
  function FileName(hscode: string, countryCode: string, countryName: string, fromYear: string,
                    toYear: string, valueType: string): (f: string)
    ensures Plain(f)
  {
    var f := "hs" + hscode + "_" + countryCode + "_" + SanitizeFilename(countryName) + "_" + fromYear + "-"
             + toYear + "_" + Lower(valueType) + ".json";
    assert f[0] == 'h' && f[|f| - 1] == 'n';
    f
  }

  /** `get_output_path`: the file in
      base/eidb/commodity_x_country_timeseries/<trade type lower-cased>. */
  function OutputPath(baseDir: string, tradeType: string, hscode: string, countryCode: string,
                      countryName: string, fromYear: string, toYear: string, valueType: string): string
  {
    Join(Join(Join(Join(baseDir, "eidb"), "commodity_x_country_timeseries"), Lower(tradeType)),
         FileName(hscode, countryCode, countryName, fromYear, toYear, valueType))
  }

  /** Below a base directory without a trailing '/', and for a plain trade
      type, the path is the four parts one '/' apart, and the country name
      in it holds no whitespace. */
  lemma OutputPathLayout(baseDir: string, tradeType: string, hscode: string, countryCode: string,
                         countryName: string, fromYear: string, toYear: string, valueType: string)
    requires baseDir != [] && baseDir[|baseDir| - 1] != '/'
    requires Plain(tradeType)
    ensures OutputPath(baseDir, tradeType, hscode, countryCode, countryName, fromYear, toYear, valueType)
            == baseDir + "/" + "eidb" + "/" + "commodity_x_country_timeseries" + "/" + Lower(tradeType) + "/"
               + FileName(hscode, countryCode, countryName, fromYear, toYear, valueType)
    ensures NoSpace(SanitizeFilename(countryName))
  {
    LowerKeepsPlain(tradeType);
    var f := FileName(hscode, countryCode, countryName, fromYear, toYear, valueType);
    JoinPlain(baseDir, "eidb");
    var d1 := baseDir + "/" + "eidb";
    JoinPlain(d1, "commodity_x_country_timeseries");
    var d2 := d1 + "/" + "commodity_x_country_timeseries";
    JoinPlain(d2, Lower(tradeType));
    JoinPlain(d2 + "/" + Lower(tradeType), f);
  }

  /** Two value types that differ other than in case are written to two
      different files, and two that differ only in case to the same one. */
  lemma ValueTypesSeparate(baseDir: string, tradeType: string, hscode: string, countryCode: string,
                           countryName: string, fromYear: string, toYear: string, v1: string, v2: string)
    ensures Lower(v1) != Lower(v2) <==>
            OutputPath(baseDir, tradeType, hscode, countryCode, countryName, fromYear, toYear, v1) !=
            OutputPath(baseDir, tradeType, hscode, countryCode, countryName, fromYear, toYear, v2)
  {
    if Lower(v1) != Lower(v2) {
      var head := "hs" + hscode + "_" + countryCode + "_" + SanitizeFilename(countryName) + "_" + fromYear + "-"
                  + toYear + "_";
      MiddleDistinct(head, Lower(v1), Lower(v2), ".json");
      var f1 := FileName(hscode, countryCode, countryName, fromYear, toYear, v1);
      var f2 := FileName(hscode, countryCode, countryName, fromYear, toYear, v2);
      assert f1 == head + Lower(v1) + ".json" && f2 == head + Lower(v2) + ".json";
      JoinDistinct(Join(Join(Join(baseDir, "eidb"), "commodity_x_country_timeseries"), Lower(tradeType)), f1, f2);
    }
  }

  /** `save_timeseries_data` without the directory creation and the write:
      the document gains a "storage" entry naming the returned path, its
      format and encoding, and the time it was saved (given). */
  method SaveTimeseriesData(doc: Document, baseDir: string, tradeType: string, hscode: string,
                            countryCode: string, countryName: string, fromYear: string, toYear: string,
                            valueType: string, savedAt: string) returns (path: string)
    modifies doc
    ensures path == OutputPath(baseDir, tradeType, hscode, countryCode, countryName, fromYear, toYear, valueType)
    ensures doc.fields == old(doc.fields)["storage" := Obj(map["saved_at" := Str(savedAt), "file_path" := Str(path),
                                                               "format" := Str("JSON"), "encoding" := Str("UTF-8")])]
  {
    path := OutputPath(baseDir, tradeType, hscode, countryCode, countryName, fromYear, toYear, valueType);
    doc.SetStorage(map["saved_at" := Str(savedAt), "file_path" := Str(path),
                       "format" := Str("JSON"), "encoding" := Str("UTF-8")]);
  }
}
