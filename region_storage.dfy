// Where the region-wise all-commodities scraper writes one region's year,
// and the storage entry it adds to the document before writing it.
module RegionStorage {
  import opened PyStr
  import opened OsPath
  import opened SafeNames
  import opened StorageCommon

  /** `{code}_{SAFE NAME}_{year}_{value type}.json`, the value type
      lower-cased. */
  function FileName(countryCode: string, countryName: string, year: string, valueType: string): string
  {
    countryCode + "_" + SanitizeFilename(countryName) + "_" + year + "_" + Lower(valueType) + ".json"
  }

  /** For a code that does not start with '/', the file name is one plain
      part. */
  lemma FileNamePlain(countryCode: string, countryName: string, year: string, valueType: string)
    requires countryCode == [] || countryCode[0] != '/'
    ensures Plain(FileName(countryCode, countryName, year, valueType))
  {
    var f := FileName(countryCode, countryName, year, valueType);
    assert f[|f| - 1] == 'n';
    assert f[0] == (countryCode + "_")[0];
  }

  /** `get_output_path`: the file in
      base/eidb/region_wise_all_commodities/<trade type lower-cased>/level_<level>. */
  function OutputPath(baseDir: string, tradeType: string, countryCode: string, countryName: string,
                      year: string, digitLevel: int, valueType: string): string
  {
    Join(Join(Join(Join(Join(baseDir, "eidb"), "region_wise_all_commodities"), Lower(tradeType)), LevelDir(digitLevel)),
         FileName(countryCode, countryName, year, valueType))
  }

  /** Below a base directory without a trailing '/', and for a plain trade
      type, the path is the five parts one '/' apart. */
  lemma OutputPathLayout(baseDir: string, tradeType: string, countryCode: string, countryName: string,
                         year: string, digitLevel: int, valueType: string)
    requires baseDir != [] && baseDir[|baseDir| - 1] != '/'
    requires Plain(tradeType)
    requires countryCode == [] || countryCode[0] != '/'
    ensures OutputPath(baseDir, tradeType, countryCode, countryName, year, digitLevel, valueType)
            == baseDir + "/" + "eidb" + "/" + "region_wise_all_commodities" + "/" + Lower(tradeType) + "/"
               + LevelDir(digitLevel) + "/" + FileName(countryCode, countryName, year, valueType)
  {
    LowerKeepsPlain(tradeType);
    LevelDirPlain(digitLevel);
    FileNamePlain(countryCode, countryName, year, valueType);
    JoinPlain(baseDir, "eidb");
    var d1 := baseDir + "/" + "eidb";
    JoinPlain(d1, "region_wise_all_commodities");
    var d2 := d1 + "/" + "region_wise_all_commodities";
    JoinPlain(d2, Lower(tradeType));
    var d3 := d2 + "/" + Lower(tradeType);
    JoinPlain(d3, LevelDir(digitLevel));
    JoinPlain(d3 + "/" + LevelDir(digitLevel), FileName(countryCode, countryName, year, valueType));
  }

  /** Two years of one region, level and value type are two files. */
  lemma YearsSeparate(baseDir: string, tradeType: string, countryCode: string, countryName: string,
                      y1: string, y2: string, digitLevel: int, valueType: string)
    requires y1 != y2
    requires countryCode == [] || countryCode[0] != '/'
    ensures OutputPath(baseDir, tradeType, countryCode, countryName, y1, digitLevel, valueType) !=
            OutputPath(baseDir, tradeType, countryCode, countryName, y2, digitLevel, valueType)
  {
    var head := countryCode + "_" + SanitizeFilename(countryName) + "_";
    var tail := "_" + Lower(valueType) + ".json";
    MiddleDistinct(head, y1, y2, tail);
    var f1 := FileName(countryCode, countryName, y1, valueType);
    var f2 := FileName(countryCode, countryName, y2, valueType);
    assert f1 == head + y1 + tail && f2 == head + y2 + tail;
    FileNamePlain(countryCode, countryName, y1, valueType);
    FileNamePlain(countryCode, countryName, y2, valueType);
    JoinDistinct(Join(Join(Join(Join(baseDir, "eidb"), "region_wise_all_commodities"), Lower(tradeType)),
                      LevelDir(digitLevel)), f1, f2);
  }

  /** `save_region_wise_all_commodities_data` without the directory
      creation and the write: the document gains a "storage" entry naming
      the returned path, its format and encoding, and the time it was saved
      (given). */
  method SaveRegionWiseAllCommoditiesData(doc: Document, baseDir: string, tradeType: string, countryCode: string,
                                          countryName: string, year: string, digitLevel: int, valueType: string,
                                          savedAt: string) returns (path: string)
    modifies doc
    ensures path == OutputPath(baseDir, tradeType, countryCode, countryName, year, digitLevel, valueType)
    ensures doc.fields == old(doc.fields)["storage" := Obj(map["saved_at" := Str(savedAt), "file_path" := Str(path),
                                                               "format" := Str("JSON"), "encoding" := Str("UTF-8")])]
  {
    path := OutputPath(baseDir, tradeType, countryCode, countryName, year, digitLevel, valueType);
    doc.SetStorage(map["saved_at" := Str(savedAt), "file_path" := Str(path),
                       "format" := Str("JSON"), "encoding" := Str("UTF-8")]);
  }
}
