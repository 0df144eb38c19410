// Where the region-wise package writes one region's year: a level
// directory per trade type, the country name reduced to word characters.
module RegionLibStorage {
  import opened PyStr
  import opened OsPath
  import opened SafeNames
  import opened StorageCommon

  /** `{code}_{SAFE NAME}_{year}_{value type}.json`, the value type kept as
      given. */
  function FileName(countryCode: string, countryName: string, year: string, valueType: string): string
  {
    countryCode + "_" + WordOnlyUpper(countryName) + "_" + year + "_" + valueType + ".json"
  }

  /** For a code that does not start with '/', the file name is one plain
      part. */
  lemma FileNamePlain(countryCode: string, countryName: string, year: string, valueType: string)
    requires countryCode == [] || countryCode[0] != '/'
    ensures Plain(FileName(countryCode, countryName, year, valueType))
  {
    var f := FileName(countryCode, countryName, year, valueType);
    assert f[|f| - 1] == 'n';
    assert f[0] == (countryCode + "_")[0];
  }

  /** `get_output_path`: the file in base/<trade type lower-cased>/level_<level>. */
  function OutputPath(baseDir: string, tradeType: string, countryCode: string, countryName: string,
                      year: string, digitLevel: int, valueType: string): string
  {
    Join(Join(Join(baseDir, Lower(tradeType)), LevelDir(digitLevel)), FileName(countryCode, countryName, year, valueType))
  }

  /** Below a base directory without a trailing '/', and for a plain trade
      type, the path is base/trade/level_N/file. */
  lemma OutputPathLayout(baseDir: string, tradeType: string, countryCode: string, countryName: string,
                         year: string, digitLevel: int, valueType: string)
    requires baseDir != [] && baseDir[|baseDir| - 1] != '/'
    requires Plain(tradeType)
    requires countryCode == [] || countryCode[0] != '/'
    ensures OutputPath(baseDir, tradeType, countryCode, countryName, year, digitLevel, valueType)
            == baseDir + "/" + Lower(tradeType) + "/" + LevelDir(digitLevel) + "/"
               + FileName(countryCode, countryName, year, valueType)
  {
    LowerKeepsPlain(tradeType);
    LevelDirPlain(digitLevel);
    FileNamePlain(countryCode, countryName, year, valueType);
    JoinThreePlain(baseDir, Lower(tradeType), LevelDir(digitLevel), FileName(countryCode, countryName, year, valueType));
  }

  /** Two years of one region, level and value type are two files. */
  lemma YearsSeparate(baseDir: string, tradeType: string, countryCode: string, countryName: string,
                      y1: string, y2: string, digitLevel: int, valueType: string)
    requires y1 != y2
    requires countryCode == [] || countryCode[0] != '/'
    ensures OutputPath(baseDir, tradeType, countryCode, countryName, y1, digitLevel, valueType) !=
            OutputPath(baseDir, tradeType, countryCode, countryName, y2, digitLevel, valueType)
  {
    var head := countryCode + "_" + WordOnlyUpper(countryName) + "_";
    var tail := "_" + valueType + ".json";
    MiddleDistinct(head, y1, y2, tail);
    var f1 := FileName(countryCode, countryName, y1, valueType);
    var f2 := FileName(countryCode, countryName, y2, valueType);
    assert f1 == head + y1 + tail && f2 == head + y2 + tail;
    FileNamePlain(countryCode, countryName, y1, valueType);
    FileNamePlain(countryCode, countryName, y2, valueType);
    JoinDistinct(Join(Join(baseDir, Lower(tradeType)), LevelDir(digitLevel)), f1, f2);
  }

  /** `save_data` without the directory creation and the write: the
      document gains a "storage" entry naming the returned path and the time
      it was saved (given). */
  method SaveData(doc: Document, baseDir: string, tradeType: string, countryCode: string, countryName: string,
                  year: string, digitLevel: int, valueType: string, savedAt: string) returns (path: string)
    modifies doc
    ensures path == OutputPath(baseDir, tradeType, countryCode, countryName, year, digitLevel, valueType)
    ensures doc.fields == old(doc.fields)["storage" := Obj(map["saved_at" := Str(savedAt), "file_path" := Str(path)])]
  {
    path := OutputPath(baseDir, tradeType, countryCode, countryName, year, digitLevel, valueType);
    doc.SetStorage(map["saved_at" := Str(savedAt), "file_path" := Str(path)]);
  }
}
