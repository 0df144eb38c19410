// Where the MEIDB commodity-wise package writes one month: a level
// directory named by the code's length, per trade type.
module MeidbCommodityLibStorage {
  import opened PyStr
  import opened PyNum
  import opened OsPath
  import opened StorageCommon

  /** `{hscode}_{month}_{year}_{value type}.json`, the month abbreviated
      when it is 1 to 12. */
  function FileName(hscode: string, month: int, year: int, valueType: string): string
  {
    hscode + "_" + MonthAbbr(month) + "_" + IntToString(year) + "_" + valueType + ".json"
  }

  /** For a code that does not start with '/', the file name is one plain
      part. */
  lemma FileNamePlain(hscode: string, month: int, year: int, valueType: string)
    requires hscode == [] || hscode[0] != '/'
    ensures Plain(FileName(hscode, month, year, valueType))
  {
    var f := FileName(hscode, month, year, valueType);
    assert f[|f| - 1] == 'n';
    assert f[0] == (hscode + "_")[0];
  }

  /** The file name as the month between a head and a tail. */
  lemma Regroup(hscode: string, month: string, year: string, valueType: string)
    ensures hscode + "_" + month + "_" + year + "_" + valueType + ".json"
            == (hscode + "_") + month + ("_" + year + "_" + valueType + ".json")
  {
  }

  /** `get_output_path`: the file in base/<trade type lower-cased>/level_<code length>. */
  function OutputPath(baseDir: string, tradeType: string, hscode: string, month: int, year: int,
                      valueType: string): string
  {
    Join(Join(Join(baseDir, Lower(tradeType)), LevelDir(|hscode|)), FileName(hscode, month, year, valueType))
  }

  /** Below a base directory without a trailing '/', and for a plain trade
      type, the path is base/trade/level_N/file with N the code's length. */
  lemma OutputPathLayout(baseDir: string, tradeType: string, hscode: string, month: int, year: int,
                         valueType: string)
    requires baseDir != [] && baseDir[|baseDir| - 1] != '/'
    requires Plain(tradeType)
    requires hscode == [] || hscode[0] != '/'
    ensures OutputPath(baseDir, tradeType, hscode, month, year, valueType)
            == baseDir + "/" + Lower(tradeType) + "/" + LevelDir(|hscode|) + "/" + FileName(hscode, month, year, valueType)
  {
    LowerKeepsPlain(tradeType);
    LevelDirPlain(|hscode|);
    FileNamePlain(hscode, month, year, valueType);
    JoinThreePlain(baseDir, Lower(tradeType), LevelDir(|hscode|), FileName(hscode, month, year, valueType));
  }

  /** Two months of one code have two file names. */
  lemma FileNamesSeparate(hscode: string, m1: int, m2: int, year: int, valueType: string)
    requires m1 != m2
    ensures FileName(hscode, m1, year, valueType) != FileName(hscode, m2, year, valueType)
  {
    var head := hscode + "_";
    var tail := "_" + IntToString(year) + "_" + valueType + ".json";
    MonthAbbrInjective(m1, m2);
    MiddleDistinct(head, MonthAbbr(m1), MonthAbbr(m2), tail);
    Regroup(hscode, MonthAbbr(m1), IntToString(year), valueType);
    Regroup(hscode, MonthAbbr(m2), IntToString(year), valueType);
  }

  /** Two months of one code are two files. */
  lemma MonthsSeparate(baseDir: string, tradeType: string, hscode: string, m1: int, m2: int, year: int,
                       valueType: string)
    requires hscode == [] || hscode[0] != '/'
    requires m1 != m2
    ensures OutputPath(baseDir, tradeType, hscode, m1, year, valueType) !=
            OutputPath(baseDir, tradeType, hscode, m2, year, valueType)
  {
    FileNamesSeparate(hscode, m1, m2, year, valueType);
    FileNamePlain(hscode, m1, year, valueType);
    FileNamePlain(hscode, m2, year, valueType);
    JoinDistinct(Join(Join(baseDir, Lower(tradeType)), LevelDir(|hscode|)),
                 FileName(hscode, m1, year, valueType), FileName(hscode, m2, year, valueType));
  }

  /** `save_data` without the directory creation and the write: the
      document gains a "storage" entry naming the returned path and the time
      it was saved (given). */
  method SaveData(doc: Document, baseDir: string, tradeType: string, hscode: string, month: int, year: int,
                  valueType: string, savedAt: string) returns (path: string)
    modifies doc
    ensures path == OutputPath(baseDir, tradeType, hscode, month, year, valueType)
    ensures doc.fields == old(doc.fields)["storage" := Obj(map["saved_at" := Str(savedAt), "file_path" := Str(path)])]
  {
    path := OutputPath(baseDir, tradeType, hscode, month, year, valueType);
    doc.SetStorage(map["saved_at" := Str(savedAt), "file_path" := Str(path)]);
  }
}
