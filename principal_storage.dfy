// Where the MEIDB principal-commodity scraper writes one month, and the
// storage entry it adds to the document before writing it.
module PrincipalStorage {
  import opened PyStr
  import opened PyNum
  import opened OsPath
  import opened StorageCommon

  /** `{code lower-cased}_{month}_{year}_{value type}.json`, the month
      abbreviated when it is 1 to 12. */
  function FileName(commodityCode: string, month: int, year: int, valueType: string): string
  {
    Lower(commodityCode) + "_" + MonthAbbr(month) + "_" + IntToString(year) + "_" + valueType + ".json"
  }

  /** For a code that does not start with '/', the file name is one plain
      part. */
  lemma FileNamePlain(commodityCode: string, month: int, year: int, valueType: string)
    requires commodityCode == [] || commodityCode[0] != '/'
    ensures Plain(FileName(commodityCode, month, year, valueType))
  {
    var f := FileName(commodityCode, month, year, valueType);
    assert f[|f| - 1] == 'n';
    assert f[0] == (Lower(commodityCode) + "_")[0];
  }

  /** `get_output_path`: the file in
      base/meidb/principal_commodity_wise_all_hscode/<trade type lower-cased>. */
  function OutputPath(baseDir: string, tradeType: string, commodityCode: string, month: int, year: int,
                      valueType: string): string
  {
    Join(Join(Join(Join(baseDir, "meidb"), "principal_commodity_wise_all_hscode"), Lower(tradeType)),
         FileName(commodityCode, month, year, valueType))
  }

  /** Below a base directory without a trailing '/', and for a plain trade
      type, the path is the four parts one '/' apart. */
  lemma OutputPathLayout(baseDir: string, tradeType: string, commodityCode: string, month: int, year: int,
                         valueType: string)
    requires baseDir != [] && baseDir[|baseDir| - 1] != '/'
    requires Plain(tradeType)
    requires commodityCode == [] || commodityCode[0] != '/'
    ensures OutputPath(baseDir, tradeType, commodityCode, month, year, valueType)
            == baseDir + "/" + "meidb" + "/" + "principal_commodity_wise_all_hscode" + "/" + Lower(tradeType) + "/"
               + FileName(commodityCode, month, year, valueType)
  {
    LowerKeepsPlain(tradeType);
    FileNamePlain(commodityCode, month, year, valueType);
    JoinPlain(baseDir, "meidb");
    var d1 := baseDir + "/" + "meidb";
    JoinPlain(d1, "principal_commodity_wise_all_hscode");
    var d2 := d1 + "/" + "principal_commodity_wise_all_hscode";
    JoinPlain(d2, Lower(tradeType));
    JoinPlain(d2 + "/" + Lower(tradeType), FileName(commodityCode, month, year, valueType));
  }

  /** Two months of one commodity have two file names. */
  lemma FileNamesSeparate(commodityCode: string, m1: int, m2: int, year: int, valueType: string)
    requires m1 != m2
    ensures FileName(commodityCode, m1, year, valueType) != FileName(commodityCode, m2, year, valueType)
  {
    var head := Lower(commodityCode) + "_";
    var tail := "_" + IntToString(year) + "_" + valueType + ".json";
    MonthAbbrInjective(m1, m2);
    MiddleDistinct(head, MonthAbbr(m1), MonthAbbr(m2), tail);
    Regroup(Lower(commodityCode), MonthAbbr(m1), IntToString(year), valueType);
    Regroup(Lower(commodityCode), MonthAbbr(m2), IntToString(year), valueType);
  }

  /** The file name as the month between a head and a tail. */
  lemma Regroup(code: string, month: string, year: string, valueType: string)
    ensures code + "_" + month + "_" + year + "_" + valueType + ".json"
            == (code + "_") + month + ("_" + year + "_" + valueType + ".json")
  {
  }

  /** Two months of one commodity are two files. */
  lemma MonthsSeparate(baseDir: string, tradeType: string, commodityCode: string, m1: int, m2: int, year: int,
                       valueType: string)
    requires commodityCode == [] || commodityCode[0] != '/'
    requires m1 != m2
    ensures OutputPath(baseDir, tradeType, commodityCode, m1, year, valueType) !=
            OutputPath(baseDir, tradeType, commodityCode, m2, year, valueType)
  {
    FileNamesSeparate(commodityCode, m1, m2, year, valueType);
    FileNamePlain(commodityCode, m1, year, valueType);
    FileNamePlain(commodityCode, m2, year, valueType);
    JoinDistinct(Join(Join(Join(baseDir, "meidb"), "principal_commodity_wise_all_hscode"), Lower(tradeType)),
                 FileName(commodityCode, m1, year, valueType), FileName(commodityCode, m2, year, valueType));
  }

  /** Codes that differ only in case share one file. */
  lemma CodeCaseIgnored(baseDir: string, tradeType: string, c1: string, c2: string, month: int, year: int,
                        valueType: string)
    requires Lower(c1) == Lower(c2)
    ensures OutputPath(baseDir, tradeType, c1, month, year, valueType) ==
            OutputPath(baseDir, tradeType, c2, month, year, valueType)
  {
  }

  /** `save_meidb_principal_commodity_wise_all_hscode_data` without the
      directory creation and the write: the document gains a "storage"
      entry naming the returned path and the time it was saved (given). */
  method SavePrincipalCommodityData(doc: Document, baseDir: string, tradeType: string, commodityCode: string,
                                    month: int, year: int, valueType: string, savedAt: string)
    returns (path: string)
    modifies doc
    ensures path == OutputPath(baseDir, tradeType, commodityCode, month, year, valueType)
    ensures doc.fields == old(doc.fields)["storage" := Obj(map["saved_at" := Str(savedAt), "file_path" := Str(path)])]
  {
    path := OutputPath(baseDir, tradeType, commodityCode, month, year, valueType);
    doc.SetStorage(map["saved_at" := Str(savedAt), "file_path" := Str(path)]);
  }
}
