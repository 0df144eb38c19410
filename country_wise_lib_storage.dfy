// Where the country-wise package writes a year: one file for all
// countries, or one per country under "by_country".
module CountryWiseLibStorage {
  import opened Wrappers
  import opened PyStr
  import opened PyNum
  import opened OsPath
  import RegionWiseCli

  /** The country name with spaces made '_' and every '.' and "'"
      removed. */
  function SafeCountryName(name: string): (safe: string)
    ensures ' ' !in safe && '.' !in safe && '\'' !in safe
    ensures forall c :: c in safe ==> c in name || c == '_'
  {
    var a := ReplaceChar(name, ' ', "_");
    RemoveOnlyDrops(a, '.');
    RemoveOnlyDrops(Remove(a, '.'), '\'');
    Remove(Remove(a, '.'), '\'')
  }

  /** A name that is already safe is kept, so making it safe twice changes
      nothing more. */
  lemma SafeCountryNameIdempotent(name: string)
    ensures SafeCountryName(SafeCountryName(name)) == SafeCountryName(name)
  {
    var safe := SafeCountryName(name);
    ReplaceCharAbsent(safe, ' ', "_");
    RemoveAbsent(safe, '.');
    RemoveAbsent(safe, '\'');
  }

  /** The file of all countries. */
  function AllFileName(fiscalYear: string, valueType: string): string
  {
    "all_countries_" + fiscalYear + "_" + valueType + ".json"
  }

  /** The file of one country. */
  function CountryFileName(countryName: string, fiscalYear: string, valueType: string): string
  {
    SafeCountryName(countryName) + "_" + fiscalYear + "_" + valueType + ".json"
  }

  /** `get_output_path`: "all" is written to base/trade, any other code to
      base/trade/by_country under the country's safe name. The year's
      fiscal year is computed first, so a year `int()` cannot read raises
      ValueError whatever the code. */
  function OutputPath(baseDir: string, tradeType: string, year: string, countryCode: string,
                      countryName: string, valueType: string): (r: Result<string>)
    ensures r.Failure? <==> ParseInt(year).None?
    ensures r.Failure? ==> r.error.ValueError?
  {
    match RegionWiseCli.FiscalYear(year)
    case Failure(e) => Failure(e)
    case Success(fy) =>
      if countryCode == "all" then Success(Join(Join(baseDir, tradeType), AllFileName(fy, valueType)))
      else Success(Join(Join(Join(baseDir, tradeType), "by_country"), CountryFileName(countryName, fy, valueType)))
  }

  /** Below a base directory without a trailing '/', and for a plain trade
      type and a readable year, the all-countries file sits directly under
      the trade type and a country's file under "by_country". */
  lemma OutputPathLayout(baseDir: string, tradeType: string, year: string, countryCode: string,
                         countryName: string, valueType: string)
    requires baseDir != [] && baseDir[|baseDir| - 1] != '/'
    requires Plain(tradeType)
    requires ParseInt(year).Some?
    requires countryCode != "all" ==> '/' !in countryName
    ensures var fy := RegionWiseCli.FiscalYear(year).value;
      && (countryCode == "all" ==>
            OutputPath(baseDir, tradeType, year, countryCode, countryName, valueType)
            == Success(baseDir + "/" + tradeType + "/" + AllFileName(fy, valueType)))
      && (countryCode != "all" ==>
            OutputPath(baseDir, tradeType, year, countryCode, countryName, valueType)
            == Success(baseDir + "/" + tradeType + "/" + "by_country" + "/" + CountryFileName(countryName, fy, valueType)))
  {
    var fy := RegionWiseCli.FiscalYear(year).value;
    JoinPlain(baseDir, tradeType);
    var d := baseDir + "/" + tradeType;
    var a := AllFileName(fy, valueType);
    assert a[0] == 'a' && a[|a| - 1] == 'n';
    JoinPlain(d, a);
    if countryCode != "all" {
      var c := CountryFileName(countryName, fy, valueType);
      var safe := SafeCountryName(countryName);
      assert c[|c| - 1] == 'n';
      assert c[0] == (safe + "_")[0];
      assert c[0] in safe || c[0] == '_';
      JoinPlain(d, "by_country");
      JoinPlain(d + "/" + "by_country", c);
    }
  }

  /** No country's file is ever the all-countries file, for a country
      name without '/'. */
  lemma CountryFileNeverAllFile(baseDir: string, tradeType: string, year: string, countryCode: string,
                                countryName: string, allName: string, valueType: string)
    requires baseDir != [] && baseDir[|baseDir| - 1] != '/'
    requires Plain(tradeType)
    requires '/' !in countryName
    requires countryCode != "all"
    ensures OutputPath(baseDir, tradeType, year, countryCode, countryName, valueType) !=
            OutputPath(baseDir, tradeType, year, "all", allName, valueType) || ParseInt(year).None?
  {
    if ParseInt(year).Some? {
      OutputPathLayout(baseDir, tradeType, year, countryCode, countryName, valueType);
      OutputPathLayout(baseDir, tradeType, year, "all", allName, valueType);
      var fy := RegionWiseCli.FiscalYear(year).value;
      var n := |baseDir + "/" + tradeType + "/"|;
      var p1 := baseDir + "/" + tradeType + "/" + "by_country" + "/" + CountryFileName(countryName, fy, valueType);
      var p2 := baseDir + "/" + tradeType + "/" + AllFileName(fy, valueType);
      assert p1[n] == 'b' && p2[n] == 'a';
    }
  }
}
