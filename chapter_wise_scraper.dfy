// The request side of the chapter-wise scraper that decides something: the
// HS level and the chapter of a code, the value-type code, and the form
// fields sent for each direction.
module ChapterWiseScraper {
  import opened PyStr

  /** The levels the portal offers. */
  const HsLevels: set<string> := {"2", "4", "6", "8"}

  /** The digit count a level names. */
  function LevelDigits(level: string): nat
    requires level in HsLevels
  {
    if level == "2" then 2 else if level == "4" then 4 else if level == "6" then 6 else 8
  }

  /** `get_hs_level`: "all" is level 2; otherwise the code's length rounded
      up to 2, 4, 6 or 8, and 8 beyond that. */
  function HsLevel(hsCode: string): (level: string)
    ensures level in HsLevels
  {
    if hsCode == "all" then "2"
    else if |hsCode| <= 2 then "2"
    else if |hsCode| <= 4 then "4"
    else if |hsCode| <= 6 then "6"
    else "8"
  }

  /** The level is the smallest of 2, 4, 6, 8 that holds the code, and 8
      for longer codes. */
  lemma HsLevelCovers(hsCode: string)
    requires hsCode != "all"
    ensures |hsCode| <= 8 ==> |hsCode| <= LevelDigits(HsLevel(hsCode))
    ensures LevelDigits(HsLevel(hsCode)) == 2 || LevelDigits(HsLevel(hsCode)) - 2 < |hsCode|
  {
  }

  /** A longer code never gets a lower level. */
  lemma HsLevelMonotone(a: string, b: string)
    requires a != "all" && b != "all" && |a| <= |b|
    ensures LevelDigits(HsLevel(a)) <= LevelDigits(HsLevel(b))
  {
  }

  /** `get_chapter_from_hs`: "all", or the first two characters padded to
      two. */
  function ChapterOf(hsCode: string): (chapter: string)
    ensures hsCode == "all" ==> chapter == "all"
    ensures hsCode != "all" ==> |chapter| == 2
  {
    if hsCode == "all" then "all" else ZFill2(if |hsCode| <= 2 then hsCode else hsCode[..2])
  }

  /** A digit code's chapter is two digits: its own first two, or a single
      digit after a '0'. */
  lemma ChapterOfDigits(hsCode: string)
    requires IsDigits(hsCode)
    ensures IsDigits(ChapterOf(hsCode))
    ensures |hsCode| >= 2 ==> StartsWith(hsCode, ChapterOf(hsCode))
    ensures |hsCode| == 1 ==> ChapterOf(hsCode) == ['0', hsCode[0]]
  {
    assert hsCode != "all" by {
      assert !IsAsciiDigit('a');
    }
    var c := ChapterOf(hsCode);
    if |hsCode| == 1 {
      assert !(hsCode[0] == '+' || hsCode[0] == '-') by {
        assert IsAsciiDigit(hsCode[0]);
      }
      assert c == ['0'] + hsCode;
    } else {
      assert c == hsCode[..2];
    }
  }

  /** `VALUE_TYPES.get(value_type, "2")`. */
  function ValueCode(valueType: string): (code: string)
    ensures code == "1" <==> valueType == "inr"
    ensures code == "3" <==> valueType == "qty"
    ensures code == "2" <==> valueType !in {"inr", "qty"}
  {
    if valueType == "usd" then "2"
    else if valueType == "inr" then "1"
    else if valueType == "qty" then "3"
    else "2"
  }

  /** The three direction-specific field names: year, value code, chapter. */
  datatype FieldNames = FieldNames(year: string, report: string, chapter: string)

  /** Export names for "export", import names for anything else. */
  function FieldNamesFor(tradeType: string): (names: FieldNames)
    ensures tradeType == "export" ==> names == FieldNames("eidbYearChwe", "eidbReportChwe", "eidbChapterEx")
    ensures tradeType != "export" ==>
      names == FieldNames("eidbcwacoimpYear", "eidbcwacoimpddReportVal", "eidbcwacoimpddChapter")
  {
    if tradeType == "export" then FieldNames("eidbYearChwe", "eidbReportChwe", "eidbChapterEx")
    else FieldNames("eidbcwacoimpYear", "eidbcwacoimpddReportVal", "eidbcwacoimpddChapter")
  }

  /** The form of `fetch_chapter_data`: token, level, and the year, value
      code and chapter under the direction's names; "hscode" is added
      only for a level other than 2 and a code other than "all". */
  method BuildPayload(token: string, tradeType: string, year: string, hsCode: string, valueType: string)
    returns (payload: map<string, string>)
    ensures var n := FieldNamesFor(tradeType);
      && payload.Keys == {"_token", "level", n.year, n.report, n.chapter} +
                         (if HsLevel(hsCode) != "2" && hsCode != "all" then {"hscode"} else {})
      && payload["_token"] == token && payload["level"] == HsLevel(hsCode)
      && payload[n.year] == year && payload[n.report] == ValueCode(valueType)
      && payload[n.chapter] == ChapterOf(hsCode)
      && ("hscode" in payload ==> payload["hscode"] == hsCode)
  {
    var level := HsLevel(hsCode);
    var n := FieldNamesFor(tradeType);
    payload := map["_token" := token, "level" := level, n.year := year,
                   n.report := ValueCode(valueType), n.chapter := ChapterOf(hsCode)];
    if level != "2" && hsCode != "all" {
      payload := payload["hscode" := hsCode];
    }
  }

  /** The code is sent exactly when it is longer than a chapter. */
  lemma HscodeSentIffLonger(hsCode: string)
    ensures (HsLevel(hsCode) != "2" && hsCode != "all") <==> (hsCode != "all" && |hsCode| > 2)
  {
  }
}
