// The year arguments of the single-commodity command line and the default
// output file name it writes to.
module ScrapeCli {
  import opened Wrappers
  import opened PyStr
  import opened PyNum

  /** The years offered, newest first. */
  const AvailableYears: seq<string> := ["2024", "2023", "2022", "2021", "2020", "2019", "2018"]

  /** `str(y)` for y = hi, hi - 1, ..., lo: `range(hi, lo - 1, -1)`, empty
      when lo > hi. */
  function YearStrings(lo: int, hi: int): (ys: seq<string>)
    ensures |ys| == (if lo <= hi then hi - lo + 1 else 0)
    ensures forall i :: 0 <= i < |ys| ==> ys[i] == IntToString(hi - i)
    decreases hi - lo
  {
    if lo > hi then [] else YearStrings(lo + 1, hi) + [IntToString(lo)]
  }

  /** One comma-separated part of `--years`, stripped: a part holding '-'
      must split into exactly two `int()`-readable halves "start-end" and
      stands for end, end - 1, ..., start; any other part is kept as it is.
      A malformed range raises ValueError. */
  function PartYears(part: string): (r: Result<seq<string>>)
    ensures '-' !in Strip(part) ==> r == Success([Strip(part)])
    ensures r.Failure? ==> r.error.ValueError?
    ensures '-' in Strip(part) ==>
      var ps := SplitOn(Strip(part), '-');
      && (r.Success? <==> |ps| == 2 && ParseInt(ps[0]).Some? && ParseInt(ps[1]).Some?)
      && (r.Success? ==> r.value == YearStrings(ParseInt(ps[0]).value, ParseInt(ps[1]).value))
  {
    var p := Strip(part);
    if '-' !in p then Success([p])
    else
      var ps := SplitOn(p, '-');
      if |ps| != 2 then Failure(ValueError("too many values to unpack"))
      else
        match (ParseInt(ps[0]), ParseInt(ps[1]))
        case (Some(lo), Some(hi)) => Success(YearStrings(lo, hi))
        case _ => Failure(ValueError("invalid literal for int() with base 10"))
  }

  /** The parts expanded in order; the first malformed part raises. */
  function ExpandParts(parts: seq<string>): Result<seq<string>>
  {
    if parts == [] then Success([])
    else
      match ExpandParts(parts[..|parts| - 1])
      case Failure(e) => Failure(e)
      case Success(ys) =>
        match PartYears(parts[|parts| - 1])
        case Failure(e) => Failure(e)
        case Success(zs) => Success(ys + zs)
  }

  lemma ExpandStep(parts: seq<string>, k: nat)
    requires k < |parts|
    ensures ExpandParts(parts[..k + 1]) ==
      match ExpandParts(parts[..k])
      case Failure(e) => Failure(e)
      case Success(ys) =>
        match PartYears(parts[k])
        case Failure(e) => Failure(e)
        case Success(zs) => Success(ys + zs)
  {
    assert parts[..k + 1][..k] == parts[..k];
  }

  /** Once a part fails, the later parts are never looked at. */
  lemma {:induction false} ExpandFailureSticks(parts: seq<string>, k: nat)
    requires k <= |parts|
    requires ExpandParts(parts[..k]).Failure?
    ensures ExpandParts(parts[..|parts|]) == ExpandParts(parts[..k])
    decreases |parts| - k
  {
    if k < |parts| {
      ExpandStep(parts, k);
      ExpandFailureSticks(parts, k + 1);
    }
  }

  /** `parse_years`. An absent argument is written "" (both are falsy).
      `--all-years` wins over everything, then `--years`, then `--year`,
      and with none of them every available year is scraped. */
  function Years(yearArg: string, yearsArg: string, allYears: bool): Result<seq<string>>
  {
    if allYears then Success(AvailableYears)
    else if yearsArg != "" then ExpandParts(SplitOn(yearsArg, ','))
    else if yearArg != "" then Success([yearArg])
    else Success(AvailableYears)
  }

  method ParseYears(yearArg: string, yearsArg: string, allYears: bool) returns (r: Result<seq<string>>)
    ensures r == Years(yearArg, yearsArg, allYears)
  {
    if allYears {
      return Success(AvailableYears);
    } else if yearsArg != "" {
      var parts := SplitOn(yearsArg, ',');
      var years: seq<string> := [];
      for k := 0 to |parts|
        invariant ExpandParts(parts[..k]) == Success(years)
      {
        ExpandStep(parts, k);
        var more := ExpandPart(parts[k]);
        if more.Failure? {
          ExpandFailureSticks(parts, k + 1);
          assert parts[..|parts|] == parts;
          return Failure(more.error);
        }
        years := years + more.value;
      }
      assert parts[..|parts|] == parts;
      return Success(years);
    } else if yearArg != "" {
      return Success([yearArg]);
    }
    return Success(AvailableYears);
  }

  /** The loop body on one part. */
  method ExpandPart(part: string) returns (r: Result<seq<string>>)
    ensures r == PartYears(part)
  {
    var p := Strip(part);
    if '-' !in p {
      return Success([p]);
    }
    var ps := SplitOn(p, '-');
    if |ps| != 2 {
      return Failure(ValueError("too many values to unpack"));
    }
    var hi, lo := ParseInt(ps[1]), ParseInt(ps[0]);
    if hi.None? || lo.None? {
      return Failure(ValueError("invalid literal for int() with base 10"));
    }
    var years := CountDown(lo.value, hi.value);
    return Success(years);
  }

  /** `for y in range(hi, lo - 1, -1): years.append(str(y))`. */
  method CountDown(lo: int, hi: int) returns (years: seq<string>)
    ensures years == YearStrings(lo, hi)
  {
    years := [];
    var y := hi;
    while y >= lo
      invariant y <= hi
      invariant lo <= hi + 1 ==> y >= lo - 1
      invariant lo > hi ==> y == hi
      invariant years == YearStrings(y + 1, hi)
    {
      years := years + [IntToString(y)];
      y := y - 1;
    }
    assert YearStrings(y + 1, hi) == YearStrings(lo, hi);
  }

  /** `--all-years` ignores the other arguments. */
  lemma AllYearsWins(yearArg: string, yearsArg: string)
    ensures Years(yearArg, yearsArg, true) == Success(AvailableYears)
  {
  }

  /** Each year string of a range reads back, through `int()`, as its
      year: the i-th is hi - i, and none is below lo. */
  lemma YearStringsReadBack(lo: int, hi: int, i: nat)
    requires i < |YearStrings(lo, hi)|
    ensures ParseInt(YearStrings(lo, hi)[i]) == Some(hi - i) && lo <= hi - i
  {
    ParseIntString(hi - i);
  }

  function Stripped(parts: seq<string>): (ss: seq<string>)
    ensures |ss| == |parts|
    ensures forall k :: 0 <= k < |parts| ==> ss[k] == Strip(parts[k])
  {
    seq(|parts|, k requires 0 <= k < |parts| => Strip(parts[k]))
  }

  /** When no part is a range, the years are the stripped parts verbatim,
      in order. */
  lemma {:induction false} PlainPartsVerbatim(parts: seq<string>)
    requires forall k :: 0 <= k < |parts| ==> '-' !in Strip(parts[k])
    ensures ExpandParts(parts) == Success(Stripped(parts))
  {
    if parts != [] {
      var front := parts[..|parts| - 1];
      PlainPartsVerbatim(front);
      var last := parts[|parts| - 1];
      assert '-' !in Strip(last);
      StrippedSnoc(parts);
    }
  }

  lemma StrippedSnoc(parts: seq<string>)
    requires parts != []
    ensures Stripped(parts) == Stripped(parts[..|parts| - 1]) + [Strip(parts[|parts| - 1])]
  {
  }

  /** Every year a successful `--years` yields comes from one of its parts:
      the total count is the sum of the parts' counts. */
  lemma {:induction false} ExpandPartsCount(parts: seq<string>)
    requires ExpandParts(parts).Success?
    ensures forall k :: 0 <= k < |parts| ==> PartYears(parts[k]).Success?
    ensures |ExpandParts(parts).value| == SumCounts(parts)
  {
    if parts != [] {
      ExpandPartsCount(parts[..|parts| - 1]);
      assert forall k :: 0 <= k < |parts| - 1 ==> parts[..|parts| - 1][k] == parts[k];
    }
  }

  /** How many years the parts stand for, if all succeed. */
  function SumCounts(parts: seq<string>): nat
  {
    if parts == [] then 0
    else
      SumCounts(parts[..|parts| - 1]) +
      (match PartYears(parts[|parts| - 1]) case Success(ys) => |ys| case Failure(_) => 0)
  }

  /** `get_default_output_path`: one year's file, or the consolidated file
      when no year is given; the directory is created by the caller's I/O. */
  function DefaultOutputPath(feature: string, tradeType: string, hsn: string, year: string): string
  {
    var dir := "src/data/raw/" + feature + "/" + tradeType + "/";
    dir + (if year != "" then hsn + "_" + year + ".json" else hsn + "_consolidated.json")
  }

  /** The year, or "consolidated", can be read back from the path between
      the code's "_" and ".json". */
  lemma FileNameReadsBack(feature: string, tradeType: string, hsn: string, year: string)
    ensures var path := DefaultOutputPath(feature, tradeType, hsn, year);
      var n := |"src/data/raw/" + feature + "/" + tradeType + "/"| + |hsn| + 1;
      && n + 5 <= |path|
      && path[..n] == "src/data/raw/" + feature + "/" + tradeType + "/" + hsn + "_"
      && path[|path| - 5..] == ".json"
      && path[n..|path| - 5] == (if year != "" then year else "consolidated")
  {
    var head := "src/data/raw/" + feature + "/" + tradeType + "/" + hsn + "_";
    var stem := if year != "" then year else "consolidated";
    var path := DefaultOutputPath(feature, tradeType, hsn, year);
    assert path == head + stem + ".json";
  }

  /** Two different years of one code never share a file, nor does a year
      share the consolidated file unless it is literally "consolidated". */
  lemma DistinctYearsDistinctFiles(feature: string, tradeType: string, hsn: string, y1: string, y2: string)
    requires y1 != y2
    requires y1 != "consolidated" && y2 != "consolidated"
    ensures DefaultOutputPath(feature, tradeType, hsn, y1) != DefaultOutputPath(feature, tradeType, hsn, y2)
  {
    FileNameReadsBack(feature, tradeType, hsn, y1);
    FileNameReadsBack(feature, tradeType, hsn, y2);
  }
}
