// The library copy of the multi-year consolidator: the metadata also lists
// every input year, newest first.
module ConsolidatorLib {
  import opened Wrappers
  import opened StrOrder
  import Consolidator

  datatype Consolidated<D> = Consolidated(
    hsnCode: string, tradeType: string, yearsCount: nat,
    yearsIncluded: seq<string>, years: Consolidator.Entries<D>)

  /** `consolidate_years`. An empty input gives {} (None here). Otherwise
      the years included are all input years, newest first, the years
      count is their number, and "years" holds, newest first, exactly the
      years whose data is truthy, each with its own data. */
  method ConsolidateYears<D>(hsn: string, tradeType: string, data: map<string, D>, truthy: D -> bool)
    returns (c: Option<Consolidated<D>>)
    ensures c.None? <==> |data| == 0
    ensures c.Some? ==> Valid(hsn, tradeType, data, truthy, c.value)
    ensures c.Some? ==> c.value.yearsCount == |data| >= |c.value.years|
  {
    if |data| == 0 {
      return None;
    }
    var sorted := SortedKeysDescending(data.Keys);
    var years := Consolidator.SelectYears(sorted, data, truthy);
    Consolidator.DescendingFits(Consolidator.KeysOf(years), data.Keys);
    c := Some(Consolidated(hsn, tradeType, |sorted|, sorted, years));
  }

  /** The consolidated document is determined by its input: two results for
      the same input are equal, whatever order `sorted` broke ties in. */
  lemma ResultDetermined<D>(hsn: string, tradeType: string, data: map<string, D>, truthy: D -> bool,
                            c1: Consolidated<D>, c2: Consolidated<D>)
    requires Valid(hsn, tradeType, data, truthy, c1) && Valid(hsn, tradeType, data, truthy, c2)
    ensures c1 == c2
  {
    SortedUniqueDescending(c1.yearsIncluded, c2.yearsIncluded);
    var k1, k2 := Consolidator.KeysOf(c1.years), Consolidator.KeysOf(c2.years);
    SortedUniqueDescending(k1, k2);
    assert |c1.years| == |c2.years|;
    forall i | 0 <= i < |c1.years| ensures c1.years[i] == c2.years[i] {
      assert k1[i] == k2[i];
    }
  }

  /** What `ConsolidateYears` promises of a non-empty input. */
  ghost predicate Valid<D>(hsn: string, tradeType: string, data: map<string, D>, truthy: D -> bool,
                     c: Consolidated<D>)
  {
    && c.hsnCode == hsn && c.tradeType == tradeType
    && StrictlyDescending(c.yearsIncluded)
    && (forall y :: y in c.yearsIncluded <==> y in data)
    && c.yearsCount == |c.yearsIncluded|
    && StrictlyDescending(Consolidator.KeysOf(c.years))
    && (forall y :: y in Consolidator.KeysOf(c.years) <==> y in data && truthy(data[y]))
    && (forall i :: 0 <= i < |c.years| ==> c.years[i].0 in data && c.years[i].1 == data[c.years[i].0])
  }
}
