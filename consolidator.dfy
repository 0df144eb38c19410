// The multi-year consolidator of the commodity-wise all-countries scraper:
// each year's parsed data goes into one document, newest year first, and
// later documents can be merged into the first one in place.
module Consolidator {
  import opened Wrappers
  import opened StrOrder

  /** A dict keyed by year, in insertion order. */
  type Entries<D> = seq<(string, D)>

  function KeysOf<D>(es: Entries<D>): (ks: seq<string>)
    ensures |ks| == |es|
    ensures forall i :: 0 <= i < |es| ==> ks[i] == es[i].0
  {
    seq(|es|, i requires 0 <= i < |es| => es[i].0)
  }

  /** No year occurs twice, as in a dict. */
  predicate UniqueKeys<D>(es: Entries<D>)
  {
    forall i, j :: 0 <= i < j < |es| ==> es[i].0 != es[j].0
  }

  /** A consolidated document: its code, its trade type, the years placed
      under "years" and the metadata's years count. The timestamp and the
      schema version are not modelled. */
  class Consolidated<D> {
    const hsnCode: string
    const tradeType: string
    var years: Entries<D>
    var yearsCount: nat

    constructor (hsnCode: string, tradeType: string, years: Entries<D>, yearsCount: nat)
      ensures this.hsnCode == hsnCode && this.tradeType == tradeType
      ensures this.years == years && this.yearsCount == yearsCount
    {
      this.hsnCode := hsnCode;
      this.tradeType := tradeType;
      this.years := years;
      this.yearsCount := yearsCount;
    }
  }

  /** A strictly descending list of keys all drawn from `s` is no longer
      than `s`. */
  lemma {:induction false} DescendingFits(ks: seq<string>, s: set<string>)
    requires StrictlyDescending(ks)
    requires forall i :: 0 <= i < |ks| ==> ks[i] in s
    ensures |ks| <= |s|
  {
    if ks != [] {
      forall i | 1 <= i < |ks| ensures ks[i] != ks[0] {
        LexLessIrreflexive(ks[0]);
      }
      var rest := ks[1..];
      assert forall i :: 0 <= i < |rest| ==> rest[i] == ks[i + 1];
      DescendingFits(rest, s - {ks[0]});
    }
  }

  /** `consolidate_years`. An empty input gives {} (None here). Otherwise
      the years count counts every input year, while "years" holds only the
      years whose data is truthy, newest first, each with its own data. */
  method ConsolidateYears<D>(hsn: string, tradeType: string, data: map<string, D>, truthy: D -> bool)
    returns (c: Option<Consolidated<D>>)
    ensures c.None? <==> |data| == 0
    ensures c.Some? ==>
      && fresh(c.value)
      && c.value.hsnCode == hsn && c.value.tradeType == tradeType
      && c.value.yearsCount == |data|
      && StrictlyDescending(KeysOf(c.value.years))
      && (forall y :: y in KeysOf(c.value.years) <==> y in data && truthy(data[y]))
      && (forall i :: 0 <= i < |c.value.years| ==>
            c.value.years[i].0 in data && c.value.years[i].1 == data[c.value.years[i].0])
      && c.value.yearsCount >= |c.value.years|
  {
    if |data| == 0 {
      return None;
    }
    var sorted := SortedKeysDescending(data.Keys);
    var years := SelectYears(sorted, data, truthy);
    DescendingFits(KeysOf(years), data.Keys);
    var doc := new Consolidated(hsn, tradeType, years, |sorted|);
    c := Some(doc);
  }

  /** The year loop of `consolidate_years`: the years, newest first, whose
      data is truthy, each with its own data. */
  method SelectYears<D>(sorted: seq<string>, data: map<string, D>, truthy: D -> bool) returns (years: Entries<D>)
    requires StrictlyDescending(sorted)
    requires forall y :: y in sorted ==> y in data
    ensures StrictlyDescending(KeysOf(years))
    ensures forall y :: y in KeysOf(years) <==> y in sorted && truthy(data[y])
    ensures forall i :: 0 <= i < |years| ==> years[i].0 in data && years[i].1 == data[years[i].0]
  {
    years := [];
    for k := 0 to |sorted|
      invariant StrictlyDescending(KeysOf(years))
      invariant forall i :: 0 <= i < |years| ==> years[i].0 in sorted[..k]
      invariant forall y :: y in KeysOf(years) <==> y in sorted[..k] && truthy(data[y])
      invariant forall i :: 0 <= i < |years| ==> years[i].0 in data && years[i].1 == data[years[i].0]
    {
      var year := sorted[k];
      if truthy(data[year]) {
        forall i | 0 <= i < |years| ensures LexLess(year, years[i].0) {
          var m :| 0 <= m < k && sorted[m] == years[i].0;
        }
        years := years + [(year, data[year])];
        assert KeysOf(years) == KeysOf(years[..|years| - 1]) + [year];
      }
      assert sorted[..k + 1] == sorted[..k] + [year];
    }
    assert sorted[..|sorted|] == sorted;
  }

  // ---- merging ----

  /** The inner merge loop: each entry of `group`, in order, is added when
      its year is not there yet. */
  function MergeInto<D>(acc: Entries<D>, group: Entries<D>): Entries<D>
  {
    if group == [] then acc
    else
      var a := MergeInto(acc, group[..|group| - 1]);
      var e := group[|group| - 1];
      if e.0 in KeysOf(a) then a else a + [e]
  }

  /** The outer merge loop over the later documents' years. */
  function MergeAll<D>(acc: Entries<D>, groups: seq<Entries<D>>): Entries<D>
  {
    if groups == [] then acc
    else MergeInto(MergeAll(acc, groups[..|groups| - 1]), groups[|groups| - 1])
  }

  /** The base's entries are never replaced or moved: they stay a prefix. */
  lemma {:induction false} MergeIntoExtends<D>(acc: Entries<D>, group: Entries<D>)
    ensures |MergeInto(acc, group)| >= |acc|
    ensures MergeInto(acc, group)[..|acc|] == acc
  {
    if group != [] {
      MergeIntoExtends(acc, group[..|group| - 1]);
    }
  }

  /** The merged years are exactly the years of the base and of the group. */
  lemma {:induction false} MergeIntoKeys<D>(acc: Entries<D>, group: Entries<D>, y: string)
    ensures y in KeysOf(MergeInto(acc, group)) <==> y in KeysOf(acc) || y in KeysOf(group)
  {
    if group != [] {
      var front := group[..|group| - 1];
      MergeIntoKeys(acc, front, y);
      assert KeysOf(group) == KeysOf(front) + [group[|group| - 1].0];
      var a := MergeInto(acc, front);
      var e := group[|group| - 1];
      if e.0 !in KeysOf(a) {
        assert KeysOf(a + [e]) == KeysOf(a) + [e.0];
      }
    }
  }

  /** Merging keeps a dict a dict: no year is added twice. */
  lemma {:induction false} MergeIntoUnique<D>(acc: Entries<D>, group: Entries<D>)
    requires UniqueKeys(acc)
    ensures UniqueKeys(MergeInto(acc, group))
  {
    if group != [] {
      var front := group[..|group| - 1];
      MergeIntoUnique(acc, front);
      var a := MergeInto(acc, front);
      var e := group[|group| - 1];
      if e.0 !in KeysOf(a) {
        forall i | 0 <= i < |a| ensures a[i].0 != e.0 {
          assert KeysOf(a)[i] == a[i].0;
        }
      }
    }
  }

  /** First wins: an entry whose year is neither in the base nor earlier in
      the group is added with its own data. */
  lemma {:induction false} MergeIntoFirstWins<D>(acc: Entries<D>, group: Entries<D>, j: nat)
    requires j < |group|
    requires group[j].0 !in KeysOf(acc)
    requires forall m :: 0 <= m < j ==> group[m].0 != group[j].0
    ensures group[j] in MergeInto(acc, group)
  {
    var front := group[..|group| - 1];
    var e := group[|group| - 1];
    var a := MergeInto(acc, front);
    if j == |group| - 1 {
      MergeIntoKeys(acc, front, e.0);
    } else {
      MergeIntoFirstWins(acc, front, j);
      assert group[j] == front[j];
    }
  }

  /** A group whose years are all present already changes nothing; this
      covers a document merged into itself. */
  lemma {:induction false} MergeIntoPresent<D>(acc: Entries<D>, group: Entries<D>)
    requires forall i :: 0 <= i < |group| ==> group[i].0 in KeysOf(acc)
    ensures MergeInto(acc, group) == acc
  {
    if group != [] {
      MergeIntoPresent(acc, group[..|group| - 1]);
    }
  }

  lemma {:induction false} MergeAllExtends<D>(acc: Entries<D>, groups: seq<Entries<D>>)
    ensures |MergeAll(acc, groups)| >= |acc|
    ensures MergeAll(acc, groups)[..|acc|] == acc
  {
    if groups != [] {
      var front := groups[..|groups| - 1];
      MergeAllExtends(acc, front);
      var a := MergeAll(acc, front);
      MergeIntoExtends(a, groups[|groups| - 1]);
      assert MergeAll(acc, groups)[..|a|][..|acc|] == MergeAll(acc, groups)[..|acc|];
    }
  }

  /** The years of each document; {} has none. */
  function YearsOf<D>(docs: seq<Option<Consolidated<D>>>): (ys: seq<Entries<D>>)
    reads set k | 0 <= k < |docs| && docs[k].Some? :: docs[k].value
    ensures |ys| == |docs|
    ensures forall k :: 0 <= k < |docs| ==> ys[k] == (if docs[k].Some? then docs[k].value.years else [])
  {
    seq(|docs|, k reads set k | 0 <= k < |docs| && docs[k].Some? :: docs[k].value
                   requires 0 <= k < |docs| =>
          if docs[k].Some? then docs[k].value.years else [])
  }

  lemma MergeAllStep<D>(base: Entries<D>, olds: seq<Entries<D>>, k: nat)
    requires 1 <= k < |olds|
    ensures MergeAll(base, olds[1..k + 1]) == MergeInto(MergeAll(base, olds[1..k]), olds[k])
  {
    assert olds[1..k + 1][..k - 1] == olds[1..k];
  }

  /** Merging a document into itself, or its own original years, once it
      is the base of a merge, changes nothing. */
  lemma SelfMerge<D>(base: Entries<D>, groups: seq<Entries<D>>)
    ensures var cur := MergeAll(base, groups);
      MergeInto(cur, base) == cur && MergeInto(cur, cur) == cur
  {
    var cur := MergeAll(base, groups);
    MergeAllExtends(base, groups);
    forall i | 0 <= i < |base| ensures base[i].0 in KeysOf(cur) {
      assert KeysOf(cur)[i] == cur[i].0 && cur[i] == cur[..|base|][i];
    }
    MergeIntoPresent(cur, base);
    forall i | 0 <= i < |cur| ensures cur[i].0 in KeysOf(cur) {
      assert KeysOf(cur)[i] == cur[i].0;
    }
    MergeIntoPresent(cur, cur);
  }

  /** The inner loop on one later document's years. */
  method MergeYears<D>(merged: Consolidated<D>, group: Entries<D>)
    modifies merged
    ensures merged.years == MergeInto(old(merged.years), group)
    ensures merged.yearsCount == old(merged.yearsCount)
  {
    ghost var base := merged.years;
    for i := 0 to |group|
      invariant merged.years == MergeInto(base, group[..i])
      invariant merged.yearsCount == old(merged.yearsCount)
    {
      assert group[..i + 1][..i] == group[..i];
      var (year, data) := group[i];
      if year !in KeysOf(merged.years) {
        merged.years := merged.years + [(year, data)];
      }
    }
    assert group[..|group|] == group;
  }

  /** `merge_consolidated_files`. An empty list gives {}; otherwise the first
      document is the base and is updated in place: every later document's
      years are merged in, first wins, and the years count becomes the
      number of years after each later document. A base that is {} has no
      metadata and no years, so any later document raises KeyError. */
  method MergeConsolidatedFiles<D>(docs: seq<Option<Consolidated<D>>>)
    returns (r: Result<Option<Consolidated<D>>>)
    modifies if |docs| > 0 && docs[0].Some? then {docs[0].value} else {}
    ensures |docs| == 0 ==> r == Success(None)
    ensures |docs| == 1 ==> r == Success(docs[0])
    ensures |docs| > 1 && docs[0].None? ==> r.Failure? && r.error.KeyError?
    ensures |docs| > 0 && docs[0].Some? ==>
      && r == Success(docs[0])
      && docs[0].value.years == MergeAll(old(docs[0].value.years), old(YearsOf(docs))[1..])
      && docs[0].value.yearsCount == (if |docs| > 1 then |docs[0].value.years| else old(docs[0].value.yearsCount))
  {
    if |docs| == 0 {
      return Success(None);
    }
    if docs[0].None? {
      if |docs| == 1 {
        return Success(None);
      }
      var later := if docs[1].Some? then docs[1].value.years else [];
      return Failure(KeyError(if later != [] then "years" else "metadata"));
    }
    var merged := docs[0].value;
    ghost var olds := YearsOf(docs);
    for k := 1 to |docs|
      invariant merged.years == MergeAll(olds[0], olds[1..k])
      invariant k > 1 ==> merged.yearsCount == |merged.years|
      invariant k == 1 ==> merged.yearsCount == old(merged.yearsCount)
      invariant forall m :: 0 <= m < |docs| && docs[m].Some? && docs[m].value != merged ==>
                  docs[m].value.years == olds[m]
    {
      var group := if docs[k].Some? then docs[k].value.years else [];
      MergeAllStep(olds[0], olds, k);
      if docs[k].Some? && docs[k].value == merged {
        SelfMerge(olds[0], olds[1..k]);
      }
      MergeYears(merged, group);
      merged.yearsCount := |merged.years|;
    }
    assert olds[1..|docs|] == olds[1..];
    r := Success(docs[0]);
  }
}
