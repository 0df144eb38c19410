// The region lookup of the region-wise command-line script: an alias, then
// a region code, then the first region whose name holds the search text.
module RegionLookup {
  import opened Wrappers
  import opened PyStr
  import opened Scan
  import CountryLookup

  /** The region table, (code, name) in the table's order; it lives in a
      module that is not part of this model, so it is a parameter. */
  type Table = seq<(string, string)>

  const Aliases: map<string, string> := map[
    "europe" := "1", "eu" := "1", "africa" := "2", "america" := "3", "americas" := "3",
    "usa" := "3", "asia" := "4", "cis" := "5", "baltics" := "5", "cis & baltics" := "5",
    "unspecified" := "9"]

  /** The name test of the scan, as written: equal to the search, or
      holding it. */
  function NameMatch(s: string): ((string, string)) -> Option<(string, string)>
  {
    (e: (string, string)) => if e.0 != "all" && (Lower(e.1) == s || Find(Lower(e.1), s)) then Some(e) else None
  }

  /** The equality test adds nothing: a name equal to the search holds it. */
  lemma EqualityRedundant(s: string, e: (string, string))
    ensures NameMatch(s)(e) == (if e.0 != "all" && Find(Lower(e.1), s) then Some(e) else None)
  {
    if Lower(e.1) == s {
      assert OccursAt(Lower(e.1), s, 0);
    }
  }

  /** `find_region_code`. An alias whose code the table lacks raises
      KeyError. There is no ambiguity check: the first region in table
      order whose name holds the search wins. */
  function FindRegion(table: Table, search: string): (r: Result<Option<(string, string)>>)
    ensures var s := CountryLookup.Key(search);
      && (s in Aliases ==>
            r == match CountryLookup.NameOf(table, Aliases[s])
                 case None => Failure(KeyError(Aliases[s]))
                 case Some(name) => Success(Some((Aliases[s], name))))
      && (s !in Aliases && CountryLookup.NameOf(table, search).Some? ==>
            r == Success(Some((search, CountryLookup.NameOf(table, search).value))))
      && (s !in Aliases && CountryLookup.NameOf(table, search).None? ==>
            r == Success(FirstMatch(table, NameMatch(s))))
    ensures r.Success? && r.value.Some? ==> r.value.value in table
  {
    var s := CountryLookup.Key(search);
    if s in Aliases then
      var code := Aliases[s];
      match CountryLookup.NameOf(table, code)
      case None => Failure(KeyError(code))
      case Some(name) => Success(Some((code, name)))
    else
      match CountryLookup.NameOf(table, search)
      case Some(name) => Success(Some((search, name)))
      case None => Success(FirstMatch(table, NameMatch(s)))
  }

  method FindRegionCode(table: Table, search: string) returns (r: Result<Option<(string, string)>>)
    ensures r == FindRegion(table, search)
  {
    var s := Strip(Lower(search));
    if s in Aliases {
      var code := Aliases[s];
      var name := FindFirst(table, (e: (string, string)) => if e.0 == code then Some(e.1) else None);
      if name.None? {
        return Failure(KeyError(code));
      }
      return Success(Some((code, name.value)));
    }
    var direct := FindFirst(table, (e: (string, string)) => if e.0 == search then Some(e.1) else None);
    if direct.Some? {
      return Success(Some((search, direct.value)));
    }
    var found := FindFirst(table, NameMatch(s));
    return Success(found);
  }

  /** The first region in table order whose name holds the search wins,
      even when later names hold it too. */
  lemma FirstRegionWins(table: Table, search: string, i: nat)
    requires CountryLookup.Key(search) !in Aliases
    requires CountryLookup.NameOf(table, search).None?
    requires i < |table| && table[i].0 != "all"
    requires Contains(Lower(table[i].1), CountryLookup.Key(search))
    requires forall j :: 0 <= j < i ==> NameMatch(CountryLookup.Key(search))(table[j]).None?
    ensures FindRegion(table, search) == Success(Some(table[i]))
  {
    FirstMatchAt(table, NameMatch(CountryLookup.Key(search)), i);
  }

  /** Nothing is found exactly when the search is no alias, no code, and
      part of no region name apart from "all". */
  lemma NotFound(table: Table, search: string)
    ensures FindRegion(table, search) == Success(None) <==>
      var s := CountryLookup.Key(search);
      && s !in Aliases && CountryLookup.NameOf(table, search).None?
      && forall i :: 0 <= i < |table| ==> table[i].0 == "all" || !Contains(Lower(table[i].1), s)
  {
    var s := CountryLookup.Key(search);
    forall i | 0 <= i < |table| ensures NameMatch(s)(table[i]).None? <==> table[i].0 == "all" || !Contains(Lower(table[i].1), s) {
      EqualityRedundant(s, table[i]);
    }
  }
}
