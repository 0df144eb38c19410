// The country lookup of the country-wise command-line scripts: a search
// text is tried as an alias, as a code, as a name ignoring case, as a name
// ignoring spaces too, and finally as a part of exactly one name. The two
// scripts run the same cascade and differ only in their alias tables.
module CountryLookup {
  import opened Wrappers
  import opened PyStr
  import opened Scan

  /** The country table, (code, name) in the table's order. The table
      itself lives in a module that is not part of this model, so it is a
      parameter. */
  type Table = seq<(string, string)>

  /** The aliases of `scrape_country_wise.py`; "india" points at 187. */
  const RootAliases: map<string, string> := map[
    "usa" := "423", "us" := "423", "america" := "423", "united states" := "423",
    "uk" := "421", "britain" := "421", "england" := "421", "united kingdom" := "421",
    "uae" := "419", "emirates" := "419", "china" := "77", "germany" := "147",
    "japan" := "205", "france" := "129", "italy" := "197", "canada" := "59",
    "australia" := "17", "russia" := "344", "brazil" := "43", "india" := "187",
    "singapore" := "359", "korea" := "217", "south korea" := "217", "saudi" := "351",
    "saudi arabia" := "351", "bangladesh" := "27", "nepal" := "273", "sri lanka" := "369",
    "pakistan" := "309"]

  /** `COUNTRY_ALIASES` of the country-wise package script: the same table
      without "india". */
  const PackageAliases: map<string, string> := RootAliases - {"india"}

  /** `COUNTRIES[code]`: the name of the entry with that code. */
  function NameOf(table: Table, code: string): (r: Option<string>)
    ensures r.Some? <==> exists i :: 0 <= i < |table| && table[i].0 == code
    ensures r.Some? ==> (code, r.value) in table
  {
    FirstMatch(table, (e: (string, string)) => if e.0 == code then Some(e.1) else None)
  }

  /** The lower-cased, stripped search text. */
  function Key(search: string): string
  {
    Strip(Lower(search))
  }

  function SameName(s: string): ((string, string)) -> Option<(string, string)>
  {
    (e: (string, string)) => if e.0 != "all" && Lower(e.1) == s then Some(e) else None
  }

  function SameSpaceless(s: string): ((string, string)) -> Option<(string, string)>
  {
    (e: (string, string)) => if e.0 != "all" && Remove(s, ' ') == Remove(Lower(e.1), ' ') then Some(e) else None
  }

  function PartOfName(s: string): ((string, string)) -> Option<(string, string)>
  {
    (e: (string, string)) => if e.0 != "all" && Find(Lower(e.1), s) then Some(e) else None
  }

  /** Everything after the alias check. */
  function Cascade(table: Table, search: string): (r: Option<(string, string)>)
    ensures r.Some? ==> r.value in table
    ensures NameOf(table, search).Some? ==> r == Some((search, NameOf(table, search).value))
    ensures r.None? <==>
      && NameOf(table, search).None?
      && (forall i :: 0 <= i < |table| ==> SameName(Key(search))(table[i]).None?)
      && (forall i :: 0 <= i < |table| ==> SameSpaceless(Key(search))(table[i]).None?)
      && |FilterMap(table, PartOfName(Key(search)))| != 1
  {
    var s := Key(search);
    match NameOf(table, search)
    case Some(name) => Some((search, name))
    case None =>
      match FirstMatch(table, SameName(s))
      case Some(e) => Some(e)
      case None =>
        match FirstMatch(table, SameSpaceless(s))
        case Some(e) => Some(e)
        case None =>
          var matches := FilterMap(table, PartOfName(s));
          if |matches| == 1 then
            FilterMapSound(table, PartOfName(s), matches[0]);
            Some(matches[0])
          else None
  }

  /** `find_country_code` with the given alias table. An alias whose code
      the table lacks raises KeyError. */
  function FindCountry(aliases: map<string, string>, table: Table, search: string)
    : (r: Result<Option<(string, string)>>)
    ensures Key(search) in aliases ==>
      var code := aliases[Key(search)];
      r == match NameOf(table, code)
           case None => Failure(KeyError(code))
           case Some(name) => Success(Some((code, name)))
    ensures Key(search) !in aliases ==> r == Success(Cascade(table, search))
    ensures r.Success? && r.value.Some? ==> r.value.value in table
  {
    var s := Key(search);
    if s in aliases then
      var code := aliases[s];
      match NameOf(table, code)
      case None => Failure(KeyError(code))
      case Some(name) => Success(Some((code, name)))
    else Success(Cascade(table, search))
  }

  method FindCountryCode(aliases: map<string, string>, table: Table, search: string)
    returns (r: Result<Option<(string, string)>>)
    ensures r == FindCountry(aliases, table, search)
  {
    var s := Strip(Lower(search));
    if s in aliases {
      var code := aliases[s];
      var name := FindFirst(table, (e: (string, string)) => if e.0 == code then Some(e.1) else None);
      if name.None? {
        return Failure(KeyError(code));
      }
      return Success(Some((code, name.value)));
    }
    var direct := FindFirst(table, (e: (string, string)) => if e.0 == search then Some(e.1) else None);
    if direct.Some? {
      return Success(Some((search, direct.value)));
    }
    var exact := FindFirst(table, SameName(s));
    if exact.Some? {
      return Success(exact);
    }
    var spaceless := FindFirst(table, SameSpaceless(s));
    if spaceless.Some? {
      return Success(spaceless);
    }
    var matches := KeepRows(table, PartOfName(s));
    if |matches| == 1 {
      return Success(Some(matches[0]));
    }
    return Success(None);
  }

  /** A name match takes the first entry in table order whose name equals
      the search ignoring case, "all" excepted. */
  lemma FirstExactNameWins(table: Table, search: string, i: nat)
    requires NameOf(table, search).None?
    requires i < |table| && table[i].0 != "all" && Lower(table[i].1) == Key(search)
    requires forall j :: 0 <= j < i ==> SameName(Key(search))(table[j]).None?
    ensures Cascade(table, search) == Some(table[i])
  {
    FirstMatchAt(table, SameName(Key(search)), i);
  }

  /** A search that is part of two names, and matches no name or code in
      full, finds nothing: the substring step only answers when it is
      unambiguous. */
  lemma AmbiguousFindsNothing(table: Table, search: string, i: nat, j: nat)
    requires NameOf(table, search).None?
    requires forall k :: 0 <= k < |table| ==> SameName(Key(search))(table[k]).None?
    requires forall k :: 0 <= k < |table| ==> SameSpaceless(Key(search))(table[k]).None?
    requires i < j < |table|
    requires PartOfName(Key(search))(table[i]).Some? && PartOfName(Key(search))(table[j]).Some?
    ensures Cascade(table, search).None?
  {
    var f := PartOfName(Key(search));
    FilterMapAppend(table[..j], table[j..], f);
    assert table == table[..j] + table[j..];
    assert table[..j][i] == table[i];
    FilterMapComplete(table[..j], f, i);
    assert table[j..][0] == table[j];
    FilterMapComplete(table[j..], f, 0);
  }

  /** "india" in the root script is the alias for 187, while the package
      script looks it up like any other name. */
  lemma IndiaOnlyInRoot(table: Table, search: string)
    requires Key(search) == "india"
    requires NameOf(table, "187").Some?
    ensures FindCountry(RootAliases, table, search) == Success(Some(("187", NameOf(table, "187").value)))
    ensures "india" !in PackageAliases
    ensures FindCountry(PackageAliases, table, search) == Success(Cascade(table, search))
  {
    RootIndia();
  }

  lemma RootIndia()
    ensures "india" in RootAliases && RootAliases["india"] == "187"
  {
  }
}
