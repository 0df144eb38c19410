// Change detection between two extractions of the same report, and the
// per-year version history kept for each (feature, trade type, HS code).
//
// A snapshot is the all-countries parse result: one record per country with
// a USD triple and a quantity triple. The history files are modelled as an
// in-memory map from history-file name to the year-keyed history.
module ChangeDetector {
  import opened Wrappers
  import opened PyNum
  import opened StrOrder
  import opened TradeRecords
  import Quality

  // ---- snapshots ----

  /** The parts of a parse result the detector reads or stores. */
  datatype Snapshot = Snapshot(
    countries: seq<CountryRecord>,
    commodity: map<string, string>,
    dataQuality: map<string, string>)

  datatype Side = Usd | Qty
  datatype Field = Y2023_2024 | Y2024_2025 | PctGrowth

  /** A key of the per-country change map; `KeyName` is its text form. */
  datatype Key = Key(side: Side, field: Field)

  function KeyName(k: Key): string
  {
    (if k.side == Usd then "usd_" else "qty_")
    + (match k.field
       case Y2023_2024 => "y2023_2024"
       case Y2024_2025 => "y2024_2025"
       case PctGrowth => "pct_growth")
  }

  /** The USD keys in loop order, then the quantity keys. */
  const UsdKeys: seq<Key> := [Key(Usd, Y2023_2024), Key(Usd, Y2024_2025), Key(Usd, PctGrowth)]
  const QtyKeys: seq<Key> := [Key(Qty, Y2023_2024), Key(Qty, Y2024_2025), Key(Qty, PctGrowth)]
  const AllKeys: seq<Key> := UsdKeys + QtyKeys

  function ValueAt(r: CountryRecord, k: Key): Option<real>
  {
    var m := if k.side == Usd then r.usd else r.qty;
    match k.field
    case Y2023_2024 => m.y2023_2024
    case Y2024_2025 => m.y2024_2025
    case PctGrowth => m.pctGrowth
  }

  lemma AllKeysCover(k: Key)
    ensures k in AllKeys
  {
    match k
    case Key(Usd, Y2023_2024) => assert AllKeys[0] == k;
    case Key(Usd, Y2024_2025) => assert AllKeys[1] == k;
    case Key(Usd, PctGrowth) => assert AllKeys[2] == k;
    case Key(Qty, Y2023_2024) => assert AllKeys[3] == k;
    case Key(Qty, Y2024_2025) => assert AllKeys[4] == k;
    case Key(Qty, PctGrowth) => assert AllKeys[5] == k;
  }

  // ---- per-field deltas ----

  /** Python truthiness of an optional float: present and non-zero. */
  predicate Truthy(v: Option<real>)
  {
    v.Some? && v.value != 0.0
  }

  function Abs(x: real): real
  {
    if x < 0.0 then -x else x
  }

  /** `_calc_percent_change`: None unless both values are truthy; otherwise
      the change relative to the magnitude of the previous value, in percent
      (before rounding to two places). */
  function PercentChange(previous: Option<real>, current: Option<real>): (p: Option<real>)
    ensures p.Some? <==> Truthy(previous) && Truthy(current)
    ensures p.Some? ==> (p.value > 0.0 <==> current.value > previous.value)
    ensures p.Some? ==> (p.value == 0.0 <==> current == previous)
  {
    if !Truthy(previous) || !Truthy(current) then None
    else
      var d := current.value - previous.value;
      var a := Abs(previous.value);
      SignOfRatio(d, a);
      Some(d / a * 100.0)
  }

  lemma SignOfRatio(d: real, a: real)
    requires a > 0.0
    ensures d / a * 100.0 > 0.0 <==> d > 0.0
    ensures d / a * 100.0 == 0.0 <==> d == 0.0
  {
    var q := d / a;
    assert q * a == d;
    if q > 0.0 { assert q * a > 0.0; }
    if q < 0.0 { assert (-q) * a > 0.0; }
  }

  /** One entry of the change map: both values, their difference when both
      are truthy, and the percent change. */
  datatype FieldChange = FieldChange(
    previous: Option<real>,
    current: Option<real>,
    difference: Option<real>,
    percentChange: Option<real>)

  function Delta(previous: Option<real>, current: Option<real>): FieldChange
  {
    FieldChange(previous, current,
      if Truthy(current) && Truthy(previous) then Some(current.value - previous.value) else None,
      PercentChange(previous, current))
  }

  /** `difference` is present exactly when both sides are truthy, and then
      adding it to the previous value gives the current one. */
  lemma DeltaDifference(previous: Option<real>, current: Option<real>)
    ensures Delta(previous, current).difference.Some? <==> Truthy(previous) && Truthy(current)
    ensures Delta(previous, current).difference.Some? ==>
              previous.value + Delta(previous, current).difference.value == current.value
    ensures Delta(previous, current).percentChange.Some? ==> Delta(previous, current).difference.Some?
  {
  }

  type Changes = map<Key, FieldChange>

  /** The change map after the loops have visited the keys `ks`. */
  function CompareOver(ks: seq<Key>, cur: CountryRecord, prev: CountryRecord): Changes
  {
    if ks == [] then map[]
    else
      var m := CompareOver(ks[..|ks| - 1], cur, prev);
      var k := ks[|ks| - 1];
      if ValueAt(cur, k) != ValueAt(prev, k) then m[k := Delta(ValueAt(prev, k), ValueAt(cur, k))] else m
  }

  /** `_compare_country_data` as a value. */
  function Compare(cur: CountryRecord, prev: CountryRecord): Changes
  {
    CompareOver(AllKeys, cur, prev)
  }

  /** `_compare_country_data`: one loop over the USD keys, one over the
      quantity keys, recording every key whose values differ. */
  method CompareCountryData(cur: CountryRecord, prev: CountryRecord) returns (changes: Changes)
    ensures changes == Compare(cur, prev)
  {
    changes := map[];
    var i := 0;
    while i < |UsdKeys|
      invariant 0 <= i <= |UsdKeys|
      invariant changes == CompareOver(AllKeys[..i], cur, prev)
    {
      var k := UsdKeys[i];
      assert AllKeys[..i + 1][..i] == AllKeys[..i] && AllKeys[i] == k;
      if ValueAt(cur, k) != ValueAt(prev, k) {
        changes := changes[k := Delta(ValueAt(prev, k), ValueAt(cur, k))];
      }
      i := i + 1;
    }
    i := 0;
    while i < |QtyKeys|
      invariant 0 <= i <= |QtyKeys|
      invariant changes == CompareOver(AllKeys[..|UsdKeys| + i], cur, prev)
    {
      var k := QtyKeys[i];
      var n := |UsdKeys| + i;
      assert AllKeys[..n + 1][..n] == AllKeys[..n] && AllKeys[n] == k;
      if ValueAt(cur, k) != ValueAt(prev, k) {
        changes := changes[k := Delta(ValueAt(prev, k), ValueAt(cur, k))];
      }
      i := i + 1;
    }
    assert AllKeys[..|UsdKeys| + i] == AllKeys;
  }

  /** A key is in the change map exactly when it was visited and its two
      values differ, and then it holds their delta. */
  lemma {:induction false} CompareOverSpec(ks: seq<Key>, cur: CountryRecord, prev: CountryRecord, k: Key)
    ensures k in CompareOver(ks, cur, prev) <==> k in ks && ValueAt(cur, k) != ValueAt(prev, k)
    ensures k in CompareOver(ks, cur, prev) ==>
              CompareOver(ks, cur, prev)[k] == Delta(ValueAt(prev, k), ValueAt(cur, k))
  {
    if ks != [] {
      var init := ks[..|ks| - 1];
      CompareOverSpec(init, cur, prev, k);
      assert ks == init + [ks[|ks| - 1]];
    }
  }

  /** The change map of one country holds exactly the fields whose values
      differ, each with its delta. */
  lemma CompareSpec(cur: CountryRecord, prev: CountryRecord, k: Key)
    ensures k in Compare(cur, prev) <==> ValueAt(cur, k) != ValueAt(prev, k)
    ensures k in Compare(cur, prev) ==> Compare(cur, prev)[k] == Delta(ValueAt(prev, k), ValueAt(cur, k))
  {
    AllKeysCover(k);
    CompareOverSpec(AllKeys, cur, prev, k);
  }

  /** No changes exactly when both triples are equal. */
  lemma CompareEmptyIff(cur: CountryRecord, prev: CountryRecord)
    ensures Compare(cur, prev) == map[] <==> cur.usd == prev.usd && cur.qty == prev.qty
  {
    if Compare(cur, prev) == map[] {
      forall k: Key ensures ValueAt(cur, k) == ValueAt(prev, k) {
        CompareSpec(cur, prev, k);
      }
      assert ValueAt(cur, Key(Usd, Y2023_2024)) == ValueAt(prev, Key(Usd, Y2023_2024));
      assert ValueAt(cur, Key(Usd, Y2024_2025)) == ValueAt(prev, Key(Usd, Y2024_2025));
      assert ValueAt(cur, Key(Usd, PctGrowth)) == ValueAt(prev, Key(Usd, PctGrowth));
      assert ValueAt(cur, Key(Qty, Y2023_2024)) == ValueAt(prev, Key(Qty, Y2023_2024));
      assert ValueAt(cur, Key(Qty, Y2024_2025)) == ValueAt(prev, Key(Qty, Y2024_2025));
      assert ValueAt(cur, Key(Qty, PctGrowth)) == ValueAt(prev, Key(Qty, PctGrowth));
    } else {
      var k :| k in Compare(cur, prev);
      CompareSpec(cur, prev, k);
    }
  }

  // ---- snapshot diff ----

  /** `{c['country']: c for c in countries}`: a later record with the same
      country replaces an earlier one. */
  function ByCountry(rs: seq<CountryRecord>): map<string, CountryRecord>
  {
    if rs == [] then map[]
    else ByCountry(rs[..|rs| - 1])[rs[|rs| - 1].country := rs[|rs| - 1]]
  }

  function Ids(rs: seq<CountryRecord>): set<string>
  {
    set i | 0 <= i < |rs| :: rs[i].country
  }

  /** The map has one key per distinct country, and each holds the last
      record with that country. */
  lemma {:induction false} ByCountryLastWins(rs: seq<CountryRecord>)
    ensures ByCountry(rs).Keys == Ids(rs)
    ensures forall c :: c in ByCountry(rs) ==> LastWith(rs, c, ByCountry(rs)[c])
  {
    if rs != [] {
      var init := rs[..|rs| - 1];
      ByCountryLastWins(init);
      IdsSnoc(rs);
      forall c | c in ByCountry(rs) ensures LastWith(rs, c, ByCountry(rs)[c]) {
        LastWithSnoc(rs, c);
      }
    }
  }

  /** `r` is a record of `rs` with country `c`, and no later record has
      that country. */
  ghost predicate LastWith(rs: seq<CountryRecord>, c: string, r: CountryRecord)
  {
    exists i :: 0 <= i < |rs| && rs[i] == r && r.country == c
      && forall j :: i < j < |rs| ==> rs[j].country != c
  }

  lemma IdsSnoc(rs: seq<CountryRecord>)
    requires rs != []
    ensures Ids(rs) == Ids(rs[..|rs| - 1]) + {rs[|rs| - 1].country}
  {
    var init := rs[..|rs| - 1];
    forall c | c in Ids(rs) ensures c in Ids(init) + {rs[|rs| - 1].country} {
      var i :| 0 <= i < |rs| && rs[i].country == c;
      if i < |init| { assert init[i] == rs[i]; }
    }
    forall c | c in Ids(init) ensures c in Ids(rs) {
      var i :| 0 <= i < |init| && init[i].country == c;
      assert rs[i] == init[i];
    }
  }

  lemma LastWithSnoc(rs: seq<CountryRecord>, c: string)
    requires rs != [] && c in ByCountry(rs)
    requires var init := rs[..|rs| - 1];
      forall d :: d in ByCountry(init) ==> LastWith(init, d, ByCountry(init)[d])
    ensures LastWith(rs, c, ByCountry(rs)[c])
  {
    var init := rs[..|rs| - 1];
    var last := rs[|rs| - 1];
    if c == last.country {
      assert rs[|rs| - 1] == ByCountry(rs)[c];
    } else {
      assert c in ByCountry(init) && ByCountry(rs)[c] == ByCountry(init)[c];
      assert LastWith(init, c, ByCountry(init)[c]);
      var i :| 0 <= i < |init| && init[i] == ByCountry(init)[c] && init[i].country == c
               && forall j :: i < j < |init| ==> init[j].country != c;
      assert rs[i] == init[i];
      forall j | i < j < |rs| ensures rs[j].country != c {
        if j < |init| { assert rs[j] == init[j]; }
      }
    }
  }

  /** `detect_changes`' result. Added, removed and modified countries are
      sets (the source builds them from sets, in hash order); the percent
      is before rounding to two places. */
  datatype ChangeReport = ChangeReport(
    status: string,
    changeType: string,
    hasChanges: bool,
    added: set<string>,
    removed: set<string>,
    modified: set<string>,
    detailed: map<string, Changes>,
    totalChanges: nat,
    percentChange: real,
    drift: string)

  /** The result when there is no previous snapshot. */
  function Baseline(): ChangeReport
  {
    ChangeReport("NEW_EXTRACTION", "INITIAL_DATA", true, {}, {}, {}, map[], 0, 100.0, "BASELINE")
  }

  /** The drift ladder on the unrounded percent. */
  function Drift(percent: real): string
  {
    if percent == 0.0 then "NO_CHANGE"
    else if percent < 5.0 then "MINIMAL"
    else if percent < 15.0 then "MODERATE"
    else if percent < 30.0 then "SIGNIFICANT"
    else "CRITICAL"
  }

  function DriftRank(d: string): nat
  {
    if d == "NO_CHANGE" then 0
    else if d == "MINIMAL" then 1
    else if d == "MODERATE" then 2
    else if d == "SIGNIFICANT" then 3
    else 4
  }

  /** A larger percent never lands in a lower band, and the band edges 5,
      15 and 30 belong to the higher band. */
  lemma DriftMonotone(p: real, q: real)
    requires 0.0 <= p <= q
    ensures DriftRank(Drift(p)) <= DriftRank(Drift(q))
    ensures Drift(5.0) == "MODERATE" && Drift(15.0) == "SIGNIFICANT" && Drift(30.0) == "CRITICAL"
  {
  }

  function Max(a: nat, b: nat): nat
  {
    if a >= b then a else b
  }

  /** The countries among `done` whose records changed. */
  function ModifiedIn(cm: map<string, CountryRecord>, pm: map<string, CountryRecord>, done: set<string>): set<string>
    requires done <= cm.Keys * pm.Keys
  {
    set c | c in done && Compare(cm[c], pm[c]) != map[]
  }

  function DetailedOf(cm: map<string, CountryRecord>, pm: map<string, CountryRecord>, modified: set<string>): map<string, Changes>
    requires modified <= cm.Keys * pm.Keys
  {
    map c | c in modified :: Compare(cm[c], pm[c])
  }

  /** The report's counts, percent and drift from its three sets. */
  function Report(added: set<string>, removed: set<string>, modified: set<string>,
                  detailed: map<string, Changes>, denom: nat): ChangeReport
    requires denom > 0
  {
    var total := |added| + |removed| + |modified|;
    var percent := total as real / denom as real * 100.0;
    ChangeReport("COMPARISON_COMPLETE", "DATA_UPDATE", total > 0,
      added, removed, modified, detailed, total, percent, Drift(percent))
  }

  /** The comparison of the two identity-keyed maps. */
  function Diff(cm: map<string, CountryRecord>, pm: map<string, CountryRecord>): Result<ChangeReport>
  {
    var modified := ModifiedIn(cm, pm, cm.Keys * pm.Keys);
    var denom := Max(|cm|, |pm|);
    if denom == 0 then Failure(ZeroDivisionError)
    else Success(Report(cm.Keys - pm.Keys, pm.Keys - cm.Keys, modified, DetailedOf(cm, pm, modified), denom))
  }

  lemma ByCountryEmpty(rs: seq<CountryRecord>)
    ensures ByCountry(rs) == map[] <==> rs == []
  {
    if rs != [] {
      assert rs[|rs| - 1].country in ByCountry(rs);
    }
  }

  /** `detect_changes`. Both snapshots empty divides by zero. */
  function Detect(current: Snapshot, previous: Option<Snapshot>): (r: Result<ChangeReport>)
    ensures r.Failure? <==> previous.Some? && current.countries == [] && previous.value.countries == []
    ensures previous.None? ==>
      && r.Success? && r.value.status == "NEW_EXTRACTION" && r.value.changeType == "INITIAL_DATA"
      && r.value.hasChanges && r.value.totalChanges == 0 && r.value.percentChange == 100.0
      && r.value.drift == "BASELINE"
      && r.value.added == {} && r.value.removed == {} && r.value.modified == {}
  {
    match previous
    case None => Success(Baseline())
    case Some(p) =>
      ByCountryEmpty(current.countries);
      ByCountryEmpty(p.countries);
      Diff(ByCountry(current.countries), ByCountry(p.countries))
  }

  /** `detect_changes`, with the loop over the countries present in both. */
  method DetectChanges(current: Snapshot, previous: Option<Snapshot>) returns (r: Result<ChangeReport>)
    ensures r == Detect(current, previous)
  {
    if previous.None? {
      return Success(Baseline());
    }
    var cm := ByCountry(current.countries);
    var pm := ByCountry(previous.value.countries);
    var added := cm.Keys - pm.Keys;
    var removed := pm.Keys - cm.Keys;
    var modified, detailed := ModifiedCountries(cm, pm);
    var denom := Max(|cm|, |pm|);
    if denom == 0 {
      return Failure(ZeroDivisionError);
    }
    r := Success(Report(added, removed, modified, detailed, denom));
  }

  /** The loop over the countries present in both snapshots. */
  method ModifiedCountries(cm: map<string, CountryRecord>, pm: map<string, CountryRecord>)
    returns (modified: set<string>, detailed: map<string, Changes>)
    ensures modified == ModifiedIn(cm, pm, cm.Keys * pm.Keys)
    ensures detailed == DetailedOf(cm, pm, modified)
  {
    modified, detailed := {}, map[];
    var common := cm.Keys * pm.Keys;
    var rest := common;
    while rest != {}
      invariant rest <= common
      invariant modified == ModifiedIn(cm, pm, common - rest)
      invariant detailed == DetailedOf(cm, pm, modified)
      decreases |rest|
    {
      var c :| c in rest;
      var changes := CompareCountryData(cm[c], pm[c]);
      ModifiedStep(cm, pm, common - rest, c);
      if changes != map[] {
        DetailedStep(cm, pm, modified, c);
        modified := modified + {c};
        detailed := detailed[c := changes];
      }
      assert common - (rest - {c}) == (common - rest) + {c};
      rest := rest - {c};
    }
    assert common - rest == common;
  }

  lemma ModifiedStep(cm: map<string, CountryRecord>, pm: map<string, CountryRecord>, done: set<string>, c: string)
    requires done <= cm.Keys * pm.Keys && c in cm.Keys * pm.Keys && c !in done
    ensures ModifiedIn(cm, pm, done + {c})
              == ModifiedIn(cm, pm, done) + (if Compare(cm[c], pm[c]) != map[] then {c} else {})
  {
  }

  lemma DetailedStep(cm: map<string, CountryRecord>, pm: map<string, CountryRecord>, modified: set<string>, c: string)
    requires modified <= cm.Keys * pm.Keys && c in cm.Keys * pm.Keys
    ensures DetailedOf(cm, pm, modified + {c}) == DetailedOf(cm, pm, modified)[c := Compare(cm[c], pm[c])]
  {
  }

  /** On the identity-keyed maps: added and removed are the key differences,
      modified lies in the common keys, the three are pairwise disjoint, a
      common country is modified exactly when a triple changed, and the
      detailed changes are keyed by the modified countries. */
  lemma DiffSets(cm: map<string, CountryRecord>, pm: map<string, CountryRecord>)
    requires Diff(cm, pm).Success?
    ensures var r := Diff(cm, pm).value;
      && r.added == cm.Keys - pm.Keys && r.removed == pm.Keys - cm.Keys
      && r.modified <= cm.Keys * pm.Keys
      && r.added * r.removed == {} && r.added * r.modified == {} && r.removed * r.modified == {}
      && (forall c :: c in r.modified <==>
            c in cm && c in pm && (cm[c].usd != pm[c].usd || cm[c].qty != pm[c].qty))
      && r.detailed.Keys == r.modified
  {
    forall c | c in cm.Keys * pm.Keys {
      CompareEmptyIff(cm[c], pm[c]);
    }
  }

  /** Added and removed are the set differences of the two snapshots'
      countries, modified lies in their intersection, the three are
      pairwise disjoint, and a country is modified exactly when its last
      record in each snapshot has a different USD or quantity triple. */
  lemma DetectSets(current: Snapshot, previous: Snapshot)
    requires Detect(current, Some(previous)).Success?
    ensures var r := Detect(current, Some(previous)).value;
      && r.added == Ids(current.countries) - Ids(previous.countries)
      && r.removed == Ids(previous.countries) - Ids(current.countries)
      && r.modified <= Ids(current.countries) * Ids(previous.countries)
      && r.added * r.removed == {} && r.added * r.modified == {} && r.removed * r.modified == {}
      && (forall c :: c in r.modified <==>
            c in ByCountry(current.countries) && c in ByCountry(previous.countries)
            && var cr, pr := ByCountry(current.countries)[c], ByCountry(previous.countries)[c];
               (cr.usd != pr.usd || cr.qty != pr.qty))
      && r.detailed.Keys == r.modified
  {
    ByCountryLastWins(current.countries);
    ByCountryLastWins(previous.countries);
    DiffSets(ByCountry(current.countries), ByCountry(previous.countries));
  }

  /** Every change is counted at most once against the larger map: the
      percent lies between 0 and 200, and is 0 exactly when nothing
      changed. */
  lemma DiffPercent(cm: map<string, CountryRecord>, pm: map<string, CountryRecord>)
    requires Diff(cm, pm).Success?
    ensures var r := Diff(cm, pm).value;
      && 0.0 <= r.percentChange <= 200.0
      && (r.percentChange == 0.0 <==> r.totalChanges == 0)
  {
    TotalBound(cm, pm);
    var r := Diff(cm, pm).value;
    PercentRange(r.totalChanges, Max(|cm|, |pm|));
  }

  lemma PercentRange(total: nat, denom: nat)
    requires 0 < denom && total <= 2 * denom
    ensures 0.0 <= total as real / denom as real * 100.0 <= 200.0
    ensures total as real / denom as real * 100.0 == 0.0 <==> total == 0
  {
    var t, d := total as real, denom as real;
    assert t <= 2.0 * d;
    Quality.RatioAtLeast(t, d, 200.0);
    Quality.RatioAtLeast(t, d, 0.0);
    if t > 0.0 {
      var q := t / d;
      assert q * d == t;
      assert q > 0.0;
    }
  }

  /** Added plus modified are at most the current countries, removed at
      most the previous ones. */
  lemma TotalBound(cm: map<string, CountryRecord>, pm: map<string, CountryRecord>)
    ensures |cm.Keys - pm.Keys| + |pm.Keys - cm.Keys| + |ModifiedIn(cm, pm, cm.Keys * pm.Keys)|
              <= 2 * Max(|cm|, |pm|)
  {
    var C, P := cm.Keys, pm.Keys;
    assert (C - P) + (C * P) == C;
    assert (C - P) * (C * P) == {};
    assert |C - P| + |C * P| == |C|;
    SubsetCard(ModifiedIn(cm, pm, C * P), C * P);
    SubsetCard(P - C, P);
    assert |cm| == |C| && |pm| == |P|;
  }

  lemma {:induction false} SubsetCard<T>(a: set<T>, b: set<T>)
    requires a <= b
    ensures |a| <= |b|
  {
    assert b == a + (b - a);
  }

  /** The percent lies between 0 and 200 and is 0 exactly when nothing
      changed; has_changes holds exactly when some change was counted,
      which is exactly when the drift is not NO_CHANGE. */
  lemma PercentAndDrift(current: Snapshot, previous: Snapshot)
    requires Detect(current, Some(previous)).Success?
    ensures var r := Detect(current, Some(previous)).value;
      && 0.0 <= r.percentChange <= 200.0
      && (r.hasChanges <==> r.totalChanges > 0)
      && (r.hasChanges <==> r.drift != "NO_CHANGE")
  {
    DiffPercent(ByCountry(current.countries), ByCountry(previous.countries));
  }

  /** A non-empty snapshot compared with itself has no changes. */
  lemma SelfComparison(s: Snapshot)
    requires s.countries != []
    ensures Detect(s, Some(s)).Success?
    ensures var r := Detect(s, Some(s)).value;
      && !r.hasChanges && r.totalChanges == 0 && r.drift == "NO_CHANGE"
      && r.added == {} && r.removed == {} && r.modified == {}
  {
    var m := ByCountry(s.countries);
    ByCountryEmpty(s.countries);
    forall c | c in m.Keys {
      CompareEmptyIff(m[c], m[c]);
    }
    assert ModifiedIn(m, m, m.Keys * m.Keys) == {};
    DiffPercent(m, m);
  }

  // ---- version history ----

  /** One year's entry of a history file (its timestamp is not modelled). */
  datatype Entry = Entry(
    checksum: string,
    snapshot: Snapshot,
    changes: ChangeReport,
    commodity: map<string, string>,
    dataQuality: map<string, string>)

  /** One line of `generate_changelog`. */
  datatype LogEntry = LogEntry(
    year: string,
    checksum: string,
    dataQuality: map<string, string>,
    changes: ChangeReport,
    commodity: map<string, string>)

  function LogLine(year: string, e: Entry): LogEntry
  {
    LogEntry(year, e.checksum, e.dataQuality, e.changes, e.commodity)
  }

  /** `get_comparison_report`'s two shapes. */
  datatype Comparison =
    | FirstVersion(currentYear: string, current: Entry)
    | VersionComparison(currentYear: string, previousYear: string, yearGap: int, current: Entry, previous: Entry)

  type History = map<string, Entry>

  /** `get_version_history_path`: the history file's name. */
  function HistoryFile(feature: string, tradeType: string, hsn: string): string
  {
    feature + "_" + tradeType + "_" + hsn + "_history.json"
  }

  /** The stored entry of one year in one history file. */
  function Lookup(files: map<string, History>, file: string, year: string): Option<Entry>
  {
    if file in files && year in files[file] then Some(files[file][year]) else None
  }

  /** The history files after `year` of `file` is written: the file is
      created when missing. */
  function WithVersion(files: map<string, History>, file: string, year: string, e: Entry): map<string, History>
  {
    var h := if file in files then files[file] else map[];
    files[file := h[year := e]]
  }

  /** Writing a version replaces exactly that year of that file. */
  lemma LookupAfterSave(files: map<string, History>, file: string, year: string, e: Entry, f: string, y: string)
    ensures Lookup(WithVersion(files, file, year, e), f, y)
              == if f == file && y == year then Some(e) else Lookup(files, f, y)
  {
  }

  /** A changelog is fully determined by its history: strictly ascending
      years, one line per stored year, each line copied from its entry. */
  ghost predicate IsChangelog(log: seq<LogEntry>, h: History)
  {
    && StrictlySorted(Years(log))
    && (forall y :: y in Years(log) <==> y in h)
    && (forall i :: 0 <= i < |log| ==> log[i].year in h && log[i] == LogLine(log[i].year, h[log[i].year]))
  }

  function Years(log: seq<LogEntry>): seq<string>
  {
    seq(|log|, i requires 0 <= i < |log| => log[i].year)
  }

  /** There is only one changelog of a history. */
  lemma ChangelogUnique(a: seq<LogEntry>, b: seq<LogEntry>, h: History)
    requires IsChangelog(a, h) && IsChangelog(b, h)
    ensures a == b
  {
    SortedUnique(Years(a), Years(b));
    assert |a| == |b|;
    forall i | 0 <= i < |a| ensures a[i] == b[i] {
      assert a[i].year == Years(a)[i] == Years(b)[i] == b[i].year;
    }
  }

  class ChangeDetector {
    /** Every history file: file name to (year to entry). */
    var files: map<string, History>
    /** `calculate_checksum`: MD5 of the key-sorted JSON, not modelled. */
    const checksum: Snapshot -> string

    constructor (checksum: Snapshot -> string, stored: map<string, History>)
      ensures this.checksum == checksum && files == stored
    {
      this.checksum := checksum;
      files := stored;
    }

    /** `get_previous_version`: the stored snapshot of that year, if any. */
    function PreviousVersion(feature: string, tradeType: string, hsn: string, year: string): (r: Option<Snapshot>)
      reads this
      ensures r.Some? <==> Lookup(files, HistoryFile(feature, tradeType, hsn), year).Some?
    {
      match Lookup(files, HistoryFile(feature, tradeType, hsn), year)
      case None => None
      case Some(e) => Some(e.snapshot)
    }

    /** `save_version`: the year's entry is replaced, nothing else changes. */
    method SaveVersion(data: Snapshot, feature: string, tradeType: string, hsn: string, year: string, changes: ChangeReport)
      modifies this
      ensures files == WithVersion(old(files), HistoryFile(feature, tradeType, hsn), year,
                                   Entry(checksum(data), data, changes, data.commodity, data.dataQuality))
      ensures PreviousVersion(feature, tradeType, hsn, year) == Some(data)
    {
      var file := HistoryFile(feature, tradeType, hsn);
      var history: History := if file in files then files[file] else map[];
      history := history[year := Entry(checksum(data), data, changes, data.commodity, data.dataQuality)];
      files := files[file := history];
    }

    /** `generate_changelog`: None without a history file, else one line per
      year in ascending order. */
    method GenerateChangelog(feature: string, tradeType: string, hsn: string) returns (log: Option<seq<LogEntry>>)
      ensures log.None? <==> HistoryFile(feature, tradeType, hsn) !in files
      ensures log.Some? ==> IsChangelog(log.value, files[HistoryFile(feature, tradeType, hsn)])
    {
      var file := HistoryFile(feature, tradeType, hsn);
      if file !in files {
        return None;
      }
      var history := files[file];
      var years := SortedKeys(history.Keys);
      var lines: seq<LogEntry> := [];
      var i := 0;
      while i < |years|
        invariant 0 <= i <= |years|
        invariant |lines| == i
        invariant forall j :: 0 <= j < i ==> lines[j] == LogLine(years[j], history[years[j]])
      {
        lines := lines + [LogLine(years[i], history[years[i]])];
        i := i + 1;
      }
      assert Years(lines) == years;
      return Some(lines);
    }

    /** `get_comparison_report`: None without the file or the year; the
      first version when no stored year sorts below it; otherwise the
      comparison with the greatest year below it, and None when either year
      is not an integer (the ValueError is caught). */
    method GetComparisonReport(feature: string, tradeType: string, hsn: string, year: string) returns (r: Option<Comparison>)
      ensures var file := HistoryFile(feature, tradeType, hsn);
        r.Some? ==> file in files && year in files[file]
      ensures var file := HistoryFile(feature, tradeType, hsn);
        file in files && year in files[file] && (forall y :: y in files[file] ==> !LexLess(y, year))
        ==> r == Some(FirstVersion(year, files[file][year]))
      ensures var file := HistoryFile(feature, tradeType, hsn);
        r.Some? && r.value.FirstVersion? ==>
          && file in files && year in files[file]
          && r.value.currentYear == year && r.value.current == files[file][year]
          && (forall y :: y in files[file] ==> !LexLess(y, year))
      ensures var file := HistoryFile(feature, tradeType, hsn);
        r.Some? && r.value.VersionComparison? ==>
          var h := files[file];
          && r.value.currentYear == year && r.value.current == h[year]
          && r.value.previousYear in h && r.value.previous == h[r.value.previousYear]
          && LexLess(r.value.previousYear, year)
          && (forall y :: y in h && LexLess(y, year) ==> y == r.value.previousYear || LexLess(y, r.value.previousYear))
          && ParseInt(year).Some? && ParseInt(r.value.previousYear).Some?
          && r.value.yearGap == ParseInt(year).value - ParseInt(r.value.previousYear).value
      ensures var file := HistoryFile(feature, tradeType, hsn);
        r.None? && file in files && year in files[file] ==>
          exists y :: y in files[file] && LexLess(y, year)
            && (forall z :: z in files[file] && LexLess(z, year) ==> z == y || LexLess(z, y))
            && (ParseInt(year).None? || ParseInt(y).None?)
    {
      var file := HistoryFile(feature, tradeType, hsn);
      if file !in files {
        return None;
      }
      var history := files[file];
      if year !in history {
        return None;
      }
      var best: Option<string> := None;
      var rest := history.Keys;
      while rest != {}
        invariant rest <= history.Keys
        invariant best.None? ==> forall y :: y in history.Keys - rest ==> !LexLess(y, year)
        invariant best.Some? ==> best.value in history && LexLess(best.value, year)
        invariant best.Some? ==> forall y :: y in history.Keys - rest && LexLess(y, year)
                                   ==> y == best.value || LexLess(y, best.value)
        decreases |rest|
      {
        var y :| y in rest;
        if LexLess(y, year) {
          if best.None? {
            best := Some(y);
          } else if LexLess(best.value, y) {
            forall z | z in history.Keys - rest && LexLess(z, year)
              ensures z == y || LexLess(z, y)
            {
              if z != best.value {
                LexLessTransitive(z, best.value, y);
              }
            }
            best := Some(y);
          } else if y != best.value {
            LexLessTotal(y, best.value);
          }
        }
        rest := rest - {y};
      }
      assert history.Keys - rest == history.Keys;
      if best.None? {
        return Some(FirstVersion(year, history[year]));
      }
      var prev := best.value;
      var cur := ParseInt(year);
      var before := ParseInt(prev);
      if cur.None? || before.None? {
        return None;
      }
      return Some(VersionComparison(year, prev, cur.value - before.value, history[year], history[prev]));
    }
  }
}
