// The data-quality block the parsers attach to a result: how many records
// carry the key value, the completeness percentage, and its grade.
module Quality {

  /** `sum(1 for r in records if has(r))`. */
  function CountWhere<R>(records: seq<R>, has: R -> bool): (n: nat)
    ensures n <= |records|
  {
    if records == [] then 0
    else CountWhere(records[..|records| - 1], has) + (if has(records[|records| - 1]) then 1 else 0)
  }

  /** `(with / total * 100) if total > 0 else 0`, before rounding. */
  function Completeness(withData: nat, total: nat): (c: real)
    requires withData <= total
    ensures 0.0 <= c <= 100.0
  {
    if total > 0 then withData as real / total as real * 100.0 else 0.0
  }

  /** VALID at 70 and above, PARTIAL at 50 and above, INCOMPLETE below. */
  function Validation(completeness: real): string
  {
    if completeness >= 70.0 then "VALID"
    else if completeness >= 50.0 then "PARTIAL"
    else "INCOMPLETE"
  }

  /** The grade in whole-number terms: VALID exactly when at least 70% of a
      non-empty record list carries data, PARTIAL when 50% to under 70%. */
  lemma ValidationByCounts(withData: nat, total: nat)
    requires withData <= total
    ensures (Validation(Completeness(withData, total)) == "VALID")
              <==> (total > 0 && 10 * withData >= 7 * total)
    ensures (Validation(Completeness(withData, total)) == "PARTIAL")
              <==> (total > 0 && 10 * withData < 7 * total && 2 * withData >= total)
    ensures total == 0 ==> Validation(Completeness(withData, total)) == "INCOMPLETE"
  {
    if total > 0 {
      var w, t := withData as real, total as real;
      RatioAtLeast(w, t, 70.0);
      RatioAtLeast(w, t, 50.0);
      assert (10 * withData) as real == 10.0 * w && (7 * total) as real == 7.0 * t;
      assert (2 * withData) as real == 2.0 * w;
    }
  }

  /** The data-quality block of a parse: how many records there are, how
      many carry the key value, the completeness before rounding, and its
      grade. */
  datatype Report = Report(
    completeness: real, total: nat, withData: nat, missing: nat, status: string)

  function Assess<R>(records: seq<R>, has: R -> bool): (q: Report)
    ensures q.total == |records| && q.withData == CountWhere(records, has)
    ensures q.withData + q.missing == q.total
    ensures 0.0 <= q.completeness <= 100.0
  {
    var total := |records|;
    var withData := CountWhere(records, has);
    var completeness := Completeness(withData, total);
    Report(completeness, total, withData, total - withData, Validation(completeness))
  }

  /** VALID exactly when at least 70% of a non-empty record list has the
      key value, PARTIAL from 50% up to that, INCOMPLETE below and for an
      empty list. */
  lemma AssessGrades<R>(records: seq<R>, has: R -> bool)
    ensures var q := Assess(records, has);
      && (q.status == "VALID" <==> q.total > 0 && 10 * q.withData >= 7 * q.total)
      && (q.status == "PARTIAL" <==> q.total > 0 && 10 * q.withData < 7 * q.total && 2 * q.withData >= q.total)
      && (q.total == 0 ==> q.status == "INCOMPLETE" && q.completeness == 0.0)
  {
    var q := Assess(records, has);
    ValidationByCounts(q.withData, q.total);
  }

  /** `w / t * 100 >= bound` without the division. */
  lemma RatioAtLeast(w: real, t: real, bound: real)
    requires t > 0.0
    ensures w / t * 100.0 >= bound <==> w * 100.0 >= bound * t
  {
    var q := w / t;
    assert q * t == w;
    AtLeastScaled(q * 100.0, t, bound);
    assert q * 100.0 * t == w * 100.0;
  }

  /** For a positive scale t, c reaches a threshold exactly when c * t
      reaches the scaled threshold. */
  lemma AtLeastScaled(c: real, t: real, bound: real)
    requires t > 0.0
    ensures c >= bound <==> c * t >= bound * t
  {
    if c >= bound {
      assert (c - bound) * t >= 0.0;
    } else {
      assert (bound - c) * t > 0.0;
    }
  }
}
