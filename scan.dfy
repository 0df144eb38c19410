// The row loop every parser runs over a table, in one place.
//
// Each parser's loop body decides, for one row and the number of records
// appended so far, whether to `continue` (Skip), `break` (Stop) or append a
// record (Keep). `Run` is the meaning of the whole loop; `ScanRows` is the
// loop itself. `FirstMatch` and `LastMatch` are the two other loop shapes
// the parsers use: return at the first row that yields a value, and
// overwrite a slot on every row that yields one.
module Scan {
  import opened Wrappers

  datatype Step<R> = Skip | Stop | Keep(record: R)

  /** Records appended so far, and whether the loop has hit `break`. */
  datatype State<R> = State(out: seq<R>, stopped: bool)

  /** The state after the loop body has run on every element of `xs`. */
  function Run<A, R>(xs: seq<A>, step: (A, nat) -> Step<R>): (st: State<R>)
    ensures |st.out| <= |xs|
    decreases |xs|
  {
    if xs == [] then State([], false)
    else
      var st := Run(xs[..|xs| - 1], step);
      if st.stopped then st
      else
        match step(xs[|xs| - 1], |st.out|)
        case Skip => st
        case Stop => State(st.out, true)
        case Keep(r) => State(st.out + [r], false)
  }

  /** The loop: `for row in rows: … continue / break / append`. */
  method ScanRows<A, R>(xs: seq<A>, step: (A, nat) -> Step<R>) returns (out: seq<R>)
    ensures out == Run(xs, step).out
  {
    out := [];
    var i := 0;
    while i < |xs|
      invariant 0 <= i <= |xs|
      invariant Run(xs[..i], step) == State(out, false)
    {
      assert xs[..i + 1][..i] == xs[..i];
      match step(xs[i], |out|) {
        case Skip =>
        case Stop =>
          StoppedStays(xs, step, i + 1);
          return;
        case Keep(r) =>
          out := out + [r];
      }
      i := i + 1;
    }
    assert xs[..i] == xs;
  }

  /** Once the loop has hit `break`, later elements change nothing. */
  lemma {:induction false} StoppedStays<A, R>(xs: seq<A>, step: (A, nat) -> Step<R>, m: nat)
    requires m <= |xs|
    requires Run(xs[..m], step).stopped
    ensures Run(xs, step) == Run(xs[..m], step)
    decreases |xs| - m
  {
    if m < |xs| {
      var ys := xs[..m + 1];
      assert ys[..m] == xs[..m];
      assert Run(ys, step) == Run(xs[..m], step);
      StoppedStays(xs, step, m + 1);
    } else {
      assert xs[..m] == xs;
    }
  }

  /** The records before element `m` are a prefix of all the records. */
  lemma {:induction false} OutGrows<A, R>(xs: seq<A>, step: (A, nat) -> Step<R>, m: nat)
    requires m <= |xs|
    ensures Run(xs[..m], step).out <= Run(xs, step).out
    decreases |xs| - m
  {
    if m < |xs| {
      assert xs[..m + 1][..m] == xs[..m];
      OutGrows(xs, step, m + 1);
    } else {
      assert xs[..m] == xs;
    }
  }

  /** Every record is the one the loop body built for some element, given
      the number of records before it. */
  lemma {:induction false} RunSound<A, R>(xs: seq<A>, step: (A, nat) -> Step<R>, k: nat)
    requires k < |Run(xs, step).out|
    ensures exists i :: 0 <= i < |xs| && step(xs[i], k) == Keep(Run(xs, step).out[k])
    decreases |xs|
  {
    var init := xs[..|xs| - 1];
    var st := Run(init, step);
    if k < |st.out| {
      RunSound(init, step, k);
      var i :| 0 <= i < |init| && step(init[i], k) == Keep(st.out[k]);
      assert xs[i] == init[i];
    } else {
      assert step(xs[|xs| - 1], k) == Keep(Run(xs, step).out[k]);
    }
  }

  /** An element whose body always breaks ends the loop: the records are
      exactly those of the elements before it. */
  lemma StopsAt<A, R>(xs: seq<A>, step: (A, nat) -> Step<R>, j: nat)
    requires j < |xs|
    requires forall n: nat :: step(xs[j], n).Stop?
    ensures Run(xs, step).out == Run(xs[..j], step).out
  {
    var ys := xs[..j + 1];
    assert ys[..j] == xs[..j];
    assert ys[j] == xs[j];
    assert Run(ys, step).stopped;
    StoppedStays(xs, step, j + 1);
  }

  /** No element up to `m` makes the body break. */
  ghost predicate NoStopBefore<A, R>(xs: seq<A>, step: (A, nat) -> Step<R>, m: nat)
    requires m <= |xs|
  {
    forall j, n: nat :: 0 <= j < m ==> !step(xs[j], n).Stop?
  }

  lemma {:induction false} NotStopped<A, R>(xs: seq<A>, step: (A, nat) -> Step<R>)
    requires NoStopBefore(xs, step, |xs|)
    ensures !Run(xs, step).stopped
    decreases |xs|
  {
    if xs != [] {
      var init := xs[..|xs| - 1];
      assert NoStopBefore(init, step, |init|) by {
        forall j, n: nat | 0 <= j < |init| ensures !step(init[j], n).Stop? {
          assert init[j] == xs[j];
        }
      }
      NotStopped(init, step);
      assert !step(xs[|xs| - 1], |Run(init, step).out|).Stop?;
    }
  }

  /** With no `break` up to element `i`, an element whose body always
      appends does appear among the records. */
  lemma RunComplete<A, R>(xs: seq<A>, step: (A, nat) -> Step<R>, i: nat)
    requires i < |xs|
    requires NoStopBefore(xs, step, i)
    requires forall n: nat :: step(xs[i], n).Keep?
    ensures exists k :: 0 <= k < |Run(xs, step).out| && step(xs[i], k) == Keep(Run(xs, step).out[k])
  {
    var init := xs[..i];
    assert NoStopBefore(init, step, |init|) by {
      forall j, n: nat | 0 <= j < |init| ensures !step(init[j], n).Stop? {
        assert init[j] == xs[j];
      }
    }
    NotStopped(init, step);
    var ys := xs[..i + 1];
    assert ys[..i] == init && ys[i] == xs[i];
    var k := |Run(init, step).out|;
    assert Run(ys, step).out == Run(init, step).out + [step(xs[i], k).record];
    OutGrows(xs, step, i + 1);
    assert Run(ys, step).out[k] == Run(xs, step).out[k];
  }

  /** The loop body ignores the record count and never breaks. */
  ghost predicate Filtering<A(!new), R>(step: (A, nat) -> Step<R>)
  {
    forall x: A, n: nat :: step(x, n) == step(x, 0) && !step(x, n).Stop?
  }

  /** For a filtering body, the records of `a + b` are those of `a`
      followed by those of `b`: the records keep the table's order. */
  lemma {:induction false} RunAppend<A(!new), R>(a: seq<A>, b: seq<A>, step: (A, nat) -> Step<R>)
    requires Filtering(step)
    ensures Run(a + b, step) == State(Run(a, step).out + Run(b, step).out, false)
    decreases |b|
  {
    if b == [] {
      assert a + b == a;
      if a != [] {
        NotStoppedFiltering(a, step);
      }
    } else {
      var b' := b[..|b| - 1];
      assert (a + b)[..|a + b| - 1] == a + b';
      RunAppend(a, b', step);
      NotStoppedFiltering(b, step);
      var x := b[|b| - 1];
      assert step(x, |Run(a + b', step).out|) == step(x, |Run(b', step).out|);
    }
  }

  lemma NotStoppedFiltering<A(!new), R>(xs: seq<A>, step: (A, nat) -> Step<R>)
    requires Filtering(step)
    ensures !Run(xs, step).stopped
  {
    NotStopped(xs, step);
  }

  // ---- loops that only filter ----

  /** The values `f` yields, in order: the records of a loop body that
      appends `f(x)` when there is one and continues otherwise. */
  function FilterMap<A, R>(xs: seq<A>, f: A -> Option<R>): (out: seq<R>)
    ensures |out| <= |xs|
    decreases |xs|
  {
    if xs == [] then []
    else
      FilterMap(xs[..|xs| - 1], f)
      + (match f(xs[|xs| - 1]) case Some(r) => [r] case None => [])
  }

  function AsStep<R>(v: Option<R>): Step<R>
  {
    match v
    case Some(r) => Keep(r)
    case None => Skip
  }

  /** A loop body that appends `f(x)` or continues runs as `FilterMap`. */
  lemma {:induction false} RunFilterMap<A, R>(xs: seq<A>, step: (A, nat) -> Step<R>, f: A -> Option<R>)
    requires forall x, n: nat :: step(x, n) == AsStep(f(x))
    ensures Run(xs, step) == State(FilterMap(xs, f), false)
    decreases |xs|
  {
    if xs != [] {
      RunFilterMap(xs[..|xs| - 1], step, f);
    }
  }

  /** Every value `f` yields on an element is among the records. */
  lemma {:induction false} FilterMapComplete<A, R>(xs: seq<A>, f: A -> Option<R>, i: nat)
    requires i < |xs| && f(xs[i]).Some?
    ensures f(xs[i]).value in FilterMap(xs, f)
    decreases |xs|
  {
    var init := xs[..|xs| - 1];
    if i < |init| {
      assert init[i] == xs[i];
      FilterMapComplete(init, f, i);
    }
  }

  /** Every record is the value `f` yields on some element. */
  lemma {:induction false} FilterMapSound<A, R>(xs: seq<A>, f: A -> Option<R>, r: R)
    requires r in FilterMap(xs, f)
    ensures exists i :: 0 <= i < |xs| && f(xs[i]) == Some(r)
    decreases |xs|
  {
    var init := xs[..|xs| - 1];
    if r in FilterMap(init, f) {
      FilterMapSound(init, f, r);
      var i :| 0 <= i < |init| && f(init[i]) == Some(r);
      assert xs[i] == init[i];
    } else {
      assert f(xs[|xs| - 1]) == Some(r);
    }
  }

  /** The positions of the elements that yield a record. */
  function Yielding<A, R>(xs: seq<A>, f: A -> Option<R>): set<int>
  {
    set i | 0 <= i < |xs| && f(xs[i]).Some?
  }

  /** One record per element that yields one. */
  lemma {:induction false} FilterMapCount<A, R>(xs: seq<A>, f: A -> Option<R>)
    ensures |FilterMap(xs, f)| == |Yielding(xs, f)|
    decreases |xs|
  {
    if xs != [] {
      var n := |xs| - 1;
      var init := xs[..n];
      FilterMapCount(init, f);
      var a := Yielding(init, f);
      var b := Yielding(xs, f);
      assert n !in a;
      if f(xs[n]).Some? {
        assert b == a + {n};
      } else {
        assert b == a;
      }
    }
  }

  /** The loop `for x in xs: if v := f(x): out.append(v)`. */
  method KeepRows<A, R>(xs: seq<A>, f: A -> Option<R>) returns (out: seq<R>)
    ensures out == FilterMap(xs, f)
  {
    out := [];
    var i := 0;
    while i < |xs|
      invariant 0 <= i <= |xs|
      invariant out == FilterMap(xs[..i], f)
    {
      assert xs[..i + 1][..i] == xs[..i];
      var v := f(xs[i]);
      if v.Some? {
        out := out + [v.value];
      }
      i := i + 1;
    }
    assert xs[..i] == xs;
  }

  /** Filtering works piecewise: the records keep the table's order. */
  lemma {:induction false} FilterMapAppend<A, R>(a: seq<A>, b: seq<A>, f: A -> Option<R>)
    ensures FilterMap(a + b, f) == FilterMap(a, f) + FilterMap(b, f)
    decreases |b|
  {
    if b == [] {
      assert a + b == a;
    } else {
      var b' := b[..|b| - 1];
      assert (a + b)[..|a + b| - 1] == a + b';
      FilterMapAppend(a, b', f);
    }
  }

  // ---- return at the first match ----

  /** The value of the first element that yields one, or None. */
  function FirstMatch<A, T(==)>(xs: seq<A>, f: A -> Option<T>): (r: Option<T>)
    ensures r.None? <==> forall i :: 0 <= i < |xs| ==> f(xs[i]).None?
    ensures r.Some? ==> exists i :: 0 <= i < |xs| && f(xs[i]) == r
                          && forall j :: 0 <= j < i ==> f(xs[j]).None?
  {
    if xs == [] then None
    else if f(xs[0]).Some? then
      f(xs[0])
    else
      var r := FirstMatch(xs[1..], f);
      if r.Some? then
        var i :| 0 <= i < |xs[1..]| && f(xs[1..][i]) == r
                  && forall j :: 0 <= j < i ==> f(xs[1..][j]).None?;
        assert f(xs[i + 1]) == r;
        assert forall j :: 0 <= j < i + 1 ==> f(xs[j]).None? by {
          forall j | 0 <= j < i + 1 ensures f(xs[j]).None? {
            if j > 0 { assert xs[j] == xs[1..][j - 1]; }
          }
        }
        r
      else
        assert forall i :: 0 <= i < |xs| ==> f(xs[i]).None? by {
          forall i | 0 <= i < |xs| ensures f(xs[i]).None? {
            if i > 0 { assert xs[i] == xs[1..][i - 1]; }
          }
        }
        r
  }

  /** Where the first match is. */
  lemma FirstMatchIndex<A, T>(xs: seq<A>, f: A -> Option<T>) returns (i: nat)
    requires FirstMatch(xs, f).Some?
    ensures i < |xs| && f(xs[i]) == FirstMatch(xs, f)
    ensures forall j :: 0 <= j < i ==> f(xs[j]).None?
  {
    i :| 0 <= i < |xs| && f(xs[i]) == FirstMatch(xs, f) && forall j :: 0 <= j < i ==> f(xs[j]).None?;
  }

  /** The loop `for x in xs: … return value` with None after the loop. */
  method FindFirst<A, T(==)>(xs: seq<A>, f: A -> Option<T>) returns (r: Option<T>)
    ensures r == FirstMatch(xs, f)
  {
    var i := 0;
    while i < |xs|
      invariant 0 <= i <= |xs|
      invariant FirstMatch(xs, f) == FirstMatch(xs[i..], f)
    {
      if f(xs[i]).Some? {
        return f(xs[i]);
      }
      assert xs[i..][1..] == xs[i + 1..];
      i := i + 1;
    }
    return None;
  }

  // ---- overwrite a slot on every match ----

  /** The value of the last element that yields one, or None. */
  function LastMatch<A, T(==)>(xs: seq<A>, f: A -> Option<T>): (r: Option<T>)
    ensures r.None? <==> forall i :: 0 <= i < |xs| ==> f(xs[i]).None?
    ensures r.Some? ==> exists i :: 0 <= i < |xs| && f(xs[i]) == r
                          && forall j :: i < j < |xs| ==> f(xs[j]).None?
    decreases |xs|
  {
    if xs == [] then None
    else
      var last := f(xs[|xs| - 1]);
      if last.Some? then
        last
      else
        var init := xs[..|xs| - 1];
        var r := LastMatch(init, f);
        if r.Some? then
          var i :| 0 <= i < |init| && f(init[i]) == r && forall j :: i < j < |init| ==> f(init[j]).None?;
          assert f(xs[i]) == r;
          assert forall j :: i < j < |xs| ==> f(xs[j]).None? by {
            forall j | i < j < |xs| ensures f(xs[j]).None? {
              if j < |init| { assert xs[j] == init[j]; }
            }
          }
          r
        else
          assert forall i :: 0 <= i < |xs| ==> f(xs[i]).None? by {
            forall i | 0 <= i < |xs| ensures f(xs[i]).None? {
              if i < |init| { assert xs[i] == init[i]; }
            }
          }
          r
  }

  /** One more element: it overwrites the slot when it yields a value. */
  lemma LastMatchStep<A, T>(xs: seq<A>, i: nat, f: A -> Option<T>)
    requires i < |xs|
    ensures LastMatch(xs[..i + 1], f) == if f(xs[i]).Some? then f(xs[i]) else LastMatch(xs[..i], f)
  {
    assert xs[..i + 1][..i] == xs[..i];
    assert xs[..i + 1][i] == xs[i];
  }

  /** The loop `slot = None; for x in xs: if …: slot = value`. */
  method FindLast<A, T(==)>(xs: seq<A>, f: A -> Option<T>) returns (r: Option<T>)
    ensures r == LastMatch(xs, f)
  {
    r := None;
    var i := 0;
    while i < |xs|
      invariant 0 <= i <= |xs|
      invariant r == LastMatch(xs[..i], f)
    {
      assert xs[..i + 1][..i] == xs[..i];
      var v := f(xs[i]);
      if v.Some? {
        r := v;
      }
      i := i + 1;
    }
    assert xs[..i] == xs;
  }

  // ---- what a filter keeps first and last ----

  /** An element that yields a value after elements that yield none is the
      first match. */
  lemma FirstMatchAt<A, T>(xs: seq<A>, f: A -> Option<T>, i: nat)
    requires i < |xs| && f(xs[i]).Some?
    requires forall j :: 0 <= j < i ==> f(xs[j]).None?
    ensures FirstMatch(xs, f) == f(xs[i])
  {
    var r := FirstMatch(xs, f);
    var k :| 0 <= k < |xs| && f(xs[k]) == r && forall j :: 0 <= j < k ==> f(xs[j]).None?;
    assert !(k < i) && !(k > i);
  }

  /** An element that yields a value before elements that yield none is the
      last match. */
  lemma LastMatchAt<A, T>(xs: seq<A>, f: A -> Option<T>, i: nat)
    requires i < |xs| && f(xs[i]).Some?
    requires forall j :: i < j < |xs| ==> f(xs[j]).None?
    ensures LastMatch(xs, f) == f(xs[i])
  {
    var r := LastMatch(xs, f);
    var k :| 0 <= k < |xs| && f(xs[k]) == r && forall j :: k < j < |xs| ==> f(xs[j]).None?;
    assert !(k < i) && !(k > i);
  }

  /** The values a filter keeps start with the first match and end with the
      last; there are none exactly when nothing matches. */
  lemma FilterMapEnds<A, T>(xs: seq<A>, f: A -> Option<T>)
    ensures FilterMap(xs, f) == [] <==> FirstMatch(xs, f).None?
    ensures FilterMap(xs, f) != [] ==> Some(FilterMap(xs, f)[0]) == FirstMatch(xs, f)
    ensures FilterMap(xs, f) != [] ==> Some(FilterMap(xs, f)[|FilterMap(xs, f)| - 1]) == LastMatch(xs, f)
  {
    FilterMapFirst(xs, f);
    FilterMapLast(xs, f);
  }

  /** The first value a filter keeps is the first match. */
  lemma {:induction false} FilterMapFirst<A, T>(xs: seq<A>, f: A -> Option<T>)
    ensures FilterMap(xs, f) == [] <==> FirstMatch(xs, f).None?
    ensures FilterMap(xs, f) != [] ==> Some(FilterMap(xs, f)[0]) == FirstMatch(xs, f)
    decreases |xs|
  {
    if xs != [] {
      var init := xs[..|xs| - 1];
      var last := xs[|xs| - 1];
      FilterMapFirst(init, f);
      assert forall j :: 0 <= j < |init| ==> xs[j] == init[j];
      var first := FirstMatch(init, f);
      if first.Some? {
        var i :| 0 <= i < |init| && f(init[i]) == first && forall j :: 0 <= j < i ==> f(init[j]).None?;
        FirstMatchAt(xs, f, i);
      } else if f(last).Some? {
        FirstMatchAt(xs, f, |xs| - 1);
      }
    }
  }

  /** The last value a filter keeps is the last match. */
  lemma {:induction false} FilterMapLast<A, T>(xs: seq<A>, f: A -> Option<T>)
    ensures FilterMap(xs, f) != [] ==> Some(FilterMap(xs, f)[|FilterMap(xs, f)| - 1]) == LastMatch(xs, f)
    decreases |xs|
  {
    if xs != [] && f(xs[|xs| - 1]).None? {
      FilterMapLast(xs[..|xs| - 1], f);
    }
  }
}
