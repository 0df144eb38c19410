// Python's `<` on strings (code-point lexicographic order) and `sorted()`
// of a set of strings.
module StrOrder {

  /** `a < b` on Python strings. */
  predicate LexLess(a: string, b: string)
  {
    if |a| == 0 then |b| > 0
    else if |b| == 0 then false
    else if a[0] != b[0] then a[0] < b[0]
    else LexLess(a[1..], b[1..])
  }

  lemma {:induction false} LexLessIrreflexive(a: string)
    ensures !LexLess(a, a)
  {
    if |a| > 0 {
      LexLessIrreflexive(a[1..]);
    }
  }

  lemma {:induction false} LexLessTransitive(a: string, b: string, c: string)
    requires LexLess(a, b) && LexLess(b, c)
    ensures LexLess(a, c)
  {
    if |a| > 0 && |b| > 0 && |c| > 0 && a[0] == b[0] && b[0] == c[0] {
      LexLessTransitive(a[1..], b[1..], c[1..]);
    }
  }

  /** Two different strings are always ordered one way or the other. */
  lemma {:induction false} LexLessTotal(a: string, b: string)
    requires a != b
    ensures LexLess(a, b) || LexLess(b, a)
  {
    if |a| > 0 && |b| > 0 && a[0] == b[0] {
      assert a == [a[0]] + a[1..] && b == [b[0]] + b[1..];
      LexLessTotal(a[1..], b[1..]);
    }
  }

  lemma LexLessAsymmetric(a: string, b: string)
    requires LexLess(a, b)
    ensures !LexLess(b, a)
  {
    if LexLess(b, a) {
      LexLessTransitive(a, b, a);
      LexLessIrreflexive(a);
    }
  }

  /** Strictly ascending under `LexLess`; this also rules out duplicates. */
  predicate StrictlySorted(s: seq<string>)
  {
    forall i, j :: 0 <= i < j < |s| ==> LexLess(s[i], s[j])
  }

  /** Insert `x` into an ascending sequence that does not hold it. */
  function Insert(x: string, s: seq<string>): (r: seq<string>)
    requires StrictlySorted(s) && x !in s
    ensures StrictlySorted(r)
    ensures |r| == |s| + 1
    ensures forall y :: y in r <==> y == x || y in s
  {
    if s == [] then [x]
    else if LexLess(x, s[0]) then
      forall j | 0 < j < |s| ensures LexLess(x, s[j]) {
        LexLessTransitive(x, s[0], s[j]);
      }
      [x] + s
    else
      LexLessTotal(x, s[0]);
      var rest := Insert(x, s[1..]);
      var r := [s[0]] + rest;
      forall i, j | 0 <= i < j < |r| ensures LexLess(r[i], r[j]) {
        if i > 0 {
          assert r[i] == rest[i - 1] && r[j] == rest[j - 1];
        } else {
          assert r[j] in rest;
        }
      }
      r
  }

  /** `sorted(keys)`: the keys of a set in ascending order. */
  method SortedKeys(keys: set<string>) returns (s: seq<string>)
    ensures StrictlySorted(s)
    ensures |s| == |keys|
    ensures forall y :: y in s <==> y in keys
  {
    s := [];
    var rest := keys;
    while rest != {}
      invariant StrictlySorted(s)
      invariant rest <= keys
      invariant forall y :: y in s <==> y in keys && y !in rest
      invariant |s| + |rest| == |keys|
      decreases |rest|
    {
      var k :| k in rest;
      s := Insert(k, s);
      rest := rest - {k};
    }
  }

  /** Strictly descending under `LexLess`. */
  predicate StrictlyDescending(s: seq<string>)
  {
    forall i, j :: 0 <= i < j < |s| ==> LexLess(s[j], s[i])
  }

  /** `sorted(keys, reverse=True)`: the keys of a set in descending order. */
  method SortedKeysDescending(keys: set<string>) returns (s: seq<string>)
    ensures StrictlyDescending(s)
    ensures |s| == |keys|
    ensures forall y :: y in s <==> y in keys
  {
    var up := SortedKeys(keys);
    s := seq(|up|, i requires 0 <= i < |up| => up[|up| - 1 - i]);
    forall y | y in up ensures y in s {
      var i :| 0 <= i < |up| && up[i] == y;
      assert s[|up| - 1 - i] == y;
    }
  }

  /** A strictly sorted sequence is determined by its elements. */
  lemma {:induction false} SortedUnique(s: seq<string>, t: seq<string>)
    requires StrictlySorted(s) && StrictlySorted(t)
    requires forall y :: y in s <==> y in t
    ensures s == t
  {
    assert s != [] ==> s[0] in t;
    assert t != [] ==> t[0] in s;
    if s != [] && t != [] {
      if s[0] != t[0] {
        assert s[0] in t;
        var k :| 0 <= k < |t| && t[k] == s[0];
        assert t[0] in s;
        var j :| 0 <= j < |s| && s[j] == t[0];
        assert k != 0 && j != 0;
        LexLessAsymmetric(s[0], t[0]);
      }
      forall y ensures y in s[1..] <==> y in t[1..] {
        if y in s[1..] {
          var j :| 1 <= j < |s| && s[j] == y;
          LexLessIrreflexive(s[0]);
          assert y in t && y != t[0];
          var m :| 0 <= m < |t| && t[m] == y;
          assert t[1..][m - 1] == y;
        }
        if y in t[1..] {
          var j :| 1 <= j < |t| && t[j] == y;
          LexLessIrreflexive(t[0]);
          assert y in s && y != s[0];
          var m :| 0 <= m < |s| && s[m] == y;
          assert s[1..][m - 1] == y;
        }
      }
      SortedUnique(s[1..], t[1..]);
    }
  }

  /** A strictly descending sequence is determined by its elements too. */
  lemma SortedUniqueDescending(s: seq<string>, t: seq<string>)
    requires StrictlyDescending(s) && StrictlyDescending(t)
    requires forall y :: y in s <==> y in t
    ensures s == t
  {
    var rs := seq(|s|, i requires 0 <= i < |s| => s[|s| - 1 - i]);
    var rt := seq(|t|, i requires 0 <= i < |t| => t[|t| - 1 - i]);
    forall y ensures y in rs <==> y in s {
      if y in s {
        var i :| 0 <= i < |s| && s[i] == y;
        assert rs[|s| - 1 - i] == y;
      }
    }
    forall y ensures y in rt <==> y in t {
      if y in t {
        var i :| 0 <= i < |t| && t[i] == y;
        assert rt[|t| - 1 - i] == y;
      }
    }
    SortedUnique(rs, rt);
    assert |s| == |t|;
    forall i | 0 <= i < |s| ensures s[i] == t[i] {
      assert rs[|s| - 1 - i] == s[i];
    }
  }
}
