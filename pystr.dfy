// The parts of Python's `str` behaviour the scrapers rely on: whitespace
// stripping, ASCII case mapping, substring tests, `replace` of one
// character, `split(sep)`, `split()` and `' '.join`, and the `<` order.
module PyStr {

  /** `str.isspace()` for one character. */
  predicate IsSpace(c: char)
  {
    c == ' ' || c == '\t' || c == '\n' || c == '\r' || c == '\U{000B}' || c == '\U{000C}'
    || ('\U{001C}' <= c <= '\U{001F}') || c == '\U{0085}' || c == '\U{00A0}' || c == '\U{1680}'
    || ('\U{2000}' <= c <= '\U{200A}') || c == '\U{2028}' || c == '\U{2029}'
    || c == '\U{202F}' || c == '\U{205F}' || c == '\U{3000}'
  }

  predicate NoSpace(s: string)
  {
    forall i :: 0 <= i < |s| ==> !IsSpace(s[i])
  }

  predicate IsAsciiDigit(c: char)
  {
    '0' <= c <= '9'
  }

  /** `str.isdigit()`: non-empty and every character a digit. */
  predicate IsDigits(s: string)
  {
    |s| > 0 && forall i :: 0 <= i < |s| ==> IsAsciiDigit(s[i])
  }

  /** `str.lstrip()`. */
  function LStrip(s: string): (r: string)
    ensures |r| <= |s| && r == s[|s| - |r|..]
    ensures r == [] || !IsSpace(r[0])
    ensures forall i :: 0 <= i < |s| - |r| ==> IsSpace(s[i])
  {
    if |s| > 0 && IsSpace(s[0]) then LStrip(s[1..]) else s
  }

  /** `str.rstrip()`. */
  function RStrip(s: string): (r: string)
    ensures |r| <= |s| && r == s[..|r|]
    ensures r == [] || !IsSpace(r[|r| - 1])
    ensures forall i :: |r| <= i < |s| ==> IsSpace(s[i])
  {
    if |s| > 0 && IsSpace(s[|s| - 1]) then RStrip(s[..|s| - 1]) else s
  }

  /** `str.strip()`: the longest slice with no whitespace at either end. */
  function Strip(s: string): (r: string)
    ensures r == [] || (!IsSpace(r[0]) && !IsSpace(r[|r| - 1]))
    ensures Contains(s, r)
  {
    var l := LStrip(s);
    var r := RStrip(l);
    assert OccursAt(s, r, |s| - |l|);
    r
  }

  lemma StripIdempotent(s: string)
    ensures Strip(Strip(s)) == Strip(s)
  {
    var t := Strip(s);
    assert LStrip(t) == t;
    assert RStrip(t) == t;
  }

  /** Every character that `strip()` drops is whitespace. */
  lemma StripKeeps(s: string, c: char)
    requires c in s && !IsSpace(c)
    ensures c in Strip(s)
  {
    var l := LStrip(s);
    var i :| 0 <= i < |s| && s[i] == c;
    assert i >= |s| - |l| && l[i - (|s| - |l|)] == c;
    var r := RStrip(l);
    assert i - (|s| - |l|) < |r|;
    assert r[i - (|s| - |l|)] == c;
  }

  /** Stripping a text with no whitespace at either end changes nothing. */
  lemma StripTrimmed(s: string)
    requires s == [] || (!IsSpace(s[0]) && !IsSpace(s[|s| - 1]))
    ensures Strip(s) == s
  {
    assert LStrip(s) == s;
    assert RStrip(s) == s;
  }

  /** Stripping a text that has no whitespace at all changes nothing. */
  lemma StripNoSpace(s: string)
    requires NoSpace(s)
    ensures Strip(s) == s
  {
    assert LStrip(s) == s;
    assert RStrip(s) == s;
  }

  function LowerChar(c: char): char
  {
    if 'A' <= c <= 'Z' then (c as int + 32) as char else c
  }

  function UpperChar(c: char): char
  {
    if 'a' <= c <= 'z' then (c as int - 32) as char else c
  }

  /** `str.lower()` on ASCII letters. */
  function Lower(s: string): (r: string)
    ensures |r| == |s|
    ensures forall i :: 0 <= i < |s| ==> r[i] == LowerChar(s[i])
  {
    seq(|s|, i requires 0 <= i < |s| => LowerChar(s[i]))
  }

  /** `str.upper()` on ASCII letters. */
  function Upper(s: string): (r: string)
    ensures |r| == |s|
    ensures forall i :: 0 <= i < |s| ==> r[i] == UpperChar(s[i])
  {
    seq(|s|, i requires 0 <= i < |s| => UpperChar(s[i]))
  }

  lemma UpperIdempotent(s: string)
    ensures Upper(Upper(s)) == Upper(s)
  {
  }

  predicate StartsWith(s: string, prefix: string)
  {
    |prefix| <= |s| && s[..|prefix|] == prefix
  }

  /** `sub` occurs in `s` starting at index `i`. */
  predicate OccursAt(s: string, sub: string, i: int)
  {
    0 <= i <= |s| - |sub| && s[i..i + |sub|] == sub
  }

  /** Python's `sub in s`. */
  ghost predicate Contains(s: string, sub: string)
  {
    exists i :: OccursAt(s, sub, i)
  }

  /** An executable form of `sub in s`, used by the methods. */
  function Find(s: string, sub: string): (found: bool)
    ensures found <==> Contains(s, sub)
    decreases |s|
  {
    if StartsWith(s, sub) then
      assert OccursAt(s, sub, 0);
      true
    else if |s| == 0 then
      false
    else
      var rest := Find(s[1..], sub);
      if rest then
        var i :| OccursAt(s[1..], sub, i);
        assert OccursAt(s, sub, i + 1);
        true
      else
        assert forall i :: OccursAt(s, sub, i) ==> i >= 1 && OccursAt(s[1..], sub, i - 1);
        false
  }

  lemma ContainsInPrefix(s: string, t: string, sub: string)
    requires Contains(s, sub)
    ensures Contains(s + t, sub)
  {
    var i :| OccursAt(s, sub, i);
    assert (s + t)[i..i + |sub|] == sub;
    assert OccursAt(s + t, sub, i);
  }

  /** Lower-casing keeps every occurrence: `sub in s` implies
      `sub.lower() in s.lower()`. */
  lemma LowerContains(s: string, sub: string)
    requires Contains(s, sub)
    ensures Contains(Lower(s), Lower(sub))
  {
    var i :| OccursAt(s, sub, i);
    assert Lower(s)[i..i + |sub|] == Lower(sub);
    assert OccursAt(Lower(s), Lower(sub), i);
  }

  /** `strip()` only drops whitespace at the ends, so a word with no
      whitespace at either end that occurs in `s.lower()` still occurs in
      `s.strip().lower()`. */
  lemma StripLowerKeeps(s: string, w: string)
    requires Contains(Lower(s), w)
    requires w != [] && !IsSpace(w[0]) && !IsSpace(w[|w| - 1])
    ensures Contains(Lower(Strip(s)), w)
  {
    var d := StripSpan(s);
    KeptInSpan(s, Strip(s), w, d);
  }

  /** The same, for a slice `r` of `s` that has only whitespace around
      it. */
  lemma KeptInSpan(s: string, r: string, w: string, d: nat)
    requires d + |r| <= |s| && r == s[d..d + |r|]
    requires forall x :: 0 <= x < d ==> IsSpace(s[x])
    requires forall x :: d + |r| <= x < |s| ==> IsSpace(s[x])
    requires Contains(Lower(s), w) && w != [] && !IsSpace(w[0]) && !IsSpace(w[|w| - 1])
    ensures Contains(Lower(r), w)
  {
    var i :| OccursAt(Lower(s), w, i);
    var ls, lr := Lower(s), Lower(r);
    OccurrenceInside(s, ls, w, d, |r|, i);
    assert lr == ls[d..d + |r|] by {
      forall k | 0 <= k < |r|
        ensures lr[k] == ls[d + k]
      {
        assert r[k] == s[d + k];
      }
    }
    WitnessInSlice(ls, lr, d, i, w);
  }

  /** An occurrence inside the slice `ls[d..d+|lr|]` is an occurrence in
      that slice. */
  lemma WitnessInSlice(ls: string, lr: string, d: nat, i: nat, w: string)
    requires d + |lr| <= |ls| && lr == ls[d..d + |lr|]
    requires OccursAt(ls, w, i) && d <= i && i + |w| <= d + |lr|
    ensures Contains(lr, w)
  {
    SliceOfSlice(ls, lr, d, i, |w|);
    assert OccursAt(lr, w, i - d);
  }

  /** A word with no whitespace at either end, occurring in the lower-cased
      `ls` of `s`, lies between the leading and trailing whitespace of
      `s`. */
  lemma OccurrenceInside(s: string, ls: string, w: string, d: nat, n: nat, i: nat)
    requires |ls| == |s| && d + n <= |s|
    requires OccursAt(ls, w, i) && w != [] && !IsSpace(w[0]) && !IsSpace(w[|w| - 1])
    requires forall k :: 0 <= k < |s| ==> ls[k] == LowerChar(s[k])
    requires forall x :: 0 <= x < d ==> IsSpace(s[x])
    requires forall x :: d + n <= x < |s| ==> IsSpace(s[x])
    ensures d <= i && i + |w| <= d + n
  {
    var e := i + |w| - 1;
    OccurrenceEnds(ls, w, i);
    LowerKeepsSpace(s[i]);
    LowerKeepsSpace(s[e]);
    InsideSpan(s, d, n, i);
    InsideSpan(s, d, n, e);
  }

  /** The first and last characters of an occurrence. */
  lemma OccurrenceEnds(s: string, w: string, i: int)
    requires OccursAt(s, w, i) && w != []
    ensures s[i] == w[0] && s[i + |w| - 1] == w[|w| - 1]
  {
    assert s[i..i + |w|] == w;
  }

  /** A non-whitespace character lies between leading and trailing
      whitespace. */
  lemma InsideSpan(s: string, d: nat, n: nat, k: nat)
    requires d + n <= |s| && k < |s| && !IsSpace(s[k])
    requires forall x :: 0 <= x < d ==> IsSpace(s[x])
    requires forall x :: d + n <= x < |s| ==> IsSpace(s[x])
    ensures d <= k < d + n
  {
  }

  /** Lower-casing leaves whitespace as it is. */
  lemma LowerKeepsSpace(c: char)
    ensures IsSpace(c) ==> LowerChar(c) == c
  {
  }

  /** Where the stripped text sits in the original: only whitespace lies
      before and after it. */
  lemma StripSpan(s: string) returns (d: nat)
    ensures d + |Strip(s)| <= |s| && Strip(s) == s[d..d + |Strip(s)|]
    ensures forall k :: 0 <= k < d ==> IsSpace(s[k])
    ensures forall k :: d + |Strip(s)| <= k < |s| ==> IsSpace(s[k])
  {
    var l := LStrip(s);
    var r := RStrip(l);
    d := |s| - |l|;
    assert Strip(s) == r;
    PrefixOfSuffix(s, d, |r|);
    SpacesShifted(s, l, d, |r|);
  }

  /** Trailing whitespace of a suffix is trailing whitespace of the
      whole. */
  lemma SpacesShifted(s: string, l: string, d: nat, n: nat)
    requires d <= |s| && l == s[d..]
    requires forall i :: n <= i < |l| ==> IsSpace(l[i])
    ensures forall k :: d + n <= k < |s| ==> IsSpace(s[k])
  {
    forall k | d + n <= k < |s|
      ensures IsSpace(s[k])
    {
      assert s[k] == l[k - d];
    }
  }

  /** A prefix of a suffix is a slice. */
  lemma PrefixOfSuffix<T>(s: seq<T>, d: nat, n: nat)
    requires d + n <= |s|
    ensures s[d..][..n] == s[d..d + n]
  {
  }

  /** A slice of a slice is a slice of the original. */
  lemma SliceOfSlice<T>(s: seq<T>, r: seq<T>, d: nat, i: nat, n: nat)
    requires d + |r| <= |s| && r == s[d..d + |r|]
    requires d <= i && i + n <= d + |r|
    ensures r[i - d..i - d + n] == s[i..i + n]
  {
    var x, y := r[i - d..i - d + n], s[i..i + n];
    forall k | 0 <= k < n
      ensures x[k] == y[k]
    {
      assert x[k] == r[i - d + k] == s[d + (i - d + k)];
    }
  }

  /** Lower-casing commutes with slicing. */
  lemma LowerSlice(s: string, a: nat, b: nat)
    requires a <= b <= |s|
    ensures Lower(s[a..b]) == Lower(s)[a..b]
  {
  }

  /** `s.zfill(2)`: left-padded with '0' to two characters, the padding
      going after a leading sign. */
  function ZFill2(s: string): (r: string)
    ensures |r| == if |s| >= 2 then |s| else 2
    ensures |s| >= 2 ==> r == s
  {
    if |s| >= 2 then s
    else if |s| == 1 && (s[0] == '+' || s[0] == '-') then [s[0], '0']
    else seq(2 - |s|, _ => '0') + s
  }

  /** `s.replace(c, "")` for one character `c`. */
  function Remove(s: string, c: char): (r: string)
    ensures |r| <= |s|
    ensures c !in r
  {
    if s == [] then []
    else (if s[0] == c then [] else [s[0]]) + Remove(s[1..], c)
  }

  /** `s.replace(c, rep)` for one character `c`. */
  function ReplaceChar(s: string, c: char, rep: string): (r: string)
    ensures c !in rep ==> c !in r
    ensures forall x :: x in r ==> x in rep || (x in s && x != c)
  {
    if s == [] then []
    else (if s[0] == c then rep else [s[0]]) + ReplaceChar(s[1..], c, rep)
  }

  lemma ReplaceCharAbsent(s: string, c: char, rep: string)
    requires c !in s
    ensures ReplaceChar(s, c, rep) == s
  {
    if s != [] {
      assert c !in s[1..];
      ReplaceCharAbsent(s[1..], c, rep);
    }
  }

  lemma RemoveAbsent(s: string, c: char)
    requires c !in s
    ensures Remove(s, c) == s
  {
    if s != [] {
      assert c !in s[1..];
      RemoveAbsent(s[1..], c);
    }
  }

  /** Removing a character works piecewise on a concatenation. */
  lemma {:induction false} RemoveConcat(x: string, y: string, c: char)
    ensures Remove(x + y, c) == Remove(x, c) + Remove(y, c)
  {
    if x != [] {
      assert (x + y)[1..] == x[1..] + y;
      RemoveConcat(x[1..], y, c);
    } else {
      assert x + y == y;
    }
  }

  /** Removing one character keeps every other character. */
  /** Removing a character adds no other. */
  lemma {:induction false} RemoveOnlyDrops(s: string, c: char)
    ensures forall x :: x in Remove(s, c) ==> x in s
  {
    if s != [] {
      RemoveOnlyDrops(s[1..], c);
      assert forall x :: x in s[1..] ==> x in s;
    }
  }

  lemma {:induction false} RemoveKeeps(s: string, c: char, d: char)
    requires d in s && d != c
    ensures d in Remove(s, c)
  {
    if s[0] != d {
      assert d in s[1..];
      RemoveKeeps(s[1..], c, d);
    }
  }

  // ---- `str.split(sep)` and `sep.join(parts)` ----

  function IndexOf(s: string, c: char): (i: nat)
    requires c in s
    ensures i < |s| && s[i] == c && c !in s[..i]
  {
    if s[0] == c then 0 else 1 + IndexOf(s[1..], c)
  }

  /** `s.split(sep)` for a one-character separator: always at least one part. */
  function SplitOn(s: string, sep: char): (parts: seq<string>)
    ensures |parts| >= 1
    ensures sep in s ==> |parts| >= 2
    ensures forall p :: p in parts ==> sep !in p
    decreases |s|
  {
    if sep !in s then [s]
    else
      var i := IndexOf(s, sep);
      [s[..i]] + SplitOn(s[i + 1..], sep)
  }

  function JoinOn(parts: seq<string>, sep: char): string
    requires |parts| >= 1
  {
    if |parts| == 1 then parts[0] else parts[0] + [sep] + JoinOn(parts[1..], sep)
  }

  /** Splitting and joining with the same separator gives back the text. */
  lemma {:induction false} SplitOnJoin(s: string, sep: char)
    ensures JoinOn(SplitOn(s, sep), sep) == s
    decreases |s|
  {
    if sep in s {
      var i := IndexOf(s, sep);
      SplitOnJoin(s[i + 1..], sep);
      assert s == s[..i] + [sep] + s[i + 1..];
    }
  }

  /** `s.replace(pat, rep)`: occurrences replaced left to right, without
      overlap. */
  function ReplaceAll(s: string, pat: string, rep: string): (r: string)
    requires pat != []
    decreases |s|
  {
    if s == [] then []
    else if StartsWith(s, pat) then rep + ReplaceAll(s[|pat|..], pat, rep)
    else [s[0]] + ReplaceAll(s[1..], pat, rep)
  }

  /** Text that cannot start the pattern anywhere is kept, and the pattern
      after it is replaced: `(d + pat).replace(pat, rep) == d + rep`. */
  lemma {:induction false} ReplaceAllSuffix(d: string, pat: string, rep: string)
    requires pat != [] && pat[0] !in d
    ensures ReplaceAll(d + pat, pat, rep) == d + rep
    decreases |d|
  {
    if d == [] {
      assert d + pat == pat;
      assert pat[|pat|..] == [];
    } else {
      assert (d + pat)[0] == d[0] && d[0] != pat[0];
      assert (d + pat)[1..] == d[1..] + pat;
      ReplaceAllSuffix(d[1..], pat, rep);
    }
  }

  // ---- `str.split()` and `' '.join(words)` ----

  /** Length of the leading run of non-whitespace characters. */
  function RunLen(t: string): (n: nat)
    ensures n <= |t|
    ensures forall i :: 0 <= i < n ==> !IsSpace(t[i])
    ensures n == |t| || IsSpace(t[n])
    ensures t != [] && !IsSpace(t[0]) ==> n > 0
  {
    if t == [] || IsSpace(t[0]) then 0 else 1 + RunLen(t[1..])
  }

  predicate IsWord(w: string)
  {
    |w| > 0 && NoSpace(w)
  }

  /** `s.split()`: the maximal runs of non-whitespace, in order. */
  function Words(s: string): (ws: seq<string>)
    decreases |s|
  {
    var t := LStrip(s);
    if t == [] then []
    else
      var n := RunLen(t);
      [t[..n]] + Words(t[n..])
  }

  /** Every word is non-empty and free of whitespace. */
  lemma {:induction false} WordsAreWords(s: string)
    ensures forall k :: 0 <= k < |Words(s)| ==> IsWord(Words(s)[k])
    decreases |s|
  {
    var t := LStrip(s);
    if t != [] {
      var n := RunLen(t);
      var w := t[..n];
      assert IsWord(w) by {
        forall i | 0 <= i < |w| ensures !IsSpace(w[i]) {
          assert w[i] == t[i];
        }
      }
      WordsAreWords(t[n..]);
      WordsUnfold(s);
      var ws := Words(s);
      forall k | 0 <= k < |ws| ensures IsWord(ws[k]) {
        if k > 0 { assert ws[k] == Words(t[n..])[k - 1]; }
      }
    }
  }

  function JoinSpace(ws: seq<string>): string
  {
    if ws == [] then "" else if |ws| == 1 then ws[0] else ws[0] + " " + JoinSpace(ws[1..])
  }

  lemma RunLenWord(w: string, t: string)
    requires IsWord(w)
    requires t == [] || IsSpace(t[0])
    ensures RunLen(w + t) == |w|
    decreases |w|
  {
    if |w| > 1 {
      assert (w + t)[1..] == w[1..] + t;
      RunLenWord(w[1..], t);
    } else {
      assert (w + t)[1..] == t;
    }
  }

  lemma {:induction false} WordsSpacePrefix(sp: char, x: string)
    requires IsSpace(sp)
    ensures Words([sp] + x) == Words(x)
  {
    assert ([sp] + x)[1..] == x;
    assert LStrip([sp] + x) == LStrip(x);
  }

  /** A word on its own splits into itself. */
  lemma WordsSingle(w: string)
    requires IsWord(w)
    ensures Words(w) == [w]
  {
    assert LStrip(w) == w;
    RunLenWord(w, []);
    assert w + [] == w;
    assert w[|w|..] == [];
  }

  /** A word, a whitespace character and a rest split into the word and
      the rest's words. */
  lemma {:induction false} WordsCons(w: string, sp: char, rest: string)
    requires IsWord(w) && IsSpace(sp)
    ensures Words(w + [sp] + rest) == [w] + Words(rest)
  {
    var s := w + [sp] + rest;
    assert s == w + ([sp] + rest);
    assert LStrip(s) == s;
    RunLenWord(w, [sp] + rest);
    assert s[..|w|] == w;
    assert s[|w|..] == [sp] + rest;
    WordsSpacePrefix(sp, rest);
  }

  /** `split()` undoes `' '.join` of words. */
  lemma {:induction false} WordsJoinSpace(ws: seq<string>)
    requires forall k :: 0 <= k < |ws| ==> IsWord(ws[k])
    ensures Words(JoinSpace(ws)) == ws
  {
    if |ws| == 1 {
      WordsSingle(ws[0]);
    } else if |ws| > 1 {
      var rest := ws[1..];
      assert forall k :: 0 <= k < |rest| ==> IsWord(rest[k]) by {
        forall k | 0 <= k < |rest| ensures IsWord(rest[k]) {
          assert rest[k] == ws[k + 1];
        }
      }
      WordsJoinSpace(rest);
      JoinStep(ws);
    }
  }

  lemma {:induction false} JoinStep(ws: seq<string>)
    requires |ws| > 1 && IsWord(ws[0])
    requires Words(JoinSpace(ws[1..])) == ws[1..]
    ensures Words(JoinSpace(ws)) == ws
  {
    WordsCons(ws[0], ' ', JoinSpace(ws[1..]));
    assert ws == [ws[0]] + ws[1..];
  }

  /** One step of `split()` on text that is not all whitespace. */
  lemma WordsUnfold(s: string)
    requires LStrip(s) != []
    ensures var t := LStrip(s); var n := RunLen(t);
      Words(s) == [t[..n]] + Words(t[n..])
  {
  }

  /** The join of words neither starts nor ends with whitespace. */
  lemma {:induction false} JoinSpaceEnds(ws: seq<string>)
    requires forall k :: 0 <= k < |ws| ==> IsWord(ws[k])
    ensures var j := JoinSpace(ws);
      j == [] <==> ws == []
    ensures var j := JoinSpace(ws);
      j != [] ==> !IsSpace(j[0]) && !IsSpace(j[|j| - 1])
  {
    if |ws| > 1 {
      var rest := ws[1..];
      assert forall k :: 0 <= k < |rest| ==> IsWord(rest[k]) by {
        forall k | 0 <= k < |rest| ensures IsWord(rest[k]) {
          assert rest[k] == ws[k + 1];
        }
      }
      JoinSpaceEnds(rest);
      var j := JoinSpace(ws);
      assert j == ws[0] + " " + JoinSpace(rest);
      assert j[0] == ws[0][0];
      assert j[|j| - 1] == JoinSpace(rest)[|JoinSpace(rest)| - 1];
    } else if |ws| == 1 {
      assert IsWord(ws[0]);
    }
  }

  /** Whitespace occurs only as a lone ' ' with text on both sides. */
  predicate Collapsed(r: string)
  {
    forall i :: 0 <= i < |r| && IsSpace(r[i]) ==>
      r[i] == ' ' && 0 < i < |r| - 1 && !IsSpace(r[i - 1]) && !IsSpace(r[i + 1])
  }

  /** Joining words with single spaces leaves no whitespace run longer than
      one space and none at either end. */
  lemma {:induction false} JoinSpaceCollapsed(ws: seq<string>)
    requires forall k :: 0 <= k < |ws| ==> IsWord(ws[k])
    ensures Collapsed(JoinSpace(ws))
  {
    if |ws| == 1 {
      assert IsWord(ws[0]);
    } else if |ws| > 1 {
      var rest := ws[1..];
      assert forall k :: 0 <= k < |rest| ==> IsWord(rest[k]) by {
        forall k | 0 <= k < |rest| ensures IsWord(rest[k]) {
          assert rest[k] == ws[k + 1];
        }
      }
      JoinSpaceCollapsed(rest);
      JoinSpaceEnds(rest);
      JoinPieces(ws[0], JoinSpace(rest));
    }
  }

  /** A word, a space and a collapsed text that starts with a non-space. */
  lemma JoinPieces(w: string, j: string)
    requires IsWord(w) && Collapsed(j) && j != [] && !IsSpace(j[0])
    ensures Collapsed(w + " " + j)
  {
    var r := w + " " + j;
    forall i | 0 <= i < |r|
      ensures IsSpace(r[i]) ==>
        r[i] == ' ' && 0 < i < |r| - 1 && !IsSpace(r[i - 1]) && !IsSpace(r[i + 1])
    {
      if i < |w| {
        assert r[i] == w[i];
      } else if i == |w| {
        assert r[i - 1] == w[|w| - 1];
        assert r[i + 1] == j[0];
      } else {
        var m := i - |w| - 1;
        assert r[i] == j[m];
        if m > 0 && IsSpace(j[m]) {
          assert r[i - 1] == j[m - 1];
          assert r[i + 1] == j[m + 1];
        }
      }
    }
  }
}
