// The two regular-expression rules the storage modules use to make a
// country or region name safe for a file name.
module SafeNames {
  import opened PyStr

  /** `\w` on ASCII: a letter, a digit or '_'. */
  predicate IsWordChar(c: char)
  {
    ('a' <= c <= 'z') || ('A' <= c <= 'Z') || ('0' <= c <= '9') || c == '_'
  }

  /** `re.sub(r'[^\w\s-]', '', s)`: only word characters, whitespace and
      '-' are kept, in order. */
  function KeepChars(s: string): (r: string)
    ensures |r| <= |s|
    ensures forall c :: c in r ==> c in s && (IsWordChar(c) || IsSpace(c) || c == '-')
    ensures (forall c :: c in s ==> IsWordChar(c) || IsSpace(c) || c == '-') ==> r == s
  {
    if s == [] then []
    else
      var rest := KeepChars(s[1..]);
      assert forall c :: c in s[1..] ==> c in s;
      if IsWordChar(s[0]) || IsSpace(s[0]) || s[0] == '-' then [s[0]] + rest else rest
  }

  /** `re.sub(r'[\s]+', '_', s)`: every run of whitespace becomes one '_'. */
  function CollapseSpaces(s: string): (r: string)
    ensures NoSpace(r)
    ensures forall c :: c in r ==> (c in s && !IsSpace(c)) || c == '_'
    ensures NoSpace(s) ==> r == s
    decreases |s|
  {
    if s == [] then []
    else if IsSpace(s[0]) then
      var t := LStrip(s[1..]);
      assert forall c :: c in t ==> c in s;
      NoSpaceConcat("_", CollapseSpaces(t));
      "_" + CollapseSpaces(t)
    else
      var rest := CollapseSpaces(s[1..]);
      assert forall c :: c in s[1..] ==> c in s;
      NoSpaceConcat([s[0]], rest);
      assert NoSpace(s) ==> NoSpace(s[1..]) && [s[0]] + s[1..] == s;
      [s[0]] + rest
  }

  lemma NoSpaceConcat(a: string, b: string)
    requires NoSpace(a) && NoSpace(b)
    ensures NoSpace(a + b)
  {
    forall i | 0 <= i < |a + b| ensures !IsSpace((a + b)[i]) {
      if i >= |a| { assert (a + b)[i] == b[i - |a|]; }
    }
  }

  /** `sanitize_filename`: drop other characters, collapse whitespace runs
      to '_', upper-case. */
  function SanitizeFilename(name: string): (r: string)
    ensures NoSpace(r)
    ensures forall c :: c in r ==> IsWordChar(c) || c == '-'
  {
    var k := KeepChars(name);
    var c := CollapseSpaces(k);
    assert forall x :: x in c ==> IsWordChar(x) || x == '-';
    var u := Upper(c);
    assert forall i :: 0 <= i < |u| ==> u[i] == UpperChar(c[i]) && c[i] in c;
    u
  }

  /** A safe name is kept as it is by the first two steps. */
  lemma SafeKeptByFirstSteps(s: string)
    requires forall c :: c in s ==> IsWordChar(c) || c == '-'
    ensures CollapseSpaces(KeepChars(s)) == s
  {
    forall i | 0 <= i < |s| ensures !IsSpace(s[i]) {
      assert s[i] in s;
    }
  }

  /** Sanitizing a sanitized name changes nothing. */
  lemma SanitizeIdempotent(name: string)
    ensures SanitizeFilename(SanitizeFilename(name)) == SanitizeFilename(name)
  {
    var r := SanitizeFilename(name);
    SafeKeptByFirstSteps(r);
    UpperIdempotent(CollapseSpaces(KeepChars(name)));
  }

  /** `re.sub(r'[^\w]', '_', s)`: every other character becomes '_'. */
  function WordOnly(s: string): (r: string)
    ensures |r| == |s|
    ensures forall i :: 0 <= i < |s| ==> r[i] == (if IsWordChar(s[i]) then s[i] else '_')
  {
    seq(|s|, i requires 0 <= i < |s| => if IsWordChar(s[i]) then s[i] else '_')
  }

  /** The lib storage rule: `re.sub(r'[^\w]', '_', name).upper()`. */
  function WordOnlyUpper(name: string): (r: string)
    ensures |r| == |name|
    ensures forall i :: 0 <= i < |r| ==> IsWordChar(r[i])
    ensures forall i :: 0 <= i < |r| ==> IsWordChar(name[i]) ==> r[i] == UpperChar(name[i])
  {
    Upper(WordOnly(name))
  }

  /** A word-only name has no whitespace, and applying the rule again
      changes nothing. */
  lemma WordOnlyUpperIdempotent(name: string)
    ensures NoSpace(WordOnlyUpper(name))
    ensures WordOnlyUpper(WordOnlyUpper(name)) == WordOnlyUpper(name)
  {
    var r := WordOnlyUpper(name);
    assert WordOnly(r) == r;
    UpperIdempotent(WordOnly(name));
  }
}
