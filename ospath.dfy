// `os.path.join` on POSIX paths, and `pathlib`'s `/` read the same way.
module OsPath {
  /** `os.path.join(a, b)`: an absolute `b` replaces `a`; otherwise a '/'
      is added unless `a` is empty or already ends in one. */
  function Join(a: string, b: string): (p: string)
    ensures b != [] && b[0] == '/' ==> p == b
    ensures (b == [] || b[0] != '/') ==>
      && (a == [] ==> p == b)
      && (a != [] && a[|a| - 1] == '/' ==> p == a + b)
      && (a != [] && a[|a| - 1] != '/' ==> p == a + "/" + b)
  {
    if b != [] && b[0] == '/' then b
    else if a == [] || a[|a| - 1] == '/' then a + b
    else a + "/" + b
  }

  /** The joined path always ends with the last part: a file is stored
      under its own name. */
  lemma JoinEndsWith(a: string, b: string)
    ensures |b| <= |Join(a, b)| && Join(a, b)[|Join(a, b)| - |b|..] == b
  {
    var p := Join(a, b);
    if !(b != [] && b[0] == '/') && a != [] {
      if a[|a| - 1] == '/' {
        assert p == a + b;
      } else {
        assert p == (a + "/") + b;
      }
    }
  }

  /** A plain part: not empty, not absolute, no trailing '/'. */
  predicate Plain(s: string)
  {
    s != [] && s[0] != '/' && s[|s| - 1] != '/'
  }

  /** One plain part below a path without a trailing '/'. */
  lemma JoinPlain(p: string, x: string)
    requires p != [] && p[|p| - 1] != '/' && Plain(x)
    ensures Join(p, x) == p + "/" + x
    ensures Join(p, x) != [] && Join(p, x)[|Join(p, x)| - 1] != '/'
  {
    var r := p + "/" + x;
    assert r[|r| - 1] == x[|x| - 1];
  }

  /** Three plain parts below a base without a trailing '/'. */
  lemma JoinThreePlain(base: string, a: string, b: string, c: string)
    requires base != [] && base[|base| - 1] != '/'
    requires Plain(a) && Plain(b) && Plain(c)
    ensures Join(Join(Join(base, a), b), c) == base + "/" + a + "/" + b + "/" + c
  {
    JoinPlain(base, a);
    JoinPlain(base + "/" + a, b);
    JoinPlain(base + "/" + a + "/" + b, c);
  }

  /** Two different relative names in one directory are two different
      paths. */
  lemma JoinDistinct(d: string, f1: string, f2: string)
    requires f1 != [] && f1[0] != '/' && f2 != [] && f2[0] != '/'
    requires f1 != f2
    ensures Join(d, f1) != Join(d, f2)
  {
    var p1, p2 := Join(d, f1), Join(d, f2);
    var h := |p1| - |f1|;
    assert p1 == p1[..h] + f1;
    assert p2 == p1[..h] + f2;
    if |f1| == |f2| {
      assert p1[h..] == f1 && p2[h..] == f2;
    }
  }
}
