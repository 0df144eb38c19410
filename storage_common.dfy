// What the storage modules share: the parsed document they add a storage
// entry to, and the month abbreviations of the file names.
module StorageCommon {
  import opened PyStr
  import opened PyNum
  import opened OsPath

  /** A JSON value; the parsed data the storage step never looks inside is
      `Other`. */
  datatype Json = Str(s: string) | Obj(fields: map<string, Json>) | Other

  /** The parsed document a save function is handed; the save functions
      add their "storage" entry to the caller's own dictionary. */
  class Document {
    var fields: map<string, Json>

    constructor(fields: map<string, Json>)
      ensures this.fields == fields
    {
      this.fields := fields;
    }

    /** `data["storage"] = entry`. */
    method SetStorage(entry: map<string, Json>)
      modifies this
      ensures fields == old(fields)["storage" := Obj(entry)]
    {
      fields := fields["storage" := Obj(entry)];
    }
  }

  /** `MONTH_ABBR` / `MONTH_SHORT`, January first. */
  const Abbreviations: seq<string> :=
    ["jan", "feb", "mar", "apr", "may", "jun", "jul", "aug", "sep", "oct", "nov", "dec"]

  /** `MONTH_ABBR.get(month, str(month))`. */
  function MonthAbbr(month: int): (m: string)
    ensures 1 <= month <= 12 ==> m == Abbreviations[month - 1]
    ensures !(1 <= month <= 12) ==> m == IntToString(month)
  {
    if 1 <= month <= 12 then Abbreviations[month - 1] else IntToString(month)
  }

  /** `MONTH_SHORT.get(month, str(month).zfill(2))`. */
  function MonthShort(month: int): (m: string)
    ensures 1 <= month <= 12 ==> m == Abbreviations[month - 1]
    ensures !(1 <= month <= 12) ==> m == ZFill2(IntToString(month))
  {
    if 1 <= month <= 12 then Abbreviations[month - 1] else ZFill2(IntToString(month))
  }

  /** The twelve abbreviations are three lower-case letters each, and no
      two are the same. */
  lemma AbbreviationsDistinct(i: nat, j: nat)
    requires i < 12 && j < 12 && i != j
    ensures |Abbreviations[i]| == 3 && 'a' <= Abbreviations[i][0] <= 'z'
    ensures Abbreviations[i] != Abbreviations[j]
  {
  }

  /** Different months are written differently: the abbreviations differ
      from each other, and from every number written out in digits. */
  lemma MonthAbbrInjective(m1: int, m2: int)
    requires m1 != m2
    ensures MonthAbbr(m1) != MonthAbbr(m2)
  {
    if 1 <= m1 <= 12 && 1 <= m2 <= 12 {
      AbbreviationsDistinct(m1 - 1, m2 - 1);
    } else if 1 <= m1 <= 12 {
      AbbreviationsDistinct(m1 - 1, if m1 == 1 then 1 else 0);
      assert MonthAbbr(m2)[0] in IntToString(m2);
    } else if 1 <= m2 <= 12 {
      AbbreviationsDistinct(m2 - 1, if m2 == 1 then 1 else 0);
      assert MonthAbbr(m1)[0] in IntToString(m1);
    } else {
      ParseIntString(m1);
      ParseIntString(m2);
    }
  }

  /** Names that differ only in one field, between a common head and a
      common tail, differ. */
  lemma MiddleDistinct(p: string, a: string, b: string, q: string)
    requires a != b
    ensures p + a + q != p + b + q
  {
    if |a| == |b| {
      assert (p + a + q)[|p|..|p| + |a|] == a;
      assert (p + b + q)[|p|..|p| + |b|] == b;
    }
  }

  /** The level directory of a level: "level_" and the number. */
  function LevelDir(level: int): string
  {
    "level_" + IntToString(level)
  }

  /** A level directory is one plain path part. */
  lemma LevelDirPlain(level: int)
    ensures Plain(LevelDir(level))
  {
    var d := LevelDir(level);
    assert d[|d| - 1] in IntToString(level);
  }

  /** Lower-casing keeps a plain part plain. */
  lemma LowerKeepsPlain(t: string)
    requires Plain(t)
    ensures Plain(Lower(t))
  {
  }
}
