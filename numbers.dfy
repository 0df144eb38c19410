// The placeholder-aware number readers of the table parsers. The parsers
// fall into five families, which differ in the placeholder texts they
// check, in whether they strip first, and in which separator characters
// they delete before calling `float()`.
module Numbers {
  import opened Wrappers
  import opened PyStr
  import opened PyNum

  const Rupee: char := '\U{20B9}'
  const Nbsp: char := '\U{00A0}'

  /** The placeholder lists compared against the raw text. */
  const DashNaSlash: seq<string> := ["-", "NA", "N/A"]
  const DashNa: seq<string> := ["-", "NA"]
  /** The placeholder lists compared against the cleaned text. */
  const SymbolPlaceholders: seq<string> := ["-", "NA", "N/A", "", "null", "Null", "No Result Found"]
  const SymbolPlaceholdersShort: seq<string> := ["-", "NA", "N/A", "", "null", "Null"]

  /** Trim, remove commas and spaces (the all-countries `_parse_numeric`). */
  function ParseNumericTrimmed(text: string): Option<real>
  {
    if text == "" || Strip(text) in ["-", "N/A", ""] then None
    else
      var cleaned := Remove(Remove(Strip(text), ','), ' ');
      if cleaned == "" then None else ParseFloat(cleaned)
  }

  /** Exact placeholders, then commas and spaces removed (the src
      commodity parsers' `_parse_number`). */
  function ParseNumberSpaceless(text: string, placeholders: seq<string>): Option<real>
  {
    if text == "" || text in placeholders then None
    else ParseFloat(Strip(Remove(Remove(text, ','), ' ')))
  }

  /** Exact placeholders, then only commas removed (the lib parsers'
      `_parse_number`). */
  function ParseNumberCommaless(text: string, placeholders: seq<string>): Option<real>
  {
    if text == "" || text in placeholders then None
    else ParseFloat(Strip(Remove(text, ',')))
  }

  /** Placeholders after stripping, then only commas removed (the principal
      commodities parser). */
  function ParseNumberStripped(text: string): Option<real>
  {
    if text == "" || Strip(text) in ["-", "NA", ""] then None
    else ParseFloat(Strip(Remove(text, ',')))
  }

  /** `value.replace(',', '').replace('%', '').replace('$', '').replace('₹', '').strip()`. */
  function WithoutSymbols(value: string): string
  {
    Strip(Remove(Remove(Remove(Remove(value, ','), '%'), '$'), Rupee))
  }

  /** Symbols removed, optionally non-breaking spaces turned into spaces,
      then placeholders (the eidb `parse_numeric`). */
  function ParseNumericSymbols(value: string, placeholders: seq<string>, nbsp: bool): Option<real>
  {
    if value == "" then None
    else
      var c := WithoutSymbols(value);
      var cleaned := if nbsp then Strip(ReplaceChar(c, Nbsp, " ")) else c;
      if cleaned in placeholders then None else ParseFloat(cleaned)
  }

  /** A placeholder text is already stripped, holds no comma, and is not
      a number to `float()`. */
  lemma {:induction false} Rejected(p: string)
    requires p in SymbolPlaceholders
    ensures Strip(p) == p && ',' !in p && ParseFloat(p).None?
  {
    PlaceholderCases(p);
    if p == "-" {
      StripTrimmed(p);
      assert SplitSign(p).1 == "";
    } else if p != "" {
      WordPlaceholderRejected(p);
    }
  }

  lemma {:induction false} PlaceholderCases(p: string)
    requires p in SymbolPlaceholders
    ensures p == "-" || p == "NA" || p == "N/A" || p == "" || p == "null" || p == "Null" || p == "No Result Found"
  {
  }

  /** Every entry of either symbol-reader list reads as None in every
      symbol reader: "No Result Found", which only the seven-entry list
      names, is also None for the reader with the six-entry list, because
      `float()` rejects it. */
  lemma {:induction false} PlaceholdersReadAsNone(p: string, nbsp: bool)
    requires p in SymbolPlaceholders
    ensures ParseNumericSymbols(p, SymbolPlaceholders, nbsp).None?
    ensures ParseNumericSymbols(p, SymbolPlaceholdersShort, nbsp).None?
  {
    PlaceholderClean(p, nbsp);
    Rejected(p);
    SymbolsIsFloat(p, SymbolPlaceholders, nbsp);
    SymbolsIsFloat(p, SymbolPlaceholdersShort, nbsp);
  }

  /** A placeholder holds none of the characters the symbol readers
      delete or replace, so cleaning leaves it as it is. */
  lemma {:induction false} PlaceholderClean(p: string, nbsp: bool)
    requires p in SymbolPlaceholders
    ensures SymbolClean(p, nbsp) == p
  {
    PlaceholderCases(p);
    Rejected(p);
    assert forall c :: c in p ==> c != ',' && c != '%' && c != '$' && c != Rupee && c != Nbsp by {
      PlaceholderLetters(p);
    }
    RemoveAbsent(p, ',');
    RemoveAbsent(p, '%');
    RemoveAbsent(p, '$');
    RemoveAbsent(p, Rupee);
    ReplaceCharAbsent(p, Nbsp, " ");
  }

  /** The placeholders are made of letters, '-', '/' and spaces. */
  lemma {:induction false} PlaceholderLetters(p: string)
    requires p == "-" || p == "NA" || p == "N/A" || p == "" || p == "null" || p == "Null" || p == "No Result Found"
    ensures forall c :: c in p ==> c == '-' || c == '/' || c == ' ' || 'A' <= c <= 'Z' || 'a' <= c <= 'z'
  {
  }

  lemma {:induction false} WordPlaceholderRejected(p: string)
    requires p == "NA" || p == "N/A" || p == "null" || p == "Null" || p == "No Result Found"
    ensures Strip(p) == p && ',' !in p && ParseFloat(p).None?
  {
    WordPlaceholderShape(p);
    StripTrimmed(p);
    LetterStartRejected(p);
  }

  lemma {:induction false} WordPlaceholderShape(p: string)
    requires p == "NA" || p == "N/A" || p == "null" || p == "Null" || p == "No Result Found"
    ensures p != [] && (p[0] == 'N' || p[0] == 'n') && !IsSpace(p[|p| - 1]) && ',' !in p
  {
  }

  /** Text that starts with something other than a sign, a digit or a
      point is not a number. */
  lemma {:induction false} LetterStartRejected(p: string)
    requires p != [] && Strip(p) == p
    requires p[0] != '+' && p[0] != '-' && p[0] != '.' && !IsAsciiDigit(p[0])
    ensures ParseFloat(p).None?
  {
    assert SplitSign(p).1 == p;
    if '.' in p {
      var i := IndexOf(p, '.');
      assert i > 0 && p[..i][0] == p[0];
    }
  }

  /** The placeholder-free reading: `float()` of the cleaned text. */
  function SymbolClean(value: string, nbsp: bool): string
  {
    var c := WithoutSymbols(value);
    if nbsp then Strip(ReplaceChar(c, Nbsp, " ")) else c
  }

  // ---- the placeholder checks only short-cut what float() rejects ----

  lemma {:induction false} TrimmedIsFloat(text: string)
    ensures ParseNumericTrimmed(text) == ParseFloat(Remove(Remove(Strip(text), ','), ' '))
  {
    var t := Strip(text);
    if t in ["-", "N/A", ""] {
      assert t == "-" || t == "N/A" || t == "";
      ShortPlaceholder(t);
      RemoveAbsent(t, ',');
      RemoveAbsent(t, ' ');
    }
  }

  /** The placeholders of the raw-text lists hold neither a comma nor a
      space, and `float()` rejects them. */
  lemma {:induction false} ShortPlaceholder(t: string)
    requires t == "-" || t == "NA" || t == "N/A" || t == ""
    ensures ',' !in t && ' ' !in t && Strip(t) == t && ParseFloat(t).None?
  {
    assert t in SymbolPlaceholders;
    Rejected(t);
  }

  lemma {:induction false} SpacelessIsFloat(text: string)
    ensures ParseNumberSpaceless(text, DashNaSlash) == ParseFloat(Strip(Remove(Remove(text, ','), ' ')))
  {
    if text in DashNaSlash {
      assert text == "-" || text == "NA" || text == "N/A";
      ShortPlaceholder(text);
      RemoveAbsent(text, ',');
      RemoveAbsent(text, ' ');
    }
  }

  lemma {:induction false} CommalessIsFloat(text: string, placeholders: seq<string>)
    requires placeholders == DashNaSlash || placeholders == DashNa
    ensures ParseNumberCommaless(text, placeholders) == ParseFloat(Strip(Remove(text, ',')))
  {
    if text in placeholders {
      Rejected(text);
      RemoveAbsent(text, ',');
    }
  }

  lemma {:induction false} StrippedIsFloat(text: string)
    ensures ParseNumberStripped(text) == ParseFloat(Strip(Remove(text, ',')))
  {
    var t := Strip(text);
    if text != "" && t in ["-", "NA", ""] {
      Rejected(t);
      if ',' in text {
        StripKeeps(text, ',');
      }
      RemoveAbsent(text, ',');
    }
  }

  lemma {:induction false} SymbolsIsFloat(value: string, placeholders: seq<string>, nbsp: bool)
    requires placeholders == SymbolPlaceholders || placeholders == SymbolPlaceholdersShort
    ensures ParseNumericSymbols(value, placeholders, nbsp) == ParseFloat(SymbolClean(value, nbsp))
  {
    var cleaned := SymbolClean(value, nbsp);
    if cleaned in placeholders {
      Rejected(cleaned);
    }
    if value == "" {
      assert SymbolClean(value, nbsp) == "" by {
        assert WithoutSymbols(value) == "";
        if nbsp { assert ReplaceChar("", Nbsp, " ") == ""; }
      }
    }
  }

  // ---- every family reads `str(i)` back as i ----

  lemma {:induction false} IntTextClean(i: int)
    ensures var s := IntToString(i);
      && ',' !in s && ' ' !in s && '%' !in s && '$' !in s && Rupee !in s && Nbsp !in s
      && Strip(s) == s && s !in SymbolPlaceholders && s !in DashNaSlash && s !in DashNa
  {
    var s := IntToString(i);
    StripNoSpace(s);
    ParseFloatIntString(i);
    if s in SymbolPlaceholders {
      Rejected(s);
    }
  }

  lemma {:induction false} IntRoundTrip(i: int)
    ensures ParseNumericTrimmed(IntToString(i)) == Some(i as real)
    ensures ParseNumberSpaceless(IntToString(i), DashNaSlash) == Some(i as real)
    ensures ParseNumberCommaless(IntToString(i), DashNaSlash) == Some(i as real)
    ensures ParseNumberCommaless(IntToString(i), DashNa) == Some(i as real)
    ensures ParseNumberStripped(IntToString(i)) == Some(i as real)
    ensures ParseNumericSymbols(IntToString(i), SymbolPlaceholders, true) == Some(i as real)
    ensures ParseNumericSymbols(IntToString(i), SymbolPlaceholdersShort, false) == Some(i as real)
  {
    var s := IntToString(i);
    IntTextClean(i);
    ParseFloatIntString(i);
    RemoveAbsent(s, ',');
    RemoveAbsent(s, ' ');
    RemoveAbsent(s, '%');
    RemoveAbsent(s, '$');
    RemoveAbsent(s, Rupee);
    ReplaceCharAbsent(s, Nbsp, " ");
    TrimmedIsFloat(s);
    SpacelessIsFloat(s);
    CommalessIsFloat(s, DashNaSlash);
    CommalessIsFloat(s, DashNa);
    StrippedIsFloat(s);
    SymbolsIsFloat(s, SymbolPlaceholders, true);
    SymbolsIsFloat(s, SymbolPlaceholdersShort, false);
  }

  /** Thousands separators written with spaces: two digit groups with a
      space between are read as one number by the readers that delete
      spaces, and rejected by those that delete only commas. */
  lemma {:induction false} InnerSpaces(a: string, b: string)
    requires IsDigits(a) && IsDigits(b)
    ensures ParseFloat(a + b).Some?
    ensures ParseNumberSpaceless(a + " " + b, DashNaSlash) == ParseFloat(a + b)
    ensures ParseNumericTrimmed(a + " " + b) == ParseFloat(a + b)
    ensures ParseNumberCommaless(a + " " + b, DashNaSlash) == None
    ensures ParseNumberCommaless(a + " " + b, DashNa) == None
    ensures ParseNumberStripped(a + " " + b) == None
  {
    var t := a + " " + b;
    SpacedText(a, b);
    SpacedDigits(a, b);
    RemoveAbsent(t, ',');
    assert Remove(Remove(t, ','), ' ') == a + b;
    SpacelessIsFloat(t);
    TrimmedIsFloat(t);
    CommalessIsFloat(t, DashNaSlash);
    CommalessIsFloat(t, DashNa);
    StrippedIsFloat(t);
  }

  /** Two digit groups joined by a space: stripped already, with no comma,
      and not a number to `float()`. */
  lemma {:induction false} SpacedText(a: string, b: string)
    requires IsDigits(a) && IsDigits(b)
    ensures var t := a + " " + b;
      ' ' in t && ',' !in t && Strip(t) == t && ParseFloat(t).None?
  {
    var t := a + " " + b;
    assert t[|a|] == ' ';
    assert t[0] == a[0] && t[|t| - 1] == b[|b| - 1];
    StripTrimmed(t);
    assert SplitSign(t).1 == t;
    assert !IsDigits(t);
    assert '.' !in t by {
      forall i | 0 <= i < |t| ensures t[i] != '.' {
        if i < |a| { assert t[i] == a[i]; }
        else if i > |a| { assert t[i] == b[i - |a| - 1]; }
      }
    }
    assert ',' !in t by {
      forall i | 0 <= i < |t| ensures t[i] != ',' {
        if i < |a| { assert t[i] == a[i]; }
        else if i > |a| { assert t[i] == b[i - |a| - 1]; }
      }
    }
  }

  /** Deleting the space leaves the digits of both groups, which `float()`
      reads. */
  lemma {:induction false} SpacedDigits(a: string, b: string)
    requires IsDigits(a) && IsDigits(b)
    ensures Remove(a + " " + b, ' ') == a + b
    ensures Strip(a + b) == a + b && ParseFloat(a + b).Some?
  {
    var ab := a + b;
    assert IsDigits(ab) by {
      forall i | 0 <= i < |ab| ensures IsAsciiDigit(ab[i]) {
        if i < |a| { assert ab[i] == a[i]; } else { assert ab[i] == b[i - |a|]; }
      }
    }
    RemoveSpaceBetween(a, b);
    StripNoSpace(ab);
    ParseIntDigits(ab);
    ParseIntThenFloat(ab);
  }

  lemma {:induction false} RemoveSpaceBetween(a: string, b: string)
    requires NoSpace(a) && NoSpace(b)
    ensures Remove(a + " " + b, ' ') == a + b
  {
    assert ' ' !in a && ' ' !in b;
    RemoveBetween(a, ' ', b);
  }

  /** Deleting the one character that separates two pieces free of it. */
  lemma {:induction false} RemoveBetween(a: string, c: char, b: string)
    requires c !in a && c !in b
    ensures Remove(a + [c] + b, c) == a + b
  {
    var x := a + [c];
    RemoveConcat(x, b, c);
    RemoveConcat(a, [c], c);
    RemoveOnly(c);
    RemoveAbsent(a, c);
    RemoveAbsent(b, c);
    assert Remove(x, c) == a;
  }

  lemma {:induction false} RemoveOnly(c: char)
    ensures Remove([c], c) == []
  {
    assert [c][1..] == [];
  }
}
