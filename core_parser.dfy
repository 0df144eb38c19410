// The original commodity page parser: whitespace clean-up, the two number
// readers, the country rows of the `example1` table body and the totals
// rows of its footer.
module CoreParser {
  import opened Wrappers
  import opened PyStr
  import opened PyNum
  import opened Html
  import opened Scan
  import opened TradeRecords

  // ---- text and numbers ----

  /** `" ".join(text.split()).strip()`: the words of the text, one space
      apart. */
  function CleanText(text: string): (r: string)
    ensures Words(r) == Words(text)
    ensures r == [] <==> Words(text) == []
    ensures Collapsed(r)
  {
    var ws := Words(text);
    WordsAreWords(text);
    JoinSpaceEnds(ws);
    JoinSpaceCollapsed(ws);
    WordsJoinSpace(ws);
    StripTrimmed(JoinSpace(ws));
    Strip(JoinSpace(ws))
  }

  /** Cleaning twice is cleaning once. */
  lemma CleanIdempotent(text: string)
    ensures CleanText(CleanText(text)) == CleanText(text)
  {
  }

  /** Text without whitespace is already clean. */
  lemma CleanWord(w: string)
    requires IsWord(w)
    ensures CleanText(w) == w
  {
    WordsSingle(w);
    CleanOfWords(w, [w]);
    assert JoinSpace([w]) == w;
    StripNoSpace(w);
  }

  lemma CleanOfWords(text: string, ws: seq<string>)
    requires Words(text) == ws
    ensures CleanText(text) == Strip(JoinSpace(ws))
  {
  }

  /** `_to_float`: None for blank text, otherwise `float()` of the cleaned
      text with its commas removed, None when that fails. */
  function ToFloat(text: string): (r: Option<real>)
    ensures Words(text) == [] ==> r.None?
  {
    var t := CleanText(text);
    if t == "" then None else ParseFloat(Remove(t, ','))
  }

  /** `_to_int`: the same as `_to_float` with `int()`. */
  function ToInt(text: string): (r: Option<int>)
    ensures Words(text) == [] ==> r.None?
  {
    var t := CleanText(text);
    if t == "" then None else ParseInt(Remove(t, ','))
  }

  /** What `_to_int` accepts `_to_float` accepts, with the same value. */
  lemma ToIntThenFloat(text: string)
    requires ToInt(text).Some?
    ensures ToFloat(text) == Some(ToInt(text).value as real)
  {
    ParseIntThenFloat(Remove(CleanText(text), ','));
  }

  /** `_to_int` rejects a decimal point: "1.5" gives None. */
  lemma {:induction false} ToIntRejectsPoint(text: string)
    requires '.' in CleanText(text)
    ensures ToInt(text).None?
  {
    var t := Remove(CleanText(text), ',');
    RemoveKeeps(CleanText(text), ',', '.');
    NoDigitsWithPoint(t);
  }

  lemma {:induction false} NoDigitsWithPoint(t: string)
    requires '.' in t
    ensures ParseInt(t).None?
  {
    StripKeeps(t, '.');
    var s := Strip(t);
    var body := SplitSign(s).1;
    var i :| 0 <= i < |s| && s[i] == '.';
    if |s| > 0 && (s[0] == '+' || s[0] == '-') {
      assert body[i - 1] == '.';
    } else {
      assert body[i] == '.';
    }
  }

  /** Both readers give back the number an integer prints as. */
  lemma {:induction false} ReadersIntString(i: int)
    ensures ToInt(IntToString(i)) == Some(i)
    ensures ToFloat(IntToString(i)) == Some(i as real)
  {
    var s := IntToString(i);
    assert IsWord(s);
    CleanWord(s);
    RemoveAbsent(s, ',');
    ParseIntString(i);
    ParseFloatIntString(i);
  }

  /** Thousands separators are ignored: digits with a comma between them
      read as the digits alone. */
  lemma {:induction false} ReadersSkipComma(a: string, b: string)
    requires IsDigits(a) && IsDigits(b)
    ensures ToInt(a + [','] + b) == Some(DigitsValue(a + b))
    ensures ToFloat(a + [','] + b) == Some(DigitsValue(a + b) as real)
  {
    var t := a + [','] + b;
    assert IsWord(t) by {
      forall i | 0 <= i < |t| ensures !IsSpace(t[i]) {
        if i < |a| { assert t[i] == a[i]; }
        else if i > |a| { assert t[i] == b[i - |a| - 1]; }
      }
    }
    CleanWord(t);
    assert ',' !in a && ',' !in b;
    RemoveCommaBetween(a, b);
    var ab := a + b;
    assert IsDigits(ab) by {
      forall i | 0 <= i < |ab| ensures IsAsciiDigit(ab[i]) {
        if i < |a| { assert ab[i] == a[i]; } else { assert ab[i] == b[i - |a|]; }
      }
    }
    ParseIntDigits(ab);
    ParseIntThenFloat(ab);
  }

  lemma {:induction false} RemoveCommaBetween(a: string, b: string)
    requires ',' !in a && ',' !in b
    ensures Remove(a + [','] + b, ',') == a + b
  {
    var x := a + [','];
    RemoveConcat(x, b, ',');
    RemoveConcat(a, [','], ',');
    assert [','][1..] == [];
    assert Remove([','], ',') == [];
    RemoveAbsent(a, ',');
    RemoveAbsent(b, ',');
    assert Remove(x, ',') == a;
  }

  // ---- country rows of the table body ----

  /** `values_quantity`: whole quantities, growth as a percentage. */
  datatype Quantities = Quantities(y2023_2024: Option<int>, y2024_2025: Option<int>, pctGrowth: Option<real>)

  datatype Record = Record(sno: int, country: string, usd: Metrics, qty: Quantities)

  /** The record of a body row with the texts `cells` of its `td`s: at
      least eight cells and an integer serial, or the row is skipped. */
  function BodyRecord(cells: seq<string>): (r: Option<Record>)
    ensures r.Some? <==> |cells| >= 8 && ParseInt(CleanText(cells[0])).Some?
    ensures r.Some? ==> r.value.sno == ParseInt(CleanText(cells[0])).value
                        && r.value.country == CleanText(cells[1])
  {
    if |cells| < 8 then None
    else
      match ParseInt(CleanText(cells[0]))
      case None => None
      case Some(sno) =>
        Some(Record(sno, CleanText(cells[1]),
                    Metrics(ToFloat(cells[2]), ToFloat(cells[3]), ToFloat(cells[4])),
                    Quantities(ToInt(cells[5]), ToInt(cells[6]), ToFloat(cells[7]))))
  }

  function BodyRecordOf(row: Row): Option<Record>
  {
    BodyRecord(TdRaws(row))
  }

  /** The countries of the body rows, in table order. */
  function BodyRows(rows: seq<Row>): (rs: seq<Record>)
    ensures |rs| <= |rows|
  {
    FilterMap(rows, BodyRecordOf)
  }

  /** The body loop. */
  method ParseBody(rows: seq<Row>) returns (countries: seq<Record>)
    ensures countries == BodyRows(rows)
  {
    countries := KeepRows(rows, BodyRecordOf);
  }

  /** A row with eight cells and an integer serial is among the countries. */
  lemma BodyRowsComplete(rows: seq<Row>, i: nat)
    requires i < |rows| && |TdRaws(rows[i])| >= 8
    requires ParseInt(CleanText(TdRaws(rows[i])[0])).Some?
    ensures BodyRecordOf(rows[i]).value in BodyRows(rows)
  {
    FilterMapComplete(rows, BodyRecordOf, i);
  }

  /** Every country comes from a row with eight cells and an integer
      serial, and carries that row's serial and name. */
  lemma BodyRowsSound(rows: seq<Row>, r: Record)
    requires r in BodyRows(rows)
    ensures exists i :: 0 <= i < |rows| && |TdRaws(rows[i])| >= 8
              && ParseInt(CleanText(TdRaws(rows[i])[0])) == Some(r.sno)
              && r.country == CleanText(TdRaws(rows[i])[1])
  {
    FilterMapSound(rows, BodyRecordOf, r);
  }

  /** Countries keep the order of the body rows. */
  lemma BodyRowsAppend(a: seq<Row>, b: seq<Row>)
    ensures BodyRows(a + b) == BodyRows(a) + BodyRows(b)
  {
    FilterMapAppend(a, b, BodyRecordOf);
  }

  // ---- totals rows of the table footer ----

  datatype FooterKind = TotalRow | IndiaRow | ShareRow | OtherRow

  /** `pct_share`: the two fiscal-year shares. */
  datatype Share = Share(y2023_2024: Option<real>, y2024_2025: Option<real>)

  /** The `totals` dictionary: each slot None until a footer row fills it. */
  datatype Totals = Totals(total: Option<Metrics>, indiaTotal: Option<Metrics>, pctShare: Option<Share>)

  /** A footer row: its label (the first two cells joined and cleaned,
      empty for a row of fewer than two cells), whether the label contains
      "Total", "India's" and "Share", and each `td` text read by
      `_to_float` (which never raises, so reading all of them up front
      changes nothing; the number of cells is `|numbers|`). */
  datatype FooterLine = FooterLine(
    heading: string, hasTotal: bool, hasIndia: bool, hasShare: bool, numbers: seq<Option<real>>)

  function LineOf(cells: seq<string>): (l: FooterLine)
    ensures |l.numbers| == |cells|
    ensures forall k :: 0 <= k < |cells| ==> l.numbers[k] == ToFloat(cells[k])
    ensures l.hasTotal == Contains(l.heading, "Total")
    ensures l.hasIndia == Contains(l.heading, "India's")
    ensures l.hasShare == Contains(l.heading, "Share")
  {
    var heading := FooterHeading(cells);
    FooterLine(heading, Find(heading, "Total"), Find(heading, "India's"), Find(heading, "Share"),
               seq(|cells|, k requires 0 <= k < |cells| => ToFloat(cells[k])))
  }

  /** The first two cells joined and cleaned, or nothing for a shorter row. */
  function FooterHeading(cells: seq<string>): string
  {
    if |cells| >= 2 then CleanText(cells[0] + cells[1]) else ""
  }

  /** "Total" without "India's" is the overall total, "India's" is India's
      total, and "Share" is the share row; rows of fewer than two cells are
      ignored. */
  function KindOf(l: FooterLine): (k: FooterKind)
    ensures k != OtherRow ==> |l.numbers| >= 2
  {
    if |l.numbers| < 2 then OtherRow
    else if l.hasTotal && !l.hasIndia then TotalRow
    else if l.hasIndia then IndiaRow
    else if l.hasShare then ShareRow
    else OtherRow
  }

  /** Cells each kind of row reads: up to index 4, 4 and 3. */
  function CellsNeeded(k: FooterKind): nat
  {
    match k
    case TotalRow => 5
    case IndiaRow => 5
    case ShareRow => 4
    case OtherRow => 0
  }

  /** A labelled row too short for the cells it reads: `IndexError`. */
  predicate Broken(l: FooterLine)
  {
    |l.numbers| < CellsNeeded(KindOf(l))
  }

  /** `values_usd` of a total row: cells 2 to 4. */
  function UsdOf(l: FooterLine): Metrics
    requires |l.numbers| >= 5
  {
    Metrics(l.numbers[2], l.numbers[3], l.numbers[4])
  }

  /** `pct_share` of a share row: cells 2 and 3. */
  function ShareValues(l: FooterLine): Share
    requires |l.numbers| >= 4
  {
    Share(l.numbers[2], l.numbers[3])
  }

  function TotalOf(l: FooterLine): Option<Metrics>
  {
    if KindOf(l) == TotalRow && |l.numbers| >= 5 then Some(UsdOf(l)) else None
  }

  function IndiaOf(l: FooterLine): Option<Metrics>
  {
    if KindOf(l) == IndiaRow && |l.numbers| >= 5 then Some(UsdOf(l)) else None
  }

  function ShareOf(l: FooterLine): Option<Share>
  {
    if KindOf(l) == ShareRow && |l.numbers| >= 4 then Some(ShareValues(l)) else None
  }

  /** The footer loop's outcome: an `IndexError` if any labelled row is too
      short, otherwise each slot holds the last row of its kind. */
  function Footer(lines: seq<FooterLine>): Result<Totals>
  {
    if exists i :: 0 <= i < |lines| && Broken(lines[i]) then Failure(IndexError)
    else Success(Slots(lines))
  }

  /** Each slot holds the last row of its kind. */
  function Slots(lines: seq<FooterLine>): Totals
  {
    Totals(LastMatch(lines, TotalOf), LastMatch(lines, IndiaOf), LastMatch(lines, ShareOf))
  }

  /** One row that is long enough overwrites the slot of its kind. */
  function Absorb(t: Totals, l: FooterLine): Totals
    requires !Broken(l)
  {
    match KindOf(l)
    case TotalRow => t.(total := Some(UsdOf(l)))
    case IndiaRow => t.(indiaTotal := Some(UsdOf(l)))
    case ShareRow => t.(pctShare := Some(ShareValues(l)))
    case OtherRow => t
  }

  /** The footer loop: the first row too short for its kind raises
      `IndexError`, otherwise each row overwrites the slot of its kind. */
  method ParseFooter(lines: seq<FooterLine>) returns (r: Result<Totals>)
    ensures r == Footer(lines)
  {
    var i, totals := ScanFooter(lines);
    if i < |lines| {
      r := Failure(IndexError);
    } else {
      assert lines[..i] == lines;
      r := Success(totals);
    }
  }

  /** The loop proper: `i` stops at the first broken row, and `totals` are
      the slots of the rows before it. */
  method ScanFooter(lines: seq<FooterLine>) returns (i: nat, totals: Totals)
    ensures i <= |lines| && totals == Slots(lines[..i])
    ensures forall j :: 0 <= j < i ==> !Broken(lines[j])
    ensures i < |lines| ==> Broken(lines[i])
  {
    totals := Totals(None, None, None);
    i := 0;
    while i < |lines|
      invariant 0 <= i <= |lines|
      invariant forall j :: 0 <= j < i ==> !Broken(lines[j])
      invariant totals == Slots(lines[..i])
    {
      var line := lines[i];
      if Broken(line) {
        return;
      }
      FooterStep(lines, i);
      totals := StoreFooterRow(totals, line);
      i := i + 1;
    }
  }

  /** The per-row update of the totals dictionary. */
  method StoreFooterRow(totals: Totals, line: FooterLine) returns (t: Totals)
    requires !Broken(line)
    ensures t == Absorb(totals, line)
  {
    t := totals;
    match KindOf(line) {
      case TotalRow => t := t.(total := Some(UsdOf(line)));
      case IndiaRow => t := t.(indiaTotal := Some(UsdOf(line)));
      case ShareRow => t := t.(pctShare := Some(ShareValues(line)));
      case OtherRow =>
    }
  }

  /** One footer row that is long enough overwrites the slot of its kind
      and no other. */
  lemma FooterStep(lines: seq<FooterLine>, i: nat)
    requires i < |lines| && !Broken(lines[i])
    ensures Slots(lines[..i + 1]) == Absorb(Slots(lines[..i]), lines[i])
  {
    LastMatchStep(lines, i, TotalOf);
    LastMatchStep(lines, i, IndiaOf);
    LastMatchStep(lines, i, ShareOf);
  }

  /** A row too short for its kind fails the whole parse. */
  lemma FooterFails(lines: seq<FooterLine>, i: nat)
    requires i < |lines| && Broken(lines[i])
    ensures Footer(lines) == Failure(IndexError)
  {
  }

  /** A slot is filled exactly when some row of its kind is present. */
  lemma FooterSlotsFilled(lines: seq<FooterLine>)
    requires Footer(lines).Success?
    ensures Footer(lines).value.total.Some? <==> exists i :: 0 <= i < |lines| && KindOf(lines[i]) == TotalRow
    ensures Footer(lines).value.indiaTotal.Some? <==> exists i :: 0 <= i < |lines| && KindOf(lines[i]) == IndiaRow
    ensures Footer(lines).value.pctShare.Some? <==> exists i :: 0 <= i < |lines| && KindOf(lines[i]) == ShareRow
  {
  }

  /** The last total row wins: a later total row overwrites an earlier one. */
  lemma {:induction false} FooterLastWins(lines: seq<FooterLine>, i: nat)
    requires Footer(lines).Success?
    requires i < |lines| && KindOf(lines[i]) == TotalRow
    requires forall j :: i < j < |lines| ==> KindOf(lines[j]) != TotalRow
    ensures Footer(lines).value.total == Some(UsdOf(lines[i]))
  {
    assert !Broken(lines[i]);
    assert TotalOf(lines[i]).Some?;
    LastMatchAt(lines, TotalOf, i);
  }

  /** A label holding both "Total" and "India's" is India's total, never
      the overall total. */
  lemma IndiaTakesPrecedence(cells: seq<string>)
    requires |cells| >= 2 && Contains(CleanText(cells[0] + cells[1]), "India's")
    ensures KindOf(LineOf(cells)) == IndiaRow
  {
  }

  // ---- the whole page ----

  datatype Parsed = Parsed(
    hsnCode: Option<string>,
    financialYear: Option<string>,
    countries: seq<Record>,
    totals: Totals)

  /** `hsn_code or hsn`: the code read from the page unless it is missing
      or empty. */
  function HsnCode(parsed: Option<string>, hsn: Option<string>): (r: Option<string>)
    ensures parsed.Some? && parsed.value != "" ==> r == parsed
    ensures (parsed.None? || parsed.value == "") ==> r == hsn
  {
    if parsed.Some? && parsed.value != "" then parsed else hsn
  }

  function RowsOr(rows: Option<seq<Row>>): seq<Row>
  {
    match rows
    case Some(rs) => rs
    case None => []
  }

  /** The footer rows, each with its `td` texts and label. */
  function FooterLines(rows: seq<Row>): (ls: seq<FooterLine>)
    ensures |ls| == |rows|
    ensures forall i :: 0 <= i < |rows| ==> ls[i] == LineOf(TdRaws(rows[i]))
  {
    seq(|rows|, i requires 0 <= i < |rows| => LineOf(TdRaws(rows[i])))
  }

  /** `parse_commodity_from_html`: None (the empty dictionary) without an
      `example1` table; the footer's `IndexError` propagates. The commodity
      code read from the page, `parsedCode`, comes from a regular
      expression and is an input here. */
  function ParseCommodity(page: Page, parsedCode: Option<string>, hsn: Option<string>, year: Option<string>)
    : (r: Result<Option<Parsed>>)
    ensures ById(page, "example1").None? ==> r == Success(None)
    ensures r.Success? && r.value.Some? ==>
      && ById(page, "example1").Some?
      && r.value.value.countries == BodyRows(RowsOr(ById(page, "example1").value.body))
      && r.value.value.hsnCode == HsnCode(parsedCode, hsn)
      && r.value.value.financialYear == year
      && Footer(FooterLines(RowsOr(ById(page, "example1").value.foot))).Success?
      && r.value.value.totals == Footer(FooterLines(RowsOr(ById(page, "example1").value.foot))).value
    ensures r.Failure? <==>
      ById(page, "example1").Some? && Footer(FooterLines(RowsOr(ById(page, "example1").value.foot))).Failure?
    ensures r.Failure? ==> r.error == IndexError
  {
    match ById(page, "example1")
    case None => Success(None)
    case Some(t) =>
      var countries := BodyRows(RowsOr(t.body));
      match Footer(FooterLines(RowsOr(t.foot)))
      case Failure(e) => Failure(e)
      case Success(totals) => Success(Some(Parsed(HsnCode(parsedCode, hsn), year, countries, totals)))
  }

  method ParseCommodityFromHtml(page: Page, parsedCode: Option<string>, hsn: Option<string>, year: Option<string>)
    returns (r: Result<Option<Parsed>>)
    ensures r == ParseCommodity(page, parsedCode, hsn, year)
  {
    var table := ById(page, "example1");
    if table.None? {
      return Success(None);
    }
    var t := table.value;
    var countries := ParseBody(RowsOr(t.body));
    var totals := ParseFooter(FooterLines(RowsOr(t.foot)));
    if totals.Failure? {
      return Failure(totals.error);
    }
    r := Success(Some(Parsed(HsnCode(parsedCode, hsn), year, countries, totals.value)));
  }
}
