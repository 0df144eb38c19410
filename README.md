# tradestat-ingestor, modelled in Dafny

tradestat-ingestor scrapes India's export/import data bank (EIDB) and the monthly
export/import data bank (MEIDB). It sends a form to the portal, then turns the
HTML report tables it gets back into JSON records. Each record is one partner
country, commodity or region. Some reports also carry an India total, a
completeness score, or a comparison with the previous snapshot. This project
models the parts of the ingestor that decide something and proves what they
promise:

- **Change detection** (`ChangeDetector`, `change_detector.dfy`). It works out
  what was added, removed and modified between two snapshots, and which
  per-field changes each modified record has. It gives the percent of changed
  records, the drift ladder, and the version history keyed by year: saving a
  version, the changelog, and the comparison report.
- **Table extraction**, one module per parser of the repository. A table is
  the sequence of rows the HTML library yields, with each cell's text. The
  modules share the numeric readers (`Numbers`, `CoreParser`), the generic row
  scan with skip, stop and keep (`Scan`), the way a table is chosen
  (`Html`), and the completeness grading (`Quality`). Each parser is a
  specification function over the rows, plus the loop of the source proved
  against it. The lemmas state what the records are: which rows become
  records, which rows end the scan, and where the totals come from.
- **Consolidation** of yearly documents into one file, and merging of
  consolidated files (`Consolidator`, `ConsolidatorLib`).
- **Request building** for the scrapers. This covers the field names for each
  trade direction, the value-type codes, the HS level of a code and its
  chapter, region grouping, and the validation that decides whether a request
  is sent at all.
- **Command-line helpers**: year-range expansion, country and region lookup,
  and output file names.
- **Storage paths**: the directory layout and file name of each saved
  document, and the storage entry added to the document before it is written.

Python's `str`, `int()` and `float()` are modelled in `PyStr` and `PyNum`.
`os.path.join` is modelled in `OsPath`, and Python's string order in
`StrOrder`. The source reads some things outside this model: the clock, the
checksum function, and the country and region tables. These are parameters
of the model.

## Model

| member | source | states |
|---|---|---|
| Numbers.TrimmedIsFloat | src/tradestat_ingestor/scrapers/commodity_wise_all_countries/parser.py:243-252 | the all-countries `_parse_numeric` is `float()` of the stripped text without commas and spaces: its placeholder checks ('-', 'N/A', empty) only short-cut what `float()` rejects, and it never raises |
| Numbers.SpacelessIsFloat | src/tradestat_ingestor/scrapers/commodity_wise/parser.py:285-294 | the src commodity `_parse_number` is `float()` of the text without commas and spaces; '-', 'NA', 'N/A' and empty give None |
| Numbers.CommalessIsFloat | commodity_wise/lib/parser.py:179-185 | the lib `_parse_number` (placeholders '-', 'NA', 'N/A', or only '-', 'NA') is `float()` of the text without commas |
| Numbers.StrippedIsFloat | src/tradestat_ingestor/scrapers/meidb/principal_commodity_wise_all_hscode/parser.py:220-227 | the principal-commodity `_parse_number` checks its placeholders after stripping and is otherwise `float()` of the text without commas |
| Numbers.SymbolsIsFloat | src/tradestat_ingestor/scrapers/eidb/chapter_wise_all_commodities/parser.py:216-239 | the eidb `parse_numeric` is `float()` of the text with ',', '%', '$' and '₹' removed (and non-breaking spaces made spaces); its placeholder list only short-cuts what `float()` rejects |
| Numbers.PlaceholdersReadAsNone | eidb/country_wise/lib/parser.py:127-140 | every entry of the seven-entry placeholder list reads as None in both symbol readers; 'No Result Found', absent from this reader's six-entry list, still reads as None because float() rejects it |
| Numbers.IntRoundTrip | src/tradestat_ingestor/scrapers/commodity_wise/parser.py:285-294 | every number reader reads a printed integer back as that integer |
| Numbers.InnerSpaces | commodity_wise/lib/parser.py:179-185 | digits with an inner space read as the joined digits where spaces are removed (src commodity parsers, all-countries parser) and give None where only commas are removed (lib parsers, principal parser) |
| Quality.Completeness | src/tradestat_ingestor/scrapers/commodity_wise_all_countries/parser.py:53 | completeness is a percentage between 0 and 100, 0 when there are no records |
| Quality.ValidationByCounts | src/tradestat_ingestor/scrapers/commodity_wise_all_countries/parser.py:53-69 | VALID exactly when at least 70% of a non-empty list has data, PARTIAL exactly when at least 50% but under 70%, INCOMPLETE for an empty list |
| Quality.Assess | src/tradestat_ingestor/scrapers/commodity_wise_all_countries/parser.py:51-69 | the quality block counts all records and those with data; with + missing = total; completeness in [0, 100] |
| Quality.AssessGrades | src/tradestat_ingestor/scrapers/commodity_wise_all_countries/parser.py:64-69 | the quality block's status is VALID at ≥70%, PARTIAL at ≥50%, else INCOMPLETE, and INCOMPLETE with completeness 0 for no records |
| TradeRecords.FiscalRange | eidb/commodity_wise_all_countries/lib/parser.py:93 | `fiscal_year_range` is "{year}-{year+1}", and a non-integer year has none (the int() raises) |
| TradeRecords.FiscalRangeNext | eidb/commodity_wise_all_countries/lib/parser.py:93 | the part after the dash reads back as the next year |
| TradeRecords.MonthName | src/tradestat_ingestor/scrapers/meidb/commodity_wise/parser.py:14-18 | a month name exists exactly for months 1 to 12 |
| TradeRecords.MonthLabel | src/tradestat_ingestor/scrapers/meidb/commodity_wise/parser.py:88 | the month label is the month's name for 1 to 12, else `str(month)` |
| Html.FindTable | src/tradestat_ingestor/core/parser.py:32 | `soup.find` gives the first table matching, and None exactly when none matches |
| Html.ClassOr | src/tradestat_ingestor/scrapers/eidb/chapter_wise_all_commodities/parser.py:39-45 | the table is the first `class=table` when there is one, else the first table the fallback accepts (one holding a row) |
| ChangeDetector.PercentChange | src/tradestat_ingestor/core/change_detector.py:185-191 | `_calc_percent_change` is present exactly when both sides are truthy (non-null, non-zero); when present it is positive exactly when the value grew and zero exactly when it is unchanged |
| ChangeDetector.DeltaDifference | src/tradestat_ingestor/core/change_detector.py:159-165 | a field's `difference` is present exactly when both sides are truthy and then adds to the previous value to give the current one; a percent change implies a difference |
| ChangeDetector.CompareCountryData | src/tradestat_ingestor/core/change_detector.py:147-183 | the loops over the USD and quantity keys produce the comparison map `Compare` |
| ChangeDetector.CompareSpec | src/tradestat_ingestor/core/change_detector.py:155-181 | a `usd_`/`qty_` key over y2023_2024, y2024_2025, pct_growth is in the map exactly when the two values differ, and then holds that key's delta |
| ChangeDetector.CompareEmptyIff | src/tradestat_ingestor/core/change_detector.py:147-183 | the comparison is empty exactly when both the USD and the quantity triples are equal (with lines 104-105) |
| ChangeDetector.ByCountryLastWins | src/tradestat_ingestor/core/change_detector.py:89-90 | the identity-keyed map has exactly the snapshot's country names as keys, and each maps to the last record with that name |
| ChangeDetector.DriftMonotone | src/tradestat_ingestor/core/change_detector.py:115-124 | the drift ladder never puts a larger percent in a lower band, and exactly 5, 15 and 30 land in the higher band |
| ChangeDetector.Detect | src/tradestat_ingestor/core/change_detector.py:70-112 | with no previous snapshot the result is the baseline (NEW_EXTRACTION, INITIAL_DATA, has_changes, 0 changes, 100.0, BASELINE, empty lists); it fails (ZeroDivisionError) exactly when both snapshots are empty |
| ChangeDetector.DetectChanges | src/tradestat_ingestor/core/change_detector.py:56-145 | the method with its loop over the common countries returns `Detect` |
| ChangeDetector.ModifiedCountries | src/tradestat_ingestor/core/change_detector.py:96-107 | the loop collects exactly the common countries whose comparison is non-empty, each with its change map |
| ChangeDetector.DiffSets | src/tradestat_ingestor/core/change_detector.py:93-107 | added = current − previous, removed = previous − current, modified ⊆ both, the three pairwise disjoint, a country modified exactly when a triple differs, detailed changes keyed by the modified countries |
| ChangeDetector.DetectSets | src/tradestat_ingestor/core/change_detector.py:89-107 | the same set laws stated on the two snapshots' country names, with duplicate names resolved last-wins |
| ChangeDetector.DiffPercent | src/tradestat_ingestor/core/change_detector.py:110-112 | the percent lies in [0, 200] and is 0 exactly when there are no changes |
| ChangeDetector.TotalBound | src/tradestat_ingestor/core/change_detector.py:110-112 | added + removed + modified is at most twice the larger snapshot |
| ChangeDetector.PercentAndDrift | src/tradestat_ingestor/core/change_detector.py:110-129 | percent in [0, 200]; has_changes exactly when total_changes > 0, which is exactly when the drift is not NO_CHANGE |
| ChangeDetector.SelfComparison | src/tradestat_ingestor/core/change_detector.py:89-129 | comparing a non-empty snapshot with itself finds no added, removed or modified country, no changes and drift NO_CHANGE |
| ChangeDetector.LookupAfterSave | src/tradestat_ingestor/core/change_detector.py:206-220 | saving a version changes only that history file's entry for that year |
| ChangeDetector.ChangelogUnique | src/tradestat_ingestor/core/change_detector.py:244-256 | the changelog (one entry per year, in ascending key order) is determined by the history |
| ChangeDetector.ChangeDetector.constructor | src/tradestat_ingestor/core/change_detector.py:19-28 | a detector starts from the given checksum function and stored histories |
| ChangeDetector.ChangeDetector.PreviousVersion | src/tradestat_ingestor/core/change_detector.py:34-49 | a previous snapshot is returned exactly when the history file exists and holds the year |
| ChangeDetector.ChangeDetector.SaveVersion | src/tradestat_ingestor/core/change_detector.py:193-226 | `history[year]` becomes the entry with checksum `calculate_checksum(data)`, every other entry and file unchanged; the saved snapshot reads back |
| ChangeDetector.ChangeDetector.GenerateChangelog | src/tradestat_ingestor/core/change_detector.py:228-262 | None exactly when the history file is missing, else one entry per year in ascending order |
| ChangeDetector.ChangeDetector.GetComparisonReport | src/tradestat_ingestor/core/change_detector.py:264-315 | None when the file or year is missing; FIRST_VERSION exactly when no key is below the year, carrying the year and its entry; otherwise the greatest key strictly below, with the year gap; the int() failure gives None |
| CoreParser.CleanText | src/tradestat_ingestor/core/parser.py:133-135 | `_clean_text` keeps the text's words, is empty exactly when the text has none, and leaves single spaces between words with none at the ends |
| CoreParser.CleanIdempotent | src/tradestat_ingestor/core/parser.py:133-135 | cleaning twice is cleaning once |
| CoreParser.CleanOfWords | src/tradestat_ingestor/core/parser.py:133-135 | the cleaned text is the words joined by single spaces |
| CoreParser.ToFloat | src/tradestat_ingestor/core/parser.py:138-146 | `_to_float` of blank text is None |
| CoreParser.ToInt | src/tradestat_ingestor/core/parser.py:149-157 | `_to_int` of blank text is None |
| CoreParser.ToIntThenFloat | src/tradestat_ingestor/core/parser.py:138-157 | whatever `_to_int` reads, `_to_float` reads as the same value |
| CoreParser.ToIntRejectsPoint | src/tradestat_ingestor/core/parser.py:149-157 | text with a decimal point is not an integer, so "1.5" gives None |
| CoreParser.ReadersIntString | src/tradestat_ingestor/core/parser.py:138-157 | both readers read a printed integer back as itself |
| CoreParser.ReadersSkipComma | src/tradestat_ingestor/core/parser.py:144-155 | a comma between digits is stripped before conversion |
| CoreParser.BodyRecord | src/tradestat_ingestor/core/parser.py:76-97 | a body row gives a record exactly when it has at least 8 cells and its cleaned first cell is an integer; the record's sno and country come from cells 0 and 1 |
| CoreParser.ParseBody | src/tradestat_ingestor/core/parser.py:74-97 | the body loop returns `BodyRows` |
| CoreParser.BodyRowsComplete | src/tradestat_ingestor/core/parser.py:76-94 | every qualifying row contributes its record |
| CoreParser.BodyRowsSound | src/tradestat_ingestor/core/parser.py:76-97 | every record comes from a row of at least 8 cells with that integer serial and that country |
| CoreParser.BodyRowsAppend | src/tradestat_ingestor/core/parser.py:76-97 | rows are handled independently: the records of two row runs concatenate |
| CoreParser.LineOf | src/tradestat_ingestor/core/parser.py:103-107 | a footer row's cells are read as floats one for one, and its label flags say whether the cleaned first two cells contain "Total", "India's" and "Share" |
| CoreParser.KindOf | src/tradestat_ingestor/core/parser.py:104 | only rows of at least two cells are classified |
| CoreParser.ParseFooter | src/tradestat_ingestor/core/parser.py:99-127 | the footer loop returns `Footer`: IndexError at a labelled row too short for its kind, else the slots |
| CoreParser.ScanFooter | src/tradestat_ingestor/core/parser.py:102-127 | the loop stops at the first row too short for its kind, with the slots of the rows before it |
| CoreParser.StoreFooterRow | src/tradestat_ingestor/core/parser.py:107-127 | one row overwrites the slot of its kind and no other |
| CoreParser.FooterStep | src/tradestat_ingestor/core/parser.py:102-127 | the slots after one more row are the earlier slots with that row absorbed |
| CoreParser.FooterFails | src/tradestat_ingestor/core/parser.py:107-127 | a Total or India's row with fewer than 5 cells, or a Share row with fewer than 4, fails the parse with IndexError |
| CoreParser.FooterSlotsFilled | src/tradestat_ingestor/core/parser.py:107-127 | each slot is filled exactly when a row of its kind is present |
| CoreParser.FooterLastWins | src/tradestat_ingestor/core/parser.py:107-114 | the total is the last Total row's USD triple |
| CoreParser.IndiaTakesPrecedence | src/tradestat_ingestor/core/parser.py:107-115 | a label with both "Total" and "India's" fills india_total, not total |
| CoreParser.HsnCode | src/tradestat_ingestor/core/parser.py:41 | metadata hsn_code is the parsed code when non-empty, else the argument |
| CoreParser.FooterLines | src/tradestat_ingestor/core/parser.py:100-104 | each tfoot row is read into its footer line |
| CoreParser.ParseCommodity | src/tradestat_ingestor/core/parser.py:32-130 | no `example1` table gives {}; otherwise the countries are the body records, hsn_code follows the fallback, financial_year is the year given, and totals are the footer's totals; it fails (IndexError) exactly when the table exists and a footer row the footer loop indexes is too short |
| CoreParser.ParseCommodityFromHtml | src/tradestat_ingestor/core/parser.py:32-130 | the parse returns `ParseCommodity` |
| AllCountries.SerialOr | src/tradestat_ingestor/scrapers/commodity_wise_all_countries/parser.py:211-214 | sno is the integer in cell 0, else one more than the number of countries so far |
| AllCountries.ExtractCountries | src/tradestat_ingestor/scrapers/commodity_wise_all_countries/parser.py:180-231 | the country loop returns the countries of the rows as specified by its per-row step |
| AllCountries.ExtractCountriesData | src/tradestat_ingestor/scrapers/commodity_wise_all_countries/parser.py:162-240 | no `example1` table gives [], a table without tbody gives None, else the body's countries |
| AllCountries.CountryFromRow | src/tradestat_ingestor/scrapers/commodity_wise_all_countries/parser.py:182-231 | every country comes from a row of at least 8 cells whose upper-cased name is not a stop name; its sno is the row's integer serial or its position + 1, its USD triple cells 2–4 and its quantity triple cells 5–7 |
| AllCountries.NoStopNameCountry | src/tradestat_ingestor/scrapers/commodity_wise_all_countries/parser.py:197-199 | no record is named TOTAL, INDIA'S TOTAL, % SHARE or "" |
| AllCountries.StopsAtTotal | src/tradestat_ingestor/scrapers/commodity_wise_all_countries/parser.py:197-199 | a stop row of at least 8 cells ends the list: nothing after it is read |
| AllCountries.KindOf | src/tradestat_ingestor/scrapers/commodity_wise_all_countries/parser.py:292-312 | only footer rows of at least 3 cells are classified |
| AllCountries.ExtractFooter | src/tradestat_ingestor/scrapers/commodity_wise_all_countries/parser.py:287-315 | the footer loop returns the totals of the rows: each slot the last row filling it, all-None slots otherwise |
| AllCountries.FooterStep | src/tradestat_ingestor/scrapers/commodity_wise_all_countries/parser.py:290-315 | one footer row overwrites only the slot of its kind, and only when it has enough cells |
| AllCountries.ExtractTotals | src/tradestat_ingestor/scrapers/commodity_wise_all_countries/parser.py:255-320 | no table or no tfoot leaves the all-None totals, else the footer's totals |
| AllCountries.TotalLastWins | src/tradestat_ingestor/scrapers/commodity_wise_all_countries/parser.py:298-302 | the total is the last TOTAL-without-INDIA row of at least 5 cells |
| AllCountries.UnfilledTotal | src/tradestat_ingestor/scrapers/commodity_wise_all_countries/parser.py:257-302 | with no such row the total stays all-None |
| AllCountries.ParseCommodityHtml | src/tradestat_ingestor/scrapers/commodity_wise_all_countries/parser.py:57-70 | None exactly when the country extractor gave None (the missing tbody); otherwise countries, totals and the quality block over usd y2024_2025 (with lines 42-53, 92-94, 178) |
| AllCountries.ParseCommodity | src/tradestat_ingestor/scrapers/commodity_wise_all_countries/parser.py:42-94 | the parse returns `ParseCommodityHtml` |
| AllCountries.NoBodyNoResult | src/tradestat_ingestor/scrapers/commodity_wise_all_countries/parser.py:175-178 | a table without tbody makes the whole parse None (with lines 51, 92-94) |
| AllCountriesLib.DataTable | eidb/commodity_wise_all_countries/lib/parser.py:155-159 | the table is `id=example1`, else the first `class=table` |
| AllCountriesLib.Countries | eidb/commodity_wise_all_countries/lib/parser.py:161-167 | no table or no tbody gives [] |
| AllCountriesLib.ExtractCountriesData | eidb/commodity_wise_all_countries/lib/parser.py:150-216 | the lib country loop returns `Countries` |
| AllCountriesLib.ParseCommodityHtml | eidb/commodity_wise_all_countries/lib/parser.py:37-93 | None exactly when the year is not an integer; otherwise countries, the example1-only totals, the quality block (70/50 on usd y2024_2025) and the checksum of exactly the countries and totals |
| AllCountriesLib.ParseCommodity | eidb/commodity_wise_all_countries/lib/parser.py:25-83 | the parse returns `ParseCommodityHtml` |
| AllCountriesLib.FallbackHasNoTotals | eidb/commodity_wise_all_countries/lib/parser.py:219-230 | when the class=table fallback was used the totals stay all-None |
| AllCountriesLib.AgreesWithPackageParser | eidb/commodity_wise_all_countries/lib/parser.py:172-212 | on an example1 table with a body the lib variant extracts the same countries as the package parser |
| CommodityWise.ReadPlaceholders | src/tradestat_ingestor/scrapers/commodity_wise/parser.py:285-287 | in both copies '', '-', 'NA' and 'N/A' read as None |
| CommodityWise.ReadSpacedDigits | commodity_wise/lib/parser.py:179-185 | digits with an inner space read as a number in the package copy (spaces removed) and as None in the library copy (only commas removed) |
| CommodityWise.CommodityOf | src/tradestat_ingestor/scrapers/commodity_wise/parser.py:212-236 | a row is a record exactly when it has at least 7 cells, cell 1 contains neither "Total" nor "India", and the serial is all digits; sno is int(serial), the fields come from cells 1–6 in order, and growth_pct is cell 7, or None for exactly 7 cells |
| CommodityWise.ExtractCommodities | src/tradestat_ingestor/scrapers/commodity_wise/parser.py:199-245 | the row loop returns the records of the first table |
| CommodityWise.CommoditySound | src/tradestat_ingestor/scrapers/commodity_wise/parser.py:211-237 | every record comes from a row of at least 7 cells with that serial and an HS code naming neither "Total" nor "India" |
| CommodityWise.CommodityComplete | src/tradestat_ingestor/scrapers/commodity_wise/parser.py:211-237 | every accepted row contributes its record |
| CommodityWise.LineOf | src/tradestat_ingestor/scrapers/commodity_wise/parser.py:257-271 | a row's text is marked when it contains "India's Total" or "India Total", and its values are the non-null numbers of its cells in order |
| CommodityWise.IndiaTotalOf | src/tradestat_ingestor/scrapers/commodity_wise/parser.py:259-278 | a row gives the India total exactly when it is marked, has at least 4 cells in the package copy (any number in the library copy, commodity_wise/lib/parser.py:162-173) and has at least 2 values; prev, curr and growth are the first three values |
| CommodityWise.ExtractIndiaTotal | src/tradestat_ingestor/scrapers/commodity_wise/parser.py:248-282 | the loop returns the first qualifying row's total |
| CommodityWise.IndiaTotalFirstRow | src/tradestat_ingestor/scrapers/commodity_wise/parser.py:257-278 | the India total comes from the first qualifying row, and its prev value is that row's first non-null number |
| CommodityWise.YearColumnsOf | src/tradestat_ingestor/scrapers/commodity_wise/parser.py:185-193 | prev_year is the first "dddd - dddd" heading; curr_year is present exactly when there are at least two, and is then the last |
| CommodityWise.ExtractYearColumns | src/tradestat_ingestor/scrapers/commodity_wise/parser.py:179-196 | the heading loop returns the year columns of the first table |
| CommodityWise.ScanYearColumns | src/tradestat_ingestor/scrapers/commodity_wise/parser.py:186-193 | the loop over the headings returns `YearColumnsOf` |
| CommodityWise.YearColumnsStep | src/tradestat_ingestor/scrapers/commodity_wise/parser.py:189-193 | a matching heading fills prev_year when it is empty, else overwrites curr_year |
| CommodityWise.DigitLevel | src/tradestat_ingestor/scrapers/commodity_wise/parser.py:76 | digit_level is len(hscode) unless the code starts with "all_" |
| CommodityWise.DigitLevelAll | src/tradestat_ingestor/scrapers/commodity_wise/parser.py:76 | digit_level of "all_Ndigit" is N |
| CommodityWise.ParseCommodityWiseHtml | src/tradestat_ingestor/scrapers/commodity_wise/parser.py:64-68 | None exactly when the digit level or the year does not convert; otherwise the commodities, India total, year columns, the quality block on curr_year_value, status SUCCESS exactly when there is a record, and the checksum of commodities and India total (with lines 51-53, 76-78, 118, 130, 161-163) |
| CommodityWise.ParseCommodityWise | src/tradestat_ingestor/scrapers/commodity_wise/parser.py:34-163 | the parse returns `ParseCommodityWiseHtml` |
| MeidbCommodityWise.ReadPlaceholders | src/tradestat_ingestor/scrapers/meidb/commodity_wise/parser.py:337-338 | '', '-', 'NA' and 'N/A' read as None in the package copy; the library copy (meidb/commodity_wise/lib/parser.py:93-99) treats '' and its own list the same way |
| MeidbCommodityWise.At | src/tradestat_ingestor/scrapers/meidb/commodity_wise/parser.py:276-282 | a column beyond the row reads as None, otherwise as that cell's number |
| MeidbCommodityWise.MonthlyFrom | src/tradestat_ingestor/scrapers/meidb/commodity_wise/parser.py:276-282 | the six monthly and cumulative fields are the six columns from the given one, each None when absent |
| MeidbCommodityWise.CommodityOf | src/tradestat_ingestor/scrapers/meidb/commodity_wise/parser.py:253-283 | a row is a record exactly when it has at least 6 cells, a digit serial, and cell 1 free of "Total" and "India" (package) or of "total" in any case (library, meidb/commodity_wise/lib/parser.py:50-58); sno, hscode and commodity come from cells 0–2 and the values from cells 3–8 |
| MeidbCommodityWise.ExtractCommodities | src/tradestat_ingestor/scrapers/meidb/commodity_wise/parser.py:229-292 | the row loop returns the records of the first table |
| MeidbCommodityWise.CommoditySound | src/tradestat_ingestor/scrapers/meidb/commodity_wise/parser.py:253-284 | every record comes from a row of at least 6 cells with that serial and HS code, and its HS code carries no total marker |
| MeidbCommodityWise.CommodityComplete | src/tradestat_ingestor/scrapers/meidb/commodity_wise/parser.py:253-284 | every accepted row contributes its record |
| MeidbCommodityWise.LineOf | src/tradestat_ingestor/scrapers/meidb/commodity_wise/parser.py:313-314 | a row is marked by "India's Total" or "India Total" in its text (package), or by "India" and "Total" (library, meidb/commodity_wise/lib/parser.py:79) |
| MeidbCommodityWise.IndiaTotalOf | src/tradestat_ingestor/scrapers/meidb/commodity_wise/parser.py:307-326 | the package copy takes a marked row of at least 4 cells; the library copy needs at least 6 (meidb/commodity_wise/lib/parser.py:78-89); the six fields come from cells 3–8 |
| MeidbCommodityWise.ExtractIndiaTotal | src/tradestat_ingestor/scrapers/meidb/commodity_wise/parser.py:295-332 | the loop returns the first qualifying row's six fields |
| MeidbCommodityWise.ShortMarkedRowPassedOver | meidb/commodity_wise/lib/parser.py:78-89 | in the library copy a marked row of fewer than 6 cells is passed over and a later marked row of at least 6 supplies the total |
| MeidbCommodityWise.ColumnHeaders | src/tradestat_ingestor/scrapers/meidb/commodity_wise/parser.py:214-226 | the column headers are the stripped texts of the first row's cells, or none without a table or row |
| MeidbCommodityWise.ParseMeidbCommodityWiseHtml | src/tradestat_ingestor/scrapers/meidb/commodity_wise/parser.py:53-100 | None exactly when the "all_Ndigit" level does not convert; otherwise commodities, India total, column headers, month name (str(month) outside 1–12), period, the quality block on month_curr_year, SUCCESS exactly when there is a record, and the checksum (with lines 141, 160, 193-195) |
| MeidbCommodityWise.ParseMeidbCommodityWise | src/tradestat_ingestor/scrapers/meidb/commodity_wise/parser.py:45-195 | the parse returns `ParseMeidbCommodityWiseHtml` |
| MeidbCommodityWise.ParseCommodityResponse | meidb/commodity_wise/lib/parser.py:12-41 | the library parse: digit_level = len(hscode), total_records = the number of records, month_name present exactly for months 1–12 |
| MeidbCommodityWise.Zip | src/tradestat_ingestor/scrapers/meidb/commodity_wise/parser.py:364 | the legacy row dict has exactly the header texts as keys |
| MeidbCommodityWise.ZipLastWins | src/tradestat_ingestor/scrapers/meidb/commodity_wise/parser.py:364 | with a repeated header the later cell wins |
| MeidbCommodityWise.LegacyRows | src/tradestat_ingestor/scrapers/meidb/commodity_wise/parser.py:353-356 | the legacy parse raises ValueError exactly when there is no table |
| MeidbCommodityWise.LegacyRowsKeys | src/tradestat_ingestor/scrapers/meidb/commodity_wise/parser.py:358-366 | the legacy parse returns exactly one row per tr after the first that has cells, as many as the th headings, and every row has exactly the headings as keys |
| MeidbCommodityWise.LegacyRowSound | src/tradestat_ingestor/scrapers/meidb/commodity_wise/parser.py:358-366 | every legacy row is the headings zipped with the cells of some kept tr after the first |
| MeidbCommodityWise.LegacyRowComplete | src/tradestat_ingestor/scrapers/meidb/commodity_wise/parser.py:358-366 | every tr after the first whose non-empty cell count equals the heading count yields its zipped row |
| MeidbAllCountries.LineOf | src/tradestat_ingestor/scrapers/meidb/commodity_wise_all_countries/parser.py:290-291 | a row's fields are its cells read by the parser's number reader, and its flags say whether its whole text contains "Total" and "India" |
| MeidbAllCountries.CountryOf | src/tradestat_ingestor/scrapers/meidb/commodity_wise_all_countries/parser.py:284-313 | a row is a country exactly when it has at least 5 cells, its text has neither "Total" nor "India" (package; the library checks "total" in cell 1 in any case, meidb/commodity_wise_all_countries/lib/parser.py:50-58) and its serial is digits; sno and country come from cells 0–1, the six metrics from cells 2–7, None when absent |
| MeidbAllCountries.ExtractCountries | src/tradestat_ingestor/scrapers/meidb/commodity_wise_all_countries/parser.py:260-322 | the row loop returns the countries of the first table |
| MeidbAllCountries.CountrySound | src/tradestat_ingestor/scrapers/meidb/commodity_wise_all_countries/parser.py:284-314 | every country comes from a row of at least 5 cells with that serial and name, whose text (package) names neither "Total" nor "India" |
| MeidbAllCountries.CountryComplete | src/tradestat_ingestor/scrapers/meidb/commodity_wise_all_countries/parser.py:284-314 | every accepted row contributes its country |
| MeidbAllCountries.TotalOf | src/tradestat_ingestor/scrapers/meidb/commodity_wise_all_countries/parser.py:334-351 | a row gives the totals exactly when its text contains "Total" and it has at least 4 cells (package) or 5 (library, meidb/commodity_wise_all_countries/lib/parser.py:77-89); the metrics come from cells 2–7 |
| MeidbAllCountries.ExtractTotal | src/tradestat_ingestor/scrapers/meidb/commodity_wise_all_countries/parser.py:325-357 | the loop returns the first qualifying row's totals |
| MeidbAllCountries.FirstTotalWins | src/tradestat_ingestor/scrapers/meidb/commodity_wise_all_countries/parser.py:334-351 | the first qualifying row wins: later rows are never read |
| MeidbAllCountries.InfoOf | src/tradestat_ingestor/scrapers/meidb/commodity_wise_all_countries/parser.py:238-242 | the commodity info keeps the hscode, and an empty description or unit becomes "N/A" |
| MeidbAllCountries.ParseAllCountriesHtml | src/tradestat_ingestor/scrapers/meidb/commodity_wise_all_countries/parser.py:53-67 | digit_level = len(hscode); countries, totals, column headers, period, the quality block on month_curr_year, SUCCESS exactly when there is a country, and the checksum (with lines 82, 92, 96, 138, 157) |
| MeidbAllCountries.ParseAllCountries | src/tradestat_ingestor/scrapers/meidb/commodity_wise_all_countries/parser.py:45-192 | the parse returns `ParseAllCountriesHtml` |
| MeidbAllCountries.ParseCountriesResponse | meidb/commodity_wise_all_countries/lib/parser.py:12-41 | the library parse: digit_level = len(hscode), total_countries = the number of countries, month_name present exactly for months 1–12 |
| PrincipalCommodity.TotalLabel | src/tradestat_ingestor/scrapers/meidb/principal_commodity_wise_all_hscode/parser.py:190-196 | the label is the first cell containing "Total", and empty exactly when no cell contains it |
| PrincipalCommodity.LineOf | src/tradestat_ingestor/scrapers/meidb/principal_commodity_wise_all_hscode/parser.py:147-196 | a row's fields are its cells read by the parser's number reader; it has a total marker exactly when its text contains "Total" (which covers "India's Total"), and a lower-case "total" marker exactly when its lower-cased text contains "total" |
| PrincipalCommodity.CommodityOf | src/tradestat_ingestor/scrapers/meidb/principal_commodity_wise_all_hscode/parser.py:146-174 | a row is an HS-code line exactly when it has at least 5 cells, an all-digit serial and no "total" in its lower-cased text; sno, hscode and description come from cells 0–2 and the six metrics from cells 3–8, None when absent |
| PrincipalCommodity.ExtractCommodities | src/tradestat_ingestor/scrapers/meidb/principal_commodity_wise_all_hscode/parser.py:138-176 | the row loop returns the HS-code lines of the first table |
| PrincipalCommodity.CommoditySound | src/tradestat_ingestor/scrapers/meidb/principal_commodity_wise_all_hscode/parser.py:146-174 | every HS-code line comes from a row of at least 5 cells with that serial, code and description whose lower-cased text has no "total" |
| PrincipalCommodity.CommodityComplete | src/tradestat_ingestor/scrapers/meidb/principal_commodity_wise_all_hscode/parser.py:146-174 | every accepted row contributes its HS-code line |
| PrincipalCommodity.TotalOf | src/tradestat_ingestor/scrapers/meidb/principal_commodity_wise_all_hscode/parser.py:185-207 | a row gives the total exactly when its text contains "Total" and it has at least 8 cells; the label is its first cell containing "Total" and the metrics are cells 3–8 |
| PrincipalCommodity.ExtractTotal | src/tradestat_ingestor/scrapers/meidb/principal_commodity_wise_all_hscode/parser.py:179-208 | the loop returns the first qualifying row's total |
| PrincipalCommodity.FirstTotalWins | src/tradestat_ingestor/scrapers/meidb/principal_commodity_wise_all_hscode/parser.py:185-207 | the first qualifying row wins: later rows are never read |
| PrincipalCommodity.TotalNotCommodity | src/tradestat_ingestor/scrapers/meidb/principal_commodity_wise_all_hscode/parser.py:155-189 | a row that gives the total is never also an HS-code line |
| PrincipalCommodity.MonthText | src/tradestat_ingestor/scrapers/meidb/principal_commodity_wise_all_hscode/parser.py:11-75 | the period's month is the month's name for 1–12 and the text "None" otherwise |
| PrincipalCommodity.ParsePrincipalHtml | src/tradestat_ingestor/scrapers/meidb/principal_commodity_wise_all_hscode/parser.py:54-117 | HS-code lines, total and column headers of the first table; total_hscodes is their number, has_total says whether a total was found, month_name is present exactly for months 1–12 |
| PrincipalCommodity.ParsePrincipal | src/tradestat_ingestor/scrapers/meidb/principal_commodity_wise_all_hscode/parser.py:50-121 | the parse returns `ParsePrincipalHtml` |
| ChapterWise.ValueUnit | src/tradestat_ingestor/scrapers/eidb/chapter_wise_all_commodities/parser.py:128-135 | "usd" gives "US $ Million", "inr" gives "₹ Crore", and any other value type gives "Quantity (in thousands)" |
| ChapterWise.ParseRow | src/tradestat_ingestor/scrapers/eidb/chapter_wise_all_commodities/parser.py:138-209 | a row with an empty or header-like first cell gives nothing; 8 or more cells give the full record (serial, code, commodity, five numbers); 6–7 cells give the record without a serial; 3–5 cells give a total record exactly when the first three cells joined by spaces contain "total" in any case, carrying the first two values above 1000 as previous and current |
| ChapterWise.BigValues | src/tradestat_ingestor/scrapers/eidb/chapter_wise_all_commodities/parser.py:196-202 | the cell loop picks the first and second values above 1000 |
| ChapterWise.ParseRowCells | src/tradestat_ingestor/scrapers/eidb/chapter_wise_all_commodities/parser.py:152-209 | the branching method returns `ParseRow` |
| ChapterWise.ShortRowIsTotal | src/tradestat_ingestor/scrapers/eidb/chapter_wise_all_commodities/parser.py:189-204 | a row of fewer than 6 cells that yields a record yields a total record whose commodity names "total" |
| ChapterWise.LineOf | src/tradestat_ingestor/scrapers/eidb/chapter_wise_all_commodities/parser.py:55-66 | a row is read by `ParseRow`; it is a total exactly when its record's lower-cased commodity contains "total"; its code key is the stripped HS code of a non-total-shaped record |
| ChapterWise.ReadLine | src/tradestat_ingestor/scrapers/eidb/chapter_wise_all_commodities/parser.py:55-66 | the per-row method returns `LineOf` |
| ChapterWise.RouteStep | src/tradestat_ingestor/scrapers/eidb/chapter_wise_all_commodities/parser.py:56-68 | one more row changes what the loop has gathered exactly as that row's record, total flag and code direct |
| ChapterWise.RouteRows | src/tradestat_ingestor/scrapers/eidb/chapter_wise_all_commodities/parser.py:52-68 | the row loop gathers the non-total records in order, the last total record and the last record whose code equals the requested one |
| ChapterWise.ListedAreNotTotals | src/tradestat_ingestor/scrapers/eidb/chapter_wise_all_commodities/parser.py:60-64 | no listed record is a total: its commodity never names "total" and it is never total-shaped |
| ChapterWise.KeptIsNotTotal | src/tradestat_ingestor/scrapers/eidb/chapter_wise_all_commodities/parser.py:60-64 | a record that a row appends is neither total-shaped nor named "total" |
| ChapterWise.LastTotalWins | src/tradestat_ingestor/scrapers/eidb/chapter_wise_all_commodities/parser.py:60-62 | the last total row is the total that the loop leaves |
| ChapterWise.SpecificCode | src/tradestat_ingestor/scrapers/eidb/chapter_wise_all_commodities/parser.py:66-78 | for a specific code, exact_match_found holds exactly when some appended record has exactly that code; then the records are that single record, otherwise none |
| ChapterWise.AllCodes | src/tradestat_ingestor/scrapers/eidb/chapter_wise_all_commodities/parser.py:70-78 | for "all", every appended record is returned and the exact-match flag holds |
| ChapterWise.ParseChapterWiseResponse | src/tradestat_ingestor/scrapers/eidb/chapter_wise_all_commodities/parser.py:36-125 | a year that `int()` rejects raises ValueError; otherwise the records, total, record count and exact-match flag are those the routing gives, the warning is absent exactly when an exact match was found, and the fiscal year is "year-(year+1)" |
| ChapterWise.ParseChapterWise | src/tradestat_ingestor/scrapers/eidb/chapter_wise_all_commodities/parser.py:36-125 | the parse returns `ParseChapterWiseResponse` |
| ChapterWiseLib.LineOf | eidb/chapter_wise_all_commodities/lib/parser.py:95-126 | a row's fields are its cells read by the number reader; its code cell names "total" in any case, and its text names both "India" and "Total", exactly as the extractors test |
| ChapterWiseLib.CommodityOf | eidb/chapter_wise_all_commodities/lib/parser.py:95-114 | a row is a commodity exactly when it has at least 5 cells, an all-digit serial and no "total" in its lower-cased code cell; sno, hscode, commodity, value and share come from cells 0–4 and the growth from cell 5 when present |
| ChapterWiseLib.ExtractCommodities | eidb/chapter_wise_all_commodities/lib/parser.py:87-116 | the row loop returns the commodities of the first table |
| ChapterWiseLib.CommoditySound | eidb/chapter_wise_all_commodities/lib/parser.py:95-114 | every commodity comes from a row of at least 5 cells with that serial, code and name, whose code cell has no "total" and whose value cell reads to its value |
| ChapterWiseLib.CommodityComplete | eidb/chapter_wise_all_commodities/lib/parser.py:95-114 | every accepted row contributes its commodity |
| ChapterWiseLib.TotalOf | eidb/chapter_wise_all_commodities/lib/parser.py:126-132 | a row gives India's total exactly when its text names "India" and "Total" and it has at least 4 cells; the value is cell 3 and the growth cell 5 when present |
| ChapterWiseLib.ExtractIndiaTotal | eidb/chapter_wise_all_commodities/lib/parser.py:119-133 | the loop returns the first qualifying row's total |
| ChapterWiseLib.FirstTotalWins | eidb/chapter_wise_all_commodities/lib/parser.py:125-132 | the first qualifying row wins: later rows are never read |
| ChapterWiseLib.ParseChapterWiseHtml | eidb/chapter_wise_all_commodities/lib/parser.py:34-84 | a year that `int()` rejects makes the parse return None; otherwise the year, commodities and India's total are the extracted ones, and the quality block counts all records and those with a value and gives their completeness |
| ChapterWiseLib.ParseChapterWise | eidb/chapter_wise_all_commodities/lib/parser.py:34-84 | the parse returns `ParseChapterWiseHtml` |
| RegionWise.ValueUnit | src/tradestat_ingestor/scrapers/eidb/region_wise/parser.py:67 | the unit is "US $ Million" exactly for "usd", and "₹ Crore" for every other value type (with line 159) |
| RegionWise.ParseRow | src/tradestat_ingestor/scrapers/eidb/region_wise/parser.py:111-161 | a row gives a record exactly when it has at least 2 cells and its first cell is neither empty, nor a header word, nor a "region" cell in a row whose last cell names "%share"; the region is the first cell; 6 or more cells give both years' values, 4–5 give value, share and growth, 2–3 the value alone |
| RegionWise.RegionTrimmed | src/tradestat_ingestor/scrapers/eidb/region_wise/parser.py:127-138 | a parsed region is non-empty and starts and ends with a non-space character |
| RegionWise.TdTrimmed | src/tradestat_ingestor/scrapers/eidb/region_wise/parser.py:127 | every cell text read with strip=True is empty or starts and ends with a non-space character |
| RegionWise.LineOf | src/tradestat_ingestor/scrapers/eidb/region_wise/parser.py:55-62 | a row is read by `ParseRow`, and it is a total exactly when its record's lower-cased region contains "total" |
| RegionWise.RouteStep | src/tradestat_ingestor/scrapers/eidb/region_wise/parser.py:54-64 | one more row changes what the loop has gathered exactly as that row's record and total flag direct |
| RegionWise.ReadLine | src/tradestat_ingestor/scrapers/eidb/region_wise/parser.py:55-62 | the per-row method returns `LineOf` |
| RegionWise.RouteRows | src/tradestat_ingestor/scrapers/eidb/region_wise/parser.py:51-64 | the row loop gathers the non-total records in order and the last total record |
| RegionWise.ListedIffNotTotal | src/tradestat_ingestor/scrapers/eidb/region_wise/parser.py:58-64 | a listed region never names "total", and every parsed record whose region does not name "total" is listed |
| RegionWise.LastTotalWins | src/tradestat_ingestor/scrapers/eidb/region_wise/parser.py:60-62 | the last total row is the total that the loop leaves |
| RegionWise.ParseRegionWiseResponse | src/tradestat_ingestor/scrapers/eidb/region_wise/parser.py:36-108 | a year that `int()` rejects raises ValueError; otherwise the regions and total are those the routing gives, the record count is their number, the fiscal year is "year-(year+1)" and the unit follows the value type |
| RegionWise.ParseRegionWise | src/tradestat_ingestor/scrapers/eidb/region_wise/parser.py:36-108 | the parse returns `ParseRegionWiseResponse` |
| RegionWiseLib.LineOf | eidb/region_wise/lib/parser.py:52-76 | a row's fields are its cells read by the number reader; its country cell names "total" in any case, and its text names "Total", exactly as the extractors test |
| RegionWiseLib.CountryOf | eidb/region_wise/lib/parser.py:51-67 | a row is a country exactly when it has at least 4 cells, an all-digit serial and no "total" in its lower-cased country cell; sno, country, value and share come from cells 0–3 and the growth from cell 4 when present |
| RegionWiseLib.ExtractCountries | eidb/region_wise/lib/parser.py:45-68 | the row loop returns the countries of the first table |
| RegionWiseLib.CountrySound | eidb/region_wise/lib/parser.py:51-67 | every country comes from a row of at least 4 cells with that serial and name, whose country cell has no "total" and whose value and share cells read to its value and share |
| RegionWiseLib.CountryComplete | eidb/region_wise/lib/parser.py:51-67 | every accepted row contributes its country |
| RegionWiseLib.TotalOf | eidb/region_wise/lib/parser.py:75-82 | a row gives the total exactly when its text contains "Total" and it has at least 3 cells; the value is cell 2 and the growth cell 4 when present |
| RegionWiseLib.ExtractTotal | eidb/region_wise/lib/parser.py:71-83 | the loop returns the first qualifying row's total |
| RegionWiseLib.FirstTotalWins | eidb/region_wise/lib/parser.py:75-82 | the first qualifying row wins: later rows are never read |
| RegionWiseLib.ParseRegionWiseHtml | eidb/region_wise/lib/parser.py:12-42 | a year that `int()` rejects makes the parse return None; otherwise digit_level = len(hscode), the commodity is empty, and the countries, total and country count are the extracted ones |
| RegionWiseLib.ParseRegionWise | eidb/region_wise/lib/parser.py:12-37 | the parse returns `ParseRegionWiseHtml` |
| RegionWiseAllCommoditiesLib.LineOf | eidb/region_wise_all_commodities/lib/parser.py:46-71 | a row's fields are its cells read by the number reader; its code cell names "total" in any case, and its text names "Total", exactly as the extractors test |
| RegionWiseAllCommoditiesLib.CommodityOf | eidb/region_wise_all_commodities/lib/parser.py:45-62 | a row is a commodity exactly when it has at least 4 cells, an all-digit serial and no "total" in its lower-cased code cell; sno, hscode, commodity and value come from cells 0–3, the share from cell 4 and the growth from cell 5 when present |
| RegionWiseAllCommoditiesLib.ExtractCommodities | eidb/region_wise_all_commodities/lib/parser.py:39-63 | the row loop returns the commodities of the first table |
| RegionWiseAllCommoditiesLib.CommoditySound | eidb/region_wise_all_commodities/lib/parser.py:45-62 | every commodity comes from a row of at least 4 cells with that serial, code and name, whose code cell has no "total" and whose value cell reads to its value |
| RegionWiseAllCommoditiesLib.CommodityComplete | eidb/region_wise_all_commodities/lib/parser.py:45-62 | every accepted row contributes its commodity |
| RegionWiseAllCommoditiesLib.TotalOf | eidb/region_wise_all_commodities/lib/parser.py:70-74 | a row gives the total exactly when its text contains "Total" and it has at least 4 cells; the value is cell 3 |
| RegionWiseAllCommoditiesLib.ExtractTotal | eidb/region_wise_all_commodities/lib/parser.py:66-75 | the loop returns the first qualifying row's total |
| RegionWiseAllCommoditiesLib.FirstTotalWins | eidb/region_wise_all_commodities/lib/parser.py:70-74 | the first qualifying row wins: later rows are never read |
| RegionWiseAllCommoditiesLib.ParseRegionCommoditiesHtml | eidb/region_wise_all_commodities/lib/parser.py:12-36 | a year that `int()` rejects makes the parse return None; otherwise the commodities, total and commodity count are the extracted ones |
| RegionWiseAllCommoditiesLib.ParseRegionCommodities | eidb/region_wise_all_commodities/lib/parser.py:12-36 | the parse returns `ParseRegionCommoditiesHtml` |
| CountryWiseLib.ValueUnit | eidb/country_wise/lib/parser.py:46-110 | the unit is "US $ Million" exactly for "usd", and "₹ Crore" for every other value type |
| CountryWiseLib.ParseRow | eidb/country_wise/lib/parser.py:86-120 | a row gives a record exactly when it has at least 3 cells and a first cell that is neither empty nor a header word (s.no, sno, sl.no, #) in any case; the country and value come from cells 1–2, the share from cell 3 and the growth from cell 4 when present |
| CountryWiseLib.Serial | eidb/country_wise/lib/parser.py:98-102 | the serial is present exactly for an all-digit first cell, and is its integer value |
| CountryWiseLib.LineOf | eidb/country_wise/lib/parser.py:164-169 | a row is read by `ParseRow`, and it is a total exactly when its record's lower-cased country contains "total" |
| CountryWiseLib.ReadLine | eidb/country_wise/lib/parser.py:40-43 | the per-row method returns `LineOf` (with lines 164-167) |
| CountryWiseLib.ParseCountryWiseResponse | eidb/country_wise/lib/parser.py:22-83 | a year that `int()` rejects raises ValueError; otherwise the records are the parsed rows of the table body, in order, the record count is their number, and the fiscal year is "year-(year+1)" |
| CountryWiseLib.ParseCountryWise | eidb/country_wise/lib/parser.py:22-83 | the parse returns `ParseCountryWiseResponse` |
| CountryWiseLib.ParseRows | eidb/country_wise/lib/parser.py:38-44 | the row loop keeps every row that parses, in order |
| CountryWiseLib.KeepsEveryParsedRow | eidb/country_wise/lib/parser.py:39-94 | every body row of at least 3 cells whose first cell is neither empty nor a header word appears among the records |
| CountryWiseLib.RouteStep | eidb/country_wise/lib/parser.py:163-172 | one more row changes what the loop has gathered exactly as that row's record and total flag direct |
| CountryWiseLib.RouteRows | eidb/country_wise/lib/parser.py:159-172 | the row loop gathers the non-total records in order and the last total record |
| CountryWiseLib.RouteSplitsRecords | eidb/country_wise/lib/parser.py:166-172 | a record is listed exactly when it is parsed and its country does not name "total"; the total slot holds a parsed record |
| CountryWiseLib.KeptAreNonTotals | eidb/country_wise/lib/parser.py:168-172 | over flagged rows, the listed records are exactly the parsed records whose country does not name "total" |
| CountryWiseLib.TotalIsParsed | eidb/country_wise/lib/parser.py:168-170 | the total slot, when filled, holds one of the parsed records |
| CountryWiseLib.ParseAllCountriesTable | eidb/country_wise/lib/parser.py:143-213 | a year that `int()` rejects raises ValueError; otherwise the countries and total are those the routing gives, the country count is their number and the fiscal year is "year-(year+1)" |
| CountryWiseLib.ParseAllCountries | eidb/country_wise/lib/parser.py:143-213 | the parse returns `ParseAllCountriesTable` |
| Timeseries.HeadingRow | src/tradestat_ingestor/scrapers/eidb/commodity_x_country_timeseries/parser.py:81-83 | a row is the heading row exactly when it has at least 3 `th` cells, and its headings are those cells |
| Timeseries.YearOf | src/tradestat_ingestor/scrapers/eidb/commodity_x_country_timeseries/parser.py:84-88 | a heading gives a year exactly when it starts with a "dddd - dddd" range, and the year is the heading with its spaces removed |
| Timeseries.ExtractYears | src/tradestat_ingestor/scrapers/eidb/commodity_x_country_timeseries/parser.py:77-89 | the loop returns the years of the first heading row only |
| Timeseries.YearsSound | src/tradestat_ingestor/scrapers/eidb/commodity_x_country_timeseries/parser.py:81-89 | every year has no space and comes from a range heading of the first heading row |
| Timeseries.LabelOf | src/tradestat_ingestor/scrapers/eidb/commodity_x_country_timeseries/parser.py:96-121 | a label is the header-info row exactly when it names "Country:" or "HSCODE:"; each other label names its own phrase ("%Growth" only when "Values in" is absent), and an unlabelled row names none of the eight phrases |
| Timeseries.LineOf | src/tradestat_ingestor/scrapers/eidb/commodity_x_country_timeseries/parser.py:93-128 | a row of fewer than 3 cells carries no label; otherwise its label is read from cell 1 and its values are cells 2 onward, read by the number reader |
| Timeseries.Readings | src/tradestat_ingestor/scrapers/eidb/commodity_x_country_timeseries/parser.py:124-128 | one reading per cell, each the number reader's value of that cell |
| Timeseries.KeyFor | src/tradestat_ingestor/scrapers/eidb/commodity_x_country_timeseries/parser.py:103-121 | a "%Growth" row takes the first growth key whose base series is stored and whose own is not, in the order values, total commodity, total country, and no key when there is none; every other label names its fixed key |
| Timeseries.ReadSeries | src/tradestat_ingestor/scrapers/eidb/commodity_x_country_timeseries/parser.py:92-130 | the row loop returns the series table that the rows build |
| Timeseries.StoreRow | src/tradestat_ingestor/scrapers/eidb/commodity_x_country_timeseries/parser.py:99-130 | one row stores its values under its key, or changes nothing when it has none |
| Timeseries.GrowthNeedsBase | src/tradestat_ingestor/scrapers/eidb/commodity_x_country_timeseries/parser.py:108-113 | a growth series is only ever stored after its base series |
| Timeseries.FixedLastWins | src/tradestat_ingestor/scrapers/eidb/commodity_x_country_timeseries/parser.py:104-130 | a fixed key is present exactly when some row names it, and then it holds the values of the last such row |
| Timeseries.RecordFor | src/tradestat_ingestor/scrapers/eidb/commodity_x_country_timeseries/parser.py:134-141 | a year's record has that year and, for each stored series long enough, its value at that year's position, and no other field |
| Timeseries.Pivot | src/tradestat_ingestor/scrapers/eidb/commodity_x_country_timeseries/parser.py:133-141 | one record per year, in order |
| Timeseries.PivotYears | src/tradestat_ingestor/scrapers/eidb/commodity_x_country_timeseries/parser.py:133-141 | the loop returns `Pivot` |
| Timeseries.PivotAgrees | src/tradestat_ingestor/scrapers/eidb/commodity_x_country_timeseries/parser.py:137-139 | a year's record holds a series' value at its position exactly when the series reaches that far |
| Timeseries.HsLevel | src/tradestat_ingestor/scrapers/eidb/commodity_x_country_timeseries/parser.py:146 | the HS level is "0" for an empty code and otherwise the decimal length of the code |
| Timeseries.Summary | src/tradestat_ingestor/scrapers/eidb/commodity_x_country_timeseries/parser.py:198-205 | the summary of a key is its series, or empty when it was never stored |
| Timeseries.ParseCommodityCountryResponse | src/tradestat_ingestor/scrapers/eidb/commodity_x_country_timeseries/parser.py:49-210 | a year that `int()` rejects raises ValueError; otherwise the years, the series, the per-year records, their count, the HS level and the fiscal year are as the loops and `FiscalRange` give them |
| Timeseries.ParseCommodityCountry | src/tradestat_ingestor/scrapers/eidb/commodity_x_country_timeseries/parser.py:49-210 | the parse returns `ParseCommodityCountryResponse` |
| TimeseriesLib.EntryOf | eidb/commodity_x_country_timeseries/lib/parser.py:56-68 | a row gives an entry exactly when it has at least 2 cells and an all-digit first cell; the year is that number, the value cell 1, and the growth cell 2 when present |
| TimeseriesLib.ExtractTimeseries | eidb/commodity_x_country_timeseries/lib/parser.py:48-70 | the row loop returns the entries of the first table |
| TimeseriesLib.EntriesAreYearRows | eidb/commodity_x_country_timeseries/lib/parser.py:55-68 | every entry comes from a row of at least 2 cells whose first cell is its year |
| TimeseriesLib.YearRowsAreEntries | eidb/commodity_x_country_timeseries/lib/parser.py:55-68 | every row of at least 2 cells with an all-digit first cell contributes its entry |
| TimeseriesLib.ParseTimeseriesHtml | eidb/commodity_x_country_timeseries/lib/parser.py:20-45 | a from- or to-year that `int()` rejects makes the parse return None; otherwise both years, the entries and their count are the extracted ones |
| TimeseriesLib.ParseTimeseries | eidb/commodity_x_country_timeseries/lib/parser.py:20-45 | the parse returns `ParseTimeseriesHtml` |
| Consolidator.KeysOf | src/tradestat_ingestor/scrapers/eidb/commodity_wise_all_countries/consolidator.py:47-77 | the keys of a year list are its entries' years, in order |
| Consolidator.Consolidated.constructor | src/tradestat_ingestor/scrapers/eidb/commodity_wise_all_countries/consolidator.py:35-44 | a new document holds the HSN code, trade type, years and years count it is given |
| Consolidator.DescendingFits | src/tradestat_ingestor/scrapers/eidb/commodity_wise_all_countries/consolidator.py:41-49 | a strictly descending list drawn from a set of years is no longer than the set, so the years count bounds the years kept |
| Consolidator.ConsolidateYears | src/tradestat_ingestor/scrapers/eidb/commodity_wise_all_countries/consolidator.py:28-52 | empty input gives {}; otherwise the document has the HSN code and trade type, its years count is the number of input years, and "years" holds, newest first, exactly the years whose data is truthy, each with its own data |
| Consolidator.SelectYears | src/tradestat_ingestor/scrapers/eidb/commodity_wise_all_countries/consolidator.py:46-49 | the loop over the sorted years keeps, in order, exactly the years whose data is truthy, each with its own data |
| Consolidator.MergeIntoExtends | src/tradestat_ingestor/scrapers/eidb/commodity_wise_all_countries/consolidator.py:75-77 | merging another document only appends: the base's years stay first and unchanged |
| Consolidator.MergeIntoKeys | src/tradestat_ingestor/scrapers/eidb/commodity_wise_all_countries/consolidator.py:75-77 | after a merge a year is present exactly when it was in the base or in the merged document |
| Consolidator.MergeIntoUnique | src/tradestat_ingestor/scrapers/eidb/commodity_wise_all_countries/consolidator.py:76-77 | a merge never duplicates a year |
| Consolidator.MergeIntoFirstWins | src/tradestat_ingestor/scrapers/eidb/commodity_wise_all_countries/consolidator.py:76-77 | a year new to the base takes the data of its first occurrence in the merged document |
| Consolidator.MergeIntoPresent | src/tradestat_ingestor/scrapers/eidb/commodity_wise_all_countries/consolidator.py:76-77 | merging a document whose years are all present already changes nothing |
| Consolidator.MergeAllExtends | src/tradestat_ingestor/scrapers/eidb/commodity_wise_all_countries/consolidator.py:74-77 | merging several documents keeps the base's years first and unchanged |
| Consolidator.YearsOf | src/tradestat_ingestor/scrapers/eidb/commodity_wise_all_countries/consolidator.py:74-75 | the year lists of the documents, empty for a document that is absent |
| Consolidator.MergeAllStep | src/tradestat_ingestor/scrapers/eidb/commodity_wise_all_countries/consolidator.py:74-80 | merging one more document extends the merge of the previous ones by that document |
| Consolidator.SelfMerge | src/tradestat_ingestor/scrapers/eidb/commodity_wise_all_countries/consolidator.py:74-77 | merging the base, or the merged result itself, again changes nothing |
| Consolidator.MergeYears | src/tradestat_ingestor/scrapers/eidb/commodity_wise_all_countries/consolidator.py:75-77 | merging one document into the base in place appends its new years and leaves the years count alone |
| Consolidator.MergeConsolidatedFiles | src/tradestat_ingestor/scrapers/eidb/commodity_wise_all_countries/consolidator.py:67-83 | no documents give {}; one document is returned as it is; otherwise the first document is updated in place with the new years of the others, in order, and its years count becomes the number of its years; a first document that is an empty consolidation ({}) raises KeyError as soon as another document follows |
| ConsolidatorLib.ConsolidateYears | commodity_wise_all_countries/lib/consolidator.py:26-49 | empty input gives {}; otherwise the years included are all input years, newest first, the years count is their number, and "years" holds, newest first, exactly the years whose data is truthy, each with its own data |
| ConsolidatorLib.ResultDetermined | commodity_wise_all_countries/lib/consolidator.py:30-46 | the document is fully determined by its inputs: any two documents meeting that description are equal |
| ScrapeCli.YearStrings | scrape_cli.py:58-59 | a range gives hi - lo + 1 year strings, from hi down to lo, and none when lo > hi |
| ScrapeCli.PartYears | scrape_cli.py:54-61 | a part without '-' is kept as it is, stripped; a part with '-' must split into exactly two integers and then gives the years from the end down to the start; anything else raises ValueError |
| ScrapeCli.ExpandStep | scrape_cli.py:53-61 | each further part appends its years, and a failure stops the expansion |
| ScrapeCli.ExpandFailureSticks | scrape_cli.py:53-61 | once a part fails, the whole expansion fails with that error |
| ScrapeCli.ParseYears | scrape_cli.py:46-66 | --all-years gives the available years; otherwise --years expands its parts in order; otherwise --year gives that one year; otherwise the available years |
| ScrapeCli.ExpandPart | scrape_cli.py:54-61 | the loop body on one part returns `PartYears` |
| ScrapeCli.CountDown | scrape_cli.py:58-59 | the countdown loop returns `YearStrings` |
| ScrapeCli.YearStringsReadBack | scrape_cli.py:58-59 | each year string of a range reads back, through `int()`, as its year, and none is below the start |
| ScrapeCli.Stripped | scrape_cli.py:53-54 | each part stripped, in order |
| ScrapeCli.PlainPartsVerbatim | scrape_cli.py:53-61 | parts without '-' are returned stripped, one year per part, in order |
| ScrapeCli.StrippedSnoc | scrape_cli.py:53-54 | stripping a list with one more part appends that part stripped |
| ScrapeCli.ExpandPartsCount | scrape_cli.py:53-62 | a successful expansion has every part succeed and has as many years as the parts give together |
| ScrapeCli.FileNameReadsBack | scrape_cli.py:33-43 | the default path is "src/data/raw/FEATURE/TYPE/HSN_" followed by the year, or "consolidated" when there is none, and ".json" |
| ScrapeCli.DistinctYearsDistinctFiles | scrape_cli.py:38-41 | two different years, neither "consolidated", never share a default file |
| CountryLookup.NameOf | scrape_country_wise.py:84-85 | a code has a name exactly when the table lists it, and that is the name listed with it |
| CountryLookup.Cascade | scrape_country_wise.py:83-120 | after the aliases: a listed code wins with its own name; then the first name equal to the search ignoring case, then ignoring spaces too, then the one name containing it; nothing is found exactly when every step fails and the partial matches are not exactly one; whatever is found is a table entry |
| CountryLookup.FindCountry | scrape_country_wise.py:43-81 | the trimmed, lower-cased search is tried as an alias first, and an alias whose code the table lacks raises KeyError; otherwise the cascade decides; whatever is found is a table entry |
| CountryLookup.FindCountryCode | scrape_country_wise.py:36-120 | the lookup loops return `FindCountry` (the package copy at eidb/country_wise/scrape_country_wise.py:70-116 runs the same cascade) |
| CountryLookup.FirstExactNameWins | scrape_country_wise.py:87-92 | when no code matches, the first entry whose name equals the search ignoring case is found |
| CountryLookup.AmbiguousFindsNothing | scrape_country_wise.py:103-118 | when only partial matches remain and two entries contain the search, nothing is found |
| CountryLookup.IndiaOnlyInRoot | scrape_country_wise.py:66-81 | "india" is an alias of code 187 in the root script and not in the package copy, where it goes through the cascade instead |
| RegionLookup.EqualityRedundant | scrape_region_wise.py:70 | the equality test of the name match is subsumed by the containment test |
| RegionLookup.FindRegion | scrape_region_wise.py:41-73 | the trimmed, lower-cased search is tried as an alias first (KeyError for an alias whose code the table lacks), then as a region code, then the first region whose lower-cased name contains it; whatever is found is a table entry |
| RegionLookup.FindRegionCode | scrape_region_wise.py:35-73 | the lookup loop returns `FindRegion` |
| RegionLookup.FirstRegionWins | scrape_region_wise.py:66-71 | when no alias or code matches, the first region whose name contains the search is found |
| RegionLookup.NotFound | scrape_region_wise.py:58-73 | nothing is found exactly when the search is no alias, no code, and no region other than "all" has a name containing it |
| SafeNames.KeepChars | src/tradestat_ingestor/scrapers/eidb/commodity_x_country_timeseries/storage.py:17 | dropping every character that is not a word character, whitespace or '-' never lengthens the name, keeps only such characters, and leaves a name made of them unchanged |
| SafeNames.CollapseSpaces | src/tradestat_ingestor/scrapers/eidb/commodity_x_country_timeseries/storage.py:18 | replacing each run of whitespace with '_' leaves no whitespace, introduces nothing but '_', and leaves a name without whitespace unchanged |
| SafeNames.SanitizeFilename | src/tradestat_ingestor/scrapers/eidb/commodity_x_country_timeseries/storage.py:14-19 | a sanitized name has no whitespace and consists of word characters and '-' only |
| SafeNames.SafeKeptByFirstSteps | src/tradestat_ingestor/scrapers/eidb/commodity_x_country_timeseries/storage.py:17-18 | a name made only of word characters and '-' passes both substitutions unchanged |
| SafeNames.SanitizeIdempotent | src/tradestat_ingestor/scrapers/eidb/commodity_x_country_timeseries/storage.py:14-19 | sanitizing a sanitized name changes nothing |
| SafeNames.WordOnly | eidb/commodity_x_country_timeseries/lib/storage.py:23 | every non-word character is replaced by '_', one for one |
| SafeNames.WordOnlyUpper | eidb/commodity_x_country_timeseries/lib/storage.py:23 | the safe name has the name's length, consists of word characters only, and keeps each word character upper-cased (the same rule at eidb/region_wise_all_commodities/lib/storage.py:13) |
| SafeNames.WordOnlyUpperIdempotent | eidb/commodity_x_country_timeseries/lib/storage.py:23 | the safe name has no whitespace, and making it safe again changes nothing |
| StorageCommon.Document.constructor | meidb/commodity_wise/lib/storage.py:21 | a document holds the fields it is given |
| StorageCommon.Document.SetStorage | meidb/commodity_wise/lib/storage.py:24 | the caller's document gains, or replaces, exactly its "storage" entry |
| StorageCommon.MonthAbbr | meidb/commodity_wise/lib/storage.py:9-16 | months 1–12 give their three-letter abbreviation, January first, and any other month its decimal text |
| StorageCommon.MonthShort | src/tradestat_ingestor/scrapers/meidb/commodity_wise_all_countries/storage.py:13-37 | months 1–12 give their abbreviation, and any other month its decimal text zero-filled to two characters |
| StorageCommon.AbbreviationsDistinct | meidb/commodity_wise/lib/storage.py:9-10 | the twelve abbreviations are three characters starting with a lower-case letter, and pairwise different |
| StorageCommon.MonthAbbrInjective | meidb/commodity_wise/lib/storage.py:9-16 | different months are written differently in file names |
| OsPath.Join | meidb/commodity_wise/lib/storage.py:15-18 | an absolute second part replaces the first; otherwise the parts are joined with one '/', none being added after an empty or '/'-ended first part |
| OsPath.JoinDistinct | meidb/commodity_wise/lib/storage.py:18 | different relative file names in one directory give different paths |
| ChapterWiseScraper.HsLevel | src/tradestat_ingestor/scrapers/eidb/chapter_wise_all_commodities/scraper.py:31-43 | the level sent is always one of "2", "4", "6", "8" |
| ChapterWiseScraper.HsLevelCovers | src/tradestat_ingestor/scrapers/eidb/chapter_wise_all_commodities/scraper.py:35-43 | for a code other than "all", the level is the smallest even length of at least 2 that holds the code, up to 8 |
| ChapterWiseScraper.HsLevelMonotone | src/tradestat_ingestor/scrapers/eidb/chapter_wise_all_commodities/scraper.py:35-43 | a longer code never gets a smaller level |
| ChapterWiseScraper.ChapterOf | src/tradestat_ingestor/scrapers/eidb/chapter_wise_all_commodities/scraper.py:46-50 | "all" gives "all", and any other code a two-character chapter |
| ChapterWiseScraper.ChapterOfDigits | src/tradestat_ingestor/scrapers/eidb/chapter_wise_all_commodities/scraper.py:50 | a digit code's chapter is digits: its first two digits, or the one digit zero-filled |
| ChapterWiseScraper.ValueCode | src/tradestat_ingestor/scrapers/eidb/chapter_wise_all_commodities/scraper.py:13-76 | "inr" is sent as "1", "qty" as "3", and "usd" or any other value type as "2" |
| ChapterWiseScraper.FieldNamesFor | src/tradestat_ingestor/scrapers/eidb/chapter_wise_all_commodities/scraper.py:83-102 | "export" uses the export field names, and any other trade type the import ones |
| ChapterWiseScraper.BuildPayload | src/tradestat_ingestor/scrapers/eidb/chapter_wise_all_commodities/scraper.py:75-104 | the form holds the token, the level, the year, the value code and the chapter under the direction's names, and the full code as "hscode" exactly when the level is above 2 and the code is not "all" |
| ChapterWiseScraper.HscodeSentIffLonger | src/tradestat_ingestor/scrapers/eidb/chapter_wise_all_commodities/scraper.py:92-104 | "hscode" is sent exactly when the code is not "all" and is longer than two characters |
| RegionCommoditiesScraper.RegionName | src/tradestat_ingestor/scrapers/eidb/region_wise_all_commodities/scraper.py:133-135 | a listed code gives its region name, and any other code "Unknown (CODE)" |
| RegionCommoditiesScraper.MainRegions | src/tradestat_ingestor/scrapers/eidb/region_wise_all_commodities/scraper.py:138-140 | the main regions are exactly the regions with one-character codes |
| RegionCommoditiesScraper.SubRegions | src/tradestat_ingestor/scrapers/eidb/region_wise_all_commodities/scraper.py:143-146 | the sub-regions of a main region are exactly the regions with longer codes that start with its code |
| RegionCommoditiesScraper.MainAndSubDisjoint | src/tradestat_ingestor/scrapers/eidb/region_wise_all_commodities/scraper.py:138-146 | no region is both main and a sub-region |
| RegionCommoditiesScraper.SubRegionOfOneMain | src/tradestat_ingestor/scrapers/eidb/region_wise_all_commodities/scraper.py:138-146 | a sub-region belongs to at most one main region |
| RegionCommoditiesScraper.RegionsGrouped | src/tradestat_ingestor/scrapers/eidb/region_wise_all_commodities/scraper.py:23-64 | every code of the region table has one character, or starts with the one-character code of a main region in the table |
| RegionCommoditiesScraper.EveryRegionGrouped | src/tradestat_ingestor/scrapers/eidb/region_wise_all_commodities/scraper.py:138-146 | over such a table, every region is a main region or a sub-region of the main region its code starts with |
| RegionCommoditiesScraper.NormalisedLevel | src/tradestat_ingestor/scrapers/eidb/region_wise_all_commodities/scraper.py:102-104 | a level outside "2", "4", "6", "8" is replaced by "2", and a valid one is kept |
| RegionCommoditiesScraper.NormalisedLevelIdempotent | src/tradestat_ingestor/scrapers/eidb/region_wise_all_commodities/scraper.py:102-104 | normalising a level twice is normalising it once |
| RegionCommoditiesScraper.NamesFor | src/tradestat_ingestor/scrapers/eidb/region_wise_all_commodities/scraper.py:106-125 | "export" uses the export field names, and any other trade type the import ones |
| RegionCommoditiesScraper.Payload | src/tradestat_ingestor/scrapers/eidb/region_wise_all_commodities/scraper.py:100-125 | the form holds exactly the token, the year, the region code, the normalised level and the value code under the direction's names |
| RegionWiseCli.Years | scrape_region_wise_all_commodities.py:117-124 | --all-years gives the available years, --years its list, --year that one year, and nothing at all "2024"; never an empty list |
| RegionWiseCli.FiscalYear | scrape_region_wise_all_commodities.py:158 | a year that `int()` rejects raises ValueError; otherwise the fiscal year is "year-(year+1)" |
| RegionWiseCli.SafeRegion | scrape_region_wise_all_commodities.py:178 | the safe region name has no space, '&', '(', ')' or '-', and every character of it comes from the name or from the replacements "_" and "and" |
| RegionWiseCli.SafeRegionKeepsSafe | scrape_region_wise_all_commodities.py:178 | a name without those characters is kept as it is |
| RegionWiseCli.SafeRegionIdempotent | scrape_region_wise_all_commodities.py:178 | making a safe name safe again changes nothing |
| RegionWiseCli.FileNamesDistinct | scrape_region_wise_all_commodities.py:179-182 | for one region, fiscal year and value type, different HS codes are written to different files |
| RegionWiseCli.OutputPath | scrape_region_wise_all_commodities.py:126-184 | a year that `int()` rejects raises ValueError before any file is named; otherwise the path joins the output directory, the trade type, "level_" with the code's level, and the file name of the stripped region and code |
| RegionWiseCli.FileNameRelative | scrape_region_wise_all_commodities.py:179-182 | a file name is one plain path part, with no '/' |
| RegionWiseCli.LevelDirectoryPlain | scrape_region_wise_all_commodities.py:184 | the level directory is one plain path part |
| RegionWiseCli.OutputPathLayout | scrape_region_wise_all_commodities.py:184 | under an output directory that does not end in '/', the path is "OUTPUT/TYPE/level_N/FILE" |
| PrincipalScraper.ValueCode | src/tradestat_ingestor/scrapers/meidb/principal_commodity_wise_all_hscode/scraper.py:21 | "usd" (in any case) is sent as "1", "quantity" as "2", "inr" as "3", and any other value type as "1" (with line 144) |
| PrincipalScraper.YearTypeCode | src/tradestat_ingestor/scrapers/meidb/principal_commodity_wise_all_hscode/scraper.py:22 | the year type is sent as "2" exactly for "calendar" in any case, and as "1" otherwise (with line 145) |
| PrincipalScraper.CommodityName | src/tradestat_ingestor/scrapers/meidb/principal_commodity_wise_all_hscode/scraper.py:82-84 | a listed code, in any case, gives its commodity name, and any other code itself |
| PrincipalScraper.Token | src/tradestat_ingestor/scrapers/meidb/principal_commodity_wise_all_hscode/scraper.py:140 | the token is the state's "_token" entry, or empty when there is no state or no such entry |
| PrincipalScraper.NamesFor | src/tradestat_ingestor/scrapers/meidb/principal_commodity_wise_all_hscode/scraper.py:135-156 | exports use the "p"-prefixed field names and imports the "imp"-prefixed ones |
| PrincipalScraper.BuildRequest | src/tradestat_ingestor/scrapers/meidb/principal_commodity_wise_all_hscode/scraper.py:115-156 | a request is built exactly when the month is 1–12, the upper-cased code is a principal commodity and the trade type is export or import in any case; it goes to that direction's path with exactly the token, month, year, upper-cased code, value code and year-type code (with lines 10-11) |
| PrincipalScraper.Form | src/tradestat_ingestor/scrapers/meidb/principal_commodity_wise_all_hscode/scraper.py:139-156 | the form holds exactly those six fields under the direction's names |
| PrincipalScraper.SentCommodityIsNamed | src/tradestat_ingestor/scrapers/meidb/principal_commodity_wise_all_hscode/scraper.py:121-158 | the code that is sent always has a commodity name in the table |
| PrincipalScraper.CodeCaseIgnored | src/tradestat_ingestor/scrapers/meidb/principal_commodity_wise_all_hscode/scraper.py:121 | the request does not depend on the case of the commodity code |
| MeidbCommodityScraper.ValueCode | src/tradestat_ingestor/scrapers/meidb/commodity_wise/scraper.py:84-89 | "usd" (in any case) is sent as "1", "inr" as "2", "quantity" as "3", and any other value type as "1" |
| MeidbCommodityScraper.StateToken | src/tradestat_ingestor/scrapers/meidb/commodity_wise/scraper.py:105 | no state raises TypeError, a state without "_token" raises KeyError, and otherwise the token is that entry |
| MeidbCommodityScraper.FieldsFor | src/tradestat_ingestor/scrapers/meidb/commodity_wise/scraper.py:16-29 | exports use the "dd"-prefixed field names and imports the "imdd"-prefixed ones |
| MeidbCommodityScraper.SpecificRequest | src/tradestat_ingestor/scrapers/meidb/commodity_wise/scraper.py:68-113 | a call with a month outside 1–12, a trade type other than export or import, or "quantity" for a code that is not 8 digits returns None before any request; otherwise a missing state or token raises; otherwise the request goes to that direction's path with the specific-code form |
| MeidbCommodityScraper.SpecificForm | src/tradestat_ingestor/scrapers/meidb/commodity_wise/scraper.py:104-113 | the specific form holds exactly the token, month, year, "comlev" = "specific", the code's length as the level, the code as "comval", the value code and the year-type code |
| MeidbCommodityScraper.CommonForm | src/tradestat_ingestor/scrapers/meidb/commodity_wise/scraper.py:202-257 | the whole-level form holds exactly the token, month, year, "comlev", level, value code and year-type code |
| MeidbCommodityScraper.AllRequest | src/tradestat_ingestor/scrapers/meidb/commodity_wise/scraper.py:161-210 | a call with a level outside 2, 4, 6, 8, a month outside 1–12, "quantity" below level 8, or a trade type other than export or import returns None before any request; otherwise a missing state or token raises; otherwise the request goes to that direction's path with the whole-level form |
| MeidbCommodityScraper.CommonFormHasNoCode | src/tradestat_ingestor/scrapers/meidb/commodity_wise/scraper.py:202-210 | the whole-level form sends no "comval" |
| MeidbCommodityScraper.QuantityOnlyAtEight | src/tradestat_ingestor/scrapers/meidb/commodity_wise/scraper.py:99-101 | a quantity request is only ever built for an 8-digit code or level 8 (with lines 171-173) |
| MeidbCommodityScraper.LegacyRequest | src/tradestat_ingestor/scrapers/meidb/commodity_wise/scraper.py:230-263 | the older builder posts to the portal URL of the direction ("export" exactly, anything else import), with the whole-level fields, and "comval" exactly when "comlev" is "specific" and a code is given |
| MeidbCommodityScraper.LegacyAgreesWithSpecific | src/tradestat_ingestor/scrapers/meidb/commodity_wise/scraper.py:249-259 | for an accepted export code, the older builder's form equals the specific request's form, and its URL is the portal followed by the specific request's path (with lines 104-113) |
| MeidbAllCountriesScraper.FieldsFor | src/tradestat_ingestor/scrapers/meidb/commodity_wise_all_countries/scraper.py:15-29 | exports use the "cwacex"-prefixed field names and imports the "cwacim"-prefixed ones |
| MeidbAllCountriesScraper.BuildRequest | src/tradestat_ingestor/scrapers/meidb/commodity_wise_all_countries/scraper.py:68-111 | a call with a month outside 1–12, a trade type other than export or import, or "quantity" for a code that is not 8 digits returns None before any request; otherwise a missing state or token raises; otherwise the request goes to that direction's path with the all-countries form |
| MeidbAllCountriesScraper.Form | src/tradestat_ingestor/scrapers/meidb/commodity_wise_all_countries/scraper.py:104-111 | the form holds exactly the token, code, month, year, value code and year-type code under the direction's names |
| MeidbAllCountriesScraper.SameAcceptanceAsSpecific | src/tradestat_ingestor/scrapers/meidb/commodity_wise_all_countries/scraper.py:68-111 | the all-countries request is refused, fails or is built exactly when the commodity-wise specific request is, and then both send the same code, month, year, value code and year-type code (src/tradestat_ingestor/scrapers/meidb/commodity_wise/scraper.py:68-113) |
| EidbCommodityScraper.ValueCode | src/tradestat_ingestor/scrapers/eidb/commodity_wise/scraper.py:48-54 | "usd" (in any case) is sent as "2", "inr" as "1", "quantity" as "3", and any other value type as "2" (the same table at commodity_wise/lib/scraper.py:47-48) |
| EidbCommodityScraper.FieldsFor | src/tradestat_ingestor/scrapers/eidb/commodity_wise/scraper.py:65-83 | exports use the field names ending in "Cwe" and imports those ending in "Cwi" |
| EidbCommodityScraper.SpecificForm | src/tradestat_ingestor/scrapers/eidb/commodity_wise/scraper.py:65-83 | the specific form holds exactly the token, year, "commodityType" = "specific" (and "comType" = "specific" for exports), the code's length as the level, the code and the value code |
| EidbCommodityScraper.AllForm | src/tradestat_ingestor/scrapers/eidb/commodity_wise/scraper.py:153-168 | the whole-level form holds exactly the token, year, the direction's mode field set to "all" ("comType" for exports, "commodityType" for imports), the level and the value code |
| EidbCommodityScraper.ModeFieldTellsForm | src/tradestat_ingestor/scrapers/eidb/commodity_wise/scraper.py:69-70 | the direction's mode field reads "specific" in the specific form and "all" in the whole-level form, which sends no code (with lines 157, 165) |
| EidbCommodityScraper.SpecificRequest | src/tradestat_ingestor/scrapers/eidb/commodity_wise/scraper.py:39-83 | a trade type other than export or import, or "quantity" for a code that is not 8 digits, returns None before any request; otherwise a missing state or token raises; otherwise the request goes to that direction's path with the specific form (the library copy at commodity_wise/lib/scraper.py:38-74 does the same) |
| EidbCommodityScraper.AllRequest | src/tradestat_ingestor/scrapers/eidb/commodity_wise/scraper.py:125-168 | a level outside 2, 4, 6, 8, "quantity" below level 8, or a trade type other than export or import returns None before any request; otherwise a missing state or token raises; otherwise the request goes to that direction's path with the whole-level form (the library copy at commodity_wise/lib/scraper.py:100-134 does the same) |
| EidbCommodityScraper.QuantityOnlyAtEight | src/tradestat_ingestor/scrapers/eidb/commodity_wise/scraper.py:125-132 | a quantity request is only ever built for an 8-digit code or level 8, and no request at all for a level outside 2, 4, 6, 8 (with lines 57-59) |
| EidbCommodityScraper.LevelIsCodeLength | src/tradestat_ingestor/scrapers/eidb/commodity_wise/scraper.py:71-80 | the level sent with a specific code reads back as the code's length |
| CountryWiseLibStorage.SafeCountryName | eidb/country_wise/lib/storage.py:36 | the safe name holds no space, '.' or "'", and every character of it is either from the name or '_' |
| CountryWiseLibStorage.SafeCountryNameIdempotent | eidb/country_wise/lib/storage.py:36 | making a country name safe twice gives the same name as making it safe once |
| CountryWiseLibStorage.OutputPath | eidb/country_wise/lib/storage.py:21-40 | the path fails exactly when `int(year)` rejects the year, and then with ValueError, whatever the country code |
| CountryWiseLibStorage.OutputPathLayout | eidb/country_wise/lib/storage.py:30-38 | "all" goes to base/trade/all_countries_{fiscal year}_{value}.json and any other code to base/trade/by_country/{safe name}_{fiscal year}_{value}.json |
| CountryWiseLibStorage.CountryFileNeverAllFile | eidb/country_wise/lib/storage.py:32-38 | a single country's file is never the all-countries file of the same year and value type |
| MeidbAllCountriesStorage.FileNamePlain | src/tradestat_ingestor/scrapers/meidb/commodity_wise_all_countries/storage.py:36-43 | for a code that does not start with '/', the file name is not empty and neither starts nor ends with '/', so joining it below the directory appends it |
| MeidbAllCountriesStorage.OutputPathLayout | src/tradestat_ingestor/scrapers/meidb/commodity_wise_all_countries/storage.py:20-47 | the path is base/meidb/commodity_wise_all_countries/{trade}/level_{code length}/{file name} |
| MeidbAllCountriesStorage.CalendarFileSeparate | src/tradestat_ingestor/scrapers/meidb/commodity_wise_all_countries/storage.py:40-45 | the calendar-year file is the financial-year file with "_cal" before ".json", so the two paths always differ |
| MeidbCommodityLibStorage.FileNamePlain | meidb/commodity_wise/lib/storage.py:9-17 | for a code that does not start with '/', the file name is not empty and neither starts nor ends with '/', so joining it below the directory appends it |
| MeidbCommodityLibStorage.OutputPathLayout | meidb/commodity_wise/lib/storage.py:13-18 | the path is base/{lower-cased trade}/level_{code length}/{code}_{month}_{year}_{value}.json |
| MeidbCommodityLibStorage.FileNamesSeparate | meidb/commodity_wise/lib/storage.py:9-17 | two different months give two different file names, whether the month has an abbreviation or falls back to its number |
| MeidbCommodityLibStorage.MonthsSeparate | meidb/commodity_wise/lib/storage.py:13-18 | two different months of the same code, year and value type are written to different paths |
| MeidbCommodityLibStorage.SaveData | meidb/commodity_wise/lib/storage.py:21-28 | returns the layout path and changes the document only by setting its "storage" entry to the save time and that path |
| PrincipalStorage.FileNamePlain | src/tradestat_ingestor/scrapers/meidb/principal_commodity_wise_all_hscode/storage.py:11-34 | for a code that does not start with '/', the file name is not empty and neither starts nor ends with '/', so joining it below the directory appends it |
| PrincipalStorage.OutputPathLayout | src/tradestat_ingestor/scrapers/meidb/principal_commodity_wise_all_hscode/storage.py:17-35 | the path is base/meidb/principal_commodity_wise_all_hscode/{lower-cased trade}/{file name} |
| PrincipalStorage.FileNamesSeparate | src/tradestat_ingestor/scrapers/meidb/principal_commodity_wise_all_hscode/storage.py:11-34 | two different months give two different file names |
| PrincipalStorage.MonthsSeparate | src/tradestat_ingestor/scrapers/meidb/principal_commodity_wise_all_hscode/storage.py:17-35 | two different months of the same commodity, year and value type are written to different paths |
| PrincipalStorage.CodeCaseIgnored | src/tradestat_ingestor/scrapers/meidb/principal_commodity_wise_all_hscode/storage.py:34 | two commodity codes that differ only in letter case are written to the same path |
| PrincipalStorage.SavePrincipalCommodityData | src/tradestat_ingestor/scrapers/meidb/principal_commodity_wise_all_hscode/storage.py:62-75 | returns the layout path and changes the document only by setting its "storage" entry to the save time and that path |
| RegionLibStorage.FileNamePlain | eidb/region_wise_all_commodities/lib/storage.py:13-14 | for a code that does not start with '/', the file name is not empty and neither starts nor ends with '/', so joining it below the directory appends it |
| RegionLibStorage.OutputPathLayout | eidb/region_wise_all_commodities/lib/storage.py:11-15 | the path is base/{lower-cased trade}/level_{digit level}/{code}_{safe name}_{year}_{value}.json |
| RegionLibStorage.YearsSeparate | eidb/region_wise_all_commodities/lib/storage.py:11-15 | two different years of the same country, level and value type are written to different paths |
| RegionLibStorage.SaveData | eidb/region_wise_all_commodities/lib/storage.py:18-25 | returns the layout path and changes the document only by setting its "storage" entry to the save time and that path |
| RegionStorage.FileNamePlain | src/tradestat_ingestor/scrapers/eidb/region_wise_all_commodities/storage.py:14-57 | for a code that does not start with '/', the file name is not empty and neither starts nor ends with '/', so joining it below the directory appends it |
| RegionStorage.OutputPathLayout | src/tradestat_ingestor/scrapers/eidb/region_wise_all_commodities/storage.py:47-59 | the path is base/eidb/region_wise_all_commodities/{lower-cased trade}/level_{digit level}/{file name} |
| RegionStorage.YearsSeparate | src/tradestat_ingestor/scrapers/eidb/region_wise_all_commodities/storage.py:47-59 | two different years of the same country, level and value type are written to different paths |
| RegionStorage.SaveRegionWiseAllCommoditiesData | src/tradestat_ingestor/scrapers/eidb/region_wise_all_commodities/storage.py:88-109 | returns the layout path and changes the document only by setting its "storage" entry to the save time, that path, "JSON" and "UTF-8" |
| TimeseriesLibStorage.FileName | eidb/commodity_x_country_timeseries/lib/storage.py:23-24 | the file name is not empty and neither starts nor ends with '/', so joining it below the directory appends it |
| TimeseriesLibStorage.OutputPathLayout | eidb/commodity_x_country_timeseries/lib/storage.py:11-25 | the path is base/{lower-cased trade}/{file name}, and the country's safe name keeps the name's length |
| TimeseriesLibStorage.ValueTypesSeparate | eidb/commodity_x_country_timeseries/lib/storage.py:24 | two different value types of the same series are written to different paths |
| TimeseriesLibStorage.SaveData | eidb/commodity_x_country_timeseries/lib/storage.py:28-53 | returns the layout path and changes the document only by setting its "storage" entry to the save time and that path |
| TimeseriesStorage.FileName | src/tradestat_ingestor/scrapers/eidb/commodity_x_country_timeseries/storage.py:56-58 | the file name is not empty and neither starts nor ends with '/', so joining it below the directory appends it |
| TimeseriesStorage.OutputPathLayout | src/tradestat_ingestor/scrapers/eidb/commodity_x_country_timeseries/storage.py:22-60 | the path is base/eidb/commodity_x_country_timeseries/{lower-cased trade}/{file name}, and the sanitized country name holds no whitespace |
| TimeseriesStorage.ValueTypesSeparate | src/tradestat_ingestor/scrapers/eidb/commodity_x_country_timeseries/storage.py:58 | two value types give different paths exactly when they differ after lower-casing |
| TimeseriesStorage.SaveTimeseriesData | src/tradestat_ingestor/scrapers/eidb/commodity_x_country_timeseries/storage.py:91-112 | returns the layout path and changes the document only by setting its "storage" entry to the save time, that path, "JSON" and "UTF-8" |

## Left out

- PyNum.ParseInt: Python's `int()` is modelled for ASCII digits only; Python also accepts underscores between digits ("2_024") and non-ASCII decimal digits, and the regex `\d` in CommodityWise.YearColumnsOf and Timeseries.YearOf matches Unicode digits. Such texts are treated as not numbers here, which carries through FiscalRange, FiscalYear, PartYears and every contract about a year that `int()` rejects.
- CoreParser.ToIntRejectsPoint: the contract covers text whose cleaned form contains '.'; it does not also cover a '.' that `_clean_text` would remove, because no such '.' exists and stating it on the raw text needs a character-preservation lemma for whitespace splitting that was not proved.
- HTTP: the session bootstrap and every `session.post` are left out, because they are network clients. The model builds the form a scraper would post, and stops there.
- HTML parsing: BeautifulSoup traversal and `get_text` are left out. A table is modelled as rows of already-extracted cell texts, with each row's text.
- Regular expressions: `\w` and `\s` are taken as ASCII word characters and the whitespace characters Python's `str.split` uses. Unicode word characters are not modelled.
- Regular expressions: the report-date, commodity-info and "Data available" extraction are left out, because they depend on a regex engine. Only their defaults are kept, where a record depends on them.
- Floating point: `float()` is modelled as an exact decimal reader into `real`. It accepts a sign, digits and one optional '.', and not exponents, "inf", "nan" or underscores. Differences and percentages are exact reals.
- Floating point: `round(..., 2)` is left out. Every contract is about the unrounded value, and the drift ladder runs on the unrounded percent as the source does.
- Checksums and JSON: MD5 and JSON serialisation are left out. The checksum is a deterministic function supplied as a parameter.
- Time: timestamps, durations and `datetime.now()` are left out. A save takes its time stamp as a parameter.
- Metadata: constant metadata and provenance literals are left out, including the value-unit labels, some of which are mis-encoded in the library copies.
- File I/O: reading and writing files, `os.makedirs` and `open` are left out. The version history is an in-memory map, where `None` means that no history file exists yet. Each save method returns its path and updates the document.
- File I/O: the MEIDB all-countries save, its `try`/`except`, and `save_json`'s absolute-path logging are left out.
- File I/O: the trivial fixed-format storage modules of the chapter-wise, region-wise and commodity-wise reports are not part of this model.
- Text case and digits: `lower()`, `upper()` and `isdigit()` are modelled for ASCII only.
- Command line: argparse and typer `main` functions, `list_regions`' printing, and all logging are left out, because they are I/O.
- Lookup tables: the COUNTRIES and REGIONS tables come from configuration modules that are not part of this model, so they are parameters. The package's country alias table is the root script's table minus its "india" entry.
- Python dictionaries are modelled by ordered sequences of (key, value) pairs wherever insertion order shows in the output, and by maps elsewhere.
- Change detection: added, removed and modified are modelled as sets, because the source builds them with `list(set(...))`, whose order is hash order.
- Paths: `pathlib` joins are modelled as `os.path.join`. The storage-layout lemmas assume a base directory without a trailing '/', a plain trade type, and a code that does not start with '/'. The source does not check these.
- Concurrency: the thread pool, job queues, batch managers and the git wrapper are left out.
