# sia.ch member-directory scraper, modelled in Dafny

This project models the core of a scraper for the member directory of
www.sia.ch. The scraper walks a paginated listing. For each listing row it
reads the general columns, fetches the member's detail page, parses the detail
table into sections, and writes every record to `<member_type>_members.json`.
It keeps run-wide counters and timings as it goes.

The repository has two scrapers, and both are modelled:

- **scrapper.js**, the multi-worker controller. `scrape` truncates the output
  file, then calls `scrapePage` while the returned URL is truthy. `scrapePage`
  does the following:
  - fetches a listing page;
  - on the run's first page, reads the entry count with `/\d+'?\d+/` and
    removes the apostrophe;
  - sets `pages.total` to a ceiling division;
  - chooses the next URL;
  - splits the rows over `NUMBER_OF_WORKERS` forked workers;
  - collects their messages until exactly `rows_count` records are in;
  - sorts the records by `Name` with the comparator from utils.js;
  - writes the page's fragment of one JSON array spanning the run, replacing
    `[` by `,` on later pages and cutting the final `]` when a next page
    follows;
  - folds page and member timings into the `METRICS` record of metrics.js.
- **better_scrapper.js**, the sequential scraper:
  - it keeps the first three rows of each page (the "DEBUG ONLY" slice);
  - it parses each row and its detail page in turn;
  - it appends each record to the file as soon as the record is parsed;
  - it counts pages and members in module-level variables;
  - `getPerformanceResults` reads those variables at the end.

The helpers in utils.js are modelled as well:

- the `Name` comparator built by `makeFnToSortBy`;
- the request-blocking callback, including its script rule with a negative
  lookahead;
- `fetchPage`, which owns only the browser instance it creates itself;
- `writeToFile` (append) and `cleanFile` (truncate).

The model's boundaries are:

- **Inputs.** The fetched HTML, the DOM that the page queries read from it,
  the workers' messages in arrival order, the timers and `JSON.stringify` of a
  record are all inputs: function-typed fields or parameters.
- **Imperative parts.** Code that changes state in place is modelled as
  classes and methods with loop invariants:
  - `Metrics.Counter` and `Metrics.RunMetrics` model the `METRICS` record;
  - `Utils.OutputFile` models the output file;
  - `BetterScrapper.Globals` models the module-level `let` variables;
  - `Aggregator.SortByNameInPlace` is an in-place sort on an array;
  - the row loops of both parsers are loops with invariants.
- **Specifications.** Each such method is proved against a specification
  function, for example `DetailsOf`, `GeneralData`, `Tallied`, `Written`,
  `RunCounters` and `Through`. The source's promises are then proved as lemmas
  about those functions.

Modules:

| file | module | models |
|---|---|---|
| js_runtime.dfy | JsRuntime | `trim`, `indexOf`, `join`, string `<`, number division and `Math.ceil` with IEEE special values |
| dom.dfy | Dom | the parts of the DOM the page queries read: cells with `<br>`, listing pages, detail rows, `parseColumnNames` |
| utils.dfy | Utils | utils.js, plus the media-only blocking callback of better_scrapper.js |
| metrics.dfy | Metrics | metrics.js and the min/max folding rules of scrapper.js |
| partition.dfy | Partition | the chunk and range arithmetic of `delegateProcessingToWorkers` |
| aggregator.dfy | Aggregator | the worker `message` handler: concatenation, strict resolution, sorting by `Name`, metric fold |
| stitching.dfy | Stitching | the JSON fragment surgery of `scrapePage` and its round trip |
| member_parsers.dfy | MemberParsers | `parseGeneralMemberData`, `getMemberUrl`, `parseDetailedMemberData` |
| scrapper.dfy | Scrapper | the entry-count regular expression, `scrapePage` and `scrape` of scrapper.js |
| better_scrapper.dfy | BetterScrapper | `scrape`, `scrapePage`, `scrapeMembers`, `scrapeMemberData`, `getPerformanceResults` of better_scrapper.js |

### Behaviour of the code worth knowing

- **Partition ranges** (scrapper.js:94,127-134). Every row index is covered
  by exactly one worker's range. But the ranges stay inside
  `[0, rows_count]` only when `(W - 1) * chunk <= rows_count`, because
  `Math.round` can round the chunk up. Two examples:
  - With 12 rows and 8 workers, range 6 is `[12, 14)` and range 7 is the
    inverted `[14, 12)`.
  - With 2 rows and 4 workers, range 2 is `[2, 3)` and range 3 is `[3, 2)`.

  `Partition.RangesInBoundsIff` states the exact condition.
- **Minimum time** (scrapper.js:82). The fold tests
  `min ? Math.min(min, t) : t`, so a stored 0 counts as an unset minimum and
  a sample of 0 wipes the recorded minimum (`Metrics.ZeroTimeResetsMinimum`).
- **Average** (metrics.js:9-12,22-25). `avg` divides `time.total` by the
  hidden `__total_count`, which is the last value assigned to `total`, not
  by `parsed`. While that is 0, it divides by zero (`Metrics.Counter.Avg`).
- **Sort stability** (scrapper.js:114-115). The records are sorted with the
  engine's `Array.prototype.sort`, which is not assumed stable. The model
  claims a permutation in `Name` order, not stability.
- **First page** (scrapper.js:43,66). "First page" is the run-wide test
  `pages.parsed === 0`, not a per-target one. `Stitching` and `Scrapper` take
  the counter at the start of the run as a parameter.

## Model

| member | source | states |
|---|---|---|
| JsRuntime.TrimStripsEnds | better_scrapper.js:159 | `trim()` removes leading and trailing whitespace and nothing else; it yields `""` iff the text is all whitespace and is the identity on text with no whitespace at either end |
| JsRuntime.TrimStartShape | better_scrapper.js:159 | the leading-whitespace strip is a suffix of the input, does not start with whitespace, and only whitespace was dropped |
| JsRuntime.TrimEndShape | better_scrapper.js:159 | the trailing-whitespace strip is a prefix of the input, does not end with whitespace, and only whitespace was dropped |
| JsRuntime.IndexOf | scrapper.js:67 | the first position holding the character, or -1 exactly when the character does not occur |
| JsRuntime.JoinAppend | scrapper.js:65 | joining two non-empty lists puts exactly one separator between their joins |
| JsRuntime.StrLessIrreflexive | utils.js:83 | no string is `<` itself |
| JsRuntime.StrLessTrichotomy | utils.js:83-89 | exactly one of `a < b`, `a === b`, `b < a` holds |
| JsRuntime.StrLessTransitive | utils.js:83 | string `<` is transitive |
| JsRuntime.Divide | metrics.js:23 | finite quotients are exact; a zero denominator gives +/-Infinity by the numerator's sign, or NaN for 0/0; NaN propagates |
| JsRuntime.Ceil | scrapper.js:62 | `Math.ceil` gives the least integer not below a finite value and passes the special values through |
| JsRuntime.CeilOfCountRatio | scrapper.js:62 | `Math.ceil(n / d)` on counts is the integer ceiling `(n + d - 1) / d`; with `d == 0` it is Infinity, or NaN for `n == 0` |
| Dom.RawText | better_scrapper.js:196 | `.text()` of content holding only `<br>` and empty text is `""` |
| Dom.ColumnNames | better_scrapper.js:166-176 | one key per header cell, in order |
| Utils.Compare | utils.js:81-91 | -1 iff both values are present and `a < b`; 0 iff `a === b` (two missing values are equal); 1 when exactly one is missing |
| Utils.CompareAntisymmetric | utils.js:81-91 | on present values `cmp(a, b) == -cmp(b, a)` |
| Utils.CompareTransitive | utils.js:81-91 | on present values `cmp <= 0` is transitive |
| Utils.CompareTotal | utils.js:81-91 | on present values any two compare `<= 0` one way or the other |
| Utils.SearchFindsOccurrence | utils.js:10-12 | a case-insensitive `test` of a literal extension succeeds iff the extension occurs anywhere, ignoring ASCII case |
| Utils.ScriptMatchIsPattern | utils.js:13 | the backtracking script rule matches iff some `.js` starts at a position `p` such that no earlier position holds a line terminator or starts one of `feuseradmin.js`, `tinymce`, `jquery-` (ignoring case) |
| Utils.JsonIsBlockedAsScript | utils.js:13 | a `.json` URL with nothing forbidden before it is blocked as a script |
| Utils.TokenBeforeScriptAllows | utils.js:13 | a forbidden token before every `.js` keeps the script rule from matching |
| Utils.SomeFindsMatch | utils.js:15-17 | `some` holds iff one of the patterns matches |
| Utils.OnResourceRequested | utils.js:8-25 | the request is aborted iff `Utils.Blocked` holds of its URL (the list of utils.js:9-17: it contains `.gif`, `.png` or `.css`, or matches the script rule); otherwise it is allowed and logged |
| Utils.OnMediaRequested | better_scrapper.js:275-291 | the request is aborted iff `Utils.MediaBlocked` holds of its URL (the list of better_scrapper.js:277-284: it contains `.gif`, `.png` or `.css`, ignoring case); otherwise it is allowed silently |
| Utils.MediaBlockedIsBlocked | better_scrapper.js:277-281 | everything the media-only copy blocks, utils.js blocks too; they differ only on the script rule |
| Utils.OutputFile.Clean | utils.js:71-79 | `cleanFile` leaves the file empty |
| Utils.OutputFile.Write | utils.js:61-69 | `writeToFile` appends exactly `data` after the existing content |
| Utils.BrowserInstance.constructor | utils.js:55-59 | a new browser instance has no open page and has not exited |
| Utils.FetchPage | utils.js:28-53 | returns what the URL serves; a caller's instance is neither exited nor left with an extra page; an instance it creates is fresh and exited, with no page left open |
| Metrics.FoldMin | scrapper.js:82 | a stored 0 takes the sample; otherwise the smaller of the two |
| Metrics.FoldMax | scrapper.js:83 | the larger of the stored value and the sample |
| Metrics.MinFromSnoc | scrapper.js:82 | one more sample is one more step of the minimum fold |
| Metrics.MaxFromSnoc | scrapper.js:83 | one more sample is one more step of the maximum fold |
| Metrics.MinFromAppend | scrapper.js:108 | folding two runs of samples one after the other is folding them all |
| Metrics.MinIsLeastOfPositiveSamples | scrapper.js:82 | over positive times, the recorded minimum is one of the samples and is the least of them |
| Metrics.ZeroTimeResetsMinimum | scrapper.js:82 | a time of 0 erases the minimum recorded before it |
| Metrics.MinNonNegative | scrapper.js:82 | over non-negative times the recorded minimum is non-negative |
| Metrics.MaxIsGreatestSample | scrapper.js:83 | from 0 over non-negative times the recorded maximum is a sample (or 0 with none) and no sample exceeds it |
| Metrics.Counter.constructor | metrics.js:7-27 | every field of a counter starts at 0 |
| Metrics.Counter.SetTotal | metrics.js:9-12 | the `total` setter stores the value and copies it into the hidden count; nothing else changes |
| Metrics.Counter.AddTime | scrapper.js:81-83 | the page timer adds the time to the total and folds it into min and max; nothing else changes |
| Metrics.Counter.IncrementParsed | scrapper.js:85 | `parsed` goes up by one; nothing else changes |
| Metrics.Counter.Absorb | scrapper.js:106-109 | a worker's metrics add its count and time total and fold its min and max; `total` is untouched |
| Metrics.Counter.Avg | metrics.js:22-25 | the time total divided by the last assigned `total`, with the IEEE results when that is 0 |
| Metrics.RunMetrics.constructor | metrics.js:6-49 | two distinct counters, every field 0 |
| Partition.NumberOfWorkers | scrapper.js:11 | twice the CPUs: even, and at least 2 with one CPU or more |
| Partition.Chunk | scrapper.js:95 | `Math.round(rows / workers)` rounding half up, stated as bounds on `2 * workers * chunk` |
| Partition.Plan | scrapper.js:127-134 | exactly `workers` assignments |
| Partition.PlanAssignments | scrapper.js:127-143 | the fork loop hands worker `i` the range `[i * chunk, (i + 1) * chunk)`, the last one ending at `rows_count` |
| Partition.EveryRowHasOneWorker | scrapper.js:127-134 | every row index lies in the range of one worker and of no other |
| Partition.Owner | scrapper.js:128-134 | names the worker whose range holds a row |
| Partition.DisjointRanges | scrapper.js:128-134 | an earlier worker's range holds no row of a later worker's range |
| Partition.RangesInBoundsIff | scrapper.js:127-134 | every range is ordered and inside `[0, rows_count]` iff `(workers - 1) * chunk <= rows_count` |
| Partition.TwoRowsFourWorkers | scrapper.js:127-134 | 2 rows on 4 workers: range 2 is `[2, 3)`, range 3 is the inverted `[3, 2)` |
| Partition.TwelveRowsEightWorkers | scrapper.js:127-134 | 12 rows on 8 workers: range 6 is `[12, 14)`, range 7 is the inverted `[14, 12)` |
| Aggregator.CollectedGrows | scrapper.js:100-103 | later messages only extend the collected list (`Aggregator.Collected`, the `members.concat(message.data)` of every message so far); earlier records keep their places |
| Aggregator.ResolutionFrom | scrapper.js:112 | the first message after which exactly `rows_count` records are in, if any |
| Aggregator.OvershootNeverResolves | scrapper.js:112 | once more than `rows_count` records are in, the page never resolves |
| Aggregator.ResolvesIffExactCount | scrapper.js:112-118 | the page resolves iff some prefix of the arrivals carries exactly `rows_count` records |
| Aggregator.AdjacentSortedIsSorted | scrapper.js:114-115 | with every `Name` present, neighbours in order means every pair in order |
| Aggregator.SinkInto | scrapper.js:115 | one insertion pass permutes the array and extends its sorted prefix by one |
| Aggregator.SortByNameInPlace | scrapper.js:114-115 | the in-place sort permutes the array, in non-decreasing `Name` order when every record has a `Name` |
| Aggregator.SortMembers | scrapper.js:114-115 | the sorted records are a permutation of the collected ones, in `Name` order when every record has one |
| Aggregator.TalliedFields | scrapper.js:105-110 | the members counter after the messages (`Aggregator.Tallied`, the handler's `message.metrics` fold): counts and time totals summed, min and max folded |
| Aggregator.TalliedSnoc | scrapper.js:105-110 | one more report is one more step of the fold |
| Aggregator.TalliedAppend | scrapper.js:105-110 | folding two runs of reports one after the other is folding them all |
| Aggregator.ReportedStep | scrapper.js:100-110 | one more message adds its `data` to the collected list and its `metrics`, if any, to the reports |
| Aggregator.HandleMessage | scrapper.js:99-121 | the handler appends the message's records and folds its metrics; it resolves iff the count equals `rows_count`, with a sorted permutation |
| Aggregator.CollectPage | scrapper.js:98-151 | the page resolves iff some prefix of the arrivals is exact; it then holds the sorted permutation of that prefix's records, and the counter has folded the metrics of that prefix |
| Stitching.Stringify | scrapper.js:65 | an array's text opens with `[` and closes with `]` |
| Stitching.ReplaceFirst | scrapper.js:67 | a string `replace` changes only the first occurrence |
| Stitching.LastIndexOf | scrapper.js:71 | the last position holding the character, or -1 exactly when it does not occur |
| Stitching.Prefix | scrapper.js:72 | `substr(0, n)`: empty for `n <= 0`, the first `n` characters, or everything |
| Stitching.FragmentShape | scrapper.js:65-73 | the string surgery of `Stitching.Fragment` (`JSON.stringify`, `replace('[', ',')` after the first page, the cut at `lastIndexOf(']')` before a next page) yields the joined records between `[` (or `,` on later pages) and `]` (dropped when a next page follows) |
| Stitching.ReplaceOpening | scrapper.js:66-68 | the first `[` of an array's text is its opening bracket |
| Stitching.CutClosing | scrapper.js:70-73 | cutting at the last `]` removes exactly the closing bracket |
| Stitching.OpenedIsArrayPrefix | scrapper.js:65-75 | pages with next links and records write `[` (or `,`) followed by all their records joined by commas |
| Stitching.WrittenClosesOpened | scrapper.js:70-73 | a run that ends writes what the same pages with next links write, plus `]` |
| Stitching.WrittenRun | scrapper.js:65-75 | for a run with at least one page and no page without records, `Stitching.Written`, the fragments of a run that ends, is the opening character, all records joined by commas, and `]` |
| Stitching.StitchedRunIsOneArray | scrapper.js:65-75 | for a run with at least one page and no page without records, from `pages.parsed === 0`, the file is `JSON.stringify` of all records of the run |
| Stitching.EmptyMiddlePageBreaksTheArray | scrapper.js:65-73 | a later page with no records leaves an empty element `,,` |
| Stitching.EmptyFirstPageBreaksTheArray | scrapper.js:65-73 | a first page with no records leaves `[,` |
| MemberParsers.CellTextsAt | better_scrapper.js:159 | cell `i`'s text is its content with `<br>` read as a newline, trimmed |
| MemberParsers.TrimmedAt | better_scrapper.js:206-207 | piece `i` is trimmed |
| MemberParsers.LastWinsLookup | better_scrapper.js:205-210 | a key is stored iff it is non-empty and occurs, and it holds the value of its last occurrence |
| MemberParsers.LastWinsSnoc | better_scrapper.js:208-209 | one more pair stores its value unless its key is empty |
| MemberParsers.ParseGeneralMemberData | better_scrapper.js:153-164 | the `.each` loop over the cells returns `MemberParsers.GeneralData`: cell `i`'s trimmed text under `keys[i]` for `i < min(cells, keys)`, empty keys skipped, later equal keys winning |
| MemberParsers.GeneralDataStep | better_scrapper.js:157-161 | cell `i` under header `i` is the last pair stored so far |
| MemberParsers.GeneralDataLookup | better_scrapper.js:153-164 | key `k` is stored iff it is a non-empty header with a cell; it holds the trimmed text of the last such cell |
| MemberParsers.MemberUrl | better_scrapper.js:178-183 | the root URL followed by the first anchor's href of the first cell |
| MemberParsers.SplitOnNewlineRuns | better_scrapper.js:203-204 | splitting on newline runs gives one more piece than there are runs, none holding a newline |
| MemberParsers.FoldErrorPersists | better_scrapper.js:189-216 | once a row throws, the parse throws that error |
| MemberParsers.ErrorStops | better_scrapper.js:189-216 | the first error thrown is the parser's result |
| MemberParsers.ParseDetailedMemberData | better_scrapper.js:185-219 | the row loop returns `MemberParsers.DetailsOf`: each row is read by `MemberParsers.View` (header, blank, single-cell or multi-cell, the branch choice of better_scrapper.js:190-201) and folded by `MemberParsers.Fold`; the result is the details or the TypeError it throws |
| MemberParsers.ParseRow | better_scrapper.js:189-215 | the body of the `.each` callback is one `MemberParsers.Step` of the row fold: a header opens an empty section, a blank row is skipped, a single cell replaces the section, a multi-cell row merges its entries |
| MemberParsers.StorePairs | better_scrapper.js:205-210 | the pair loop returns `MemberParsers.MergeEntries` of the trimmed pairs, last wins and empty keys skipped: the details with those entries stored, or a throw on a missing or text section |
| MemberParsers.SetEntry | better_scrapper.js:209 | `details[key][k] = v` succeeds iff the section is an object, and then changes only that entry |
| MemberParsers.StoreStep | better_scrapper.js:205-210 | one turn of the pair loop agrees with storing the pairs so far plus one |
| MemberParsers.StoreOne | better_scrapper.js:209 | storing one more pair in an object section |
| MemberParsers.StoreFails | better_scrapper.js:209 | a non-empty key stored into a missing or text section throws |
| MemberParsers.StepKeepsAgreement | better_scrapper.js:189-215 | rows other than header `h` treat two states that agree on section `h` alike |
| MemberParsers.FoldKeepsAgreement | better_scrapper.js:189-216 | the agreement survives any rows without header `h` |
| MemberParsers.HeaderDiscardsEarlierContent | better_scrapper.js:190-193 | after a header row `h`, what section `h` ends with does not depend on anything before that header |
| MemberParsers.BreakOnlyRowIsBlank | better_scrapper.js:195-196 | a row whose cells hold only `<br>` and empty text is skipped |
| MemberParsers.EmptyCellsHaveNoText | better_scrapper.js:196 | such cells have the empty `.text()` |
| MemberParsers.SingleCellOverwritesSection | better_scrapper.js:197-198 | a single-cell row replaces the current section, object or not, with its text |
| MemberParsers.WhitespaceCellStoresEmptyText | better_scrapper.js:196-198 | a whitespace-only single cell passes the emptiness test and stores `""` |
| MemberParsers.MultiCellRowBeforeHeaderThrows | better_scrapper.js:188-212 | a multi-cell row that stores anything before any header throws on the undefined section `''` |
| MemberParsers.MultiCellRowAfterTextThrows | better_scrapper.js:197-212 | in the same section, a multi-cell row that stores anything throws after a single-cell row |
| MemberParsers.MatchedEntries | better_scrapper.js:202-210 | with equal newline-run counts, `MemberParsers.Entries` stores a sub-key iff it is a non-empty trimmed line of the sub-key, under the trimmed line of the value with the same index; empty keys are skipped |
| MemberParsers.MatchedEntriesLastWins | better_scrapper.js:205-210 | with equal newline-run counts, a stored sub-key holds the trimmed value of a line with that key, and no later line has that key: the last one wins |
| MemberParsers.TrimmedLastWins | better_scrapper.js:205-210 | storing trimmed pairs in order keeps, for each stored key, the value of the last line whose trimmed key it is |
| MemberParsers.MismatchedEntries | better_scrapper.js:211-212 | with unequal counts, `MemberParsers.Entries` is the whole value under the whole sub-key |
| Scrapper.DigitRun | scrapper.js:44 | the length of the leading run of digits |
| Scrapper.MatchAt | scrapper.js:44 | the match anchored at a position never runs past the text |
| Scrapper.MatchAtIsLongestToken | scrapper.js:44 | the anchored match is the longest prefix the pattern matches, and there is none when it fails |
| Scrapper.FirstMatchFrom | scrapper.js:44 | the leftmost position with a match; no earlier position has one |
| Scrapper.FirstMatchIsLeftmostLongest | scrapper.js:44 | `match` (`Scrapper.FirstMatch`) returns a matching substring; nothing matches further left, and nothing longer matches at its start |
| Scrapper.FirstMatchNoneIffNoToken | scrapper.js:44 | `match` returns `null` iff no substring of the text matches |
| Scrapper.EntryDigits | scrapper.js:44-45 | the stored entry count is two or more digits |
| Scrapper.TokenDigits | scrapper.js:45 | removing the first apostrophe from a match (`Scrapper.RemoveApostrophe`, the `replace('\'', '')`) leaves two or more digits |
| Scrapper.EntryCount | scrapper.js:44-45 | a number exists iff the text holds a match |
| Scrapper.SeparatedCountReads | scrapper.js:44-45 | `"1'234 entries"` reads as 1234 |
| Scrapper.SingleDigitCountThrows | scrapper.js:44-45 | `"7 entries"` has no match, so `toString()` on `null` throws |
| Scrapper.NextUrl | scrapper.js:53-58 | a URL iff the page has a next link, and then it is the root URL followed by the href |
| Scrapper.Pending | scrapper.js:24-25 | the URL the loop tests: the start URL first, then a URL iff the last page had a next link |
| Scrapper.PagesTotalOfEntries | scrapper.js:62 | `pages.total` (`Scrapper.PagesTotal`, `Math.ceil(members.total / rows)`) is the number of pages needed for the entries; with no rows it is Infinity or NaN |
| Scrapper.ScrapePage | scrapper.js:37-92 | throws iff it is the first page and the count does not match; hangs iff the workers' records never add up to the rows; otherwise returns the next URL, appends the page's fragment of its sorted records, and times and counts the page |
| Scrapper.ReadEntryCount | scrapper.js:43-47 | on the first page, `members.total` and its hidden count become the entry count, and reading fails iff there is no match; later pages change nothing |
| Scrapper.ProcessPage | scrapper.js:48-87 | `pages.total` is set; the workers' metrics are folded; when the page resolves, the sorted permutation is written as a fragment and the page is timed and counted |
| Scrapper.ChainedLinks | scrapper.js:24-25 | the run's URLs are chained iff the first is the start URL, none is empty, and each is the next link of the page before it |
| Scrapper.ChainedIsLinkByLink | scrapper.js:24-25 | chained URLs go link by link |
| Scrapper.LinkByLinkIsChained | scrapper.js:24-25 | URLs that go link by link are chained |
| Scrapper.SortedPagesEach | scrapper.js:114-115 | every page's batch is a permutation of the page's records, in `Name` order when every record has one |
| Scrapper.RunStep | scrapper.js:64-85 | what one more page adds to the reports, the encoded batches, the page times and the written text |
| Scrapper.FileStep | scrapper.js:65-75 | the file after one more page is the stitched text of the run so far |
| Scrapper.OpenRun | scrapper.js:70-73 | a run whose last page had a next link left the array open |
| Scrapper.PagesStep | scrapper.js:79-85 | one more timed page keeps the page counter's closed form |
| Scrapper.TotalStep | scrapper.js:43-45 | `members.total` stays the first page's entry count |
| Scrapper.ShapeAccounted | scrapper.js:52-74 | after one more page, the visited URLs are still chained by next links, every batch is a permutation of its page's records in `Name` order, and the file holds the run's fragments |
| Scrapper.CountersAccounted | scrapper.js:79-85 | after one more page, the page counter has one more timed page, the members counter has folded that page's worker reports, and `members.total` is the first page's entry count |
| Scrapper.AccountedStep | scrapper.js:37-92 | one more page with a next link keeps the whole account of the run: URLs, sorted batches, counters and file |
| Scrapper.StalledAccounted | scrapper.js:99-110 | a page that never returns has still folded its messages into the members counter and read `members.total` on the run's first page |
| Scrapper.ScrapeNext | scrapper.js:24-25 | one turn of the loop keeps the account of the run, the new batch being a permutation of the page's records in `Name` order; a page that throws on the entry count is the run's first and changes no counter; a page that hangs leaves the file open and the page counter as they were, but its messages are in the members counter and `pages.total` and `members.total` are set |
| Scrapper.Scrape | scrapper.js:20-35 | after `cleanFile`, the loop visits the chained URLs until one is falsy; each page's batch is a permutation of that page's records in `Name` order, and the counters and file are those of the run. If a page throws (only the first can) no counter changed. If a page hangs, the file is the open array so far, the page counter holds the earlier pages, the members counter also holds the hung page's messages, and `pages.total` is computed from that page |
| BetterScrapper.Capped | better_scrapper.js:77-79 | the slice keeps the first `min(rows, 3)` rows |
| BetterScrapper.Through | better_scrapper.js:100-114 | the batch has at most one record per row, and one per row when nothing threw |
| BetterScrapper.ThroughEach | better_scrapper.js:100-114 | record `k` is the result of row `k`; the batch stops at the first row that throws, with its error; nothing is thrown iff every row parses |
| BetterScrapper.ThroughStops | better_scrapper.js:102-113 | rows after a thrown one change nothing |
| BetterScrapper.ThroughStep | better_scrapper.js:102-113 | one more row adds its record or ends the batch with its error |
| BetterScrapper.AppendedConcat | better_scrapper.js:106 | writing two runs of records appends their texts, with no separator |
| BetterScrapper.AppendedOne | better_scrapper.js:106 | writing one more record appends its text |
| BetterScrapper.Globals.constructor | better_scrapper.js:27-31 | the module-level counters start at 0 with empty time lists |
| BetterScrapper.TimingsConcat | better_scrapper.js:108-111 | the timers of `a + b` members are those of the first `a`, then those of the next `b` |
| BetterScrapper.MembersStoredTwice | better_scrapper.js:108-112 | storing `a` then `b` records is storing `a + b` |
| BetterScrapper.MemberStored | better_scrapper.js:108-112 | one more record adds one count and that record's timer |
| BetterScrapper.ScrapeMemberData | better_scrapper.js:116-131 | the record is `BetterScrapper.MemberOf`: the row's general data with the parsed details of the page its first link points to, or the parser's error |
| BetterScrapper.StoreMember | better_scrapper.js:106-112 | one record appended to the file, its timer recorded, `MEMBERS_PARSED` incremented |
| BetterScrapper.ScrapeMembers | better_scrapper.js:100-114 | the file gains exactly the records before the first throwing row and the counters gain one count and timer each; it throws that row's error, if any |
| BetterScrapper.ScrapePage | better_scrapper.js:60-98 | throws iff it is the first page and the count does not match, changing nothing; otherwise writes the capped rows' records, and when none threw returns the next URL and times and counts the page |
| BetterScrapper.ScrapeRows | better_scrapper.js:74-97 | the rest of `scrapePage` after the entry count: records written, then the next URL and the page counted only when nothing threw |
| BetterScrapper.PageBatchCapped | better_scrapper.js:77-81 | at most three records per page; with no error, one per kept row, record `k` from row `k` |
| BetterScrapper.NextOf | better_scrapper.js:83-88 | the URL the loop tests: the start URL first, then a URL iff the last page had a next link |
| BetterScrapper.RunCountersClosedForm | better_scrapper.js:90-112 | after a run: one count and one timer per page and per record, and `TOTAL_ENTRIES` read from the first page when none was parsed before |
| BetterScrapper.RunMembersCapped | better_scrapper.js:77-79 | at most three records per page over the run |
| BetterScrapper.ScrapeStep | better_scrapper.js:43-45 | one turn of the loop extends the counters and the file by the page's records; a page that throws on the entry count changes nothing, one whose detail page throws keeps its stored records, their timers and `TOTAL_ENTRIES`, but is neither timed nor counted |
| BetterScrapper.Scrape | better_scrapper.js:39-52 | after `cleanFile`, the loop visits the linked URLs until one is falsy; the file holds every record of the run in order and the counters are the run's. At the first page that throws, the counters are the earlier pages' plus the records the throwing page stored (nothing at all on an entry-count throw) |
| BetterScrapper.FiguresOf | better_scrapper.js:247-253 | the count, the summed times, and an average that times the count gives the total; with no count it is the IEEE quotient by zero |
| BetterScrapper.RunPerformance | better_scrapper.js:241-256 | from fresh counters, `BetterScrapper.PerformanceResults` (getPerformanceResults) counts the pages and records, at most three records per page, and sums their timers |

## Left out

- Headless-browser sessions are not modelled (phantom `create`, `createPage`,
  `open`, `property('content')`, `close`, `exit` in utils.js:28-59 and
  better_scrapper.js:133-151). They are foreign I/O. What a URL serves is the
  input `serve`, and `Utils.BrowserInstance` keeps only the open-page count
  and whether it exited.
- Utils.FetchPage: a rejected phantom call is not modelled. What a URL serves
  is the total function `serve`. In the source (utils.js:36-51) there is no
  `try`/`finally`, so a `page.open` or `page.property('content')` that
  rejects leaves the page open and, for an instance `fetchPage` created
  itself, that instance running.
- cheerio selector queries are not modelled. A listing page and a detail row
  are given as the cells those selectors find, with `<br>` kept as an inline
  element.
- Cluster forking, listener registration and removal, and the worker
  online/exit handlers (scrapper.js:123-166) are left out; this is process
  concurrency. The workers' messages are an input sequence in arrival order.
  worker.js is not part of this model; only the message shape scrapper.js
  reads is.
- Targets launched concurrently by `TARGETS.forEach(co(...))`
  (better_scrapper.js:34-36) are left out. Each model runs one target.
- Wall-clock timers (timer.js) are not modelled. Page and member times are
  integer inputs (`pageTime(k)`, `memberTime(k)`).
- Console logging is left out. This includes the `Member i of TOTAL_ENTRIES`
  line, which is the only reader of `TOTAL_ENTRIES`
  (better_scrapper.js:104), and the current-entries message
  (scrapper.js:48-50).
- `avg.toFixed(2)`, both `formatPerformanceResults` functions
  (metrics.js:51-69, better_scrapper.js:258-269) and helpers.js are left out.
  They are text presentation.
- Floating point is not modelled. `JsRuntime.JsNumber` is an exact real plus
  the IEEE special values, so binary rounding of finite quotients is not
  captured.
- String `<` compares Dafny characters (Unicode scalar values), not UTF-16
  code units. The two orders differ only for characters outside the Basic
  Multilingual Plane.
- `Array.prototype.sort` is modelled by an insertion sort. Only the
  permutation and the `Name` order are claimed, not the engine's stability.
- `JSON.stringify` of a record is the input `encode`. `JSON.stringify` of an
  array is `[`, the items joined by `,`, then `]`.
- `members.total` holds the entry count as a string in the source, and the
  division coerces it. The model stores the number the division reads.
- Detail rows that contain a nested table are not modelled. In the source,
  `$(row).find('td')` (better_scrapper.js:195) also returns the nested table's
  cells, so `$cells.first()`, `$cells.length === 1` and
  `$cells.not(':first-child')` count them, and the in-place `<br>`
  replacement (better_scrapper.js:198-201) leaves `"\n"` text in nested rows
  that `$('tr').each` visits later. `Dom.DetailRow` holds only the row's own
  cells, so `MemberParsers.View` drops exactly the first of them and
  `MemberParsers.BreakOnlyRowIsBlank` holds for rows that are not nested.
- A general-data column literally named `details` is not modelled: in the
  source, `member.details` overwrites it. `MemberParsers.Member` keeps the
  general data and the details in separate fields.
- The duplicated dead variants are not modelled: concurrent.js, scrape.js,
  parallel_test.js, one_member.js and the phantom experiments.
- Scrapper.Scrape: a `fuel` bound on the number of pages stands in for the
  unbounded `while (url)`; a run that reaches it ends with `OutOfFuel`.
- Scrapper.Scrape: it requires `pages.parsed >= 0`. The counter starts at 0
  and only ever increases, but the model's field is an `int`.
- BetterScrapper.Scrape: a `fuel` bound on the number of pages stands in for
  the unbounded `while (url)`; a run that reaches it ends with `FuelSpent`.
- A thrown error is a returned value in both scrapers, not an exception that
  unwinds the generator. The model states what was written and counted before
  the throw.
