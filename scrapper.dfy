/** The page controller of scrapper.js: `scrape` truncates the output file
    and calls `scrapePage` while it returns a URL; `scrapePage` fetches a
    listing page, reads the number of entries on the run's first page, sets
    `pages.total`, hands the rows to the workers (delegateProcessingToWorkers),
    appends the page's fragment of the JSON array to the file and updates the
    page metrics. Fetched pages, the workers' messages and the page timer are
    inputs. */
module Scrapper {
  import opened JsRuntime
  import opened Dom
  import opened Utils
  import opened Metrics
  import opened MemberParsers
  import opened Partition
  import opened Aggregator
  import opened Stitching

  // ---------------------------------------------------------------------------
  // The number of entries: `text.match(/\d+'?\d+/)`, apostrophe removed

  predicate IsDigit(c: char) {
    '0' <= c <= '9'
  }

  predicate AllDigits(t: string) {
    forall i :: 0 <= i < |t| ==> IsDigit(t[i])
  }

  /** The strings the regular expression matches: two or more digits, or
      digits, one `'` and digits. */
  predicate CountToken(t: string) {
    (|t| >= 2 && AllDigits(t))
    || exists k :: 0 < k < |t| - 1 && t[k] == '\'' && AllDigits(t[..k]) && AllDigits(t[k + 1..])
  }

  /** The length of the run of digits that `s` starts with. */
  function DigitRun(s: string): (n: nat)
    ensures n <= |s| && AllDigits(s[..n]) && (n < |s| ==> !IsDigit(s[n]))
  {
    if s != [] && IsDigit(s[0]) then 1 + DigitRun(s[1..]) else 0
  }

  /** The match anchored at the start of `s`, as the backtracking engine finds
      it: the first `\d+` takes the whole run of digits; if an apostrophe and
      a digit follow, `'?` takes the apostrophe and the second `\d+` the next
      run; otherwise the first `\d+` gives back its last digit to the second,
      which needs a run of at least two digits. */
  function MatchAt(s: string): (r: Option<nat>)
    ensures r.Some? ==> r.value <= |s|
  {
    var n := DigitRun(s);
    if n == 0 then None
    else if n + 1 < |s| && s[n] == '\'' && IsDigit(s[n + 1]) then Some(n + 1 + DigitRun(s[n + 1..]))
    else if n >= 2 then Some(n)
    else None
  }

  /** What the engine returns at a position is the longest prefix there that
      the regular expression matches, and `None` means there is none. */
  lemma MatchAtIsLongestToken(s: string)
    ensures MatchAt(s).Some? ==> CountToken(s[..MatchAt(s).value])
    ensures MatchAt(s).Some? ==> forall q :: MatchAt(s).value < q <= |s| ==> !CountToken(s[..q])
    ensures MatchAt(s).None? ==> forall q :: 0 <= q <= |s| ==> !CountToken(s[..q])
  {
    var n := DigitRun(s);
    if n > 0 && n + 1 < |s| && s[n] == '\'' && IsDigit(s[n + 1]) {
      var r := DigitRun(s[n + 1..]);
      var m := n + 1 + r;
      var t := s[..m];
      assert t[..n] == s[..n] && t[n + 1..] == s[n + 1..][..r];
      assert 0 < n < |t| - 1 && t[n] == '\'' && AllDigits(t[..n]) && AllDigits(t[n + 1..]);
      forall q | m < q <= |s| ensures !CountToken(s[..q]) {
        NoLongerToken(s, n, m, q);
      }
    } else if n >= 2 {
      assert s[..n] == s[..n][..n];
      forall q | n < q <= |s| ensures !CountToken(s[..q]) {
        NoLongerRun(s, n, q);
      }
    } else {
      forall q | 0 <= q <= |s| ensures !CountToken(s[..q]) {
        NoTokenHere(s, n, q);
      }
    }
  }

  /** Past the match `s[..m]` with its apostrophe at `n`, no longer prefix is a
      match: a second apostrophe or a non-digit ends it. */
  lemma NoLongerToken(s: string, n: nat, m: nat, q: nat)
    requires 0 < n && n + 1 < |s| && s[n] == '\'' && IsDigit(s[n + 1])
    requires n == DigitRun(s) && m == n + 1 + DigitRun(s[n + 1..])
    requires m < q <= |s|
    ensures !CountToken(s[..q])
  {
    var u := s[..q];
    assert !IsDigit(u[n]);
    var r := DigitRun(s[n + 1..]);
    assert u[m] == s[n + 1..][r] && !IsDigit(u[m]);
    forall k | 0 < k < |u| - 1 ensures !(u[k] == '\'' && AllDigits(u[..k]) && AllDigits(u[k + 1..])) {
      if k < n {
        assert u[k] == s[..n][k] && IsDigit(u[k]);
      } else if k > n {
        assert !IsDigit(u[..k][n]);
      } else {
        assert !IsDigit(u[k + 1..][m - n - 1]);
      }
    }
  }

  /** Past a match of digits only, `s[..n]`, no longer prefix is a match: the
      character after the run is not a digit, and is not an apostrophe
      followed by a digit. */
  lemma NoLongerRun(s: string, n: nat, q: nat)
    requires n == DigitRun(s) && 2 <= n < q <= |s|
    requires !(n + 1 < |s| && s[n] == '\'' && IsDigit(s[n + 1]))
    ensures !CountToken(s[..q])
  {
    var u := s[..q];
    assert !IsDigit(u[n]);
    forall k | 0 < k < |u| - 1 ensures !(u[k] == '\'' && AllDigits(u[..k]) && AllDigits(u[k + 1..])) {
      if k < n {
        assert u[k] == s[..n][k] && IsDigit(u[k]);
      } else if k > n {
        assert !IsDigit(u[..k][n]);
      } else if u[k] == '\'' {
        assert u[k + 1..][0] == s[n + 1] && !IsDigit(s[n + 1]);
      }
    }
  }

  /** When the run of digits at the start is empty, or is one digit not
      followed by an apostrophe and a digit, no prefix is a match. */
  lemma NoTokenHere(s: string, n: nat, q: nat)
    requires n == DigitRun(s) && q <= |s|
    requires n == 0 || (n == 1 && !(n + 1 < |s| && s[n] == '\'' && IsDigit(s[n + 1])))
    ensures !CountToken(s[..q])
  {
    var u := s[..q];
    if |u| >= 2 {
      assert !IsDigit(u[n]);
    }
    forall k | 0 < k < |u| - 1 ensures !(u[k] == '\'' && AllDigits(u[..k]) && AllDigits(u[k + 1..])) {
      if n == 0 {
        assert !IsDigit(u[..k][0]);
      } else if k > 1 {
        assert !IsDigit(u[..k][1]);
      } else if u[k] == '\'' {
        assert u[k + 1..][0] == s[2] && !IsDigit(s[2]);
      }
    }
  }

  /** `match` without the `g` flag, from position `p` on: the leftmost
      position where the engine finds a match, and the match's length. */
  function FirstMatchFrom(s: string, p: nat): (r: Option<(nat, nat)>)
    requires p <= |s|
    ensures r.Some? ==> p <= r.value.0 < |s| && MatchAt(s[r.value.0..]) == Some(r.value.1)
    ensures r.Some? ==> forall q :: p <= q < r.value.0 ==> MatchAt(s[q..]).None?
    ensures r.None? ==> forall q :: p <= q < |s| ==> MatchAt(s[q..]).None?
    decreases |s| - p
  {
    if p == |s| then None
    else match MatchAt(s[p..])
      case Some(m) => Some((p, m))
      case None => FirstMatchFrom(s, p + 1)
  }

  function FirstMatch(s: string): Option<(nat, nat)> {
    FirstMatchFrom(s, 0)
  }

  /** The engine's answer is the leftmost-longest match of the regular
      expression. */
  lemma FirstMatchIsLeftmostLongest(s: string)
    ensures FirstMatch(s).Some? ==>
              var p, m := FirstMatch(s).value.0, FirstMatch(s).value.1;
              p + m <= |s| && CountToken(s[p..p + m])
              && (forall i, j :: 0 <= i < p && i <= j <= |s| ==> !CountToken(s[i..j]))
              && (forall j :: p + m < j <= |s| ==> !CountToken(s[p..j]))
  {
    var r := FirstMatch(s);
    if r.Some? {
      var p := r.value.0;
      forall i, j | 0 <= i < p && i <= j <= |s| ensures !CountToken(s[i..j]) {
        NoTokenStartsAt(s, i, j);
      }
      LongestAt(s, p);
    }
  }

  /** The engine answers `null` exactly when no part of the text matches. */
  lemma FirstMatchNoneIffNoToken(s: string)
    ensures FirstMatch(s).None? <==> forall i, j :: 0 <= i <= j <= |s| ==> !CountToken(s[i..j])
  {
    var r := FirstMatch(s);
    if r.Some? {
      var p, m := r.value.0, r.value.1;
      MatchIsToken(s, p, m);
      assert p <= p + m <= |s| && CountToken(s[p..p + m]);
    } else {
      NoMatchNoToken(s);
    }
  }

  lemma MatchIsToken(s: string, p: nat, m: nat)
    requires FirstMatch(s) == Some((p, m))
    ensures p + m <= |s| && CountToken(s[p..p + m])
  {
    assert p < |s| && MatchAt(s[p..]) == Some(m);
    LongestAt(s, p);
  }

  lemma NoMatchNoToken(s: string)
    requires FirstMatch(s).None?
    ensures forall i, j :: 0 <= i <= j <= |s| ==> !CountToken(s[i..j])
  {
    forall i, j | 0 <= i <= j <= |s| ensures !CountToken(s[i..j]) {
      if i < |s| {
        NoTokenStartsAt(s, i, j);
      }
    }
  }

  lemma NoTokenStartsAt(s: string, i: nat, j: nat)
    requires i <= j <= |s| && MatchAt(s[i..]).None?
    ensures !CountToken(s[i..j])
  {
    MatchAtIsLongestToken(s[i..]);
    assert s[i..j] == s[i..][..j - i];
  }

  lemma LongestAt(s: string, p: nat)
    requires p <= |s| && MatchAt(s[p..]).Some?
    ensures var m := MatchAt(s[p..]).value;
            p + m <= |s| && CountToken(s[p..p + m]) && forall j :: p + m < j <= |s| ==> !CountToken(s[p..j])
  {
    var m := MatchAt(s[p..]).value;
    MatchAtIsLongestToken(s[p..]);
    assert s[p..p + m] == s[p..][..m];
    forall j | p + m < j <= |s| ensures !CountToken(s[p..j]) {
      assert s[p..j] == s[p..][..j - p];
    }
  }

  /** `.replace('\'', '')` with a string pattern: the first apostrophe removed. */
  function RemoveApostrophe(t: string): string {
    var k := IndexOf(t, '\'');
    if k == -1 then t else t[..k] + t[k + 1..]
  }

  /** The number a string of decimal digits converts to. */
  function DigitsValue(t: string): nat
    requires AllDigits(t)
  {
    if t == [] then 0 else 10 * DigitsValue(t[..|t| - 1]) + (t[|t| - 1] as int - '0' as int)
  }

  /** The text stored in `members.total` on the first page: the match with its
      apostrophe removed; `None` where `match` returns `null` and
      `.toString()` throws. */
  function EntryDigits(s: string): (r: Option<string>)
    ensures r.Some? ==> |r.value| >= 2 && AllDigits(r.value)
  {
    match FirstMatch(s)
    case None => None
    case Some((p, m)) =>
      var token := s[p..p + m];
      assert CountToken(token) by { FirstMatchIsLeftmostLongest(s); }
      TokenDigits(token);
      Some(RemoveApostrophe(token))
  }

  /** Removing the apostrophe from a match leaves two or more digits. */
  lemma TokenDigits(t: string)
    requires CountToken(t)
    ensures |RemoveApostrophe(t)| >= 2 && AllDigits(RemoveApostrophe(t))
  {
    if |t| >= 2 && AllDigits(t) {
      DigitsHaveNoApostrophe(t);
    } else {
      var k :| 0 < k < |t| - 1 && t[k] == '\'' && AllDigits(t[..k]) && AllDigits(t[k + 1..]);
      DigitsHaveNoApostrophe(t[..k]);
      assert IndexOf(t, '\'') == k;
      AllDigitsAppend(t[..k], t[k + 1..]);
    }
  }

  lemma DigitsHaveNoApostrophe(t: string)
    requires AllDigits(t)
    ensures '\'' !in t
  {
    forall i | 0 <= i < |t| ensures t[i] != '\'' {
      assert IsDigit(t[i]);
    }
  }

  lemma AllDigitsAppend(a: string, b: string)
    requires AllDigits(a) && AllDigits(b)
    ensures AllDigits(a + b)
  {
    forall i | 0 <= i < |a + b| ensures IsDigit((a + b)[i]) {
      if i >= |a| {
        assert (a + b)[i] == b[i - |a|];
      }
    }
  }

  /** The number of entries as the division in `pages.total` converts it. */
  function EntryCount(s: string): (r: Option<nat>)
    ensures r.Some? <==> EntryDigits(s).Some?
  {
    match EntryDigits(s)
    case None => None
    case Some(d) => Some(DigitsValue(d))
  }

  /** A count written with a thousands separator reads as its number. */
  lemma SeparatedCountReads(s: string)
    requires s == "1'234 entries"
    ensures EntryCount(s) == Some(1234)
  {
    SeparatedCountDigits(s);
    FourDigits();
  }

  lemma SeparatedCountDigits(s: string)
    requires s == "1'234 entries"
    ensures EntryDigits(s) == Some("1234")
  {
    assert FirstMatch(s) == Some((0, 5)) by {
      SeparatedCountMatch(s);
      assert s[0..] == s;
    }
    assert s[0..5] == "1'234";
    SeparatorRemoved();
  }

  lemma SeparatorRemoved()
    ensures RemoveApostrophe("1'234") == "1234"
  {
    var token := "1'234";
    assert IndexOf(token, '\'') == 1;
    assert token[..1] + token[2..] == "1234";
  }

  lemma SeparatedCountMatch(s: string)
    requires s == "1'234 entries"
    ensures MatchAt(s) == Some(5)
  {
    DigitRunOf("1", "'234 entries");
    assert s == "1" + "'234 entries";
    DigitRunOf("234", " entries");
    assert s[2..] == "234" + " entries";
  }

  /** A run of digits followed by a non-digit (or nothing) is read whole. */
  lemma {:induction false} DigitRunOf(digits: string, rest: string)
    requires AllDigits(digits) && (rest == [] || !IsDigit(rest[0]))
    ensures DigitRun(digits + rest) == |digits|
    decreases |digits|
  {
    if digits != [] {
      assert (digits + rest)[1..] == digits[1..] + rest;
      DigitRunOf(digits[1..], rest);
    } else {
      assert digits + rest == rest;
    }
  }

  lemma FourDigits()
    ensures AllDigits("1234") && DigitsValue("1234") == 1234
  {
    var digits := "1234";
    assert digits[..3] == "123" && "123"[..2] == "12" && "12"[..1] == "1" && "1"[..0] == "";
    assert DigitsValue("1") == 1;
    assert DigitsValue("12") == 12;
    assert DigitsValue("123") == 123;
  }

  /** A count of a single digit is not matched: `match` returns `null` and
      the first page throws. */
  lemma SingleDigitCountThrows()
    ensures EntryCount("7 entries") == None
  {
    var s := "7 entries";
    assert DigitRun(s[1..]) == 0;
    forall q | 1 <= q < |s| ensures MatchAt(s[q..]).None? {
      assert !IsDigit(s[q..][0]);
    }
    assert MatchAt(s).None?;
    assert FirstMatchFrom(s, 1).None?;
  }

  // ---------------------------------------------------------------------------
  // What the run sees of the outside world

  /** The inputs of a run: `CONFIG.root_url`, the number of CPUs, what each
      URL serves, the DOM read from a page's HTML, the messages the forked
      workers send for a page (in arrival order, given the HTML, the column
      names and the pairs they were handed) and `JSON.stringify` of one
      record. */
  datatype Site = Site(
    rootUrl: string,
    cpus: nat,
    serve: string -> string,
    load: string -> ListingPage,
    respond: (string, seq<string>, seq<Assignment>) -> seq<WorkerMessage>,
    encode: Member -> string)

  function PageAt(site: Site, url: string): ListingPage {
    site.load(site.serve(url))
  }

  function ArrivalsAt(site: Site, url: string): seq<WorkerMessage> {
    var html := site.serve(url);
    var page := site.load(html);
    site.respond(html, ColumnNames(page.headerCells), Plan(|page.rows|, NumberOfWorkers(site.cpus)))
  }

  /** The records collected for the page at `url` up to its resolution. */
  function PageRecords(site: Site, url: string): seq<Member> {
    Collected(Handled(|PageAt(site, url).rows|, ArrivalsAt(site, url)))
  }

  /** The worker `metrics` folded into `METRICS.members` for the page at `url`. */
  function PageReports(site: Site, url: string): seq<MessageMetrics> {
    Reported(Handled(|PageAt(site, url).rows|, ArrivalsAt(site, url)))
  }

  function RunReports(site: Site, urls: seq<string>): seq<MessageMetrics> {
    if urls == [] then [] else RunReports(site, urls[..|urls| - 1]) + PageReports(site, urls[|urls| - 1])
  }

  /** The page resolves: some prefix of its messages carries exactly its rows. */
  predicate Resolves(site: Site, url: string) {
    FirstResolution(|PageAt(site, url).rows|, ArrivalsAt(site, url)).Some?
  }

  /** The href of the first `.nextLinkWrap a`: `undefined` reads as the text
      `"undefined"` when concatenated. */
  function HrefText(href: Option<string>): string {
    if href.Some? then href.value else "undefined"
  }

  /** The URL `scrapePage` returns: the root followed by the first next link's
      href, or `null` when the page has no next link. */
  function NextUrl(rootUrl: string, page: ListingPage): (r: Option<string>)
    ensures r.Some? <==> page.nextHrefs != []
    ensures r.Some? ==> |r.value| >= |rootUrl| && r.value[..|rootUrl|] == rootUrl
  {
    if page.nextHrefs != [] then Some(rootUrl + HrefText(page.nextHrefs[0])) else None
  }

  /** `while (url)`: `null` and the empty string stop the loop. */
  predicate Truthy(url: Option<string>) {
    url.Some? && url.value != ""
  }

  /** The URL the `while (url)` loop tests after visiting `urls`: the start
      URL before the first page, afterwards the next link of the last page. */
  function Pending(site: Site, start: string, urls: seq<string>): (r: Option<string>)
    ensures urls != [] ==> (r.Some? <==> PageAt(site, urls[|urls| - 1]).nextHrefs != [])
    ensures urls == [] ==> r == Some(start)
  {
    if urls == [] then Some(start) else NextUrl(site.rootUrl, PageAt(site, urls[|urls| - 1]))
  }

  /** `Math.ceil(members.total / $rows.length)`. */
  function PagesTotal(membersTotal: JsNumber, rows: nat): JsNumber {
    Ceil(Divide(membersTotal, FromInt(rows)))
  }

  /** With a known number of entries, `pages.total` is the number of pages of
      `rows` rows the entries fill; a page without rows gives Infinity (or NaN
      for no entries). */
  lemma PagesTotalOfEntries(entries: nat, rows: nat)
    ensures rows > 0 ==> PagesTotal(FromInt(entries), rows) == FromInt((entries + rows - 1) / rows)
    ensures rows > 0 ==> (entries + rows - 1) / rows * rows >= entries
    ensures rows > 0 && entries > 0 ==> ((entries + rows - 1) / rows - 1) * rows < entries
    ensures rows == 0 ==> PagesTotal(FromInt(entries), rows) == (if entries > 0 then PosInfinity else NaN)
  {
    CeilOfCountRatio(entries, rows);
    if rows > 0 {
      var c := (entries + rows - 1) / rows;
      assert c * rows <= entries + rows - 1 < c * rows + rows;
    }
  }

  /** `JSON.stringify` of each record of a page, in order. */
  function Encoded(encode: Member -> string, members: seq<Member>): (r: seq<string>)
    ensures |r| == |members|
  {
    seq(|members|, i requires 0 <= i < |members| => encode(members[i]))
  }

  function EncodedRun(encode: Member -> string, batches: seq<seq<Member>>): (r: seq<seq<string>>)
    ensures |r| == |batches|
  {
    seq(|batches|, k requires 0 <= k < |batches| => Encoded(encode, batches[k]))
  }

  // ---------------------------------------------------------------------------
  // scrapePage

  /** How `scrapePage` ends: it returns the next URL (or `null`), it throws
      because the first page has no entry count, or it never returns because
      the page's records never add up to its rows. */
  datatype PageOutcome = NextPage(url: Option<string>) | EntryCountMissing | Stalled

  method ScrapePage(site: Site, url: string, time: int, metrics: RunMetrics, file: OutputFile)
    returns (outcome: PageOutcome, batch: seq<Member>)
    requires metrics.pages != metrics.members
    modifies metrics.pages, metrics.members, file
    ensures var first := old(metrics.pages.parsed) == 0;
            outcome.EntryCountMissing? <==> first && EntryCount(PageAt(site, url).entriesText).None?
    ensures outcome.EntryCountMissing? ==> unchanged(metrics.pages, metrics.members, file)
    ensures !outcome.EntryCountMissing? ==>
              var entries := EntryCount(PageAt(site, url).entriesText);
              var first := old(metrics.pages.parsed) == 0;
              metrics.members.total == (if first then FromInt(entries.value) else old(metrics.members.total))
              && metrics.members.totalCount == (if first then FromInt(entries.value) else old(metrics.members.totalCount))
    ensures !outcome.EntryCountMissing? ==>
              metrics.pages.total == PagesTotal(metrics.members.total, |PageAt(site, url).rows|)
              && metrics.pages.totalCount == metrics.pages.total
              && metrics.members.Snapshot() == Tallied(old(metrics.members.Snapshot()), PageReports(site, url))
    ensures outcome.Stalled? <==> !outcome.EntryCountMissing? && !Resolves(site, url)
    ensures outcome.Stalled? ==> file.content == old(file.content) && metrics.pages.Snapshot() == old(metrics.pages.Snapshot())
    ensures outcome.NextPage? ==>
              outcome.url == NextUrl(site.rootUrl, PageAt(site, url))
              && Stepped(site, time, url, batch,
                         old(metrics.pages.Snapshot()), old(metrics.members.Snapshot()), old(metrics.members.total), old(file.content),
                         metrics.pages.Snapshot(), metrics.members.Snapshot(), metrics.members.total, file.content)
  {
    batch := [];
    var html, _ := FetchPage(url, null, site.serve);
    var page := site.load(html);
    var known := ReadEntryCount(page.entriesText, metrics);
    if !known {
      // `total_entries.toString()` on `null` throws; the error is rethrown.
      outcome := EntryCountMissing;
      return;
    }
    outcome, batch := ProcessPage(site, url, html, time, metrics, file);
  }

  /** The first-page step of `scrapePage`: while `pages.parsed === 0`, store
      the number of entries in `members.total`. `false` when there is none to
      read and the page throws. */
  method ReadEntryCount(text: string, metrics: RunMetrics) returns (known: bool)
    requires metrics.pages != metrics.members
    modifies metrics.members
    ensures known <==> metrics.pages.parsed != 0 || EntryCount(text).Some?
    ensures !known ==> unchanged(metrics.members)
    ensures known ==> metrics.members.total == (if metrics.pages.parsed == 0 then FromInt(EntryCount(text).value) else old(metrics.members.total))
    ensures known ==> metrics.members.totalCount == (if metrics.pages.parsed == 0 then FromInt(EntryCount(text).value) else old(metrics.members.totalCount))
    ensures metrics.members.Snapshot() == old(metrics.members.Snapshot())
  {
    known := true;
    if metrics.pages.parsed == 0 {
      var entries := EntryCount(text);
      if entries.None? {
        known := false;
        return;
      }
      metrics.members.SetTotal(FromInt(entries.value));
    }
  }

  /** The rest of `scrapePage` once the number of entries is known: the next
      URL, `pages.total`, the workers' records and the page's fragment. */
  method ProcessPage(site: Site, url: string, html: string, time: int, metrics: RunMetrics, file: OutputFile)
    returns (outcome: PageOutcome, batch: seq<Member>)
    requires metrics.pages != metrics.members && html == site.serve(url)
    modifies metrics.pages, metrics.members, file
    ensures !outcome.EntryCountMissing?
    ensures metrics.members.total == old(metrics.members.total) && metrics.members.totalCount == old(metrics.members.totalCount)
    ensures metrics.pages.total == PagesTotal(metrics.members.total, |PageAt(site, url).rows|)
    ensures metrics.pages.totalCount == metrics.pages.total
    ensures metrics.members.Snapshot() == Tallied(old(metrics.members.Snapshot()), PageReports(site, url))
    ensures outcome.Stalled? <==> !Resolves(site, url)
    ensures outcome.Stalled? ==> file.content == old(file.content) && metrics.pages.Snapshot() == old(metrics.pages.Snapshot())
    ensures outcome.NextPage? ==>
              outcome.url == NextUrl(site.rootUrl, PageAt(site, url))
              && multiset(batch) == multiset(PageRecords(site, url))
              && (AllNamed(PageRecords(site, url)) ==> SortedByName(batch))
              && file.content == old(file.content) + Fragment(Encoded(site.encode, batch), old(metrics.pages.parsed), outcome.url.Some?)
              && metrics.pages.Snapshot() == Tally(old(metrics.pages.parsed) + 1, old(metrics.pages.timeTotal) + time,
                                                   FoldMin(old(metrics.pages.timeMin), time), FoldMax(old(metrics.pages.timeMax), time))
  {
    batch := [];
    var page := site.load(html);
    var nextPage := page.nextHrefs != [];
    var next := NextUrl(site.rootUrl, page);
    var keys := ColumnNames(page.headerCells);
    var rows := |page.rows|;
    metrics.pages.SetTotal(PagesTotal(metrics.members.total, rows));

    // delegateProcessingToWorkers
    var plan := PlanAssignments(rows, NumberOfWorkers(site.cpus));
    var arrivals := site.respond(html, keys, plan);
    assert arrivals == ArrivalsAt(site, url);
    var members := CollectPage(rows, arrivals, metrics.members);
    if members.None? {
      outcome := Stalled;
      return;
    }
    batch := members.value;

    var json := Fragment(Encoded(site.encode, batch), metrics.pages.parsed, nextPage);
    file.Write(json);
    metrics.pages.AddTime(time);
    metrics.pages.IncrementParsed();
    outcome := NextPage(next);
  }

  // ---------------------------------------------------------------------------
  // scrape

  /** How `scrape` ends: every page done and the loop left on a `null` (or
      empty) URL, a page that throws or never returns, or the page budget of
      the model spent. */
  datatype RunOutcome = Completed | StoppedAt(url: string, reason: PageOutcome) | OutOfFuel

  /** Each visited URL is non-empty and is the next URL of the page before it
      (the first one being the start). */
  predicate Chained(site: Site, start: string, urls: seq<string>)
    decreases |urls|
  {
    if urls == [] then true
    else
      var n := |urls|;
      urls[n - 1] != ""
      && if n == 1 then urls[0] == start
         else Chained(site, start, urls[..n - 1]) && NextUrl(site.rootUrl, PageAt(site, urls[n - 2])) == Some(urls[n - 1])
  }

  /** The run's URLs link by link: the first is the start URL, none is
      empty, and each is the next link of the page before it. */
  predicate LinkByLink(site: Site, start: string, urls: seq<string>) {
    (urls != [] ==> urls[0] == start)
    && (forall k :: 0 <= k < |urls| ==> urls[k] != "")
    && (forall k :: 0 <= k < |urls| - 1 ==> NextUrl(site.rootUrl, PageAt(site, urls[k])) == Some(urls[k + 1]))
  }

  /** `Chained` is `LinkByLink`. */
  lemma ChainedLinks(site: Site, start: string, urls: seq<string>)
    ensures Chained(site, start, urls) <==> LinkByLink(site, start, urls)
  {
    if Chained(site, start, urls) {
      ChainedIsLinkByLink(site, start, urls);
    }
    if LinkByLink(site, start, urls) {
      LinkByLinkIsChained(site, start, urls);
    }
  }

  lemma {:induction false} ChainedIsLinkByLink(site: Site, start: string, urls: seq<string>)
    requires Chained(site, start, urls)
    ensures LinkByLink(site, start, urls)
    decreases |urls|
  {
    if |urls| > 1 {
      var n := |urls|;
      var init := urls[..n - 1];
      ChainedIsLinkByLink(site, start, init);
      forall k | 0 <= k < n ensures urls[k] != "" {
        if k < n - 1 {
          assert init[k] == urls[k];
        }
      }
      forall k | 0 <= k < n - 1 ensures NextUrl(site.rootUrl, PageAt(site, urls[k])) == Some(urls[k + 1]) {
        if k < n - 2 {
          assert init[k] == urls[k] && init[k + 1] == urls[k + 1];
        }
      }
    }
  }

  lemma {:induction false} LinkByLinkIsChained(site: Site, start: string, urls: seq<string>)
    requires LinkByLink(site, start, urls)
    ensures Chained(site, start, urls)
    decreases |urls|
  {
    if |urls| > 1 {
      var n := |urls|;
      var init := urls[..n - 1];
      forall k | 0 <= k < n - 1 ensures init[k] != "" {
        assert init[k] == urls[k];
      }
      forall k | 0 <= k < n - 2 ensures NextUrl(site.rootUrl, PageAt(site, init[k])) == Some(init[k + 1]) {
        assert init[k] == urls[k] && init[k + 1] == urls[k + 1];
      }
      LinkByLinkIsChained(site, start, init);
    }
  }

  /** The last page visited has no next link (so its `]` was kept). */
  predicate ClosedRun(site: Site, urls: seq<string>) {
    urls == [] || NextUrl(site.rootUrl, PageAt(site, urls[|urls| - 1])).None?
  }

  /** The page timer's results for the first `n` pages of the run. */
  function PageTimes(pageTime: nat -> int, n: nat): (r: seq<int>)
    ensures |r| == n
  {
    seq(n, k requires 0 <= k < n => pageTime(k))
  }

  /** What one more page adds to the run's specification functions. */
  lemma RunStep(site: Site, urls: seq<string>, u: string, batches: seq<seq<Member>>, batch: seq<Member>,
                pageTime: nat -> int, parsed0: int)
    ensures RunReports(site, urls + [u]) == RunReports(site, urls) + PageReports(site, u)
    ensures EncodedRun(site.encode, batches + [batch]) == EncodedRun(site.encode, batches) + [Encoded(site.encode, batch)]
    ensures PageTimes(pageTime, |batches| + 1) == PageTimes(pageTime, |batches|) + [pageTime(|batches|)]
    ensures var run, b := EncodedRun(site.encode, batches), Encoded(site.encode, batch);
            Opened(run + [b], parsed0) == Opened(run, parsed0) + Piece(b, parsed0 + |run|, true)
            && Written(run + [b], parsed0) == Opened(run, parsed0) + Piece(b, parsed0 + |run|, false)
  {
    assert (urls + [u])[..|urls|] == urls;
    var run, b := EncodedRun(site.encode, batches), Encoded(site.encode, batch);
    assert (run + [b])[..|run|] == run;
  }

  /** What the run has done after scraping the pages at `urls`, each of which
      had a next link, with `batches` their sorted records: the state at the
      start of the run was `pages0` and `members0` (the counters) and
      `total0` (`members.total`), and the file was truncated. The state now is
      `pagesNow` and `membersNow`, `membersTotal` and the file's `content`. */
  ghost predicate Accounted(site: Site, start: string, pageTime: nat -> int, pages0: Tally, members0: Tally, total0: JsNumber,
                            urls: seq<string>, batches: seq<seq<Member>>,
                            pagesNow: Tally, membersNow: Tally, membersTotal: JsNumber, content: string)
  {
    pages0.parsed >= 0 && Chained(site, start, urls) && |urls| == |batches|
    && SortedPages(site, urls, batches)
    && PagesTimed(pageTime, pages0, |batches|, pagesNow)
    && membersNow == Tallied(members0, RunReports(site, urls))
    && TotalRead(pages0.parsed, total0, urls != [], EntryCount(PageAt(site, start).entriesText), membersTotal)
    && FileHolds(site, urls, batches, pages0.parsed, content)
  }

  /** The page counter after the first `n` pages, timed by `pageTime`. */
  predicate PagesTimed(pageTime: nat -> int, pages0: Tally, n: nat, pagesNow: Tally) {
    var times := PageTimes(pageTime, n);
    pagesNow == Tally(pages0.parsed + n, pages0.timeTotal + Sum(times), MinFrom(pages0.timeMin, times), MaxFrom(pages0.timeMax, times))
  }

  /** `members.total`: the start page's number of entries when the run began
      with `pages.parsed === 0` (once a page was scraped), kept otherwise. */
  predicate TotalRead(parsed0: int, total0: JsNumber, started: bool, startEntries: Option<nat>, membersTotal: JsNumber) {
    (parsed0 == 0 && started ==> startEntries.Some? && membersTotal == FromInt(startEntries.value))
    && (parsed0 != 0 ==> membersTotal == total0)
  }

  /** The output file: the pieces of every page, the last one closed when
      it had no next link. */
  predicate FileHolds(site: Site, urls: seq<string>, batches: seq<seq<Member>>, parsed0: int, content: string) {
    content == if ClosedRun(site, urls) then Written(EncodedRun(site.encode, batches), parsed0)
               else Opened(EncodedRun(site.encode, batches), parsed0)
  }

  /** A batch holds the records of the page at `url`, sorted by name when
      they all have one. */
  predicate PageSorted(site: Site, url: string, batch: seq<Member>) {
    multiset(batch) == multiset(PageRecords(site, url))
    && (AllNamed(PageRecords(site, url)) ==> SortedByName(batch))
  }

  /** Batch `k` is `PageSorted` for page `k`. */
  predicate SortedPages(site: Site, urls: seq<string>, batches: seq<seq<Member>>)
    requires |urls| == |batches|
    decreases |urls|
  {
    if urls == [] then true
    else
      var n := |urls|;
      SortedPages(site, urls[..n - 1], batches[..n - 1]) && PageSorted(site, urls[n - 1], batches[n - 1])
  }

  /** `SortedPages`, page by page. */
  lemma {:induction false} SortedPagesEach(site: Site, urls: seq<string>, batches: seq<seq<Member>>)
    requires |urls| == |batches|
    ensures SortedPages(site, urls, batches) <==> forall k :: 0 <= k < |urls| ==> PageSorted(site, urls[k], batches[k])
    decreases |urls|
  {
    if urls != [] {
      var n := |urls|;
      var us, bs := urls[..n - 1], batches[..n - 1];
      SortedPagesEach(site, us, bs);
      if SortedPages(site, urls, batches) {
        forall k | 0 <= k < n ensures PageSorted(site, urls[k], batches[k]) {
          if k < n - 1 {
            assert us[k] == urls[k] && bs[k] == batches[k];
          }
        }
      }
      if forall k :: 0 <= k < n ==> PageSorted(site, urls[k], batches[k]) {
        forall k | 0 <= k < n - 1 ensures PageSorted(site, us[k], bs[k]) {
          assert us[k] == urls[k] && bs[k] == batches[k];
        }
      }
    }
  }

  /** `Accounted` of the run's counters and file. */
  ghost predicate Progress(site: Site, start: string, pageTime: nat -> int, pages0: Tally, members0: Tally, total0: JsNumber,
                           urls: seq<string>, batches: seq<seq<Member>>, metrics: RunMetrics, file: OutputFile)
    reads metrics, metrics.pages, metrics.members, file
  {
    Accounted(site, start, pageTime, pages0, members0, total0, urls, batches,
              metrics.pages.Snapshot(), metrics.members.Snapshot(), metrics.members.total, file.content)
  }

  lemma ChainedStep(site: Site, start: string, urls: seq<string>, u: string)
    requires Chained(site, start, urls)
    requires u != "" && (urls == [] ==> u == start)
    requires urls != [] ==> NextUrl(site.rootUrl, PageAt(site, urls[|urls| - 1])) == Some(u)
    ensures Chained(site, start, urls + [u])
  {
    assert (urls + [u])[..|urls|] == urls;
  }

  lemma SortedPagesStep(site: Site, urls: seq<string>, batches: seq<seq<Member>>, u: string, batch: seq<Member>)
    requires |urls| == |batches| && SortedPages(site, urls, batches)
    requires PageSorted(site, u, batch)
    ensures SortedPages(site, urls + [u], batches + [batch])
  {
    assert |batch| == |multiset(batch)| == |multiset(PageRecords(site, u))| == |PageRecords(site, u)|;
    assert (urls + [u])[..|urls|] == urls && (batches + [batch])[..|batches|] == batches;
  }

  /** The page counter after one more page timed at `pageTime(n)`. */
  lemma PagesStep(pageTime: nat -> int, pages0: Tally, n: nat, before: Tally, after: Tally)
    requires PagesTimed(pageTime, pages0, n, before)
    requires after == Tally(before.parsed + 1, before.timeTotal + pageTime(n),
                            FoldMin(before.timeMin, pageTime(n)), FoldMax(before.timeMax, pageTime(n)))
    ensures PagesTimed(pageTime, pages0, n + 1, after)
  {
    var times, x, times' := PageTimes(pageTime, n), pageTime(n), PageTimes(pageTime, n + 1);
    assert times' == times + [x] && times'[..n] == times;
    MinFromSnoc(pages0.timeMin, times, x);
    MaxFromSnoc(pages0.timeMax, times, x);
  }

  /** The file after one more page with records `batch`. */
  lemma FileStep(site: Site, urls: seq<string>, batches: seq<seq<Member>>, u: string, batch: seq<Member>,
                 parsed0: int, before: string, after: string)
    requires before == Opened(EncodedRun(site.encode, batches), parsed0)
    requires after == before + Fragment(Encoded(site.encode, batch), parsed0 + |batches|,
                                        NextUrl(site.rootUrl, PageAt(site, u)).Some?)
    ensures FileHolds(site, urls + [u], batches + [batch], parsed0, after)
  {
    var next := NextUrl(site.rootUrl, PageAt(site, u)).Some?;
    RunStep(site, urls, u, batches, batch, k => 0, parsed0);
    FragmentShape(Encoded(site.encode, batch), parsed0 + |batches|, next);
    assert ClosedRun(site, urls + [u]) <==> !next;
  }

  /** A run whose last page had a next link left the file open. */
  lemma OpenRun(site: Site, urls: seq<string>, batches: seq<seq<Member>>, parsed0: int, content: string)
    requires |urls| == |batches| && FileHolds(site, urls, batches, parsed0, content)
    requires urls != [] ==> NextUrl(site.rootUrl, PageAt(site, urls[|urls| - 1])).Some?
    ensures content == Opened(EncodedRun(site.encode, batches), parsed0)
  {
    if urls == [] {
      assert EncodedRun(site.encode, batches) == [];
    }
  }

  /** `members.total` after one more page, whose number of entries is
      `entries`. */
  lemma TotalStep(parsed0: int, total0: JsNumber, started: bool, startEntries: Option<nat>, entries: Option<nat>,
                  parsedBefore: int, totalBefore: JsNumber, totalAfter: JsNumber)
    requires parsed0 >= 0
    requires !started ==> entries == startEntries && parsedBefore == parsed0
    requires started ==> parsedBefore > parsed0
    requires TotalRead(parsed0, total0, started, startEntries, totalBefore)
    requires parsedBefore == 0 ==> entries.Some? && totalAfter == FromInt(entries.value)
    requires parsedBefore != 0 ==> totalAfter == totalBefore
    ensures TotalRead(parsed0, total0, true, startEntries, totalAfter)
  {
  }

  /** `u` is the next URL to visit after `urls`. */
  predicate Linked(site: Site, start: string, urls: seq<string>, u: string) {
    u != "" && (urls == [] ==> u == start)
    && (urls != [] ==> NextUrl(site.rootUrl, PageAt(site, urls[|urls| - 1])) == Some(u))
  }

  /** What scraping the page at `u`, the page number `n` of the run, did to
      the counters, `members.total` and the file, with `batch` its records. */
  ghost predicate Stepped(site: Site, time: int, u: string, batch: seq<Member>,
                          pagesBefore: Tally, membersBefore: Tally, totalBefore: JsNumber, contentBefore: string,
                          pagesAfter: Tally, membersAfter: Tally, totalAfter: JsNumber, contentAfter: string)
  {
    var entries := EntryCount(PageAt(site, u).entriesText);
    PageSorted(site, u, batch)
    && pagesAfter == Tally(pagesBefore.parsed + 1, pagesBefore.timeTotal + time,
                           FoldMin(pagesBefore.timeMin, time), FoldMax(pagesBefore.timeMax, time))
    && membersAfter == Tallied(membersBefore, PageReports(site, u))
    && (pagesBefore.parsed == 0 ==> entries.Some? && totalAfter == FromInt(entries.value))
    && (pagesBefore.parsed != 0 ==> totalAfter == totalBefore)
    && contentAfter == contentBefore + Fragment(Encoded(site.encode, batch), pagesBefore.parsed,
                                                NextUrl(site.rootUrl, PageAt(site, u)).Some?)
  }

  /** The member counter after one more page. */
  lemma MembersAccounted(site: Site, start: string, pageTime: nat -> int, pages0: Tally, members0: Tally, total0: JsNumber,
      urls: seq<string>, batches: seq<seq<Member>>, u: string, batch: seq<Member>,
      pagesBefore: Tally, membersBefore: Tally, totalBefore: JsNumber, contentBefore: string,
      pagesAfter: Tally, membersAfter: Tally, totalAfter: JsNumber, contentAfter: string)
    requires Accounted(site, start, pageTime, pages0, members0, total0, urls, batches,
                       pagesBefore, membersBefore, totalBefore, contentBefore)
    requires Linked(site, start, urls, u)
    requires Stepped(site, pageTime(|batches|), u, batch, pagesBefore, membersBefore, totalBefore, contentBefore,
                     pagesAfter, membersAfter, totalAfter, contentAfter)
    ensures membersAfter == Tallied(members0, RunReports(site, urls + [u]))
  {
    assert RunReports(site, urls + [u]) == RunReports(site, urls) + PageReports(site, u) by {
      RunStep(site, urls, u, batches, batch, pageTime, pages0.parsed);
    }
    TalliedAppend(members0, RunReports(site, urls), PageReports(site, u));
  }

  /** `members.total` after one more page. */
  lemma TotalAccounted(site: Site, start: string, pageTime: nat -> int, pages0: Tally, members0: Tally, total0: JsNumber,
      urls: seq<string>, batches: seq<seq<Member>>, u: string, batch: seq<Member>,
      pagesBefore: Tally, membersBefore: Tally, totalBefore: JsNumber, contentBefore: string,
      pagesAfter: Tally, membersAfter: Tally, totalAfter: JsNumber, contentAfter: string)
    requires Accounted(site, start, pageTime, pages0, members0, total0, urls, batches,
                       pagesBefore, membersBefore, totalBefore, contentBefore)
    requires Linked(site, start, urls, u)
    requires Stepped(site, pageTime(|batches|), u, batch, pagesBefore, membersBefore, totalBefore, contentBefore,
                     pagesAfter, membersAfter, totalAfter, contentAfter)
    ensures TotalRead(pages0.parsed, total0, urls + [u] != [], EntryCount(PageAt(site, start).entriesText), totalAfter)
  {
    TotalStep(pages0.parsed, total0, urls != [], EntryCount(PageAt(site, start).entriesText),
              EntryCount(PageAt(site, u).entriesText), pagesBefore.parsed, totalBefore, totalAfter);
  }

  /** The visited URLs, the batches and the file after one more page. */
  lemma ShapeAccounted(site: Site, start: string, pageTime: nat -> int, pages0: Tally, members0: Tally, total0: JsNumber,
                       urls: seq<string>, batches: seq<seq<Member>>, u: string, batch: seq<Member>,
                       pagesBefore: Tally, membersBefore: Tally, totalBefore: JsNumber, contentBefore: string,
                       pagesAfter: Tally, membersAfter: Tally, totalAfter: JsNumber, contentAfter: string)
    requires Accounted(site, start, pageTime, pages0, members0, total0, urls, batches,
                       pagesBefore, membersBefore, totalBefore, contentBefore)
    requires Linked(site, start, urls, u)
    requires Stepped(site, pageTime(|batches|), u, batch, pagesBefore, membersBefore, totalBefore, contentBefore,
                     pagesAfter, membersAfter, totalAfter, contentAfter)
    ensures Chained(site, start, urls + [u]) && SortedPages(site, urls + [u], batches + [batch])
    ensures FileHolds(site, urls + [u], batches + [batch], pages0.parsed, contentAfter)
  {
    ChainedStep(site, start, urls, u);
    SortedPagesStep(site, urls, batches, u, batch);
    OpenRun(site, urls, batches, pages0.parsed, contentBefore);
    FileStep(site, urls, batches, u, batch, pages0.parsed, contentBefore, contentAfter);
  }

  /** The counters and `members.total` after one more page. */
  lemma CountersAccounted(site: Site, start: string, pageTime: nat -> int, pages0: Tally, members0: Tally, total0: JsNumber,
                          urls: seq<string>, batches: seq<seq<Member>>, u: string, batch: seq<Member>,
                          pagesBefore: Tally, membersBefore: Tally, totalBefore: JsNumber, contentBefore: string,
                          pagesAfter: Tally, membersAfter: Tally, totalAfter: JsNumber, contentAfter: string)
    requires Accounted(site, start, pageTime, pages0, members0, total0, urls, batches,
                       pagesBefore, membersBefore, totalBefore, contentBefore)
    requires Linked(site, start, urls, u)
    requires Stepped(site, pageTime(|batches|), u, batch, pagesBefore, membersBefore, totalBefore, contentBefore,
                     pagesAfter, membersAfter, totalAfter, contentAfter)
    ensures PagesTimed(pageTime, pages0, |batches| + 1, pagesAfter)
    ensures membersAfter == Tallied(members0, RunReports(site, urls + [u]))
    ensures TotalRead(pages0.parsed, total0, urls + [u] != [], EntryCount(PageAt(site, start).entriesText), totalAfter)
  {
    PagesStep(pageTime, pages0, |batches|, pagesBefore, pagesAfter);
    MembersAccounted(site, start, pageTime, pages0, members0, total0, urls, batches, u, batch,
                 pagesBefore, membersBefore, totalBefore, contentBefore, pagesAfter, membersAfter, totalAfter, contentAfter);
    TotalAccounted(site, start, pageTime, pages0, members0, total0, urls, batches, u, batch,
                 pagesBefore, membersBefore, totalBefore, contentBefore, pagesAfter, membersAfter, totalAfter, contentAfter);
  }

  /** One more page with a next link keeps the account of the run. */
  lemma AccountedStep(site: Site, start: string, pageTime: nat -> int, pages0: Tally, members0: Tally, total0: JsNumber,
                      urls: seq<string>, batches: seq<seq<Member>>, u: string, batch: seq<Member>,
                      pagesBefore: Tally, membersBefore: Tally, totalBefore: JsNumber, contentBefore: string,
                      pagesAfter: Tally, membersAfter: Tally, totalAfter: JsNumber, contentAfter: string)
    requires Accounted(site, start, pageTime, pages0, members0, total0, urls, batches,
                       pagesBefore, membersBefore, totalBefore, contentBefore)
    requires Linked(site, start, urls, u)
    requires Stepped(site, pageTime(|batches|), u, batch, pagesBefore, membersBefore, totalBefore, contentBefore,
                     pagesAfter, membersAfter, totalAfter, contentAfter)
    ensures Accounted(site, start, pageTime, pages0, members0, total0, urls + [u], batches + [batch],
                      pagesAfter, membersAfter, totalAfter, contentAfter)
  {
    ShapeAccounted(site, start, pageTime, pages0, members0, total0, urls, batches, u, batch,
                   pagesBefore, membersBefore, totalBefore, contentBefore, pagesAfter, membersAfter, totalAfter, contentAfter);
    CountersAccounted(site, start, pageTime, pages0, members0, total0, urls, batches, u, batch,
                      pagesBefore, membersBefore, totalBefore, contentBefore, pagesAfter, membersAfter, totalAfter, contentAfter);
  }

  /** The member counter and `members.total` after a page that read its entry
      count but never returned: its messages were folded in all the same. */
  lemma StalledAccounted(site: Site, start: string, pageTime: nat -> int, pages0: Tally, members0: Tally, total0: JsNumber,
                         urls: seq<string>, batches: seq<seq<Member>>, u: string,
                         pagesBefore: Tally, membersBefore: Tally, totalBefore: JsNumber, contentBefore: string,
                         membersAfter: Tally, totalAfter: JsNumber)
    requires Accounted(site, start, pageTime, pages0, members0, total0, urls, batches,
                       pagesBefore, membersBefore, totalBefore, contentBefore)
    requires Linked(site, start, urls, u)
    requires membersAfter == Tallied(membersBefore, PageReports(site, u))
    requires var entries := EntryCount(PageAt(site, u).entriesText);
             (pagesBefore.parsed == 0 ==> entries.Some? && totalAfter == FromInt(entries.value))
             && (pagesBefore.parsed != 0 ==> totalAfter == totalBefore)
    ensures membersAfter == Tallied(members0, RunReports(site, urls + [u]))
    ensures TotalRead(pages0.parsed, total0, true, EntryCount(PageAt(site, start).entriesText), totalAfter)
  {
    RunStep(site, urls, u, batches, [], pageTime, pages0.parsed);
    TalliedAppend(members0, RunReports(site, urls), PageReports(site, u));
    TotalStep(pages0.parsed, total0, urls != [], EntryCount(PageAt(site, start).entriesText),
              EntryCount(PageAt(site, u).entriesText), pagesBefore.parsed, totalBefore, totalAfter);
  }

  /** One turn of the loop: scrape the page at `u`, the next URL of the last
      page (or the start), and account for it. */
  method ScrapeNext(site: Site, ghost start: string, pageTime: nat -> int, ghost pages0: Tally, ghost members0: Tally, ghost total0: JsNumber,
                    urls: seq<string>, batches: seq<seq<Member>>, u: string, metrics: RunMetrics, file: OutputFile)
    returns (page: PageOutcome, batch: seq<Member>)
    requires metrics.pages != metrics.members
    requires Progress(site, start, pageTime, pages0, members0, total0, urls, batches, metrics, file)
    requires u != "" && (urls == [] ==> u == start)
    requires urls != [] ==> NextUrl(site.rootUrl, PageAt(site, urls[|urls| - 1])) == Some(u)
    modifies metrics.pages, metrics.members, file
    ensures page.NextPage? ==> page.url == NextUrl(site.rootUrl, PageAt(site, u))
    ensures page.NextPage? ==> Progress(site, start, pageTime, pages0, members0, total0, urls + [u], batches + [batch], metrics, file)
    ensures !page.NextPage? ==> page.EntryCountMissing? || page.Stalled?
    ensures !page.NextPage? ==> file.content == Opened(EncodedRun(site.encode, batches), pages0.parsed)
                                && metrics.pages.parsed == pages0.parsed + |batches|
    ensures page.EntryCountMissing? ==> urls == [] && pages0.parsed == 0 && metrics.Fields() == old(metrics.Fields())
    ensures page.Stalled? ==>
              PagesTimed(pageTime, pages0, |batches|, metrics.pages.Snapshot())
              && metrics.members.Snapshot() == Tallied(members0, RunReports(site, urls + [u]))
              && TotalRead(pages0.parsed, total0, true, EntryCount(PageAt(site, start).entriesText), metrics.members.total)
              && metrics.pages.total == PagesTotal(metrics.members.total, |PageAt(site, u).rows|)
              && metrics.pages.totalCount == metrics.pages.total
  {
    ghost var pagesBefore, membersBefore := metrics.pages.Snapshot(), metrics.members.Snapshot();
    ghost var totalBefore, contentBefore := metrics.members.total, file.content;
    page, batch := ScrapePage(site, u, pageTime(|batches|), metrics, file);
    if !page.NextPage? {
      OpenRun(site, urls, batches, pages0.parsed, file.content);
      if page.Stalled? {
        StalledAccounted(site, start, pageTime, pages0, members0, total0, urls, batches, u,
                         pagesBefore, membersBefore, totalBefore, contentBefore,
                         metrics.members.Snapshot(), metrics.members.total);
      }
    } else {
      AccountedStep(site, start, pageTime, pages0, members0, total0, urls, batches, u, batch,
                    pagesBefore, membersBefore, totalBefore, contentBefore,
                    metrics.pages.Snapshot(), metrics.members.Snapshot(), metrics.members.total, file.content);
    }
  }

  /** The `while (url)` loop of `scrape`, after `cleanFile`: page `k` is timed
      at `pageTime(k)`; at most `fuel` pages are scraped. */
  method Scrape(site: Site, start: string, pageTime: nat -> int, fuel: nat, metrics: RunMetrics, file: OutputFile)
    returns (outcome: RunOutcome, urls: seq<string>, batches: seq<seq<Member>>)
    requires metrics.pages != metrics.members
    modifies metrics.pages, metrics.members, file
    requires metrics.pages.parsed >= 0
    ensures start == "" ==> outcome.Completed? && urls == []
    ensures |urls| == |batches| <= fuel
    ensures outcome.StoppedAt? ==> outcome.reason.EntryCountMissing? || outcome.reason.Stalled?
    ensures outcome.Completed? ==> !Truthy(Pending(site, start, urls))
    ensures outcome.OutOfFuel? ==> |batches| == fuel && Truthy(Pending(site, start, urls))
    ensures !outcome.StoppedAt? ==>
              Progress(site, start, pageTime, old(metrics.pages.Snapshot()), old(metrics.members.Snapshot()), old(metrics.members.total),
                       urls, batches, metrics, file)
    ensures outcome.StoppedAt? ==>
              Chained(site, start, urls) && SortedPages(site, urls, batches)
              && Pending(site, start, urls) == Some(outcome.url) && Linked(site, start, urls, outcome.url)
              && file.content == Opened(EncodedRun(site.encode, batches), old(metrics.pages.parsed))
              && metrics.pages.parsed == old(metrics.pages.parsed) + |batches|
    ensures outcome.StoppedAt? && outcome.reason.EntryCountMissing? ==>
              urls == [] && outcome.url == start && old(metrics.pages.parsed) == 0 && metrics.Fields() == old(metrics.Fields())
    ensures outcome.StoppedAt? && outcome.reason.Stalled? ==>
              var pages0 := old(metrics.pages.Snapshot());
              PagesTimed(pageTime, pages0, |batches|, metrics.pages.Snapshot())
              && metrics.members.Snapshot() == Tallied(old(metrics.members.Snapshot()), RunReports(site, urls + [outcome.url]))
              && TotalRead(pages0.parsed, old(metrics.members.total), true, EntryCount(PageAt(site, start).entriesText),
                           metrics.members.total)
              && metrics.pages.total == PagesTotal(metrics.members.total, |PageAt(site, outcome.url).rows|)
              && metrics.pages.totalCount == metrics.pages.total
  {
    ghost var pages0, members0, total0 := metrics.pages.Snapshot(), metrics.members.Snapshot(), metrics.members.total;
    ghost var fields0 := metrics.Fields();
    file.Clean();
    urls, batches := [], [];
    assert Progress(site, start, pageTime, pages0, members0, total0, urls, batches, metrics, file);
    var url: Option<string> := Some(start);
    while Truthy(url) && |batches| < fuel
      invariant Progress(site, start, pageTime, pages0, members0, total0, urls, batches, metrics, file)
      invariant |batches| <= fuel
      invariant url == Pending(site, start, urls)
      invariant start == "" ==> urls == []
      invariant urls == [] ==> metrics.Fields() == fields0
      decreases fuel - |batches|
    {
      var u := url.value;
      var page, batch := ScrapeNext(site, start, pageTime, pages0, members0, total0, urls, batches, u, metrics, file);
      if !page.NextPage? {
        outcome := StoppedAt(u, page);
        return;
      }
      urls, batches := urls + [u], batches + [batch];
      url := page.url;
    }
    outcome := if Truthy(url) then OutOfFuel else Completed;
  }
}
