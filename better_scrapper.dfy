/** better_scrapper.js, the sequential scraper: listing pages one after
    another, the first three rows of each, every member's detail page fetched
    and parsed in turn, each record appended to the output file as soon as it
    is parsed, and the run's counters and timings kept in module-level
    variables that getPerformanceResults reads at the end. */
module BetterScrapper {
  import opened JsRuntime
  import opened Dom
  import opened Utils
  import opened Metrics
  import opened MemberParsers
  import opened Scrapper

  /** The rows per page that the `$rows.slice(0, 3)` marked "DEBUG ONLY" keeps. */
  const DebugRows: nat := 3

  /** What the site serves and how its pages read: `serve` is the HTML behind
      a URL, `listing` and `details` what the DOM queries find in such HTML,
      and `encode` is `JSON.stringify` of a record. */
  datatype Directory = Directory(
    serve: string -> string,
    listing: string -> ListingPage,
    details: string -> seq<DetailRow>,
    encode: Member -> string)

  function ListingAt(dir: Directory, url: string): ListingPage {
    dir.listing(dir.serve(url))
  }

  function DetailRowsAt(dir: Directory, url: string): seq<DetailRow> {
    dir.details(dir.serve(url))
  }

  /** `$rows.slice(0, 3)`: the first rows of the page, at most three. */
  function Capped(rows: seq<seq<Cell>>): (r: seq<seq<Cell>>)
    ensures |r| == Min(|rows|, DebugRows) && r == rows[..|r|]
  {
    if |rows| <= DebugRows then rows else rows[..DebugRows]
  }

  // ---------------------------------------------------------------------------
  // scrapeMembers and scrapeMemberData

  /** scrapeMemberData: the row's listing fields and, under `details`, the
      parsed detail page its first link points to, or the TypeError that
      parsing throws. */
  function MemberOf(dir: Directory, keys: seq<string>, row: seq<Cell>): Result<Member> {
    match DetailsOf(DetailRowsAt(dir, MemberUrl(row)))
    case Err(e) => Err(e)
    case Ok(d) => Ok(Member(GeneralData(row, keys), d))
  }

  /** scrapeMemberData for each row in turn. */
  function Results(dir: Directory, keys: seq<string>, rows: seq<seq<Cell>>): (rs: seq<Result<Member>>)
    ensures |rs| == |rows|
  {
    seq(|rows|, k requires 0 <= k < |rows| => MemberOf(dir, keys, rows[k]))
  }

  /** What scrapeMembers gets through: the records of the rows before the
      first one whose detail page throws, and that error. */
  datatype Batch = Batch(members: seq<Member>, failure: Option<DetailError>)

  /** The batch of the rows whose scrapeMemberData results are `rs`. */
  function Through(rs: seq<Result<Member>>): (b: Batch)
    ensures |b.members| <= |rs|
    ensures b.failure.None? ==> |b.members| == |rs|
    decreases |rs|
  {
    if rs == [] then Batch([], None)
    else
      var before := Through(rs[..|rs| - 1]);
      if before.failure.Some? then before
      else match rs[|rs| - 1]
        case Ok(m) => Batch(before.members + [m], None)
        case Err(e) => Batch(before.members, Some(e))
  }

  /** Record `k` is the result of row `k`; the batch stops exactly at the
      first row that throws, with that row's error. */
  lemma ThroughEach(rs: seq<Result<Member>>)
    ensures var b := Through(rs);
            (forall k :: 0 <= k < |b.members| ==> rs[k] == Ok(b.members[k]))
            && (b.failure.Some? ==> |b.members| < |rs| && rs[|b.members|] == Err(b.failure.value))
            && (b.failure.None? <==> forall k :: 0 <= k < |rs| ==> rs[k].Ok?)
  {
    ThroughMembers(rs);
    ThroughFailure(rs);
  }

  lemma {:induction false} ThroughMembers(rs: seq<Result<Member>>)
    ensures var b := Through(rs);
            forall k :: 0 <= k < |b.members| ==> rs[k] == Ok(b.members[k])
    decreases |rs|
  {
    if rs != [] {
      var n := |rs|;
      var init := rs[..n - 1];
      ThroughMembers(init);
      var before, after := Through(init), Through(rs);
      forall k | 0 <= k < |after.members| ensures rs[k] == Ok(after.members[k]) {
        if k < |before.members| {
          assert init[k] == rs[k] && after.members[k] == before.members[k];
        }
      }
    }
  }

  lemma {:induction false} ThroughFailure(rs: seq<Result<Member>>)
    ensures var b := Through(rs);
            b.failure.Some? ==> |b.members| < |rs| && rs[|b.members|] == Err(b.failure.value)
    decreases |rs|
  {
    if rs != [] {
      var n := |rs|;
      var init := rs[..n - 1];
      ThroughFailure(init);
      var before := Through(init);
      if before.failure.Some? {
        assert init[|before.members|] == rs[|before.members|];
      }
    }
  }

  /** Once a prefix of the rows has thrown, the rows after it change nothing. */
  lemma {:induction false} ThroughStops(rs: seq<Result<Member>>, i: nat)
    requires i <= |rs| && Through(rs[..i]).failure.Some?
    ensures Through(rs) == Through(rs[..i])
    decreases |rs| - i
  {
    if i < |rs| {
      var next := rs[..i + 1];
      assert next[..i] == rs[..i];
      ThroughStops(rs, i + 1);
    } else {
      assert rs[..i] == rs;
    }
  }

  /** One more row: its record joins the batch, or its error ends it. */
  lemma ThroughStep(rs: seq<Result<Member>>, i: nat)
    requires i < |rs| && Through(rs[..i]).failure.None?
    ensures var before, after := Through(rs[..i]), Through(rs[..i + 1]);
            match rs[i]
            case Ok(m) => after == Batch(before.members + [m], None)
            case Err(e) => after == Batch(before.members, Some(e))
  {
    assert rs[..i + 1][..i] == rs[..i];
  }

  /** What writeToFile appended for `members`: their encodings back to back,
      with no separator between two records. */
  function Appended(encode: Member -> string, members: seq<Member>): string {
    if members == [] then "" else Appended(encode, members[..|members| - 1]) + encode(members[|members| - 1])
  }

  lemma AppendedSnoc(encode: Member -> string, members: seq<Member>, m: Member)
    ensures Appended(encode, members + [m]) == Appended(encode, members) + encode(m)
  {
    assert (members + [m])[..|members|] == members;
  }

  /** Writing one more record after `members` were written. */
  lemma AppendedOne(encode: Member -> string, content0: string, members: seq<Member>, m: Member)
    ensures content0 + Appended(encode, members + [m]) == content0 + Appended(encode, members) + encode(m)
  {
    AppendedSnoc(encode, members, m);
    ConcatAssociates(content0, Appended(encode, members), encode(m));
  }

  lemma ConcatAssociates<T>(a: seq<T>, b: seq<T>, c: seq<T>)
    ensures a + b + c == a + (b + c)
  {
  }

  /** Appending two runs of records appends their texts. */
  lemma {:induction false} AppendedConcat(encode: Member -> string, a: seq<Member>, b: seq<Member>)
    ensures Appended(encode, a + b) == Appended(encode, a) + Appended(encode, b)
    decreases |b|
  {
    if b == [] {
      assert a + b == a;
    } else {
      var n := |b|;
      assert (a + b)[..|a + b| - 1] == a + b[..n - 1];
      assert (a + b)[|a + b| - 1] == b[n - 1];
      AppendedConcat(encode, a, b[..n - 1]);
    }
  }

  // ---------------------------------------------------------------------------
  // The module-level counters

  /** TOTAL_ENTRIES: the number 0 until the run's first page stores the digits
      of its entry count. */
  datatype EntriesRead = Unread | Read(digits: string)

  /** PAGES_PARSED, PAGES_PARSE_TIMES, MEMBERS_PARSED, MEMBERS_PARSE_TIMES and
      TOTAL_ENTRIES at one moment. */
  datatype Counters = Counters(pagesParsed: nat, pageTimes: seq<int>, membersParsed: nat, memberTimes: seq<int>,
                               totalEntries: EntriesRead)

  /** The `let` variables at the top of better_scrapper.js. */
  class Globals {
    var pagesParsed: nat
    var pageTimes: seq<int>
    var membersParsed: nat
    var memberTimes: seq<int>
    var totalEntries: EntriesRead

    constructor ()
      ensures Snapshot() == Counters(0, [], 0, [], Unread)
    {
      pagesParsed, pageTimes, membersParsed, memberTimes, totalEntries := 0, [], 0, [], Unread;
    }

    function Snapshot(): Counters
      reads this
    {
      Counters(pagesParsed, pageTimes, membersParsed, memberTimes, totalEntries)
    }
  }

  /** The timer results of `n` consecutive pages (or members) numbered from
      `first`: the timer of page `k` is `time(k)`. */
  function Timings(time: nat -> int, first: nat, n: nat): (r: seq<int>)
    ensures |r| == n
  {
    seq(n, k requires 0 <= k < n => time(first + k))
  }

  lemma TimingsConcat(time: nat -> int, first: nat, a: nat, b: nat)
    ensures Timings(time, first, a + b) == Timings(time, first, a) + Timings(time, first + a, b)
  {
    var r, s, t := Timings(time, first, a + b), Timings(time, first, a), Timings(time, first + a, b);
    forall k | 0 <= k < a + b ensures r[k] == (s + t)[k] {
      if k >= a {
        assert t[k - a] == time(first + a + (k - a));
      }
    }
  }

  /** Recording the timers of `b` more pages (or members) after `a`. */
  lemma TimesExtended(prior: seq<int>, time: nat -> int, first: nat, a: nat, b: nat)
    ensures prior + Timings(time, first, a) + Timings(time, first + a, b) == prior + Timings(time, first, a + b)
    ensures b == 1 ==> Timings(time, first + a, b) == [time(first + a)]
  {
    TimingsConcat(time, first, a, b);
    ConcatAssociates(prior, Timings(time, first, a), Timings(time, first + a, b));
  }

  /** The counters after scrapeMembers stored `n` records. */
  function MembersStored(c: Counters, memberTime: nat -> int, n: nat): Counters {
    c.(membersParsed := c.membersParsed + n, memberTimes := c.memberTimes + Timings(memberTime, c.membersParsed, n))
  }

  /** Storing `a` then `b` records is storing `a + b`. */
  lemma MembersStoredTwice(c: Counters, memberTime: nat -> int, a: nat, b: nat)
    ensures MembersStored(MembersStored(c, memberTime, a), memberTime, b) == MembersStored(c, memberTime, a + b)
  {
    TimingsConcat(memberTime, c.membersParsed, a, b);
  }

  /** scrapeMemberData: parse the row's listing fields, fetch the page of its
      first link, and parse that page's details under `details`. */
  method ScrapeMemberData(dir: Directory, row: seq<Cell>, keys: seq<string>) returns (member: Result<Member>)
    ensures member == MemberOf(dir, keys, row)
  {
    var data := ParseGeneralMemberData(row, keys);
    var url := MemberUrl(row);
    var html, _ := FetchPage(url, null, dir.serve);
    var details := ParseDetailedMemberData(dir.details(html));
    member := match details case Err(e) => Err(e) case Ok(d) => Ok(Member(data, d));
  }

  /** Storing one more record: one more count, and the timer of that record. */
  lemma MemberStored(c: Counters, memberTime: nat -> int, n: nat)
    ensures var before := MembersStored(c, memberTime, n);
            MembersStored(c, memberTime, n + 1)
              == before.(membersParsed := before.membersParsed + 1,
                         memberTimes := before.memberTimes + [memberTime(before.membersParsed)])
  {
    TimingsConcat(memberTime, c.membersParsed, n, 1);
    assert Timings(memberTime, c.membersParsed + n, 1) == [memberTime(c.membersParsed + n)];
  }

  /** The end of one round of scrapeMembers: the record appended to the file,
      its timer recorded and MEMBERS_PARSED incremented, after `i` records
      were stored the same way. */
  method StoreMember(encode: Member -> string, member: Member, memberTime: nat -> int, g: Globals, file: OutputFile,
                     ghost c0: Counters, ghost content0: string, ghost stored: seq<Member>, ghost i: nat)
    requires g.Snapshot() == MembersStored(c0, memberTime, i)
    requires file.content == content0 + Appended(encode, stored)
    modifies g, file
    ensures g.Snapshot() == MembersStored(c0, memberTime, i + 1)
    ensures file.content == content0 + Appended(encode, stored + [member])
  {
    AppendedOne(encode, content0, stored, member);
    file.Write(encode(member));
    MemberStored(c0, memberTime, i);
    g.memberTimes := g.memberTimes + [memberTime(g.membersParsed)];
    g.membersParsed := g.membersParsed + 1;
  }

  /** scrapeMembers: each row in turn is parsed, its detail page fetched and
      parsed, its record appended to the file, its timer recorded and
      MEMBERS_PARSED incremented; a detail page that throws ends the loop. */
  method ScrapeMembers(dir: Directory, rows: seq<seq<Cell>>, keys: seq<string>, memberTime: nat -> int,
                       g: Globals, file: OutputFile)
    returns (failure: Option<DetailError>)
    modifies g, file
    ensures var b := Through(Results(dir, keys, rows));
            failure == b.failure
            && g.Snapshot() == MembersStored(old(g.Snapshot()), memberTime, |b.members|)
            && file.content == old(file.content) + Appended(dir.encode, b.members)
  {
    ghost var c0, content0 := g.Snapshot(), file.content;
    ghost var rs := Results(dir, keys, rows);
    ghost var stored: seq<Member> := [];
    var i := 0;
    while i < |rows|
      invariant 0 <= i <= |rows|
      invariant Through(rs[..i]) == Batch(stored, None)
      invariant g.Snapshot() == MembersStored(c0, memberTime, i)
      invariant file.content == content0 + Appended(dir.encode, stored)
    {
      var member := ScrapeMemberData(dir, rows[i], keys);
      assert rs[i] == member;
      ThroughStep(rs, i);
      if member.Err? {
        ThroughStops(rs, i + 1);
        return Some(member.error);
      }
      StoreMember(dir.encode, member.value, memberTime, g, file, c0, content0, stored, i);
      stored := stored + [member.value];
      i := i + 1;
    }
    assert rs[..|rows|] == rs;
    return None;
  }

  // ---------------------------------------------------------------------------
  // scrapePage

  /** How scrapePage ends: with the next URL (`None` for `null`), or by
      throwing, because the first page has no entry count or because a detail
      page is malformed. */
  datatype PageEnd = NextUrlIs(url: Option<string>) | EntryCountThrows | DetailThrows(error: DetailError)

  /** The records scraped from the page at `url`. */
  function PageBatch(dir: Directory, url: string): Batch {
    var page := ListingAt(dir, url);
    Through(Results(dir, ColumnNames(page.headerCells), Capped(page.rows)))
  }

  /** While PAGES_PARSED is 0 the page's entry count must match. */
  predicate CountReadable(dir: Directory, url: string, pagesParsed: nat) {
    pagesParsed == 0 ==> EntryDigits(ListingAt(dir, url).entriesText).Some?
  }

  /** TOTAL_ENTRIES after the page at `url`: the digits of its entry count on
      the run's first page, unchanged afterwards. */
  function EntriesAfter(dir: Directory, url: string, c: Counters): EntriesRead {
    var digits := EntryDigits(ListingAt(dir, url).entriesText);
    if c.pagesParsed == 0 && digits.Some? then Read(digits.value) else c.totalEntries
  }

  /** The counters once the records of the page at `url` are stored, and
      TOTAL_ENTRIES read when it is the first page. */
  function PageStored(dir: Directory, url: string, memberTime: nat -> int, c: Counters): Counters {
    MembersStored(c, memberTime, |PageBatch(dir, url).members|).(totalEntries := EntriesAfter(dir, url, c))
  }

  /** The counters after the page at `url` was scraped through: its records
      stored, then its timer recorded and PAGES_PARSED incremented. */
  function PageCounters(dir: Directory, url: string, pageTime: nat -> int, memberTime: nat -> int, c: Counters): Counters {
    PageStored(dir, url, memberTime, c).(pagesParsed := c.pagesParsed + 1, pageTimes := c.pageTimes + [pageTime(c.pagesParsed)])
  }

  /** scrapePage: fetch the listing, read the entry count on the first page,
      scrape the first three rows, and return the root URL followed by the
      first next link's href (`null` without one); the page's timer is
      recorded and PAGES_PARSED incremented only when nothing threw. */
  method ScrapePage(dir: Directory, url: string, pageTime: nat -> int, memberTime: nat -> int, g: Globals, file: OutputFile)
    returns (end: PageEnd)
    modifies g, file
    ensures end.EntryCountThrows? <==> !CountReadable(dir, url, old(g.pagesParsed))
    ensures end.EntryCountThrows? ==> g.Snapshot() == old(g.Snapshot()) && file.content == old(file.content)
    ensures !end.EntryCountThrows? ==>
              var b := PageBatch(dir, url);
              file.content == old(file.content) + Appended(dir.encode, b.members)
              && (end.DetailThrows? <==> b.failure.Some?)
              && (b.failure.Some? ==> end.error == b.failure.value && g.Snapshot() == PageStored(dir, url, memberTime, old(g.Snapshot())))
              && (b.failure.None? ==>
                    end == NextUrlIs(NextUrl(RootUrl, ListingAt(dir, url)))
                    && g.Snapshot() == PageCounters(dir, url, pageTime, memberTime, old(g.Snapshot())))
  {
    ghost var c0 := g.Snapshot();
    var html, _ := FetchPage(url, null, dir.serve);
    var page := dir.listing(html);
    if g.pagesParsed == 0 {
      var digits := EntryDigits(page.entriesText);
      if digits.None? {
        return EntryCountThrows;
      }
      g.totalEntries := Read(digits.value);
    }
    ghost var c1 := c0.(totalEntries := EntriesAfter(dir, url, c0));
    assert g.Snapshot() == c1;
    assert MembersStored(c1, memberTime, |PageBatch(dir, url).members|) == PageStored(dir, url, memberTime, c0);
    end := ScrapeRows(dir, url, page, pageTime, memberTime, g, file);
  }

  /** The rest of scrapePage once the entry count is read: scrape the kept
      rows, then, when none threw, take the next link and count the page. */
  method ScrapeRows(dir: Directory, url: string, page: ListingPage, pageTime: nat -> int, memberTime: nat -> int,
                    g: Globals, file: OutputFile)
    returns (end: PageEnd)
    requires page == ListingAt(dir, url)
    modifies g, file
    ensures var b, c := PageBatch(dir, url), old(g.Snapshot());
            var stored := MembersStored(c, memberTime, |b.members|);
            file.content == old(file.content) + Appended(dir.encode, b.members)
            && (end.DetailThrows? <==> b.failure.Some?)
            && (b.failure.Some? ==> end.error == b.failure.value && g.Snapshot() == stored)
            && (b.failure.None? ==>
                  end == NextUrlIs(NextUrl(RootUrl, page))
                  && g.Snapshot() == stored.(pagesParsed := c.pagesParsed + 1, pageTimes := c.pageTimes + [pageTime(c.pagesParsed)]))
  {
    var keys := ColumnNames(page.headerCells);
    var rows := Capped(page.rows);
    var failure := ScrapeMembers(dir, rows, keys, memberTime, g, file);
    if failure.Some? {
      return DetailThrows(failure.value);
    }
    var next := NextUrl(RootUrl, page);
    g.pageTimes := g.pageTimes + [pageTime(g.pagesParsed)];
    g.pagesParsed := g.pagesParsed + 1;
    end := NextUrlIs(next);
  }

  /** At most three records per page, and when no detail page throws, one
      record per kept row: record `k` is the member of row `k`. */
  lemma PageBatchCapped(dir: Directory, url: string)
    ensures var page, b := ListingAt(dir, url), PageBatch(dir, url);
            |b.members| <= DebugRows
            && (b.failure.None? ==>
                  |b.members| == Min(|page.rows|, DebugRows)
                  && forall k :: 0 <= k < |b.members| ==>
                       MemberOf(dir, ColumnNames(page.headerCells), page.rows[k]) == Ok(b.members[k]))
  {
    var page := ListingAt(dir, url);
    var keys, rows := ColumnNames(page.headerCells), Capped(page.rows);
    var rs := Results(dir, keys, rows);
    ThroughEach(rs);
    forall k | 0 <= k < |Through(rs).members| ensures MemberOf(dir, keys, page.rows[k]) == Ok(Through(rs).members[k]) {
      assert rows[k] == page.rows[k] && rs[k] == MemberOf(dir, keys, rows[k]);
    }
  }

  // ---------------------------------------------------------------------------
  // scrape

  /** The URL `while (url)` tests after the pages at `urls`: the start URL
      before the first page, afterwards what the last page returned. */
  function NextOf(dir: Directory, start: string, urls: seq<string>): (r: Option<string>)
    ensures urls == [] ==> r == Some(start)
    ensures urls != [] ==> (r.Some? <==> ListingAt(dir, urls[|urls| - 1]).nextHrefs != [])
  {
    if urls == [] then Some(start) else NextUrl(RootUrl, ListingAt(dir, urls[|urls| - 1]))
  }

  /** Each visited URL is non-empty and is the one the loop held when it was
      visited. */
  predicate Visits(dir: Directory, start: string, urls: seq<string>)
    decreases |urls|
  {
    urls == [] ||
    var n := |urls|;
    Visits(dir, start, urls[..n - 1]) && urls[n - 1] != "" && NextOf(dir, start, urls[..n - 1]) == Some(urls[n - 1])
  }

  /** No visited page threw: the first one of the process (PAGES_PARSED 0) had
      an entry count, and every detail page parsed. */
  predicate ScrapedThrough(dir: Directory, parsed0: nat, urls: seq<string>)
    decreases |urls|
  {
    urls == [] ||
    var n := |urls|;
    ScrapedThrough(dir, parsed0, urls[..n - 1])
    && CountReadable(dir, urls[n - 1], parsed0 + n - 1) && PageBatch(dir, urls[n - 1]).failure.None?
  }

  /** The records of the pages at `urls`, in page order. */
  function RunMembers(dir: Directory, urls: seq<string>): seq<Member>
    decreases |urls|
  {
    if urls == [] then [] else RunMembers(dir, urls[..|urls| - 1]) + PageBatch(dir, urls[|urls| - 1]).members
  }

  /** The counters after the pages at `urls` were scraped through, from `c0`. */
  function RunCounters(dir: Directory, pageTime: nat -> int, memberTime: nat -> int, c0: Counters, urls: seq<string>): Counters
    decreases |urls|
  {
    if urls == [] then c0
    else PageCounters(dir, urls[|urls| - 1], pageTime, memberTime, RunCounters(dir, pageTime, memberTime, c0, urls[..|urls| - 1]))
  }

  /** The counters after a run, in closed form: one page count and one page
      timer per page, one member count and one member timer per record, and
      TOTAL_ENTRIES read from the first page when the process had parsed no
      page before. */
  lemma {:induction false} RunCountersClosedForm(dir: Directory, pageTime: nat -> int, memberTime: nat -> int,
                                                 c0: Counters, urls: seq<string>)
    ensures var c, m := RunCounters(dir, pageTime, memberTime, c0, urls), |RunMembers(dir, urls)|;
            c.pagesParsed == c0.pagesParsed + |urls|
            && c.pageTimes == c0.pageTimes + Timings(pageTime, c0.pagesParsed, |urls|)
            && c.membersParsed == c0.membersParsed + m
            && c.memberTimes == c0.memberTimes + Timings(memberTime, c0.membersParsed, m)
            && c.totalEntries == if c0.pagesParsed == 0 && urls != [] then EntriesAfter(dir, urls[0], c0) else c0.totalEntries
    decreases |urls|
  {
    if urls != [] {
      var n := |urls|;
      var init := urls[..n - 1];
      RunCountersClosedForm(dir, pageTime, memberTime, c0, init);
      var before := RunCounters(dir, pageTime, memberTime, c0, init);
      var m0, m1 := |RunMembers(dir, init)|, |PageBatch(dir, urls[n - 1]).members|;
      assert |RunMembers(dir, urls)| == m0 + m1;
      var after := RunCounters(dir, pageTime, memberTime, c0, urls);
      assert after == PageCounters(dir, urls[n - 1], pageTime, memberTime, before);
      CountersExtended(c0, before, after, pageTime, memberTime, n - 1, m0, m1);
      if n > 1 {
        assert init[0] == urls[0];
      }
    }
  }

  /** One more page scraped through, with `k` records, keeps the closed form. */
  lemma CountersExtended(c0: Counters, before: Counters, after: Counters, pageTime: nat -> int, memberTime: nat -> int,
                         n: nat, m: nat, k: nat)
    requires before.pagesParsed == c0.pagesParsed + n && before.pageTimes == c0.pageTimes + Timings(pageTime, c0.pagesParsed, n)
    requires before.membersParsed == c0.membersParsed + m
    requires before.memberTimes == c0.memberTimes + Timings(memberTime, c0.membersParsed, m)
    requires after.pagesParsed == before.pagesParsed + 1 && after.pageTimes == before.pageTimes + [pageTime(before.pagesParsed)]
    requires after.membersParsed == before.membersParsed + k
    requires after.memberTimes == before.memberTimes + Timings(memberTime, before.membersParsed, k)
    ensures after.pagesParsed == c0.pagesParsed + (n + 1)
    ensures after.pageTimes == c0.pageTimes + Timings(pageTime, c0.pagesParsed, n + 1)
    ensures after.membersParsed == c0.membersParsed + (m + k)
    ensures after.memberTimes == c0.memberTimes + Timings(memberTime, c0.membersParsed, m + k)
  {
    TimesExtended(c0.pageTimes, pageTime, c0.pagesParsed, n, 1);
    TimesExtended(c0.memberTimes, memberTime, c0.membersParsed, m, k);
  }

  /** At most three records per page over the whole run. */
  lemma {:induction false} RunMembersCapped(dir: Directory, urls: seq<string>)
    ensures |RunMembers(dir, urls)| <= DebugRows * |urls|
    decreases |urls|
  {
    if urls != [] {
      RunMembersCapped(dir, urls[..|urls| - 1]);
      PageBatchCapped(dir, urls[|urls| - 1]);
    }
  }

  /** The run's records and counters after one more page scraped through. */
  lemma RunExtended(dir: Directory, pageTime: nat -> int, memberTime: nat -> int, c0: Counters, urls: seq<string>, u: string)
    ensures RunMembers(dir, urls + [u]) == RunMembers(dir, urls) + PageBatch(dir, u).members
    ensures RunCounters(dir, pageTime, memberTime, c0, urls + [u])
              == PageCounters(dir, u, pageTime, memberTime, RunCounters(dir, pageTime, memberTime, c0, urls))
  {
    assert (urls + [u])[..|urls|] == urls;
  }

  /** How scrape ends: the loop met a `null` URL, a page threw, or the bound
      on the number of pages was reached. */
  datatype RunEnd = AllScraped | Threw(page: PageEnd) | FuelSpent

  /** One turn of `while (url)`: scrape the page, and keep the account of the
      run when it returned. */
  method ScrapeStep(dir: Directory, start: string, pageTime: nat -> int, memberTime: nat -> int, ghost c0: Counters,
                    urls: seq<string>, u: string, g: Globals, file: OutputFile)
    returns (end: PageEnd)
    requires g.Snapshot() == RunCounters(dir, pageTime, memberTime, c0, urls)
    requires file.content == Appended(dir.encode, RunMembers(dir, urls))
    modifies g, file
    ensures end.NextUrlIs? ==>
              end.url == NextOf(dir, start, urls + [u])
              && CountReadable(dir, u, c0.pagesParsed + |urls|) && PageBatch(dir, u).failure.None?
              && g.Snapshot() == RunCounters(dir, pageTime, memberTime, c0, urls + [u])
              && file.content == Appended(dir.encode, RunMembers(dir, urls + [u]))
    ensures end.EntryCountThrows? ==>
              !CountReadable(dir, u, c0.pagesParsed + |urls|) && file.content == Appended(dir.encode, RunMembers(dir, urls))
              && g.Snapshot() == RunCounters(dir, pageTime, memberTime, c0, urls)
    ensures end.DetailThrows? ==>
              PageBatch(dir, u).failure == Some(end.error)
              && file.content == Appended(dir.encode, RunMembers(dir, urls) + PageBatch(dir, u).members)
              && g.Snapshot() == PageStored(dir, u, memberTime, RunCounters(dir, pageTime, memberTime, c0, urls))
  {
    assert g.pagesParsed == c0.pagesParsed + |urls| by {
      RunCountersClosedForm(dir, pageTime, memberTime, c0, urls);
    }
    end := ScrapePage(dir, u, pageTime, memberTime, g, file);
    if !end.EntryCountThrows? {
      AppendedConcat(dir.encode, RunMembers(dir, urls), PageBatch(dir, u).members);
    }
    if end.NextUrlIs? {
      RunExtended(dir, pageTime, memberTime, c0, urls, u);
    }
  }

  /** scrape: truncate the file, then scrape page after page while the URL is
      truthy. `fuel` bounds the number of pages, which the source does not. */
  method Scrape(dir: Directory, start: string, pageTime: nat -> int, memberTime: nat -> int, fuel: nat,
                g: Globals, file: OutputFile)
    returns (end: RunEnd, urls: seq<string>)
    modifies g, file
    ensures Visits(dir, start, urls) && ScrapedThrough(dir, old(g.pagesParsed), urls) && |urls| <= fuel
    ensures end.AllScraped? ==> !Truthy(NextOf(dir, start, urls))
    ensures end.FuelSpent? ==> |urls| == fuel && Truthy(NextOf(dir, start, urls))
    ensures !end.Threw? ==>
              g.Snapshot() == RunCounters(dir, pageTime, memberTime, old(g.Snapshot()), urls)
              && file.content == Appended(dir.encode, RunMembers(dir, urls))
    ensures end.Threw? ==> Truthy(NextOf(dir, start, urls)) && !end.page.NextUrlIs?
    ensures end.Threw? && end.page.EntryCountThrows? ==>
              urls == [] && old(g.pagesParsed) == 0 && file.content == "" && g.Snapshot() == old(g.Snapshot())
    ensures end.Threw? && end.page.DetailThrows? ==>
              var u := NextOf(dir, start, urls).value;
              PageBatch(dir, u).failure == Some(end.page.error)
              && file.content == Appended(dir.encode, RunMembers(dir, urls) + PageBatch(dir, u).members)
              && g.Snapshot() == PageStored(dir, u, memberTime, RunCounters(dir, pageTime, memberTime, old(g.Snapshot()), urls))
  {
    ghost var c0 := g.Snapshot();
    file.Clean();
    urls := [];
    var url: Option<string> := Some(start);
    while Truthy(url) && |urls| < fuel
      invariant url == NextOf(dir, start, urls)
      invariant Visits(dir, start, urls) && ScrapedThrough(dir, c0.pagesParsed, urls) && |urls| <= fuel
      invariant g.Snapshot() == RunCounters(dir, pageTime, memberTime, c0, urls)
      invariant file.content == Appended(dir.encode, RunMembers(dir, urls))
      decreases fuel - |urls|
    {
      var u := url.value;
      var pageEnd := ScrapeStep(dir, start, pageTime, memberTime, c0, urls, u, g, file);
      if !pageEnd.NextUrlIs? {
        end := Threw(pageEnd);
        return;
      }
      assert (urls + [u])[..|urls|] == urls;
      urls := urls + [u];
      url := pageEnd.url;
    }
    end := if Truthy(url) then FuelSpent else AllScraped;
  }

  // ---------------------------------------------------------------------------
  // getPerformanceResults

  /** One half of the results: a count, the summed times, and their quotient. */
  datatype Figures = Figures(count: nat, totalTime: int, averageTime: JsNumber)

  datatype Performance = Performance(pages: Figures, members: Figures)

  /** `count`, `times.reduce(sum, 0)` and `total_time / count`: the average
      times the count gives back the total; with no count it is the IEEE
      quotient by zero. */
  function FiguresOf(count: nat, times: seq<int>): (f: Figures)
    ensures f.count == count && f.totalTime == Sum(times)
    ensures count > 0 ==> f.averageTime.Finite? && f.averageTime.value * count as real == f.totalTime as real
    ensures count == 0 ==> f.averageTime == if f.totalTime > 0 then PosInfinity else if f.totalTime < 0 then NegInfinity else NaN
  {
    Figures(count, Sum(times), Divide(FromInt(Sum(times)), FromInt(count)))
  }

  /** getPerformanceResults, over the module-level counters. */
  function PerformanceResults(c: Counters): Performance {
    Performance(FiguresOf(c.pagesParsed, c.pageTimes), FiguresOf(c.membersParsed, c.memberTimes))
  }

  /** After a run from freshly loaded counters, the results count the visited
      pages and the stored records, at most three per page, and sum their
      timers. */
  lemma RunPerformance(dir: Directory, pageTime: nat -> int, memberTime: nat -> int, urls: seq<string>)
    ensures var r, m := PerformanceResults(RunCounters(dir, pageTime, memberTime, Counters(0, [], 0, [], Unread), urls)),
                        |RunMembers(dir, urls)|;
            r.pages.count == |urls| && r.pages.totalTime == Sum(Timings(pageTime, 0, |urls|))
            && r.members.count == m && m <= DebugRows * r.pages.count
            && r.members.totalTime == Sum(Timings(memberTime, 0, m))
  {
    var c0 := Counters(0, [], 0, [], Unread);
    RunCountersClosedForm(dir, pageTime, memberTime, c0, urls);
    RunMembersCapped(dir, urls);
    var c := RunCounters(dir, pageTime, memberTime, c0, urls);
    assert c.pageTimes == Timings(pageTime, 0, |urls|);
    assert c.memberTimes == Timings(memberTime, 0, |RunMembers(dir, urls)|);
  }
}
