/** The `message` handler of delegateProcessingToWorkers (scrapper.js): worker
    messages arrive one at a time in some order; each one's `data` is appended
    to the page's `members`, each one's `metrics` is folded into
    `METRICS.members`, and the page resolves — with `members` sorted in place
    by `Name` — on the first message after which exactly `rows_count` records
    have been collected. */
module Aggregator {
  import opened JsRuntime
  import opened Utils
  import opened Metrics
  import opened MemberParsers

  // ---------------------------------------------------------------------------
  // Messages

  datatype TimeStats = TimeStats(total: int, min: int, max: int)

  /** `message.metrics`: how many members the worker parsed and its timings. */
  datatype MessageMetrics = MessageMetrics(count: int, time: TimeStats)

  /** One message from a worker; `msg` is only logged and is left out. */
  datatype WorkerMessage = WorkerMessage(data: Option<seq<Member>>, metrics: Option<MessageMetrics>)

  function DataOf(m: WorkerMessage): seq<Member> {
    if m.data.Some? then m.data.value else []
  }

  /** Reference: every message's `data` concatenated in arrival order. */
  function Collected(msgs: seq<WorkerMessage>): seq<Member> {
    if msgs == [] then [] else Collected(msgs[..|msgs| - 1]) + DataOf(msgs[|msgs| - 1])
  }

  /** Collecting more messages never shrinks the list. */
  lemma {:induction false} CollectedGrows(msgs: seq<WorkerMessage>, j: nat, k: nat)
    requires j <= k <= |msgs|
    ensures |Collected(msgs[..j])| <= |Collected(msgs[..k])|
    ensures Collected(msgs[..k])[..|Collected(msgs[..j])|] == Collected(msgs[..j])
    decreases k - j
  {
    if j < k {
      CollectedGrows(msgs, j, k - 1);
      assert msgs[..k][..k - 1] == msgs[..k - 1];
    }
  }

  /** The messages after which the page resolves. */
  predicate ResolvesAt(rows: nat, msgs: seq<WorkerMessage>, k: nat)
    requires k <= |msgs|
  {
    k >= 1 && |Collected(msgs[..k])| == rows
  }

  /** The first message at or after position `k` after which the page resolves. */
  function ResolutionFrom(rows: nat, msgs: seq<WorkerMessage>, k: nat): (r: Option<nat>)
    requires k <= |msgs| + 1
    ensures r.Some? ==> k <= r.value <= |msgs| && ResolvesAt(rows, msgs, r.value)
    ensures r.Some? ==> forall j :: k <= j < r.value ==> !ResolvesAt(rows, msgs, j)
    ensures r.None? ==> forall j :: k <= j <= |msgs| ==> !ResolvesAt(rows, msgs, j)
    decreases |msgs| + 1 - k
  {
    if k > |msgs| then None
    else if ResolvesAt(rows, msgs, k) then Some(k)
    else ResolutionFrom(rows, msgs, k + 1)
  }

  function FirstResolution(rows: nat, msgs: seq<WorkerMessage>): Option<nat> {
    ResolutionFrom(rows, msgs, 1)
  }

  /** The messages the handler sees before its listener is removed. */
  function Handled(rows: nat, msgs: seq<WorkerMessage>): seq<WorkerMessage> {
    var r := FirstResolution(rows, msgs);
    if r.Some? then msgs[..r.value] else msgs
  }

  /** The check is strict equality: once more than `rows_count` records are in,
      no later message resolves the page. */
  lemma OvershootNeverResolves(rows: nat, msgs: seq<WorkerMessage>, j: nat)
    requires j <= |msgs| && |Collected(msgs[..j])| > rows
    ensures forall k :: j <= k <= |msgs| ==> !ResolvesAt(rows, msgs, k)
  {
    forall k | j <= k <= |msgs| ensures !ResolvesAt(rows, msgs, k) {
      CollectedGrows(msgs, j, k);
    }
  }

  /** The page resolves exactly when some prefix of the arrivals (at least one
      message) carries exactly `rows_count` records. */
  lemma ResolvesIffExactCount(rows: nat, msgs: seq<WorkerMessage>)
    ensures FirstResolution(rows, msgs).Some? <==> exists k :: 1 <= k <= |msgs| && |Collected(msgs[..k])| == rows
  {
    if FirstResolution(rows, msgs).Some? {
      var k := FirstResolution(rows, msgs).value;
      assert |Collected(msgs[..k])| == rows;
    }
    if exists k :: 1 <= k <= |msgs| && |Collected(msgs[..k])| == rows {
      var k :| 1 <= k <= |msgs| && |Collected(msgs[..k])| == rows;
      assert ResolvesAt(rows, msgs, k);
    }
  }

  // ---------------------------------------------------------------------------
  // Metrics carried by the handled messages

  /** The `metrics` of the messages that have one, in order. */
  function Reported(msgs: seq<WorkerMessage>): seq<MessageMetrics> {
    if msgs == [] then []
    else Reported(msgs[..|msgs| - 1]) + (var m := msgs[|msgs| - 1]; if m.metrics.Some? then [m.metrics.value] else [])
  }

  datatype Stat = Count | TimeTotal | TimeMin | TimeMax

  function StatOf(m: MessageMetrics, s: Stat): int {
    match s
    case Count => m.count
    case TimeTotal => m.time.total
    case TimeMin => m.time.min
    case TimeMax => m.time.max
  }

  /** One field of every reported `metrics`, in order. */
  function Project(rs: seq<MessageMetrics>, s: Stat): (r: seq<int>)
    ensures |r| == |rs|
  {
    if rs == [] then [] else Project(rs[..|rs| - 1], s) + [StatOf(rs[|rs| - 1], s)]
  }

  // ---------------------------------------------------------------------------
  // members.sort(utils.makeFnToSortBy('Name'))

  /** `member.Name`: the general column "Name", when the page had one. */
  function NameOf(m: Member): Property {
    if "Name" in m.general then Present(m.general["Name"]) else Missing
  }

  predicate AllNamed(s: seq<Member>) {
    forall i :: 0 <= i < |s| ==> NameOf(s[i]).Present?
  }

  /** Each record compares at most 0 with the next one. */
  predicate AdjacentSorted(s: seq<Member>, lo: int, hi: int)
    requires 0 <= lo <= hi <= |s|
  {
    forall p :: lo < p < hi ==> Compare(NameOf(s[p - 1]), NameOf(s[p])) <= 0
  }

  /** Non-decreasing `Name` order: every record compares at most 0 with every later one. */
  predicate SortedByName(s: seq<Member>) {
    forall p, q {:trigger Compare(NameOf(s[p]), NameOf(s[q]))} :: 0 <= p < q < |s| ==> Compare(NameOf(s[p]), NameOf(s[q])) <= 0
  }

  /** With every name present, neighbours in order means all pairs in order. */
  lemma {:induction false} AdjacentSortedIsSorted(s: seq<Member>)
    requires AllNamed(s) && AdjacentSorted(s, 0, |s|)
    ensures SortedByName(s)
  {
    if |s| > 1 {
      var init := s[..|s| - 1];
      assert AllNamed(init) && AdjacentSorted(init, 0, |init|) by {
        forall p | 0 < p < |init| ensures Compare(NameOf(init[p - 1]), NameOf(init[p])) <= 0 {
          assert init[p - 1] == s[p - 1] && init[p] == s[p];
        }
      }
      AdjacentSortedIsSorted(init);
      var n := |s| - 1;
      forall p, q | 0 <= p < q < |s| ensures Compare(NameOf(s[p]), NameOf(s[q])) <= 0 {
        if q < n {
          assert init[p] == s[p] && init[q] == s[q];
        } else if p < n - 1 {
          assert init[p] == s[p] && init[n - 1] == s[n - 1];
          CompareTransitive(NameOf(s[p]), NameOf(s[n - 1]), NameOf(s[n]));
        }
      }
    }
  }

  /** `s` with the records at `j - 1` and `j` exchanged. */
  function Swap(s: seq<Member>, j: int): (t: seq<Member>)
    requires 0 < j < |s|
    ensures |t| == |s| && multiset(t) == multiset(s)
  {
    s[j - 1 := s[j]][j := s[j - 1]]
  }

  /** The state of the inner loop of insertion sort, sinking the record that
      started at `i` and now sits at `j`: everything named, both sides of it in
      order, and its two neighbours in order with each other. */
  ghost predicate Sinking(s: seq<Member>, j: int, i: int)
    requires 0 <= j <= i < |s|
  {
    AllNamed(s) && AdjacentSorted(s, 0, j) && AdjacentSorted(s, j, i + 1)
    && (0 < j < i ==> Compare(NameOf(s[j - 1]), NameOf(s[j + 1])) <= 0)
  }

  lemma SinkStep(s: seq<Member>, j: int, i: int)
    requires 0 < j <= i < |s| && Sinking(s, j, i)
    requires Compare(NameOf(s[j - 1]), NameOf(s[j])) > 0
    ensures Sinking(Swap(s, j), j - 1, i)
  {
    var t := Swap(s, j);
    CompareAntisymmetric(NameOf(s[j - 1]), NameOf(s[j]));
    assert AllNamed(t) by {
      forall p | 0 <= p < |t| ensures NameOf(t[p]).Present? {
        if p != j - 1 && p != j {
          assert t[p] == s[p];
        }
      }
    }
    forall p | j - 1 < p < i + 1 ensures Compare(NameOf(t[p - 1]), NameOf(t[p])) <= 0 {
      if p > j + 1 {
        assert t[p - 1] == s[p - 1] && t[p] == s[p];
      }
    }
    forall p | 0 < p < j - 1 ensures Compare(NameOf(t[p - 1]), NameOf(t[p])) <= 0 {
      assert t[p - 1] == s[p - 1] && t[p] == s[p];
    }
  }

  lemma SinkDone(s: seq<Member>, j: int, i: int)
    requires 0 <= j <= i < |s| && Sinking(s, j, i)
    requires j == 0 || Compare(NameOf(s[j - 1]), NameOf(s[j])) <= 0
    ensures AdjacentSorted(s, 0, i + 1)
  {
  }

  /** The engine's in-place sort with the `Name` comparator, as an insertion
      sort: the result is always a rearrangement of the input, and in `Name`
      order whenever every record has a name (with a missing name the
      comparator is inconsistent and no order is promised). */
  method SortByNameInPlace(a: array<Member>)
    modifies a
    ensures multiset(a[..]) == multiset(old(a[..]))
    ensures AllNamed(old(a[..])) ==> SortedByName(a[..])
  {
    ghost var named := AllNamed(a[..]);
    if a.Length == 0 {
      return;
    }
    var i := 1;
    while i < a.Length
      invariant 1 <= i <= a.Length
      invariant multiset(a[..]) == multiset(old(a[..]))
      invariant named ==> AllNamed(a[..]) && AdjacentSorted(a[..], 0, i)
    {
      SinkInto(a, i, named);
      i := i + 1;
    }
    if named {
      AdjacentSortedIsSorted(a[..]);
    }
  }

  /** One pass of the insertion sort: the record at `i` is swapped towards the
      front while its left neighbour's name compares greater. */
  method SinkInto(a: array<Member>, i: int, ghost named: bool)
    requires 1 <= i < a.Length
    requires named ==> AllNamed(a[..]) && AdjacentSorted(a[..], 0, i)
    modifies a
    ensures multiset(a[..]) == multiset(old(a[..]))
    ensures named ==> AllNamed(a[..]) && AdjacentSorted(a[..], 0, i + 1)
  {
    var j := i;
    while j > 0 && Compare(NameOf(a[j - 1]), NameOf(a[j])) > 0
      invariant 0 <= j <= i
      invariant multiset(a[..]) == multiset(old(a[..]))
      invariant named ==> Sinking(a[..], j, i)
    {
      ghost var before := a[..];
      if named {
        SinkStep(before, j, i);
      }
      a[j - 1], a[j] := a[j], a[j - 1];
      assert a[..] == Swap(before, j);
      j := j - 1;
    }
    if named {
      SinkDone(a[..], j, i);
    }
  }

  // ---------------------------------------------------------------------------
  // The handler, run over one page's arrivals

  /** `members.sort(sortByName)` on the page's freshly concatenated array. */
  method SortMembers(members: seq<Member>) returns (sorted: seq<Member>)
    ensures multiset(sorted) == multiset(members)
    ensures AllNamed(members) ==> SortedByName(sorted)
  {
    var buffer := new Member[|members|](k requires 0 <= k < |members| => members[k]);
    assert buffer[..] == members;
    SortByNameInPlace(buffer);
    sorted := buffer[..];
  }

  /** The handler's update of `METRICS.members` for one reported `metrics`. */
  function Absorbed(t: Tally, m: MessageMetrics): Tally {
    Tally(t.parsed + m.count, t.timeTotal + m.time.total,
          FoldMin(t.timeMin, m.time.min), FoldMax(t.timeMax, m.time.max))
  }

  /** `start` with the reported metrics absorbed one after the other. */
  function Tallied(start: Tally, rs: seq<MessageMetrics>): Tally {
    if rs == [] then start else Absorbed(Tallied(start, rs[..|rs| - 1]), rs[|rs| - 1])
  }

  /** What the fold amounts to: counts and totals are summed, the minimum and
      maximum follow the run-wide rules of `FoldMin` and `FoldMax`. */
  lemma {:induction false} TalliedFields(start: Tally, rs: seq<MessageMetrics>)
    ensures Tallied(start, rs).parsed == start.parsed + Sum(Project(rs, Count))
    ensures Tallied(start, rs).timeTotal == start.timeTotal + Sum(Project(rs, TimeTotal))
    ensures Tallied(start, rs).timeMin == MinFrom(start.timeMin, Project(rs, TimeMin))
    ensures Tallied(start, rs).timeMax == MaxFrom(start.timeMax, Project(rs, TimeMax))
  {
    if rs != [] {
      var init, m := rs[..|rs| - 1], rs[|rs| - 1];
      TalliedFields(start, init);
      MinFromSnoc(start.timeMin, Project(init, TimeMin), m.time.min);
      MaxFromSnoc(start.timeMax, Project(init, TimeMax), m.time.max);
      assert Project(rs, TimeMin) == Project(init, TimeMin) + [m.time.min];
      assert Project(rs, TimeMax) == Project(init, TimeMax) + [m.time.max];
      assert Project(rs, Count)[..|init|] == Project(init, Count);
      assert Project(rs, TimeTotal)[..|init|] == Project(init, TimeTotal);
    }
  }

  lemma TalliedSnoc(start: Tally, rs: seq<MessageMetrics>, m: MessageMetrics)
    ensures Tallied(start, rs + [m]) == Absorbed(Tallied(start, rs), m)
  {
    assert (rs + [m])[..|rs|] == rs;
  }

  /** Folding two runs of reports one after the other is folding them all. */
  lemma {:induction false} TalliedAppend(start: Tally, rs: seq<MessageMetrics>, more: seq<MessageMetrics>)
    ensures Tallied(start, rs + more) == Tallied(Tallied(start, rs), more)
    decreases |more|
  {
    if more == [] {
      assert rs + more == rs;
    } else {
      var init := more[..|more| - 1];
      assert (rs + more)[..|rs + more| - 1] == rs + init;
      TalliedAppend(start, rs, init);
    }
  }

  lemma ReportedStep(msgs: seq<WorkerMessage>, i: nat)
    requires i < |msgs|
    ensures Reported(msgs[..i + 1])
            == Reported(msgs[..i]) + (if msgs[i].metrics.Some? then [msgs[i].metrics.value] else [])
    ensures Collected(msgs[..i + 1]) == Collected(msgs[..i]) + DataOf(msgs[i])
  {
    assert msgs[..i + 1][..i] == msgs[..i];
  }

  /** workerMessageHandler: append the message's records, fold its metrics
      into `METRICS.members`, and resolve with the sorted records once exactly
      `rows_count` are in. */
  method HandleMessage(rowsCount: nat, members: seq<Member>, message: WorkerMessage, counter: Counter)
    returns (collected: seq<Member>, resolved: Option<seq<Member>>)
    modifies counter
    ensures collected == members + DataOf(message)
    ensures counter.Snapshot()
            == if message.metrics.Some? then Absorbed(old(counter.Snapshot()), message.metrics.value) else old(counter.Snapshot())
    ensures counter.total == old(counter.total) && counter.totalCount == old(counter.totalCount)
    ensures resolved.Some? <==> |collected| == rowsCount
    ensures resolved.Some? ==> multiset(resolved.value) == multiset(collected)
    ensures resolved.Some? && AllNamed(collected) ==> SortedByName(resolved.value)
  {
    collected := members;
    if message.data.Some? {
      collected := collected + message.data.value;
    }
    if message.metrics.Some? {
      var m := message.metrics.value;
      counter.Absorb(m.count, m.time.total, m.time.min, m.time.max);
    }
    resolved := None;
    if |collected| == rowsCount {
      var sorted := SortMembers(collected);
      resolved := Some(sorted);
    }
  }

  /** delegateProcessingToWorkers after the workers are forked: handle the
      messages in arrival order until one resolves the page. `None` means the
      page never resolves (a worker stalled or the count was overshot). */
  method CollectPage(rowsCount: nat, arrivals: seq<WorkerMessage>, counter: Counter)
    returns (result: Option<seq<Member>>)
    modifies counter
    ensures result.Some? <==> FirstResolution(rowsCount, arrivals).Some?
    ensures result.Some? ==> var got := Collected(Handled(rowsCount, arrivals));
              multiset(result.value) == multiset(got) && (AllNamed(got) ==> SortedByName(result.value))
    ensures counter.Snapshot() == Tallied(old(counter.Snapshot()), Reported(Handled(rowsCount, arrivals)))
    ensures counter.total == old(counter.total) && counter.totalCount == old(counter.totalCount)
  {
    ghost var start := counter.Snapshot();
    var members: seq<Member> := [];
    var i := 0;
    while i < |arrivals|
      invariant 0 <= i <= |arrivals|
      invariant members == Collected(arrivals[..i])
      invariant FirstResolution(rowsCount, arrivals) == ResolutionFrom(rowsCount, arrivals, i + 1)
      invariant counter.Snapshot() == Tallied(start, Reported(arrivals[..i]))
      invariant counter.total == old(counter.total) && counter.totalCount == old(counter.totalCount)
    {
      ReportedStep(arrivals, i);
      ghost var tally := Tallied(start, Reported(arrivals[..i + 1]));
      if arrivals[i].metrics.Some? {
        TalliedSnoc(start, Reported(arrivals[..i]), arrivals[i].metrics.value);
        assert tally == Absorbed(counter.Snapshot(), arrivals[i].metrics.value);
      } else {
        assert Reported(arrivals[..i + 1]) == Reported(arrivals[..i]);
        assert tally == counter.Snapshot();
      }
      var resolved;
      members, resolved := HandleMessage(rowsCount, members, arrivals[i], counter);
      assert counter.Snapshot() == tally;
      i := i + 1;
      if resolved.Some? {
        assert ResolvesAt(rowsCount, arrivals, i);
        assert Handled(rowsCount, arrivals) == arrivals[..i];
        return resolved;
      }
      assert !ResolvesAt(rowsCount, arrivals, i);
    }
    assert arrivals[..i] == arrivals;
    return None;
  }
}
