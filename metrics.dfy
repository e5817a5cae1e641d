/** The run-wide METRICS record of metrics.js: two counters, `pages` and
    `members`, each with a `total` whose setter also writes the hidden
    `time.__total_count`, a `parsed` count and `time.total`/`min`/`max`, plus
    the `avg` getter. The in-place updates scrapper.js makes to them live here
    as methods, and the rules they follow over a whole run as lemmas. */
module Metrics {
  import opened JsRuntime

  // ---------------------------------------------------------------------------
  // The min/max rules of scrapper.js, on values

  /** `min ? Math.min(min, sample) : sample`: a stored 0 counts as unset. */
  function FoldMin(stored: int, sample: int): (r: int)
    ensures stored == 0 ==> r == sample
    ensures stored != 0 ==> r <= stored && r <= sample && (r == stored || r == sample)
  {
    if stored != 0 then Min(stored, sample) else sample
  }

  /** `Math.max(max, sample)`. */
  function FoldMax(stored: int, sample: int): (r: int)
    ensures r >= stored && r >= sample && (r == stored || r == sample)
  {
    Max(stored, sample)
  }

  /** The stored minimum after feeding `samples` one by one, from `stored`. */
  function MinFrom(stored: int, samples: seq<int>): int
    decreases |samples|
  {
    if samples == [] then stored else MinFrom(FoldMin(stored, samples[0]), samples[1..])
  }

  /** The stored maximum after feeding `samples` one by one, from `stored`. */
  function MaxFrom(stored: int, samples: seq<int>): int
    decreases |samples|
  {
    if samples == [] then stored else MaxFrom(FoldMax(stored, samples[0]), samples[1..])
  }

  function Sum(samples: seq<int>): int {
    if samples == [] then 0 else Sum(samples[..|samples| - 1]) + samples[|samples| - 1]
  }

  /** Feeding one more sample is one more step of the fold. */
  lemma {:induction false} MinFromSnoc(stored: int, samples: seq<int>, x: int)
    ensures MinFrom(stored, samples + [x]) == FoldMin(MinFrom(stored, samples), x)
    decreases |samples|
  {
    if samples != [] {
      assert (samples + [x])[1..] == samples[1..] + [x];
      MinFromSnoc(FoldMin(stored, samples[0]), samples[1..], x);
    }
  }

  lemma {:induction false} MaxFromSnoc(stored: int, samples: seq<int>, x: int)
    ensures MaxFrom(stored, samples + [x]) == FoldMax(MaxFrom(stored, samples), x)
    decreases |samples|
  {
    if samples != [] {
      assert (samples + [x])[1..] == samples[1..] + [x];
      MaxFromSnoc(FoldMax(stored, samples[0]), samples[1..], x);
    }
  }

  lemma {:induction false} MinFromAppend(stored: int, a: seq<int>, b: seq<int>)
    ensures MinFrom(stored, a + b) == MinFrom(MinFrom(stored, a), b)
    decreases |a|
  {
    if a != [] {
      assert (a + b)[0] == a[0] && (a + b)[1..] == a[1..] + b;
      MinFromAppend(FoldMin(stored, a[0]), a[1..], b);
    } else {
      assert a + b == b;
    }
  }

  /** Over positive times, the recorded minimum of a run is the least time seen. */
  lemma {:induction false} MinIsLeastOfPositiveSamples(samples: seq<int>)
    requires samples != []
    requires forall i :: 0 <= i < |samples| ==> samples[i] > 0
    ensures MinFrom(0, samples) in samples
    ensures forall i :: 0 <= i < |samples| ==> MinFrom(0, samples) <= samples[i]
  {
    var n := |samples|;
    var init := samples[..n - 1];
    assert samples == init + [samples[n - 1]];
    MinFromSnoc(0, init, samples[n - 1]);
    if init != [] {
      MinIsLeastOfPositiveSamples(init);
      assert MinFrom(0, init) > 0;
    } else {
      assert MinFrom(0, init) == 0;
    }
  }

  /** A time of 0 (a sub-millisecond page or message) wipes the recorded
      minimum: whatever came before it no longer matters. */
  lemma ZeroTimeResetsMinimum(before: seq<int>, after: seq<int>)
    requires forall i :: 0 <= i < |before| ==> before[i] >= 0
    ensures MinFrom(0, before + [0] + after) == MinFrom(0, after)
  {
    MinFromAppend(0, before + [0], after);
    MinFromSnoc(0, before, 0);
    if MinFrom(0, before) != 0 {
      MinNonNegative(before);
    }
  }

  lemma {:induction false} MinNonNegative(samples: seq<int>)
    requires forall i :: 0 <= i < |samples| ==> samples[i] >= 0
    ensures MinFrom(0, samples) >= 0
  {
    if samples != [] {
      var n := |samples|;
      assert samples == samples[..n - 1] + [samples[n - 1]];
      MinFromSnoc(0, samples[..n - 1], samples[n - 1]);
      MinNonNegative(samples[..n - 1]);
    }
  }

  /** From an initial 0, the recorded maximum of non-negative times is the
      largest time seen (0 before any), and it never goes down. */
  lemma {:induction false} MaxIsGreatestSample(samples: seq<int>)
    requires forall i :: 0 <= i < |samples| ==> samples[i] >= 0
    ensures forall i :: 0 <= i < |samples| ==> samples[i] <= MaxFrom(0, samples)
    ensures samples == [] ==> MaxFrom(0, samples) == 0
    ensures samples != [] ==> MaxFrom(0, samples) in samples
  {
    if samples != [] {
      var n := |samples|;
      var init := samples[..n - 1];
      assert samples == init + [samples[n - 1]];
      MaxFromSnoc(0, init, samples[n - 1]);
      MaxIsGreatestSample(init);
    }
  }

  // ---------------------------------------------------------------------------
  // The record

  /** The four fields the page timer and the worker messages fold into. */
  datatype Tally = Tally(parsed: int, timeTotal: int, timeMin: int, timeMax: int)

  /** One of `METRICS.pages` / `METRICS.members`. `total` is whatever was last
      assigned (the members count arrives as a digit string, modelled by the
      number it converts to when divided). */
  class Counter {
    var total: JsNumber          // __total
    var totalCount: JsNumber     // time.__total_count
    var parsed: int
    var timeTotal: int
    var timeMin: int
    var timeMax: int

    /** The literal in metrics.js: every field 0. */
    constructor ()
      ensures total == FromInt(0) && totalCount == FromInt(0)
      ensures parsed == 0 && timeTotal == 0 && timeMin == 0 && timeMax == 0
    {
      total := FromInt(0);
      totalCount := FromInt(0);
      parsed := 0;
      timeTotal := 0;
      timeMin := 0;
      timeMax := 0;
    }

    function Snapshot(): Tally
      reads this
    {
      Tally(parsed, timeTotal, timeMin, timeMax)
    }

    /** The `total` setter: store the value and copy it into the hidden count
        that `avg` divides by. Nothing else changes. */
    method SetTotal(v: JsNumber)
      modifies this
      ensures total == v && totalCount == v
      ensures parsed == old(parsed) && timeTotal == old(timeTotal)
      ensures timeMin == old(timeMin) && timeMax == old(timeMax)
    {
      total := v;
      totalCount := v;
    }

    /** One page's time (scrapper.js, the timer callback). */
    method AddTime(time: int)
      modifies this
      ensures timeTotal == old(timeTotal) + time
      ensures timeMin == FoldMin(old(timeMin), time) && timeMax == FoldMax(old(timeMax), time)
      ensures total == old(total) && totalCount == old(totalCount) && parsed == old(parsed)
    {
      timeTotal := timeTotal + time;
      timeMin := if timeMin != 0 then Min(timeMin, time) else time;
      timeMax := Max(timeMax, time);
    }

    /** `pages.parsed++`. */
    method IncrementParsed()
      modifies this
      ensures parsed == old(parsed) + 1
      ensures total == old(total) && totalCount == old(totalCount) && timeTotal == old(timeTotal)
      ensures timeMin == old(timeMin) && timeMax == old(timeMax)
    {
      parsed := parsed + 1;
    }

    /** One worker message's `metrics` (scrapper.js, the message handler). */
    method Absorb(count: int, timeSum: int, minTime: int, maxTime: int)
      modifies this
      ensures parsed == old(parsed) + count && timeTotal == old(timeTotal) + timeSum
      ensures timeMin == FoldMin(old(timeMin), minTime) && timeMax == FoldMax(old(timeMax), maxTime)
      ensures total == old(total) && totalCount == old(totalCount)
    {
      parsed := parsed + count;
      timeTotal := timeTotal + timeSum;
      timeMin := if timeMin != 0 then Min(timeMin, minTime) else minTime;
      timeMax := Max(timeMax, maxTime);
    }

    /** The `avg` getter before `toFixed`: the time total over the last value
        given to `total` (the expected count, not `parsed`). */
    function Avg(): (r: JsNumber)
      reads this
      ensures totalCount.Finite? && totalCount.value != 0.0 ==> r == Finite(timeTotal as real / totalCount.value)
      ensures totalCount == FromInt(0) ==> r == (if timeTotal > 0 then PosInfinity else if timeTotal < 0 then NegInfinity else NaN)
      ensures totalCount.NaN? ==> r.NaN?
    {
      Divide(FromInt(timeTotal), totalCount)
    }
  }

  /** `METRICS` itself: two separate counters. */
  class RunMetrics {
    const pages: Counter
    const members: Counter

    constructor ()
      ensures fresh(pages) && fresh(members) && pages != members
      ensures pages.total == FromInt(0) && pages.totalCount == FromInt(0) && pages.parsed == 0
      ensures pages.timeTotal == 0 && pages.timeMin == 0 && pages.timeMax == 0
      ensures members.total == FromInt(0) && members.totalCount == FromInt(0) && members.parsed == 0
      ensures members.timeTotal == 0 && members.timeMin == 0 && members.timeMax == 0
    {
      pages := new Counter();
      members := new Counter();
    }

    /** Every field of both counters: the two tallies, then `total` and the
        hidden count of `pages` and of `members`. */
    function Fields(): (Tally, Tally, JsNumber, JsNumber, JsNumber, JsNumber)
      reads pages, members
    {
      (pages.Snapshot(), members.Snapshot(), pages.total, pages.totalCount, members.total, members.totalCount)
    }
  }
}
