/** How delegateProcessingToWorkers (scrapper.js) splits a page's rows over
    the worker processes: a chunk size `Math.round(rows_count / W)` and one
    `{index_from, index_to}` pair per worker, the last one ending at
    `rows_count`. */
module Partition {

  /** `NUMBER_OF_WORKERS`: twice the number of CPUs. */
  function NumberOfWorkers(cpus: nat): (w: nat)
    ensures w % 2 == 0 && (cpus > 0 ==> w >= 2)
  {
    2 * cpus
  }

  /** `Math.round(rows / workers)` (round half up) on non-negative integers:
      the integer nearest to the exact ratio, ties going up. */
  function Chunk(rows: nat, workers: nat): (c: nat)
    requires workers > 0
    ensures 2 * rows - workers < 2 * workers * c <= 2 * rows + workers
  {
    (2 * rows + workers) / (2 * workers)
  }

  /** The pair passed to worker `i` (half-open, `index_from` to `index_to`). */
  datatype Assignment = Assignment(indexFrom: int, indexTo: int)

  /** Reference for the body of the `for` loop at iteration `i`. */
  function RangeFor(rows: nat, workers: nat, i: nat): Assignment
    requires i < workers
  {
    var c := Chunk(rows, workers);
    Assignment(i * c, if i == workers - 1 then rows else (i + 1) * c)
  }

  /** Every worker's pair, in fork order. */
  function Plan(rows: nat, workers: nat): (plan: seq<Assignment>)
    ensures |plan| == workers
  {
    seq(workers, i requires 0 <= i < workers => RangeFor(rows, workers, i))
  }

  predicate Covers(a: Assignment, k: int) {
    a.indexFrom <= k < a.indexTo
  }

  /** The `for` loop forking one worker per iteration, as the list of the
      assignments it hands out, in order. */
  method PlanAssignments(rows: nat, workers: nat) returns (plan: seq<Assignment>)
    ensures plan == Plan(rows, workers)
  {
    plan := [];
    if workers == 0 {
      return;
    }
    var urlsPerWorker := Chunk(rows, workers);
    var i := 0;
    while i < workers
      invariant 0 <= i <= workers
      invariant |plan| == i
      invariant forall j :: 0 <= j < i ==> plan[j] == RangeFor(rows, workers, j)
    {
      var indexFrom := i * urlsPerWorker;
      var indexTo := 0;
      if i == workers - 1 {
        indexTo := rows;
      } else {
        indexTo := (i + 1) * urlsPerWorker;
      }
      plan := plan + [Assignment(indexFrom, indexTo)];
      i := i + 1;
    }
    assert plan == Plan(rows, workers);
  }

  lemma MulMonotone(a: int, b: int, c: int)
    requires a <= b && c >= 0
    ensures a * c <= b * c
  {
    assert b * c - a * c == (b - a) * c;
  }

  /** Every row index of the page falls in the range of exactly one worker,
      whatever the row and worker counts. */
  lemma EveryRowHasOneWorker(rows: nat, workers: nat, k: int)
    requires workers > 0 && 0 <= k < rows
    ensures exists i :: 0 <= i < workers && Covers(RangeFor(rows, workers, i), k)
    ensures forall i, j ::
              (0 <= i < workers && 0 <= j < workers &&
               Covers(RangeFor(rows, workers, i), k) && Covers(RangeFor(rows, workers, j), k)) ==> i == j
  {
    var owner := Owner(rows, workers, k);
    forall i, j | 0 <= i < workers && 0 <= j < workers &&
                  Covers(RangeFor(rows, workers, i), k) && Covers(RangeFor(rows, workers, j), k)
      ensures i == j
    {
      if i < j {
        DisjointRanges(rows, workers, k, i, j);
      } else if j < i {
        DisjointRanges(rows, workers, k, j, i);
      }
    }
  }

  /** The worker whose range holds row `k`: the chunk `k` falls in, or the
      last worker for the rows past the last full chunk. */
  lemma Owner(rows: nat, workers: nat, k: int) returns (owner: nat)
    requires workers > 0 && 0 <= k < rows
    ensures owner < workers && Covers(RangeFor(rows, workers, owner), k)
  {
    var c := Chunk(rows, workers);
    var last := workers - 1;
    if c == 0 {
      owner := last;
    } else {
      var q := k / c;
      assert q * c <= k < q * c + c;
      if q < last {
        owner := q;
      } else {
        owner := last;
        MulMonotone(last, q, c);
      }
    }
  }

  /** An earlier worker's range ends where the next ones start, so it cannot
      hold a row a later worker holds. */
  lemma DisjointRanges(rows: nat, workers: nat, k: int, i: nat, j: nat)
    requires i < j < workers
    requires Covers(RangeFor(rows, workers, i), k)
    ensures !Covers(RangeFor(rows, workers, j), k)
  {
    MulMonotone(i + 1, j, Chunk(rows, workers));
  }

  /** The ranges stay inside `[0, rows_count)`, each one ordered, exactly when
      the chunks before the last one fit: `(W - 1) * chunk <= rows_count`.
      Otherwise the middle ranges run past the end and the last one is inverted. */
  lemma RangesInBoundsIff(rows: nat, workers: nat)
    requires workers > 0
    ensures (forall i :: 0 <= i < workers ==>
               0 <= RangeFor(rows, workers, i).indexFrom <= RangeFor(rows, workers, i).indexTo <= rows)
            <==> (workers - 1) * Chunk(rows, workers) <= rows
  {
    var c := Chunk(rows, workers);
    var last := workers - 1;
    if last * c <= rows {
      forall i | 0 <= i < workers
        ensures 0 <= RangeFor(rows, workers, i).indexFrom <= RangeFor(rows, workers, i).indexTo <= rows
      {
        MulMonotone(i, last, c);
        if i < last {
          MulMonotone(i + 1, last, c);
        }
      }
    } else {
      assert RangeFor(rows, workers, last).indexFrom > RangeFor(rows, workers, last).indexTo;
    }
  }

  /** Two rows over four workers: a chunk of 1, a third range `[2, 3)` past
      the end and a last range `[3, 2)`. */
  lemma TwoRowsFourWorkers()
    ensures Chunk(2, 4) == 1
    ensures RangeFor(2, 4, 2) == Assignment(2, 3) && RangeFor(2, 4, 3) == Assignment(3, 2)
  {
  }

  /** Twelve rows over eight workers: `Math.round(1.5)` is 2, so the seventh
      range is `[12, 14)` and the last `[14, 12)`. */
  lemma TwelveRowsEightWorkers()
    ensures Chunk(12, 8) == 2
    ensures RangeFor(12, 8, 6) == Assignment(12, 14) && RangeFor(12, 8, 7) == Assignment(14, 12)
  {
  }
}
