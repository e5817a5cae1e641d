/** How scrapePage (scrapper.js) turns each page's sorted records into the
    piece of text it appends to the output file: `JSON.stringify(members)`,
    the first `[` replaced by `,` once any page has been parsed, and the text
    cut before its last `]` when another page follows. Each record's own
    serialization is given as a string. */
module Stitching {
  import opened JsRuntime

  /** `JSON.stringify` of an array whose elements serialize to `items`. */
  function Stringify(items: seq<string>): (r: string)
    ensures |r| >= 2 && r[0] == '[' && r[|r| - 1] == ']'
  {
    "[" + Join(items, ",") + "]"
  }

  /** `s.replace(c, d)` with a one-character string pattern: only the first
      occurrence, the one `indexOf` finds, is replaced. */
  function ReplaceFirst(s: string, c: char, d: char): (r: string)
    ensures r == if IndexOf(s, c) == -1 then s else s[IndexOf(s, c) := d]
  {
    if s == [] then []
    else if s[0] == c then [d] + s[1..]
    else [s[0]] + ReplaceFirst(s[1..], c, d)
  }

  /** `s.lastIndexOf(c)`: the last position holding `c`, or -1. */
  function LastIndexOf(s: string, c: char): (r: int)
    ensures -1 <= r < |s|
    ensures r >= 0 ==> s[r] == c && c !in s[r + 1..]
    ensures r == -1 ==> c !in s
  {
    if s == [] then -1
    else if s[|s| - 1] == c then |s| - 1
    else (assert s == s[..|s| - 1] + [s[|s| - 1]]; LastIndexOf(s[..|s| - 1], c))
  }

  /** `s.substr(0, length)`: a negative length gives the empty string. */
  function Prefix(s: string, length: int): (r: string)
    ensures length <= 0 ==> r == ""
    ensures 0 <= length <= |s| ==> r == s[..length]
    ensures length >= |s| ==> r == s
  {
    if length <= 0 then "" else if length >= |s| then s else s[..length]
  }

  /** The text scrapePage writes for one page. */
  function Fragment(items: seq<string>, pagesParsed: int, nextPage: bool): string {
    var json := Stringify(items);
    var json1 := if pagesParsed > 0 then ReplaceFirst(json, '[', ',') else json;
    if nextPage then Prefix(json1, LastIndexOf(json1, ']')) else json1
  }

  /** The shape of a fragment: the joined records between an opening `[`
      (first page) or `,` (later pages) and a closing `]` (last page) or
      nothing. */
  function Piece(items: seq<string>, pagesParsed: int, nextPage: bool): string {
    (if pagesParsed > 0 then "," else "[") + Join(items, ",") + (if nextPage then "" else "]")
  }

  /** The string operations of scrapePage produce exactly that shape, whatever
      the records contain (a `[` or `]` inside a record is never touched,
      since the first `[` and the last `]` are the array's own). */
  lemma FragmentShape(items: seq<string>, pagesParsed: int, nextPage: bool)
    ensures Fragment(items, pagesParsed, nextPage) == Piece(items, pagesParsed, nextPage)
  {
    var body := Join(items, ",");
    var open := if pagesParsed > 0 then "," else "[";
    var json1 := if pagesParsed > 0 then ReplaceFirst(Stringify(items), '[', ',') else Stringify(items);
    assert json1 == open + body + "]" by {
      if pagesParsed > 0 {
        ReplaceOpening(body);
      }
    }
    if nextPage {
      CutClosing(open + body);
    }
  }

  /** The first `[` of an array's text is its opening bracket. */
  lemma ReplaceOpening(body: string)
    ensures ReplaceFirst("[" + body + "]", '[', ',') == "," + body + "]"
  {
    var json := "[" + body + "]";
    assert IndexOf(json, '[') == 0;
    assert json[0 := ','] == "," + body + "]";
  }

  /** The last `]` of a text that ends in `]` is its last character. */
  lemma CutClosing(x: string)
    ensures Prefix(x + "]", LastIndexOf(x + "]", ']')) == x
  {
    var y := x + "]";
    assert y[|y| - 1] == ']';
    assert y[..|x|] == x;
  }

  /** The text written by pages of a run that all have a next link: page `k`
      of `batches` written with `pagesParsed = parsed0 + k`. */
  function Opened(batches: seq<seq<string>>, parsed0: int): string
    decreases |batches|
  {
    if batches == [] then ""
    else
      var n := |batches|;
      Opened(batches[..n - 1], parsed0) + Piece(batches[n - 1], parsed0 + n - 1, true)
  }

  /** The text written by a run that ends: every page but the last has a next
      link. */
  function Written(batches: seq<seq<string>>, parsed0: int): string {
    if batches == [] then ""
    else
      var n := |batches|;
      Opened(batches[..n - 1], parsed0) + Piece(batches[n - 1], parsed0 + n - 1, false)
  }

  /** All records of a run, in page order. */
  function Flatten(batches: seq<seq<string>>): seq<string> {
    if batches == [] then [] else Flatten(batches[..|batches| - 1]) + batches[|batches| - 1]
  }

  /** Every page of the run yields at least one record. */
  predicate NoEmptyPage(batches: seq<seq<string>>) {
    forall k :: 0 <= k < |batches| ==> batches[k] != []
  }

  lemma Regroup(a: string, b: string, c: string, d: string)
    ensures (a + b) + (c + d) == a + (b + c + d)
  {
  }

  /** Pages with next links and at least one record each write the opening of
      one array: `[` (when the run starts with `pages.parsed === 0`) or `,`,
      then all their records separated by `,`. */
  lemma {:induction false} OpenedIsArrayPrefix(batches: seq<seq<string>>, parsed0: int)
    requires parsed0 >= 0 && batches != [] && NoEmptyPage(batches)
    ensures Opened(batches, parsed0) == (if parsed0 > 0 then "," else "[") + Join(Flatten(batches), ",")
    decreases |batches|
  {
    var n := |batches|;
    var init, last := batches[..n - 1], batches[n - 1];
    var open := if parsed0 > 0 then "," else "[";
    assert Opened(batches, parsed0) == Opened(init, parsed0) + Piece(last, parsed0 + n - 1, true);
    assert Flatten(batches) == Flatten(init) + last;
    if init == [] {
      assert n == 1 && Flatten(batches) == last;
    } else {
      var x := Join(Flatten(init), ",");
      assert Opened(init, parsed0) == open + x by {
        OpenedIsArrayPrefix(init, parsed0);
      }
      assert Flatten(init) != [] by {
        assert init[n - 2] != [];
        FlattenKeepsLast(init);
      }
      assert Join(Flatten(batches), ",") == x + "," + Join(last, ",") by {
        JoinAppend(Flatten(init), last, ",");
      }
      Regroup(open, x, ",", Join(last, ","));
    }
  }

  lemma FlattenKeepsLast(batches: seq<seq<string>>)
    requires batches != []
    ensures |Flatten(batches)| >= |batches[|batches| - 1]|
  {
  }

  /** The round trip, for any run that ends and whose every page yields at
      least one record: the file holds exactly one JSON array with all records
      in page order when the run starts with `pages.parsed === 0`, and the same
      text led by `,` instead of `[` otherwise (a second target scraped in the
      same process, since the first-page test reads the run-wide counter). */
  lemma WrittenRun(batches: seq<seq<string>>, parsed0: int)
    requires parsed0 >= 0 && batches != [] && NoEmptyPage(batches)
    ensures Written(batches, parsed0) == (if parsed0 > 0 then "," else "[") + Join(Flatten(batches), ",") + "]"
  {
    WrittenClosesOpened(batches, parsed0);
    OpenedIsArrayPrefix(batches, parsed0);
  }

  /** A run that ends writes what the same pages with next links would, plus
      the closing `]` of the last page. */
  lemma WrittenClosesOpened(batches: seq<seq<string>>, parsed0: int)
    requires batches != []
    ensures Written(batches, parsed0) == Opened(batches, parsed0) + "]"
  {
    var n := |batches|;
    var init, last := batches[..n - 1], batches[n - 1];
    var piece := Piece(last, parsed0 + n - 1, true);
    assert Piece(last, parsed0 + n - 1, false) == piece + "]";
    assert Opened(batches, parsed0) == Opened(init, parsed0) + piece;
  }

  /** The case the file format relies on: starting from `pages.parsed === 0`
      (`p`), the file is `JSON.stringify` of all records. */
  lemma StitchedRunIsOneArray(batches: seq<seq<string>>, p: int)
    requires p == 0 && batches != [] && NoEmptyPage(batches)
    ensures Written(batches, p) == Stringify(Flatten(batches))
  {
    WrittenRun(batches, p);
  }

  /** A later page without records leaves an empty element: two pages `a`, an
      empty one and `b` give `[a,,b]`. */
  lemma EmptyMiddlePageBreaksTheArray(a: string, b: string)
    ensures Written([[a], [], [b]], 0) == "[" + a + ",," + b + "]"
  {
    var batches := [[a], [], [b]];
    assert batches[..2] == [[a], []] && batches[..2][..1] == [[a]] && batches[..2][..1][..0] == [];
    assert Opened([[a]], 0) == "[" + a;
    assert Opened([[a], []], 0) == "[" + a + ",";
  }

  /** An empty first page leaves `[,b]`. */
  lemma EmptyFirstPageBreaksTheArray(b: string)
    ensures Written([[], [b]], 0) == "[," + b + "]"
  {
    var batches := [[], [b]];
    assert batches[..1] == [[]] && batches[..1][..0] == [];
    assert Opened([[]], 0) == "[";
  }
}
