/** The two parsers that turn one listing row and one member detail page into
    a member record (better_scrapper.js: parseGeneralMemberData,
    getMemberUrl, parseDetailedMemberData). */
module MemberParsers {
  import opened JsRuntime
  import opened Dom

  const RootUrl: string := "http://www.sia.ch"

  /** A section of a detail page: a plain text, or sub-key -> text entries. */
  datatype DetailValue = Plain(text: string) | Nested(entries: map<string, string>)

  type Details = map<string, DetailValue>

  /** A member record: the listing columns and, under `details`, the detail page. */
  datatype Member = Member(general: map<string, string>, details: Details)

  /** The TypeErrors parseDetailedMemberData can throw under strict mode. */
  datatype DetailError =
    | SectionUndefined(section: string)  // `details[key]` is undefined
    | SectionIsText(section: string)     // `details[key]` is a string primitive

  datatype Result<T> = Ok(value: T) | Err(error: DetailError)

  /** A cell's text with `<br>` read as a newline, trimmed. */
  function CellText(c: Cell): string {
    Trim(TextWithBreaks(c.content, "\n"))
  }

  function CellTexts(cells: seq<Cell>): (r: seq<string>)
    ensures |r| == |cells|
  {
    if cells == [] then [] else CellTexts(cells[..|cells| - 1]) + [CellText(cells[|cells| - 1])]
  }

  lemma {:induction false} CellTextsAt(cells: seq<Cell>, i: nat)
    requires i < |cells|
    ensures CellTexts(cells)[i] == CellText(cells[i])
  {
    if i < |cells| - 1 {
      CellTextsAt(cells[..|cells| - 1], i);
    }
  }

  function Trimmed(ss: seq<string>): (r: seq<string>)
    ensures |r| == |ss|
  {
    if ss == [] then [] else Trimmed(ss[..|ss| - 1]) + [Trim(ss[|ss| - 1])]
  }

  lemma {:induction false} TrimmedAt(ss: seq<string>, i: nat)
    requires i < |ss|
    ensures Trimmed(ss)[i] == Trim(ss[i])
  {
    if i < |ss| - 1 {
      TrimmedAt(ss[..|ss| - 1], i);
    }
  }

  // ---------------------------------------------------------------------------
  // Storing values under keys in order, as `obj[k] = v` in a loop guarded by `if (k)`

  /** Key `ks[i]` gets value `vs[i]`; empty keys are skipped and a later equal
      key overwrites an earlier one. */
  function LastWins(ks: seq<string>, vs: seq<string>): map<string, string>
    requires |ks| == |vs|
  {
    if ks == [] then map[]
    else
      var m := LastWins(ks[..|ks| - 1], vs[..|vs| - 1]);
      if ks[|ks| - 1] == "" then m else m[ks[|ks| - 1] := vs[|vs| - 1]]
  }

  /** A key is stored exactly when it is non-empty and occurs, and it holds
      the value paired with its last occurrence. */
  lemma {:induction false} LastWinsLookup(ks: seq<string>, vs: seq<string>, k: string)
    requires |ks| == |vs|
    ensures k in LastWins(ks, vs) <==> k != "" && k in ks
    ensures k in LastWins(ks, vs) ==>
              exists i :: 0 <= i < |ks| && ks[i] == k && LastWins(ks, vs)[k] == vs[i] && k !in ks[i + 1..]
  {
    if ks != [] {
      var n := |ks| - 1;
      LastWinsLookup(ks[..n], vs[..n], k);
      assert ks == ks[..n] + [ks[n]];
      if ks[n] == k && k != "" {
        assert ks[n + 1..] == [];
      } else if k in LastWins(ks, vs) {
        var i :| 0 <= i < n && ks[..n][i] == k && LastWins(ks[..n], vs[..n])[k] == vs[..n][i] && k !in ks[..n][i + 1..];
        assert ks[i + 1..] == ks[..n][i + 1..] + [ks[n]];
      }
    }
  }

  lemma LastWinsSnoc(ks: seq<string>, vs: seq<string>, k: string, v: string)
    requires |ks| == |vs|
    ensures LastWins(ks + [k], vs + [v]) == if k == "" then LastWins(ks, vs) else LastWins(ks, vs)[k := v]
  {
    assert (ks + [k])[..|ks|] == ks && (vs + [v])[..|vs|] == vs;
  }

  lemma LastWinsStep(ks: seq<string>, vs: seq<string>, j: nat)
    requires |ks| == |vs| && j < |ks|
    ensures LastWins(ks[..j + 1], vs[..j + 1])
         == if ks[j] == "" then LastWins(ks[..j], vs[..j]) else LastWins(ks[..j], vs[..j])[ks[j] := vs[j]]
  {
    assert ks[..j + 1] == ks[..j] + [ks[j]] && vs[..j + 1] == vs[..j] + [vs[j]];
    LastWinsSnoc(ks[..j], vs[..j], ks[j], vs[j]);
  }

  // ---------------------------------------------------------------------------
  // parseGeneralMemberData and getMemberUrl

  /** The listing fields of a row: cell i under `keys[i]`, trimmed, when that
      header exists and is non-empty. */
  function GeneralData(cells: seq<Cell>, keys: seq<string>): map<string, string> {
    var n := Min(|cells|, |keys|);
    LastWins(keys[..n], CellTexts(cells[..n]))
  }

  method ParseGeneralMemberData(cells: seq<Cell>, keys: seq<string>) returns (data: map<string, string>)
    ensures data == GeneralData(cells, keys)
  {
    data := map[];
    var i := 0;
    while i < |cells|
      invariant 0 <= i <= |cells|
      invariant data == LastWins(keys[..Min(i, |keys|)], CellTexts(cells[..Min(i, |keys|)]))
    {
      if i < |keys| {
        GeneralDataStep(cells, keys, i);
        if keys[i] != "" {
          data := data[keys[i] := CellText(cells[i])];
        }
      }
      i := i + 1;
    }
  }

  /** Cell `i` under header `i` is the last pair stored so far. */
  lemma GeneralDataStep(cells: seq<Cell>, keys: seq<string>, i: nat)
    requires i < |cells| && i < |keys|
    ensures var (ks, vs) := (keys[..i + 1], CellTexts(cells[..i + 1]));
            var prior := LastWins(keys[..i], CellTexts(cells[..i]));
            LastWins(ks, vs) == if keys[i] == "" then prior else prior[keys[i] := CellText(cells[i])]
  {
    assert cells[..i + 1] == cells[..i] + [cells[i]];
    assert cells[..i + 1][..i] == cells[..i];
    assert keys[..i + 1] == keys[..i] + [keys[i]];
    LastWinsSnoc(keys[..i], CellTexts(cells[..i]), keys[i], CellText(cells[i]));
  }

  /** Cells past the header list and cells under an empty header are dropped;
      every other column holds the trimmed text of the last cell under it. */
  lemma GeneralDataLookup(cells: seq<Cell>, keys: seq<string>, k: string)
    ensures k in GeneralData(cells, keys) <==>
              k != "" && exists i :: 0 <= i < |cells| && i < |keys| && keys[i] == k
    ensures k in GeneralData(cells, keys) ==>
              exists i :: 0 <= i < |cells| && i < |keys| && keys[i] == k
                && GeneralData(cells, keys)[k] == CellText(cells[i])
                && forall j :: i < j < |cells| && j < |keys| ==> keys[j] != k
  {
    var n := Min(|cells|, |keys|);
    var ks, vs := keys[..n], CellTexts(cells[..n]);
    LastWinsLookup(ks, vs, k);
    if k in GeneralData(cells, keys) {
      var i :| 0 <= i < n && ks[i] == k && LastWins(ks, vs)[k] == vs[i] && k !in ks[i + 1..];
      CellTextsAt(cells[..n], i);
      assert cells[..n][i] == cells[i];
      forall j | i < j < |cells| && j < |keys| ensures keys[j] != k {
        assert keys[j] == ks[i + 1..][j - i - 1];
      }
    }
    if k != "" && exists i :: 0 <= i < |cells| && i < |keys| && keys[i] == k {
      var i :| 0 <= i < |cells| && i < |keys| && keys[i] == k;
      assert ks[i] == k;
    }
  }

  /** The `href` of the first anchor in the row's first cell, or the text
      "undefined" that JavaScript's string concatenation produces without one. */
  function FirstHrefText(cells: seq<Cell>): string {
    if cells != [] && cells[0].anchors != [] && cells[0].anchors[0].Some?
    then cells[0].anchors[0].value
    else "undefined"
  }

  /** getMemberUrl: the site root followed by the row's first anchor. */
  function MemberUrl(cells: seq<Cell>): (url: string)
    ensures |url| >= |RootUrl| && url[..|RootUrl|] == RootUrl && url[|RootUrl|..] == FirstHrefText(cells)
  {
    RootUrl + FirstHrefText(cells)
  }

  // ---------------------------------------------------------------------------
  // Splitting on newline runs

  /** `(s.match(/\n+/g) || []).length`: the number of maximal runs of newlines,
      each counted at its last newline. */
  function NewlineRuns(s: string): nat {
    if s == [] then 0
    else (if s[0] == '\n' && (|s| == 1 || s[1] != '\n') then 1 else 0) + NewlineRuns(s[1..])
  }

  /** `s.split(/\n+/g)`: one more piece than there are newline runs, and no
      piece holds a newline. */
  function SplitOnNewlineRuns(s: string): (pieces: seq<string>)
    ensures |pieces| == NewlineRuns(s) + 1
    ensures forall i :: 0 <= i < |pieces| ==> '\n' !in pieces[i]
  {
    if s == [] then [""]
    else if s[0] != '\n' then
      var r := SplitOnNewlineRuns(s[1..]);
      [[s[0]] + r[0]] + r[1..]
    else if |s| > 1 && s[1] == '\n' then SplitOnNewlineRuns(s[1..])
    else [""] + SplitOnNewlineRuns(s[1..])
  }

  // ---------------------------------------------------------------------------
  // parseDetailedMemberData

  /** What the row loop sees of one `tr`: a header with its trimmed text, a row
      whose cells have no text, a single cell's trimmed text, or the sub-key
      and value texts of a row with several cells. */
  datatype RowView =
    | HeaderLine(title: string)
    | Blank
    | SingleCell(text: string)
    | MultiCell(subKey: string, cellData: string)

  function View(row: DetailRow): RowView {
    if |row.heads| > 0 then HeaderLine(Trim(CellsText(row.heads, "\n")))
    else if CellsRawText(row.cells) == "" then Blank
    else if |row.cells| == 1 then SingleCell(Trim(CellsText(row.cells, "\n")))
    else MultiCell(CellText(row.cells[0]), Trim(CellsText(row.cells[1..], "\n")))
  }

  function Views(rows: seq<DetailRow>): (r: seq<RowView>)
    ensures |r| == |rows|
  {
    if rows == [] then [] else Views(rows[..|rows| - 1]) + [View(rows[|rows| - 1])]
  }

  /** The running state of the row loop: the details so far and the current section key. */
  datatype ParseState = ParseState(details: Details, key: string)

  const InitialState: ParseState := ParseState(map[], "")

  /** What a multi-cell row stores in its section: line-by-line pairs when the
      sub-key and the value have as many newline runs, the whole value under the
      whole sub-key otherwise. */
  function Entries(subKey: string, cellData: string): map<string, string> {
    if NewlineRuns(subKey) == NewlineRuns(cellData)
    then LastWins(Trimmed(SplitOnNewlineRuns(subKey)), Trimmed(SplitOnNewlineRuns(cellData)))
    else map[subKey := cellData]
  }

  /** `details[key][k] = v` for every entry: nothing happens without entries;
      otherwise the section must exist and be an object. */
  function MergeEntries(details: Details, key: string, entries: map<string, string>): Result<Details> {
    if entries == map[] then Ok(details)
    else if key !in details then Err(SectionUndefined(key))
    else match details[key]
      case Plain(_) => Err(SectionIsText(key))
      case Nested(m) => Ok(details[key := Nested(m + entries)])
  }

  /** One iteration of the `$('tr').each` callback. */
  function Step(st: ParseState, v: RowView): Result<ParseState> {
    match v
    case HeaderLine(title) => Ok(ParseState(st.details[title := Nested(map[])], title))
    case Blank => Ok(st)
    case SingleCell(text) => Ok(ParseState(st.details[st.key := Plain(text)], st.key))
    case MultiCell(subKey, cellData) =>
      match MergeEntries(st.details, st.key, Entries(subKey, cellData))
      case Ok(d) => Ok(ParseState(d, st.key))
      case Err(e) => Err(e)
  }

  /** The state after the rows, or the first error thrown. */
  function Fold(views: seq<RowView>): Result<ParseState> {
    if views == [] then Ok(InitialState)
    else match Fold(views[..|views| - 1])
      case Ok(st) => Step(st, views[|views| - 1])
      case Err(e) => Err(e)
  }

  /** parseDetailedMemberData's result: the details, or the error it throws. */
  function DetailsOf(rows: seq<DetailRow>): Result<Details> {
    match Fold(Views(rows))
    case Ok(st) => Ok(st.details)
    case Err(e) => Err(e)
  }

  lemma FoldAppend(views: seq<RowView>, v: RowView)
    ensures Fold(views + [v]) == match Fold(views) case Ok(st) => Step(st, v) case Err(e) => Err(e)
  {
    assert (views + [v])[..|views|] == views;
  }

  lemma {:induction false} FoldErrorPersists(views: seq<RowView>, i: nat, e: DetailError)
    requires i <= |views| && Fold(views[..i]) == Err(e)
    ensures Fold(views) == Err(e)
  {
    if i < |views| {
      assert views[..|views| - 1][..i] == views[..i];
      FoldErrorPersists(views[..|views| - 1], i, e);
    } else {
      assert views[..i] == views;
    }
  }

  lemma {:induction false} ViewsTake(rows: seq<DetailRow>, n: nat)
    requires n <= |rows|
    ensures Views(rows[..n]) == Views(rows)[..n]
  {
    if n < |rows| {
      ViewsTake(rows[..|rows| - 1], n);
      assert rows[..|rows| - 1][..n] == rows[..n];
    } else {
      assert rows[..n] == rows;
    }
  }

  lemma ViewsPrefix(rows: seq<DetailRow>, i: nat)
    requires i < |rows|
    ensures Views(rows[..i + 1]) == Views(rows[..i]) + [View(rows[i])]
  {
    assert rows[..i + 1][..i] == rows[..i];
  }

  lemma RowStep(rows: seq<DetailRow>, i: nat)
    requires i < |rows|
    ensures Fold(Views(rows[..i + 1])) == match Fold(Views(rows[..i]))
                                          case Ok(st) => Step(st, View(rows[i]))
                                          case Err(e) => Err(e)
  {
    ViewsPrefix(rows, i);
    FoldAppend(Views(rows[..i]), View(rows[i]));
  }

  /** The first error thrown is the parser's result. */
  lemma ErrorStops(rows: seq<DetailRow>, i: nat, e: DetailError)
    requires i <= |rows| && Fold(Views(rows[..i])) == Err(e)
    ensures DetailsOf(rows) == Err(e)
  {
    ViewsTake(rows, i);
    FoldErrorPersists(Views(rows), i, e);
  }

  method ParseDetailedMemberData(rows: seq<DetailRow>) returns (r: Result<Details>)
    ensures r == DetailsOf(rows)
  {
    var details: Details := map[];
    var key := "";
    var i := 0;
    while i < |rows|
      invariant 0 <= i <= |rows|
      invariant Fold(Views(rows[..i])) == Ok(ParseState(details, key))
    {
      RowStep(rows, i);
      var next := ParseRow(details, key, View(rows[i]));
      match next {
        case Err(e) =>
          ErrorStops(rows, i + 1, e);
          return Err(e);
        case Ok(st) =>
          details, key := st.details, st.key;
      }
      i := i + 1;
    }
    assert rows[..i] == rows;
    r := Ok(details);
  }

  /** The body of the `$('tr').each` callback for one row. */
  method ParseRow(details: Details, key: string, v: RowView) returns (r: Result<ParseState>)
    ensures r == Step(ParseState(details, key), v)
  {
    match v {
      case HeaderLine(title) =>
        r := Ok(ParseState(details[title := Nested(map[])], title));
      case Blank =>
        r := Ok(ParseState(details, key));
      case SingleCell(text) =>
        r := Ok(ParseState(details[key := Plain(text)], key));
      case MultiCell(subKey, cellData) =>
        var merged: Result<Details>;
        if NewlineRuns(subKey) == NewlineRuns(cellData) {
          merged := StorePairs(details, key, SplitOnNewlineRuns(subKey), SplitOnNewlineRuns(cellData));
        } else {
          merged := MergeEntries(details, key, map[subKey := cellData]);
        }
        match merged {
          case Err(e) => r := Err(e);
          case Ok(d) => r := Ok(ParseState(d, key));
        }
    }
  }

  /** The inner `for` loop over the split sub-keys and values. */
  method StorePairs(details: Details, key: string, ks: seq<string>, vs: seq<string>) returns (r: Result<Details>)
    requires |ks| == |vs|
    ensures r == MergeEntries(details, key, LastWins(Trimmed(ks), Trimmed(vs)))
  {
    var tks, tvs := Trimmed(ks), Trimmed(vs);
    var current := details;
    var j := 0;
    while j < |ks|
      invariant 0 <= j <= |ks|
      invariant MergeEntries(details, key, LastWins(tks[..j], tvs[..j])) == Ok(current)
    {
      var k := Trim(ks[j]);
      var v := Trim(vs[j]);
      TrimmedAt(ks, j);
      TrimmedAt(vs, j);
      LastWinsStep(tks, tvs, j);
      if k != "" {
        StoreStep(details, key, tks, tvs, j, current);
        match SetEntry(current, key, k, v) {
          case Err(e) => return Err(e);
          case Ok(d) => current := d;
        }
      }
      j := j + 1;
    }
    assert tks[..j] == tks && tvs[..j] == tvs;
    r := Ok(current);
  }

  /** `details[key][k] = v`: a TypeError on an undefined or string section
      (better_scrapper.js runs in strict mode). */
  function SetEntry(details: Details, key: string, k: string, v: string): (r: Result<Details>)
    ensures r.Ok? <==> key in details && details[key].Nested?
    ensures r.Ok? ==> r.value == details[key := Nested(details[key].entries[k := v])]
  {
    if key !in details then Err(SectionUndefined(key))
    else match details[key]
      case Plain(_) => Err(SectionIsText(key))
      case Nested(m) => Ok(details[key := Nested(m[k := v])])
  }

  /** One turn of the pair loop against `MergeEntries`: a pair stored is the
      merge of one more pair, and a failure is the failure of the whole merge. */
  lemma StoreStep(details: Details, key: string, tks: seq<string>, tvs: seq<string>, j: nat, current: Details)
    requires |tks| == |tvs| && j < |tks| && tks[j] != ""
    requires MergeEntries(details, key, LastWins(tks[..j], tvs[..j])) == Ok(current)
    ensures match SetEntry(current, key, tks[j], tvs[j])
            case Err(e) => MergeEntries(details, key, LastWins(tks, tvs)) == Err(e)
            case Ok(d) => MergeEntries(details, key, LastWins(tks[..j + 1], tvs[..j + 1])) == Ok(d)
  {
    LastWinsStep(tks, tvs, j);
    if key !in current || current[key].Plain? {
      StoreFails(details, key, tks, tvs, j, current);
    } else {
      StoreOne(details, key, LastWins(tks[..j], tvs[..j]), tks[j], tvs[j], current);
    }
  }

  /** Storing one more pair in a section that is an object. */
  lemma StoreOne(details: Details, key: string, before: map<string, string>, k: string, v: string, current: Details)
    requires MergeEntries(details, key, before) == Ok(current)
    requires key in current && current[key].Nested?
    ensures MergeEntries(details, key, before[k := v]) == Ok(current[key := Nested(current[key].entries[k := v])])
  {
    var m := current[key].entries;
    if before == map[] {
      assert current == details;
      assert k in before[k := v] && before[k := v] == map[k := v];
      assert m + map[k := v] == m[k := v];
    } else {
      var m0 := details[key].entries;
      assert k in before[k := v];
      assert current == details[key := Nested(m0 + before)];
      assert m0 + before[k := v] == m[k := v];
      assert current[key := Nested(m[k := v])] == details[key := Nested(m[k := v])];
    }
  }

  /** A non-empty key stored in a missing or text section: the section was
      never touched before, and the whole merge fails the same way. */
  lemma StoreFails(details: Details, key: string, tks: seq<string>, tvs: seq<string>, j: nat, current: Details)
    requires |tks| == |tvs| && j < |tks| && tks[j] != ""
    requires MergeEntries(details, key, LastWins(tks[..j], tvs[..j])) == Ok(current)
    requires key !in current || current[key].Plain?
    ensures MergeEntries(details, key, LastWins(tks, tvs))
            == Err(if key !in current then SectionUndefined(key) else SectionIsText(key))
  {
    assert current == details;
    LastWinsLookup(tks, tvs, tks[j]);
  }

  // ---------------------------------------------------------------------------
  // Properties of the detail parser

  /** Two states that agree on the current key, on what is stored under it,
      and on section `h`. */
  ghost predicate AgreeOn(s1: ParseState, s2: ParseState, h: string) {
    && s1.key == s2.key
    && (s1.key in s1.details <==> s1.key in s2.details)
    && (s1.key in s1.details ==> s1.details[s1.key] == s2.details[s1.key])
    && h in s1.details && h in s2.details && s1.details[h] == s2.details[h]
  }

  lemma StepKeepsAgreement(s1: ParseState, s2: ParseState, h: string, v: RowView)
    requires AgreeOn(s1, s2, h)
    requires v != HeaderLine(h)
    ensures Step(s1, v).Ok? <==> Step(s2, v).Ok?
    ensures Step(s1, v).Err? ==> Step(s1, v) == Step(s2, v)
    ensures Step(s1, v).Ok? ==> AgreeOn(Step(s1, v).value, Step(s2, v).value, h)
  {
  }

  lemma {:induction false} FoldKeepsAgreement(pre1: seq<RowView>, pre2: seq<RowView>, post: seq<RowView>, h: string)
    requires Fold(pre1).Ok? && Fold(pre2).Ok?
    requires AgreeOn(Fold(pre1).value, Fold(pre2).value, h)
    requires HeaderLine(h) !in post
    ensures Fold(pre1 + post).Ok? <==> Fold(pre2 + post).Ok?
    ensures Fold(pre1 + post).Err? ==> Fold(pre1 + post) == Fold(pre2 + post)
    ensures Fold(pre1 + post).Ok? ==> AgreeOn(Fold(pre1 + post).value, Fold(pre2 + post).value, h)
  {
    if post == [] {
      assert pre1 + post == pre1 && pre2 + post == pre2;
    } else {
      var n := |post| - 1;
      FoldKeepsAgreement(pre1, pre2, post[..n], h);
      assert pre1 + post == (pre1 + post[..n]) + [post[n]];
      assert pre2 + post == (pre2 + post[..n]) + [post[n]];
      FoldAppend(pre1 + post[..n], post[n]);
      FoldAppend(pre2 + post[..n], post[n]);
      if Fold(pre1 + post[..n]).Ok? {
        StepKeepsAgreement(Fold(pre1 + post[..n]).value, Fold(pre2 + post[..n]).value, h, post[n]);
      }
    }
  }

  /** A repeated header discards earlier content: once header `h` has been
      read again, what came before it has no effect on section `h` or on
      whether the parse throws, as long as no later header reads `h`. */
  lemma HeaderDiscardsEarlierContent(pre1: seq<RowView>, pre2: seq<RowView>, h: string, post: seq<RowView>)
    requires Fold(pre1).Ok? && Fold(pre2).Ok?
    requires HeaderLine(h) !in post
    ensures Fold(pre1 + [HeaderLine(h)] + post).Ok? <==> Fold(pre2 + [HeaderLine(h)] + post).Ok?
    ensures Fold(pre1 + [HeaderLine(h)] + post).Ok? ==>
              && h in Fold(pre1 + [HeaderLine(h)] + post).value.details
              && h in Fold(pre2 + [HeaderLine(h)] + post).value.details
              && Fold(pre1 + [HeaderLine(h)] + post).value.details[h]
                 == Fold(pre2 + [HeaderLine(h)] + post).value.details[h]
  {
    FoldAppend(pre1, HeaderLine(h));
    FoldAppend(pre2, HeaderLine(h));
    FoldKeepsAgreement(pre1 + [HeaderLine(h)], pre2 + [HeaderLine(h)], post, h);
  }

  /** A row whose cells hold only `<br>`s and empty text is skipped: the
      emptiness test reads the text before `<br>` becomes a newline. */
  lemma BreakOnlyRowIsBlank(row: DetailRow)
    requires |row.heads| == 0
    requires forall c, i :: c in row.cells && 0 <= i < |c.content| ==> c.content[i].LineBreak? || c.content[i].text == ""
    ensures View(row) == Blank
  {
    EmptyCellsHaveNoText(row.cells);
  }

  lemma {:induction false} EmptyCellsHaveNoText(cells: seq<Cell>)
    requires forall c, i :: c in cells && 0 <= i < |c.content| ==> c.content[i].LineBreak? || c.content[i].text == ""
    ensures CellsRawText(cells) == ""
  {
    if cells != [] {
      EmptyCellsHaveNoText(cells[..|cells| - 1]);
      assert cells[|cells| - 1] in cells;
    }
  }

  /** A single-cell row replaces the current section, object or not, with its text. */
  lemma SingleCellOverwritesSection(st: ParseState, text: string)
    ensures Step(st, SingleCell(text)) == Ok(ParseState(st.details[st.key := Plain(text)], st.key))
  {
  }

  /** The emptiness test comes before trimming: a cell holding only whitespace
      is not skipped and stores the empty string. */
  lemma WhitespaceCellStoresEmptyText(w: string)
    requires w != [] && forall i :: 0 <= i < |w| ==> IsWhitespace(w[i])
    ensures View(DetailRow([], [Cell([Text(w)], [])])) == SingleCell("")
  {
    var content := [Text(w)];
    assert content[..0] == [];
    assert RawText(content) == w;
    assert TextWithBreaks(content, "\n") == w;
    var cells := [Cell(content, [])];
    assert cells[..0] == [];
    assert CellsText(cells, "\n") == w;
    TrimStripsEnds(w);
  }

  /** A multi-cell row that stores anything throws before any header row,
      because the section `details['']` is undefined. */
  lemma MultiCellRowBeforeHeaderThrows(subKey: string, cellData: string)
    requires Entries(subKey, cellData) != map[]
    ensures Fold([MultiCell(subKey, cellData)]) == Err(SectionUndefined(""))
  {
    FoldAppend([], MultiCell(subKey, cellData));
  }

  /** In the same section, a multi-cell row that stores anything throws after
      a single-cell row, because the section then holds a string. */
  lemma MultiCellRowAfterTextThrows(views: seq<RowView>, text: string, subKey: string, cellData: string)
    requires Fold(views).Ok?
    requires Entries(subKey, cellData) != map[]
    ensures Fold(views + [SingleCell(text), MultiCell(subKey, cellData)]) == Err(SectionIsText(Fold(views).value.key))
  {
    FoldAppend(views, SingleCell(text));
    assert views + [SingleCell(text), MultiCell(subKey, cellData)] == (views + [SingleCell(text)]) + [MultiCell(subKey, cellData)];
    FoldAppend(views + [SingleCell(text)], MultiCell(subKey, cellData));
  }

  /** With as many newline runs in both texts, the i-th trimmed line of the
      sub-key maps to the i-th trimmed line of the value, empty keys skipped
      (which of several equal keys wins is `MatchedEntriesLastWins`). */
  lemma MatchedEntries(subKey: string, cellData: string, k: string)
    requires NewlineRuns(subKey) == NewlineRuns(cellData)
    ensures var ks, vs := SplitOnNewlineRuns(subKey), SplitOnNewlineRuns(cellData);
      && |ks| == |vs|
      && (k in Entries(subKey, cellData) <==> k != "" && exists i :: 0 <= i < |ks| && Trim(ks[i]) == k)
      && (k in Entries(subKey, cellData) ==>
            exists i :: 0 <= i < |ks| && Trim(ks[i]) == k && Entries(subKey, cellData)[k] == Trim(vs[i]))
  {
    var ks, vs := SplitOnNewlineRuns(subKey), SplitOnNewlineRuns(cellData);
    var tks, tvs := Trimmed(ks), Trimmed(vs);
    LastWinsLookup(tks, tvs, k);
    if k in Entries(subKey, cellData) {
      var i :| 0 <= i < |tks| && tks[i] == k && LastWins(tks, tvs)[k] == tvs[i] && k !in tks[i + 1..];
      TrimmedAt(ks, i);
      TrimmedAt(vs, i);
    }
    if k != "" && exists i :: 0 <= i < |ks| && Trim(ks[i]) == k {
      var i :| 0 <= i < |ks| && Trim(ks[i]) == k;
      TrimmedAt(ks, i);
    }
  }

  /** Storing trimmed pairs: a stored key's value is the trimmed value of a
      line `i` whose trimmed key it is, and no later line has that key. */
  lemma TrimmedLastWins(ks: seq<string>, vs: seq<string>, k: string) returns (i: nat)
    requires |ks| == |vs| && k in LastWins(Trimmed(ks), Trimmed(vs))
    ensures i < |ks| && Trim(ks[i]) == k && LastWins(Trimmed(ks), Trimmed(vs))[k] == Trim(vs[i])
    ensures forall j :: i < j < |ks| ==> Trim(ks[j]) != k
  {
    var tks, tvs := Trimmed(ks), Trimmed(vs);
    LastWinsLookup(tks, tvs, k);
    i :| 0 <= i < |tks| && tks[i] == k && LastWins(tks, tvs)[k] == tvs[i] && k !in tks[i + 1..];
    TrimmedAt(ks, i);
    TrimmedAt(vs, i);
    forall j | i < j < |ks| ensures Trim(ks[j]) != k {
      TrimmedAt(ks, j);
      assert tks[j] == tks[i + 1..][j - i - 1];
    }
  }

  /** With as many newline runs in both texts, a stored sub-key holds the
      value of its last line: `details[key][k] = v` runs line by line. */
  lemma MatchedEntriesLastWins(subKey: string, cellData: string, k: string) returns (i: nat)
    requires NewlineRuns(subKey) == NewlineRuns(cellData) && k in Entries(subKey, cellData)
    ensures var ks, vs := SplitOnNewlineRuns(subKey), SplitOnNewlineRuns(cellData);
      && |ks| == |vs| && i < |ks|
      && Trim(ks[i]) == k && Entries(subKey, cellData)[k] == Trim(vs[i])
      && forall j :: i < j < |ks| ==> Trim(ks[j]) != k
  {
    var ks, vs := SplitOnNewlineRuns(subKey), SplitOnNewlineRuns(cellData);
    assert Entries(subKey, cellData) == LastWins(Trimmed(ks), Trimmed(vs));
    i := TrimmedLastWins(ks, vs, k);
  }

  /** On a mismatch in newline runs, the whole value is stored under the whole sub-key. */
  lemma MismatchedEntries(subKey: string, cellData: string)
    requires NewlineRuns(subKey) != NewlineRuns(cellData)
    ensures Entries(subKey, cellData) == map[subKey := cellData]
  {
  }
}
