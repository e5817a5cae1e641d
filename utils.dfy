/** The helpers of utils.js: the `Name` comparator built by makeFnToSortBy,
    the resource-blocking rule installed by blockResourceLoading, the output
    file that cleanFile truncates and writeToFile appends to, and the browser
    instance that fetchPage borrows or owns. */
module Utils {
  import opened JsRuntime

  // ---------------------------------------------------------------------------
  // makeFnToSortBy(property_name)

  /** The value of the sort property on one record: a string, or `undefined`. */
  datatype Property = Missing | Present(value: string)

  /** `makeFnToSortBy(p)(obj1, obj2)` on the two property values. An
      `undefined` operand makes `<` false and is `===` only to another
      `undefined`, so a present and a missing value compare as 1 both ways. */
  function Compare(a: Property, b: Property): (r: int)
    ensures r == -1 || r == 0 || r == 1
    ensures r == -1 <==> a.Present? && b.Present? && StrLess(a.value, b.value)
    ensures r == 0 <==> a == b
    ensures a.Present? != b.Present? ==> r == 1
  {
    if a.Present? && b.Present? && StrLess(a.value, b.value) then
      StrLessTrichotomy(a.value, b.value); -1
    else if a == b then 0
    else 1
  }

  /** On present values the comparator is antisymmetric. */
  lemma CompareAntisymmetric(a: Property, b: Property)
    requires a.Present? && b.Present?
    ensures Compare(a, b) == -Compare(b, a)
  {
    StrLessTrichotomy(a.value, b.value);
  }

  /** On present values `Compare(_, _) <= 0` is transitive. */
  lemma CompareTransitive(a: Property, b: Property, c: Property)
    requires a.Present? && b.Present? && c.Present?
    requires Compare(a, b) <= 0 && Compare(b, c) <= 0
    ensures Compare(a, c) <= 0
  {
    if Compare(a, b) == -1 && Compare(b, c) == -1 {
      StrLessTransitive(a.value, b.value, c.value);
    }
  }

  /** On present values any two compare one way or the other. */
  lemma CompareTotal(a: Property, b: Property)
    requires a.Present? && b.Present?
    ensures Compare(a, b) <= 0 || Compare(b, a) <= 0
  {
    StrLessTrichotomy(a.value, b.value);
  }

  // ---------------------------------------------------------------------------
  // Case-insensitive matching, as a regular expression with the `i` flag and
  // without the `u` flag does it: only ASCII letters fold.

  function LowerAscii(c: char): char {
    if 'A' <= c <= 'Z' then (c as int + 32) as char else c
  }

  function Lower(s: string): (r: string)
    ensures |r| == |s|
  {
    if s == [] then [] else [LowerAscii(s[0])] + Lower(s[1..])
  }

  /** `s` begins with `pat` (given in lower case), ignoring ASCII case. */
  predicate StartsWithCI(s: string, pat: string) {
    |pat| <= |s| && Lower(s[..|pat|]) == pat
  }

  /** Reference: `pat` occurs somewhere in `s`, ignoring ASCII case. */
  predicate ContainsCI(s: string, pat: string) {
    exists p :: 0 <= p <= |s| && StartsWithCI(s[p..], pat)
  }

  /** What `/pat/gi.test(s)` does: try every start position from the left. */
  predicate SearchCI(s: string, pat: string)
    decreases |s|
  {
    if StartsWithCI(s, pat) then true
    else if s == [] then false
    else SearchCI(s[1..], pat)
  }

  lemma {:induction false} SearchFindsOccurrence(s: string, pat: string)
    ensures SearchCI(s, pat) <==> ContainsCI(s, pat)
    decreases |s|
  {
    assert s[0..] == s;
    if !StartsWithCI(s, pat) && s != [] {
      var t := s[1..];
      SearchFindsOccurrence(t, pat);
      if SearchCI(t, pat) {
        var p :| 0 <= p <= |t| && StartsWithCI(t[p..], pat);
        assert t[p..] == s[p + 1..];
      }
      if ContainsCI(s, pat) {
        var p :| 0 <= p <= |s| && StartsWithCI(s[p..], pat);
        assert t[p - 1..] == s[p..];
      }
    }
  }

  /** Folding case commutes with taking a prefix. */
  lemma {:induction false} LowerPrefix(s: string, k: nat)
    requires k <= |s|
    ensures Lower(s[..k]) == Lower(s)[..k]
  {
    if k > 0 {
      assert s[..k][1..] == s[1..][..k - 1];
      LowerPrefix(s[1..], k - 1);
    }
  }

  // ---------------------------------------------------------------------------
  // The script rule /^((?!(feuseradmin\.js|tinymce|jquery-)).)*\.js.*/gi

  /** The characters `.` does not match. */
  predicate IsLineTerminator(c: char) {
    c == '\n' || c == '\r' || c == '\U{2028}' || c == '\U{2029}'
  }

  /** The negative lookahead fails at the start of `s`. */
  predicate ForbiddenTokenAt(s: string) {
    StartsWithCI(s, "feuseradmin.js") || StartsWithCI(s, "tinymce") || StartsWithCI(s, "jquery-")
  }

  /** A position the loop `((?!…).)*` may step over. */
  predicate Steppable(s: string, i: int)
    requires 0 <= i < |s|
  {
    !IsLineTerminator(s[i]) && !ForbiddenTokenAt(s[i..])
  }

  /** Reference: the pattern matches from position 0 when some `.js` starts at a
      position `p` and every earlier position can be stepped over (`.*` after
      it always matches). */
  predicate ScriptPattern(s: string) {
    exists p :: 0 <= p <= |s| && StartsWithCI(s[p..], ".js") && forall i :: 0 <= i < p ==> Steppable(s, i)
  }

  /** The backtracking matcher: at each position either `\.js` matches now or
      the loop takes one more step. */
  predicate ScriptMatch(s: string)
    decreases |s|
  {
    if StartsWithCI(s, ".js") then true
    else if s == [] || IsLineTerminator(s[0]) || ForbiddenTokenAt(s) then false
    else ScriptMatch(s[1..])
  }

  lemma {:induction false} ScriptMatchIsPattern(s: string)
    ensures ScriptMatch(s) <==> ScriptPattern(s)
    decreases |s|
  {
    assert s[0..] == s;
    if StartsWithCI(s, ".js") {
      assert StartsWithCI(s[0..], ".js");
    } else if s != [] && (IsLineTerminator(s[0]) || ForbiddenTokenAt(s)) {
      assert !Steppable(s, 0);
    } else if s != [] {
      var t := s[1..];
      ScriptMatchIsPattern(t);
      if ScriptPattern(t) {
        var p :| 0 <= p <= |t| && StartsWithCI(t[p..], ".js") && forall i :: 0 <= i < p ==> Steppable(t, i);
        assert t[p..] == s[p + 1..];
        forall i | 0 <= i < p + 1 ensures Steppable(s, i) {
          if i == 0 {
            assert s[0..] == s;
          } else {
            assert Steppable(t, i - 1);
            assert t[i - 1..] == s[i..];
          }
        }
      }
      if ScriptPattern(s) {
        var p :| 0 <= p <= |s| && StartsWithCI(s[p..], ".js") && forall i :: 0 <= i < p ==> Steppable(s, i);
        assert t[p - 1..] == s[p..];
        forall i | 0 <= i < p - 1 ensures Steppable(t, i) {
          assert Steppable(s, i + 1);
          assert t[i..] == s[i + 1..];
        }
      }
    }
  }

  /** A `.json` URL is blocked as a script when nothing before the `.json`
      stops the loop. */
  lemma JsonIsBlockedAsScript(s: string, p: nat)
    requires p <= |s| && StartsWithCI(s[p..], ".json")
    requires forall i :: 0 <= i < p ==> Steppable(s, i)
    ensures ScriptMatch(s)
  {
    var x := s[p..];
    LowerPrefix(x[..5], 3);
    assert x[..5][..3] == x[..3];
    assert StartsWithCI(s[p..], ".js");
    ScriptMatchIsPattern(s);
  }

  /** A forbidden token before every `.js` keeps the script rule from matching. */
  lemma TokenBeforeScriptAllows(s: string, t: nat)
    requires t < |s| && ForbiddenTokenAt(s[t..])
    requires forall p :: 0 <= p <= t ==> !StartsWithCI(s[p..], ".js")
    ensures !ScriptMatch(s)
  {
    ScriptMatchIsPattern(s);
    forall p | 0 <= p <= |s| && StartsWithCI(s[p..], ".js")
      ensures !(forall i :: 0 <= i < p ==> Steppable(s, i))
    {
      assert !Steppable(s, t);
    }
  }

  // ---------------------------------------------------------------------------
  // BLOCKED_RESOURCES and the onResourceRequested callback

  datatype Pattern = Extension(ext: string) | ScriptRule

  /** The four patterns of utils.js, in order. */
  const BlockedResources: seq<Pattern> := [Extension(".gif"), Extension(".png"), Extension(".css"), ScriptRule]

  /** The three patterns of better_scrapper.js's own copy. */
  const MediaResources: seq<Pattern> := [Extension(".gif"), Extension(".png"), Extension(".css")]

  /** `r.test(url)` on a freshly built regular expression (its `lastIndex` is 0). */
  predicate Test(r: Pattern, url: string) {
    match r
    case Extension(ext) => SearchCI(url, ext)
    case ScriptRule => ScriptMatch(url)
  }

  /** `patterns.some(r => r.test(url))`. */
  predicate Some(patterns: seq<Pattern>, url: string) {
    if patterns == [] then false else Test(patterns[0], url) || Some(patterns[1..], url)
  }

  /** `some` holds exactly when one of the patterns matches. */
  lemma {:induction false} SomeFindsMatch(patterns: seq<Pattern>, url: string)
    ensures Some(patterns, url) <==> exists i :: 0 <= i < |patterns| && Test(patterns[i], url)
  {
    if patterns != [] {
      SomeFindsMatch(patterns[1..], url);
      if Some(patterns[1..], url) {
        var i :| 0 <= i < |patterns[1..]| && Test(patterns[1..][i], url);
        assert Test(patterns[i + 1], url);
      }
      if exists i :: 0 <= i < |patterns| && Test(patterns[i], url) {
        var i :| 0 <= i < |patterns| && Test(patterns[i], url);
        if i > 0 {
          assert Test(patterns[1..][i - 1], url);
        }
      }
    }
  }

  /** Reference: the URL is blocked by utils.js when it contains `.gif`, `.png`
      or `.css` in any case, or matches the script rule. */
  predicate Blocked(url: string) {
    ContainsCI(url, ".gif") || ContainsCI(url, ".png") || ContainsCI(url, ".css") || ScriptPattern(url)
  }

  /** Reference for better_scrapper.js: only the three media extensions. */
  predicate MediaBlocked(url: string) {
    ContainsCI(url, ".gif") || ContainsCI(url, ".png") || ContainsCI(url, ".css")
  }

  /** What the callback does with one request. */
  datatype RequestAction = Aborted | AllowedAndLogged(url: string) | Allowed

  /** utils.js's callback: abort a blocked request, log an allowed one. */
  method OnResourceRequested(url: string) returns (action: RequestAction)
    ensures action == Aborted <==> Blocked(url)
    ensures action != Aborted ==> action == AllowedAndLogged(url)
  {
    var blacklisted := Some(BlockedResources, url);
    SomeFindsMatch(BlockedResources, url);
    assert Test(BlockedResources[0], url) == SearchCI(url, ".gif");
    assert Test(BlockedResources[1], url) == SearchCI(url, ".png");
    assert Test(BlockedResources[2], url) == SearchCI(url, ".css");
    assert Test(BlockedResources[3], url) == ScriptMatch(url);
    SearchFindsOccurrence(url, ".gif");
    SearchFindsOccurrence(url, ".png");
    SearchFindsOccurrence(url, ".css");
    ScriptMatchIsPattern(url);
    if blacklisted {
      action := Aborted;
    } else {
      action := AllowedAndLogged(url);
    }
  }

  /** better_scrapper.js's callback: abort a blocked request, say nothing otherwise. */
  method OnMediaRequested(url: string) returns (action: RequestAction)
    ensures action == Aborted <==> MediaBlocked(url)
    ensures action != Aborted ==> action == Allowed
  {
    var blacklisted := Some(MediaResources, url);
    SomeFindsMatch(MediaResources, url);
    assert Test(MediaResources[0], url) == SearchCI(url, ".gif");
    assert Test(MediaResources[1], url) == SearchCI(url, ".png");
    assert Test(MediaResources[2], url) == SearchCI(url, ".css");
    SearchFindsOccurrence(url, ".gif");
    SearchFindsOccurrence(url, ".png");
    SearchFindsOccurrence(url, ".css");
    if blacklisted {
      action := Aborted;
    } else {
      action := Allowed;
    }
  }

  /** Everything the media-only copy blocks, utils.js blocks too. */
  lemma MediaBlockedIsBlocked(url: string)
    ensures MediaBlocked(url) ==> Blocked(url)
    ensures Blocked(url) && !ScriptPattern(url) ==> MediaBlocked(url)
  {
  }

  // ---------------------------------------------------------------------------
  // cleanFile / writeToFile

  /** The output file `<member_type>_members.json`, as its content. */
  class OutputFile {
    var content: string

    constructor (initial: string)
      ensures content == initial
    {
      content := initial;
    }

    /** cleanFile: open with `w+` and write nothing, leaving the file empty. */
    method Clean()
      modifies this
      ensures content == ""
    {
      content := "";
    }

    /** writeToFile: open with `a+` and write `data` after what is there. */
    method Write(data: string)
      modifies this
      ensures content == old(content) + data
    {
      content := content + data;
    }
  }

  // ---------------------------------------------------------------------------
  // fetchPage(url, instance)

  /** A headless browser session: how many pages it has open and whether it
      has exited. */
  class BrowserInstance {
    var openPages: nat
    var exited: bool

    constructor ()
      ensures openPages == 0 && !exited
    {
      openPages := 0;
      exited := false;
    }
  }

  /** fetchPage: borrow the given instance or start one, open a page on it,
      read its content, close the page, and exit the instance only when it was
      started here. What a URL serves is the parameter `serve`. */
  method FetchPage(url: string, instance: BrowserInstance?, serve: string -> string)
    returns (html: string, used: BrowserInstance)
    modifies instance
    ensures html == serve(url)
    ensures instance != null ==> used == instance && !fresh(used)
    ensures instance != null ==> used.exited == old(instance.exited) && used.openPages == old(instance.openPages)
    ensures instance == null ==> fresh(used) && used.exited && used.openPages == 0
  {
    var isLocalInstance := false;
    if instance == null {
      used := new BrowserInstance();
      isLocalInstance := true;
    } else {
      used := instance;
    }
    used.openPages := used.openPages + 1;   // createPage
    html := serve(url);                     // page.open, page.property('content')
    used.openPages := used.openPages - 1;   // page.close
    if isLocalInstance {
      used.exited := true;
    }
  }
}
