/** The few JavaScript built-ins the scraper leans on, stated on Dafny values:
    String.prototype.trim and indexOf, Array.prototype.join, the `<` relation on strings,
    and Number division / Math.ceil / Math.min / Math.max. */
module JsRuntime {

  datatype Option<+T> = None | Some(value: T)

  // ---------------------------------------------------------------------------
  // String.prototype.trim

  /** The characters String.prototype.trim strips: WhiteSpace and LineTerminator
      of ECMA-262 (Unicode "Zs" is spelled out). */
  predicate IsWhitespace(c: char) {
    || c == ' ' || c == '\t' || c == '\n' || c == '\r'
    || c == '\U{B}' || c == '\U{C}' || c == '\U{A0}' || c == '\U{1680}'
    || ('\U{2000}' <= c <= '\U{200A}')
    || c == '\U{2028}' || c == '\U{2029}' || c == '\U{202F}' || c == '\U{205F}'
    || c == '\U{3000}' || c == '\U{FEFF}'
  }

  function TrimStart(s: string): string {
    if s == [] || !IsWhitespace(s[0]) then s else TrimStart(s[1..])
  }

  function TrimEnd(s: string): string {
    if s == [] || !IsWhitespace(s[|s| - 1]) then s else TrimEnd(s[..|s| - 1])
  }

  /** `s.trim()`. */
  function Trim(s: string): string {
    TrimEnd(TrimStart(s))
  }

  /** TrimStart drops the leading whitespace and nothing else. */
  lemma {:induction false} TrimStartShape(s: string)
    ensures |TrimStart(s)| <= |s| && TrimStart(s) == s[|s| - |TrimStart(s)|..]
    ensures TrimStart(s) == [] || !IsWhitespace(TrimStart(s)[0])
    ensures forall i :: 0 <= i < |s| - |TrimStart(s)| ==> IsWhitespace(s[i])
  {
    if s != [] && IsWhitespace(s[0]) {
      var t := s[1..];
      TrimStartShape(t);
      assert t[|t| - |TrimStart(t)|..] == s[|s| - |TrimStart(s)|..];
      forall i | 1 <= i < |s| - |TrimStart(s)| ensures IsWhitespace(s[i]) {
        assert s[i] == t[i - 1];
      }
    }
  }

  /** TrimEnd drops the trailing whitespace and nothing else. */
  lemma {:induction false} TrimEndShape(s: string)
    ensures |TrimEnd(s)| <= |s| && TrimEnd(s) == s[..|TrimEnd(s)|]
    ensures TrimEnd(s) == [] || !IsWhitespace(TrimEnd(s)[|TrimEnd(s)| - 1])
    ensures forall i :: |TrimEnd(s)| <= i < |s| ==> IsWhitespace(s[i])
  {
    if s != [] && IsWhitespace(s[|s| - 1]) {
      TrimEndShape(s[..|s| - 1]);
    }
  }

  /** `s.trim()` is `s` without its leading and trailing whitespace: it neither
      starts nor ends with whitespace, it is empty exactly when `s` is all
      whitespace, and it is `s` itself when there is nothing to strip. */
  lemma TrimStripsEnds(s: string)
    ensures |Trim(s)| <= |s|
    ensures Trim(s) == [] || (!IsWhitespace(Trim(s)[0]) && !IsWhitespace(Trim(s)[|Trim(s)| - 1]))
    ensures Trim(s) == [] <==> forall i :: 0 <= i < |s| ==> IsWhitespace(s[i])
    ensures s == [] || (!IsWhitespace(s[0]) && !IsWhitespace(s[|s| - 1])) ==> Trim(s) == s
  {
    var t := TrimStart(s);
    TrimStartShape(s);
    TrimEndShape(t);
    if Trim(s) != [] {
      assert Trim(s) == t[..|Trim(s)|];
      assert Trim(s)[0] == t[0];
    }
  }

  // ---------------------------------------------------------------------------
  // String.prototype.indexOf with a one-character pattern

  /** `t.indexOf(c)`: the first position holding `c`, or -1. */
  function IndexOf(t: string, c: char): (r: int)
    ensures -1 <= r < |t|
    ensures r >= 0 ==> t[r] == c && c !in t[..r]
    ensures r == -1 ==> c !in t
  {
    if t == [] then -1
    else if t[0] == c then 0
    else
      var r := IndexOf(t[1..], c);
      assert t == [t[0]] + t[1..];
      if r == -1 then -1 else (assert t[..r + 1] == [t[0]] + t[1..][..r]; r + 1)
  }

  // ---------------------------------------------------------------------------
  // Array.prototype.join over strings

  function Join(items: seq<string>, sep: string): string {
    if |items| == 0 then ""
    else if |items| == 1 then items[0]
    else items[0] + sep + Join(items[1..], sep)
  }

  /** Joining a concatenation of two non-empty lists puts one separator
      between the two joined halves. */
  lemma {:induction false} JoinAppend(a: seq<string>, b: seq<string>, sep: string)
    requires a != [] && b != []
    ensures Join(a + b, sep) == Join(a, sep) + sep + Join(b, sep)
  {
    if |a| == 1 {
      assert a + b == [a[0]] + b;
      assert (a + b)[1..] == b;
    } else {
      assert (a + b)[1..] == a[1..] + b;
      JoinAppend(a[1..], b, sep);
    }
  }

  // ---------------------------------------------------------------------------
  // The relational operator `<` on two strings

  /** `a < b` for two JavaScript strings: lexicographic, a proper prefix is smaller. */
  predicate StrLess(a: string, b: string) {
    if a == [] then b != []
    else if b == [] then false
    else if a[0] != b[0] then a[0] < b[0]
    else StrLess(a[1..], b[1..])
  }

  lemma {:induction false} StrLessIrreflexive(a: string)
    ensures !StrLess(a, a)
  {
    if a != [] {
      StrLessIrreflexive(a[1..]);
    }
  }

  /** Exactly one of `a < b`, `a === b`, `b < a` holds. */
  lemma {:induction false} StrLessTrichotomy(a: string, b: string)
    ensures StrLess(a, b) || a == b || StrLess(b, a)
    ensures !(StrLess(a, b) && StrLess(b, a))
    ensures StrLess(a, b) ==> a != b
  {
    if a != [] && b != [] && a[0] == b[0] {
      StrLessTrichotomy(a[1..], b[1..]);
      if a[1..] == b[1..] {
        assert a == [a[0]] + a[1..] && b == [b[0]] + b[1..];
      }
    }
    if StrLess(a, b) && a == b {
      StrLessIrreflexive(a);
    }
  }

  lemma {:induction false} StrLessTransitive(a: string, b: string, c: string)
    requires StrLess(a, b) && StrLess(b, c)
    ensures StrLess(a, c)
  {
    if a != [] && a[0] == b[0] && b[0] == c[0] {
      StrLessTransitive(a[1..], b[1..], c[1..]);
    }
  }

  // ---------------------------------------------------------------------------
  // Numbers: division and Math.ceil with IEEE-754 special values. Values are
  // exact reals; binary rounding of finite results is not modelled.

  datatype JsNumber = Finite(value: real) | PosInfinity | NegInfinity | NaN

  function FromInt(i: int): JsNumber {
    Finite(i as real)
  }

  /** `a / b`, the sign of a zero denominator taken as positive. */
  function Divide(a: JsNumber, b: JsNumber): (r: JsNumber)
    ensures a.Finite? && b.Finite? && b.value != 0.0 ==> r == Finite(a.value / b.value)
    ensures a.Finite? && b.Finite? && b.value == 0.0 ==>
              r == (if a.value > 0.0 then PosInfinity else if a.value < 0.0 then NegInfinity else NaN)
    ensures a.NaN? || b.NaN? ==> r.NaN?
  {
    match (a, b)
    case (NaN, _) => NaN
    case (_, NaN) => NaN
    case (Finite(x), Finite(y)) =>
      if y != 0.0 then Finite(x / y)
      else if x > 0.0 then PosInfinity else if x < 0.0 then NegInfinity else NaN
    case (Finite(_), _) => Finite(0.0)
    case (PosInfinity, Finite(y)) => if y < 0.0 then NegInfinity else PosInfinity
    case (NegInfinity, Finite(y)) => if y < 0.0 then PosInfinity else NegInfinity
    case (_, _) => NaN
  }

  /** The least integer not below `x`. */
  function CeilReal(x: real): (r: int)
    ensures x <= r as real < x + 1.0
  {
    -((-x).Floor)
  }

  /** Math.ceil: finite values go up to the next integer, the rest pass through. */
  function Ceil(n: JsNumber): (r: JsNumber)
    ensures n.Finite? ==> r.Finite? && n.value <= r.value < n.value + 1.0 && r.value == r.value.Floor as real
    ensures !n.Finite? ==> r == n
  {
    if n.Finite? then FromInt(CeilReal(n.value)) else n
  }

  /** `Math.ceil(n / d)` for a non-negative integer count `n` and a row count `d`. */
  lemma CeilOfCountRatio(n: nat, d: nat)
    ensures d > 0 ==> Ceil(Divide(FromInt(n), FromInt(d))) == FromInt((n + d - 1) / d)
    ensures d == 0 ==> Ceil(Divide(FromInt(n), FromInt(d))) == (if n > 0 then PosInfinity else NaN)
  {
    if d > 0 {
      var q := (n + d - 1) / d;
      var x := n as real / d as real;
      assert q * d >= n && (q - 1) * d < n;
      assert q as real * d as real >= n as real;
      assert (q as real - 1.0) * d as real < n as real;
      var dr := d as real;
      assert x * dr == n as real;
      if q as real - 1.0 >= x {
        MultiplyMonotone(q as real - 1.0, x, dr);
      }
      assert x <= q as real < x + 1.0;
      assert CeilReal(x) == q;
    }
  }

  lemma MultiplyMonotone(a: real, b: real, c: real)
    requires a >= b && c > 0.0
    ensures a * c >= b * c
  {
  }

  function Min(a: int, b: int): (r: int)
    ensures r <= a && r <= b && (r == a || r == b)
  {
    if a <= b then a else b
  }

  function Max(a: int, b: int): (r: int)
    ensures r >= a && r >= b && (r == a || r == b)
  {
    if a >= b then a else b
  }
}
