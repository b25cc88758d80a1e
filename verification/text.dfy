/**
 * String helpers shared by the PDF export code: ASCII case mapping, the
 * characters JavaScript's \s class matches, and decimal rendering of numbers.
 */
module Text {

  predicate IsUpper(c: char) { 'A' <= c <= 'Z' }
  predicate IsLower(c: char) { 'a' <= c <= 'z' }
  predicate IsDigit(c: char) { '0' <= c <= '9' }

  /** `toLowerCase` on one character, for the ASCII letters. */
  function LowerChar(c: char): (d: char)
    ensures !IsUpper(d)
    ensures IsUpper(c) ==> IsLower(d) && d as int == c as int + 32
    ensures !IsUpper(c) ==> d == c
  {
    if IsUpper(c) then (c as int + 32) as char else c
  }

  /** `toLowerCase` on a string, for the ASCII letters. */
  function ToLower(s: string): (r: string)
    ensures |r| == |s|
    ensures forall i :: 0 <= i < |s| ==> r[i] == LowerChar(s[i])
  {
    seq(|s|, i requires 0 <= i < |s| => LowerChar(s[i]))
  }

  /**
   * The characters JavaScript's \s matches: the ASCII blanks tab, line feed,
   * vertical tab, form feed, carriage return and space, plus the Unicode space
   * separators, the line and paragraph separators and the byte order mark.
   */
  predicate IsJsSpace(c: char) {
    || c == '\t' || c == '\n' || c == '\U{B}' || c == '\U{C}' || c == '\r' || c == ' '
    || c == '\U{A0}' || c == '\U{1680}' || ('\U{2000}' <= c <= '\U{200A}')
    || c == '\U{2028}' || c == '\U{2029}' || c == '\U{202F}' || c == '\U{205F}'
    || c == '\U{3000}' || c == '\U{FEFF}'
  }

  predicate NoJsSpace(s: string) {
    forall i :: 0 <= i < |s| ==> !IsJsSpace(s[i])
  }

  /** The text after the run of \s characters at the front of s. */
  function SkipSpaces(s: string): (r: string)
    ensures |r| <= |s| && r == s[|s| - |r|..]
    ensures r == [] || !IsJsSpace(r[0])
    ensures forall i :: 0 <= i < |s| - |r| ==> IsJsSpace(s[i])
  {
    if s != [] && IsJsSpace(s[0]) then SkipSpaces(s[1..]) else s
  }

  /** The characters of s that are neither \s nor '-', in order. */
  function Visible(s: string): string {
    if s == [] then []
    else if IsJsSpace(s[0]) || s[0] == '-' then Visible(s[1..])
    else [s[0]] + Visible(s[1..])
  }

  lemma {:induction false} VisibleOfSpaces(s: string, k: nat)
    requires k <= |s|
    requires forall i :: 0 <= i < k ==> IsJsSpace(s[i])
    ensures Visible(s) == Visible(s[k..])
  {
    if k > 0 {
      VisibleOfSpaces(s[1..], k - 1);
      assert s[1..][k - 1..] == s[k..];
    }
  }

  /**
   * `s.replace(/\s+/g, '-')`: each maximal run of \s characters becomes one
   * '-'.  No whitespace is left, and every other character survives in order.
   */
  function CollapseSpaces(s: string): (r: string)
    ensures |r| <= |s|
    ensures NoJsSpace(r)
    ensures Visible(r) == Visible(s)
    ensures forall i :: 0 <= i < |r| ==> r[i] == '-' || r[i] in s
    decreases |s|
  {
    if s == [] then []
    else if IsJsSpace(s[0]) then
      var rest := SkipSpaces(s);
      VisibleOfSpaces(s, |s| - |rest|);
      "-" + CollapseSpaces(rest)
    else
      [s[0]] + CollapseSpaces(s[1..])
  }

  /** Text without whitespace is left as it is, so collapsing twice is collapsing once. */
  lemma {:induction false} CollapseSpacesIdentity(s: string)
    requires NoJsSpace(s)
    ensures CollapseSpaces(s) == s
  {
    if s != [] {
      CollapseSpacesIdentity(s[1..]);
      assert [s[0]] + s[1..] == s;
    }
  }

  /** Skipping the leading blanks of a + b stops inside a when a holds a non-blank character. */
  lemma {:induction false} SkipSpacesAppend(a: string, b: string)
    requires SkipSpaces(a) != []
    ensures SkipSpaces(a + b) == SkipSpaces(a) + b
  {
    var ab := a + b;
    assert a != [] && ab[0] == a[0];
    if IsJsSpace(a[0]) {
      SkipSpacesStep(a);
      SkipSpacesStep(ab);
      assert ab[1..] == a[1..] + b;
      SkipSpacesAppend(a[1..], b);
    } else {
      SkipSpacesStep(a);
      SkipSpacesStep(ab);
    }
  }

  /** One step of SkipSpaces: a leading blank is dropped, anything else stops it. */
  lemma SkipSpacesStep(s: string)
    requires s != []
    ensures IsJsSpace(s[0]) ==> SkipSpaces(s) == SkipSpaces(s[1..])
    ensures !IsJsSpace(s[0]) ==> SkipSpaces(s) == s
  {
  }

  /** A run of blanks in front of text that does not start with a blank is skipped whole. */
  lemma {:induction false} SkipSpacesRun(w: string, y: string)
    requires forall i :: 0 <= i < |w| ==> IsJsSpace(w[i])
    requires y == [] || !IsJsSpace(y[0])
    ensures SkipSpaces(w + y) == y
  {
    if w != [] {
      assert (w + y)[1..] == w[1..] + y;
      SkipSpacesRun(w[1..], y);
    } else {
      assert w + y == y;
    }
  }

  /** One step of CollapseSpaces on a non-empty string. */
  lemma CollapseSpacesStep(s: string)
    requires s != []
    ensures IsJsSpace(s[0]) ==> CollapseSpaces(s) == "-" + CollapseSpaces(SkipSpaces(s))
    ensures !IsJsSpace(s[0]) ==> CollapseSpaces(s) == [s[0]] + CollapseSpaces(s[1..])
  {
  }

  /**
   * A maximal run of whitespace becomes exactly one '-', and the text on
   * either side of it is collapsed on its own.  With CollapseSpacesIdentity
   * this pins down the result on every string: the whitespace-free pieces
   * stay as they are, '-' included, and each run between, before or after
   * them is one '-'.
   */
  lemma {:induction false} CollapseSpacesRun(x: string, w: string, y: string)
    requires x == [] || !IsJsSpace(x[|x| - 1])
    requires w != [] && forall i :: 0 <= i < |w| ==> IsJsSpace(w[i])
    requires y == [] || !IsJsSpace(y[0])
    ensures CollapseSpaces(x + w + y) == CollapseSpaces(x) + "-" + CollapseSpaces(y)
    decreases |x|, 1
  {
    if x == [] {
      assert x + w + y == w + y;
      CollapseSpacesStep(w + y);
      SkipSpacesRun(w, y);
    } else if IsJsSpace(x[0]) {
      CollapseSpacesRunBlankFirst(x, w, y);
    } else {
      CollapseSpacesRunWordFirst(x, w, y);
    }
  }

  lemma {:induction false} CollapseSpacesRunBlankFirst(x: string, w: string, y: string)
    requires x != [] && IsJsSpace(x[0]) && !IsJsSpace(x[|x| - 1])
    requires w != [] && forall i :: 0 <= i < |w| ==> IsJsSpace(w[i])
    requires y == [] || !IsJsSpace(y[0])
    ensures CollapseSpaces(x + w + y) == CollapseSpaces(x) + "-" + CollapseSpaces(y)
    decreases |x|, 0
  {
    var r := SkipSpaces(x);
    assert r != [];
    assert r[|r| - 1] == x[|x| - 1];
    BlankFirstStep(x, w + y);
    AppendAssoc(x, w, y);
    AppendAssoc(r, w, y);
    CollapseSpacesRun(r, w, y);
    CollapseSpacesStep(x);
    DashAround("-", CollapseSpaces(r), CollapseSpaces(y));
  }

  lemma BlankFirstStep(x: string, t: string)
    requires x != [] && IsJsSpace(x[0]) && SkipSpaces(x) != []
    ensures CollapseSpaces(x + t) == "-" + CollapseSpaces(SkipSpaces(x) + t)
  {
    assert (x + t)[0] == x[0];
    SkipSpacesAppend(x, t);
    CollapseSpacesStep(x + t);
  }

  lemma {:induction false} CollapseSpacesRunWordFirst(x: string, w: string, y: string)
    requires x != [] && !IsJsSpace(x[0]) && !IsJsSpace(x[|x| - 1])
    requires w != [] && forall i :: 0 <= i < |w| ==> IsJsSpace(w[i])
    requires y == [] || !IsJsSpace(y[0])
    ensures CollapseSpaces(x + w + y) == CollapseSpaces(x) + "-" + CollapseSpaces(y)
    decreases |x|, 0
  {
    WordFirstStep(x, w + y);
    AppendAssoc(x, w, y);
    AppendAssoc(x[1..], w, y);
    CollapseSpacesRun(x[1..], w, y);
    CollapseSpacesStep(x);
    DashAround([x[0]], CollapseSpaces(x[1..]), CollapseSpaces(y));
  }

  lemma WordFirstStep(x: string, t: string)
    requires x != [] && !IsJsSpace(x[0])
    ensures CollapseSpaces(x + t) == [x[0]] + CollapseSpaces(x[1..] + t)
  {
    assert (x + t)[0] == x[0];
    assert (x + t)[1..] == x[1..] + t;
    CollapseSpacesStep(x + t);
  }

  lemma AppendAssoc(a: string, b: string, c: string)
    ensures a + (b + c) == a + b + c
  {
  }

  lemma DashAround(c: string, a: string, b: string)
    ensures c + (a + "-" + b) == (c + a) + "-" + b
  {
  }

  /** Lower-casing works character by character, so it distributes over concatenation. */
  lemma ToLowerAppend(a: string, b: string)
    ensures ToLower(a + b) == ToLower(a) + ToLower(b)
  {
  }

  /** Lower-casing changes no character into or out of whitespace. */
  lemma LowerKeepsSpaces(s: string)
    ensures forall i :: 0 <= i < |s| ==> (IsJsSpace(ToLower(s)[i]) <==> IsJsSpace(s[i]))
  {
  }

  lemma CollapseSpacesIdempotent(s: string)
    ensures CollapseSpaces(CollapseSpaces(s)) == CollapseSpaces(s)
  {
    CollapseSpacesIdentity(CollapseSpaces(s));
  }

  /** Decimal digits of n, as `${n}` prints a non-negative integer. */
  function NatToDecimal(n: nat): (s: string)
    ensures |s| >= 1
    ensures forall i :: 0 <= i < |s| ==> IsDigit(s[i])
    ensures n >= 1 ==> s[0] != '0'
  {
    if n < 10 then [('0' as int + n) as char]
    else NatToDecimal(n / 10) + [('0' as int + n % 10) as char]
  }

  /** The number a string of decimal digits denotes. */
  function DecimalValue(s: string): nat
    requires forall i :: 0 <= i < |s| ==> IsDigit(s[i])
  {
    if s == [] then 0
    else
      assert IsDigit(s[|s| - 1]);
      10 * DecimalValue(s[..|s| - 1]) + (s[|s| - 1] as int - '0' as int)
  }

  /** Reading back the printed number gives the number. */
  lemma {:induction false} DecimalRoundTrip(n: nat)
    ensures DecimalValue(NatToDecimal(n)) == n
  {
    if n >= 10 {
      var s := NatToDecimal(n);
      assert s[..|s| - 1] == NatToDecimal(n / 10);
      DecimalRoundTrip(n / 10);
    }
  }
}
