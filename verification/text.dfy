/**
 * String helpers with JavaScript meaning: number-to-text, `join`, `split`
 * on a single character, the `\s` character class, and `toFixed(2)` on
 * integer cents.
 */
module Text {

  /** The characters JavaScript's `\s` matches (ECMAScript WhiteSpace and LineTerminator). */
  predicate IsWhitespace(c: char) {
    || c == ' ' || c == '\t' || c == '\n' || c == '\U{B}' || c == '\U{C}' || c == '\r'
    || c == '\U{A0}' || c == '\U{1680}' || ('\U{2000}' <= c <= '\U{200A}')
    || c == '\U{2028}' || c == '\U{2029}' || c == '\U{202F}' || c == '\U{205F}'
    || c == '\U{3000}' || c == '\U{FEFF}'
  }

  predicate IsDigit(c: char) {
    '0' <= c <= '9'
  }

  predicate AllDigits(s: string) {
    forall i :: 0 <= i < |s| ==> IsDigit(s[i])
  }

  function DigitChar(d: nat): (c: char)
    requires d < 10
    ensures IsDigit(c)
  {
    "0123456789"[d]
  }

  function DigitValue(c: char): (d: nat)
    requires IsDigit(c)
    ensures d < 10
  {
    (c as int - '0' as int) as nat
  }

  /** Decimal text of a non-negative integer, as `String(n)` prints it. */
  function NatToString(n: nat): (s: string)
    ensures |s| >= 1 && AllDigits(s)
    ensures n < 10 <==> |s| == 1
  {
    if n < 10 then [DigitChar(n)] else NatToString(n / 10) + [DigitChar(n % 10)]
  }

  /** The value of a string of decimal digits. */
  function ParseNat(s: string): nat
    requires AllDigits(s)
  {
    if |s| == 0 then 0 else ParseNat(s[..|s| - 1]) * 10 + DigitValue(s[|s| - 1])
  }

  /** Reading back the printed digits gives the number again. */
  lemma {:induction false} ParseNatToString(n: nat)
    ensures ParseNat(NatToString(n)) == n
  {
    var s := NatToString(n);
    if n >= 10 {
      ParseNatToString(n / 10);
      assert s[..|s| - 1] == NatToString(n / 10);
    }
  }

  /** Text made of digits, minus signs and decimal points only, as printed numbers are. */
  predicate Numeral(s: string) {
    forall i :: 0 <= i < |s| ==> IsDigit(s[i]) || s[i] == '-' || s[i] == '.'
  }

  /** Decimal text of an integer, with a leading '-' when it is negative. */
  function IntToString(n: int): (s: string)
    ensures Numeral(s)
    ensures n >= 0 ==> s == NatToString(n)
    ensures n < 0 ==> s == "-" + NatToString(-n)
  {
    if n < 0 then "-" + NatToString(-n) else NatToString(n)
  }

  /** `(c / 100).toFixed(2)` for an amount `c` held in integer cents. */
  function CentsToFixed2(c: int): (s: string)
    ensures |s| >= 4 && s[|s| - 3] == '.'
    ensures IsDigit(s[|s| - 2]) && IsDigit(s[|s| - 1])
    ensures c < 0 <==> s[0] == '-'
    ensures Numeral(s)
  {
    var a: nat := if c < 0 then -c else c;
    var whole := NatToString(a / 100);
    var frac := [DigitChar(a % 100 / 10), DigitChar(a % 10)];
    (if c < 0 then "-" else "") + whole + "." + frac
  }

  /** `xs.join(sep)` for a one-character separator. */
  function Join(xs: seq<string>, sep: char): string
  {
    if |xs| == 0 then ""
    else if |xs| == 1 then xs[0]
    else xs[0] + [sep] + Join(xs[1..], sep)
  }

  /** `s.split(sep)` for a one-character separator: always at least one piece. */
  function Split(s: string, sep: char): (pieces: seq<string>)
    ensures |pieces| >= 1
    ensures forall i :: 0 <= i < |pieces| ==> sep !in pieces[i]
  {
    if |s| == 0 then [""]
    else
      var rest := Split(s[1..], sep);
      if s[0] == sep then [""] + rest
      else [[s[0]] + rest[0]] + rest[1..]
  }

  lemma {:induction false} SplitNoSep(x: string, sep: char)
    requires sep !in x
    ensures Split(x, sep) == [x]
  {
    if |x| > 0 {
      SplitNoSep(x[1..], sep);
      assert [x[0]] + x[1..] == x;
    }
  }

  lemma {:induction false} SplitAtSep(x: string, sep: char, y: string)
    requires sep !in x
    ensures Split(x + [sep] + y, sep) == [x] + Split(y, sep)
  {
    if |x| == 0 {
      assert x + [sep] + y == [sep] + y;
      assert ([sep] + y)[1..] == y;
    } else {
      var s := x + [sep] + y;
      assert s[1..] == x[1..] + [sep] + y;
      SplitAtSep(x[1..], sep, y);
      assert [x[0]] + x[1..] == x;
    }
  }

  /** Splitting a joined list gives the list back when no piece holds the separator. */
  lemma {:induction false} SplitJoin(xs: seq<string>, sep: char)
    requires |xs| >= 1
    requires forall i :: 0 <= i < |xs| ==> sep !in xs[i]
    ensures Split(Join(xs, sep), sep) == xs
  {
    if |xs| == 1 {
      SplitNoSep(xs[0], sep);
    } else {
      SplitAtSep(xs[0], sep, Join(xs[1..], sep));
      SplitJoin(xs[1..], sep);
      assert [xs[0]] + xs[1..] == xs;
    }
  }

  /** A joined text holds the separator only between pieces. */
  lemma {:induction false} JoinFree(xs: seq<string>, sep: char, c: char)
    requires c != sep
    requires forall i :: 0 <= i < |xs| ==> c !in xs[i]
    ensures c !in Join(xs, sep)
  {
    if |xs| > 1 {
      JoinFree(xs[1..], sep, c);
    }
  }

  /** The piece before the first occurrence of `sep`, i.e. `s.split(sep)[0]`. */
  function Before(s: string, sep: char): (r: string)
    ensures r <= s && sep !in r
    ensures |r| < |s| ==> s[|r|] == sep
  {
    if |s| == 0 || s[0] == sep then "" else [s[0]] + Before(s[1..], sep)
  }

  lemma {:induction false} BeforeIsFirstPiece(s: string, sep: char)
    ensures Before(s, sep) == Split(s, sep)[0]
  {
    if |s| > 0 && s[0] != sep {
      BeforeIsFirstPiece(s[1..], sep);
    }
  }

  /** ASCII lower case of one character. */
  function LowerChar(c: char): char {
    if 'A' <= c <= 'Z' then (c as int + 32) as char else c
  }

  /** ASCII `toLowerCase`; the strings it is applied to are ASCII labels. */
  function LowerAscii(s: string): (r: string)
    ensures |r| == |s|
    ensures forall i :: 0 <= i < |s| ==> r[i] == LowerChar(s[i])
    ensures forall i :: 0 <= i < |s| ==> !('A' <= r[i] <= 'Z')
    ensures forall i :: 0 <= i < |s| ==> (IsWhitespace(r[i]) <==> IsWhitespace(s[i]))
  {
    if |s| == 0 then ""
    else
      [LowerChar(s[0])] + LowerAscii(s[1..])
  }

  /**
   * `s.replace(/\s+/g, fill)`: every maximal run of whitespace becomes one
   * `fill`. `inRun` says whether the text before `s` ended inside a run.
   */
  function Collapse(s: string, fill: char, inRun: bool): string
  {
    if |s| == 0 then ""
    else if IsWhitespace(s[0]) then (if inRun then "" else [fill]) + Collapse(s[1..], fill, true)
    else [s[0]] + Collapse(s[1..], fill, false)
  }

  function CollapseWhitespace(s: string, fill: char): string {
    Collapse(s, fill, false)
  }

  predicate NoWhitespace(s: string) {
    forall i :: 0 <= i < |s| ==> !IsWhitespace(s[i])
  }

  /** Text without whitespace is left as it is. */
  lemma {:induction false} CollapseNone(s: string, fill: char, inRun: bool)
    requires NoWhitespace(s)
    ensures Collapse(s, fill, inRun) == s
  {
    if |s| > 0 {
      CollapseNone(s[1..], fill, false);
      assert [s[0]] + s[1..] == s;
    }
  }

  /** The result holds no whitespace, and is no longer than the input. */
  lemma {:induction false} CollapseSpec(s: string, fill: char, inRun: bool)
    requires !IsWhitespace(fill)
    ensures NoWhitespace(Collapse(s, fill, inRun))
    ensures |Collapse(s, fill, inRun)| <= |s|
  {
    if |s| > 0 {
      CollapseSpec(s[1..], fill, IsWhitespace(s[0]));
    }
  }

  /** Two words separated by one whitespace character become `a`, `fill`, `b`. */
  lemma {:induction false} CollapseWords(a: string, w: char, b: string, fill: char, inRun: bool)
    requires IsWhitespace(w) && NoWhitespace(a) && NoWhitespace(b) && (|a| > 0 || !inRun)
    ensures Collapse(a + [w] + b, fill, inRun) == a + [fill] + b
  {
    var s := a + [w] + b;
    if |a| == 0 {
      assert s == [w] + b;
      assert s[1..] == b;
      CollapseNone(b, fill, true);
    } else {
      assert s[1..] == a[1..] + [w] + b;
      CollapseWords(a[1..], w, b, fill, false);
      assert [a[0]] + (a[1..] + [fill] + b) == a + [fill] + b;
    }
  }

  lemma {:induction false} LowerAsciiAppend(a: string, b: string)
    ensures LowerAscii(a + b) == LowerAscii(a) + LowerAscii(b)
  {
    if |a| > 0 {
      assert (a + b)[1..] == a[1..] + b;
      LowerAsciiAppend(a[1..], b);
    } else {
      assert a + b == b;
    }
  }
}
