/**
 * String helpers the core relies on: fixed-width decimal and hexadecimal
 * rendering (strftime, uuid text), Python's `str.strip()`, `sep.join(...)`,
 * `str.split(sep)` and the `in` substring test.
 */
module Text {
  import opened Common

  function Pow(b: nat, e: nat): nat {
    if e == 0 then 1 else b * Pow(b, e - 1)
  }

  // ----- digits -----

  /** The digit for `d`: '0'..'9', then upper-case 'A'..'F'. */
  function DigitChar(d: nat): char
    requires d < 16
  {
    if d < 10 then ('0' as int + d) as char else ('A' as int + d - 10) as char
  }

  function DigitValue(c: char): Option<nat> {
    if '0' <= c <= '9' then Some(c as int - '0' as int)
    else if 'A' <= c <= 'F' then Some(c as int - 'A' as int + 10)
    else None
  }

  lemma DigitRoundTrip(d: nat)
    requires d < 16
    ensures DigitValue(DigitChar(d)) == Some(d)
  {
  }

  predicate IsDigit(c: char, base: nat) {
    DigitValue(c).Some? && DigitValue(c).value < base
  }

  /** `n` written in `base` with exactly `width` digits, most significant
      first, zero-padded on the left. */
  function Render(n: nat, base: nat, width: nat): (s: string)
    requires 2 <= base <= 16
    ensures |s| == width
    ensures forall i :: 0 <= i < |s| ==> IsDigit(s[i], base)
  {
    if width == 0 then "" else Render(n / base, base, width - 1) + [DigitChar(n % base)]
  }

  /** The value of a string of `base` digits; None when some character is not one. */
  function Parse(s: string, base: nat): Option<nat>
    requires 2 <= base <= 16
  {
    if s == [] then Some(0)
    else
      match Parse(s[..|s| - 1], base)
      case None => None
      case Some(high) =>
        if IsDigit(s[|s| - 1], base) then Some(high * base + DigitValue(s[|s| - 1]).value) else None
  }

  lemma DivBelow(n: nat, b: nat, p: nat)
    requires b > 0 && n < b * p
    ensures n / b < p
  {
  }

  lemma DivMod(n: nat, b: nat)
    requires b > 0
    ensures (n / b) * b + n % b == n
  {
  }

  lemma ProductBound(high: nat, d: nat, b: nat, p: nat)
    requires high < p && d < b
    ensures high * b + d < p * b
  {
    assert (high + 1) * b <= p * b;
  }

  /** Parsing one more digit: shift the value so far and add the digit. */
  lemma ParseSnoc(init: string, c: char, base: nat)
    requires 2 <= base <= 16
    ensures Parse(init + [c], base) ==
      if Parse(init, base).Some? && IsDigit(c, base) then Some(Parse(init, base).value * base + DigitValue(c).value) else None
  {
    var s := init + [c];
    assert s[..|s| - 1] == init;
  }

  /** Parsing what Render wrote gives the number back, as long as it fits in `width` digits. */
  lemma {:induction false} ParseRender(n: nat, base: nat, width: nat)
    requires 2 <= base <= 16 && n < Pow(base, width)
    ensures Parse(Render(n, base, width), base) == Some(n)
    decreases width
  {
    if width > 0 {
      DivBelow(n, base, Pow(base, width - 1));
      ParseRender(n / base, base, width - 1);
      DigitRoundTrip(n % base);
      ParseSnoc(Render(n / base, base, width - 1), DigitChar(n % base), base);
      DivMod(n, base);
    }
  }

  /** Conversely, a string Parse accepts is the rendering of its value at its own width. */
  lemma {:induction false} RenderParse(s: string, base: nat)
    requires 2 <= base <= 16 && Parse(s, base).Some?
    ensures Parse(s, base).value < Pow(base, |s|)
    ensures Render(Parse(s, base).value, base, |s|) == s
  {
    if s != [] {
      var init := s[..|s| - 1];
      RenderParse(init, base);
      var high := Parse(init, base).value;
      var d := DigitValue(s[|s| - 1]).value;
      var n := high * base + d;
      assert Parse(s, base).value == n;
      DivModUnique(n, base, high, d);
      ProductBound(high, d, base, Pow(base, |init|));
      assert Render(n, base, |s|) == Render(high, base, |init|) + [DigitChar(d)];
      assert DigitChar(d) == s[|s| - 1];
      assert s == init + [s[|s| - 1]];
    }
  }

  lemma DivModUnique(n: nat, b: nat, q: nat, r: nat)
    requires 0 <= r < b && n == q * b + r
    ensures n / b == q && n % b == r
  {
    var q', r' := n / b, n % b;
    assert q' * b + r' == n;
    if q > q' {
      MulLe(q' + 1, q, b);
      assert false;
    } else if q < q' {
      MulLe(q + 1, q', b);
      assert false;
    }
  }
  lemma MulLe(a: nat, c: nat, b: nat)
    requires a <= c
    ensures a * b <= c * b
  {
    assert c * b == a * b + (c - a) * b;
  }

  /** `n` in decimal with no padding, as Python's `str(n)` writes it. */
  function Show(n: nat): (s: string)
    ensures |s| > 0
    ensures forall i :: 0 <= i < |s| ==> IsDigit(s[i], 10)
  {
    if n < 10 then [DigitChar(n)] else Show(n / 10) + [DigitChar(n % 10)]
  }

  lemma {:induction false} ParseShow(n: nat)
    ensures Parse(Show(n), 10) == Some(n)
  {
    if n >= 10 {
      var s := Show(n);
      assert s[..|s| - 1] == Show(n / 10);
      ParseShow(n / 10);
    }
  }

  // ----- whitespace and strip -----

  /** Python's `str.isspace()` for one character. */
  predicate IsSpace(c: char) {
    || c == ' '
    || '\U{9}' <= c <= '\U{D}'
    || '\U{1C}' <= c <= '\U{1F}'
    || c == '\U{85}' || c == '\U{A0}' || c == '\U{1680}'
    || '\U{2000}' <= c <= '\U{200A}'
    || c == '\U{2028}' || c == '\U{2029}' || c == '\U{202F}' || c == '\U{205F}' || c == '\U{3000}'
  }

  predicate AllSpace(s: string) {
    forall k :: 0 <= k < |s| ==> IsSpace(s[k])
  }

  function LeadingSpaces(s: string): (n: nat)
    ensures n <= |s| && AllSpace(s[..n])
    ensures n < |s| ==> !IsSpace(s[n])
  {
    if s != [] && IsSpace(s[0]) then 1 + LeadingSpaces(s[1..]) else 0
  }

  function TrailingSpaces(s: string): (n: nat)
    ensures n <= |s| && AllSpace(s[|s| - n..])
    ensures n < |s| ==> !IsSpace(s[|s| - 1 - n])
  {
    if s != [] && IsSpace(s[|s| - 1]) then 1 + TrailingSpaces(s[..|s| - 1]) else 0
  }

  /** Python's `s.strip()`: `s` without its leading and trailing whitespace. */
  function Strip(s: string): (r: string)
    ensures r == [] || (!IsSpace(r[0]) && !IsSpace(r[|r| - 1]))
    ensures exists i, j :: 0 <= i <= j <= |s| && r == s[i..j] && AllSpace(s[..i]) && AllSpace(s[j..])
  {
    var i := LeadingSpaces(s);
    var t := TrailingSpaces(s[i..]);
    assert s[i..][|s[i..]| - t..] == s[|s| - t..];
    s[i..|s| - t]
  }

  /** Stripping twice strips nothing more. */
  lemma StripIdempotent(s: string)
    ensures Strip(Strip(s)) == Strip(s)
  {
    var r := Strip(s);
    assert LeadingSpaces(r) == 0;
    assert TrailingSpaces(r) == 0;
  }

  // ----- join and split -----

  /** Python's `sep.join(parts)`. */
  function Join(parts: seq<string>, sep: string): string {
    if |parts| == 0 then ""
    else if |parts| == 1 then parts[0]
    else parts[0] + sep + Join(parts[1..], sep)
  }

  /** Python's `s.split(sep)` for a one-character separator. */
  function Split(s: string, sep: char): (r: seq<string>)
    ensures |r| > 0
  {
    if s == [] then [""]
    else if s[0] == sep then [""] + Split(s[1..], sep)
    else
      var rest := Split(s[1..], sep);
      [[s[0]] + rest[0]] + rest[1..]
  }

  lemma {:induction false} SplitNoSep(x: string, sep: char)
    requires sep !in x
    ensures Split(x, sep) == [x]
  {
    if x != [] {
      SplitNoSep(x[1..], sep);
      assert [x[0]] + x[1..] == x;
    }
  }

  lemma {:induction false} SplitAtFirstSep(x: string, sep: char, y: string)
    requires sep !in x
    ensures Split(x + [sep] + y, sep) == [x] + Split(y, sep)
  {
    if x == [] {
      assert x + [sep] + y == [sep] + y;
      assert ([sep] + y)[1..] == y;
    } else {
      var s := x + [sep] + y;
      assert s[1..] == x[1..] + [sep] + y;
      SplitAtFirstSep(x[1..], sep, y);
      assert [x[0]] + x[1..] == x;
    }
  }

  /** Joining parts that do not contain the separator can be undone by splitting. */
  lemma {:induction false} SplitJoin(parts: seq<string>, sep: char)
    requires |parts| > 0
    requires forall i :: 0 <= i < |parts| ==> sep !in parts[i]
    ensures Split(Join(parts, [sep]), sep) == parts
  {
    if |parts| == 1 {
      SplitNoSep(parts[0], sep);
    } else {
      SplitJoin(parts[1..], sep);
      SplitAtFirstSep(parts[0], sep, Join(parts[1..], [sep]));
      assert [parts[0]] + parts[1..] == parts;
    }
  }

  // ----- substrings -----

  /** Python's `sub in s`. */
  predicate Contains(s: string, sub: string)
    decreases |s|
  {
    if |sub| > |s| then false else s[..|sub|] == sub || (s != [] && Contains(s[1..], sub))
  }
}
