/** Shared value types and the small pieces of Python text semantics the bot's
    cogs rely on: `int(s)`, `int(s, 16)`, `str(n)`, `startswith`, `in` on
    strings, `lower()`, `lstrip` and slicing with negative bounds. */
module Common {

  datatype Option<+T> = None | Some(value: T)

  datatype Result<+T, +E> = Ok(value: T) | Err(error: E)

  // ---------------------------------------------------------------------------
  // Characters
  // ---------------------------------------------------------------------------

  predicate IsDigit(ch: char) { '0' <= ch <= '9' }

  predicate IsHexDigit(ch: char) {
    IsDigit(ch) || 'a' <= ch <= 'f' || 'A' <= ch <= 'F'
  }

  /** The whitespace `int()` and `int(s, 16)` skip at both ends of a numeral:
      the ASCII characters tab, line feed, vertical tab, form feed, carriage
      return and space, and the non-ASCII characters `str.isspace()` holds
      for. The ASCII separators U+001C to U+001F, which `str.strip()` would
      also remove, are not skipped by `int()`. */
  predicate IsSpace(ch: char) {
    || 9 <= ch as int <= 13 || ch as int == 32
    || ch as int == 0x85 || ch as int == 0xA0 || ch as int == 0x1680
    || 0x2000 <= ch as int <= 0x200A || ch as int == 0x2028 || ch as int == 0x2029
    || ch as int == 0x202F || ch as int == 0x205F || ch as int == 0x3000
  }

  function DigitValue(ch: char): (d: nat)
    requires IsHexDigit(ch)
    ensures d < 16
    ensures IsDigit(ch) ==> d < 10
  {
    if IsDigit(ch) then ch as int - '0' as int
    else if 'a' <= ch <= 'f' then ch as int - 'a' as int + 10
    else ch as int - 'A' as int + 10
  }

  function DigitChar(d: nat): (ch: char)
    requires d < 10
    ensures IsDigit(ch) && DigitValue(ch) == d
  {
    ('0' as int + d) as char
  }

  predicate AllDigits(s: string) { forall i :: 0 <= i < |s| ==> IsDigit(s[i]) }

  predicate AllHexDigits(s: string) { forall i :: 0 <= i < |s| ==> IsHexDigit(s[i]) }

  /** A digit of base 16 when `hex` holds, of base 10 otherwise. */
  predicate IsDigitIn(ch: char, hex: bool) {
    if hex then IsHexDigit(ch) else IsDigit(ch)
  }

  /** Python's digit grouping in numerals: a digit, then digits each of which
      may follow a single underscore. */
  predicate Grouped(s: string, hex: bool)
    decreases |s|
  {
    && s != [] && IsDigitIn(s[0], hex)
    && (|s| == 1 || if s[1] == '_' then Grouped(s[2..], hex) else Grouped(s[1..], hex))
  }

  /** The digits of a grouped numeral, its underscores dropped. */
  function Ungrouped(s: string): (r: string)
    ensures |r| <= |s| && '_' !in r
    decreases |s|
  {
    if s == [] then [] else (if s[0] == '_' then [] else [s[0]]) + Ungrouped(s[1..])
  }

  /** The underscores of a grouped numeral stand between digits only. */
  lemma {:induction false} UngroupedDigits(s: string, hex: bool)
    requires Grouped(s, hex)
    ensures Ungrouped(s) != [] && Ungrouped(s)[0] == s[0]
    ensures forall i :: 0 <= i < |Ungrouped(s)| ==> IsDigitIn(Ungrouped(s)[i], hex)
    decreases |s|
  {
    if |s| > 1 {
      var rest := if s[1] == '_' then s[2..] else s[1..];
      UngroupedDigits(rest, hex);
      if s[1] == '_' {
        assert Ungrouped(s[1..]) == Ungrouped(rest);
      }
      assert Ungrouped(s) == [s[0]] + Ungrouped(rest);
    }
  }

  /** A numeral without underscores is grouped and is its own digits. */
  lemma {:induction false} PlainGrouped(s: string, hex: bool)
    requires s != [] && forall i :: 0 <= i < |s| ==> IsDigitIn(s[i], hex)
    ensures Grouped(s, hex) && Ungrouped(s) == s
    decreases |s|
  {
    if |s| > 1 {
      assert s[1] != '_' by { assert IsDigitIn(s[1], hex); }
      PlainGrouped(s[1..], hex);
    }
  }

  // ---------------------------------------------------------------------------
  // Decimal and hexadecimal numerals
  // ---------------------------------------------------------------------------

  /** Value of a numeral read in base `base` (most significant digit first). */
  function NumeralValue(s: string, base: nat): nat
    requires AllHexDigits(s)
    decreases |s|
  {
    if s == [] then 0 else NumeralValue(s[..|s| - 1], base) * base + DigitValue(s[|s| - 1])
  }

  /** `str(n)` for a non-negative integer. */
  function NatToDecimal(n: nat): (s: string)
    ensures |s| > 0 && AllDigits(s)
    ensures n < 10 <==> |s| == 1
    decreases n
  {
    if n < 10 then [DigitChar(n)] else NatToDecimal(n / 10) + [DigitChar(n % 10)]
  }

  lemma {:induction false} NatToDecimalValue(n: nat)
    ensures AllHexDigits(NatToDecimal(n))
    ensures NumeralValue(NatToDecimal(n), 10) == n
    decreases n
  {
    var s := NatToDecimal(n);
    if n >= 10 {
      NatToDecimalValue(n / 10);
      assert s[..|s| - 1] == NatToDecimal(n / 10);
    }
  }

  /** `str(i)` for any integer. */
  function IntToDecimal(i: int): (s: string)
    ensures |s| > 0
    ensures i >= 0 ==> AllDigits(s)
    ensures i < 0 ==> s[0] == '-' && AllDigits(s[1..])
  {
    if i >= 0 then NatToDecimal(i) else "-" + NatToDecimal(-i)
  }

  // ---------------------------------------------------------------------------
  // Stripping and prefixes
  // ---------------------------------------------------------------------------

  /** Removal of the IsSpace characters from both ends, as `int()` does
      before reading a numeral. */
  function Strip(s: string): (r: string)
    ensures |r| <= |s|
    ensures r != [] ==> !IsSpace(r[0]) && !IsSpace(r[|r| - 1])
    decreases |s|
  {
    if s == [] then []
    else if IsSpace(s[0]) then Strip(s[1..])
    else if IsSpace(s[|s| - 1]) then Strip(s[..|s| - 1])
    else s
  }

  lemma StripNoSpace(s: string)
    requires s != [] && !IsSpace(s[0]) && !IsSpace(s[|s| - 1])
    ensures Strip(s) == s
  {
  }

  /** `s.lstrip(ch)`: drop every leading occurrence of `ch`. */
  function LStrip(s: string, ch: char): (r: string)
    ensures |r| <= |s| && r == s[|s| - |r|..]
    ensures r != [] ==> r[0] != ch
    decreases |s|
  {
    if s != [] && s[0] == ch then LStrip(s[1..], ch) else s
  }

  predicate StartsWith(s: string, prefix: string) {
    |prefix| <= |s| && s[..|prefix|] == prefix
  }

  /** Python's `sub in s` for strings. */
  predicate Contains(s: string, sub: string)
    decreases |s|
  {
    StartsWith(s, sub) || (s != [] && Contains(s[1..], sub))
  }

  /** `s.lower()` restricted to ASCII letters: every upper-case letter
      becomes its lower-case letter and nothing else changes. */
  function LowerAscii(s: string): (r: string)
    ensures |r| == |s|
    ensures forall i :: 0 <= i < |r| ==> !('A' <= r[i] <= 'Z')
    ensures forall i :: 0 <= i < |s| && !('A' <= s[i] <= 'Z') ==> r[i] == s[i]
    ensures forall i :: 0 <= i < |s| && 'A' <= s[i] <= 'Z' ==>
              'a' <= r[i] <= 'z' && r[i] as int - 'a' as int == s[i] as int - 'A' as int
  {
    seq(|s|, i requires 0 <= i < |s| =>
      if 'A' <= s[i] <= 'Z' then (s[i] as int + 32) as char else s[i])
  }

  /** Lowering twice is lowering once. */
  lemma LowerIdempotent(s: string)
    ensures LowerAscii(LowerAscii(s)) == LowerAscii(s)
  {
    var r := LowerAscii(s);
    assert forall i :: 0 <= i < |r| ==> LowerAscii(r)[i] == r[i];
  }

  /** `s[:k]` with Python's treatment of a negative or too large bound. */
  function PyPrefix<T>(s: seq<T>, k: int): (r: seq<T>)
    ensures |r| <= |s| && r == s[..|r|]
    ensures 0 <= k <= |s| ==> |r| == k
    ensures k < 0 ==> |r| == if |s| + k < 0 then 0 else |s| + k
  {
    if k >= |s| then s
    else if k >= 0 then s[..k]
    else if |s| + k >= 0 then s[..|s| + k]
    else []
  }

  /** `s[-k:]` for `k >= 0`; note that `s[-0:]` is the whole of `s`. */
  function PyLast<T>(s: seq<T>, k: nat): (r: seq<T>)
    ensures 0 < k < |s| ==> r == s[|s| - k..]
    ensures k == 0 || k >= |s| ==> r == s
  {
    if k == 0 || k >= |s| then s else s[|s| - k..]
  }

  // ---------------------------------------------------------------------------
  // int(s) and int(s, 16)
  // ---------------------------------------------------------------------------

  /** A stripped numeral without its leading sign, if any. */
  function Unsigned(t: string): (u: string)
    ensures u == t || (t != [] && (t[0] == '-' || t[0] == '+') && u == t[1..])
  {
    if t != [] && (t[0] == '-' || t[0] == '+') then t[1..] else t
  }

  /** The value read after the sign of `t`: negated after a minus. */
  function Signed(t: string, v: nat): (i: int)
    ensures t != [] && t[0] == '-' ==> i == -(v as int)
    ensures !(t != [] && t[0] == '-') ==> i == v
  {
    if t != [] && t[0] == '-' then -(v as int) else v
  }

  /** Python's `int(s)`: surrounding whitespace, an optional sign and a grouped
      decimal numeral; `None` stands for the ValueError. */
  function ParseInt(s: string): Option<int> {
    var t := Strip(s);
    var digits := Unsigned(t);
    if Grouped(digits, false) then
      UngroupedDigits(digits, false);
      Some(Signed(t, NumeralValue(Ungrouped(digits), 10)))
    else None
  }

  /** `int(s)` raises iff what is left after stripping whitespace and one
      sign is not a grouped decimal numeral. */
  lemma ParseIntSyntax(s: string)
    ensures ParseInt(s).Some? <==> Grouped(Unsigned(Strip(s)), false)
  {
  }

  /** What `int(s)` reads from plain decimal digits, with or without a sign. */
  lemma ParseIntValue(s: string)
    ensures var t := Strip(s); t != [] && AllDigits(t) ==> ParseInt(s) == Some(NumeralValue(t, 10))
    ensures var t := Strip(s); |t| > 1 && t[0] == '-' && AllDigits(t[1..]) ==> ParseInt(s) == Some(-(NumeralValue(t[1..], 10) as int))
    ensures var t := Strip(s); |t| > 1 && t[0] == '+' && AllDigits(t[1..]) ==> ParseInt(s) == Some(NumeralValue(t[1..], 10))
  {
    var t := Strip(s);
    if t != [] && AllDigits(t) {
      assert !(t[0] == '-' || t[0] == '+') by { assert IsDigit(t[0]); }
      PlainGrouped(t, false);
    } else if |t| > 1 && (t[0] == '-' || t[0] == '+') && AllDigits(t[1..]) {
      PlainGrouped(t[1..], false);
    }
  }

  /** The underscores of a grouped numeral do not change what `int` reads. */
  lemma UnderscoresIgnored(d: string)
    requires Grouped(d, false)
    ensures ParseInt(d).Some? && ParseInt(d) == ParseInt(Ungrouped(d))
  {
    UngroupedDigits(d, false);
    var u := Ungrouped(d);
    assert !IsSpace(d[0]) && !IsSpace(d[|d| - 1]) by { GroupedEndsInDigit(d, false); }
    StripNoSpace(d);
    assert AllDigits(u) by { assert forall i :: 0 <= i < |u| ==> IsDigitIn(u[i], false); }
    assert !IsSpace(u[0]) && !IsSpace(u[|u| - 1]);
    StripNoSpace(u);
    assert !(d[0] == '-' || d[0] == '+');
    ParseIntValue(u);
  }

  /** `int()` skips tabs and spaces around a numeral but not the ASCII
      separators U+001C to U+001F: `int("\x1c5")` raises. */
  lemma SeparatorsNotSkipped(c: char)
    requires 28 <= c as int <= 31
    ensures ParseInt([c, '5']) == None
    ensures ParseInt([' ', '5', '\t']) == Some(5)
  {
    assert Strip([c, '5']) == [c, '5'];
    assert Strip([' ', '5', '\t']) == ['5'] by {
      assert [' ', '5', '\t'][1..] == ['5', '\t'];
      assert ['5', '\t'][..1] == ['5'];
    }
    ParseIntValue([' ', '5', '\t']);
  }

  /** A grouped numeral ends in a digit. */
  lemma {:induction false} GroupedEndsInDigit(s: string, hex: bool)
    requires Grouped(s, hex)
    ensures IsDigitIn(s[|s| - 1], hex)
    decreases |s|
  {
    if |s| > 1 {
      var rest := if s[1] == '_' then s[2..] else s[1..];
      GroupedEndsInDigit(rest, hex);
      assert s[|s| - 1] == rest[|rest| - 1];
    }
  }

  /** `int(str(i)) == i`: printing an integer and reading it back is the identity. */
  lemma IntToDecimalParses(i: int)
    ensures ParseInt(IntToDecimal(i)) == Some(i)
  {
    var s := IntToDecimal(i);
    var n: nat := if i >= 0 then i else -i;
    NatToDecimalValue(n);
    var d := NatToDecimal(n);
    assert !IsSpace(d[0]) && !IsSpace(d[|d| - 1]) by { assert IsDigit(d[0]) && IsDigit(d[|d| - 1]); }
    if i >= 0 {
      StripNoSpace(d);
    } else {
      assert s == "-" + d;
      StripNoSpace(s);
      assert Strip(s)[1..] == d;
    }
    ParseIntValue(s);
  }

  /** The digits of `int(s, 16)` after the sign: an optional `0x`/`0X`
      prefix, which may be followed by one underscore, then the numeral. */
  function HexBody(u: string): (d: string)
    ensures |u| >= 2 && u[0] == '0' && (u[1] == 'x' || u[1] == 'X') ==>
              d == u[2..] || (|u| > 2 && u[2] == '_' && d == u[3..])
    ensures !(|u| >= 2 && u[0] == '0' && (u[1] == 'x' || u[1] == 'X')) ==> d == u
  {
    if |u| >= 2 && u[0] == '0' && (u[1] == 'x' || u[1] == 'X') then
      if |u| > 2 && u[2] == '_' then u[3..] else u[2..]
    else u
  }

  /** Python's `int(s, 16)`: surrounding whitespace, an optional sign, an
      optional `0x`/`0X` prefix and a grouped hexadecimal numeral. */
  function ParseHex(s: string): Option<int> {
    var t := Strip(s);
    var digits := HexBody(Unsigned(t));
    if Grouped(digits, true) then
      UngroupedDigits(digits, true);
      Some(Signed(t, NumeralValue(Ungrouped(digits), 16)))
    else None
  }

  /** `int(s, 16)` raises iff what is left after stripping, one sign and
      the optional prefix is not a grouped hexadecimal numeral. */
  lemma ParseHexSyntax(s: string)
    ensures ParseHex(s).Some? <==> Grouped(HexBody(Unsigned(Strip(s))), true)
  {
  }

  /** `int(s, 16)` of plain hexadecimal digits is their value. */
  lemma ParseHexDigits(s: string)
    requires Strip(s) != [] && AllHexDigits(Strip(s))
    ensures ParseHex(s) == Some(NumeralValue(Strip(s), 16))
  {
    var t := Strip(s);
    assert Unsigned(t) == t by { assert IsHexDigit(t[0]); }
    if |t| >= 2 {
      assert HexBody(t) == t by { assert IsHexDigit(t[1]); }
    }
    PlainGrouped(t, true);
  }

  /** `int(s, 16)` reads the digits after a `0x` or `0X` prefix. */
  lemma ParseHexPrefixed(s: string)
    requires var t := Strip(s); |t| > 2 && t[0] == '0' && (t[1] == 'x' || t[1] == 'X') && AllHexDigits(t[2..])
    ensures ParseHex(s) == Some(NumeralValue(Strip(s)[2..], 16))
  {
    var t := Strip(s);
    assert Unsigned(t) == t;
    assert HexBody(t) == t[2..] by { assert IsHexDigit(t[2..][0]); }
    PlainGrouped(t[2..], true);
  }

  /** `int(s, 16)` negates the digits after a minus sign. */
  lemma ParseHexNegative(s: string)
    requires var t := Strip(s); |t| > 1 && t[0] == '-' && AllHexDigits(t[1..])
    ensures ParseHex(s) == Some(-(NumeralValue(Strip(s)[1..], 16) as int))
  {
    var u := Strip(s)[1..];
    assert Unsigned(Strip(s)) == u;
    if |u| >= 2 {
      assert HexBody(u) == u by { assert IsHexDigit(u[1]); }
    }
    PlainGrouped(u, true);
  }

  // ---------------------------------------------------------------------------
  // Sequences
  // ---------------------------------------------------------------------------

  function Reverse<T>(s: seq<T>): (r: seq<T>)
    ensures |r| == |s|
    ensures forall i :: 0 <= i < |s| ==> r[i] == s[|s| - 1 - i]
  {
    if s == [] then [] else Reverse(s[1..]) + [s[0]]
  }

  /** `"".join(parts)`, and list concatenation in general. */
  function Concat<T>(parts: seq<seq<T>>): seq<T> {
    if parts == [] then [] else parts[0] + Concat(parts[1..])
  }

  lemma {:induction false} ConcatAppend<T>(parts: seq<seq<T>>, last: seq<T>)
    ensures Concat(parts + [last]) == Concat(parts) + last
  {
    if parts != [] {
      assert (parts + [last])[1..] == parts[1..] + [last];
      ConcatAppend(parts[1..], last);
    }
  }
}
