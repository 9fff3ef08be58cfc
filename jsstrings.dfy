/** The JavaScript string and number conversions the debug console relies on:
    `trim`, `split(' ')`, `join`, `parseInt(s, 16)` and `Number.prototype.toString(radix)`. */
module JsStrings {
  import opened Common

  /** ECMAScript WhiteSpace and LineTerminator code points (what `trim` and `parseInt` skip). */
  predicate IsLineTerminator(c: char)
  {
    c == '\n' || c == '\r' || c == '\U{2028}' || c == '\U{2029}'
  }

  predicate IsWhiteSpace(c: char)
  {
    c == '\t' || c == '\U{000B}' || c == '\U{000C}' || c == ' ' || c == '\U{00A0}' || c == '\U{FEFF}'
    || c == '\U{1680}' || ('\U{2000}' <= c <= '\U{200A}') || c == '\U{202F}' || c == '\U{205F}'
    || c == '\U{3000}' || IsLineTerminator(c)
  }

  predicate AllWhiteSpace(s: string)
  {
    forall k :: 0 <= k < |s| ==> IsWhiteSpace(s[k])
  }

  lemma AllWhiteSpaceConcat(a: string, b: string)
    requires AllWhiteSpace(a) && AllWhiteSpace(b)
    ensures AllWhiteSpace(a + b)
  {
    assert forall k :: 0 <= k < |a + b| ==> (a + b)[k] == if k < |a| then a[k] else b[k - |a|];
  }

  /** `s.trimStart()`: drops leading white space. */
  function TrimStart(s: string): (r: string)
    ensures |r| <= |s| && r == s[|s| - |r|..]
    ensures AllWhiteSpace(s[..|s| - |r|])
    ensures r == [] || !IsWhiteSpace(r[0])
  {
    if s != [] && IsWhiteSpace(s[0]) then
      var r := TrimStart(s[1..]);
      assert s[..|s| - |r|] == [s[0]] + s[1..][..|s| - 1 - |r|];
      AllWhiteSpaceConcat([s[0]], s[1..][..|s| - 1 - |r|]);
      r
    else s
  }

  /** `s.trimEnd()`: drops trailing white space. */
  function TrimEnd(s: string): (r: string)
    ensures |r| <= |s| && r == s[..|r|]
    ensures AllWhiteSpace(s[|r|..])
    ensures r == [] || !IsWhiteSpace(r[|r| - 1])
  {
    if s != [] && IsWhiteSpace(s[|s| - 1]) then
      var r := TrimEnd(s[..|s| - 1]);
      assert s[|r|..] == s[..|s| - 1][|r|..] + [s[|s| - 1]];
      AllWhiteSpaceConcat(s[..|s| - 1][|r|..], [s[|s| - 1]]);
      r
    else s
  }

  /** `s.trim()`. */
  function Trim(s: string): (r: string)
    ensures r == [] || (!IsWhiteSpace(r[0]) && !IsWhiteSpace(r[|r| - 1]))
  {
    TrimEnd(TrimStart(s))
  }

  lemma {:induction false} TrimStartOfTrimmed(s: string)
    requires s == [] || !IsWhiteSpace(s[0])
    ensures TrimStart(s) == s
  {
  }

  lemma {:induction false} TrimEndOfTrimmed(s: string)
    requires s == [] || !IsWhiteSpace(s[|s| - 1])
    ensures TrimEnd(s) == s
  {
  }

  /** Trimming twice is trimming once. */
  lemma TrimIdempotent(s: string)
    ensures Trim(Trim(s)) == Trim(s)
  {
    var t := Trim(s);
    TrimStartOfTrimmed(t);
    TrimEndOfTrimmed(t);
  }

  /** Position of the first `sep` in `s`, or `|s|` when there is none. */
  function IndexOf(s: string, sep: char): (k: nat)
    ensures k <= |s|
    ensures forall j :: 0 <= j < k ==> s[j] != sep
    ensures k < |s| ==> s[k] == sep
  {
    if s == [] then 0 else if s[0] == sep then 0 else 1 + IndexOf(s[1..], sep)
  }

  /** `parts.join(sep)`. */
  function Join(parts: seq<string>, sep: string): string
  {
    if |parts| == 0 then ""
    else if |parts| == 1 then parts[0]
    else parts[0] + sep + Join(parts[1..], sep)
  }

  /** `s.split(sep)` for a one-character separator: every occurrence cuts,
      so adjacent separators give empty parts. */
  function Split(s: string, sep: char): (parts: seq<string>)
    ensures |parts| >= 1
    ensures forall p <- parts :: sep !in p
    ensures Join(parts, [sep]) == s
    decreases |s|
  {
    var k := IndexOf(s, sep);
    if k == |s| then
      [s]
    else
      var rest := Split(s[k + 1..], sep);
      assert s == s[..k] + [sep] + s[k + 1..];
      [s[..k]] + rest
  }

  /** Splitting a joined list gives the list back when no part holds the separator. */
  lemma {:induction false} SplitJoin(parts: seq<string>, sep: char)
    requires |parts| >= 1
    requires forall p <- parts :: sep !in p
    ensures Split(Join(parts, [sep]), sep) == parts
    decreases |parts|
  {
    var s := Join(parts, [sep]);
    if |parts| == 1 {
      assert s == parts[0] && sep !in parts[0];
      assert forall j :: 0 <= j < |s| ==> s[j] != sep;
      assert IndexOf(s, sep) == |s|;
    } else {
      var tail := Join(parts[1..], [sep]);
      assert s == parts[0] + [sep] + tail;
      assert sep !in parts[0];
      IndexOfAfter(parts[0], tail, sep);
      assert s[..|parts[0]|] == parts[0];
      assert s[|parts[0]| + 1..] == tail;
      SplitJoin(parts[1..], sep);
    }
  }

  lemma IndexOfAfter(a: string, b: string, sep: char)
    requires sep !in a
    ensures IndexOf(a + [sep] + b, sep) == |a|
  {
    var s := a + [sep] + b;
    assert s[|a|] == sep;
    assert forall j :: 0 <= j < |a| ==> s[j] == a[j];
  }

  // ---- Number formatting: `v.toString(radix)` ----

  function DigitChar(d: nat): (c: char)
    requires d < 36
  {
    if d < 10 then ('0' as int + d) as char else ('a' as int + d - 10) as char
  }

  /** The value of a digit in any radix up to 36, either letter case (as `parseInt` reads it). */
  function DigitValue(c: char): (r: Option<nat>)
    ensures r.Some? ==> r.value < 36
  {
    if '0' <= c <= '9' then Some(c as int - '0' as int)
    else if 'a' <= c <= 'z' then Some(c as int - 'a' as int + 10)
    else if 'A' <= c <= 'Z' then Some(c as int - 'A' as int + 10)
    else None
  }

  predicate IsDigitIn(c: char, base: nat)
  {
    DigitValue(c).Some? && DigitValue(c).value < base
  }

  predicate AllDigitsIn(s: string, base: nat)
  {
    forall k :: 0 <= k < |s| ==> IsDigitIn(s[k], base)
  }

  /** The digits of `n` in `base`, most significant first, without leading zeros. */
  function Digits(n: nat, base: nat): (s: string)
    requires 2 <= base <= 36
    ensures |s| >= 1 && AllDigitsIn(s, base)
    ensures n > 0 ==> s[0] != '0'
    decreases n
  {
    if n < base then [DigitChar(n)]
    else
      DivideSmaller(n, base);
      Digits(n / base, base) + [DigitChar(n % base)]
  }

  lemma DivideSmaller(n: nat, base: nat)
    requires 2 <= base <= n
    ensures 0 < n / base < n && n % base < base
    ensures n == n / base * base + n % base
  {
  }

  /** `v.toString(base)` for an integer value. */
  function RadixString(v: int, base: nat): string
    requires 2 <= base <= 36
  {
    if v < 0 then "-" + Digits(-v, base) else Digits(v, base)
  }

  function ToUpperAscii(s: string): (r: string)
    ensures |r| == |s|
  {
    if s == [] then [] else [UpperChar(s[0])] + ToUpperAscii(s[1..])
  }

  function UpperChar(c: char): char
  {
    if 'a' <= c <= 'z' then (c as int - 32) as char else c
  }

  /** Upper-casing a character keeps its digit value (letters have the same value in
      either case). */
  lemma UpperCharValue(c: char)
    ensures DigitValue(UpperChar(c)) == DigitValue(c)
  {
  }

  /** The number a string of digits denotes in `base`, read left to right. */
  function DigitsValue(s: string, base: nat): nat
    requires AllDigitsIn(s, base)
  {
    if s == [] then 0
    else DigitsValue(s[..|s| - 1], base) * base + DigitValue(s[|s| - 1]).value
  }

  /** A digit character reads back as its value. */
  lemma DigitCharValue(d: nat)
    requires d < 36
    ensures DigitValue(DigitChar(d)) == Some(d)
  {
  }

  /** Reading back what `Digits` wrote gives the number. */
  lemma {:induction false} DigitsRoundTrip(n: nat, base: nat)
    requires 2 <= base <= 36
    ensures DigitsValue(Digits(n, base), base) == n
    decreases n
  {
    var s := Digits(n, base);
    if n < base {
      DigitCharValue(n);
      assert s[..0] == [];
    } else {
      DivideSmaller(n, base);
      DigitsRoundTrip(n / base, base);
      DigitCharValue(n % base);
      assert s[..|s| - 1] == Digits(n / base, base);
      assert s[|s| - 1] == DigitChar(n % base);
    }
  }

  lemma UpperDigits(s: string, base: nat)
    requires AllDigitsIn(s, base)
    ensures AllDigitsIn(ToUpperAscii(s), base)
    ensures DigitsValue(ToUpperAscii(s), base) == DigitsValue(s, base)
  {
    var u := ToUpperAscii(s);
    forall k | 0 <= k < |s| ensures DigitValue(u[k]) == DigitValue(s[k]) {
      UpperAt(s, k);
      UpperCharValue(s[k]);
    }
    DigitsValueAgree(s, u, base);
  }

  lemma {:induction false} UpperAt(s: string, k: nat)
    requires k < |s|
    ensures ToUpperAscii(s)[k] == UpperChar(s[k])
    decreases k
  {
    if k > 0 {
      UpperAt(s[1..], k - 1);
    }
  }

  lemma {:induction false} DigitsValueAgree(s: string, t: string, base: nat)
    requires AllDigitsIn(s, base) && |t| == |s|
    requires forall k :: 0 <= k < |s| ==> DigitValue(t[k]) == DigitValue(s[k])
    ensures AllDigitsIn(t, base) && DigitsValue(t, base) == DigitsValue(s, base)
    decreases |s|
  {
    if s != [] {
      DigitsValueAgree(s[..|s| - 1], t[..|t| - 1], base);
    }
  }

  // ---- `parseInt(s, 16)` ----

  /** Length of the longest prefix of hexadecimal digits. */
  function HexPrefixLength(s: string): (k: nat)
    ensures k <= |s| && AllDigitsIn(s[..k], 16)
    ensures k < |s| ==> !IsDigitIn(s[k], 16)
  {
    if s != [] && IsDigitIn(s[0], 16) then 1 + HexPrefixLength(s[1..]) else 0
  }

  /** The unsigned part of `parseInt(s, 16)`: an optional `0x`/`0X` prefix, then the longest
      run of hex digits; `None` stands for NaN (no digit at all). */
  function ParseUnsignedHex(u: string): (r: Option<nat>)
  {
    var w := if |u| >= 2 && u[0] == '0' && (u[1] == 'x' || u[1] == 'X') then u[2..] else u;
    var z := w[..HexPrefixLength(w)];
    if z == [] then None else Some(DigitsValue(z, 16))
  }

  /** `parseInt(s, 16)`: skips leading white space and takes an optional sign before the
      unsigned part; `None` stands for NaN. */
  function ParseIntHex(s: string): (r: Option<int>)
  {
    var t := TrimStart(s);
    if t != [] && (t[0] == '-' || t[0] == '+') then
      match ParseUnsignedHex(t[1..])
      case None => None
      case Some(m) => var k: int := m; if t[0] == '-' then Some(-k) else Some(k)
    else
      match ParseUnsignedHex(t)
      case None => None
      case Some(m) => Some(m)
  }

  lemma {:induction false} HexPrefixOfDigits(z: string, tail: string)
    requires AllDigitsIn(z, 16)
    requires tail == [] || !IsDigitIn(tail[0], 16)
    ensures HexPrefixLength(z + tail) == |z|
    decreases |z|
  {
    if z != [] {
      assert (z + tail)[1..] == z[1..] + tail;
      HexPrefixOfDigits(z[1..], tail);
    }
  }

  lemma UnsignedHexParses(z: string, tail: string)
    requires z != [] && AllDigitsIn(z, 16) && (z[0] != '0' || |z| == 1)
    requires tail == [] || (!IsDigitIn(tail[0], 16) && tail[0] != 'x' && tail[0] != 'X')
    ensures ParseUnsignedHex(z + tail) == Some(DigitsValue(z, 16))
  {
    var u := z + tail;
    assert |z| == 1 && |u| >= 2 ==> u[1] == tail[0];
    assert |z| >= 2 ==> u[1] == z[1];
    HexPrefixOfDigits(z, tail);
    assert u[..|z|] == z;
  }

  /** The upper-case hex digits of a magnitude, as `toString(16).toUpperCase()` writes them. */
  lemma UpperHexDigits(m: nat)
    ensures var z := ToUpperAscii(Digits(m, 16));
      z != [] && AllDigitsIn(z, 16) && (z[0] != '0' || |z| == 1) && DigitsValue(z, 16) == m
  {
    var d := Digits(m, 16);
    UpperDigits(d, 16);
    DigitsRoundTrip(m, 16);
    UpperAt(d, 0);
    if |d| > 1 {
      assert m >= 16;
    }
  }

  lemma DigitIsNoSpaceOrSign(c: char)
    requires DigitValue(c).Some?
    ensures !IsWhiteSpace(c) && c != '-' && c != '+'
  {
  }

  lemma ParseIntHexUnsigned(s: string, m: nat)
    requires s != [] && !IsWhiteSpace(s[0]) && s[0] != '-' && s[0] != '+'
    requires ParseUnsignedHex(s) == Some(m)
    ensures ParseIntHex(s) == Some(m)
  {
    TrimStartOfTrimmed(s);
  }

  lemma ParseIntHexNegative(u: string, m: nat)
    requires ParseUnsignedHex(u) == Some(m)
    ensures ParseIntHex("-" + u) == Some(0 - m as int)
  {
    var s := "-" + u;
    assert s[0] == '-' && s[1..] == u;
    TrimStartOfTrimmed(s);
  }

  lemma UpperMinus(d: string)
    ensures ToUpperAscii("-" + d) == "-" + ToUpperAscii(d)
  {
    assert ("-" + d)[1..] == d;
  }

  /** The upper-case hexadecimal text of a number, followed by anything that is neither
      a hex digit nor an `x`, reads back as that number. */
  lemma HexTextParses(v: int, tail: string)
    requires tail == [] || (!IsDigitIn(tail[0], 16) && tail[0] != 'x' && tail[0] != 'X')
    ensures ParseIntHex(ToUpperAscii(RadixString(v, 16)) + tail) == Some(v)
  {
    if v < 0 {
      var m: nat := -v;
      var d := Digits(m, 16);
      assert RadixString(v, 16) == "-" + d;
      UpperMinus(d);
      NegativeHexText(m, tail);
    } else {
      NonNegativeHexText(v, tail);
    }
  }

  lemma NegativeHexText(m: nat, tail: string)
    requires tail == [] || (!IsDigitIn(tail[0], 16) && tail[0] != 'x' && tail[0] != 'X')
    ensures ParseIntHex("-" + ToUpperAscii(Digits(m, 16)) + tail) == Some(0 - m as int)
  {
    var z := ToUpperAscii(Digits(m, 16));
    UpperHexDigits(m);
    UnsignedHexParses(z, tail);
    ParseIntHexNegative(z + tail, m);
    assert "-" + z + tail == "-" + (z + tail);
  }

  lemma NonNegativeHexText(m: nat, tail: string)
    requires tail == [] || (!IsDigitIn(tail[0], 16) && tail[0] != 'x' && tail[0] != 'X')
    ensures ParseIntHex(ToUpperAscii(Digits(m, 16)) + tail) == Some(m)
  {
    var z := ToUpperAscii(Digits(m, 16));
    UpperHexDigits(m);
    UnsignedHexParses(z, tail);
    var s := z + tail;
    assert s[0] == z[0];
    DigitIsNoSpaceOrSign(z[0]);
    ParseIntHexUnsigned(s, m);
  }
}
