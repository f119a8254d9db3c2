/**
 * Shared vocabulary for the LapXpert model: optional values and results,
 * the whitespace rules of Java and JavaScript strings, substring tests and
 * decimal rendering. Strings are `seq<char>`.
 */
module Common {

  datatype Option<T> = None | Some(value: T)

  /** A computation that either yields a value or fails with a typed error. */
  datatype Result<T, E> = Ok(value: T) | Err(error: E)

  /** A Java reference string as string concatenation and `%s` render it: null reads "null". */
  function JavaString(s: Option<string>): (r: string)
    ensures s.Some? ==> r == s.value
    ensures s.None? ==> r == "null"
  {
    if s.Some? then s.value else "null"
  }

  /** An object the code passes along without looking inside it, known by its identity. */
  datatype JavaObject = JavaObject(identity: nat)

  /** Splitting a non-empty left operand off a concatenation. */
  lemma ButLastAppend<T>(s: seq<T>)
    requires s != []
    ensures s[..|s| - 1] + [s[|s| - 1]] == s
  {
  }

  lemma ConsAppend<T>(a: seq<T>, b: seq<T>)
    requires a != []
    ensures (a + b)[0] == a[0] && (a + b)[1..] == a[1..] + b
  {
  }

  // ---------------------------------------------------------------------
  // Whitespace and trimming
  // ---------------------------------------------------------------------

  /** Java's `String.trim()` removes every leading/trailing char <= U+0020. */
  predicate IsJavaTrimmed(c: char) { c <= ' ' }

  /** Java's `Character.isWhitespace`, which `String.isBlank()` uses. */
  predicate IsJavaWhitespace(c: char)
  {
    ('\U{9}' <= c <= '\U{D}') || ('\U{1C}' <= c <= '\U{20}')
    || c == '\U{1680}' || ('\U{2000}' <= c <= '\U{2006}') || ('\U{2008}' <= c <= '\U{200A}')
    || c == '\U{2028}' || c == '\U{2029}' || c == '\U{205F}' || c == '\U{3000}'
  }

  /** The ECMAScript WhiteSpace and LineTerminator set used by `trim()` and `\s`. */
  predicate IsJsWhitespace(c: char)
  {
    ('\U{9}' <= c <= '\U{D}') || c == '\U{20}' || c == '\U{A0}' || c == '\U{1680}'
    || ('\U{2000}' <= c <= '\U{200A}') || c == '\U{2028}' || c == '\U{2029}'
    || c == '\U{202F}' || c == '\U{205F}' || c == '\U{3000}' || c == '\U{FEFF}'
  }

  /** `s` with its leading `ws` characters removed. */
  function TrimStart(s: string, ws: char -> bool): (r: string)
    ensures |r| <= |s| && r == s[|s| - |r|..]
    ensures r == [] || !ws(r[0])
    ensures forall i :: 0 <= i < |s| - |r| ==> ws(s[i])
  {
    if s == [] || !ws(s[0]) then s else TrimStart(s[1..], ws)
  }

  /** `s` with its trailing `ws` characters removed. */
  function TrimEnd(s: string, ws: char -> bool): (r: string)
    ensures |r| <= |s| && r == s[..|r|]
    ensures r == [] || !ws(r[|r| - 1])
    ensures forall i :: |r| <= i < |s| ==> ws(s[i])
  {
    if s == [] || !ws(s[|s| - 1]) then s else TrimEnd(s[..|s| - 1], ws)
  }

  function Trim(s: string, ws: char -> bool): string
  {
    TrimEnd(TrimStart(s, ws), ws)
  }

  /** Trimming leaves nothing exactly when every character is whitespace. */
  lemma TrimEmptyIff(s: string, ws: char -> bool)
    ensures Trim(s, ws) == [] <==> forall i :: 0 <= i < |s| ==> ws(s[i])
  {
    var t := TrimStart(s, ws);
    if Trim(s, ws) == [] {
      forall i | 0 <= i < |s| ensures ws(s[i]) {
        if i >= |s| - |t| {
          assert s[i] == t[i - (|s| - |t|)];
        }
      }
    } else {
      var r := Trim(s, ws);
      assert t[0] == r[0];
      assert s[|s| - |t|] == t[0];
    }
  }

  /** Trimming twice is trimming once. */
  lemma TrimIdempotent(s: string, ws: char -> bool)
    ensures Trim(Trim(s, ws), ws) == Trim(s, ws)
  {
    var t := TrimStart(s, ws);
    var r := Trim(s, ws);
    if r != [] {
      assert r[0] == t[0];
    }
    assert TrimStart(r, ws) == r;
  }

  function JavaTrim(s: string): string { Trim(s, IsJavaTrimmed) }

  /** `s.trim().isEmpty()`: every character is at most U+0020. */
  predicate JavaTrimEmpty(s: string) { forall i :: 0 <= i < |s| ==> IsJavaTrimmed(s[i]) }

  lemma JavaTrimEmptyIff(s: string)
    ensures JavaTrim(s) == [] <==> JavaTrimEmpty(s)
  {
    TrimEmptyIff(s, IsJavaTrimmed);
  }

  /** `String.isBlank()`. */
  predicate JavaIsBlank(s: string) { forall i :: 0 <= i < |s| ==> IsJavaWhitespace(s[i]) }

  /** Spring's `StringUtils.hasText`: some character is not whitespace. */
  predicate HasText(s: string) { !JavaIsBlank(s) }

  function JsTrim(s: string): string { Trim(s, IsJsWhitespace) }

  /** `s.trim() === ''` in JavaScript: every character is whitespace. */
  predicate JsBlank(s: string) { forall i :: 0 <= i < |s| ==> IsJsWhitespace(s[i]) }

  lemma JsTrimEmptyIff(s: string)
    ensures JsTrim(s) == [] <==> JsBlank(s)
  {
    TrimEmptyIff(s, IsJsWhitespace);
  }

  /** `s` with every JavaScript whitespace character removed (`replace(/\s/g, '')`). */
  function JsStripWhitespace(s: string): (r: string)
    ensures |r| <= |s|
    ensures forall i :: 0 <= i < |r| ==> !IsJsWhitespace(r[i])
  {
    if s == [] then []
    else if IsJsWhitespace(s[0]) then JsStripWhitespace(s[1..])
    else [s[0]] + JsStripWhitespace(s[1..])
  }

  // ---------------------------------------------------------------------
  // Substrings
  // ---------------------------------------------------------------------

  predicate StartsWith(s: string, prefix: string)
  {
    |prefix| <= |s| && s[..|prefix|] == prefix
  }

  predicate EndsWith(s: string, suffix: string)
  {
    |suffix| <= |s| && s[|s| - |suffix|..] == suffix
  }

  /** `t` occurs in `s` starting at index `i`. */
  predicate OccursAt(s: string, t: string, i: int)
  {
    0 <= i && i + |t| <= |s| && s[i..i + |t|] == t
  }

  /** `s.contains(t)` / `s.includes(t)`. */
  predicate Contains(s: string, t: string)
  {
    exists i :: 0 <= i <= |s| - |t| && OccursAt(s, t, i)
  }

  lemma StartsWithContains(s: string, t: string)
    requires StartsWith(s, t)
    ensures Contains(s, t)
  {
    assert OccursAt(s, t, 0);
  }

  lemma AppendAssoc<T>(a: seq<T>, b: seq<T>, c: seq<T>)
    ensures (a + b) + c == a + (b + c)
  {
  }

  /** The middle part of a concatenation occurs in it. */
  lemma ContainsInfix(a: string, b: string, c: string)
    ensures Contains(a + b + c, b)
  {
    var s := a + b + c;
    assert s[|a|..|a| + |b|] == b;
    assert OccursAt(s, b, |a|);
  }

  /** The right operand of a concatenation occurs in it. */
  lemma ContainsSuffix(a: string, b: string)
    ensures Contains(a + b, b)
  {
    assert (a + b)[|a|..|a| + |b|] == b;
    assert OccursAt(a + b, b, |a|);
  }

  /** An occurrence survives appending. */
  lemma ContainsExtend(s: string, t: string, u: string)
    requires Contains(s, t)
    ensures Contains(s + u, t)
  {
    var i :| 0 <= i <= |s| - |t| && OccursAt(s, t, i);
    assert (s + u)[i..i + |t|] == s[i..i + |t|];
    assert OccursAt(s + u, t, i);
  }

  /** Occurrence test that can be run: the first index where `t` occurs in `s`. */
  function IndexOf(s: string, t: string): (r: Option<nat>)
    ensures r.Some? ==> r.value + |t| <= |s| && s[r.value..r.value + |t|] == t
    ensures r.None? <==> !Contains(s, t)
    decreases |s|
  {
    if |t| > |s| then None
    else if s[..|t|] == t then assert OccursAt(s, t, 0); Some(0)
    else
      var rest := IndexOf(s[1..], t);
      ContainsDropFirst(s, t);
      if rest.None? then None
      else
        OccursShift(s, t, rest.value);
        Some(rest.value + 1)
  }

  /** An occurrence that is not at the start is an occurrence in the tail. */
  lemma ContainsDropFirst(s: string, t: string)
    requires |t| <= |s| && s[..|t|] != t
    ensures Contains(s, t) ==> Contains(s[1..], t)
  {
    if Contains(s, t) {
      var i :| 0 <= i <= |s| - |t| && OccursAt(s, t, i);
      assert i != 0;
      assert s[1..][i - 1..i - 1 + |t|] == t;
      assert OccursAt(s[1..], t, i - 1);
    }
  }

  /** An occurrence in the tail is an occurrence one place later in the whole. */
  lemma OccursShift(s: string, t: string, j: int)
    requires s != [] && OccursAt(s[1..], t, j)
    ensures OccursAt(s, t, j + 1)
  {
    assert s[j + 1..j + 1 + |t|] == s[1..][j..j + |t|];
  }

  /** The first index of the character `c` in `s`. */
  function CharIndex(s: string, c: char): (r: Option<nat>)
    ensures r.None? <==> c !in s
    ensures r.Some? ==> r.value < |s| && s[r.value] == c && c !in s[..r.value]
  {
    if s == [] then None
    else if s[0] == c then Some(0)
    else
      var rest := CharIndex(s[1..], c);
      if rest.None? then None
      else
        assert s[..rest.value + 1] == [s[0]] + s[1..][..rest.value];
        Some(rest.value + 1)
  }

  /** JavaScript's `s.split(c)` for a one-character separator: never empty. */
  function SplitChar(s: string, c: char): (r: seq<string>)
    ensures |r| >= 1
    ensures forall k :: 0 <= k < |r| ==> c !in r[k]
    decreases |s|
  {
    match CharIndex(s, c)
    case None => [s]
    case Some(i) => [s[..i]] + SplitChar(s[i + 1..], c)
  }

  /** `parts.join(c)` */
  function JoinChar(parts: seq<string>, c: char): string
  {
    if parts == [] then ""
    else if |parts| == 1 then parts[0]
    else parts[0] + [c] + JoinChar(parts[1..], c)
  }

  /** Splitting at the first separator: the piece before it, then the rest split. */
  lemma SplitCons(a: string, c: char, rest: string)
    requires c !in a
    ensures SplitChar(a + [c] + rest, c) == [a] + SplitChar(rest, c)
  {
    var s := a + [c] + rest;
    assert s[..|a|] == a && s[|a|] == c;
    var i := CharIndex(s, c);
    assert i == Some(|a|);
    assert s[|a| + 1..] == rest;
  }

  /** Joining the pieces of a split gives the string back. */
  lemma {:induction false} JoinSplit(s: string, c: char)
    ensures JoinChar(SplitChar(s, c), c) == s
    decreases |s|
  {
    match CharIndex(s, c)
    case None =>
    case Some(i) =>
      var rest := SplitChar(s[i + 1..], c);
      JoinSplit(s[i + 1..], c);
      var parts := [s[..i]] + rest;
      assert SplitChar(s, c) == parts;
      assert |parts| > 1 && parts[0] == s[..i] && parts[1..] == rest;
      assert JoinChar(parts, c) == s[..i] + [c] + JoinChar(rest, c);
      assert s == s[..i] + [c] + s[i + 1..];
  }

  /** Splitting joined pieces that do not contain the separator gives the pieces back. */
  lemma {:induction false} SplitJoin(parts: seq<string>, c: char)
    requires |parts| >= 1
    requires forall k :: 0 <= k < |parts| ==> c !in parts[k]
    ensures SplitChar(JoinChar(parts, c), c) == parts
  {
    if |parts| == 1 {
      assert CharIndex(parts[0], c).None?;
    } else {
      SplitJoin(parts[1..], c);
      SplitCons(parts[0], c, JoinChar(parts[1..], c));
      assert parts == [parts[0]] + parts[1..];
    }
  }

  /** The pieces left once trailing empty pieces are removed. */
  function DropTrailingEmpty(parts: seq<string>): (r: seq<string>)
    ensures |r| <= |parts| && r == parts[..|r|]
    ensures r == [] || r[|r| - 1] != ""
    ensures forall k :: |r| <= k < |parts| ==> parts[k] == ""
  {
    if parts != [] && parts[|parts| - 1] == "" then DropTrailingEmpty(parts[..|parts| - 1]) else parts
  }

  /**
   * Java's `s.split(regex)` for a regex matching exactly the character `c`:
   * like the JavaScript split, but trailing empty pieces are dropped; the
   * empty string still gives one empty piece.
   */
  function JavaSplitChar(s: string, c: char): seq<string>
  {
    if s == [] then [""] else DropTrailingEmpty(SplitChar(s, c))
  }

  /** `s.replace(c, '')` for a one-character string: only the first occurrence goes. */
  function RemoveFirstChar(s: string, c: char): (r: string)
    ensures c !in s ==> r == s
    ensures |r| == if c in s then |s| - 1 else |s|
  {
    match CharIndex(s, c)
    case None => s
    case Some(i) => s[..i] + s[i + 1..]
  }

  // ---------------------------------------------------------------------
  // Letters, digits and decimal numbers
  // ---------------------------------------------------------------------

  predicate IsAsciiDigit(c: char) { '0' <= c <= '9' }
  predicate IsAsciiLetter(c: char) { ('a' <= c <= 'z') || ('A' <= c <= 'Z') }

  predicate AllDigits(s: string) { forall i :: 0 <= i < |s| ==> IsAsciiDigit(s[i]) }

  function LowerChar(c: char): (r: char)
    ensures IsAsciiLetter(c) ==> 'a' <= r <= 'z'
    ensures !('A' <= c <= 'Z') ==> r == c
  {
    if 'A' <= c <= 'Z' then (c as int + 32) as char else c
  }

  function UpperChar(c: char): (r: char)
    ensures IsAsciiLetter(c) ==> 'A' <= r <= 'Z'
    ensures !('a' <= c <= 'z') ==> r == c
  {
    if 'a' <= c <= 'z' then (c as int - 32) as char else c
  }

  /** `toLowerCase()` on the ASCII range. */
  function Lower(s: string): (r: string)
    ensures |r| == |s| && forall i :: 0 <= i < |s| ==> r[i] == LowerChar(s[i])
  {
    if s == [] then [] else [LowerChar(s[0])] + Lower(s[1..])
  }

  /** `toUpperCase()` on the ASCII range. */
  function Upper(s: string): (r: string)
    ensures |r| == |s| && forall i :: 0 <= i < |s| ==> r[i] == UpperChar(s[i])
  {
    if s == [] then [] else [UpperChar(s[0])] + Upper(s[1..])
  }

  /** Java's `equalsIgnoreCase` on the ASCII range. */
  predicate EqualsIgnoreCase(a: string, b: string) { Lower(a) == Lower(b) }

  function DigitValue(c: char): (d: nat)
    requires IsAsciiDigit(c)
    ensures d < 10
  {
    c as int - '0' as int
  }

  function DigitChar(d: nat): (c: char)
    requires d < 10
    ensures IsAsciiDigit(c) && DigitValue(c) == d
  {
    ('0' as int + d) as char
  }

  /** The value of a string of decimal digits, most significant first. */
  function DigitsValue(s: string): nat
    requires AllDigits(s)
  {
    if s == [] then 0 else DigitsValue(s[..|s| - 1]) * 10 + DigitValue(s[|s| - 1])
  }

  const IntMin := -0x8000_0000
  const IntMax := 0x7FFF_FFFF
  const LongMin := -0x8000_0000_0000_0000
  const LongMax := 0x7FFF_FFFF_FFFF_FFFF

  /** A Java `int` value. */
  type JavaInt = x: int | IntMin <= x <= IntMax

  const Modulus: int := 0x1_0000_0000
  const LongModulus: int := 0x1_0000_0000_0000_0000

  /** A Java `int` result: the value reduced into [-2^31, 2^31) modulo 2^32. */
  function Wrap32(x: int): (r: int)
    ensures IntMin <= r <= IntMax
    ensures (x - r) % Modulus == 0
    ensures IntMin <= x <= IntMax ==> r == x
  {
    var m := (x + 0x8000_0000) % Modulus;
    assert x - (m - 0x8000_0000) == ((x + 0x8000_0000) / Modulus) * Modulus;
    m - 0x8000_0000
  }

  /** A Java `long` result: the value reduced into [-2^63, 2^63) modulo 2^64. */
  function Wrap64(x: int): (r: int)
    ensures LongMin <= r <= LongMax
    ensures (x - r) % LongModulus == 0
    ensures LongMin <= x <= LongMax ==> r == x
  {
    var m := (x + 0x8000_0000_0000_0000) % LongModulus;
    assert x - (m - 0x8000_0000_0000_0000) == ((x + 0x8000_0000_0000_0000) / LongModulus) * LongModulus;
    m - 0x8000_0000_0000_0000
  }

  /**
   * Java's `Integer.parseInt` / `Long.parseLong` for the range [min, max]:
   * an optional '+' or '-' followed by at least one decimal digit, whose
   * value lies in the range; anything else is a NumberFormatException
   * (None). Only ASCII digits are read.
   */
  function JavaParseInteger(s: string, min: int, max: int): (r: Option<int>)
    ensures r.Some? ==> min <= r.value <= max
    ensures r.Some? ==> |s| >= 1 && (s[0] == '-' || s[0] == '+' || IsAsciiDigit(s[0])) && AllDigits(s[1..])
    ensures AllDigits(s) && s != [] && min <= DigitsValue(s) <= max ==> r == Some(DigitsValue(s))
  {
    if s == [] then None
    else if s[0] == '-' || s[0] == '+' then
      if |s| == 1 || !AllDigits(s[1..]) then None
      else
        var d: int := DigitsValue(s[1..]);
        var v := if s[0] == '-' then 0 - d else d;
        if min <= v <= max then Some(v) else None
    else if AllDigits(s) && min <= DigitsValue(s) <= max then Some(DigitsValue(s))
    else None
  }

  /** Decimal rendering of a natural number, without leading zeros. */
  function NatToString(n: nat): (r: string)
    ensures |r| >= 1 && AllDigits(r)
    ensures n > 0 ==> r[0] != '0'
    ensures n < 10 <==> |r| == 1
  {
    if n < 10 then [DigitChar(n)] else NatToString(n / 10) + [DigitChar(n % 10)]
  }

  lemma {:induction false} NatToStringValue(n: nat)
    ensures DigitsValue(NatToString(n)) == n
  {
    if n >= 10 {
      NatToStringValue(n / 10);
      var s := NatToString(n);
      assert s[..|s| - 1] == NatToString(n / 10);
    }
  }

  /** Decimal rendering of an integer with a leading '-' when negative. */
  function IntToString(n: int): string
  {
    if n < 0 then "-" + NatToString(-n) else NatToString(n)
  }

  /** `n` rendered with at least `width` digits, zero-padded on the left (`%0<width>d`). */
  function PadDigits(n: nat, width: nat): (r: string)
    ensures AllDigits(r) && |r| >= width
    ensures |NatToString(n)| >= width ==> r == NatToString(n)
  {
    var d := NatToString(n);
    if |d| >= width then d else Zeros(width - |d|) + d
  }

  function Zeros(k: nat): (r: string)
    ensures |r| == k && forall i :: 0 <= i < k ==> r[i] == '0'
  {
    if k == 0 then [] else "0" + Zeros(k - 1)
  }

  /** A leading zero does not change the value of a digit string. */
  lemma {:induction false} LeadingZeroValue(s: string)
    requires AllDigits(s)
    ensures AllDigits("0" + s) && DigitsValue("0" + s) == DigitsValue(s)
  {
    if s != [] {
      assert ("0" + s)[..|"0" + s| - 1] == "0" + s[..|s| - 1];
      LeadingZeroValue(s[..|s| - 1]);
    }
  }

  lemma {:induction false} ZerosValue(k: nat, s: string)
    requires AllDigits(s)
    ensures AllDigits(Zeros(k) + s) && DigitsValue(Zeros(k) + s) == DigitsValue(s)
  {
    if k > 0 {
      ZerosValue(k - 1, s);
      assert Zeros(k) + s == "0" + (Zeros(k - 1) + s);
      LeadingZeroValue(Zeros(k - 1) + s);
    } else {
      assert Zeros(k) + s == s;
    }
  }

  /** Zero padding keeps the value: `%0<width>d` reads back as the number. */
  lemma PadDigitsValue(n: nat, width: nat)
    ensures DigitsValue(PadDigits(n, width)) == n
  {
    var d := NatToString(n);
    if |d| < width {
      assert PadDigits(n, width) == Zeros(width - |d|) + d;
      ZerosValue(width - |d|, d);
      NatToStringValue(n);
    } else {
      assert PadDigits(n, width) == d;
      NatToStringValue(n);
    }
  }

  /** A number below 1000 has at most three digits. */
  lemma NatToStringAtMost3(n: nat)
    requires n < 1000
    ensures |NatToString(n)| <= 3
  {
    if n >= 10 {
      assert |NatToString(n / 10)| <= 2 by {
        if n / 10 >= 10 {
          assert |NatToString(n / 100)| == 1;
        }
      }
    }
  }

  // ---------------------------------------------------------------------
  // Sums
  // ---------------------------------------------------------------------

  function Sum(xs: seq<int>): int
  {
    if xs == [] then 0 else Sum(xs[..|xs| - 1]) + xs[|xs| - 1]
  }

  lemma {:induction false} SumAppend(xs: seq<int>, ys: seq<int>)
    ensures Sum(xs + ys) == Sum(xs) + Sum(ys)
    decreases |ys|
  {
    if ys != [] {
      assert (xs + ys)[..|xs + ys| - 1] == xs + ys[..|ys| - 1];
      SumAppend(xs, ys[..|ys| - 1]);
    } else {
      assert xs + ys == xs;
    }
  }

  lemma {:induction false} SumNonNegative(xs: seq<int>)
    requires forall i :: 0 <= i < |xs| ==> xs[i] >= 0
    ensures Sum(xs) >= 0
  {
    if xs != [] { SumNonNegative(xs[..|xs| - 1]); }
  }

  /** `Math.min` and `Math.max` */
  function Min(a: int, b: int): int { if a <= b then a else b }
  function Max(a: int, b: int): int { if a >= b then a else b }

  /**
   * A newest-first history: `x` goes in front and only the first `cap`
   * entries are kept.
   */
  function PrependCapped<T>(x: T, xs: seq<T>, cap: nat): (r: seq<T>)
    requires cap >= 1
    ensures |r| == Min(cap, |xs| + 1)
    ensures r[0] == x
    ensures r[1..] == xs[..|r| - 1]
  {
    var all := [x] + xs;
    if |all| > cap then all[..cap] else all
  }

  /** Past the head, a capped prepend holds the old list shifted by one. */
  lemma PrependCappedAt<T>(x: T, xs: seq<T>, cap: nat, i: nat)
    requires cap >= 1 && 0 < i < |PrependCapped(x, xs, cap)|
    ensures PrependCapped(x, xs, cap)[i] == xs[i - 1]
  {
    var r := PrependCapped(x, xs, cap);
    assert r[1..][i - 1] == r[i];
  }

  /**
   * A list that starts with `earlier` reversed, with the last element of
   * `all` (which extends `earlier` by one) put in front and room left under
   * the cap, starts with `all` reversed.
   */
  lemma PrependCappedReversed<T>(x: T, all: seq<T>, xs: seq<T>, earlier: seq<T>, cap: nat)
    requires |all| == |earlier| + 1 && |all| <= cap && |xs| >= |earlier| && all[|all| - 1] == x
    requires forall k :: 0 <= k < |earlier| ==> all[k] == earlier[k]
    requires forall i :: 0 <= i < |earlier| ==> xs[i] == earlier[|earlier| - 1 - i]
    ensures |PrependCapped(x, xs, cap)| >= |all|
    ensures forall i :: 0 <= i < |all| ==> PrependCapped(x, xs, cap)[i] == all[|all| - 1 - i]
  {
    forall i | 0 < i < |all|
      ensures PrependCapped(x, xs, cap)[i] == all[|all| - 1 - i]
    {
      PrependCappedAt(x, xs, cap, i);
      assert xs[i - 1] == earlier[|earlier| - i];
    }
  }

  /** The list in the opposite order. */
  function Reverse<T>(s: seq<T>): (r: seq<T>)
    ensures |r| == |s| && forall i :: 0 <= i < |s| ==> r[i] == s[|s| - 1 - i]
  {
    if s == [] then [] else Reverse(s[1..]) + [s[0]]
  }

  /**
   * In the newest-first history of `earlier + recent` the first `|recent|`
   * entries, put back oldest first, are exactly `recent`.
   */
  lemma NewestEntries<T>(earlier: seq<T>, recent: seq<T>)
    ensures |recent| <= |Reverse(earlier + recent)|
    ensures Reverse(Reverse(earlier + recent)[..|recent|]) == recent
  {
    ReversePrefix(earlier, recent);
    ReverseTwice(recent);
  }

  /** The newest-first history starts with the recent part, newest first. */
  lemma ReversePrefix<T>(earlier: seq<T>, recent: seq<T>)
    ensures |recent| <= |Reverse(earlier + recent)|
    ensures Reverse(earlier + recent)[..|recent|] == Reverse(recent)
  {
    var all := earlier + recent;
    var h := Reverse(all);
    forall i | 0 <= i < |recent|
      ensures h[i] == Reverse(recent)[i]
    {
      assert all[|all| - 1 - i] == recent[|recent| - 1 - i];
    }
  }

  /** Reversing twice gives the list back. */
  lemma ReverseTwice<T>(s: seq<T>)
    ensures Reverse(Reverse(s)) == s
  {
    forall i | 0 <= i < |s|
      ensures Reverse(Reverse(s))[i] == s[i]
    {
    }
  }

  /** The batches one after the other. */
  function Concat<T>(batches: seq<seq<T>>): (r: seq<T>)
  {
    if batches == [] then [] else batches[0] + Concat(batches[1..])
  }

  /** 2^k */
  function Pow2(k: nat): (r: nat)
    ensures r >= 1
  {
    if k == 0 then 1 else 2 * Pow2(k - 1)
  }

  lemma {:induction false} Pow2Monotone(j: nat, k: nat)
    requires j <= k
    ensures Pow2(j) <= Pow2(k)
    decreases k - j
  {
    if j < k { Pow2Monotone(j, k - 1); }
  }
}
