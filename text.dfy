/** String operations the downloader relies on, written out over `seq<char>`.
    Python's Unicode-aware `str.lower`, `str.isspace`, `\w` and `\d` are
    approximated by their ASCII cases. */
module Text {

  // ---------------------------------------------------------------------------
  // Character classes

  /** `str.isspace` restricted to ASCII: space, \t \n \v \f \r and the four
      separator controls 0x1C..0x1F. */
  predicate IsSpace(c: char) {
    c == ' ' || ('\t' <= c <= '\r') || ('\U{1C}' <= c <= '\U{1F}')
  }

  predicate IsDigit(c: char) { '0' <= c <= '9' }

  predicate IsUpper(c: char) { 'A' <= c <= 'Z' }

  /** The regular-expression class `\w`, ASCII letters, digits and `_`. */
  predicate IsWordChar(c: char) {
    ('a' <= c <= 'z') || IsUpper(c) || IsDigit(c) || c == '_'
  }

  predicate AllDigits(s: string) {
    forall i :: 0 <= i < |s| ==> IsDigit(s[i])
  }

  predicate NoSpace(s: string) {
    forall i :: 0 <= i < |s| ==> !IsSpace(s[i])
  }

  // ---------------------------------------------------------------------------
  // Lower-casing

  function LowerChar(c: char): char {
    if IsUpper(c) then (c as int + 32) as char else c
  }

  function Lower(s: string): (r: string)
    ensures |r| == |s|
    ensures forall i {:trigger r[i]} :: 0 <= i < |s| ==> r[i] == LowerChar(s[i])
  {
    seq(|s|, i requires 0 <= i < |s| => LowerChar(s[i]))
  }

  // ---------------------------------------------------------------------------
  // Prefixes, suffixes, substrings

  predicate IsPrefix(p: string, s: string) {
    |p| <= |s| && s[..|p|] == p
  }

  predicate EndsWith(s: string, p: string) {
    |p| <= |s| && s[|s| - |p|..] == p
  }

  /** Python's `p in s`. */
  predicate Contains(s: string, p: string)
    decreases |s|
  {
    IsPrefix(p, s) || (s != [] && Contains(s[1..], p))
  }

  /** A text lacking one of the characters of `p` does not contain `p`. */
  lemma {:induction false} NotContainsMissingChar(s: string, p: string, c: char)
    requires c in p && c !in s
    ensures !Contains(s, p)
    decreases |s|
  {
    if |p| <= |s| {
      assert c !in s[..|p|];
    }
    if s != [] {
      NotContainsMissingChar(s[1..], p, c);
    }
  }

  /** The length of the leading run of digits. */
  function DigitLen(s: string): (n: nat)
    ensures n <= |s| && AllDigits(s[..n])
    ensures n < |s| ==> !IsDigit(s[n])
    decreases |s|
  {
    if s == [] || !IsDigit(s[0]) then 0
    else
      var n := DigitLen(s[1..]);
      assert s[..n + 1] == [s[0]] + s[1..][..n];
      n + 1
  }

  /** Concatenation is associative; stated once so that proofs can name it. */
  lemma ConcatAssoc<T>(x: seq<T>, y: seq<T>, z: seq<T>)
    ensures (x + y) + z == x + (y + z)
  {
  }

  // ---------------------------------------------------------------------------
  // Stripping

  /** Drops the leading characters that satisfy `drop`. */
  function LStrip(s: string, drop: char -> bool): string
    decreases |s|
  {
    if s != [] && drop(s[0]) then LStrip(s[1..], drop) else s
  }

  /** Drops the trailing characters that satisfy `drop`. */
  function RStrip(s: string, drop: char -> bool): string
    decreases |s|
  {
    if s != [] && drop(s[|s| - 1]) then RStrip(s[..|s| - 1], drop) else s
  }

  /** `LStrip` keeps a suffix, removes only dropped characters, and stops at
      the first character it keeps. */
  lemma {:induction false} LStripSpec(s: string, drop: char -> bool)
    ensures var r := LStrip(s, drop);
            && |r| <= |s| && r == s[|s| - |r|..]
            && (r != [] ==> !drop(r[0]))
            && forall k :: 0 <= k < |s| - |r| ==> drop(s[k])
    decreases |s|
  {
    if s != [] && drop(s[0]) {
      LStripSpec(s[1..], drop);
      var r := LStrip(s, drop);
      forall k | 1 <= k < |s| - |r| ensures drop(s[k]) {
        assert s[k] == s[1..][k - 1];
      }
    }
  }

  /** `RStrip` keeps a prefix, removes only dropped characters, and stops at
      the last character it keeps. */
  lemma {:induction false} RStripSpec(s: string, drop: char -> bool)
    ensures var r := RStrip(s, drop);
            && |r| <= |s| && r == s[..|r|]
            && (r != [] ==> !drop(r[|r| - 1]))
            && forall k :: |r| <= k < |s| ==> drop(s[k])
    decreases |s|
  {
    if s != [] && drop(s[|s| - 1]) {
      RStripSpec(s[..|s| - 1], drop);
    }
  }

  /** Python's `s.strip(chars)` with `drop` the membership test of `chars`. */
  function StripBy(s: string, drop: char -> bool): (r: string)
    ensures r != [] ==> !drop(r[0]) && !drop(r[|r| - 1])
    ensures forall c :: c in r ==> c in s
  {
    var l := LStrip(s, drop);
    LStripSpec(s, drop);
    var r := RStrip(l, drop);
    RStripSpec(l, drop);
    assert forall c :: c in r ==> c in l;
    r
  }

  /** A string whose ends already survive `drop` is left alone. */
  lemma StripByNoop(s: string, drop: char -> bool)
    requires s != [] ==> !drop(s[0]) && !drop(s[|s| - 1])
    ensures StripBy(s, drop) == s
  {
  }

  /** Python's `s.strip()`. */
  function Strip(s: string): string {
    StripBy(s, IsSpace)
  }

  /** Stripping an already stripped string changes nothing. */
  lemma StripIdempotent(s: string)
    ensures Strip(Strip(s)) == Strip(s)
  {
    StripByNoop(Strip(s), IsSpace);
  }

  // ---------------------------------------------------------------------------
  // Splitting on whitespace (Python's `s.split()`)

  /** Length of the maximal whitespace-free prefix. */
  function TokenLen(s: string): (n: nat)
    ensures n <= |s|
    ensures forall k :: 0 <= k < n ==> !IsSpace(s[k])
    ensures n < |s| ==> IsSpace(s[n])
    ensures s != [] && !IsSpace(s[0]) ==> n >= 1
    decreases |s|
  {
    if s == [] || IsSpace(s[0]) then 0 else 1 + TokenLen(s[1..])
  }

  function Split(s: string): (r: seq<string>)
    ensures forall t :: t in r ==> t != [] && NoSpace(t)
    decreases |s|
  {
    if s == [] then []
    else if IsSpace(s[0]) then Split(s[1..])
    else
      var n := TokenLen(s);
      [s[..n]] + Split(s[n..])
  }

  lemma {:induction false} TokenLenOfWord(a: string, rest: string)
    requires NoSpace(a)
    requires rest != [] && IsSpace(rest[0])
    ensures TokenLen(a + rest) == |a|
    decreases |a|
  {
    if a != [] {
      assert (a + rest)[1..] == a[1..] + rest;
      TokenLenOfWord(a[1..], rest);
    } else {
      assert a + rest == rest;
    }
  }

  /** A whitespace-free word followed by a space is the first token. */
  lemma SplitWord(a: string, rest: string)
    requires a != [] && NoSpace(a)
    ensures Split(a + " " + rest) == [a] + Split(rest)
  {
    var s := a + " " + rest;
    TokenLenOfWord(a, " " + rest);
    assert a + (" " + rest) == s;
    assert s[..|a|] == a;
    assert s[|a|..] == " " + rest;
    assert (" " + rest)[1..] == rest;
  }

  // ---------------------------------------------------------------------------
  // Replacement (Python's `s.replace(p, "")`)

  /** Removes the non-overlapping occurrences of `p`, scanning left to right
      once; a new occurrence formed by a removal is not removed again. */
  function RemoveAll(s: string, p: string): (r: string)
    requires p != []
    ensures |r| <= |s|
    ensures forall c :: c in r ==> c in s
    decreases |s|
  {
    if s == [] then []
    else if IsPrefix(p, s) then
      var t := RemoveAll(s[|p|..], p);
      assert forall c :: c in s[|p|..] ==> c in s;
      t
    else
      var t := RemoveAll(s[1..], p);
      assert forall c :: c in s[1..] ==> c in s;
      [s[0]] + t
  }

  lemma {:induction false} RemoveAllAbsent(s: string, p: string)
    requires p != [] && !Contains(s, p)
    ensures RemoveAll(s, p) == s
    decreases |s|
  {
    if s != [] {
      RemoveAllAbsent(s[1..], p);
    }
  }

  lemma RemoveAllLeading(p: string, s: string)
    requires p != []
    ensures RemoveAll(p + s, p) == RemoveAll(s, p)
  {
    assert IsPrefix(p, p + s);
    assert (p + s)[|p|..] == s;
  }

  // ---------------------------------------------------------------------------
  // Decimal rendering (Python's `str(n)` and `f"{n:,}"`)

  function DigitChar(d: nat): (c: char)
    requires d < 10
    ensures IsDigit(c)
  {
    ('0' as int + d) as char
  }

  function NatToString(n: nat): (r: string)
    ensures r != [] && AllDigits(r)
  {
    if n < 10 then [DigitChar(n)] else NatToString(n / 10) + [DigitChar(n % 10)]
  }

  function IntToString(i: int): (r: string)
    ensures r != [] && forall k :: 0 <= k < |r| ==> IsDigit(r[k]) || r[k] == '-'
  {
    if i < 0 then "-" + NatToString(-i) else NatToString(i)
  }

  /** The number a string of decimal digits denotes. */
  function DigitsValue(s: string): nat
    requires AllDigits(s)
  {
    if s == [] then 0 else 10 * DigitsValue(s[..|s| - 1]) + (s[|s| - 1] as int - '0' as int)
  }

  /** Rendering a number in decimal and reading it back gives the number. */
  lemma {:induction false} NatToStringRoundTrip(n: nat)
    ensures DigitsValue(NatToString(n)) == n
  {
    if n >= 10 {
      NatToStringRoundTrip(n / 10);
      var s := NatToString(n);
      assert s[..|s| - 1] == NatToString(n / 10);
    }
  }

  /** Three digits, zero padded. */
  function Pad3(r: nat): string
    requires r < 1000
  {
    [DigitChar(r / 100), DigitChar(r / 10 % 10), DigitChar(r % 10)]
  }

  /** `f"{n:,}"`: decimal with a comma between groups of three digits. */
  function Grouped(n: nat): string {
    if n < 1000 then NatToString(n) else Grouped(n / 1000) + "," + Pad3(n % 1000)
  }

  /** Deletes every occurrence of `c`. */
  function Without(s: string, c: char): (r: string)
    ensures c !in r
  {
    if s == [] then [] else (if s[0] == c then [] else [s[0]]) + Without(s[1..], c)
  }

  lemma {:induction false} WithoutAppend(a: string, b: string, c: char)
    ensures Without(a + b, c) == Without(a, c) + Without(b, c)
    decreases |a|
  {
    if a == [] {
      assert a + b == b;
    } else {
      assert (a + b)[1..] == a[1..] + b;
      WithoutAppend(a[1..], b, c);
    }
  }

  lemma {:induction false} WithoutNoOccurrence(s: string, c: char)
    requires c !in s
    ensures Without(s, c) == s
    decreases |s|
  {
    if s != [] {
      WithoutNoOccurrence(s[1..], c);
    }
  }

  lemma NatToStringSplit3(q: nat, r: nat)
    requires q >= 1 && r < 1000
    ensures NatToString(1000 * q + r) == NatToString(q) + Pad3(r)
  {
    var n := 1000 * q + r;
    assert n / 10 == 100 * q + r / 10 && n % 10 == r % 10;
    assert n / 10 / 10 == 10 * q + r / 100 && n / 10 % 10 == r / 10 % 10;
    assert n / 10 / 10 / 10 == q && n / 10 / 10 % 10 == r / 100;
    assert NatToString(n) == NatToString(n / 10) + [DigitChar(r % 10)];
    assert NatToString(n / 10) == NatToString(n / 10 / 10) + [DigitChar(r / 10 % 10)];
    assert NatToString(n / 10 / 10) == NatToString(q) + [DigitChar(r / 100)];
  }

  /** Deleting the thousands separators gives the plain decimal rendering. */
  lemma {:induction false} GroupedDigits(n: nat)
    ensures Without(Grouped(n), ',') == NatToString(n)
  {
    if n < 1000 {
      WithoutNoOccurrence(NatToString(n), ',');
    } else {
      var q, r := n / 1000, n % 1000;
      GroupedDigits(q);
      WithoutAppend(Grouped(q) + ",", Pad3(r), ',');
      WithoutAppend(Grouped(q), ",", ',');
      WithoutNoOccurrence(Pad3(r), ',');
      assert Without(",", ',') == [];
      NatToStringSplit3(q, r);
      assert n == 1000 * q + r;
    }
  }
}
