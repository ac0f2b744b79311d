/**
 * The pieces of Go's `strings` and `strconv` packages the engine relies on:
 * lower-casing, splitting into whitespace-separated fields, joining with a
 * single space, trimming, decimal conversion of integers, and `len` of a
 * string, which counts UTF-8 bytes.
 */
module Text {

  /** Go's `unicode.IsSpace`: the Unicode White_Space characters. */
  predicate IsSpace(c: char) {
    || c == ' '
    || '\t' <= c <= '\r'
    || c == '\U{0085}' || c == '\U{00A0}' || c == '\U{1680}'
    || '\U{2000}' <= c <= '\U{200A}'
    || c == '\U{2028}' || c == '\U{2029}' || c == '\U{202F}' || c == '\U{205F}'
    || c == '\U{3000}'
  }

  predicate IsUpper(c: char) {
    'A' <= c <= 'Z'
  }

  /** No character of `s` is an upper-case letter. */
  predicate NoUpper(s: string) {
    forall i :: 0 <= i < |s| ==> !IsUpper(s[i])
  }

  /** No character of `s` is white space. */
  predicate NoSpace(s: string) {
    forall i :: 0 <= i < |s| ==> !IsSpace(s[i])
  }

  function LowerChar(c: char): (r: char)
    ensures !IsUpper(r)
    ensures IsSpace(r) <==> IsSpace(c)
  {
    if IsUpper(c) then (c as int + 32) as char else c
  }

  /** `strings.ToLower`, for the letters A to Z. */
  function Lower(s: string): (r: string)
    ensures |r| == |s|
    ensures NoUpper(r)
  {
    seq(|s|, i requires 0 <= i < |s| => LowerChar(s[i]))
  }

  /** `s` with its leading white space removed. */
  function TrimLeft(s: string): (r: string)
    ensures |r| <= |s| && r == s[|s| - |r|..]
    ensures r == [] || !IsSpace(r[0])
    ensures forall i :: 0 <= i < |s| - |r| ==> IsSpace(s[i])
  {
    if s != [] && IsSpace(s[0]) then TrimLeft(s[1..]) else s
  }

  /** `s` with its trailing white space removed. */
  function TrimRight(s: string): (r: string)
    ensures |r| <= |s| && r == s[..|r|]
    ensures r == [] || !IsSpace(r[|r| - 1])
    ensures forall i :: |r| <= i < |s| ==> IsSpace(s[i])
  {
    if s != [] && IsSpace(s[|s| - 1]) then TrimRight(s[..|s| - 1]) else s
  }

  /** `strings.TrimSpace`. */
  function TrimSpace(s: string): string {
    TrimRight(TrimLeft(s))
  }

  /** The length of the longest prefix of `s` without white space. */
  function WordLength(s: string): (n: nat)
    ensures n <= |s|
    ensures NoSpace(s[..n])
    ensures n < |s| ==> IsSpace(s[n])
    ensures s != [] && !IsSpace(s[0]) ==> n > 0
  {
    if s == [] || IsSpace(s[0]) then 0 else 1 + WordLength(s[1..])
  }

  /** A field: non-empty, without white space. */
  predicate IsWord(w: string) {
    w != [] && NoSpace(w)
  }

  /** `strings.Fields`: the maximal runs of non-space characters, in order. */
  function Fields(s: string): (ws: seq<string>)
    ensures s == [] ==> ws == []
    decreases |s|
  {
    var t := TrimLeft(s);
    if t == [] then []
    else
      var n := WordLength(t);
      [t[..n]] + Fields(t[n..])
  }

  /** Every field is non-empty and holds no white space. */
  lemma {:induction false} FieldsAreWords(s: string)
    ensures forall k :: 0 <= k < |Fields(s)| ==> IsWord(Fields(s)[k])
    decreases |s|
  {
    var t := TrimLeft(s);
    if t != [] {
      var n := WordLength(t);
      var rest := Fields(t[n..]);
      FieldsAreWords(t[n..]);
      assert Fields(s) == [t[..n]] + rest;
      assert IsWord(t[..n]);
      forall k | 0 <= k < |Fields(s)| ensures IsWord(Fields(s)[k]) {
        if k > 0 {
          assert Fields(s)[k] == rest[k - 1];
        }
      }
    }
  }

  /** `strings.Join(ws, " ")`. */
  function Join(ws: seq<string>): string {
    if |ws| == 0 then ""
    else if |ws| == 1 then ws[0]
    else ws[0] + " " + Join(ws[1..])
  }

  /** Splitting finds no field exactly when the text is all white space. */
  lemma {:induction false} FieldsEmpty(s: string)
    ensures Fields(s) == [] <==> forall i :: 0 <= i < |s| ==> IsSpace(s[i])
  {
    var t := TrimLeft(s);
    if t != [] {
      assert s[|s| - |t|] == t[0];
    }
  }

  /** Every slice of text without upper-case letters is without them too. */
  lemma NoUpperSlice(s: string, i: nat, j: nat)
    requires NoUpper(s) && i <= j <= |s|
    ensures NoUpper(s[i..j])
  {
    forall k | 0 <= k < j - i ensures !IsUpper(s[i..j][k]) {
      assert s[i..j][k] == s[i + k];
    }
  }

  /** Splitting text without upper-case letters yields fields without them. */
  lemma {:induction false} FieldsNoUpper(s: string)
    requires NoUpper(s)
    ensures forall w :: w in Fields(s) ==> NoUpper(w)
    decreases |s|
  {
    var t := TrimLeft(s);
    if t != [] {
      var n := WordLength(t);
      NoUpperSlice(s, |s| - |t|, |s|);
      NoUpperSlice(t, 0, n);
      NoUpperSlice(t, n, |t|);
      var rest := Fields(t[n..]);
      FieldsNoUpper(t[n..]);
      assert Fields(s) == [t[..n]] + rest;
      forall w | w in Fields(s) ensures NoUpper(w) {
        if w != t[..n] {
          assert w in rest;
        }
      }
    }
  }

  /** Joining words without upper-case letters gives text without them. */
  lemma {:induction false} JoinNoUpper(ws: seq<string>)
    requires forall k :: 0 <= k < |ws| ==> NoUpper(ws[k])
    ensures NoUpper(Join(ws))
  {
    if |ws| > 1 {
      JoinNoUpper(ws[1..]);
      var rest := Join(ws[1..]);
      var j := ws[0] + " " + rest;
      forall i | 0 <= i < |j| ensures !IsUpper(j[i]) {
        if i < |ws[0]| {
          assert j[i] == ws[0][i];
        } else if i > |ws[0]| {
          assert j[i] == rest[i - |ws[0]| - 1];
        }
      }
    }
  }

  /** A single word joins to itself; a space separates a word from the rest. */
  lemma JoinCons(w: string, ws: seq<string>)
    requires ws != []
    ensures Join([w] + ws) == w + " " + Join(ws)
  {
    assert ([w] + ws)[1..] == ws;
  }

  //
  // Byte length: Go's len on a string counts its UTF-8 bytes
  //

  /** The number of bytes UTF-8 takes for `c`, by code point range. */
  function RuneLen(c: char): (n: nat)
    ensures 1 <= n <= 4
    ensures n == 1 <==> c as int < 0x80
  {
    if c as int < 0x80 then 1
    else if c as int < 0x800 then 2
    else if c as int < 0x1_0000 then 3
    else 4
  }

  /** `len(s)` for the UTF-8 encoding of `s`. */
  function Utf8Len(s: string): (n: nat)
    ensures |s| <= n <= 4 * |s|
  {
    if s == [] then 0 else RuneLen(s[0]) + Utf8Len(s[1..])
  }

  /** The byte length is the character count exactly when every character is ASCII. */
  lemma {:induction false} Utf8LenAscii(s: string)
    ensures Utf8Len(s) == |s| <==> forall i :: 0 <= i < |s| ==> s[i] as int < 0x80
  {
    if s != [] {
      Utf8LenAscii(s[1..]);
      if forall i :: 0 <= i < |s| ==> s[i] as int < 0x80 {
        assert forall i :: 0 <= i < |s[1..]| ==> s[1..][i] as int < 0x80 by {
          forall i | 0 <= i < |s[1..]| ensures s[1..][i] as int < 0x80 {
            assert s[1..][i] == s[i + 1];
          }
        }
      } else {
        var k :| 0 <= k < |s| && s[k] as int >= 0x80;
        if k > 0 {
          assert s[1..][k - 1] == s[k];
        }
      }
    }
  }

  //
  // Decimal conversion: strconv.Itoa and strconv.Atoi
  //

  const MinInt64: int := -0x8000_0000_0000_0000
  const MaxInt64: int := 0x7FFF_FFFF_FFFF_FFFF

  predicate IsDigit(c: char) {
    '0' <= c <= '9'
  }

  predicate AllDigits(s: string) {
    forall i :: 0 <= i < |s| ==> IsDigit(s[i])
  }

  function DigitChar(d: nat): (c: char)
    requires d < 10
    ensures IsDigit(c)
  {
    ('0' as int + d) as char
  }

  function DigitValue(c: char): (d: nat)
    requires IsDigit(c)
    ensures d < 10
  {
    c as int - '0' as int
  }

  /** The decimal digits of `n`, most significant first, without leading zeros. */
  function NatString(n: nat): (s: string)
    ensures s != [] && AllDigits(s)
  {
    if n < 10 then [DigitChar(n)] else NatString(n / 10) + [DigitChar(n % 10)]
  }

  /** The number a non-empty digit string stands for. */
  function DigitsValue(s: string): nat
    requires AllDigits(s)
  {
    if s == [] then 0 else DigitsValue(s[..|s| - 1]) * 10 + DigitValue(s[|s| - 1])
  }

  /** `strconv.Itoa`. */
  function Itoa(n: int): (s: string)
    ensures s != []
  {
    if n < 0 then "-" + NatString(-n) else NatString(n)
  }

  /** The value `strconv.ParseInt` reports for an out-of-range decimal. */
  function Clamp64(v: int): (r: int)
    ensures MinInt64 <= r <= MaxInt64
    ensures MinInt64 <= v <= MaxInt64 ==> r == v
  {
    if v < MinInt64 then MinInt64 else if v > MaxInt64 then MaxInt64 else v
  }

  const MaxUint64: int := 0xFFFF_FFFF_FFFF_FFFF

  /** The leading run of decimal digits of `s`. */
  function LeadingDigits(s: string): (p: string)
    ensures p <= s && AllDigits(p)
    ensures p == s || !IsDigit(s[|p|])
  {
    if s == [] || !IsDigit(s[0]) then [] else [s[0]] + LeadingDigits(s[1..])
  }

  /**
   * `strconv.Atoi` with its error discarded (`i, _ := strconv.Atoi(s)`).
   * After an optional sign, the digits are read left to right. A non-digit
   * met before the value overflows 64 unsigned bits is a syntax error and
   * gives 0, and so does an empty digit part. Once the value overflows,
   * `ParseUint` stops with a range error whatever follows, and `ParseInt`
   * clamps it to 64 bits; an in-range value is clamped the same way.
   */
  function Atoi(s: string): (n: int)
    ensures MinInt64 <= n <= MaxInt64
    ensures s == [] ==> n == 0
  {
    var signed := |s| > 0 && (s[0] == '+' || s[0] == '-');
    var digits := if signed then s[1..] else s;
    var run := LeadingDigits(digits);
    if digits == [] || (run != digits && DigitsValue(run) <= MaxUint64) then 0
    else if signed && s[0] == '-' then Clamp64(-(DigitsValue(run) as int))
    else Clamp64(DigitsValue(run))
  }

  /** The leading digit run of a digit string is all of it. */
  lemma {:induction false} LeadingDigitsAll(d: string)
    requires AllDigits(d)
    ensures LeadingDigits(d) == d
  {
    if d != [] {
      LeadingDigitsAll(d[1..]);
      assert [d[0]] + d[1..] == d;
    }
  }

  /** The leading digit run stops at the first non-digit. */
  lemma {:induction false} LeadingDigitsStop(d: string, c: char, rest: string)
    requires AllDigits(d) && !IsDigit(c)
    ensures LeadingDigits(d + [c] + rest) == d
  {
    if d != [] {
      LeadingDigitsStop(d[1..], c, rest);
      assert (d + [c] + rest)[1..] == d[1..] + [c] + rest;
      assert [d[0]] + d[1..] == d;
    }
  }

  /** A text starting with a digit reads through its leading digit run, with or without a minus sign. */
  lemma AtoiRun(u: string)
    requires u != [] && IsDigit(u[0])
    ensures var run := LeadingDigits(u);
      Atoi(u) == if run != u && DigitsValue(run) <= MaxUint64 then 0 else Clamp64(DigitsValue(run))
    ensures var run := LeadingDigits(u);
      Atoi("-" + u) == if run != u && DigitsValue(run) <= MaxUint64 then 0 else Clamp64(-(DigitsValue(run) as int))
  {
    assert !IsDigit('+') && !IsDigit('-');
    var m := "-" + u;
    assert m[0] == '-' && m[1..] == u;
  }

  /**
   * A non-digit after digits that still fit in 64 unsigned bits is a syntax
   * error: the result is 0, with or without a minus sign.
   */
  lemma AtoiTrailingJunk(d: string, c: char, rest: string)
    requires d != [] && AllDigits(d) && !IsDigit(c) && DigitsValue(d) <= MaxUint64
    ensures Atoi(d + [c] + rest) == 0
    ensures Atoi("-" + (d + [c] + rest)) == 0
  {
    var u := d + [c] + rest;
    LeadingDigitsStop(d, c, rest);
    assert u[0] == d[0];
    assert |u| > |d|;
    AtoiRun(u);
  }

  /**
   * Digits that overflow 64 unsigned bits give the clamped extreme, whatever
   * follows them: `ParseUint` reports the range error before it reaches a
   * later non-digit.
   */
  lemma AtoiOverflow(d: string, c: char, rest: string)
    requires AllDigits(d) && !IsDigit(c) && DigitsValue(d) > MaxUint64
    ensures Atoi(d + [c] + rest) == MaxInt64
    ensures Atoi("-" + (d + [c] + rest)) == MinInt64
  {
    var u := d + [c] + rest;
    LeadingDigitsStop(d, c, rest);
    assert d != [];
    assert u[0] == d[0];
    AtoiRun(u);
  }

  lemma {:induction false} DigitsValueNatString(n: nat)
    ensures DigitsValue(NatString(n)) == n
  {
    if n >= 10 {
      var s := NatString(n);
      assert s[..|s| - 1] == NatString(n / 10);
      DigitsValueNatString(n / 10);
    }
  }

  /** A digit string reads as its value, and with a minus sign as its negation, clamped to 64 bits. */
  lemma AtoiDigits(d: string)
    requires d != [] && AllDigits(d)
    ensures Atoi(d) == Clamp64(DigitsValue(d))
    ensures Atoi("-" + d) == Clamp64(-(DigitsValue(d) as int))
  {
    LeadingDigitsAll(d);
    assert !IsDigit('+') && !IsDigit('-');
    assert d[0] != '+' && d[0] != '-';
    var m := "-" + d;
    assert m[0] == '-' && m[1..] == d;
  }

  /** Converting a 64-bit integer to decimal and back gives it back. */
  lemma AtoiItoa(n: int)
    requires MinInt64 <= n <= MaxInt64
    ensures Atoi(Itoa(n)) == n
  {
    if n < 0 {
      DigitsValueNatString(-n);
      AtoiDigits(NatString(-n));
    } else {
      DigitsValueNatString(n);
      AtoiDigits(NatString(n));
    }
  }

  /** Distinct integers have distinct decimal forms. */
  lemma ItoaInjective(a: int, b: int)
    requires MinInt64 <= a <= MaxInt64 && MinInt64 <= b <= MaxInt64
    requires Itoa(a) == Itoa(b)
    ensures a == b
  {
    AtoiItoa(a);
    AtoiItoa(b);
  }
}
