/**
 * UTF-16 strings as JavaScript holds them: sequences of 16-bit code units,
 * read one Unicode code point at a time in the manner of `String.prototype.codePointAt`
 * (surrogate-pair decoding as in section 2.2 of RFC 2781).
 */
module Utf16 {

  /** One 16-bit code unit. */
  type CodeUnit = u: int | 0 <= u < 0x1_0000

  predicate IsHighSurrogate(u: int) { 0xD800 <= u <= 0xDBFF }

  predicate IsLowSurrogate(u: int) { 0xDC00 <= u <= 0xDFFF }

  /** True when the units at `i` and `i + 1` form a surrogate pair. */
  predicate StartsPair(s: seq<CodeUnit>, i: nat)
  {
    i + 1 < |s| && IsHighSurrogate(s[i]) && IsLowSurrogate(s[i + 1])
  }

  /**
   * The code point starting at unit `i`: a high surrogate followed by a low surrogate
   * decodes to one supplementary code point, anything else (a lone surrogate included)
   * is the unit itself.
   */
  function CodePointAt(s: seq<CodeUnit>, i: nat): (cp: int)
    requires i < |s|
    ensures 0 <= cp <= 0x10FFFF
    ensures cp > 0xFFFF <==> StartsPair(s, i)
    ensures !StartsPair(s, i) ==> cp == s[i]
  {
    if StartsPair(s, i) then
      (s[i] as int - 0xD800) * 0x400 + (s[i + 1] as int - 0xDC00) + 0x1_0000
    else
      s[i]
  }

  /**
   * How far a cursor at `i` moves to pass one code point: two units when the code point
   * there is above 0xFFFF, one otherwise. A step covers a whole surrogate pair or a single
   * unit, so it never splits a pair and never leaves the string.
   */
  function Width(s: seq<CodeUnit>, i: nat): (w: nat)
    requires i < |s|
    ensures w == 1 || w == 2
    ensures w == 2 <==> StartsPair(s, i)
    ensures i + w <= |s|
  {
    if CodePointAt(s, i) > 0xFFFF then 2 else 1
  }

  /** Equal code points under two cursors are spelt with the same units: decoding a pair is injective. */
  lemma SameCodePointSameUnits(a: seq<CodeUnit>, i: nat, b: seq<CodeUnit>, j: nat)
    requires i < |a| && j < |b|
    requires CodePointAt(a, i) == CodePointAt(b, j)
    ensures Width(a, i) == Width(b, j)
    ensures a[i..i + Width(a, i)] == b[j..j + Width(b, j)]
  {
    if StartsPair(a, i) {
      assert a[i] == b[j] && a[i + 1] == b[j + 1];
      assert a[i..i + 2] == [a[i], a[i + 1]];
      assert b[j..j + 2] == [b[j], b[j + 1]];
    } else {
      assert a[i..i + 1] == [a[i]];
      assert b[j..j + 1] == [b[j]];
    }
  }

  /** The code points of `s` from unit `i` on, as a cursor stepping by `Width` visits them. */
  function DecodeFrom(s: seq<CodeUnit>, i: nat): (cps: seq<int>)
    requires i <= |s|
    ensures |cps| <= |s| - i
    ensures cps == [] <==> i == |s|
    decreases |s| - i
  {
    if i == |s| then [] else [CodePointAt(s, i)] + DecodeFrom(s, i + Width(s, i))
  }

  /** Passing one more code point moves it from what is left to what was passed. */
  lemma DecodeAdvance(s: seq<CodeUnit>, start: nat, i: nat, next: nat, passed: seq<int>)
    requires start <= i < |s|
    requires next == i + Width(s, i)
    requires DecodeFrom(s, start) == passed + DecodeFrom(s, i)
    ensures DecodeFrom(s, start) == (passed + [CodePointAt(s, i)]) + DecodeFrom(s, next)
  {
    assert DecodeFrom(s, i) == [CodePointAt(s, i)] + DecodeFrom(s, next);
  }

  /** Without high surrogates every unit is a code point of its own. */
  lemma {:induction false} DecodeWithoutSurrogates(s: seq<CodeUnit>, i: nat)
    requires i <= |s|
    requires forall k :: i <= k < |s| ==> !IsHighSurrogate(s[k])
    ensures DecodeFrom(s, i) == s[i..]
    decreases |s| - i
  {
    if i < |s| {
      DecodeWithoutSurrogates(s, i + 1);
      assert s[i..] == [s[i]] + s[i + 1..];
    }
  }

  /** The whole string as a sequence of code points. */
  function Decode(s: seq<CodeUnit>): seq<int>
  {
    DecodeFrom(s, 0)
  }

  /** A Unicode scalar value: a code point that is not a surrogate. */
  predicate IsScalarValue(cp: int)
  {
    0 <= cp <= 0x10FFFF && !(0xD800 <= cp <= 0xDFFF)
  }

  /** The UTF-16 encoding of one scalar value (section 2.1 of RFC 2781). */
  function EncodeScalar(cp: int): (units: seq<CodeUnit>)
    requires IsScalarValue(cp)
    ensures |units| == if cp > 0xFFFF then 2 else 1
  {
    if cp <= 0xFFFF then [cp]
    else
      var v := cp - 0x1_0000;
      [0xD800 + v / 0x400, 0xDC00 + v % 0x400]
  }

  function Encode(cps: seq<int>): seq<CodeUnit>
    requires forall k :: 0 <= k < |cps| ==> IsScalarValue(cps[k])
  {
    if cps == [] then [] else EncodeScalar(cps[0]) + Encode(cps[1..])
  }

  /** Decoding only looks forward, so a prefix in front of the cursor does not matter. */
  lemma {:induction false} DecodeFromShift(p: seq<CodeUnit>, s: seq<CodeUnit>, i: nat)
    requires i <= |s|
    ensures DecodeFrom(p + s, |p| + i) == DecodeFrom(s, i)
    decreases |s| - i
  {
    if i < |s| {
      assert (p + s)[|p| + i] == s[i];
      assert StartsPair(p + s, |p| + i) <==> StartsPair(s, i) by {
        if i + 1 < |s| { assert (p + s)[|p| + i + 1] == s[i + 1]; }
      }
      DecodeFromShift(p, s, i + Width(s, i));
    }
  }

  /** One encoded scalar value is read back as exactly that code point, covering all its units. */
  lemma DecodeEncodeScalar(cp: int, rest: seq<CodeUnit>)
    requires IsScalarValue(cp)
    ensures CodePointAt(EncodeScalar(cp) + rest, 0) == cp
    ensures Width(EncodeScalar(cp) + rest, 0) == |EncodeScalar(cp)|
  {
    var s := EncodeScalar(cp) + rest;
    if cp > 0xFFFF {
      var v := cp - 0x1_0000;
      assert s[0] == 0xD800 + v / 0x400 && s[1] == 0xDC00 + v % 0x400;
      assert StartsPair(s, 0);
    } else {
      assert s[0] == cp;
    }
  }

  /** Round trip: decoding the UTF-16 encoding of scalar values gives them back. */
  lemma {:induction false} DecodeEncode(cps: seq<int>)
    requires forall k :: 0 <= k < |cps| ==> IsScalarValue(cps[k])
    ensures Decode(Encode(cps)) == cps
  {
    if cps != [] {
      var head := EncodeScalar(cps[0]);
      var tail := Encode(cps[1..]);
      DecodeEncodeScalar(cps[0], tail);
      DecodeFromShift(head, tail, 0);
      DecodeEncode(cps[1..]);
      assert Decode(Encode(cps)) == [cps[0]] + Decode(tail);
    }
  }
}
