/**
 * The byte-level view of Rust's `str` that the notification summary needs:
 * well-formed UTF-8 (the byte sequences of section 4 of RFC 3629), the
 * positions where a `str` may be sliced, and the rounding of a position down
 * to the nearest such position.
 */
module Utf8 {
  import opened Common

  /** A continuation byte, `10xxxxxx`. */
  predicate IsContinuation(b: u8) {
    0x80 <= b < 0xC0
  }

  /** Whether `i` is a valid slicing position of the text `s`, as `str::is_char_boundary`. */
  predicate IsCharBoundary(s: seq<u8>, i: nat)
    ensures IsCharBoundary(s, i) ==> i <= |s|
  {
    i == 0 || i == |s| || (i < |s| && !IsContinuation(s[i]))
  }

  /** The largest slicing position of `s` not after `i`, as `str::floor_char_boundary`. */
  function FloorCharBoundary(s: seq<u8>, i: nat): (k: nat)
    requires i <= |s|
    ensures k <= i && IsCharBoundary(s, k)
    ensures forall j :: k < j <= i ==> !IsCharBoundary(s, j)
  {
    if IsCharBoundary(s, i) then i else FloorCharBoundary(s, i - 1)
  }

  /** The length of the character a lead byte starts, or 0 for a byte no character starts with. */
  function CharWidth(lead: u8): (n: nat)
    ensures n <= 4
    ensures n > 0 ==> !IsContinuation(lead)
  {
    if lead < 0x80 then 1
    else if 0xC2 <= lead <= 0xDF then 2
    else if 0xE0 <= lead <= 0xEF then 3
    else if 0xF0 <= lead <= 0xF4 then 4
    else 0
  }

  /** The range the second byte of a multi-byte character must lie in, which excludes overlong forms, surrogates and values past U+10FFFF. */
  predicate SecondByteOk(lead: u8, b: u8) {
    if lead == 0xE0 then 0xA0 <= b <= 0xBF
    else if lead == 0xED then 0x80 <= b <= 0x9F
    else if lead == 0xF0 then 0x90 <= b <= 0xBF
    else if lead == 0xF4 then 0x80 <= b <= 0x8F
    else IsContinuation(b)
  }

  /** One well-formed character: a valid lead byte, then its continuation bytes. */
  predicate WellFormedChar(c: seq<u8>) {
    && |c| > 0
    && CharWidth(c[0]) == |c|
    && (|c| > 1 ==> SecondByteOk(c[0], c[1]))
    && (forall i :: 1 <= i < |c| ==> IsContinuation(c[i]))
  }

  /** Well-formed UTF-8: a sequence of well-formed characters. */
  predicate ValidUtf8(s: seq<u8>)
    decreases |s|
  {
    |s| == 0 ||
    (var n := CharWidth(s[0]);
     0 < n <= |s| && WellFormedChar(s[..n]) && ValidUtf8(s[n..]))
  }

  /** Whether a character of the UTF-8 text `s` starts at `i`, or `i` is its end. */
  predicate StartsChar(s: seq<u8>, i: nat)
    requires ValidUtf8(s)
    ensures i == 0 || i == |s| ==> StartsChar(s, i)
    decreases |s|
  {
    i == 0 || (0 < |s| && CharWidth(s[0]) <= i && StartsChar(s[CharWidth(s[0])..], i - CharWidth(s[0])))
  }

  /** Inside the first character of UTF-8 text every byte after the lead is a continuation byte. */
  lemma InsideFirstChar(s: seq<u8>, i: nat)
    requires ValidUtf8(s) && 0 < |s| && 0 < i < CharWidth(s[0])
    ensures IsContinuation(s[i])
  {
    var c := s[..CharWidth(s[0])];
    assert s[i] == c[i];
  }

  /** In UTF-8 text the slicing positions are exactly where characters start, and the end. */
  lemma {:induction false} BoundaryIffCharStart(s: seq<u8>, i: nat)
    requires ValidUtf8(s) && i <= |s|
    ensures IsCharBoundary(s, i) <==> StartsChar(s, i)
    decreases |s|
  {
    if |s| > 0 && i > 0 {
      var n := CharWidth(s[0]);
      var t := s[n..];
      assert 0 < n <= |s| && ValidUtf8(t);
      if i < n {
        InsideFirstChar(s, i);
      } else {
        BoundaryIffCharStart(t, i - n);
        BoundaryOfSuffix(s, n, i);
      }
    }
  }

  /** Past a cut at `n`, slicing positions of the text are those of its suffix, shifted. */
  lemma BoundaryOfSuffix(s: seq<u8>, n: nat, i: nat)
    requires 0 < n <= i <= |s| && ValidUtf8(s[n..])
    ensures IsCharBoundary(s, i) <==> IsCharBoundary(s[n..], i - n)
  {
    if i < |s| {
      assert s[i] == s[n..][i - n];
    }
  }

  /** ASCII text is UTF-8. */
  lemma {:induction false} AsciiIsValid(s: seq<u8>)
    requires forall i :: 0 <= i < |s| ==> s[i] < 0x80
    ensures ValidUtf8(s)
    decreases |s|
  {
    if |s| > 0 {
      AsciiIsValid(s[1..]);
    }
  }

  /** Two UTF-8 texts one after the other are UTF-8. */
  lemma {:induction false} ConcatIsValid(a: seq<u8>, b: seq<u8>)
    requires ValidUtf8(a) && ValidUtf8(b)
    ensures ValidUtf8(a + b)
    decreases |a|
  {
    if |a| == 0 {
      assert a + b == b;
    } else {
      var n := CharWidth(a[0]);
      assert 0 < n <= |a| && WellFormedChar(a[..n]) && ValidUtf8(a[n..]);
      ConcatIsValid(a[n..], b);
      assert a + b == a[..n] + (a[n..] + b);
      CharThenValid(a[..n], a[n..] + b);
    }
  }

  /** A well-formed character followed by UTF-8 text is UTF-8. */
  lemma CharThenValid(c: seq<u8>, rest: seq<u8>)
    requires WellFormedChar(c) && ValidUtf8(rest)
    ensures ValidUtf8(c + rest)
  {
    var s := c + rest;
    assert s[0] == c[0];
    assert s[..|c|] == c;
    assert s[|c|..] == rest;
  }

  /** Slicing UTF-8 at a character boundary leaves UTF-8, as the `str` slicing rule promises. */
  lemma {:induction false} BoundaryPrefixIsValid(s: seq<u8>, k: nat)
    requires ValidUtf8(s) && k <= |s| && IsCharBoundary(s, k)
    ensures ValidUtf8(s[..k])
    decreases |s|
  {
    if k > 0 {
      var n := CharWidth(s[0]);
      assert n <= k;
      assert IsCharBoundary(s[n..], k - n);
      BoundaryPrefixIsValid(s[n..], k - n);
      assert s[..k][..n] == s[..n];
      assert s[..k][n..] == s[n..][..k - n];
    }
  }

  /** In UTF-8 at most three continuation bytes follow one another, so a boundary lies within three bytes before any position. */
  lemma {:induction false} BoundaryNear(s: seq<u8>, j: nat) returns (b: nat)
    requires ValidUtf8(s) && j <= |s|
    ensures b <= j && j <= b + 3 && IsCharBoundary(s, b)
    decreases |s|
  {
    if j <= 3 {
      b := 0;
    } else {
      var n := CharWidth(s[0]);
      if j - n < 3 {
        b := n;
        assert n == |s| || CharWidth(s[n..][0]) > 0;
      } else {
        var b' := BoundaryNear(s[n..], j - n);
        b := b' + n;
        if b' == 0 {
          assert n == |s| || CharWidth(s[n..][0]) > 0;
        } else {
          assert b' == |s[n..]| || s[n..][b'] == s[b];
        }
      }
    }
  }

  /** Rounding down to a boundary moves back at most three bytes in UTF-8. */
  lemma FloorWithinThree(s: seq<u8>, j: nat)
    requires ValidUtf8(s) && j <= |s|
    ensures j <= FloorCharBoundary(s, j) + 3
  {
    var b := BoundaryNear(s, j);
  }
}
