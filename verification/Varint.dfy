/** The variable-length integers of Mumble's voice packets (gumble/varint). */
module Varint {
  import opened Bytes

  const MAX_VARINT_LEN := 10

  /** Go's `-v` on int64: the most negative value is its own negation. */
  function Negate(v: int64): (r: int64) {
    if v == MIN_INT64 then MIN_INT64 else -v
  }

  /** Go's conversion of a uint64 to int64. */
  function ToInt64(v: nat): (r: int64)
    requires v < 0x1_0000_0000_0000_0000
  {
    if v <= MAX_INT64 then v else v - 0x1_0000_0000_0000_0000
  }

  datatype Decoded = Decoded(value: int64, n: nat)

  const FAILED := Decoded(0, 0)

  /** The value at the front of `b` and the bytes it takes, or length 0. */
  function Decode(b: seq<byte>): (r: Decoded)
    ensures r.n <= |b|
    ensures r.n == 0 ==> r == FAILED
  {
    if |b| == 0 then FAILED else
    var tag: int := b[0];
    if tag < 0x80 then Decoded(tag, 1)
    else if tag < 0xC0 && |b| >= 2 then Decoded((tag - 0x80) * 0x100 + b[1], 2)
    else if 0xC0 <= tag < 0xE0 && |b| >= 3 then
      Decoded((tag - 0xC0) * 0x1_0000 + 0x100 * b[1] as int + b[2], 3)
    else if 0xE0 <= tag < 0xF0 && |b| >= 4 then
      Decoded((tag - 0xE0) * 0x100_0000 + 0x1_0000 * b[1] as int + 0x100 * b[2] as int + b[3], 4)
    else if 0xF0 <= tag < 0xF4 && |b| >= 5 then
      Pow256Values();
      Decoded(FromBigEndian(b[1..5]), 5)
    else if 0xF4 <= tag < 0xF8 && |b| >= 9 then
      Pow256Values();
      Decoded(ToInt64(FromBigEndian(b[1..9])), 9)
    else if 0xF8 <= tag < 0xFC then
      var r := Decode(b[1..]);
      if r.n > 0 then Decoded(Negate(r.value), r.n + 1) else FAILED
    else if 0xFC <= tag then Decoded(-(tag - 0xFC) - 1, 1)
    else FAILED
  }

  /** The bytes each branch of Encode writes; a mask that keeps every bit of its branch's range is omitted. */
  function Encoding(v: int64): (s: seq<byte>)
    requires v != MIN_INT64
    ensures 1 <= |s| <= MAX_VARINT_LEN
    ensures v >= 0 ==> |s| <= 9
    decreases v < 0
  {
    if -4 <= v <= -1 then [0xFC + (-v - 1)]
    else if v < 0 then [0xF8] + Encoding(-v)
    else if v <= 0x7F then [v]
    else if v <= 0x3FFF then [0x80 + v / 0x100, v % 0x100]
    else if v <= 0x1F_FFFF then [0xC0 + v / 0x1_0000, v / 0x100 % 0x100, v % 0x100]
    else if v <= 0xFFF_FFFF then
      [0xE0 + v / 0x100_0000, v / 0x1_0000 % 0x100, v / 0x100 % 0x100, v % 0x100]
    else if v <= 0x7FFF_FFFF then [0xF0] + BigEndian(v, W32)
    else [0xF4] + BigEndian(v, W64)
  }

  /** What a call of Encode does: it returns a length, or an index runs off the buffer. */
  datatype Written = Wrote(n: nat) | Panic

  /** `after` is `before` with `s` in place of the bytes at `off`. */
  ghost predicate Overwritten(before: seq<byte>, after: seq<byte>, off: nat, s: seq<byte>) {
    off + |s| <= |before| && after == before[..off] + s + before[off + |s|..]
  }

  lemma OverwrittenFromTag(before: seq<byte>, after: seq<byte>, off: nat, tag: byte, s: seq<byte>)
    requires off < |before| && Overwritten(before[off := tag], after, off + 1, s)
    ensures Overwritten(before, after, off, [tag] + s)
  {
    var mid := before[off := tag];
    assert mid[..off + 1] == before[..off] + [tag];
    assert mid[off + 1 + |s|..] == before[off + 1 + |s|..];
    assert before[..off] + ([tag] + s) == (before[..off] + [tag]) + s;
  }

  /** Stores `s` at `off` byte by byte; fails at the first byte past the end. */
  method Store(b: array<byte>, off: nat, s: seq<byte>) returns (ok: bool)
    requires off <= b.Length
    modifies b
    ensures ok <==> off + |s| <= b.Length
    ensures b[..off] == old(b[..off])
    ensures ok ==> Overwritten(old(b[..]), b[..], off, s)
  {
    var i := 0;
    while i < |s| && off + i < b.Length
      invariant 0 <= i <= |s| && off + i <= b.Length
      invariant b[..off] == old(b[..off])
      invariant b[off..off + i] == s[..i]
      invariant b[off + i..] == old(b[off + i..])
    {
      b[off + i] := s[i];
      assert b[off..off + i + 1] == b[off..off + i] + [s[i]];
      i := i + 1;
    }
    ok := i == |s|;
    if ok {
      assert b[..] == b[..off] + b[off..off + i] + b[off + i..];
    }
  }

  /**
   * Encode writes `value` into the slice of `b` that starts at `off`. On the most negative
   * value `-value` wraps to itself, so the call fills the rest of the buffer and runs off it.
   */
  method Encode(b: array<byte>, off: nat, value: int64) returns (r: Written)
    requires off <= b.Length
    modifies b
    ensures b[..off] == old(b[..off])
    ensures r.Wrote? <==> value != MIN_INT64 && off + |Encoding(value)| <= b.Length
    ensures r.Wrote? ==> r.n == |Encoding(value)| && Overwritten(old(b[..]), b[..], off, Encoding(value))
    ensures value == MIN_INT64 ==> forall k :: off <= k < b.Length ==> b[k] == 0xF8
    decreases b.Length - off
  {
    if value < -4 {
      if off == b.Length {
        return Panic;
      }
      b[off] := 0xF8;
      assert b[..] == old(b[..])[off := 0xF8];
      var rest := Encode(b, off + 1, Negate(value));
      assert b[..off] == b[..off + 1][..off] && b[off] == b[..off + 1][off];
      if rest.Panic? {
        return Panic;
      }
      OverwrittenFromTag(old(b[..]), b[..], off, 0xF8, Encoding(-value));
      return Wrote(1 + rest.n);
    }
    var bytes := Encoding(value);
    var ok := Store(b, off, bytes);
    r := if ok then Wrote(|bytes|) else Panic;
  }

  // ---- Round trip ----

  /** Decoding what Encode wrote, whatever follows it, gives the value and its length back. */
  lemma {:induction false} RoundTrip(v: int64, suffix: seq<byte>)
    requires v != MIN_INT64
    ensures Decode(Encoding(v) + suffix) == Decoded(v, |Encoding(v)|)
    decreases v < 0
  {
    if 0xFFF_FFFF < v {
      RoundTripWide(v, suffix);
    } else if 0 <= v {
      RoundTripNarrow(v, suffix);
    } else if v < -4 {
      var b := Encoding(v) + suffix;
      assert b[1..] == Encoding(-v) + suffix;
      RoundTrip(-v, suffix);
    }
  }

  lemma RoundTripWide(v: int64, suffix: seq<byte>)
    requires 0xFFF_FFFF < v
    ensures Decode(Encoding(v) + suffix) == Decoded(v, |Encoding(v)|)
  {
    var b := Encoding(v) + suffix;
    var w := if v <= 0x7FFF_FFFF then W32 else W64;
    assert b[1..w + 1] == BigEndian(v, w);
    Pow256Values();
    BigEndianRoundTrip(v, w);
  }

  lemma RoundTripNarrow(v: int64, suffix: seq<byte>)
    requires 0 <= v <= 0xFFF_FFFF
    ensures Decode(Encoding(v) + suffix) == Decoded(v, |Encoding(v)|)
  {
    var s := Encoding(v);
    var b := s + suffix;
    assert b[..|s|] == s;
    if v <= 0x7F {
    } else if v <= 0x3FFF {
      assert b[0] == s[0] && b[1] == s[1];
    } else if v <= 0x1F_FFFF {
      assert b[0] == s[0] && b[1] == s[1] && b[2] == s[2];
      assert v / 0x100 == v / 0x1_0000 * 0x100 + v / 0x100 % 0x100;
    } else {
      assert b[0] == s[0] && b[1] == s[1] && b[2] == s[2] && b[3] == s[3];
      assert v / 0x1_0000 == v / 0x100_0000 * 0x100 + v / 0x1_0000 % 0x100;
      assert v / 0x100 == v / 0x1_0000 * 0x100 + v / 0x100 % 0x100;
    }
  }

  /** A successful Decode depends only on the bytes it consumes. */
  lemma {:induction false} DecodeIsLocal(b: seq<byte>, suffix: seq<byte>)
    requires Decode(b).n > 0
    ensures Decode(b[..Decode(b).n] + suffix) == Decode(b)
  {
    var n := Decode(b).n;
    var c := b[..n] + suffix;
    assert c[0] == b[0];
    if 0xF0 <= b[0] < 0xF4 {
      assert c[1..5] == b[1..5];
    } else if 0xF4 <= b[0] < 0xF8 {
      assert c[1..9] == b[1..9];
    } else if 0xF8 <= b[0] < 0xFC {
      assert c[1..] == b[1..][..n - 1] + suffix;
      DecodeIsLocal(b[1..], suffix);
    }
  }

  lemma PrefixAndRest(a: seq<byte>, b: seq<byte>)
    requires a <= b
    ensures a + b[|a|..] == b && b + [] == b
  {
  }

  /** No encoding is a prefix of another value's encoding. */
  lemma PrefixFree(v: int64, w: int64)
    requires v != MIN_INT64 && w != MIN_INT64
    requires Encoding(v) <= Encoding(w)
    ensures v == w
  {
    PrefixAndRest(Encoding(v), Encoding(w));
    RoundTrip(v, Encoding(w)[|Encoding(v)|..]);
    RoundTrip(w, []);
  }

  // ---- Minimality ----

  /** The fewest bytes that Decode maps to `v`; attained and never undercut (below). */
  function Cost(v: int64): (n: nat)
    decreases v < 0
  {
    if v >= 0 then
      if v <= 0x7F then 1
      else if v <= 0x3FFF then 2
      else if v <= 0x1F_FFFF then 3
      else if v <= 0xFFF_FFFF then 4
      else if v <= 0xFFFF_FFFF then 5
      else 9
    else if v >= -4 then 1
    else if v >= -0xFFFF_FFFF then 1 + Cost(-v)
    else 9
  }

  lemma {:induction false} CostIsLowerBound(b: seq<byte>)
    requires Decode(b).n > 0
    ensures Cost(Decode(b).value) <= Decode(b).n
  {
    if 0xF0 <= b[0] < 0xF4 {
      Pow256Values();
    } else if 0xF8 <= b[0] < 0xFC {
      CostIsLowerBound(b[1..]);
    }
  }

  /** A string of length Cost(v) that decodes to `v`. */
  function Shortest(v: int64): (s: seq<byte>)
    decreases v < 0
  {
    if 0x7FFF_FFFF < v <= 0xFFFF_FFFF then [0xF0] + BigEndian(v, W32)
    else if v >= -4 then Encoding(v)
    else if v >= -0xFFFF_FFFF then [0xF8] + Shortest(-v)
    else [0xF4] + BigEndian(v + 0x1_0000_0000_0000_0000, W64)
  }

  lemma {:induction false} CostIsAttained(v: int64)
    ensures Decode(Shortest(v)) == Decoded(v, Cost(v))
    ensures |Shortest(v)| == Cost(v)
    decreases v < 0
  {
    Pow256Values();
    var s := Shortest(v);
    if 0x7FFF_FFFF < v <= 0xFFFF_FFFF {
      DecodeWide(v, W32);
    } else if v >= -4 {
      EncodingIsShortest(v);
    } else if v >= -0xFFFF_FFFF {
      assert s[1..] == Shortest(-v);
      CostIsAttained(-v);
    } else {
      DecodeWide(v + 0x1_0000_0000_0000_0000, W64);
    }
  }

  lemma EncodingIsShortest(v: int64)
    requires -4 <= v <= 0x7FFF_FFFF || 0xFFFF_FFFF < v
    ensures Decode(Encoding(v)) == Decoded(v, Cost(v)) && |Encoding(v)| == Cost(v)
  {
    RoundTrip(v, []);
    assert Encoding(v) + [] == Encoding(v);
  }

  /** The 32- and 64-bit forms decode to the word they carry. */
  lemma DecodeWide(v: nat, width: nat)
    requires width == W32 || width == W64
    requires v < Pow256(width)
    ensures v < 0x1_0000_0000_0000_0000
    ensures Decode([if width == W32 then 0xF0 else 0xF4] + BigEndian(v, width)) == Decoded(ToInt64(v), width + 1)
  {
    var s: seq<byte> := [if width == W32 then 0xF0 else 0xF4] + BigEndian(v, width);
    Pow256Values();
    BigEndianRoundTrip(v, width);
    assert s[1..width + 1] == BigEndian(v, width);
  }

  /** No byte string, nested negations included, decodes to `v` in fewer bytes than Encode uses. */
  ghost predicate EncodesMinimally(v: int64)
    requires v != MIN_INT64
  {
    forall b: seq<byte> :: Decode(b).n > 0 && Decode(b).value == v ==> |Encoding(v)| <= Decode(b).n
  }

  /** Encode is minimal exactly outside 2^31..2^32-1 and below -(2^31-1). */
  lemma Minimality(v: int64)
    requires v != MIN_INT64
    ensures EncodesMinimally(v) <==> -0x7FFF_FFFF <= v <= 0x7FFF_FFFF || v >= 0x1_0000_0000
  {
    CostIsAttained(v);
    assert |Encoding(v)| <= Cost(v) <==> -0x7FFF_FFFF <= v <= 0x7FFF_FFFF || v >= 0x1_0000_0000 by {
      if v < -4 {
        assert |Encoding(v)| == 1 + |Encoding(-v)|;
      }
    }
    if |Encoding(v)| <= Cost(v) {
      forall b: seq<byte> | Decode(b).n > 0 && Decode(b).value == v
        ensures |Encoding(v)| <= Decode(b).n
      {
        CostIsLowerBound(b);
      }
    }
  }

  // ---- The format, by its leading bits ----

  function Pow2(n: nat): (p: nat)
    ensures p > 0
  {
    if n == 0 then 1 else 2 * Pow2(n - 1)
  }

  /** How many of the low `n` bits of `x` are set before the first, from the left, that is not. */
  function LeadingOnes(x: nat, n: nat): (k: nat)
    ensures k <= n
  {
    if n == 0 || x < Pow2(n - 1) then 0 else 1 + LeadingOnes(x - Pow2(n - 1), n - 1)
  }

  /** A number of 64 bits, read as one with a sign. */
  function Signed(v: nat): (r: int) {
    if v < 0x8000_0000_0000_0000 then v else v - 0x1_0000_0000_0000_0000
  }

  /**
   * The table of the protocol, as a value and a length or (0, 0). Up to three leading ones announce
   * as many further bytes, and the value is what the rest of the bits spell. Four announce a word,
   * whose width is the bit 0x04. Five negate the number that follows. More leave the complement of
   * the last two bits.
   */
  function Meaning(b: seq<byte>): (r: (int, nat)) {
    if b == [] then (0, 0) else
    var ones := LeadingOnes(b[0], 8);
    if ones <= 3 then
      if |b| <= ones then (0, 0) else (FromBigEndian(b[..ones + 1]) % Pow2(7 * (ones + 1)), ones + 1)
    else if ones == 4 then
      var w := if b[0] / 4 % 2 == 0 then 4 else 8;
      if |b| <= w then (0, 0) else (Signed(FromBigEndian(b[1..w + 1])), w + 1)
    else if ones == 5 then
      var r := Meaning(b[1..]);
      if r.1 == 0 then (0, 0) else (if r.0 == MIN_INT64 then r.0 else -r.0, r.1 + 1)
    else (-1 - b[0] as int % 4, 1)
  }

  lemma Pow2Values()
    ensures Pow2(0) == 1 && Pow2(1) == 2 && Pow2(2) == 4 && Pow2(3) == 8 && Pow2(4) == 16 && Pow2(5) == 32 && Pow2(6) == 64 && Pow2(7) == 128
    ensures Pow2(14) == 0x4000 && Pow2(21) == 0x20_0000 && Pow2(28) == 0x1000_0000
  {
    assert Pow2(10) == 8 * Pow2(7);
    assert Pow2(12) == 4 * Pow2(10);
    assert Pow2(14) == 4 * Pow2(12);
    assert Pow2(16) == 4 * Pow2(14);
    assert Pow2(18) == 4 * Pow2(16);
    assert Pow2(20) == 4 * Pow2(18);
    assert Pow2(22) == 4 * Pow2(20);
    assert Pow2(24) == 4 * Pow2(22);
    assert Pow2(26) == 4 * Pow2(24);
    assert Pow2(28) == 4 * Pow2(26);
  }

  lemma TagClass(tag: byte)
    ensures LeadingOnes(tag, 8) <= 3 ==> LeadingOnes(tag, 8) == if tag < 0x80 then 0 else if tag < 0xC0 then 1 else if tag < 0xE0 then 2 else 3
    ensures LeadingOnes(tag, 8) <= 3 <==> tag < 0xF0
    ensures LeadingOnes(tag, 8) == 4 <==> 0xF0 <= tag < 0xF8
    ensures LeadingOnes(tag, 8) == 5 <==> 0xF8 <= tag < 0xFC
  {
    Pow2Values();
    if tag >= 0x80 {
      assert LeadingOnes(tag, 8) == 1 + LeadingOnes(tag - 0x80, 7);
    }
    if tag >= 0xC0 {
      assert LeadingOnes(tag - 0x80, 7) == 1 + LeadingOnes(tag - 0xC0, 6);
    }
    if tag >= 0xE0 {
      assert LeadingOnes(tag - 0xC0, 6) == 1 + LeadingOnes(tag - 0xE0, 5);
    }
    if tag >= 0xF0 {
      assert LeadingOnes(tag - 0xE0, 5) == 1 + LeadingOnes(tag - 0xF0, 4);
    }
    if tag >= 0xF8 {
      assert LeadingOnes(tag - 0xF0, 4) == 1 + LeadingOnes(tag - 0xF8, 3);
    }
    if tag >= 0xFC {
      assert LeadingOnes(tag - 0xF8, 3) == 1 + LeadingOnes(tag - 0xFC, 2);
    }
  }

  /** The bits behind the leading ones. */
  lemma FrontBits(b: seq<byte>, n: nat)
    requires 1 <= n <= 4 && n <= |b|
    ensures n == 1 ==> FromBigEndian(b[..n]) == b[0]
    ensures n == 2 ==> FromBigEndian(b[..n]) == 0x100 * b[0] as int + b[1]
    ensures n == 3 ==> FromBigEndian(b[..n]) == 0x1_0000 * b[0] as int + 0x100 * b[1] as int + b[2]
    ensures n == 4 ==> FromBigEndian(b[..n]) == 0x100_0000 * b[0] as int + 0x1_0000 * b[1] as int + 0x100 * b[2] as int + b[3]
  {
    if n == 1 {
      assert b[..1][..0] == [];
    } else {
      FrontBits(b, n - 1);
      assert b[..n][..n - 1] == b[..n - 1];
    }
  }

  /** The bits of a value below `limit`, when those above it are the leading ones alone. */
  lemma LowPart(x: nat, r: nat, limit: nat, ones: nat)
    requires limit == 0x80 || limit == 0x4000 || limit == 0x20_0000 || limit == 0x1000_0000
    requires x == ones * limit + r && r < limit && ones <= 14
    ensures x % limit == r
  {
  }

  /** The value that the first byte and the rest make up, without the leading ones. */
  lemma ShortValue(b: seq<byte>, n: nat)
    requires b != [] && b[0] < 0xF0 && n == LeadingOnes(b[0], 8) + 1 <= |b|
    ensures Decode(b).n == n && Decode(b).value == FromBigEndian(b[..n]) % Pow2(7 * n)
  {
    TagClass(b[0]);
    FrontBits(b, n);
    Pow2Values();
    var x, r := FromBigEndian(b[..n]), Decode(b).value;
    if n == 1 {
      LowPart(x, r, 0x80, 0);
    } else if n == 2 {
      LowPart(x, r, 0x4000, 2);
    } else if n == 3 {
      LowPart(x, r, 0x20_0000, 6);
    } else {
      LowPart(x, r, 0x1000_0000, 14);
    }
  }

  lemma ShortMeaning(b: seq<byte>)
    requires b != [] && b[0] < 0xF0
    ensures (Decode(b).value, Decode(b).n) == Meaning(b)
  {
    TagClass(b[0]);
    var n := LeadingOnes(b[0], 8) + 1;
    if n <= |b| {
      ShortValue(b, n);
    }
  }

  /** Decode follows the table on all bytes, whoever wrote them. */
  lemma {:induction false} DecodeFollowsTable(b: seq<byte>)
    ensures (Decode(b).value, Decode(b).n) == Meaning(b)
  {
    if b != [] {
      TagClass(b[0]);
      if b[0] < 0xF0 {
        ShortMeaning(b);
      } else if b[0] < 0xF8 {
        Pow256Values();
      } else if b[0] < 0xFC {
        DecodeFollowsTable(b[1..]);
      }
    }
  }

  /** The length of each encoding, and no spare bit of its first byte set. */
  lemma EncodingForm(v: int64)
    requires v != MIN_INT64
    ensures var tag: int := Encoding(v)[0]; (LeadingOnes(tag, 8) == 4 || LeadingOnes(tag, 8) == 5) ==> tag % 4 == 0
    ensures v >= 0 ==> |Encoding(v)| == if v < 0x80 then 1 else if v < 0x4000 then 2 else if v < 0x20_0000 then 3
                                         else if v < 0x1000_0000 then 4 else if v < 0x8000_0000 then 5 else 9
    ensures v < 0 ==> |Encoding(v)| == if v >= -4 then 1 else 1 + |Encoding(-v)|
  {
    TagClass(Encoding(v)[0]);
  }
}
