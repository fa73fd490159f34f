/**
 * The chroma-key pass of the video editor: every pixel of an RGBA canvas buffer whose
 * Euclidean RGB distance to the target colour is at most `(threshold / 100) * 441`
 * gets alpha 0; every other byte is left as it was.
 */
module ChromaKey {

  /** One channel of a canvas pixel, as a Uint8ClampedArray stores it. */
  type Byte = b: int | 0 <= b < 256

  /** An RGB triple: the colour to remove. */
  datatype Color = Color(r: Byte, g: Byte, b: Byte)

  /** The distance threshold 100 stands for: roughly sqrt(3 * 255^2), rounded down. */
  const DistanceScale: int := 441

  /** Squared Euclidean distance in RGB space between a pixel and the target. */
  function SquaredDistance(r: Byte, g: Byte, b: Byte, target: Color): (d: int)
    ensures 0 <= d <= 3 * 255 * 255
    ensures d == 0 <==> r == target.r && g == target.g && b == target.b
  {
    Square(r - target.r) + Square(g - target.g) + Square(b - target.b)
  }

  function Square(x: int): (s: int)
    ensures 0 <= s
    ensures s == 0 <==> x == 0
    ensures -255 <= x <= 255 ==> s <= 255 * 255
  {
    SquareBounds(x);
    x * x
  }

  lemma SquareBounds(x: int)
    ensures 0 <= x * x
    ensures x * x == 0 <==> x == 0
    ensures -255 <= x <= 255 ==> x * x <= 255 * 255
  {
    if x < 0 {
      assert x * x == (-x) * (-x);
      NonNegSquareBounds(-x);
    } else {
      NonNegSquareBounds(x);
    }
  }

  lemma NonNegSquareBounds(y: nat)
    ensures 0 <= y * y
    ensures y * y == 0 <==> y == 0
    ensures y <= 255 ==> y * y <= 255 * 255
  {
    if y > 0 {
      MulLeft(y, 1, y);
      if y <= 255 {
        MulLeft(y, y, 255);
        MulLeft(255, y, 255);
      }
    }
  }

  lemma MulLeft(a: int, x: int, y: int)
    requires 0 <= a && x <= y
    ensures a * x <= a * y
  {
  }

  /**
   * The pixel test without the square root and without floating point:
   * `sqrt(d) <= (t / 100) * 441` holds exactly when `0 <= t` and
   * `10000 * d <= (441 * t)^2` (see ClearsMatchesDistanceTest).
   */
  predicate Clears(r: Byte, g: Byte, b: Byte, target: Color, threshold: int)
  {
    0 <= threshold &&
    10000 * SquaredDistance(r, g, b, target) <= (DistanceScale * threshold) * (DistanceScale * threshold)
  }

  /** The largest accepted distance, `(threshold / 100) * 441`, as the page computes it. */
  function MaxDistance(threshold: int): real
  {
    (threshold as real / 100.0) * 441.0
  }

  /**
   * The integer test agrees with the page's comparison `distance <= maxDistance`,
   * where distance is the non-negative square root of the squared distance.
   */
  lemma ClearsMatchesDistanceTest(r: Byte, g: Byte, b: Byte, target: Color, threshold: int, distance: real)
    requires 0.0 <= distance
    requires distance * distance == SquaredDistance(r, g, b, target) as real
    ensures Clears(r, g, b, target, threshold) <==> distance <= MaxDistance(threshold)
  {
    var d := SquaredDistance(r, g, b, target);
    var m := MaxDistance(threshold);
    var k := (DistanceScale * threshold) * (DistanceScale * threshold);
    assert m * m * 10000.0 == k as real;
    if threshold < 0 {
      assert m < 0.0;
    } else {
      assert 0.0 <= m;
      if distance <= m {
        assert distance * distance <= m * m by { MulMono(distance, m); }
        assert 10000 * d <= k;
      } else {
        assert m * m < distance * distance by { MulStrictMono(m, distance); }
        assert 10000 * d > k;
      }
    }
  }

  lemma MulMono(x: real, y: real)
    requires 0.0 <= x <= y
    ensures x * x <= y * y
  {
  }

  lemma MulStrictMono(x: real, y: real)
    requires 0.0 <= x < y
    ensures x * x < y * y
  {
    var e := y - x;
    assert y * y == x * x + 2.0 * x * e + e * e;
    assert e * e > 0.0;
    assert x * e >= 0.0;
  }

  /** Index of the alpha byte of pixel `p`. */
  function AlphaIndex(p: nat): nat
  {
    4 * p + 3
  }

  /** True when the pass makes pixel `p` of buffer `s` transparent. */
  predicate PixelCleared(s: seq<Byte>, p: nat, target: Color, threshold: int)
    requires AlphaIndex(p) < |s|
  {
    Clears(s[4 * p], s[4 * p + 1], s[4 * p + 2], target, threshold)
  }

  /** One pixel (R, G, B, A) after the test: alpha zeroed when the colour matches. */
  function KeyPixel(px: seq<Byte>, target: Color, threshold: int): seq<Byte>
    requires |px| == 4
  {
    if Clears(px[0], px[1], px[2], target, threshold) then px[..3] + [0] else px
  }

  /**
   * The buffer after the pass, pixel by pixel from the front. Fewer than four trailing
   * bytes have no alpha byte to clear and stay as they are.
   */
  function Keyed(s: seq<Byte>, target: Color, threshold: int): seq<Byte>
    decreases |s|
  {
    if |s| < 4 then s else KeyPixel(s[..4], target, threshold) + Keyed(s[4..], target, threshold)
  }

  /** What the pass leaves at byte `i`: zero for the alpha byte of a matching pixel, else the input. */
  function KeyedByte(s: seq<Byte>, i: nat, target: Color, threshold: int): Byte
    requires i < |s|
  {
    if i % 4 == 3 && Clears(s[i - 3], s[i - 2], s[i - 1], target, threshold) then 0 else s[i]
  }

  /** The pass treats a buffer's pixels independently: keying distributes over whole pixels. */
  lemma {:induction false} KeyedAppend(a: seq<Byte>, b: seq<Byte>, pixels: nat, target: Color, threshold: int)
    requires |a| == 4 * pixels
    ensures Keyed(a + b, target, threshold) == Keyed(a, target, threshold) + Keyed(b, target, threshold)
  {
    if pixels == 0 {
      assert a + b == b;
    } else {
      assert (a + b)[..4] == a[..4];
      assert (a + b)[4..] == a[4..] + b;
      KeyedAppend(a[4..], b, pixels - 1, target, threshold);
    }
  }

  /** Byte by byte: the pass keeps the length, and byte `i` is KeyedByte(s, i). */
  lemma {:induction false} KeyedAt(s: seq<Byte>, target: Color, threshold: int)
    ensures |Keyed(s, target, threshold)| == |s|
    ensures forall i :: 0 <= i < |s| ==> Keyed(s, target, threshold)[i] == KeyedByte(s, i, target, threshold)
    decreases |s|
  {
    if |s| >= 4 {
      var rest := s[4..];
      KeyedAt(rest, target, threshold);
      forall i | 0 <= i < |s|
        ensures Keyed(s, target, threshold)[i] == KeyedByte(s, i, target, threshold)
      {
        if i >= 4 {
          assert (i - 4) % 4 == i % 4;
          if i % 4 == 3 {
            assert rest[i - 7] == s[i - 3] && rest[i - 6] == s[i - 2] && rest[i - 5] == s[i - 1];
          }
          assert KeyedByte(rest, i - 4, target, threshold) == KeyedByte(s, i, target, threshold);
        }
      }
    }
  }

  /** Keying the first i + 4 bytes is keying the first i and then the pixel at i. */
  lemma KeyedExtend(s: seq<Byte>, p: nat, target: Color, threshold: int)
    requires 4 * p + 4 <= |s|
    ensures var i := 4 * p;
      Keyed(s[..i + 4], target, threshold) == Keyed(s[..i], target, threshold) + KeyPixel(s[i..i + 4], target, threshold)
  {
    var i := 4 * p;
    assert s[..i + 4] == s[..i] + s[i..i + 4];
    KeyedAppend(s[..i], s[i..i + 4], p, target, threshold);
    var px := s[i..i + 4];
    assert px[..4] == px && px[4..] == [];
  }

  /** One iteration of RemoveColor keeps its loop invariant, four bytes further on. */
  lemma KeyedStep(original: seq<Byte>, before: seq<Byte>, after: seq<Byte>, p: nat, i: nat, cleared: bool, target: Color, threshold: int)
    requires |before| == |original| && i == 4 * p && i + 4 <= |before|
    requires before[..i] == Keyed(original[..i], target, threshold)
    requires before[i..] == original[i..]
    requires cleared == Clears(before[i], before[i + 1], before[i + 2], target, threshold)
    requires after == if cleared then before[i + 3 := 0] else before
    ensures after[..i + 4] == Keyed(original[..i + 4], target, threshold)
    ensures after[i + 4..] == original[i + 4..]
  {
    var px := original[i..i + 4];
    assert px == original[i..][..4] == before[i..][..4] == before[i..i + 4];
    assert after[i + 4..] == before[i + 4..] == before[i..][4..] == original[i..][4..] == original[i + 4..];
    assert px[0] == before[i] && px[1] == before[i + 1] && px[2] == before[i + 2];
    if cleared {
      assert KeyPixel(px, target, threshold) == px[..3] + [0];
      assert after[..i + 4] == before[..i] + (px[..3] + [0]);
    } else {
      assert KeyPixel(px, target, threshold) == px;
      assert after[..i + 4] == before[..i] + px;
    }
    KeyedExtend(original, p, target, threshold);
  }

  /**
   * The pass over the canvas buffer, in place, four bytes at a time: each pixel's
   * colour channels are read and its alpha byte is zeroed when the pixel matches.
   */
  method RemoveColor(data: array<Byte>, target: Color, threshold: int)
    requires data.Length % 4 == 0
    modifies data
    ensures data[..] == Keyed(old(data[..]), target, threshold)
  {
    ghost var original := data[..];
    ghost var pixels := data.Length / 4;
    ghost var p := 0;
    var i := 0;
    while i < data.Length
      invariant 0 <= p <= pixels && i == 4 * p && data.Length == 4 * pixels
      invariant data[..i] == Keyed(original[..i], target, threshold)
      invariant data[i..] == original[i..]
    {
      ghost var before := data[..];
      var cleared := Clears(data[i], data[i + 1], data[i + 2], target, threshold);
      if cleared {
        data[i + 3] := 0;
        assert data[..] == before[i + 3 := 0];
      }
      KeyedStep(original, before, data[..], p, i, cleared, target, threshold);
      i, p := i + 4, p + 1;
    }
    assert original[..data.Length] == original;
    assert data[..] == data[..data.Length];
  }

  /** The pass keeps the length and never writes a colour byte, only alpha bytes. */
  lemma KeyedOnlyWritesAlpha(s: seq<Byte>, target: Color, threshold: int)
    ensures |Keyed(s, target, threshold)| == |s|
    ensures forall i :: 0 <= i < |s| && i % 4 != 3 ==> Keyed(s, target, threshold)[i] == s[i]
  {
    KeyedAt(s, target, threshold);
  }

  /** A pixel's alpha becomes 0 exactly when it matches; otherwise it keeps its alpha. */
  lemma KeyedAlpha(s: seq<Byte>, p: nat, target: Color, threshold: int)
    requires AlphaIndex(p) < |s|
    ensures |Keyed(s, target, threshold)| == |s|
    ensures PixelCleared(s, p, target, threshold) ==> Keyed(s, target, threshold)[AlphaIndex(p)] == 0
    ensures !PixelCleared(s, p, target, threshold) ==> Keyed(s, target, threshold)[AlphaIndex(p)] == s[AlphaIndex(p)]
  {
    KeyedAt(s, target, threshold);
    assert AlphaIndex(p) % 4 == 3;
  }

  /** Running the pass twice with the same colour and threshold changes nothing more. */
  lemma {:induction false} KeyedIdempotent(s: seq<Byte>, target: Color, threshold: int)
    ensures Keyed(Keyed(s, target, threshold), target, threshold) == Keyed(s, target, threshold)
    decreases |s|
  {
    if |s| >= 4 {
      var px := KeyPixel(s[..4], target, threshold);
      var rest := Keyed(s[4..], target, threshold);
      KeyedAppend(px, rest, 1, target, threshold);
      assert px[..4] == px && px[4..] == [];
      assert Keyed(px, target, threshold) == px;
      KeyedIdempotent(s[4..], target, threshold);
    }
  }

  /** A larger threshold accepts every colour a smaller one accepts. */
  lemma ClearsMonotone(r: Byte, g: Byte, b: Byte, target: Color, t1: int, t2: int)
    requires t1 <= t2
    requires Clears(r, g, b, target, t1)
    ensures Clears(r, g, b, target, t2)
  {
    var a, c := DistanceScale * t1, DistanceScale * t2;
    assert 0 <= a <= c;
    assert a * a <= a * c <= c * c;
  }

  /** Every pixel cleared at threshold t1 is cleared at any larger threshold t2. */
  lemma ClearedPixelsMonotone(s: seq<Byte>, target: Color, t1: int, t2: int)
    requires t1 <= t2
    ensures forall p: nat :: AlphaIndex(p) < |s| && PixelCleared(s, p, target, t1) ==> PixelCleared(s, p, target, t2)
  {
    forall p: nat | AlphaIndex(p) < |s| && PixelCleared(s, p, target, t1)
      ensures PixelCleared(s, p, target, t2)
    {
      ClearsMonotone(s[4 * p], s[4 * p + 1], s[4 * p + 2], target, t1, t2);
    }
  }

  /** At threshold 0 only the exact target colour is removed. */
  lemma ThresholdZeroExactMatch(r: Byte, g: Byte, b: Byte, target: Color)
    ensures Clears(r, g, b, target, 0) <==> Color(r, g, b) == target
  {
  }

  /**
   * At threshold 100 the accepted squared distance is 441^2 = 194481, just below the
   * 195075 between opposite corners of the RGB cube: black on a white target is kept.
   */
  lemma ThresholdFullKeepsFarCorner()
    ensures Clears(0, 0, 0, Color(255, 255, 255), 100) == false
    ensures forall r: Byte, g: Byte, b: Byte, target: Color ::
      Clears(r, g, b, target, 100) <==> SquaredDistance(r, g, b, target) <= DistanceScale * DistanceScale
  {
    assert SquaredDistance(0, 0, 0, Color(255, 255, 255)) == 195075;
  }
}
