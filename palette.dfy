/**
 * The eight colour indices of the panel, the two reference palettes and the
 * saturation blend that `_palette_blend` computes from them.
 *
 * Python floats are modelled as Dafny reals: `c * saturation` and the sum are exact
 * here, and `int()` is truncation toward zero (`Trunc`).
 */
module Palette {
  import opened Bits

  const BLACK := 0
  const WHITE := 1
  const GREEN := 2
  const BLUE := 3
  const RED := 4
  const YELLOW := 5
  const ORANGE := 6
  const CLEAN := 7

  /** `colour in (BLACK, WHITE, GREEN, BLUE, RED, YELLOW, ORANGE, CLEAN)` */
  predicate IsNamedColour(colour: int)
  {
    colour == BLACK || colour == WHITE || colour == GREEN || colour == BLUE ||
    colour == RED || colour == YELLOW || colour == ORANGE || colour == CLEAN
  }

  const DESATURATED_PALETTE: seq<seq<int>> := [
    [0, 0, 0],
    [255, 255, 255],
    [0, 255, 0],
    [0, 0, 255],
    [255, 0, 0],
    [255, 255, 0],
    [255, 140, 0],
    [255, 255, 255]
  ]

  const SATURATED_PALETTE: seq<seq<int>> := [
    [57, 48, 57],
    [255, 255, 255],
    [58, 91, 70],
    [61, 59, 94],
    [156, 72, 75],
    [208, 190, 71],
    [177, 106, 73],
    [255, 255, 255]
  ]

  /** Python's `int(x)` on a float: the integer part, rounding toward zero. */
  function Trunc(x: real): (n: int)
    ensures 0.0 <= x ==> n as real <= x < n as real + 1.0
    ensures x < 0.0 ==> n as real - 1.0 < x <= n as real
  {
    if x >= 0.0 then x.Floor else -((-x).Floor)
  }

  /** Channel `k` of colour `i` at this saturation: `int(sat * s + desat * (1.0 - s))`. */
  function Mix(saturation: real, i: nat, k: nat): int
    requires i < 7 && k < 3
  {
    Trunc(SATURATED_PALETTE[i][k] as real * saturation
          + DESATURATED_PALETTE[i][k] as real * (1.0 - saturation))
  }

  /** `(r << 16) | (g << 8) | b` on Python ints. */
  function Rgb24(r: int, g: int, b: int): int
  {
    BitOr(BitOr(r * 0x1_0000, g * 0x100), b)
  }

  /** What iteration `i` of the loop appends for this `dtype`. */
  function Entry(saturation: real, dtype: string, i: nat): seq<int>
    requires i < 7
  {
    if dtype == "uint8" then
      [Mix(saturation, i, 0), Mix(saturation, i, 1), Mix(saturation, i, 2)]
    else if dtype == "uint24" then
      [Rgb24(Mix(saturation, i, 0), Mix(saturation, i, 1), Mix(saturation, i, 2))]
    else
      []
  }

  /** The palette after the first `n` iterations of the loop over colours 0..6. */
  function BlendPrefix(saturation: real, dtype: string, n: nat): seq<int>
    requires n <= 7
  {
    if n == 0 then [] else BlendPrefix(saturation, dtype, n - 1) + Entry(saturation, dtype, n - 1)
  }

  /** The CLEAN entry appended after the loop: pure white in either encoding. */
  function CleanEntry(dtype: string): seq<int>
  {
    if dtype == "uint8" then [255, 255, 255]
    else if dtype == "uint24" then [0xFF_FFFF]
    else []
  }

  /** The value `_palette_blend(saturation, dtype)` returns. */
  function Blend(saturation: real, dtype: string): seq<int>
  {
    BlendPrefix(saturation, dtype, 7) + CleanEntry(dtype)
  }

  /** A palette of eight RGB triples, flattened to 24 channels. */
  function Channels(palette: seq<seq<int>>): (r: seq<int>)
    requires |palette| == 8 && forall i :: 0 <= i < 8 ==> |palette[i]| == 3
    ensures |r| == 24
    ensures forall i, k :: 0 <= i < 8 && 0 <= k < 3 ==> r[3 * i + k] == palette[i][k]
  {
    seq(24, m requires 0 <= m < 24 => palette[m / 3][m % 3])
  }

  /**
   * The 768-channel palette handed to the quantizer in `set_image`: the blend for
   * `uint8` followed by 248 black entries.
   */
  function QuantizerPalette(saturation: real): seq<int>
  {
    Blend(saturation, "uint8") + seq(3 * 248, _ => 0)
  }

  /** Every entry is a byte: what `putpalette` demands of a list, raising ValueError otherwise. */
  predicate BytePalette(p: seq<int>)
  {
    forall m :: 0 <= m < |p| ==> 0 <= p[m] <= 255
  }

  lemma {:induction false} BlendPrefixUint8(saturation: real, n: nat)
    requires n <= 7
    ensures |BlendPrefix(saturation, "uint8", n)| == 3 * n
    ensures forall i, k :: 0 <= i < n && 0 <= k < 3 ==> BlendPrefix(saturation, "uint8", n)[3 * i + k] == Mix(saturation, i, k)
  {
    if n > 0 {
      BlendPrefixUint8(saturation, n - 1);
      var prefix, entry := BlendPrefix(saturation, "uint8", n - 1), Entry(saturation, "uint8", n - 1);
      forall i, k | 0 <= i < n && 0 <= k < 3
        ensures (prefix + entry)[3 * i + k] == Mix(saturation, i, k)
      {
        if i == n - 1 {
          assert (prefix + entry)[3 * i + k] == entry[k];
        }
      }
    }
  }

  lemma {:induction false} BlendPrefixUint24(saturation: real, n: nat)
    requires n <= 7
    ensures |BlendPrefix(saturation, "uint24", n)| == n
    ensures forall i :: 0 <= i < n ==>
      BlendPrefix(saturation, "uint24", n)[i] == Rgb24(Mix(saturation, i, 0), Mix(saturation, i, 1), Mix(saturation, i, 2))
  {
    if n > 0 {
      BlendPrefixUint24(saturation, n - 1);
    }
  }

  lemma {:induction false} BlendPrefixOther(saturation: real, dtype: string, n: nat)
    requires n <= 7
    requires dtype != "uint8" && dtype != "uint24"
    ensures BlendPrefix(saturation, dtype, n) == []
  {
    if n > 0 {
      BlendPrefixOther(saturation, dtype, n - 1);
    }
  }

  /** With `"uint8"` the palette is 24 channels: colours 0..6 blended, then white. */
  lemma BlendUint8Shape(saturation: real)
    ensures |Blend(saturation, "uint8")| == 24
    ensures Blend(saturation, "uint8")[21..] == [255, 255, 255]
    ensures forall i, k :: 0 <= i < 7 && 0 <= k < 3 ==> Blend(saturation, "uint8")[3 * i + k] == Mix(saturation, i, k)
  {
    BlendPrefixUint8(saturation, 7);
    var prefix := BlendPrefix(saturation, "uint8", 7);
    forall i, k | 0 <= i < 7 && 0 <= k < 3
      ensures (prefix + CleanEntry("uint8"))[3 * i + k] == Mix(saturation, i, k)
    {
      assert (prefix + CleanEntry("uint8"))[3 * i + k] == prefix[3 * i + k];
    }
  }

  /** With `"uint24"` the palette is 8 packed colours, the last one `0xFFFFFF`. */
  lemma BlendUint24Shape(saturation: real)
    ensures |Blend(saturation, "uint24")| == 8
    ensures Blend(saturation, "uint24")[7] == 0xFF_FFFF
    ensures forall i :: 0 <= i < 7 ==>
      Blend(saturation, "uint24")[i] == Rgb24(Mix(saturation, i, 0), Mix(saturation, i, 1), Mix(saturation, i, 2))
  {
    BlendPrefixUint24(saturation, 7);
  }

  /** Any other `dtype` matches neither branch and the result is empty. */
  lemma BlendOtherDtype(saturation: real, dtype: string)
    requires dtype != "uint8" && dtype != "uint24"
    ensures Blend(saturation, dtype) == []
  {
    BlendPrefixOther(saturation, dtype, 7);
  }

  /** At saturation 1.0 a channel is the saturated reference channel, at 0.0 the desaturated one. */
  lemma MixAtEnds(saturation: real, i: nat, k: nat)
    requires i < 7 && k < 3
    requires saturation == 1.0 || saturation == 0.0
    ensures Mix(saturation, i, k) ==
      if saturation == 1.0 then SATURATED_PALETTE[i][k] else DESATURATED_PALETTE[i][k]
  {
    var c := SATURATED_PALETTE[i][k] as real;
    var d := DESATURATED_PALETTE[i][k] as real;
    if saturation == 1.0 {
      assert c * saturation + d * (1.0 - saturation) == c;
    } else {
      assert c * saturation + d * (1.0 - saturation) == d;
    }
  }

  /** A 24-channel palette laid out as the `"uint8"` blend is, at either end of the range, is the reference palette. */
  lemma MatchesReference(blend: seq<int>, saturation: real)
    requires saturation == 1.0 || saturation == 0.0
    requires |blend| == 24 && blend[21..] == [255, 255, 255]
    requires forall i, k :: 0 <= i < 7 && 0 <= k < 3 ==> blend[3 * i + k] == Mix(saturation, i, k)
    ensures blend == Channels(if saturation == 1.0 then SATURATED_PALETTE else DESATURATED_PALETTE)
  {
    var channels := Channels(if saturation == 1.0 then SATURATED_PALETTE else DESATURATED_PALETTE);
    forall m | 0 <= m < 24
      ensures blend[m] == channels[m]
    {
      ChannelMatches(blend, saturation, m);
    }
  }

  /** One channel of `MatchesReference`. */
  lemma ChannelMatches(blend: seq<int>, saturation: real, m: nat)
    requires saturation == 1.0 || saturation == 0.0
    requires |blend| == 24 && blend[21..] == [255, 255, 255]
    requires forall i, k :: 0 <= i < 7 && 0 <= k < 3 ==> blend[3 * i + k] == Mix(saturation, i, k)
    requires m < 24
    ensures blend[m] == Channels(if saturation == 1.0 then SATURATED_PALETTE else DESATURATED_PALETTE)[m]
  {
    var reference := if saturation == 1.0 then SATURATED_PALETTE else DESATURATED_PALETTE;
    var i, k := m / 3, m % 3;
    assert m == 3 * i + k;
    assert Channels(reference)[m] == reference[i][k];
    if i < 7 {
      MixAtEnds(saturation, i, k);
      assert blend[3 * i + k] == Mix(saturation, i, k);
    } else {
      assert blend[m] == blend[21..][k];
    }
  }

  /** The blend at either end of the saturation range is one of the two reference palettes. */
  lemma BlendAtEnds(saturation: real)
    requires saturation == 1.0 || saturation == 0.0
    ensures Blend(saturation, "uint8") ==
      Channels(if saturation == 1.0 then SATURATED_PALETTE else DESATURATED_PALETTE)
  {
    BlendUint8Shape(saturation);
    MatchesReference(Blend(saturation, "uint8"), saturation);
  }

  /** Saturation 1.0 reproduces the saturated reference palette exactly. */
  lemma BlendFullySaturated()
    ensures Blend(1.0, "uint8") == Channels(SATURATED_PALETTE)
  {
    BlendAtEnds(1.0);
  }

  /** Saturation 0.0 reproduces the desaturated reference palette exactly. */
  lemma BlendDesaturated()
    ensures Blend(0.0, "uint8") == Channels(DESATURATED_PALETTE)
  {
    BlendAtEnds(0.0);
  }

  /** A blend of two channels in 0..255 by a factor in [0, 1] stays in 0..255. */
  lemma MixInGamut(saturation: real, i: nat, k: nat)
    requires 0.0 <= saturation <= 1.0
    requires i < 7 && k < 3
    ensures 0 <= Mix(saturation, i, k) <= 255
  {
    var c := SATURATED_PALETTE[i][k] as real;
    var d := DESATURATED_PALETTE[i][k] as real;
    assert 0.0 <= c <= 255.0 && 0.0 <= d <= 255.0;
    assert 0.0 <= c * saturation <= 255.0 * saturation;
    assert 0.0 <= d * (1.0 - saturation) <= 255.0 * (1.0 - saturation);
  }

  /** For saturations in [0, 1] every channel of the `"uint8"` palette is a byte. */
  lemma BlendInGamut(saturation: real)
    requires 0.0 <= saturation <= 1.0
    ensures |Blend(saturation, "uint8")| == 24
    ensures forall m :: 0 <= m < 24 ==> 0 <= Blend(saturation, "uint8")[m] <= 255
  {
    BlendUint8Shape(saturation);
    forall m | 0 <= m < 21
      ensures 0 <= Blend(saturation, "uint8")[m] <= 255
    {
      var i, k := m / 3, m % 3;
      assert m == 3 * i + k;
      MixInGamut(saturation, i, k);
    }
  }

  /** The bitwise packing of three bytes is their base-256 value. */
  lemma Rgb24OfBytes(r: int, g: int, b: int)
    requires 0 <= r <= 255 && 0 <= g <= 255 && 0 <= b <= 255
    ensures Rgb24(r, g, b) == r * 0x1_0000 + g * 0x100 + b
  {
    assert Pow2(8) == 0x100 && Pow2(16) == 0x1_0000;
    OrIntoShifted(r, g * 0x100, 16);
    assert r * 0x1_0000 + g * 0x100 == (r * 0x100 + g) * 0x100;
    OrIntoShifted(r * 0x100 + g, b, 8);
  }

  /** For saturations in [0, 1] each `"uint24"` entry is `r * 65536 + g * 256 + b` of the `"uint8"` triple. */
  lemma BlendUint24MatchesUint8(saturation: real)
    requires 0.0 <= saturation <= 1.0
    ensures |Blend(saturation, "uint24")| == 8 && |Blend(saturation, "uint8")| == 24
    ensures forall i :: 0 <= i < 8 ==>
      Blend(saturation, "uint24")[i] ==
        Blend(saturation, "uint8")[3 * i] * 0x1_0000 + Blend(saturation, "uint8")[3 * i + 1] * 0x100 + Blend(saturation, "uint8")[3 * i + 2]
  {
    var flat := Blend(saturation, "uint8");
    var packed := Blend(saturation, "uint24");
    BlendUint8Shape(saturation);
    BlendUint24Shape(saturation);
    forall i | 0 <= i < 8
      ensures packed[i] == flat[3 * i] * 0x1_0000 + flat[3 * i + 1] * 0x100 + flat[3 * i + 2]
    {
      if i < 7 {
        assert flat[3 * i + 0] == Mix(saturation, i, 0);
        assert flat[3 * i + 1] == Mix(saturation, i, 1);
        assert flat[3 * i + 2] == Mix(saturation, i, 2);
        MixInGamut(saturation, i, 0);
        MixInGamut(saturation, i, 1);
        MixInGamut(saturation, i, 2);
        Rgb24OfBytes(Mix(saturation, i, 0), Mix(saturation, i, 1), Mix(saturation, i, 2));
      } else {
        assert flat[21] == flat[21..][0] && flat[22] == flat[21..][1] && flat[23] == flat[21..][2];
      }
    }
  }

  /**
   * The saturation is not range-checked: at 2.0 the green channel of GREEN
   * extrapolates to 91 * 2 - 255 = -73.
   */
  lemma BlendExtrapolates()
    ensures Blend(2.0, "uint8")[7] == -73
  {
    BlendUint8Shape(2.0);
    assert Blend(2.0, "uint8")[3 * 2 + 1] == Mix(2.0, 2, 1);
    assert 91.0 * 2.0 + 255.0 * (1.0 - 2.0) == -73.0;
  }

  /** The quantizer palette has 256 entries of three channels, the first 24 being the blend. */
  lemma QuantizerPaletteShape(saturation: real)
    ensures |QuantizerPalette(saturation)| == 768
    ensures QuantizerPalette(saturation)[..24] == Blend(saturation, "uint8")
    ensures forall m :: 24 <= m < 768 ==> QuantizerPalette(saturation)[m] == 0
  {
    BlendUint8Shape(saturation);
  }

  /**
   * `putpalette` accepts the padded palette exactly when the blend is all bytes,
   * which it is for every saturation in [0, 1].
   */
  lemma QuantizerPaletteAccepted(saturation: real)
    ensures BytePalette(QuantizerPalette(saturation)) <==> BytePalette(Blend(saturation, "uint8"))
    ensures 0.0 <= saturation <= 1.0 ==> BytePalette(QuantizerPalette(saturation))
  {
    var blend, padded := Blend(saturation, "uint8"), QuantizerPalette(saturation);
    QuantizerPaletteShape(saturation);
    BlendUint8Shape(saturation);
    assert forall m :: 0 <= m < 24 ==> padded[m] == blend[m] by {
      assert padded[..24] == blend;
    }
    if 0.0 <= saturation <= 1.0 {
      BlendInGamut(saturation);
    }
  }
}
