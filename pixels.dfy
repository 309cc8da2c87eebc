/**
  The pixel layout of the VGA frame buffer and the normalisation that
  image_load performs: an interleaved 8-bit image with 1, 3 or 4 samples per
  pixel is re-packed into 4 bytes per pixel (R, G, B and a zero byte),
  because the DMA sink accepts 32-bit words.
*/
module Pixels {

  newtype uint8 = x: int | 0 <= x < 0x100

  /** Largest value of a C `int` on the target (32-bit two's complement). */
  const INT_MAX: int := 0x7FFF_FFFF

  /** IMAGE_SIZE: the number of bytes of the decoder's interleaved buffer. */
  function ImageSize(width: nat, height: nat, channels: nat): (size: nat)
    ensures channels == 0 || width == 0 || height == 0 <==> size == 0
    ensures size == width * height * channels
  {
    width * height * channels
  }

  /** FIXED_IMAGE_SIZE: one 32-bit word per pixel, whatever the source's channel count. */
  function FixedImageSize(width: nat, height: nat): (size: nat)
    ensures size % 4 == 0 && size / 4 == width * height
  {
    width * height * 4
  }

  /** The channel counts image_load converts; any other count writes nothing. */
  predicate Supported(channels: int) {
    channels == 1 || channels == 3 || channels == 4
  }

  /** The four output bytes of pixel `i`, as the loop body for `channels` writes them. */
  function Pixel(channels: int, src: seq<uint8>, i: nat): (p: seq<uint8>)
    requires Supported(channels) && channels * i + channels <= |src|
    ensures |p| == 4 && p[3] == 0
  {
    if channels == 1 then
      [src[i], src[i], src[i], 0]
    else if channels == 3 then
      assert channels * i == 3 * i;
      [src[3 * i], src[3 * i + 1], src[3 * i + 2], 0]
    else
      assert channels * i == 4 * i;
      [src[4 * i], src[4 * i + 1], src[4 * i + 2], 0]
  }

  /** The first `n` converted pixels, in order. */
  function Packed(channels: int, src: seq<uint8>, n: nat): (r: seq<uint8>)
    requires Supported(channels) && channels * n <= |src|
    ensures |r| == 4 * n
  {
    if n == 0 then [] else Packed(channels, src, n - 1) + Pixel(channels, src, n - 1)
  }

  /** The four bytes of pixel `i` in a 4-byte-per-pixel buffer. */
  function PixelAt(buf: seq<uint8>, i: nat): (p: seq<uint8>)
    requires 4 * i + 4 <= |buf|
    ensures |p| == 4
  {
    buf[4 * i..4 * i + 4]
  }

  /**
    The contents of the fresh buffer once image_load has run: the converted
    pixels for a supported channel count, and for any other count the
    buffer exactly as the allocator handed it over.
  */
  function Normalised(channels: int, src: seq<uint8>, n: nat, initial: seq<uint8>): (r: seq<uint8>)
    requires |initial| == 4 * n
    requires Supported(channels) ==> channels * n <= |src|
    ensures |r| == 4 * n
    ensures !Supported(channels) ==> r == initial
    ensures Supported(channels) ==> forall k :: 0 <= k < |r| && k % 4 == 3 ==> r[k] == 0
  {
    if Supported(channels) then
      PaddingZero(channels, src, n);
      Packed(channels, src, n)
    else
      initial
  }

  /** Pixel `i` of the packed buffer is exactly the converted pixel `i`. */
  lemma {:induction false} PackedAt(channels: int, src: seq<uint8>, n: nat, i: nat)
    requires Supported(channels) && channels * n <= |src| && i < n
    ensures |Packed(channels, src, n)| == 4 * n
    ensures PixelAt(Packed(channels, src, n), i) == Pixel(channels, src, i)
  {
    var r := Packed(channels, src, n);
    var prefix := Packed(channels, src, n - 1);
    assert r == prefix + Pixel(channels, src, n - 1);
    if i < n - 1 {
      PackedAt(channels, src, n - 1, i);
      assert r[4 * i..4 * i + 4] == prefix[4 * i..4 * i + 4];
    } else {
      assert r[4 * i..4 * i + 4] == Pixel(channels, src, n - 1);
    }
  }

  /** Byte `k` of the packed buffer is byte `k % 4` of pixel `k / 4`. */
  lemma {:induction false} ByteOfPacked(channels: int, src: seq<uint8>, n: nat, k: nat)
    requires Supported(channels) && channels * n <= |src| && k < 4 * n
    ensures Packed(channels, src, n)[k] == Pixel(channels, src, k / 4)[k % 4]
  {
    var i := k / 4;
    PackedAt(channels, src, n, i);
    assert Packed(channels, src, n)[k] == PixelAt(Packed(channels, src, n), i)[k % 4];
  }

  /** Every fourth byte of a converted buffer is zero. */
  lemma {:induction false} PaddingZero(channels: int, src: seq<uint8>, n: nat)
    requires Supported(channels) && channels * n <= |src|
    ensures forall k :: 0 <= k < 4 * n && k % 4 == 3 ==> Packed(channels, src, n)[k] == 0
  {
    forall k | 0 <= k < 4 * n && k % 4 == 3
      ensures Packed(channels, src, n)[k] == 0
    {
      ByteOfPacked(channels, src, n, k);
    }
  }

  /** One channel: the grey sample is replicated into R, G and B; byte 3 is 0. */
  lemma {:induction false} GreyReplicated(src: seq<uint8>, n: nat)
    requires n <= |src|
    ensures var r := Packed(1, src, n);
      |r| == 4 * n &&
      forall k :: 0 <= k < |r| ==> r[k] == if k % 4 == 3 then 0 else src[k / 4]
  {
    forall k | 0 <= k < 4 * n
      ensures Packed(1, src, n)[k] == if k % 4 == 3 then 0 else src[k / 4]
    {
      ByteOfPacked(1, src, n, k);
    }
  }

  /** Three channels: R, G and B are copied; byte 3 is 0. */
  lemma {:induction false} RgbCopied(src: seq<uint8>, n: nat)
    requires 3 * n <= |src|
    ensures var r := Packed(3, src, n);
      |r| == 4 * n &&
      forall k :: 0 <= k < |r| ==> r[k] == if k % 4 == 3 then 0 else src[3 * (k / 4) + k % 4]
  {
    forall k | 0 <= k < 4 * n
      ensures Packed(3, src, n)[k] == if k % 4 == 3 then 0 else src[3 * (k / 4) + k % 4]
    {
      ByteOfPacked(3, src, n, k);
    }
  }

  /** Four channels: R, G and B are copied and alpha is replaced by 0. */
  lemma {:induction false} RgbaAlphaDropped(src: seq<uint8>, n: nat)
    requires 4 * n <= |src|
    ensures var r := Packed(4, src, n);
      |r| == 4 * n &&
      forall k :: 0 <= k < |r| ==> r[k] == if k % 4 == 3 then 0 else src[k]
  {
    forall k | 0 <= k < 4 * n
      ensures Packed(4, src, n)[k] == if k % 4 == 3 then 0 else src[k]
    {
      ByteOfPacked(4, src, n, k);
    }
  }

  /** Four channels: two sources that differ only in their alpha samples convert alike. */
  lemma {:induction false} AlphaIgnored(src: seq<uint8>, src': seq<uint8>, n: nat)
    requires 4 * n <= |src| && |src'| == |src|
    requires forall k :: 0 <= k < |src| && k % 4 != 3 ==> src[k] == src'[k]
    ensures Packed(4, src, n) == Packed(4, src', n)
  {
    RgbaAlphaDropped(src, n);
    RgbaAlphaDropped(src', n);
  }
}
