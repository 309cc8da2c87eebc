/**
  The image API of the single-shot VGA program: the `image_t` record and
  image_load, which decodes a file and replaces the decoder's buffer by a
  freshly allocated, DMA-visible buffer of 4 bytes per pixel.
*/
module ImageApi {
  import opened Pixels
  import opened Platform

  /**
    What the image decoder hands back for a file: failure (the file is
    unreadable or not a supported format), or the dimensions, the number of
    interleaved samples per pixel and the samples themselves.
  */
  datatype DecodeResult =
    | DecodeFailed
    | DecodeOk(width: nat, height: nat, channels: nat, samples: seq<uint8>)
  {
    /**
      The decoder's promise (IMAGE_SIZE samples) and the bound under which
      FIXED_IMAGE_SIZE and the loop indices fit in a C `int`.
    */
    predicate WellFormed() {
      DecodeOk? ==>
        |samples| == ImageSize(width, height, channels) &&
        FixedImageSize(width, height) <= INT_MAX
    }
  }

  /**
    The conversion step of image_load over the fresh buffer: one loop per
    supported channel count, and nothing written for any other count.
  */
  method Convert(buf: array<uint8>, channels: int, samples: seq<uint8>, n: nat)
    requires buf.Length == 4 * n
    requires Supported(channels) ==> channels * n <= |samples|
    modifies buf
    ensures buf[..] == Normalised(channels, samples, n, old(buf[..]))
  {
    if channels == 1 {
      FillGrey(buf, samples, n);
    } else if channels == 3 {
      FillRgb(buf, samples, n);
    } else if channels == 4 {
      FillRgba(buf, samples, n);
    }
  }

  /** One channel: replicate the grey sample of pixel i into bytes 4i..4i+2. */
  method FillGrey(buf: array<uint8>, samples: seq<uint8>, n: nat)
    requires buf.Length == 4 * n && n <= |samples|
    modifies buf
    ensures buf[..] == Packed(1, samples, n)
  {
    for i := 0 to n
      invariant buf[..4 * i] == Packed(1, samples, i)
    {
      ghost var before := buf[..];
      buf[4 * i + 0] := samples[i];
      buf[4 * i + 1] := samples[i];
      buf[4 * i + 2] := samples[i];
      buf[4 * i + 3] := 0;
      assert buf[..4 * i] == before[..4 * i];
      assert buf[4 * i..4 * i + 4] == Pixel(1, samples, i);
      assert buf[..4 * (i + 1)] == buf[..4 * i] + buf[4 * i..4 * i + 4];
    }
    assert buf[..] == buf[..4 * n];
  }

  /** Three channels: copy samples 3i..3i+2 into bytes 4i..4i+2. */
  method FillRgb(buf: array<uint8>, samples: seq<uint8>, n: nat)
    requires buf.Length == 4 * n && 3 * n <= |samples|
    modifies buf
    ensures buf[..] == Packed(3, samples, n)
  {
    for i := 0 to n
      invariant buf[..4 * i] == Packed(3, samples, i)
    {
      ghost var before := buf[..];
      buf[4 * i + 0] := samples[3 * i + 0];
      buf[4 * i + 1] := samples[3 * i + 1];
      buf[4 * i + 2] := samples[3 * i + 2];
      buf[4 * i + 3] := 0;
      assert buf[..4 * i] == before[..4 * i];
      assert buf[4 * i..4 * i + 4] == Pixel(3, samples, i);
      assert buf[..4 * (i + 1)] == buf[..4 * i] + buf[4 * i..4 * i + 4];
    }
    assert buf[..] == buf[..4 * n];
  }

  /** Four channels: copy samples 4i..4i+2 into bytes 4i..4i+2, dropping alpha. */
  method FillRgba(buf: array<uint8>, samples: seq<uint8>, n: nat)
    requires buf.Length == 4 * n && 4 * n <= |samples|
    modifies buf
    ensures buf[..] == Packed(4, samples, n)
  {
    for i := 0 to n
      invariant buf[..4 * i] == Packed(4, samples, i)
    {
      ghost var before := buf[..];
      buf[4 * i + 0] := samples[4 * i + 0];
      buf[4 * i + 1] := samples[4 * i + 1];
      buf[4 * i + 2] := samples[4 * i + 2];
      buf[4 * i + 3] := 0;
      assert buf[..4 * i] == before[..4 * i];
      assert buf[4 * i..4 * i + 4] == Pixel(4, samples, i);
      assert buf[..4 * (i + 1)] == buf[..4 * i] + buf[4 * i..4 * i + 4];
    }
    assert buf[..] == buf[..4 * n];
  }

  /** image_t: the decoded dimensions, channel count and pixel buffer. */
  class Image {
    var width: int
    var height: int
    var channels: int
    var data: array?<uint8>

    /** An image as declared on the stack of main, before anything is loaded. */
    constructor ()
      ensures data == null
    {
      width, height, channels := 0, 0, 0;
      data := null;
    }

    /**
      The state image_load leaves on success: a 4-byte-per-pixel buffer sized
      to the image's own dimensions, independent of the channel count.
    */
    ghost predicate Loaded()
      reads this
    {
      data != null && 0 <= width && 0 <= height &&
      data.Length == FixedImageSize(width, height) &&
      FixedImageSize(width, height) <= INT_MAX
    }

    /**
      image_load: returns -1 if decoding failed, having called nothing in
      the allocator; otherwise 0, after exactly one allocation of
      FIXED_IMAGE_SIZE bytes, with the dimensions and channel count taken
      from the decoder and `data` the fresh buffer holding the normalised
      pixels. `contents` is what the allocator's buffer holds before it is
      written, which is all it holds for an unsupported channel count.
    */
    method Load(decoded: DecodeResult, drivers: Drivers, contents: seq<uint8>) returns (status: int)
      requires decoded.WellFormed()
      requires decoded.DecodeOk? ==> |contents| == FixedImageSize(decoded.width, decoded.height)
      modifies this, drivers
      ensures decoded.DecodeFailed? ==>
        status == -1 && data == null && drivers.trace == old(drivers.trace)
      ensures decoded.DecodeOk? ==>
        && status == 0
        && width == decoded.width && height == decoded.height
        && channels == decoded.channels
        && Loaded() && fresh(data)
        && data[..] == Normalised(channels, decoded.samples, width * height, contents)
        && drivers.trace == old(drivers.trace) + [CmaAllocNoncached(FixedImageSize(width, height))]
    {
      match decoded
      case DecodeFailed =>
        data := null;
        status := -1;
      case DecodeOk(w, h, ch, samples) =>
        width, height, channels := w, h, ch;
        var pixels := h * w;
        var buf := drivers.CmaAllocNoncachedCall(FixedImageSize(w, h), contents);
        Convert(buf, ch, samples, pixels);
        data := buf;
        status := 0;
    }
  }
}
