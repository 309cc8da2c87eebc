# Single-shot VGA frame transfer: a Dafny model

This project models the single-shot host program of the VGA display
pipeline (`sw/src/main.c`). The program decodes an image file. It re-packs
the pixels into a non-cached, physically addressable buffer of exactly
4 bytes per pixel, because the VGA component's DMA sink accepts 32-bit
words. It then submits one mSGDMA standard descriptor that streams the
whole buffer to the display.

The model has five modules:

- `Pixels` (`pixels.dfy`): the size macros `IMAGE_SIZE` and
  `FIXED_IMAGE_SIZE`, plus the conversion stated as functions. `Pixel` gives
  the four bytes written for pixel *i*, `Packed` the first *n* converted
  pixels, and `Normalised` the whole buffer, including the unsupported
  channel case. Lemmas state what every output byte holds for 1, 3 and 4
  channels.
- `Platform` (`platform.dfy`): the mSGDMA driver and the allocator as the
  class `Drivers`. Each of its methods stands for one foreign call and
  appends that call to a `trace` of events. The driver's descriptor record
  and control bits live here too.
- `ImageApi` (`image.dfy`): the decoder result as a value (`DecodeResult`),
  the `image_t` record as the class `Image`, and `image_load` as
  `Image.Load`. The three conversion loops run in place on a freshly
  allocated `array`, one method per loop (`FillGrey`, `FillRgb`,
  `FillRgba`), dispatched by `Convert`. Each is proved against `Packed`.
- `FpgaApi` (`fpga.dfy`): the descriptor that `fpga_vga` builds, as the
  pure function `FpgaVga`. `Run` then submits it through `Drivers`.
- `Program` (`program.dfy`): the return-code decisions of `main` as
  `Run`. The driver and allocator calls it makes are returned as a trace of
  events.

Foreign calls are replaced as follows:

- The image decoder's output is an input (`DecodeResult`).
- `cma_alloc_noncached` returns a fresh buffer of the requested length.
  What the uncleared buffer holds is an input (`contents`), just as the
  decoder's samples are.
- `cma_get_phy_addr` is the function parameter `phys`, which is otherwise
  unconstrained.
- Every mSGDMA driver and allocator call, allocation included, is recorded
  as an event in the trace of `Drivers`.

Three facts about the code shape the model:

- The buffer is sized to the loaded image's own dimensions
  (`sw/src/main.c:65`), so every byte of it belongs to a pixel of the
  image.
- With an unsupported channel count, the buffer keeps whatever the
  allocator returned.
- On a decode failure, `main` returns -1 at once (`sw/src/main.c:125-128`).
  It does not release the mSGDMA device or the allocator, so the trace of
  that path ends after start-up.

## Model

| member | source | states |
|---|---|---|
| `Pixels.ImageSize` | sw/src/main.c:26 | IMAGE_SIZE is width·height·channels, and is 0 exactly when one of the three factors is 0 |
| `Pixels.FixedImageSize` | sw/src/main.c:27-29 | the transfer size is a whole number of 32-bit words, one word per pixel, whatever the channel count |
| `Pixels.Pixel` | sw/src/main.c:67-87 | each converted pixel is 4 bytes and its last byte is 0; reads of the source stay inside the first (i+1)·channels samples |
| `Pixels.Packed` | sw/src/main.c:68-86 | converting n pixels yields exactly 4·n bytes |
| `Pixels.Normalised` | sw/src/main.c:65-94 | the buffer has 4·n bytes for every channel count; for 1, 3 or 4 channels the fourth byte of every pixel is 0; for any other count the buffer is exactly as allocated |
| `Pixels.PackedAt` | sw/src/main.c:68-86 | bytes 4i..4i+3 of the packed buffer are exactly the bytes the loop body writes for pixel i |
| `Pixels.ByteOfPacked` | sw/src/main.c:68-86 | byte k of the packed buffer is byte k mod 4 of pixel k div 4 |
| `Pixels.PaddingZero` | sw/src/main.c:72-86 | every byte at an index ≡ 3 (mod 4) of a converted buffer is 0, for each supported channel count |
| `Pixels.GreyReplicated` | sw/src/main.c:67-73 | with 1 channel, bytes 4i, 4i+1 and 4i+2 all equal sample i and byte 4i+3 is 0 |
| `Pixels.RgbCopied` | sw/src/main.c:74-80 | with 3 channels, byte 4i+c equals sample 3i+c for c < 3, and byte 4i+3 is 0 |
| `Pixels.RgbaAlphaDropped` | sw/src/main.c:81-87 | with 4 channels, byte 4i+c equals sample 4i+c for c < 3, and byte 4i+3 is 0 whatever sample 4i+3 was |
| `Pixels.AlphaIgnored` | sw/src/main.c:81-87 | two 4-channel sources that differ only in their alpha samples give identical buffers |
| `Platform.Drivers.CmaAllocNoncachedCall` | sw/src/main.c:65 | the allocation is a fresh buffer of the requested size holding whatever the allocator left in it, and the call is recorded in the trace |
| `ImageApi.Convert` | sw/src/main.c:67-90 | the buffer becomes `Normalised` of its previous contents: converted pixels for 1, 3 or 4 channels, untouched otherwise |
| `ImageApi.FillGrey` | sw/src/main.c:67-73 | the grey loop leaves the buffer equal to `Packed(1, samples, n)` |
| `ImageApi.FillRgb` | sw/src/main.c:74-80 | the RGB loop leaves the buffer equal to `Packed(3, samples, n)` |
| `ImageApi.FillRgba` | sw/src/main.c:81-87 | the RGBA loop leaves the buffer equal to `Packed(4, samples, n)` |
| `ImageApi.Image.Load` | sw/src/main.c:56-95 | decode failure returns -1 with `data` null and no allocator call at all (the trace is unchanged); success returns 0 after exactly one allocation of width·height·4 bytes, with the decoder's dimensions and channel count, and `data` that fresh buffer holding `Normalised` of the allocator's contents: the converted pixels for 1, 3 or 4 channels, the allocator's bytes untouched for any other count |
| `FpgaApi.FpgaVga` | sw/src/main.c:43-52 | the descriptor reads from the buffer's physical address and writes to 0; its length is one word per pixel, equal to the buffer's length once an image is loaded; its control word has exactly the GO and transfer-complete-IRQ bits set |
| `FpgaApi.RepeatedDescriptorsAgree` | sw/src/main.c:46-49 | the descriptor does not depend on the channel count: images with the same buffer and dimensions give the same descriptor |
| `Program.Startup` | sw/src/main.c:117-122 | start-up makes exactly three calls in order: open the mSGDMA device `/dev/msgdma0`, enable its interrupt, initialise the allocator |
| `Program.Run` | sw/src/main.c:107-145 | no image argument (`argc < 2`): exit 0 with no driver or allocator call; decode failure: exit -1 after start-up only, with no allocation; otherwise exit 0 after start-up, one allocation of width·height·4 bytes, exactly one descriptor for that buffer (holding the normalised pixels), then freeing that same buffer and releasing the allocator and the device; a descriptor is submitted if and only if the exit code is 0 and an image argument was given |

## Left out

- The mSGDMA driver (`msgdma_init`, `enable_global_interrupt_mask`, `write_standard_descriptor`, `msgdma_release`) is foreign hardware I/O. It appears only as trace events. The ignored return value of the descriptor write is not modelled.
- The allocator (`cma_init`, `cma_alloc_noncached`, `cma_get_phy_addr`, `cma_free`, `cma_release`) is foreign code. Allocation is a fresh array whose prior contents are an input, and it is assumed to succeed. The source does not check `cma_alloc_noncached` for NULL (`sw/src/main.c:65`) before writing at `sw/src/main.c:69-86`. The address translation is the parameter `phys`, and every other call is a trace event.
- `stbi_load` is a third-party decoder. Its result is the input `DecodeResult`, and its sample buffer is a sequence. So `free(image->data)` of that buffer (`sw/src/main.c:92`) has no counterpart.
- `ImageApi.Image.Load`: on decode failure it says nothing about `width`, `height` and `channels`, because what the decoder leaves in them when it fails is not part of this model.
- `ImageApi.Image.Load` and `Program.Run`: C `int` overflow is excluded by requiring width·height·4 ≤ 2³¹−1 (`DecodeResult.WellFormed`), not modelled as wrap-around.
- Timer measurement (`timer_us_start`, `timer_us_stop`), the `_I`/`_W`/`_E` logging and `print_help` are output with no behavioural content.
- The values of `MSGDMA_DSCR_GO` (bit 31) and `MSGDMA_DSCR_TRANSFER_COMPLETE_IRQ_MASK` (bit 14) come from the Intel mSGDMA descriptor format. `msgdma_api.h` is not part of this model.
- The VUnit `run.py` scripts under `components/` and `libs/` only register VHDL sources and generics. They contain no logic.
- The continuous dual-thread display loop, the random-pixel generator and the shared stop flag are not in `sw/src/main.c`, and their substance is concurrency.
