/**
  The control flow of the single-shot program's `main`: argument check,
  driver and allocator start-up, image load, one transfer, teardown. Calls
  into the DMA driver and the allocator are recorded as a trace of events.
*/
module Program {
  import opened Pixels
  import opened Platform
  import opened ImageApi
  import opened FpgaApi

  /** The character device of the mSGDMA core that feeds the VGA component. */
  const MSGDMA_DEVICE: string := "/dev/msgdma0"

  /** The calls made before the image is loaded. */
  function Startup(): (events: seq<Event>)
    ensures |events| == 3 && events[0] == MsgdmaInit(MSGDMA_DEVICE)
    ensures events[1] == EnableGlobalInterruptMask && events[2] == CmaInit
  {
    [MsgdmaInit(MSGDMA_DEVICE), EnableGlobalInterruptMask, CmaInit]
  }

  /** Whether a trace submits any descriptor to the DMA engine. */
  predicate Submits(trace: seq<Event>) {
    exists k :: 0 <= k < |trace| && trace[k].WriteStandardDescriptor?
  }

  /**
    main: `argc` is the argument count (the program name included),
    `decoded` what the image decoder makes of argv[1], and `contents` what
    the allocator's fresh buffer holds before it is written. Returns the
    exit code, the driver and allocator calls made, and the buffer the one
    transfer reads (null when none is made).
  */
  method Run(argc: nat, decoded: DecodeResult, phys: array<uint8> -> uint32, contents: seq<uint8>)
    returns (exitCode: int, trace: seq<Event>, frame: array?<uint8>)
    requires decoded.WellFormed()
    requires decoded.DecodeOk? ==> |contents| == FixedImageSize(decoded.width, decoded.height)
    ensures argc < 2 ==> exitCode == 0 && trace == [] && frame == null
    ensures argc >= 2 && decoded.DecodeFailed? ==>
      exitCode == -1 && trace == Startup() && frame == null
    ensures argc >= 2 && decoded.DecodeOk? ==>
      var size := FixedImageSize(decoded.width, decoded.height);
      && exitCode == 0 && frame != null && frame.Length == size
      && frame[..] == Normalised(decoded.channels, decoded.samples, decoded.width * decoded.height, contents)
      && trace == Startup() + [
           CmaAllocNoncached(size),
           WriteStandardDescriptor(Descriptor(phys(frame), 0, size as uint32,
             MSGDMA_DSCR_GO | MSGDMA_DSCR_TRANSFER_COMPLETE_IRQ_MASK)),
           CmaFree(frame), CmaRelease, MsgdmaRelease]
    ensures Submits(trace) <==> exitCode == 0 && argc >= 2
  {
    var drivers := new Drivers();
    if argc < 2 {
      return 0, drivers.trace, null;
    }
    drivers.MsgdmaInitCall(MSGDMA_DEVICE);
    drivers.EnableGlobalInterruptMaskCall();
    drivers.CmaInitCall();
    var image := new Image();
    var status := image.Load(decoded, drivers, contents);
    if status == -1 {
      return -1, drivers.trace, null;
    }
    var dscr := FpgaVga(image, phys);
    drivers.WriteStandardDescriptorCall(dscr);
    drivers.CmaFreeCall(image.data);
    drivers.CmaReleaseCall();
    drivers.MsgdmaReleaseCall();
    exitCode, trace, frame := 0, drivers.trace, image.data;
    assert trace[4] == WriteStandardDescriptor(dscr);
  }
}
