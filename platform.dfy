/**
  The foreign interfaces the VGA program calls: the mSGDMA driver and the
  contiguous-memory allocator. Each call is recorded, in order, as an event
  of a trace; the descriptor record is the driver's.
*/
module Platform {
  import opened Pixels

  newtype uint32 = x: int | 0 <= x < 0x1_0000_0000

  /**
    Control bits of an mSGDMA standard descriptor (Intel mSGDMA descriptor
    format): bit 31 commits the descriptor to the dispatcher, bit 14 asks for
    an interrupt once the transfer has completed.
  */
  const MSGDMA_DSCR_GO: bv32 := 1 << 31
  const MSGDMA_DSCR_TRANSFER_COMPLETE_IRQ_MASK: bv32 := 1 << 14

  /** struct msgdma_dscr: read (source) address, write address, length in bytes, control. */
  datatype Descriptor = Descriptor(readAddr: uint32, writeAddr: uint32, length: uint32, control: bv32)

  /** A call into the DMA driver or the allocator. */
  datatype Event =
    | MsgdmaInit(device: string)
    | EnableGlobalInterruptMask
    | CmaInit
    | CmaAllocNoncached(size: nat)
    | WriteStandardDescriptor(dscr: Descriptor)
    | CmaFree(buf: array<uint8>)
    | CmaRelease
    | MsgdmaRelease

  /** The driver and the allocator as seen by the program: the calls made so far. */
  class Drivers {
    var trace: seq<Event>

    constructor ()
      ensures trace == []
    {
      trace := [];
    }

    /** msgdma_init: open the mSGDMA core behind `device`. */
    method MsgdmaInitCall(device: string)
      modifies this
      ensures trace == old(trace) + [MsgdmaInit(device)]
    {
      trace := trace + [MsgdmaInit(device)];
    }

    /** enable_global_interrupt_mask: let the core raise interrupts. */
    method EnableGlobalInterruptMaskCall()
      modifies this
      ensures trace == old(trace) + [EnableGlobalInterruptMask]
    {
      trace := trace + [EnableGlobalInterruptMask];
    }

    /** cma_init: open the allocator. */
    method CmaInitCall()
      modifies this
      ensures trace == old(trace) + [CmaInit]
    {
      trace := trace + [CmaInit];
    }

    /**
      cma_alloc_noncached: a fresh buffer of `size` bytes. The allocator does
      not clear it; `contents` is what the buffer happens to hold.
    */
    method CmaAllocNoncachedCall(size: nat, contents: seq<uint8>) returns (buf: array<uint8>)
      requires |contents| == size
      modifies this
      ensures fresh(buf) && buf[..] == contents
      ensures trace == old(trace) + [CmaAllocNoncached(size)]
    {
      buf := new uint8[size](k requires 0 <= k < size => contents[k]);
      trace := trace + [CmaAllocNoncached(size)];
    }

    /** write_standard_descriptor: submit one transfer to the mSGDMA core. */
    method WriteStandardDescriptorCall(dscr: Descriptor)
      modifies this
      ensures trace == old(trace) + [WriteStandardDescriptor(dscr)]
    {
      trace := trace + [WriteStandardDescriptor(dscr)];
    }

    /** cma_free: give a buffer back to the allocator. */
    method CmaFreeCall(buf: array<uint8>)
      modifies this
      ensures trace == old(trace) + [CmaFree(buf)]
    {
      trace := trace + [CmaFree(buf)];
    }

    /** cma_release: close the allocator. */
    method CmaReleaseCall()
      modifies this
      ensures trace == old(trace) + [CmaRelease]
    {
      trace := trace + [CmaRelease];
    }

    /** msgdma_release: close the mSGDMA core. */
    method MsgdmaReleaseCall()
      modifies this
      ensures trace == old(trace) + [MsgdmaRelease]
    {
      trace := trace + [MsgdmaRelease];
    }
  }
}
