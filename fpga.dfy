/**
  The FPGA-related API of the single-shot VGA program: fpga_vga builds one
  mSGDMA standard descriptor that streams the whole frame buffer to the VGA
  component and hands it to the DMA driver.
*/
module FpgaApi {
  import opened Pixels
  import opened ImageApi
  import opened Platform

  /**
    fpga_vga: the descriptor for the current image, which fpga_vga then
    submits with write_standard_descriptor. `phys` stands for
    cma_get_phy_addr, the allocator's translation of a buffer to the
    physical address the DMA engine reads from.
  */
  function FpgaVga(image: Image, phys: array<uint8> -> uint32): (d: Descriptor)
    reads image
    requires image.data != null && 0 <= image.width && 0 <= image.height
    requires FixedImageSize(image.width, image.height) <= INT_MAX
    ensures d.readAddr == phys(image.data) && d.writeAddr == 0
    ensures d.length as int % 4 == 0 && d.length as int / 4 == image.width * image.height
    ensures image.Loaded() ==> d.length as int == image.data.Length
    ensures d.control & MSGDMA_DSCR_GO != 0
    ensures d.control & MSGDMA_DSCR_TRANSFER_COMPLETE_IRQ_MASK != 0
    ensures d.control & !(MSGDMA_DSCR_GO | MSGDMA_DSCR_TRANSFER_COMPLETE_IRQ_MASK) == 0
  {
    Descriptor(
      phys(image.data),
      0x0,
      FixedImageSize(image.width, image.height) as uint32,
      MSGDMA_DSCR_GO | MSGDMA_DSCR_TRANSFER_COMPLETE_IRQ_MASK)
  }

  /**
    Building the descriptor twice for images with the same dimensions and the
    same buffer gives the same descriptor; in particular the channel count
    plays no part in it.
  */
  lemma RepeatedDescriptorsAgree(a: Image, b: Image, phys: array<uint8> -> uint32)
    requires a.data != null && 0 <= a.width && 0 <= a.height
    requires FixedImageSize(a.width, a.height) <= INT_MAX
    requires b.data == a.data && b.width == a.width && b.height == a.height
    ensures FpgaVga(a, phys) == FpgaVga(b, phys)
  {
  }
}
