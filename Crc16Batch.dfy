/**
 * The batch functions kermit(nbytes, data) and xmodem(nbytes, data): a loop
 * that starts the register at 0, updates it with each of the first nbytes
 * bytes of the buffer, and returns the formatted register.  No seed is
 * applied at this layer.
 */
module Crc16Batch {

  import opened Crc16Engine

  /** The loop both batch functions share, over the first nbytes bytes of data. */
  method FoldBuffer(build: Build, variant: Variant, nbytes: nat, data: array<bv8>) returns (crc: bv16)
    requires nbytes <= data.Length
    ensures crc == Fold(build, variant, 0, data[..nbytes])
  {
    crc := 0;
    var a := 0;
    while a < nbytes
      invariant a <= nbytes
      invariant crc == Fold(build, variant, 0, data[..a])
    {
      assert data[..a + 1] == data[..a] + [data[a]];
      FoldSnoc(build, variant, 0, data[..a], data[a]);
      crc := Update(build, variant, crc, data[a]);
      a := a + 1;
    }
  }

  /** kermit(): the CRC-16/KERMIT of the buffer, byte-swapped; 0 for an empty buffer. */
  method Kermit(build: Build, nbytes: nat, data: array<bv8>) returns (r: bv16)
    requires nbytes <= data.Length
    ensures r == Checksum(build, Variant.Kermit, data[..nbytes])
    ensures r == ReferenceChecksum(Variant.Kermit, data[..nbytes])
    ensures nbytes == 0 ==> r == 0
  {
    var crc := FoldBuffer(build, Variant.Kermit, nbytes, data);
    r := Format(build, Variant.Kermit, crc);
    ChecksumIsReference(build, Variant.Kermit, data[..nbytes]);
  }

  /** xmodem(): the CRC-16/XMODEM of the buffer; 0 for an empty buffer. */
  method Xmodem(build: Build, nbytes: nat, data: array<bv8>) returns (r: bv16)
    requires nbytes <= data.Length
    ensures r == Checksum(build, Variant.Xmodem, data[..nbytes])
    ensures r == ReferenceChecksum(Variant.Xmodem, data[..nbytes])
    ensures nbytes == 0 ==> r == 0
  {
    var crc := FoldBuffer(build, Variant.Xmodem, nbytes, data);
    r := Format(build, Variant.Xmodem, crc);
    ChecksumIsReference(build, Variant.Xmodem, data[..nbytes]);
  }
}
