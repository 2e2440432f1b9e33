/**
 * The CRC engine as the rest of the core sees it: kermit_update /
 * xmodem_update and kermit_format / xmodem_format of whichever table build
 * SATCAT5_CRC_TABLE_BITS selects, folded over a byte sequence.
 *
 * The compile-time selection becomes a Build value, so that both builds can
 * be stated side by side: they give the same checksum for every input, and
 * that checksum is the bit-serial CRC-16/KERMIT or CRC-16/XMODEM.
 */
module Crc16Engine {

  import opened Crc16Reference
  import Nibble = Crc16Nibble
  import Byte = Crc16Byte

  /** The two parameter sets the core implements. */
  datatype Variant = Kermit | Xmodem

  /** SATCAT5_CRC_TABLE_BITS: 4 selects the nibble tables, 8 (the default) the byte tables. */
  datatype Build = NibbleTables | ByteTables

  /** The default build. */
  const DefaultBuild: Build := ByteTables

  /** kermit_update or xmodem_update of the given build. */
  function Update(build: Build, variant: Variant, crc: bv16, next: bv8): bv16
  {
    match (build, variant)
    case (NibbleTables, Kermit) => Nibble.KermitUpdate(crc, next)
    case (NibbleTables, Xmodem) => Nibble.XmodemUpdate(crc, next)
    case (ByteTables, Kermit) => Byte.KermitUpdate(crc, next)
    case (ByteTables, Xmodem) => Byte.XmodemUpdate(crc, next)
  }

  /** kermit_format or xmodem_format of the given build. */
  function Format(build: Build, variant: Variant, crc: bv16): bv16
  {
    match (build, variant)
    case (NibbleTables, Kermit) => Nibble.KermitFormat(crc)
    case (NibbleTables, Xmodem) => Nibble.XmodemFormat(crc)
    case (ByteTables, Kermit) => Byte.KermitFormat(crc)
    case (ByteTables, Xmodem) => Byte.XmodemFormat(crc)
  }

  /** The register after feeding every byte of data, in order, to the update. */
  function Fold(build: Build, variant: Variant, crc: bv16, data: seq<bv8>): bv16
    decreases |data|
  {
    if |data| == 0 then crc
    else Update(build, variant, Fold(build, variant, crc, data[..|data| - 1]), data[|data| - 1])
  }

  /** The checksum of a whole buffer: the formatted register, starting from 0. */
  function Checksum(build: Build, variant: Variant, data: seq<bv8>): bv16
  {
    Format(build, variant, Fold(build, variant, 0, data))
  }

  // ---------------------------------------------------------------------
  // The bit-serial counterpart.

  /** One byte of the bit-serial definition. */
  function ReferenceUpdate(variant: Variant, crc: bv16, next: bv8): bv16
  {
    match variant
    case Kermit => KermitReference(crc, next)
    case Xmodem => XmodemReference(crc, next)
  }

  /** The bit-serial register after every byte of data. */
  function ReferenceFold(variant: Variant, crc: bv16, data: seq<bv8>): bv16
    decreases |data|
  {
    if |data| == 0 then crc
    else ReferenceUpdate(variant, ReferenceFold(variant, crc, data[..|data| - 1]), data[|data| - 1])
  }

  /**
   * The value the core returns for a buffer: the CRC byte-swapped for
   * KERMIT, as it stands for XMODEM.
   */
  function ReferenceChecksum(variant: Variant, data: seq<bv8>): bv16
  {
    match variant
    case Kermit => Bswap16(ReferenceFold(Kermit, 0, data))
    case Xmodem => ReferenceFold(Xmodem, 0, data)
  }

  // ---------------------------------------------------------------------
  // Folds.

  /** Feeding one more byte is one more update: what a loop over the buffer, or a stream, does. */
  lemma FoldSnoc(build: Build, variant: Variant, crc: bv16, data: seq<bv8>, next: bv8)
    ensures Fold(build, variant, crc, data + [next])
         == Update(build, variant, Fold(build, variant, crc, data), next)
  {
    assert (data + [next])[..|data|] == data;
  }

  /** Feeding two buffers one after the other is feeding their concatenation. */
  lemma {:induction false} FoldConcat(build: Build, variant: Variant, crc: bv16, a: seq<bv8>, b: seq<bv8>)
    ensures Fold(build, variant, crc, a + b) == Fold(build, variant, Fold(build, variant, crc, a), b)
    decreases |b|
  {
    if |b| == 0 {
      assert a + b == a;
    } else {
      var init := b[..|b| - 1];
      assert a + b == (a + init) + [b[|b| - 1]];
      assert b == init + [b[|b| - 1]];
      FoldConcat(build, variant, crc, a, init);
      FoldSnoc(build, variant, crc, a + init, b[|b| - 1]);
      FoldSnoc(build, variant, Fold(build, variant, crc, a), init, b[|b| - 1]);
    }
  }

  /** A checksum can be resumed: the register after a first part, fed the rest, gives the checksum of the whole. */
  lemma ResumeChecksum(build: Build, variant: Variant, a: seq<bv8>, b: seq<bv8>)
    ensures Checksum(build, variant, a + b) == Format(build, variant, Fold(build, variant, Fold(build, variant, 0, a), b))
  {
    FoldConcat(build, variant, 0, a, b);
  }

  /** Each KERMIT update of either build is one byte of the bit-serial definition. */
  lemma KermitUpdateIsReference(build: Build, crc: bv16, next: bv8)
    ensures Update(build, Kermit, crc, next) == ReferenceUpdate(Kermit, crc, next)
  {
    match build
    case NibbleTables => Nibble.KermitUpdateIsReference(crc, next);
    case ByteTables => Byte.KermitUpdateIsReference(crc, next);
  }

  /** The KERMIT register of either build is the bit-serial register, byte for byte. */
  lemma {:induction false} KermitFoldIsReference(build: Build, crc: bv16, data: seq<bv8>)
    ensures Fold(build, Kermit, crc, data) == ReferenceFold(Kermit, crc, data)
    decreases |data|
  {
    if |data| > 0 {
      var last := |data| - 1;
      calc {
        Fold(build, Kermit, crc, data);
        Update(build, Kermit, Fold(build, Kermit, crc, data[..last]), data[last]);
        { KermitFoldIsReference(build, crc, data[..last]); }
        Update(build, Kermit, ReferenceFold(Kermit, crc, data[..last]), data[last]);
        { KermitUpdateIsReference(build, ReferenceFold(Kermit, crc, data[..last]), data[last]); }
        ReferenceUpdate(Kermit, ReferenceFold(Kermit, crc, data[..last]), data[last]);
        ReferenceFold(Kermit, crc, data);
      }
    }
  }

  /** The XMODEM register of the nibble build is the bit-serial register. */
  lemma {:induction false} XmodemNibbleFoldIsReference(crc: bv16, data: seq<bv8>)
    ensures Fold(NibbleTables, Xmodem, crc, data) == ReferenceFold(Xmodem, crc, data)
    decreases |data|
  {
    if |data| > 0 {
      var last := |data| - 1;
      calc {
        Fold(NibbleTables, Xmodem, crc, data);
        Nibble.XmodemUpdate(Fold(NibbleTables, Xmodem, crc, data[..last]), data[last]);
        { XmodemNibbleFoldIsReference(crc, data[..last]); }
        Nibble.XmodemUpdate(ReferenceFold(Xmodem, crc, data[..last]), data[last]);
        { Nibble.XmodemUpdateIsReference(ReferenceFold(Xmodem, crc, data[..last]), data[last]); }
        XmodemReference(ReferenceFold(Xmodem, crc, data[..last]), data[last]);
        ReferenceFold(Xmodem, crc, data);
      }
    }
  }

  /** The XMODEM register of the byte build is the bit-serial register byte-swapped, throughout. */
  lemma {:induction false} XmodemByteFoldIsReference(crc: bv16, data: seq<bv8>)
    ensures Fold(ByteTables, Xmodem, Bswap16(crc), data) == Bswap16(ReferenceFold(Xmodem, crc, data))
    decreases |data|
  {
    if |data| > 0 {
      var last := |data| - 1;
      calc {
        Fold(ByteTables, Xmodem, Bswap16(crc), data);
        Byte.XmodemUpdate(Fold(ByteTables, Xmodem, Bswap16(crc), data[..last]), data[last]);
        { XmodemByteFoldIsReference(crc, data[..last]); }
        Byte.XmodemUpdate(Bswap16(ReferenceFold(Xmodem, crc, data[..last])), data[last]);
        { Byte.XmodemUpdateIsReference(ReferenceFold(Xmodem, crc, data[..last]), data[last]); }
        Bswap16(XmodemReference(ReferenceFold(Xmodem, crc, data[..last]), data[last]));
        Bswap16(ReferenceFold(Xmodem, crc, data));
      }
    }
  }

  /** The two builds keep the XMODEM register in opposite byte orders, for every buffer. */
  lemma XmodemFoldsAgree(crc: bv16, data: seq<bv8>)
    ensures Fold(ByteTables, Xmodem, Bswap16(crc), data) == Bswap16(Fold(NibbleTables, Xmodem, crc, data))
  {
    XmodemByteFoldIsReference(crc, data);
    XmodemNibbleFoldIsReference(crc, data);
  }

  // ---------------------------------------------------------------------
  // Checksums.

  /** Both builds return the standard CRC of the buffer. */
  lemma ChecksumIsReference(build: Build, variant: Variant, data: seq<bv8>)
    ensures Checksum(build, variant, data) == ReferenceChecksum(variant, data)
  {
    match (build, variant)
    case (_, Kermit) => KermitFoldIsReference(build, 0, data);
    case (NibbleTables, Xmodem) => XmodemNibbleFoldIsReference(0, data);
    case (ByteTables, Xmodem) =>
      XmodemByteFoldIsReference(0, data);
      Bswap16Involution(ReferenceFold(Xmodem, 0, data));
  }

  /** The choice of table size never changes a checksum: byte swap included, the two builds agree. */
  lemma BuildsAgree(variant: Variant, data: seq<bv8>)
    ensures Checksum(NibbleTables, variant, data) == Checksum(ByteTables, variant, data)
  {
    ChecksumIsReference(NibbleTables, variant, data);
    ChecksumIsReference(ByteTables, variant, data);
  }

  /**
   * From a register other than 0, the two XMODEM builds agree only when
   * that register reads the same byte-swapped: the byte build keeps its
   * register swapped, so it reads a start value with its bytes exchanged.
   * KERMIT keeps one byte order in both builds and agrees from every start.
   */
  lemma StartedChecksumsAgree(variant: Variant, start: bv16, data: seq<bv8>)
    requires variant == Kermit || Bswap16(start) == start
    ensures Format(NibbleTables, variant, Fold(NibbleTables, variant, start, data))
         == Format(ByteTables, variant, Fold(ByteTables, variant, start, data))
  {
    match variant
    case Kermit =>
      KermitFoldIsReference(NibbleTables, start, data);
      KermitFoldIsReference(ByteTables, start, data);
    case Xmodem =>
      XmodemNibbleFoldIsReference(start, data);
      XmodemByteFoldIsReference(start, data);
      Bswap16Involution(ReferenceFold(Xmodem, start, data));
  }

  /** The smallest start on which the XMODEM builds part: an empty buffer from register 0x0001. */
  lemma AsymmetricStartDisagrees()
    ensures Format(NibbleTables, Xmodem, Fold(NibbleTables, Xmodem, 0x0001, [])) == 0x0001
    ensures Format(ByteTables, Xmodem, Fold(ByteTables, Xmodem, 0x0001, [])) == 0x0100
  {
  }

  /** A zero-length buffer gives format(0), which is 0 in every build. */
  lemma EmptyChecksum(build: Build, variant: Variant)
    ensures Checksum(build, variant, []) == 0
  {
  }

  // ---------------------------------------------------------------------
  // Error detection.

  /** With the register fixed, different bytes give different registers. */
  lemma UpdateSeparatesBytes(variant: Variant, crc: bv16, x1: bv8, x2: bv8)
    ensures x1 != x2 ==> ReferenceUpdate(variant, crc, x1) != ReferenceUpdate(variant, crc, x2)
  {
    match variant
    case Kermit =>
      KermitReferenceInjective(crc, x1, crc, x2);
    case Xmodem =>
      XmodemReferenceInjective(crc, x1, crc, x2);
      XmodemFeedSeparatesBytes(crc, x1, x2);
  }

  /** With the byte fixed, different registers stay different. */
  lemma UpdateKeepsApart(variant: Variant, c1: bv16, c2: bv16, next: bv8)
    ensures c1 != c2 ==> ReferenceUpdate(variant, c1, next) != ReferenceUpdate(variant, c2, next)
  {
    match variant
    case Kermit =>
      KermitReferenceInjective(c1, next, c2, next);
    case Xmodem =>
      XmodemReferenceInjective(c1, next, c2, next);
      XmodemFeedKeepsApart(c1, c2, next);
  }

  /** Two buffers that differ in exactly one byte end in different bit-serial registers. */
  lemma {:induction false} ReferenceFoldDetects(variant: Variant, crc: bv16, a: seq<bv8>, b: seq<bv8>, pos: nat)
    requires |a| == |b| && pos < |a| && a[pos] != b[pos]
    requires forall i :: 0 <= i < |a| && i != pos ==> a[i] == b[i]
    ensures ReferenceFold(variant, crc, a) != ReferenceFold(variant, crc, b)
    decreases |a|
  {
    var last := |a| - 1;
    if pos == last {
      assert a[..last] == b[..last];
      UpdateSeparatesBytes(variant, ReferenceFold(variant, crc, a[..last]), a[last], b[last]);
    } else {
      ReferenceFoldDetects(variant, crc, a[..last], b[..last], pos);
      UpdateKeepsApart(variant, ReferenceFold(variant, crc, a[..last]), ReferenceFold(variant, crc, b[..last]), a[last]);
    }
  }

  /** The format step of each build is one-to-one: a byte swap or the identity. */
  lemma FormatInjective(build: Build, variant: Variant, x: bv16, y: bv16)
    ensures Format(build, variant, x) == Format(build, variant, y) ==> x == y
  {
    Bswap16Involution(x);
    Bswap16Involution(y);
  }

  /** From any start, two buffers that differ in exactly one byte end in different registers, in either build. */
  lemma FoldDetects(build: Build, variant: Variant, start: bv16, a: seq<bv8>, b: seq<bv8>, pos: nat)
    requires |a| == |b| && pos < |a| && a[pos] != b[pos]
    requires forall i :: 0 <= i < |a| && i != pos ==> a[i] == b[i]
    ensures Fold(build, variant, start, a) != Fold(build, variant, start, b)
  {
    match (build, variant)
    case (_, Kermit) =>
      KermitFoldIsReference(build, start, a);
      KermitFoldIsReference(build, start, b);
      ReferenceFoldDetects(Kermit, start, a, b, pos);
    case (NibbleTables, Xmodem) =>
      XmodemNibbleFoldIsReference(start, a);
      XmodemNibbleFoldIsReference(start, b);
      ReferenceFoldDetects(Xmodem, start, a, b, pos);
    case (ByteTables, Xmodem) =>
      var swapped := Bswap16(start);
      Bswap16Involution(start);
      XmodemByteFoldIsReference(swapped, a);
      XmodemByteFoldIsReference(swapped, b);
      ReferenceFoldDetects(Xmodem, swapped, a, b, pos);
      Bswap16Involution(ReferenceFold(Xmodem, swapped, a));
      Bswap16Involution(ReferenceFold(Xmodem, swapped, b));
  }

  /** Every error confined to one byte of a buffer changes its checksum, in either build. */
  lemma ChecksumDetects(build: Build, variant: Variant, a: seq<bv8>, b: seq<bv8>, pos: nat)
    requires |a| == |b| && pos < |a| && a[pos] != b[pos]
    requires forall i :: 0 <= i < |a| && i != pos ==> a[i] == b[i]
    ensures Checksum(build, variant, a) != Checksum(build, variant, b)
  {
    ChecksumIsReference(build, variant, a);
    ChecksumIsReference(build, variant, b);
    ReferenceFoldDetects(variant, 0, a, b, pos);
    Bswap16Involution(ReferenceFold(variant, 0, a));
    Bswap16Involution(ReferenceFold(variant, 0, b));
  }

  // ---------------------------------------------------------------------
  // The published check values.

  /** The nine ASCII bytes "123456789" of the standard CRC test vector. */
  const CheckInput: seq<bv8> := [0x31, 0x32, 0x33, 0x34, 0x35, 0x36, 0x37, 0x38, 0x39]

  /** The bit-serial fold, like Fold, is one more update per byte. */
  lemma ReferencePrefix(variant: Variant, crc: bv16, data: seq<bv8>, i: nat)
    requires 0 < i <= |data|
    ensures ReferenceFold(variant, crc, data[..i])
         == ReferenceUpdate(variant, ReferenceFold(variant, crc, data[..i - 1]), data[i - 1])
  {
    assert data[..i][..i - 1] == data[..i - 1];
  }

  /** CRC-16/KERMIT of the test vector is 0x2189. */
  lemma KermitCheckRegister()
    ensures ReferenceFold(Kermit, 0, CheckInput) == 0x2189
  {
    assert CheckInput[..0] == [];
    ReferencePrefix(Kermit, 0, CheckInput, 1);
    assert ReferenceFold(Kermit, 0, CheckInput[..1]) == 0x200A;
    ReferencePrefix(Kermit, 0, CheckInput, 2);
    assert ReferenceFold(Kermit, 0, CheckInput[..2]) == 0xBDEB;
    ReferencePrefix(Kermit, 0, CheckInput, 3);
    assert ReferenceFold(Kermit, 0, CheckInput[..3]) == 0x5A78;
    ReferencePrefix(Kermit, 0, CheckInput, 4);
    assert ReferenceFold(Kermit, 0, CheckInput[..4]) == 0x8832;
    ReferencePrefix(Kermit, 0, CheckInput, 5);
    assert ReferenceFold(Kermit, 0, CheckInput[..5]) == 0x7437;
    ReferencePrefix(Kermit, 0, CheckInput, 6);
    assert ReferenceFold(Kermit, 0, CheckInput[..6]) == 0x11FD;
    ReferencePrefix(Kermit, 0, CheckInput, 7);
    assert ReferenceFold(Kermit, 0, CheckInput[..7]) == 0x6947;
    ReferencePrefix(Kermit, 0, CheckInput, 8);
    assert ReferenceFold(Kermit, 0, CheckInput[..8]) == 0x8B19;
    ReferencePrefix(Kermit, 0, CheckInput, 9);
    assert CheckInput[..9] == CheckInput;
  }

  /** CRC-16/XMODEM of the test vector is 0x31C3. */
  lemma XmodemCheckRegister()
    ensures ReferenceFold(Xmodem, 0, CheckInput) == 0x31C3
  {
    assert CheckInput[..0] == [];
    ReferencePrefix(Xmodem, 0, CheckInput, 1);
    assert ReferenceFold(Xmodem, 0, CheckInput[..1]) == 0x2672;
    ReferencePrefix(Xmodem, 0, CheckInput, 2);
    assert ReferenceFold(Xmodem, 0, CheckInput[..2]) == 0x20B5;
    ReferencePrefix(Xmodem, 0, CheckInput, 3);
    assert ReferenceFold(Xmodem, 0, CheckInput[..3]) == 0x9752;
    ReferencePrefix(Xmodem, 0, CheckInput, 4);
    assert ReferenceFold(Xmodem, 0, CheckInput[..4]) == 0xD789;
    ReferencePrefix(Xmodem, 0, CheckInput, 5);
    assert ReferenceFold(Xmodem, 0, CheckInput[..5]) == 0x546C;
    ReferencePrefix(Xmodem, 0, CheckInput, 6);
    assert ReferenceFold(Xmodem, 0, CheckInput[..6]) == 0x20E4;
    ReferencePrefix(Xmodem, 0, CheckInput, 7);
    assert ReferenceFold(Xmodem, 0, CheckInput[..7]) == 0x86D6;
    ReferencePrefix(Xmodem, 0, CheckInput, 8);
    assert ReferenceFold(Xmodem, 0, CheckInput[..8]) == 0x9015;
    ReferencePrefix(Xmodem, 0, CheckInput, 9);
    assert CheckInput[..9] == CheckInput;
  }

  /**
   * kermit("123456789") returns 0x8921 (the register byte-swapped) and
   * xmodem("123456789") returns 0x31C3, whichever tables are built.
   */
  lemma CheckValues(build: Build)
    ensures Checksum(build, Kermit, CheckInput) == 0x8921
    ensures Checksum(build, Xmodem, CheckInput) == 0x31C3
  {
    ChecksumIsReference(build, Kermit, CheckInput);
    ChecksumIsReference(build, Xmodem, CheckInput);
    KermitCheckRegister();
    XmodemCheckRegister();
  }
}
