/**
 * Bit-serial definition of the two CRC-16 variants that the satcat5 core
 * computes with lookup tables, and the byte swap its format step uses.
 *
 * Both variants divide by the polynomial x^16 + x^12 + x^5 + 1 of ITU-T
 * V.41, start from register 0 and apply no final XOR:
 *  - CRC-16/KERMIT is the reflected form: least-significant bit first, the
 *    register shifts right, the polynomial is written 0x8408;
 *  - CRC-16/XMODEM is the normal form: most-significant bit first, the
 *    register shifts left, the polynomial is written 0x1021.
 *
 * The two are mirror images of each other: reversing the bit order of the
 * register and of the input turns one division step of XMODEM into one of
 * KERMIT.  The table-driven builds (modules Crc16Nibble and Crc16Byte) are
 * proved equal to these definitions.
 */
module Crc16Reference {

  function HighByte(x: bv16): bv8 { (x >> 8) as bv8 }

  function LowByte(x: bv16): bv8 { (x & 0xFF) as bv8 }

  /** __builtin_bswap16: exchange the two bytes of a 16-bit word. */
  function Bswap16(x: bv16): (r: bv16)
    ensures HighByte(r) == LowByte(x) && LowByte(r) == HighByte(x)
  {
    (x << 8) | (x >> 8)
  }

  /** Swapping twice gives the word back, so a byte swap loses nothing. */
  lemma Bswap16Involution(x: bv16)
    ensures Bswap16(Bswap16(x)) == x
  {
  }

  // ---------------------------------------------------------------------
  // KERMIT: one register bit at a time, shifting right.

  /**
   * One step of polynomial division in reflected order: the shift drops
   * bit 0, and the polynomial is subtracted exactly when that bit was set.
   */
  function KermitBitStep(crc: bv16): bv16
  {
    (crc >> 1) ^ ((crc & 1) * 0x8408)
  }

  /** Four division steps: the work one nibble of input needs. */
  function KermitNibbleSteps(crc: bv16): bv16
  {
    KermitBitStep(KermitBitStep(KermitBitStep(KermitBitStep(crc))))
  }

  /** The register after one more input byte: the byte enters at the low end, then eight steps. */
  function KermitReference(crc: bv16, next: bv8): bv16
  {
    KermitNibbleSteps(KermitNibbleSteps(crc ^ next as bv16))
  }

  /**
   * Four steps act on the low nibble alone and shift the rest of the
   * register through unchanged: this is what lets a 16-entry table do them.
   */
  lemma KermitNibbleSplit(x: bv16)
    ensures KermitNibbleSteps(x) == (x >> 4) ^ KermitNibbleSteps(x & 0x0F)
  {
  }

  /**
   * Register bits above the low nibble pass through four steps untouched,
   * shifted down four places: no polynomial is subtracted on their account.
   */
  lemma KermitNibbleShiftIn(a: bv16, h: bv16)
    requires h & 0x0F == 0
    ensures KermitNibbleSteps(a ^ h) == KermitNibbleSteps(a) ^ (h >> 4)
  {
    KermitNibbleSplit(a ^ h);
    KermitNibbleSplit(a);
    assert (a ^ h) & 0x0F == a & 0x0F;
  }

  /** Eight steps likewise act on the low byte alone. */
  lemma KermitByteSplit(x: bv16)
    ensures KermitNibbleSteps(KermitNibbleSteps(x))
         == (x >> 8) ^ KermitNibbleSteps(KermitNibbleSteps(x & 0xFF))
  {
    var low, high := x & 0xFF, x & 0xFF00;
    assert x == low ^ high;
    KermitNibbleShiftIn(low, high);
    KermitNibbleShiftIn(KermitNibbleSteps(low), high >> 4);
  }

  /**
   * A byte update of any register is the register shifted right by eight
   * plus the update of register 0 by the low byte of crc ^ next: this is
   * what lets a 256-entry table do a whole byte.
   */
  lemma KermitReferenceSplit(crc: bv16, next: bv8)
    ensures KermitReference(crc, next) == (crc >> 8) ^ KermitReference(0, LowByte(crc) ^ next)
  {
    KermitByteSplit(crc ^ next as bv16);
  }

  // ---------------------------------------------------------------------
  // XMODEM: one register bit at a time, shifting left.

  /** One step of polynomial division in normal order: bit 15 leaves, the polynomial follows it. */
  function XmodemBitStep(crc: bv16): bv16
  {
    (crc << 1) ^ ((crc >> 15) * 0x1021)
  }

  function XmodemNibbleSteps(crc: bv16): bv16
  {
    XmodemBitStep(XmodemBitStep(XmodemBitStep(XmodemBitStep(crc))))
  }

  /** The input byte enters the register at the high end. */
  function XmodemFeed(crc: bv16, next: bv8): bv16
  {
    crc ^ ((next as bv16) << 8)
  }

  function XmodemReference(crc: bv16, next: bv8): bv16
  {
    XmodemNibbleSteps(XmodemNibbleSteps(XmodemFeed(crc, next)))
  }

  /** Four steps act on the high nibble alone and shift the rest of the register left. */
  lemma XmodemNibbleSplit(x: bv16)
    ensures XmodemNibbleSteps(x) == (x << 4) ^ XmodemNibbleSteps(x & 0xF000)
  {
  }

  /** Eight steps act on the high byte alone. */
  lemma XmodemByteSplit(x: bv16)
    ensures XmodemNibbleSteps(XmodemNibbleSteps(x))
         == (x << 8) ^ XmodemNibbleSteps(XmodemNibbleSteps(x & 0xFF00))
  {
    XmodemNibbleSplit(x);
    XmodemNibbleSplit(x & 0xFF00);
  }

  /** Of a fed register, the eight-place shift keeps only crc, and the high byte is a byte fed to register 0. */
  lemma XmodemFeedParts(crc: bv16, next: bv8)
    ensures XmodemFeed(crc, next) << 8 == crc << 8
    ensures XmodemFeed(crc, next) & 0xFF00 == XmodemFeed(0, HighByte(crc) ^ next)
  {
  }

  /** The eight steps of one byte, on a fed register, split into the shifted register and a fed 0. */
  lemma XmodemFedSplit(crc: bv16, next: bv8)
    ensures XmodemNibbleSteps(XmodemNibbleSteps(XmodemFeed(crc, next)))
         == (crc << 8) ^ XmodemNibbleSteps(XmodemNibbleSteps(XmodemFeed(0, HighByte(crc) ^ next)))
  {
    XmodemByteSplit(XmodemFeed(crc, next));
    XmodemFeedParts(crc, next);
  }

  /** A byte update of any register is the register shifted left by eight plus the update of register 0. */
  lemma XmodemReferenceSplit(crc: bv16, next: bv8)
    ensures XmodemReference(crc, next) == (crc << 8) ^ XmodemReference(0, HighByte(crc) ^ next)
  {
    calc {
      XmodemReference(crc, next);
      XmodemNibbleSteps(XmodemNibbleSteps(XmodemFeed(crc, next)));
      { XmodemFedSplit(crc, next); }
      (crc << 8) ^ XmodemNibbleSteps(XmodemNibbleSteps(XmodemFeed(0, HighByte(crc) ^ next)));
      (crc << 8) ^ XmodemReference(0, HighByte(crc) ^ next);
    }
  }

  // ---------------------------------------------------------------------
  // No division step loses information: each is a bijection of the
  // register, so a byte update never maps two different fed registers to
  // the same result.  This is what makes every error confined to one byte
  // visible in the checksum.

  /** Bit 0, shifted out, is recovered from bit 15, where 0x8408 puts it. */
  lemma KermitBitStepInjective(a: bv16, b: bv16)
    ensures KermitBitStep(a) == KermitBitStep(b) ==> a == b
  {
  }

  lemma KermitNibbleStepsInjective(a: bv16, b: bv16)
    ensures KermitNibbleSteps(a) == KermitNibbleSteps(b) ==> a == b
  {
    KermitBitStepInjective(a, b);
    KermitBitStepInjective(KermitBitStep(a), KermitBitStep(b));
    KermitBitStepInjective(KermitBitStep(KermitBitStep(a)), KermitBitStep(KermitBitStep(b)));
    KermitBitStepInjective(KermitBitStep(KermitBitStep(KermitBitStep(a))),
                           KermitBitStep(KermitBitStep(KermitBitStep(b))));
  }

  lemma KermitByteStepsInjective(a: bv16, b: bv16)
    ensures KermitNibbleSteps(KermitNibbleSteps(a)) == KermitNibbleSteps(KermitNibbleSteps(b)) ==> a == b
  {
    KermitNibbleStepsInjective(a, b);
    KermitNibbleStepsInjective(KermitNibbleSteps(a), KermitNibbleSteps(b));
  }

  /** Equal KERMIT updates come from equal fed registers crc ^ next. */
  lemma KermitReferenceInjective(c1: bv16, x1: bv8, c2: bv16, x2: bv8)
    ensures KermitReference(c1, x1) == KermitReference(c2, x2) ==> c1 ^ x1 as bv16 == c2 ^ x2 as bv16
  {
    KermitByteStepsInjective(c1 ^ x1 as bv16, c2 ^ x2 as bv16);
  }

  /** Bit 15, shifted out, is recovered from bit 0, where 0x1021 puts it. */
  lemma XmodemBitStepInjective(a: bv16, b: bv16)
    ensures XmodemBitStep(a) == XmodemBitStep(b) ==> a == b
  {
  }

  lemma XmodemNibbleStepsInjective(a: bv16, b: bv16)
    ensures XmodemNibbleSteps(a) == XmodemNibbleSteps(b) ==> a == b
  {
    XmodemBitStepInjective(a, b);
    XmodemBitStepInjective(XmodemBitStep(a), XmodemBitStep(b));
    XmodemBitStepInjective(XmodemBitStep(XmodemBitStep(a)), XmodemBitStep(XmodemBitStep(b)));
    XmodemBitStepInjective(XmodemBitStep(XmodemBitStep(XmodemBitStep(a))),
                           XmodemBitStep(XmodemBitStep(XmodemBitStep(b))));
  }

  /** Equal XMODEM updates come from equal fed registers. */
  lemma XmodemReferenceInjective(c1: bv16, x1: bv8, c2: bv16, x2: bv8)
    ensures XmodemReference(c1, x1) == XmodemReference(c2, x2) ==> XmodemFeed(c1, x1) == XmodemFeed(c2, x2)
  {
    XmodemNibbleStepsInjective(XmodemFeed(c1, x1), XmodemFeed(c2, x2));
    XmodemNibbleStepsInjective(XmodemNibbleSteps(XmodemFeed(c1, x1)), XmodemNibbleSteps(XmodemFeed(c2, x2)));
  }

  /** Feeding different bytes into one register gives different fed registers. */
  lemma XmodemFeedSeparatesBytes(crc: bv16, x1: bv8, x2: bv8)
    ensures XmodemFeed(crc, x1) == XmodemFeed(crc, x2) ==> x1 == x2
  {
  }

  /** Feeding one byte into different registers gives different fed registers. */
  lemma XmodemFeedKeepsApart(c1: bv16, c2: bv16, next: bv8)
    ensures XmodemFeed(c1, next) == XmodemFeed(c2, next) ==> c1 == c2
  {
  }

  // ---------------------------------------------------------------------
  // The mirror between the two variants.

  /** Bit i of the result is bit 15 - i of x. */
  function Reverse16(x: bv16): (r: bv16)
    ensures r & 1 == x >> 15 && r >> 15 == x & 1
  {
    var a := ((x & 0x5555) << 1) | ((x >> 1) & 0x5555);
    var b := ((a & 0x3333) << 2) | ((a >> 2) & 0x3333);
    var c := ((b & 0x0F0F) << 4) | ((b >> 4) & 0x0F0F);
    (c << 8) | (c >> 8)
  }

  /** Bit i of the result is bit 7 - i of x. */
  function Reverse8(x: bv8): bv8
  {
    HighByte(Reverse16(x as bv16))
  }

  lemma Reverse16Involution(x: bv16)
    ensures Reverse16(Reverse16(x)) == x
  {
  }

  /** Reversal exchanges left and right shifts, and 0x1021 with 0x8408. */
  lemma MirrorBitStep(crc: bv16)
    ensures Reverse16(XmodemBitStep(crc)) == KermitBitStep(Reverse16(crc))
  {
  }

  lemma MirrorNibbleSteps(crc: bv16)
    ensures Reverse16(XmodemNibbleSteps(crc)) == KermitNibbleSteps(Reverse16(crc))
  {
    MirrorBitStep(crc);
    MirrorBitStep(XmodemBitStep(crc));
    MirrorBitStep(XmodemBitStep(XmodemBitStep(crc)));
    MirrorBitStep(XmodemBitStep(XmodemBitStep(XmodemBitStep(crc))));
  }

  /** A byte fed at the high end of the register is, mirrored, the mirrored byte fed at the low end. */
  lemma MirrorFeed(crc: bv16, next: bv8)
    ensures Reverse16(XmodemFeed(crc, next)) == Reverse16(crc) ^ Reverse8(next) as bv16
  {
  }

  /** XMODEM is KERMIT seen in a mirror, one byte at a time. */
  lemma MirrorReference(crc: bv16, next: bv8)
    ensures Reverse16(XmodemReference(crc, next)) == KermitReference(Reverse16(crc), Reverse8(next))
  {
    MirrorFeed(crc, next);
    MirrorNibbleSteps(XmodemFeed(crc, next));
    MirrorNibbleSteps(XmodemNibbleSteps(XmodemFeed(crc, next)));
  }
}
