/**
 * The nibble-table build of the CRC-16 engine (SATCAT5_CRC_TABLE_BITS == 4):
 * each input byte costs two lookups in a 16-entry table.
 *
 * KERMIT takes the low nibble first and shifts the register right; XMODEM
 * takes the high nibble first and shifts left, the shift truncated to 16
 * bits.  Both updates are proved equal to the bit-serial definitions of
 * Crc16Reference: KERMIT directly, XMODEM through the mirror that maps it
 * onto KERMIT.
 */
module Crc16Nibble {

  import opened Crc16Reference
  import opened Crc16Tables

  /** The second nibble that kermit_update feeds, and the first that xmodem_update feeds. */
  function HighNibble(next: bv8): (nibble: bv16)
    ensures nibble < 16 && nibble << 4 == (next as bv16) & 0xF0
  {
    (next >> 4) as bv16
  }

  /** index1 / index2 of kermit_update: the low nibble of crc ^ nibble, always a valid table index. */
  function KermitIndex(crc: bv16, nibble: bv16): (index: bv8)
    ensures index < 16 && index as bv16 == (crc & 0x0F) ^ (nibble & 0x0F)
  {
    ((crc ^ nibble) & 0x0F) as bv8
  }

  /** One table step of kermit_update: shift right by a nibble, then XOR the selected entry. */
  function KermitStep(crc: bv16, nibble: bv16): bv16
  {
    (crc >> 4) ^ KermitTable4[KermitIndex(crc, nibble)]
  }

  /** kermit_update: the low nibble of next, then the high nibble. */
  function KermitUpdate(crc: bv16, next: bv8): bv16
  {
    KermitStep(KermitStep(crc, next as bv16), HighNibble(next))
  }

  /** kermit_format of this build: the register byte-swapped. */
  function KermitFormat(crc: bv16): (r: bv16)
    ensures HighByte(r) == LowByte(crc) && LowByte(r) == HighByte(crc)
  {
    Bswap16(crc)
  }

  /** index1 / index2 of xmodem_update: the top nibble of the register mixed with the nibble. */
  function XmodemIndex(crc: bv16, nibble: bv16): (index: bv8)
    ensures index < 16 && index as bv16 == (crc >> 12) ^ (nibble & 0x0F)
  {
    (((crc >> 12) ^ nibble) & 0x0F) as bv8
  }

  /** TABLE_XMODEM[index] for one table step of xmodem_update. */
  function XmodemEntry(crc: bv16, nibble: bv16): bv16
  {
    XmodemTable4[XmodemIndex(crc, nibble)]
  }

  /** One table step of xmodem_update: shift left by a nibble (the top nibble falls off), then XOR the entry. */
  function XmodemStep(crc: bv16, nibble: bv16): bv16
  {
    (crc << 4) ^ XmodemEntry(crc, nibble)
  }

  /** xmodem_update: the high nibble of next, then the low nibble. */
  function XmodemUpdate(crc: bv16, next: bv8): bv16
  {
    XmodemStep(XmodemStep(crc, HighNibble(next)), next as bv16)
  }

  /** xmodem_format of this build: the register as it stands. */
  function XmodemFormat(crc: bv16): bv16
  {
    crc
  }

  // ---------------------------------------------------------------------
  // KERMIT against the bit-serial definition.

  /** Four reflected steps are one table lookup plus a four-place shift. */
  lemma KermitTableStep(x: bv16)
    ensures KermitNibbleSteps(x) == (x >> 4) ^ KermitTable4[x & 0x0F]
  {
    KermitNibbleSplit(x);
    KermitTable4Entries(x & 0x0F);
  }

  /** The first lookup of kermit_update: four steps on crc ^ next, with the high nibble of next still on top. */
  lemma KermitFirstStep(crc: bv16, next: bv8, x: bv16)
    requires x == crc ^ next as bv16
    ensures KermitStep(crc, next as bv16) == KermitNibbleSteps(x) ^ HighNibble(next)
  {
    KermitTableStep(x);
    assert KermitIndex(crc, next as bv16) as int == (x & 0x0F) as int;
  }

  /** The second lookup: the nibble left on top cancels against the one fed in. */
  lemma KermitSecondStep(y: bv16, high: bv16)
    requires high < 16
    ensures KermitStep(y ^ high, high) == KermitNibbleSteps(y)
  {
    KermitTableStep(y);
    assert KermitIndex(y ^ high, high) as int == (y & 0x0F) as int;
  }

  /** The two lookups of kermit_update do exactly the eight steps of one byte. */
  lemma KermitUpdateIsReference(crc: bv16, next: bv8)
    ensures KermitUpdate(crc, next) == KermitReference(crc, next)
  {
    var x := crc ^ next as bv16;
    KermitFirstStep(crc, next, x);
    KermitSecondStep(KermitNibbleSteps(x), HighNibble(next));
  }

  // ---------------------------------------------------------------------
  // XMODEM against the bit-serial definition, through the mirror.

  /** Reversal turns a four-place left shift into a four-place right shift. */
  lemma MirrorShift4(x: bv16, y: bv16)
    ensures Reverse16((x << 4) ^ y) == (Reverse16(x) >> 4) ^ Reverse16(y)
  {
  }

  /** The KERMIT index of the mirrored operands is the XMODEM index read backwards. */
  lemma MirrorIndex(crc: bv16, nibble: bv16, mirrored: bv16)
    ensures mirrored & 0x0F == Reverse16(nibble) >> 12
        ==> KermitIndex(Reverse16(crc), mirrored) == Reverse8(XmodemIndex(crc, nibble)) >> 4
  {
  }

  /** Mirrored, an XMODEM step shifts right and XORs the mirrored table entry. */
  lemma XmodemStepReversed(crc: bv16, nibble: bv16)
    ensures Reverse16(XmodemStep(crc, nibble))
         == (Reverse16(crc) >> 4) ^ Reverse16(XmodemEntry(crc, nibble))
  {
    MirrorShift4(crc, XmodemEntry(crc, nibble));
  }

  /** The mirrored XMODEM entry is the KERMIT entry at the mirrored index. */
  lemma XmodemEntryReversed(crc: bv16, nibble: bv16)
    ensures Reverse16(XmodemEntry(crc, nibble))
         == KermitTable4[Reverse8(XmodemIndex(crc, nibble)) >> 4]
  {
    NibbleTablesMirror(XmodemIndex(crc, nibble));
  }

  /** On the mirrored operands, a KERMIT step selects that same entry. */
  lemma KermitStepMirrored(crc: bv16, nibble: bv16, mirrored: bv16)
    ensures mirrored & 0x0F == Reverse16(nibble) >> 12
        ==> (KermitStep(Reverse16(crc), mirrored)
             == (Reverse16(crc) >> 4) ^ KermitTable4[Reverse8(XmodemIndex(crc, nibble)) >> 4])
  {
    MirrorIndex(crc, nibble, mirrored);
  }

  /** Mirrored, an XMODEM table step is a KERMIT table step on the mirrored nibble. */
  lemma XmodemStepMirror(crc: bv16, nibble: bv16, mirrored: bv16)
    ensures mirrored & 0x0F == Reverse16(nibble) >> 12
        ==> Reverse16(XmodemStep(crc, nibble)) == KermitStep(Reverse16(crc), mirrored)
  {
    XmodemStepReversed(crc, nibble);
    XmodemEntryReversed(crc, nibble);
    KermitStepMirrored(crc, nibble, mirrored);
  }

  /** Mirrored, xmodem_update is kermit_update on the mirrored register and byte. */
  lemma XmodemUpdateMirror(crc: bv16, next: bv8)
    ensures Reverse16(XmodemUpdate(crc, next)) == KermitUpdate(Reverse16(crc), Reverse8(next))
  {
    var first := XmodemStep(crc, HighNibble(next));
    XmodemStepMirror(crc, HighNibble(next), Reverse8(next) as bv16);
    Reverse16Involution(first);
    XmodemStepMirror(first, next as bv16, HighNibble(Reverse8(next)));
  }

  /** The two lookups of xmodem_update do exactly the eight steps of one byte. */
  lemma XmodemUpdateIsReference(crc: bv16, next: bv8)
    ensures XmodemUpdate(crc, next) == XmodemReference(crc, next)
  {
    XmodemUpdateMirror(crc, next);
    KermitUpdateIsReference(Reverse16(crc), Reverse8(next));
    MirrorReference(crc, next);
    Reverse16Involution(XmodemUpdate(crc, next));
    Reverse16Involution(XmodemReference(crc, next));
  }
}
