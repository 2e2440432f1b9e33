/**
 * The downstream byte sink the checksum stages write into (a Writeable in
 * the source), reduced to what those stages use: write_u8, write_u16 and
 * write_finalize.  The sink's own implementation is not part of this model:
 * it records what it is given, the two bytes of write_u16 go out in the
 * order the sink is configured with, and whether write_finalize succeeds is
 * fixed when the sink is made.
 */
module ChecksumIo {

  /** The order in which write_u16 puts the two bytes of a word on the wire. */
  datatype ByteOrder = BigEndian | LittleEndian

  /** The two bytes write_u16 emits for a word, first byte first. */
  function U16Bytes(order: ByteOrder, x: bv16): (bytes: seq<bv8>)
    ensures |bytes| == 2
  {
    match order
    case BigEndian => [(x >> 8) as bv8, (x & 0xFF) as bv8]
    case LittleEndian => [(x & 0xFF) as bv8, (x >> 8) as bv8]
  }

  /** The word two wire bytes stand for: the inverse of U16Bytes. */
  function U16Value(order: ByteOrder, bytes: seq<bv8>): bv16
    requires |bytes| == 2
  {
    match order
    case BigEndian => ((bytes[0] as bv16) << 8) | bytes[1] as bv16
    case LittleEndian => ((bytes[1] as bv16) << 8) | bytes[0] as bv16
  }

  /** A word is its high byte shifted up, joined to its low byte. */
  lemma Rejoin(x: bv16, high: bv8, low: bv8)
    requires high == (x >> 8) as bv8 && low == (x & 0xFF) as bv8
    ensures ((high as bv16) << 8) | low as bv16 == x
  {
  }

  /** Reading back what write_u16 wrote gives the word. */
  lemma U16RoundTrip(order: ByteOrder, x: bv16)
    ensures U16Value(order, U16Bytes(order, x)) == x
  {
    Rejoin(x, (x >> 8) as bv8, (x & 0xFF) as bv8);
  }

  /** Two different words never look alike on the wire. */
  lemma U16Injective(order: ByteOrder, x: bv16, y: bv16)
    ensures U16Bytes(order, x) == U16Bytes(order, y) <==> x == y
  {
    if U16Bytes(order, x) == U16Bytes(order, y) {
      U16RoundTrip(order, x);
      U16RoundTrip(order, y);
    }
  }

  /** A sink that records every byte written to it. */
  class Sink {
    const order: ByteOrder
    /** What write_finalize reports. */
    const accepts: bool
    /** Every byte written so far, in order. */
    var written: seq<bv8>
    /** Whether write_finalize has been called. */
    var finalized: bool
    /** Where each finalized frame ends: the length of written at each write_finalize. */
    var ends: seq<nat>

    constructor(order: ByteOrder, accepts: bool)
      ensures this.order == order && this.accepts == accepts
      ensures written == [] && !finalized && ends == []
    {
      this.order := order;
      this.accepts := accepts;
      written := [];
      finalized := false;
      ends := [];
    }

    /** write_u8: append one byte. */
    method WriteU8(data: bv8)
      modifies this
      ensures written == old(written) + [data]
      ensures finalized == old(finalized) && ends == old(ends)
    {
      written := written + [data];
    }

    /** write_u16: append the two bytes of a word. */
    method WriteU16(data: bv16)
      modifies this
      ensures written == old(written) + U16Bytes(order, data)
      ensures finalized == old(finalized) && ends == old(ends)
    {
      written := written + U16Bytes(order, data);
    }

    /** write_finalize: end the frame and report its outcome. */
    method WriteFinalize() returns (ok: bool)
      modifies this
      ensures ok == accepts
      ensures finalized && written == old(written)
      ensures ends == old(ends) + [|written|]
    {
      finalized := true;
      ends := ends + [|written|];
      ok := accepts;
    }
  }
}
