/**
 * The streaming checksum stages KermitTx / XmodemTx (append a checksum to a
 * frame) and KermitRx / XmodemRx (check and strip it).  The two variants of
 * each stage differ only in which update and format they call, so each
 * stage is one class here, with the variant fixed at construction.
 *
 * A transmit stage forwards every byte and hashes it; at the end of the
 * frame it appends format(m_chk) ^ m_init.  A receive stage holds the last
 * two bytes back in a delay register (they may be the checksum), forwards
 * and hashes only the bytes that register releases, and at the end of the
 * frame compares the two held bytes with format(m_chk) ^ m_init.
 *
 * The base classes ChecksumTx<u16,2> and ChecksumRx<u16,2> are not part of
 * this model; what the stages use of them (m_chk, m_init, m_dst,
 * chk_finalize, sreg_push, sreg_match) is modelled in these classes, with
 * the assumptions listed at each.  The value m_chk starts from, at
 * construction and again after each frame, is set by the base class: it is
 * the constant `start` of each stage here, so that every property below
 * says which starts it holds for (0, or m_init itself, are the natural
 * readings).
 */
module Crc16Stream {

  import opened Crc16Engine
  import opened ChecksumIo
  import opened Crc16Reference

  /** The checksum width in bytes, N of ChecksumRx<u16,N>: the receive delay. */
  const Lag: nat := 2

  /** The trailer value both stages compute: format(m_chk) ^ m_init, m_chk run over the frame's data from start. */
  function Fcs(build: Build, variant: Variant, start: bv16, init: bv16, data: seq<bv8>): bv16
  {
    Format(build, variant, Fold(build, variant, start, data)) ^ init
  }

  /** The bytes a transmit stage emits for one frame: the data, then its FCS. */
  function TxFrame(build: Build, variant: Variant, start: bv16, init: bv16, order: ByteOrder, data: seq<bv8>): (frame: seq<bv8>)
    ensures |frame| == |data| + Lag && frame[..|data|] == data
  {
    data + U16Bytes(order, Fcs(build, variant, start, init, data))
  }

  /** The bytes the receive delay register has released, out of everything it was given. */
  function Released(input: seq<bv8>): (out: seq<bv8>)
    ensures |out| == if |input| <= Lag then 0 else |input| - Lag
  {
    if |input| <= Lag then [] else input[..|input| - Lag]
  }

  /** The bytes the receive delay register holds: the last Lag bytes, fewer at the start. */
  function Window(input: seq<bv8>): (held: seq<bv8>)
    ensures |held| <= Lag
  {
    if |input| <= Lag then input else input[|input| - Lag..]
  }

  /** The receive verdict on a whole frame: the held bytes are the FCS of the released ones. */
  predicate RxAccepts(build: Build, variant: Variant, start: bv16, init: bv16, order: ByteOrder, input: seq<bv8>)
  {
    Window(input) == U16Bytes(order, Fcs(build, variant, start, init, Released(input)))
  }

  // ---------------------------------------------------------------------
  // The delay register.

  /** The register splits the input: released bytes first, held bytes last. */
  lemma ReleasedAndWindow(input: seq<bv8>)
    ensures Released(input) + Window(input) == input
  {
  }

  /** One more byte: once the register is full, its oldest byte is released; before, nothing is. */
  lemma DelaySnoc(input: seq<bv8>, data: bv8)
    ensures |Window(input)| == Lag ==>
      Window(input + [data]) == Window(input)[1..] + [data]
      && Released(input + [data]) == Released(input) + [Window(input)[0]]
    ensures |Window(input)| < Lag ==>
      Window(input + [data]) == Window(input) + [data]
      && Released(input + [data]) == Released(input)
  {
    var next := input + [data];
    if |input| >= Lag {
      assert next[..|next| - Lag] == input[..|input| - Lag] + [input[|input| - Lag]];
      assert next[|next| - Lag..] == input[|input| - Lag..][1..] + [data];
    } else if |input| == Lag - 1 {
      assert next[..|next| - Lag] == [];
      assert next == Window(input) + [data];
    }
  }

  // ---------------------------------------------------------------------
  // Properties of frames.

  /** From register 0, the appended FCS is the batch checksum of the frame's data, XORed with the seed. */
  lemma FcsIsChecksum(build: Build, variant: Variant, init: bv16, data: seq<bv8>)
    ensures Fcs(build, variant, 0, init, data) == Checksum(build, variant, data) ^ init
    ensures Fcs(build, variant, 0, init, data) == ReferenceChecksum(variant, data) ^ init
  {
    ChecksumIsReference(build, variant, data);
  }

  /**
   * What a transmit stage sends, a receive stage of the same build, variant,
   * start, seed and byte order accepts, and it releases exactly the data.
   */
  lemma RoundTrip(build: Build, variant: Variant, start: bv16, init: bv16, order: ByteOrder, data: seq<bv8>)
    ensures Released(TxFrame(build, variant, start, init, order, data)) == data
    ensures RxAccepts(build, variant, start, init, order, TxFrame(build, variant, start, init, order, data))
  {
    var frame := TxFrame(build, variant, start, init, order, data);
    assert Window(frame) == U16Bytes(order, Fcs(build, variant, start, init, data));
  }

  /** Both builds append the same FCS, for KERMIT from every start and for XMODEM from a byte-symmetric one. */
  lemma FcsBuildsAgree(variant: Variant, start: bv16, init: bv16, data: seq<bv8>)
    requires variant == Kermit || Bswap16(start) == start
    ensures Fcs(NibbleTables, variant, start, init, data) == Fcs(ByteTables, variant, start, init, data)
  {
    StartedChecksumsAgree(variant, start, data);
  }

  /**
   * The round trip holds across the two builds as well, for KERMIT from every
   * start and for XMODEM from every start whose two bytes are equal (0
   * among them); AsymmetricStartDisagrees shows why XMODEM needs that.
   */
  lemma RoundTripAcrossBuilds(txBuild: Build, rxBuild: Build, variant: Variant, start: bv16, init: bv16,
                              order: ByteOrder, data: seq<bv8>)
    requires variant == Kermit || Bswap16(start) == start
    ensures Released(TxFrame(txBuild, variant, start, init, order, data)) == data
    ensures RxAccepts(rxBuild, variant, start, init, order, TxFrame(txBuild, variant, start, init, order, data))
  {
    RoundTrip(txBuild, variant, start, init, order, data);
    FcsBuildsAgree(variant, start, init, data);
  }

  /** With the same start on both sides, a frame sent with one seed is rejected by a receive stage with another. */
  lemma SeedMismatch(build: Build, variant: Variant, start: bv16, txInit: bv16, rxInit: bv16,
                     order: ByteOrder, data: seq<bv8>)
    requires txInit != rxInit
    ensures !RxAccepts(build, variant, start, rxInit, order, TxFrame(build, variant, start, txInit, order, data))
  {
    var frame := TxFrame(build, variant, start, txInit, order, data);
    assert Released(frame) == data;
    assert Window(frame) == U16Bytes(order, Fcs(build, variant, start, txInit, data));
    U16Injective(order, Fcs(build, variant, start, txInit, data), Fcs(build, variant, start, rxInit, data));
  }

  /**
   * If m_chk started from the seed itself, different seeds would not be told
   * apart: from start == init, the empty XMODEM frame of the nibble build
   * carries the FCS 0 whatever the seed.
   */
  lemma SeedAsStartEmptyFrame(seed: bv16)
    ensures Fcs(NibbleTables, Xmodem, seed, seed, []) == 0
  {
  }

  /** The frame with one byte XORed with a mask: a transmission error confined to that byte. */
  function Corrupt(frame: seq<bv8>, pos: nat, mask: bv8): (bad: seq<bv8>)
    requires pos < |frame|
    ensures |bad| == |frame| && bad[pos] == frame[pos] ^ mask
    ensures forall i :: 0 <= i < |frame| && i != pos ==> bad[i] == frame[i]
  {
    frame[pos := frame[pos] ^ mask]
  }

  /** A corrupted data byte is released, and the trailer is still held intact. */
  lemma CorruptData(data: seq<bv8>, trailer: seq<bv8>, pos: nat, mask: bv8)
    requires |trailer| == Lag && pos < |data|
    ensures Released(Corrupt(data + trailer, pos, mask)) == Corrupt(data, pos, mask)
    ensures Window(Corrupt(data + trailer, pos, mask)) == trailer
  {
    var bad := Corrupt(data + trailer, pos, mask);
    assert bad[..|data|] == Corrupt(data, pos, mask);
    assert bad[|data|..] == trailer;
  }

  /** A corrupted trailer byte is held, and the data is released intact. */
  lemma CorruptTrailer(data: seq<bv8>, trailer: seq<bv8>, pos: nat, mask: bv8)
    requires |trailer| == Lag && |data| <= pos < |data| + Lag
    ensures Released(Corrupt(data + trailer, pos, mask)) == data
    ensures Window(Corrupt(data + trailer, pos, mask)) == Corrupt(trailer, pos - |data|, mask)
  {
    var bad := Corrupt(data + trailer, pos, mask);
    assert bad[..|data|] == data;
    assert bad[|data|..] == Corrupt(trailer, pos - |data|, mask);
  }

  /** From any start, the FCS of the data changes when one byte of the data does. */
  lemma FcsDetects(build: Build, variant: Variant, start: bv16, init: bv16, data: seq<bv8>, pos: nat, mask: bv8)
    requires mask != 0 && pos < |data|
    ensures Fcs(build, variant, start, init, Corrupt(data, pos, mask)) != Fcs(build, variant, start, init, data)
  {
    var bad := Corrupt(data, pos, mask);
    FoldDetects(build, variant, start, data, bad, pos);
    FormatInjective(build, variant, Fold(build, variant, start, data), Fold(build, variant, start, bad));
  }

  /**
   * Every error confined to one byte of a transmitted frame, data or
   * checksum, is rejected, from any start; in particular every single-bit
   * error.
   */
  lemma CorruptionRejected(build: Build, variant: Variant, start: bv16, init: bv16, order: ByteOrder,
                           data: seq<bv8>, pos: nat, mask: bv8)
    requires mask != 0 && pos < |data| + Lag
    ensures !RxAccepts(build, variant, start, init, order,
                       Corrupt(TxFrame(build, variant, start, init, order, data), pos, mask))
  {
    var fcs := Fcs(build, variant, start, init, data);
    if pos < |data| {
      CorruptData(data, U16Bytes(order, fcs), pos, mask);
      FcsDetects(build, variant, start, init, data, pos, mask);
      U16Injective(order, fcs, Fcs(build, variant, start, init, Corrupt(data, pos, mask)));
    } else {
      CorruptTrailer(data, U16Bytes(order, fcs), pos, mask);
      assert Corrupt(U16Bytes(order, fcs), pos - |data|, mask)[pos - |data|] != U16Bytes(order, fcs)[pos - |data|];
    }
  }

  /** Input shorter than the checksum never passes: the register never filled. */
  lemma ShortInputRejected(build: Build, variant: Variant, start: bv16, init: bv16, order: ByteOrder, input: seq<bv8>)
    requires |input| < Lag
    ensures !RxAccepts(build, variant, start, init, order, input)
  {
  }

  // ---------------------------------------------------------------------
  // The stages.

  /** KermitTx / XmodemTx: forward a frame and append its checksum. */
  class ChecksumTx {
    const build: Build
    const variant: Variant
    /** The value m_chk starts each frame from, set by the base class. */
    const start: bv16
    /** m_init: the seed XORed into the appended checksum. */
    const init: bv16
    /** m_dst: where the frame goes. */
    const dst: Sink
    /** m_chk: the register over the frame so far. */
    var chk: bv16
    /** The data bytes of the current frame. */
    ghost var frame: seq<bv8>

    /** m_chk is the register over the frame's data so far. */
    ghost predicate Valid()
      reads this
    {
      chk == Fold(build, variant, start, frame)
    }

    /** The constructor: a frame begins with the register at start. */
    constructor(build: Build, variant: Variant, dst: Sink, start: bv16, init: bv16)
      ensures this.build == build && this.variant == variant && this.dst == dst
      ensures this.start == start && this.init == init
      ensures chk == start && frame == []
      ensures Valid()
    {
      this.build := build;
      this.variant := variant;
      this.dst := dst;
      this.start := start;
      this.init := init;
      chk := start;
      frame := [];
    }

    /** write_next: update the register with the byte, then forward it unchanged. */
    method WriteNext(data: bv8)
      requires Valid()
      modifies this, dst
      ensures Valid()
      ensures frame == old(frame) + [data]
      ensures chk == Update(build, variant, old(chk), data)
      ensures dst.written == old(dst.written) + [data]
      ensures dst.finalized == old(dst.finalized) && dst.ends == old(dst.ends)
    {
      FoldSnoc(build, variant, start, frame, data);
      chk := Update(build, variant, chk, data);
      dst.WriteU8(data);
      frame := frame + [data];
    }

    /**
     * chk_finalize of the base class: its verdict is given by the caller,
     * and a new frame starts with the register back at start.
     */
    method ChkFinalize(verdict: bool) returns (ok: bool)
      modifies this
      ensures ok == verdict
      ensures chk == start && frame == []
      ensures Valid()
    {
      chk := start;
      frame := [];
      ok := verdict;
    }

    /**
     * write_finalize: append the FCS, then end the frame; the sink is
     * finalized only when chk_finalize succeeds, and the result is true
     * only when both succeed.
     */
    method WriteFinalize(chkVerdict: bool) returns (ok: bool)
      requires Valid()
      modifies this, dst
      ensures dst.written == old(dst.written) + U16Bytes(dst.order, Fcs(build, variant, start, init, old(frame)))
      ensures dst.finalized == (old(dst.finalized) || chkVerdict)
      ensures chkVerdict ==> dst.ends == old(dst.ends) + [|dst.written|]
      ensures !chkVerdict ==> dst.ends == old(dst.ends)
      ensures ok == (chkVerdict && dst.accepts)
      ensures Valid() && chk == start && frame == []
    {
      var fcs := Format(build, variant, chk) ^ init;
      dst.WriteU16(fcs);
      var chkOk := ChkFinalize(chkVerdict);
      if chkOk {
        ok := dst.WriteFinalize();
      } else {
        ok := false;
      }
    }
  }

  /** KermitRx / XmodemRx: check a frame's trailing checksum and forward the rest. */
  class ChecksumRx {
    const build: Build
    const variant: Variant
    const start: bv16
    const init: bv16
    const dst: Sink
    var chk: bv16
    /** The delay register of the base class: the bytes held back, oldest first. */
    var sreg: seq<bv8>
    /** Every byte of the current frame so far. */
    ghost var received: seq<bv8>

    /** The delay register holds the last bytes received; m_chk covers the ones it released. */
    ghost predicate Valid()
      reads this
    {
      sreg == Window(received) && chk == Fold(build, variant, start, Released(received))
    }

    /** The constructor: an empty delay register and the register at start. */
    constructor(build: Build, variant: Variant, dst: Sink, start: bv16, init: bv16)
      ensures this.build == build && this.variant == variant && this.dst == dst
      ensures this.start == start && this.init == init
      ensures chk == start && sreg == [] && received == []
      ensures Valid()
    {
      this.build := build;
      this.variant := variant;
      this.dst := dst;
      this.start := start;
      this.init := init;
      chk := start;
      sreg := [];
      received := [];
    }

    /**
     * sreg_push of the base class: shift the byte into the delay register.
     * When the register was full, its oldest byte leaves, is forwarded
     * downstream and is handed back (in data, passed by reference), and
     * the result is true.
     */
    method SregPush(data: bv8) returns (released: bool, out: bv8)
      requires |sreg| <= Lag
      modifies this, dst
      ensures released == (|old(sreg)| == Lag)
      ensures released ==>
        out == old(sreg)[0] && sreg == old(sreg)[1..] + [data] && dst.written == old(dst.written) + [out]
      ensures !released ==> out == data && sreg == old(sreg) + [data] && dst.written == old(dst.written)
      ensures dst.finalized == old(dst.finalized) && dst.ends == old(dst.ends)
      ensures chk == old(chk) && received == old(received)
    {
      if |sreg| == Lag {
        out := sreg[0];
        sreg := sreg[1..] + [data];
        dst.WriteU8(out);
        released := true;
      } else {
        out := data;
        sreg := sreg + [data];
        released := false;
      }
    }

    /**
     * write_next: the byte enters the delay register; the register takes
     * in, and the sink receives, only the byte the delay register releases.
     */
    method WriteNext(data: bv8)
      requires Valid()
      modifies this, dst
      ensures Valid()
      ensures received == old(received) + [data]
      ensures |old(sreg)| == Lag ==>
        chk == Update(build, variant, old(chk), old(sreg)[0]) && dst.written == old(dst.written) + [old(sreg)[0]]
      ensures |old(sreg)| < Lag ==> chk == old(chk) && dst.written == old(dst.written)
      ensures dst.finalized == old(dst.finalized) && dst.ends == old(dst.ends)
    {
      DelaySnoc(received, data);
      if |sreg| == Lag {
        FoldSnoc(build, variant, start, Released(received), sreg[0]);
      }
      var released, out := SregPush(data);
      if released {
        chk := Update(build, variant, chk, out);
      }
      received := received + [data];
    }

    /** sreg_match of the base class: do the held bytes spell the expected word? */
    method SregMatch(expected: bv16) returns (ok: bool)
      ensures ok == (sreg == U16Bytes(dst.order, expected))
    {
      ok := sreg == U16Bytes(dst.order, expected);
    }

    /**
     * write_finalize: the verdict of sreg_match against format(m_chk) ^
     * m_init; afterwards a new frame starts.
     */
    method WriteFinalize() returns (ok: bool)
      requires Valid()
      modifies this
      ensures ok == RxAccepts(build, variant, start, init, dst.order, old(received))
      ensures Valid() && chk == start && sreg == [] && received == []
    {
      ok := SregMatch(Format(build, variant, chk) ^ init);
      chk := start;
      sreg := [];
      received := [];
    }
  }

  // ---------------------------------------------------------------------
  // The two stages end to end.

  /**
   * A transmit stage fed the data byte by byte and then finalized: what it
   * puts on the line is the data followed by its FCS, and the line sees one
   * frame end, after the FCS.
   */
  method SendFrame(build: Build, variant: Variant, start: bv16, init: bv16, order: ByteOrder, data: seq<bv8>)
    returns (frame: seq<bv8>, ends: seq<nat>)
    ensures frame == TxFrame(build, variant, start, init, order, data)
    ensures ends == [|frame|]
  {
    var line := new Sink(order, true);
    var tx := new ChecksumTx(build, variant, line, start, init);
    var i := 0;
    while i < |data|
      invariant i <= |data|
      invariant tx.Valid() && tx.frame == data[..i] && line.written == data[..i] && line.ends == []
      modifies tx, line
    {
      assert data[..i + 1] == data[..i] + [data[i]];
      tx.WriteNext(data[i]);
      i := i + 1;
    }
    assert data[..i] == data;
    var sent := tx.WriteFinalize(true);
    frame, ends := line.written, line.ends;
  }

  /** Feeds a fresh receive stage, whose sink has seen nothing yet, the input byte by byte. */
  method FeedReceiver(rx: ChecksumRx, input: seq<bv8>)
    requires rx.Valid() && rx.received == [] && rx.dst.written == []
    modifies rx, rx.dst
    ensures rx.Valid() && rx.received == input && rx.dst.written == Released(input)
  {
    var k := 0;
    while k < |input|
      invariant k <= |input|
      invariant rx.Valid() && rx.received == input[..k] && rx.dst.written == Released(input[..k])
    {
      assert input[..k + 1] == input[..k] + [input[k]];
      DelaySnoc(input[..k], input[k]);
      rx.WriteNext(input[k]);
      k := k + 1;
    }
    assert input[..k] == input;
  }

  /**
   * A receive stage fed a frame byte by byte and then finalized: its verdict
   * is RxAccepts, and it has forwarded every byte but the held trailer.
   */
  method ReceiveFrame(build: Build, variant: Variant, start: bv16, init: bv16, order: ByteOrder, input: seq<bv8>)
    returns (accepted: bool, forwarded: seq<bv8>)
    ensures accepted == RxAccepts(build, variant, start, init, order, input)
    ensures forwarded == Released(input)
  {
    var out := new Sink(order, true);
    var rx := new ChecksumRx(build, variant, out, start, init);
    FeedReceiver(rx, input);
    accepted := rx.WriteFinalize();
    forwarded := out.written;
  }

  /**
   * The two stages end to end, with the same build, variant, start, seed and
   * byte order: the receive stage accepts what the transmit stage sent and
   * forwards exactly the data.
   */
  method TransferFrame(build: Build, variant: Variant, start: bv16, init: bv16, order: ByteOrder, data: seq<bv8>)
    returns (accepted: bool, forwarded: seq<bv8>)
    ensures accepted && forwarded == data
  {
    var frame, ends := SendFrame(build, variant, start, init, order, data);
    accepted, forwarded := ReceiveFrame(build, variant, start, init, order, frame);
    RoundTrip(build, variant, start, init, order, data);
  }
}
