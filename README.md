# CRC-16 core of SatCat5, verified in Dafny

This project models the CRC-16 core of SatCat5 (`src/cpp/satcat5/crc16_checksum.cc`) and proves what it computes. The core implements two standard parameter sets:

- **CRC-16/KERMIT**: reflected, polynomial 0x8408.
- **CRC-16/XMODEM**: normal, polynomial 0x1021.

Both use the ITU-T V.41 polynomial x^16 + x^12 + x^5 + 1, start from register 0 and apply no final XOR.

The core is built in one of two ways, selected at compile time by `SATCAT5_CRC_TABLE_BITS`:

- a **nibble-table build**, with two lookups in a 16-entry table per byte;
- a **byte-table build** (the default), with one lookup in a 256-entry table per byte.

On top of the update and format steps sit:

- the batch functions `kermit()` and `xmodem()`;
- the streaming stages:
  - `KermitTx` and `XmodemTx` forward a frame and append its checksum, XORed with a seed;
  - `KermitRx` and `XmodemRx` hold back the last two bytes of a frame and check them against the checksum of the bytes they release.

Modules, from the bottom up:

| module | file | contents |
|---|---|---|
| `Crc16Reference` | `Crc16Reference.dfy` | bit-serial definitions of both variants, the byte swap, bit reversal and the mirror between the variants, and injectivity of the division steps |
| `Crc16Tables` | `Crc16Tables.dfy` | the four lookup tables, entry for entry, and the nibble tables proved against the bit-serial steps |
| `Crc16Nibble` | `Crc16Nibble.dfy` | the nibble build's `kermit_update`, `xmodem_update` and formats |
| `Crc16Byte` | `Crc16Byte.dfy` | the byte build's updates and formats; all 512 byte-table entries are proved |
| `Crc16Engine` | `Crc16Engine.dfy` | the build choice, folds over buffers, agreement of the two builds, detection of single-byte errors, the published check values |
| `Crc16Batch` | `Crc16Batch.dfy` | `kermit()` and `xmodem()` as loops over an array |
| `ChecksumIo` | `ChecksumIo.dfy` | the downstream sink (`Writeable`) and the two wire bytes of `write_u16` |
| `Crc16Stream` | `Crc16Stream.dfy` | the transmit and receive stages as classes, frame round trip, seed mismatch, single-byte corruption, and a frame passed through both stages end to end |

The two builds handle the XMODEM register differently:

- The byte build uses the same right-shifting update for XMODEM as for KERMIT.
- It can do this because it keeps the XMODEM register byte-swapped:
  - its table holds byte-swapped entries;
  - its `xmodem_format` swaps the register back.
- The nibble build keeps the XMODEM register unswapped, and its `xmodem_format` is the identity.

The model proves that this asymmetry is exactly right. For every buffer, both builds return the same value, and that value is the standard CRC, byte-swapped for KERMIT.

**The byte build and the textbook XMODEM update.** The textbook XMODEM update shifts the register left. The byte build's `xmodem_update` shifts right, over the byte-swapped register. The model follows the code (`Crc16Byte.XmodemUpdate`) and proves this right shift equivalent to the left-shifting definition (`Crc16Byte.XmodemUpdateIsReference`).

**How to read the model:**

- The update result stays 16 bits wide and the table indices stay in range by construction:
  - the register is a `bv16`;
  - a byte is a `bv8`;
  - a shift is truncated to 16 bits where it is written. C computes `crc << 4` (lines 46 and 48) in `int` and truncates only when the result is assigned back to the `u16`; this gives the same register, because the table entry XORed in is itself 16 bits wide;
  - every table lookup is checked by the verifier against the table's length.
- The source's `u16&` updates become functions returning the new register.
- The loops of the batch functions and the per-byte state changes of the stages become methods.
- The register a stage starts each frame from is set by its unseen base class. It is the constant `start` of each stage, and every stream property says which starts it holds for (see "## Left out").

**Verifying.** The proofs are sized for this command, run from this directory:

```
dafny verify --resource-limit 2000000 --verification-time-limit 0 --warn-contradictory-assumptions *.dfy
```

The resource limit bounds each proof. `--warn-contradictory-assumptions` also changes how the solver searches, and a few bit-vector proofs of `Crc16Reference` cost much more without it.

## Model

All source paths are in `src/cpp/satcat5/crc16_checksum.cc`.

| member | source | states |
|---|---|---|
| Crc16Reference.Bswap16 | src/cpp/satcat5/crc16_checksum.cc:147-155 | `__builtin_bswap16` exchanges the two bytes: the high byte of the result is the low byte of the input and vice versa |
| Crc16Reference.Bswap16Involution | src/cpp/satcat5/crc16_checksum.cc:147-155 | swapping twice gives the word back, so the byte-build formats lose nothing |
| Crc16Reference.KermitNibbleSplit | src/cpp/satcat5/crc16_checksum.cc:31-39 | four reflected division steps depend only on the low nibble, and the rest of the register shifts right by four; this is why a 16-entry table suffices |
| Crc16Reference.KermitNibbleShiftIn | src/cpp/satcat5/crc16_checksum.cc:31-39 | register bits above the low nibble pass through four reflected steps unchanged, shifted right by four: no polynomial is subtracted on their account |
| Crc16Reference.KermitByteSplit | src/cpp/satcat5/crc16_checksum.cc:135-139 | eight reflected division steps depend only on the low byte, and the rest of the register shifts right by eight |
| Crc16Reference.XmodemNibbleSplit | src/cpp/satcat5/crc16_checksum.cc:41-49 | four normal division steps depend only on the high nibble, and the rest of the register shifts left by four (truncated to 16 bits) |
| Crc16Reference.KermitReferenceSplit | src/cpp/satcat5/crc16_checksum.cc:135-139 | a KERMIT byte update of any register is `crc >> 8` XOR the update of register 0 by `(crc ^ next) & 0xFF`, the law behind the 256-entry table |
| Crc16Reference.XmodemReferenceSplit | src/cpp/satcat5/crc16_checksum.cc:141-145 | an XMODEM byte update is `crc << 8` XOR the update of register 0 by the high byte of crc XOR next |
| Crc16Reference.KermitReferenceInjective | src/cpp/satcat5/crc16_checksum.cc:135-139 | two KERMIT updates give the same register only when the fed registers `crc ^ next` are equal: no division step loses information |
| Crc16Reference.XmodemReferenceInjective | src/cpp/satcat5/crc16_checksum.cc:141-145 | two XMODEM updates give the same register only when the fed registers are equal |
| Crc16Reference.MirrorReference | src/cpp/satcat5/crc16_checksum.cc:31-49 | reversing the bit order of the register and the byte turns an XMODEM byte update into a KERMIT one |
| Crc16Tables.KermitTable4 | src/cpp/satcat5/crc16_checksum.cc:21-24 | the 16 entries of the nibble `TABLE_KERMIT`, as written; their meaning is stated by KermitTable4Entries |
| Crc16Tables.XmodemTable4 | src/cpp/satcat5/crc16_checksum.cc:26-29 | the 16 entries of the nibble `TABLE_XMODEM`, as written; their meaning is stated by XmodemTable4Entries |
| Crc16Tables.KermitTable8 | src/cpp/satcat5/crc16_checksum.cc:65-98 | the 256 entries of the byte `TABLE_KERMIT`, as written, in 16 rows of 16; their meaning is stated by Crc16Byte.KermitTable8Entries |
| Crc16Tables.XmodemTable8 | src/cpp/satcat5/crc16_checksum.cc:100-133 | the 256 entries of the byte `TABLE_XMODEM`, as written, in 16 rows of 16; their meaning is stated by Crc16Byte.XmodemTable8Entries |
| Crc16Tables.KermitTable8At | src/cpp/satcat5/crc16_checksum.cc:138 | `TABLE_KERMIT[index]` of the byte build: row `index >> 4`, column `index & 0x0F`, always in range |
| Crc16Tables.XmodemTable8At | src/cpp/satcat5/crc16_checksum.cc:144 | `TABLE_XMODEM[index]` of the byte build, likewise |
| Crc16Tables.KermitTable4Entries | src/cpp/satcat5/crc16_checksum.cc:21-24 | entry j of the nibble TABLE_KERMIT is nibble j after four reflected division steps by 0x8408 |
| Crc16Tables.XmodemTable4Entries | src/cpp/satcat5/crc16_checksum.cc:26-29 | entry j of the nibble TABLE_XMODEM is nibble j, at the top of the register, after four normal division steps by 0x1021 |
| Crc16Tables.NibbleTablesMirror | src/cpp/satcat5/crc16_checksum.cc:21-29 | the nibble XMODEM table, bit-reversed, is the KERMIT table at the bit-reversed index |
| Crc16Nibble.HighNibble | src/cpp/satcat5/crc16_checksum.cc:34 | `next >> 4` is below 16 and is the high nibble of the byte |
| Crc16Nibble.KermitIndex | src/cpp/satcat5/crc16_checksum.cc:35-37 | index1 and index2 of the nibble `kermit_update` are below 16, and are the low nibble of the register XOR the nibble |
| Crc16Nibble.XmodemIndex | src/cpp/satcat5/crc16_checksum.cc:45-47 | index1 and index2 of the nibble `xmodem_update` are below 16, and are the top nibble of the register XOR the nibble |
| Crc16Nibble.KermitStep | src/cpp/satcat5/crc16_checksum.cc:35-38 | one table step of the nibble `kermit_update`, `(crc >> 4) ^ TABLE_KERMIT[index]`; KermitFirstStep and KermitSecondStep state what each of the two steps does |
| Crc16Nibble.KermitUpdate | src/cpp/satcat5/crc16_checksum.cc:31-39 | the nibble `kermit_update`: a step with the low nibble, then one with the high nibble; KermitUpdateIsReference states that it is the bit-serial KERMIT update |
| Crc16Nibble.XmodemEntry | src/cpp/satcat5/crc16_checksum.cc:45-48 | `TABLE_XMODEM[index]` for one step of the nibble `xmodem_update`; XmodemEntryReversed states its bit-reversed value |
| Crc16Nibble.XmodemStep | src/cpp/satcat5/crc16_checksum.cc:45-48 | one table step of the nibble `xmodem_update`, `(crc << 4) ^ TABLE_XMODEM[index]` truncated to 16 bits; XmodemStepMirror states it is a reversed KERMIT step |
| Crc16Nibble.XmodemUpdate | src/cpp/satcat5/crc16_checksum.cc:41-49 | the nibble `xmodem_update`: a step with the high nibble, then one with the low nibble; XmodemUpdateIsReference states that it is the bit-serial XMODEM update |
| Crc16Nibble.XmodemFormat | src/cpp/satcat5/crc16_checksum.cc:56-59 | the nibble build's `xmodem_format` returns the register unchanged; Crc16Engine.ChecksumIsReference states that this gives the standard CRC |
| Crc16Nibble.KermitFirstStep | src/cpp/satcat5/crc16_checksum.cc:35-36 | the first step of the nibble `kermit_update` is four reflected division steps of `crc ^ next`, with the high nibble of next still XORed on top |
| Crc16Nibble.KermitSecondStep | src/cpp/satcat5/crc16_checksum.cc:37-38 | in the second step that high nibble cancels against the nibble fed in, leaving four more reflected division steps |
| Crc16Nibble.KermitFormat | src/cpp/satcat5/crc16_checksum.cc:51-54 | the nibble build's `kermit_format` exchanges the register's bytes |
| Crc16Nibble.KermitUpdateIsReference | src/cpp/satcat5/crc16_checksum.cc:31-39 | the nibble `kermit_update` (low nibble first, shift right) is exactly eight reflected division steps of the fed register |
| Crc16Nibble.XmodemUpdateMirror | src/cpp/satcat5/crc16_checksum.cc:41-49 | bit-reversed, the nibble `xmodem_update` (high nibble first, shift left) is the nibble `kermit_update` of the reversed register and byte |
| Crc16Nibble.XmodemUpdateIsReference | src/cpp/satcat5/crc16_checksum.cc:41-49 | the nibble `xmodem_update` is exactly eight normal division steps of the register with the byte fed at the top |
| Crc16Byte.TableIndex | src/cpp/satcat5/crc16_checksum.cc:137 | the table index `(crc ^ next) & 0xFF` of both byte updates is the register's low byte XOR the input byte |
| Crc16Byte.KermitFormat | src/cpp/satcat5/crc16_checksum.cc:147-150 | the byte build's `kermit_format` exchanges the register's bytes |
| Crc16Byte.XmodemFormat | src/cpp/satcat5/crc16_checksum.cc:152-155 | the byte build's `xmodem_format` also exchanges the register's bytes (unlike the nibble build's) |
| Crc16Byte.KermitUpdate | src/cpp/satcat5/crc16_checksum.cc:135-139 | the byte `kermit_update`, `(crc >> 8) ^ TABLE_KERMIT[index]`; KermitUpdateIsReference states that it is the bit-serial KERMIT update |
| Crc16Byte.XmodemUpdate | src/cpp/satcat5/crc16_checksum.cc:141-145 | the byte `xmodem_update`, the same right shift with `TABLE_XMODEM`; XmodemUpdateIsReference states that on the byte-swapped register it is the bit-serial XMODEM update |
| Crc16Byte.KermitTable8Entries | src/cpp/satcat5/crc16_checksum.cc:65-98 | each of the 256 entries of the byte TABLE_KERMIT is what the nibble `kermit_update` makes of that byte from register 0 |
| Crc16Byte.XmodemTable8Entries | src/cpp/satcat5/crc16_checksum.cc:100-133 | each of the 256 entries of the byte TABLE_XMODEM is the XMODEM register that byte makes from 0, byte-swapped |
| Crc16Byte.KermitUpdateIsReference | src/cpp/satcat5/crc16_checksum.cc:135-139 | the byte `kermit_update` is exactly eight reflected division steps of the fed register |
| Crc16Byte.XmodemUpdateIsReference | src/cpp/satcat5/crc16_checksum.cc:141-145 | on a byte-swapped register, the byte `xmodem_update` gives the byte-swapped result of eight normal division steps |
| Crc16Byte.KermitBuildsAgree | src/cpp/satcat5/crc16_checksum.cc:135-139 | the byte and nibble builds of `kermit_update` give the same register from every register and byte |
| Crc16Byte.XmodemBuildsAgree | src/cpp/satcat5/crc16_checksum.cc:141-145 | the byte build's `xmodem_update` on the swapped register is the swapped result of the nibble build's |
| Crc16Engine.DefaultBuild | src/cpp/satcat5/crc16_checksum.cc:13-16 | with no `SATCAT5_CRC_TABLE_BITS` given, the byte-table build is selected |
| Crc16Engine.Update | src/cpp/satcat5/crc16_checksum.cc:31-49 | `kermit_update` or `xmodem_update` of the selected build; KermitUpdateIsReference and the Fold lemmas below state what it computes |
| Crc16Engine.Format | src/cpp/satcat5/crc16_checksum.cc:51-59 | `kermit_format` or `xmodem_format` of the selected build; FormatInjective states that it loses nothing |
| Crc16Engine.Fold | src/cpp/satcat5/crc16_checksum.cc:163-165 | the register after feeding every byte of a buffer, in order, to the update; FoldSnoc and FoldConcat state how it grows |
| Crc16Engine.Checksum | src/cpp/satcat5/crc16_checksum.cc:159-177 | `kermit()` / `xmodem()` of a buffer: the formatted fold from register 0; ChecksumIsReference states that it is the standard CRC |
| Crc16Engine.FoldSnoc | src/cpp/satcat5/crc16_checksum.cc:164-165 | one more byte in the buffer is one more update of the register |
| Crc16Engine.FoldConcat | src/cpp/satcat5/crc16_checksum.cc:164-165 | folding over a concatenation is folding over the second part from the register after the first |
| Crc16Engine.ResumeChecksum | src/cpp/satcat5/crc16_checksum.cc:159-177 | the checksum of a buffer can be computed in two parts: the register after the first part, fed the second, then formatted |
| Crc16Engine.KermitUpdateIsReference | src/cpp/satcat5/crc16_checksum.cc:135-139 | the KERMIT update of either build is one byte of the bit-serial definition |
| Crc16Engine.KermitFoldIsReference | src/cpp/satcat5/crc16_checksum.cc:164-165 | for every buffer, the KERMIT register of either build is the bit-serial register |
| Crc16Engine.XmodemNibbleFoldIsReference | src/cpp/satcat5/crc16_checksum.cc:174-175 | for every buffer, the nibble build's XMODEM register is the bit-serial register |
| Crc16Engine.XmodemByteFoldIsReference | src/cpp/satcat5/crc16_checksum.cc:174-175 | for every buffer, the byte build's XMODEM register is the bit-serial register byte-swapped, if it starts swapped |
| Crc16Engine.XmodemFoldsAgree | src/cpp/satcat5/crc16_checksum.cc:20-157 | for every buffer, the byte build's XMODEM register is the nibble build's register byte-swapped |
| Crc16Engine.ChecksumIsReference | src/cpp/satcat5/crc16_checksum.cc:159-177 | `kermit()` and `xmodem()` of either build return the standard CRC: the KERMIT CRC byte-swapped, the XMODEM CRC as is |
| Crc16Engine.BuildsAgree | src/cpp/satcat5/crc16_checksum.cc:20-157 | the nibble and byte builds return the same checksum for every buffer, formats included |
| Crc16Engine.StartedChecksumsAgree | src/cpp/satcat5/crc16_checksum.cc:20-157 | the two builds also agree on the formatted register from a non-zero start: for KERMIT from every start, for XMODEM from every start whose two bytes are equal |
| Crc16Engine.AsymmetricStartDisagrees | src/cpp/satcat5/crc16_checksum.cc:152-155 | from the start 0x0001, XMODEM over an empty buffer formats to 0x0001 in the nibble build (whose `xmodem_format` at lines 56-59 is the identity) and to 0x0100 in the byte build, so the start condition above cannot be dropped |
| Crc16Engine.EmptyChecksum | src/cpp/satcat5/crc16_checksum.cc:159-177 | a zero-length buffer gives `format(0)`, which is 0 in every build and variant |
| Crc16Engine.UpdateSeparatesBytes | src/cpp/satcat5/crc16_checksum.cc:135-145 | from one register, two different bytes give two different registers |
| Crc16Engine.UpdateKeepsApart | src/cpp/satcat5/crc16_checksum.cc:135-145 | with one byte, two different registers stay different |
| Crc16Engine.ReferenceFoldDetects | src/cpp/satcat5/crc16_checksum.cc:164-175 | two equal-length buffers that differ in exactly one byte end in different registers |
| Crc16Engine.FormatInjective | src/cpp/satcat5/crc16_checksum.cc:147-155 | every format step, of this build and of the nibble build at lines 51-59, is one-to-one: two registers with the same formatted value are equal |
| Crc16Engine.FoldDetects | src/cpp/satcat5/crc16_checksum.cc:164-175 | from any start, in either build, two equal-length buffers that differ in exactly one byte end in different registers |
| Crc16Engine.ChecksumDetects | src/cpp/satcat5/crc16_checksum.cc:159-177 | two equal-length buffers that differ in exactly one byte have different `kermit()` (or `xmodem()`) values in either build |
| Crc16Engine.KermitCheckRegister | src/cpp/satcat5/crc16_checksum.cc:159-167 | the KERMIT register over ASCII "123456789" is 0x2189, the published CRC-16/KERMIT check value |
| Crc16Engine.XmodemCheckRegister | src/cpp/satcat5/crc16_checksum.cc:169-177 | the XMODEM register over "123456789" is 0x31C3, the published CRC-16/XMODEM check value |
| Crc16Engine.CheckValues | src/cpp/satcat5/crc16_checksum.cc:159-177 | in either build, `kermit("123456789")` returns 0x8921 and `xmodem("123456789")` returns 0x31C3 |
| Crc16Batch.FoldBuffer | src/cpp/satcat5/crc16_checksum.cc:163-165 | the loop from register 0 over the first nbytes bytes of the buffer leaves the fold of update over those bytes |
| Crc16Batch.Kermit | src/cpp/satcat5/crc16_checksum.cc:159-167 | `kermit(nbytes, data)` is the formatted fold over the first nbytes bytes, equals the standard CRC-16/KERMIT byte-swapped, and is 0 when nbytes is 0 |
| Crc16Batch.Xmodem | src/cpp/satcat5/crc16_checksum.cc:169-177 | `xmodem(nbytes, data)` is the formatted fold over the first nbytes bytes, equals the standard CRC-16/XMODEM, and is 0 when nbytes is 0 |
| ChecksumIo.U16Bytes | src/cpp/satcat5/crc16_checksum.cc:188 | `write_u16` puts exactly two bytes on the wire |
| ChecksumIo.U16RoundTrip | src/cpp/satcat5/crc16_checksum.cc:188 | reading the two bytes back in the same byte order gives the word |
| ChecksumIo.U16Injective | src/cpp/satcat5/crc16_checksum.cc:206 | two words have the same two wire bytes if and only if they are equal, so comparing bytes compares words |
| ChecksumIo.Sink.WriteU8 | src/cpp/satcat5/crc16_checksum.cc:195 | `write_u8` appends exactly that byte to what the sink has received |
| ChecksumIo.Sink.WriteU16 | src/cpp/satcat5/crc16_checksum.cc:188 | `write_u16` appends the word's two bytes in the sink's byte order |
| ChecksumIo.Sink.WriteFinalize | src/cpp/satcat5/crc16_checksum.cc:189 | `write_finalize` marks the sink finalized, writes nothing, and records the end of a frame at the current length of the output, and reports the sink's outcome |
| Crc16Stream.Fcs | src/cpp/satcat5/crc16_checksum.cc:187 | the trailer both stages compute, `format(m_chk) ^ m_init`, with m_chk run over the frame's data from `start`; FcsIsChecksum states its value from start 0 |
| Crc16Stream.TxFrame | src/cpp/satcat5/crc16_checksum.cc:185-196 | a transmitted frame is the data unchanged, followed by two more bytes |
| Crc16Stream.Released | src/cpp/satcat5/crc16_checksum.cc:211 | the receive stage has released all but the last two bytes it was given, and none while it holds two or fewer |
| Crc16Stream.Window | src/cpp/satcat5/crc16_checksum.cc:211 | the delay register holds at most two bytes |
| Crc16Stream.RxAccepts | src/cpp/satcat5/crc16_checksum.cc:204-207 | the receive verdict on a whole input: the two held bytes are the wire bytes of the FCS of the released bytes; RoundTrip, SeedMismatch and CorruptionRejected state when it holds |
| Crc16Stream.ReleasedAndWindow | src/cpp/satcat5/crc16_checksum.cc:211 | the released bytes followed by the held bytes are exactly the input: the delay register reorders and loses nothing |
| Crc16Stream.DelaySnoc | src/cpp/satcat5/crc16_checksum.cc:211 | once the delay register is full, a new byte releases its oldest byte; before that, nothing is released |
| Crc16Stream.FcsIsChecksum | src/cpp/satcat5/crc16_checksum.cc:187 | from start 0, the appended FCS `format(m_chk) ^ m_init` is the batch `kermit()` / `xmodem()` of the frame's data XORed with the seed, and so the standard CRC XORed with the seed |
| Crc16Stream.RoundTrip | src/cpp/satcat5/crc16_checksum.cc:204-207 | a receive stage with the same build, variant, start, seed and byte order accepts what a transmit stage sent, and releases exactly the data |
| Crc16Stream.FcsBuildsAgree | src/cpp/satcat5/crc16_checksum.cc:187 | the nibble and byte builds append the same FCS, for KERMIT from every start and for XMODEM from every start whose two bytes are equal |
| Crc16Stream.RoundTripAcrossBuilds | src/cpp/satcat5/crc16_checksum.cc:204-207 | under the same start condition, a receive stage of either build accepts what a transmit stage of either build sent, and releases exactly the data |
| Crc16Stream.SeedMismatch | src/cpp/satcat5/crc16_checksum.cc:204-207 | with the same start on both sides, a frame sent with one seed is rejected by a receive stage with a different seed |
| Crc16Stream.SeedAsStartEmptyFrame | src/cpp/satcat5/crc16_checksum.cc:179-180 | were `m_chk` to start from the seed itself, an empty XMODEM frame of the nibble build would carry the FCS 0 whatever the seed, so two stages with different seeds would agree on it |
| Crc16Stream.FcsDetects | src/cpp/satcat5/crc16_checksum.cc:187 | from any start, corrupting one data byte by a non-zero mask changes the appended FCS |
| Crc16Stream.CorruptionRejected | src/cpp/satcat5/crc16_checksum.cc:204-207 | every transmitted frame with one byte corrupted, in the data or in the checksum, is rejected, so every single-bit error is caught |
| Crc16Stream.ShortInputRejected | src/cpp/satcat5/crc16_checksum.cc:204-207 | a frame shorter than the two-byte checksum is never accepted |
| Crc16Stream.ChecksumTx.constructor | src/cpp/satcat5/crc16_checksum.cc:179-183 | a KermitTx / XmodemTx stage keeps its seed and starts with the register at `start` and no frame data |
| Crc16Stream.ChecksumTx.WriteNext | src/cpp/satcat5/crc16_checksum.cc:192-196 | `write_next` updates the register with the byte and forwards exactly that byte; the register stays the fold over the frame's data, so, from start 0, streaming agrees with the batch function; the XMODEM class does the same at lines 227-231 |
| Crc16Stream.ChecksumTx.ChkFinalize | src/cpp/satcat5/crc16_checksum.cc:189 | `chk_finalize` reports its verdict and starts a new frame with the register at `start` |
| Crc16Stream.ChecksumTx.WriteFinalize | src/cpp/satcat5/crc16_checksum.cc:185-190 | `write_finalize`: <br>- always appends the FCS of the frame's data `format(m_chk) ^ m_init`, even when `chk_finalize` fails; <br>- finalizes the sink only when `chk_finalize` succeeds, and then after the FCS: the frame end the sink records falls just past the FCS; <br>- returns `chk_finalize() && write_finalize()`; the XMODEM class does the same at lines 220-225 |
| Crc16Stream.ChecksumRx.constructor | src/cpp/satcat5/crc16_checksum.cc:198-202 | a KermitRx / XmodemRx stage keeps its seed and starts with an empty delay register and the register at `start` |
| Crc16Stream.ChecksumRx.SregPush | src/cpp/satcat5/crc16_checksum.cc:211 | `sreg_push`: <br>- on a full delay register, reports a release, forwards the oldest byte and shifts the new one in; <br>- otherwise only shifts it in |
| Crc16Stream.ChecksumRx.WriteNext | src/cpp/satcat5/crc16_checksum.cc:209-212 | `write_next`: <br>- updates the register with, and forwards, only the byte the delay register releases; <br>- keeps the delay register as the last two bytes received, and the register as the fold over the released bytes; the XMODEM class does the same at lines 244-247 |
| Crc16Stream.ChecksumRx.SregMatch | src/cpp/satcat5/crc16_checksum.cc:206 | `sreg_match` is true exactly when the held bytes are the expected word's two wire bytes |
| Crc16Stream.ChecksumRx.WriteFinalize | src/cpp/satcat5/crc16_checksum.cc:204-207 | `write_finalize` accepts exactly when the held bytes are the FCS of the released bytes, `format(m_chk) ^ m_init`; then a new frame starts; the XMODEM class does the same at lines 239-242 |
| Crc16Stream.SendFrame | src/cpp/satcat5/crc16_checksum.cc:185-196 | a transmit stage fed the data byte by byte with `write_next` and then finalized puts exactly the data followed by its FCS on the line, and the line records one frame end, just past the FCS |
| Crc16Stream.FeedReceiver | src/cpp/satcat5/crc16_checksum.cc:209-212 | a fresh receive stage fed an input byte by byte with `write_next` has received all of it and forwarded all but the last two bytes |
| Crc16Stream.ReceiveFrame | src/cpp/satcat5/crc16_checksum.cc:204-212 | a fresh receive stage fed a whole input and then finalized returns exactly the verdict RxAccepts and has forwarded all but the two held bytes |
| Crc16Stream.TransferFrame | src/cpp/satcat5/crc16_checksum.cc:185-212 | a frame passed through a transmit stage and then a receive stage with the same build, variant, start, seed and byte order is accepted, and the receive side forwards exactly the data |

## Left out

- **The compile-time build selection.** `SATCAT5_CRC_TABLE_BITS` is modelled as the datatype `Build`, with both builds present side by side. The default is `ByteTables`.
- **The table generator.** `sim/python/crc_table.py`, which produced the tables, is not part of this model. The tables are copied from the C++ source and proved against the bit-serial definition.
- **The base classes.** `ChecksumTx<u16,2>`, `ChecksumRx<u16,2>` and the `Writeable` sink are not part of this model. Their roles are modelled from how this file uses them, under the following assumptions, which are not checked against their code:
  - The base-class constructors receive only `dst` and `init` (lines 179-180, 198-199), and the value `m_chk` starts from is not visible. Each stage has it as the constant `start`. Two readings are natural: 0, which the batch functions use (lines 163 and 173), or `init` itself.
    - Every start: RoundTrip, FcsDetects, CorruptionRejected, ShortInputRejected, TransferFrame and every stage method hold for any start.
    - Start 0: FcsIsChecksum, which states that the FCS is the batch checksum XOR the seed, is stated for start 0.
    - KERMIT or a start with two equal bytes: FcsBuildsAgree and RoundTripAcrossBuilds need this, and AsymmetricStartDisagrees shows why; under the `init` reading, the XMODEM builds append different FCS values when the seed's two bytes differ.
    - The same start on both sides: SeedMismatch needs this. Under the `init` reading the two sides start differently, and SeedAsStartEmptyFrame shows two seeds that are then not told apart.
  - `chk_finalize` and the receive side's `write_finalize` start a new frame with `m_chk` at `start` and the delay register empty. Writes after a finalize are not rejected: they begin the next frame.
  - `sreg_push` takes its argument by reference. When the two-slot delay register was full, it forwards the evicted byte downstream, hands it back in that argument and returns true. This is why `write_next` hashes the evicted byte.
  - `sreg_match` compares the held bytes with the expected word in the byte order the sink's `write_u16` uses.
- ChecksumTx.ChkFinalize: The verdict is a parameter, because the code that decides it is unseen.
- Sink.WriteFinalize: Its outcome is fixed when the sink is made (`accepts`).
- **The wire byte order of `write_u16`.** It is a parameter of the sink (`ByteOrder`), not asserted. Every stage and stream lemma holds for either order, given the same order on both sides.
- ShortInputRejected: It rests on the model of `sreg_match` for fewer than two held bytes: the comparison with the two-byte word fails. The base class's behaviour for short streams is unseen.
- ChecksumRx.WriteFinalize: It does not state whether `sreg_match` finalizes, aborts or otherwise signals the downstream sink, because that happens in the unseen base class. The sink is left untouched.
- ChecksumTx, ChecksumRx: KermitTx and XmodemTx are one class, and KermitRx and XmodemRx are another. The variant and the build are constants of each instance, because the two C++ classes of each pair differ only in the update and format they call.
- **Failure of downstream writes.** The failure of `write_u8` and `write_u16`, and of object lifetime or ownership of `m_dst`, is not modelled. The sink records every byte.
- **Integer widths.** `kermit(nbytes, data)` and `xmodem(nbytes, data)` take `nbytes` as a natural number, with the `const void*` buffer as an array of at least `nbytes` bytes. The 32-bit range of `unsigned` does not matter for the result.
- **Concurrency.** The core has none.
