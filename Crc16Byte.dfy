/**
 * The byte-table build of the CRC-16 engine (SATCAT5_CRC_TABLE_BITS == 8,
 * the default): each input byte costs one lookup in a 256-entry table, and
 * both variants shift the register right by eight.
 *
 * That single update formula serves XMODEM too because this build keeps the
 * XMODEM register byte-swapped: its table entries are the nibble build's,
 * byte-swapped, and its format step swaps the register back.  The lemmas
 * below prove the table entries, then that each byte update agrees with the
 * nibble build (for XMODEM, up to that byte swap) and so with the
 * bit-serial definition.
 */
module Crc16Byte {

  import opened Crc16Reference
  import opened Crc16Tables
  import Nibble = Crc16Nibble

  /** The table index of both byte updates: the low byte of crc ^ next. */
  function TableIndex(crc: bv16, next: bv8): (index: bv8)
    ensures index == LowByte(crc) ^ next
  {
    ((crc ^ next as bv16) & 0xFF) as bv8
  }

  /** kermit_update of this build. */
  function KermitUpdate(crc: bv16, next: bv8): bv16
  {
    (crc >> 8) ^ KermitTable8At(TableIndex(crc, next))
  }

  /** xmodem_update of this build: the same formula, over the XMODEM table. */
  function XmodemUpdate(crc: bv16, next: bv8): bv16
  {
    (crc >> 8) ^ XmodemTable8At(TableIndex(crc, next))
  }

  /** kermit_format of this build: the register byte-swapped. */
  function KermitFormat(crc: bv16): (r: bv16)
    ensures HighByte(r) == LowByte(crc) && LowByte(r) == HighByte(crc)
  {
    Bswap16(crc)
  }

  /** xmodem_format of this build: the register byte-swapped, undoing the swap the table builds in. */
  function XmodemFormat(crc: bv16): (r: bv16)
    ensures HighByte(r) == LowByte(crc) && LowByte(r) == HighByte(crc)
  {
    Bswap16(crc)
  }

  // ---------------------------------------------------------------------
  // The byte tables entry by entry: KERMIT against the nibble build, XMODEM
  // against the bit-serial definition, a slice of the index range at a time
  // (each branch fixes the index).

  lemma KermitTable8Slice0(index: bv8)
    requires index < 0x20
    ensures KermitTable8At(index) == Nibble.KermitUpdate(0, index)
  {
    if index < 0x10 {
      if index < 0x08 {
        if index < 0x04 {
          if index < 0x02 {
            if index == 0x00 {} else {}
          } else {
            if index == 0x02 {} else {}
          }
        } else {
          if index < 0x06 {
            if index == 0x04 {} else {}
          } else {
            if index == 0x06 {} else {}
          }
        }
      } else {
        if index < 0x0C {
          if index < 0x0A {
            if index == 0x08 {} else {}
          } else {
            if index == 0x0A {} else {}
          }
        } else {
          if index < 0x0E {
            if index == 0x0C {} else {}
          } else {
            if index == 0x0E {} else {}
          }
        }
      }
    } else {
      if index < 0x18 {
        if index < 0x14 {
          if index < 0x12 {
            if index == 0x10 {} else {}
          } else {
            if index == 0x12 {} else {}
          }
        } else {
          if index < 0x16 {
            if index == 0x14 {} else {}
          } else {
            if index == 0x16 {} else {}
          }
        }
      } else {
        if index < 0x1C {
          if index < 0x1A {
            if index == 0x18 {} else {}
          } else {
            if index == 0x1A {} else {}
          }
        } else {
          if index < 0x1E {
            if index == 0x1C {} else {}
          } else {
            if index == 0x1E {} else {}
          }
        }
      }
    }
  }

  lemma KermitTable8Slice1(index: bv8)
    requires 0x20 <= index < 0x40
    ensures KermitTable8At(index) == Nibble.KermitUpdate(0, index)
  {
    if index < 0x30 {
      if index < 0x28 {
        if index < 0x24 {
          if index < 0x22 {
            if index == 0x20 {} else {}
          } else {
            if index == 0x22 {} else {}
          }
        } else {
          if index < 0x26 {
            if index == 0x24 {} else {}
          } else {
            if index == 0x26 {} else {}
          }
        }
      } else {
        if index < 0x2C {
          if index < 0x2A {
            if index == 0x28 {} else {}
          } else {
            if index == 0x2A {} else {}
          }
        } else {
          if index < 0x2E {
            if index == 0x2C {} else {}
          } else {
            if index == 0x2E {} else {}
          }
        }
      }
    } else {
      if index < 0x38 {
        if index < 0x34 {
          if index < 0x32 {
            if index == 0x30 {} else {}
          } else {
            if index == 0x32 {} else {}
          }
        } else {
          if index < 0x36 {
            if index == 0x34 {} else {}
          } else {
            if index == 0x36 {} else {}
          }
        }
      } else {
        if index < 0x3C {
          if index < 0x3A {
            if index == 0x38 {} else {}
          } else {
            if index == 0x3A {} else {}
          }
        } else {
          if index < 0x3E {
            if index == 0x3C {} else {}
          } else {
            if index == 0x3E {} else {}
          }
        }
      }
    }
  }

  lemma KermitTable8Slice2(index: bv8)
    requires 0x40 <= index < 0x60
    ensures KermitTable8At(index) == Nibble.KermitUpdate(0, index)
  {
    if index < 0x50 {
      if index < 0x48 {
        if index < 0x44 {
          if index < 0x42 {
            if index == 0x40 {} else {}
          } else {
            if index == 0x42 {} else {}
          }
        } else {
          if index < 0x46 {
            if index == 0x44 {} else {}
          } else {
            if index == 0x46 {} else {}
          }
        }
      } else {
        if index < 0x4C {
          if index < 0x4A {
            if index == 0x48 {} else {}
          } else {
            if index == 0x4A {} else {}
          }
        } else {
          if index < 0x4E {
            if index == 0x4C {} else {}
          } else {
            if index == 0x4E {} else {}
          }
        }
      }
    } else {
      if index < 0x58 {
        if index < 0x54 {
          if index < 0x52 {
            if index == 0x50 {} else {}
          } else {
            if index == 0x52 {} else {}
          }
        } else {
          if index < 0x56 {
            if index == 0x54 {} else {}
          } else {
            if index == 0x56 {} else {}
          }
        }
      } else {
        if index < 0x5C {
          if index < 0x5A {
            if index == 0x58 {} else {}
          } else {
            if index == 0x5A {} else {}
          }
        } else {
          if index < 0x5E {
            if index == 0x5C {} else {}
          } else {
            if index == 0x5E {} else {}
          }
        }
      }
    }
  }

  lemma KermitTable8Slice3(index: bv8)
    requires 0x60 <= index < 0x80
    ensures KermitTable8At(index) == Nibble.KermitUpdate(0, index)
  {
    if index < 0x70 {
      if index < 0x68 {
        if index < 0x64 {
          if index < 0x62 {
            if index == 0x60 {} else {}
          } else {
            if index == 0x62 {} else {}
          }
        } else {
          if index < 0x66 {
            if index == 0x64 {} else {}
          } else {
            if index == 0x66 {} else {}
          }
        }
      } else {
        if index < 0x6C {
          if index < 0x6A {
            if index == 0x68 {} else {}
          } else {
            if index == 0x6A {} else {}
          }
        } else {
          if index < 0x6E {
            if index == 0x6C {} else {}
          } else {
            if index == 0x6E {} else {}
          }
        }
      }
    } else {
      if index < 0x78 {
        if index < 0x74 {
          if index < 0x72 {
            if index == 0x70 {} else {}
          } else {
            if index == 0x72 {} else {}
          }
        } else {
          if index < 0x76 {
            if index == 0x74 {} else {}
          } else {
            if index == 0x76 {} else {}
          }
        }
      } else {
        if index < 0x7C {
          if index < 0x7A {
            if index == 0x78 {} else {}
          } else {
            if index == 0x7A {} else {}
          }
        } else {
          if index < 0x7E {
            if index == 0x7C {} else {}
          } else {
            if index == 0x7E {} else {}
          }
        }
      }
    }
  }

  lemma KermitTable8Slice4(index: bv8)
    requires 0x80 <= index < 0xA0
    ensures KermitTable8At(index) == Nibble.KermitUpdate(0, index)
  {
    if index < 0x90 {
      if index < 0x88 {
        if index < 0x84 {
          if index < 0x82 {
            if index == 0x80 {} else {}
          } else {
            if index == 0x82 {} else {}
          }
        } else {
          if index < 0x86 {
            if index == 0x84 {} else {}
          } else {
            if index == 0x86 {} else {}
          }
        }
      } else {
        if index < 0x8C {
          if index < 0x8A {
            if index == 0x88 {} else {}
          } else {
            if index == 0x8A {} else {}
          }
        } else {
          if index < 0x8E {
            if index == 0x8C {} else {}
          } else {
            if index == 0x8E {} else {}
          }
        }
      }
    } else {
      if index < 0x98 {
        if index < 0x94 {
          if index < 0x92 {
            if index == 0x90 {} else {}
          } else {
            if index == 0x92 {} else {}
          }
        } else {
          if index < 0x96 {
            if index == 0x94 {} else {}
          } else {
            if index == 0x96 {} else {}
          }
        }
      } else {
        if index < 0x9C {
          if index < 0x9A {
            if index == 0x98 {} else {}
          } else {
            if index == 0x9A {} else {}
          }
        } else {
          if index < 0x9E {
            if index == 0x9C {} else {}
          } else {
            if index == 0x9E {} else {}
          }
        }
      }
    }
  }

  lemma KermitTable8Slice5(index: bv8)
    requires 0xA0 <= index < 0xC0
    ensures KermitTable8At(index) == Nibble.KermitUpdate(0, index)
  {
    if index < 0xB0 {
      if index < 0xA8 {
        if index < 0xA4 {
          if index < 0xA2 {
            if index == 0xA0 {} else {}
          } else {
            if index == 0xA2 {} else {}
          }
        } else {
          if index < 0xA6 {
            if index == 0xA4 {} else {}
          } else {
            if index == 0xA6 {} else {}
          }
        }
      } else {
        if index < 0xAC {
          if index < 0xAA {
            if index == 0xA8 {} else {}
          } else {
            if index == 0xAA {} else {}
          }
        } else {
          if index < 0xAE {
            if index == 0xAC {} else {}
          } else {
            if index == 0xAE {} else {}
          }
        }
      }
    } else {
      if index < 0xB8 {
        if index < 0xB4 {
          if index < 0xB2 {
            if index == 0xB0 {} else {}
          } else {
            if index == 0xB2 {} else {}
          }
        } else {
          if index < 0xB6 {
            if index == 0xB4 {} else {}
          } else {
            if index == 0xB6 {} else {}
          }
        }
      } else {
        if index < 0xBC {
          if index < 0xBA {
            if index == 0xB8 {} else {}
          } else {
            if index == 0xBA {} else {}
          }
        } else {
          if index < 0xBE {
            if index == 0xBC {} else {}
          } else {
            if index == 0xBE {} else {}
          }
        }
      }
    }
  }

  lemma KermitTable8Slice6(index: bv8)
    requires 0xC0 <= index < 0xE0
    ensures KermitTable8At(index) == Nibble.KermitUpdate(0, index)
  {
    if index < 0xD0 {
      if index < 0xC8 {
        if index < 0xC4 {
          if index < 0xC2 {
            if index == 0xC0 {} else {}
          } else {
            if index == 0xC2 {} else {}
          }
        } else {
          if index < 0xC6 {
            if index == 0xC4 {} else {}
          } else {
            if index == 0xC6 {} else {}
          }
        }
      } else {
        if index < 0xCC {
          if index < 0xCA {
            if index == 0xC8 {} else {}
          } else {
            if index == 0xCA {} else {}
          }
        } else {
          if index < 0xCE {
            if index == 0xCC {} else {}
          } else {
            if index == 0xCE {} else {}
          }
        }
      }
    } else {
      if index < 0xD8 {
        if index < 0xD4 {
          if index < 0xD2 {
            if index == 0xD0 {} else {}
          } else {
            if index == 0xD2 {} else {}
          }
        } else {
          if index < 0xD6 {
            if index == 0xD4 {} else {}
          } else {
            if index == 0xD6 {} else {}
          }
        }
      } else {
        if index < 0xDC {
          if index < 0xDA {
            if index == 0xD8 {} else {}
          } else {
            if index == 0xDA {} else {}
          }
        } else {
          if index < 0xDE {
            if index == 0xDC {} else {}
          } else {
            if index == 0xDE {} else {}
          }
        }
      }
    }
  }

  lemma KermitTable8Slice7(index: bv8)
    requires 0xE0 <= index
    ensures KermitTable8At(index) == Nibble.KermitUpdate(0, index)
  {
    if index < 0xF0 {
      if index < 0xE8 {
        if index < 0xE4 {
          if index < 0xE2 {
            if index == 0xE0 {} else {}
          } else {
            if index == 0xE2 {} else {}
          }
        } else {
          if index < 0xE6 {
            if index == 0xE4 {} else {}
          } else {
            if index == 0xE6 {} else {}
          }
        }
      } else {
        if index < 0xEC {
          if index < 0xEA {
            if index == 0xE8 {} else {}
          } else {
            if index == 0xEA {} else {}
          }
        } else {
          if index < 0xEE {
            if index == 0xEC {} else {}
          } else {
            if index == 0xEE {} else {}
          }
        }
      }
    } else {
      if index < 0xF8 {
        if index < 0xF4 {
          if index < 0xF2 {
            if index == 0xF0 {} else {}
          } else {
            if index == 0xF2 {} else {}
          }
        } else {
          if index < 0xF6 {
            if index == 0xF4 {} else {}
          } else {
            if index == 0xF6 {} else {}
          }
        }
      } else {
        if index < 0xFC {
          if index < 0xFA {
            if index == 0xF8 {} else {}
          } else {
            if index == 0xFA {} else {}
          }
        } else {
          if index < 0xFE {
            if index == 0xFC {} else {}
          } else {
            if index == 0xFE {} else {}
          }
        }
      }
    }
  }

  lemma XmodemTable8Slice0(index: bv8)
    requires index < 0x10
    ensures XmodemTable8At(index) == Bswap16(XmodemReference(0, index))
  {
    if index < 0x08 {
      if index < 0x04 {
        if index < 0x02 {
          if index == 0x00 {} else {}
        } else {
          if index == 0x02 {} else {}
        }
      } else {
        if index < 0x06 {
          if index == 0x04 {} else {}
        } else {
          if index == 0x06 {} else {}
        }
      }
    } else {
      if index < 0x0C {
        if index < 0x0A {
          if index == 0x08 {} else {}
        } else {
          if index == 0x0A {} else {}
        }
      } else {
        if index < 0x0E {
          if index == 0x0C {} else {}
        } else {
          if index == 0x0E {} else {}
        }
      }
    }
  }

  lemma XmodemTable8Slice1(index: bv8)
    requires 0x10 <= index < 0x20
    ensures XmodemTable8At(index) == Bswap16(XmodemReference(0, index))
  {
    if index < 0x18 {
      if index < 0x14 {
        if index < 0x12 {
          if index == 0x10 {} else {}
        } else {
          if index == 0x12 {} else {}
        }
      } else {
        if index < 0x16 {
          if index == 0x14 {} else {}
        } else {
          if index == 0x16 {} else {}
        }
      }
    } else {
      if index < 0x1C {
        if index < 0x1A {
          if index == 0x18 {} else {}
        } else {
          if index == 0x1A {} else {}
        }
      } else {
        if index < 0x1E {
          if index == 0x1C {} else {}
        } else {
          if index == 0x1E {} else {}
        }
      }
    }
  }

  lemma XmodemTable8Slice2(index: bv8)
    requires 0x20 <= index < 0x30
    ensures XmodemTable8At(index) == Bswap16(XmodemReference(0, index))
  {
    if index < 0x28 {
      if index < 0x24 {
        if index < 0x22 {
          if index == 0x20 {} else {}
        } else {
          if index == 0x22 {} else {}
        }
      } else {
        if index < 0x26 {
          if index == 0x24 {} else {}
        } else {
          if index == 0x26 {} else {}
        }
      }
    } else {
      if index < 0x2C {
        if index < 0x2A {
          if index == 0x28 {} else {}
        } else {
          if index == 0x2A {} else {}
        }
      } else {
        if index < 0x2E {
          if index == 0x2C {} else {}
        } else {
          if index == 0x2E {} else {}
        }
      }
    }
  }

  lemma XmodemTable8Slice3(index: bv8)
    requires 0x30 <= index < 0x40
    ensures XmodemTable8At(index) == Bswap16(XmodemReference(0, index))
  {
    if index < 0x38 {
      if index < 0x34 {
        if index < 0x32 {
          if index == 0x30 {} else {}
        } else {
          if index == 0x32 {} else {}
        }
      } else {
        if index < 0x36 {
          if index == 0x34 {} else {}
        } else {
          if index == 0x36 {} else {}
        }
      }
    } else {
      if index < 0x3C {
        if index < 0x3A {
          if index == 0x38 {} else {}
        } else {
          if index == 0x3A {} else {}
        }
      } else {
        if index < 0x3E {
          if index == 0x3C {} else {}
        } else {
          if index == 0x3E {} else {}
        }
      }
    }
  }

  lemma XmodemTable8Slice4(index: bv8)
    requires 0x40 <= index < 0x50
    ensures XmodemTable8At(index) == Bswap16(XmodemReference(0, index))
  {
    if index < 0x48 {
      if index < 0x44 {
        if index < 0x42 {
          if index == 0x40 {} else {}
        } else {
          if index == 0x42 {} else {}
        }
      } else {
        if index < 0x46 {
          if index == 0x44 {} else {}
        } else {
          if index == 0x46 {} else {}
        }
      }
    } else {
      if index < 0x4C {
        if index < 0x4A {
          if index == 0x48 {} else {}
        } else {
          if index == 0x4A {} else {}
        }
      } else {
        if index < 0x4E {
          if index == 0x4C {} else {}
        } else {
          if index == 0x4E {} else {}
        }
      }
    }
  }

  lemma XmodemTable8Slice5(index: bv8)
    requires 0x50 <= index < 0x60
    ensures XmodemTable8At(index) == Bswap16(XmodemReference(0, index))
  {
    if index < 0x58 {
      if index < 0x54 {
        if index < 0x52 {
          if index == 0x50 {} else {}
        } else {
          if index == 0x52 {} else {}
        }
      } else {
        if index < 0x56 {
          if index == 0x54 {} else {}
        } else {
          if index == 0x56 {} else {}
        }
      }
    } else {
      if index < 0x5C {
        if index < 0x5A {
          if index == 0x58 {} else {}
        } else {
          if index == 0x5A {} else {}
        }
      } else {
        if index < 0x5E {
          if index == 0x5C {} else {}
        } else {
          if index == 0x5E {} else {}
        }
      }
    }
  }

  lemma XmodemTable8Slice6(index: bv8)
    requires 0x60 <= index < 0x70
    ensures XmodemTable8At(index) == Bswap16(XmodemReference(0, index))
  {
    if index < 0x68 {
      if index < 0x64 {
        if index < 0x62 {
          if index == 0x60 {} else {}
        } else {
          if index == 0x62 {} else {}
        }
      } else {
        if index < 0x66 {
          if index == 0x64 {} else {}
        } else {
          if index == 0x66 {} else {}
        }
      }
    } else {
      if index < 0x6C {
        if index < 0x6A {
          if index == 0x68 {} else {}
        } else {
          if index == 0x6A {} else {}
        }
      } else {
        if index < 0x6E {
          if index == 0x6C {} else {}
        } else {
          if index == 0x6E {} else {}
        }
      }
    }
  }

  lemma XmodemTable8Slice7(index: bv8)
    requires 0x70 <= index < 0x80
    ensures XmodemTable8At(index) == Bswap16(XmodemReference(0, index))
  {
    if index < 0x78 {
      if index < 0x74 {
        if index < 0x72 {
          if index == 0x70 {} else {}
        } else {
          if index == 0x72 {} else {}
        }
      } else {
        if index < 0x76 {
          if index == 0x74 {} else {}
        } else {
          if index == 0x76 {} else {}
        }
      }
    } else {
      if index < 0x7C {
        if index < 0x7A {
          if index == 0x78 {} else {}
        } else {
          if index == 0x7A {} else {}
        }
      } else {
        if index < 0x7E {
          if index == 0x7C {} else {}
        } else {
          if index == 0x7E {} else {}
        }
      }
    }
  }

  lemma XmodemTable8Slice8(index: bv8)
    requires 0x80 <= index < 0x90
    ensures XmodemTable8At(index) == Bswap16(XmodemReference(0, index))
  {
    if index < 0x88 {
      if index < 0x84 {
        if index < 0x82 {
          if index == 0x80 {} else {}
        } else {
          if index == 0x82 {} else {}
        }
      } else {
        if index < 0x86 {
          if index == 0x84 {} else {}
        } else {
          if index == 0x86 {} else {}
        }
      }
    } else {
      if index < 0x8C {
        if index < 0x8A {
          if index == 0x88 {} else {}
        } else {
          if index == 0x8A {} else {}
        }
      } else {
        if index < 0x8E {
          if index == 0x8C {} else {}
        } else {
          if index == 0x8E {} else {}
        }
      }
    }
  }

  lemma XmodemTable8Slice9(index: bv8)
    requires 0x90 <= index < 0xA0
    ensures XmodemTable8At(index) == Bswap16(XmodemReference(0, index))
  {
    if index < 0x98 {
      if index < 0x94 {
        if index < 0x92 {
          if index == 0x90 {} else {}
        } else {
          if index == 0x92 {} else {}
        }
      } else {
        if index < 0x96 {
          if index == 0x94 {} else {}
        } else {
          if index == 0x96 {} else {}
        }
      }
    } else {
      if index < 0x9C {
        if index < 0x9A {
          if index == 0x98 {} else {}
        } else {
          if index == 0x9A {} else {}
        }
      } else {
        if index < 0x9E {
          if index == 0x9C {} else {}
        } else {
          if index == 0x9E {} else {}
        }
      }
    }
  }

  lemma XmodemTable8Slice10(index: bv8)
    requires 0xA0 <= index < 0xB0
    ensures XmodemTable8At(index) == Bswap16(XmodemReference(0, index))
  {
    if index < 0xA8 {
      if index < 0xA4 {
        if index < 0xA2 {
          if index == 0xA0 {} else {}
        } else {
          if index == 0xA2 {} else {}
        }
      } else {
        if index < 0xA6 {
          if index == 0xA4 {} else {}
        } else {
          if index == 0xA6 {} else {}
        }
      }
    } else {
      if index < 0xAC {
        if index < 0xAA {
          if index == 0xA8 {} else {}
        } else {
          if index == 0xAA {} else {}
        }
      } else {
        if index < 0xAE {
          if index == 0xAC {} else {}
        } else {
          if index == 0xAE {} else {}
        }
      }
    }
  }

  lemma XmodemTable8Slice11(index: bv8)
    requires 0xB0 <= index < 0xC0
    ensures XmodemTable8At(index) == Bswap16(XmodemReference(0, index))
  {
    if index < 0xB8 {
      if index < 0xB4 {
        if index < 0xB2 {
          if index == 0xB0 {} else {}
        } else {
          if index == 0xB2 {} else {}
        }
      } else {
        if index < 0xB6 {
          if index == 0xB4 {} else {}
        } else {
          if index == 0xB6 {} else {}
        }
      }
    } else {
      if index < 0xBC {
        if index < 0xBA {
          if index == 0xB8 {} else {}
        } else {
          if index == 0xBA {} else {}
        }
      } else {
        if index < 0xBE {
          if index == 0xBC {} else {}
        } else {
          if index == 0xBE {} else {}
        }
      }
    }
  }

  lemma XmodemTable8Slice12(index: bv8)
    requires 0xC0 <= index < 0xD0
    ensures XmodemTable8At(index) == Bswap16(XmodemReference(0, index))
  {
    if index < 0xC8 {
      if index < 0xC4 {
        if index < 0xC2 {
          if index == 0xC0 {} else {}
        } else {
          if index == 0xC2 {} else {}
        }
      } else {
        if index < 0xC6 {
          if index == 0xC4 {} else {}
        } else {
          if index == 0xC6 {} else {}
        }
      }
    } else {
      if index < 0xCC {
        if index < 0xCA {
          if index == 0xC8 {} else {}
        } else {
          if index == 0xCA {} else {}
        }
      } else {
        if index < 0xCE {
          if index == 0xCC {} else {}
        } else {
          if index == 0xCE {} else {}
        }
      }
    }
  }

  lemma XmodemTable8Slice13(index: bv8)
    requires 0xD0 <= index < 0xE0
    ensures XmodemTable8At(index) == Bswap16(XmodemReference(0, index))
  {
    if index < 0xD8 {
      if index < 0xD4 {
        if index < 0xD2 {
          if index == 0xD0 {} else {}
        } else {
          if index == 0xD2 {} else {}
        }
      } else {
        if index < 0xD6 {
          if index == 0xD4 {} else {}
        } else {
          if index == 0xD6 {} else {}
        }
      }
    } else {
      if index < 0xDC {
        if index < 0xDA {
          if index == 0xD8 {} else {}
        } else {
          if index == 0xDA {} else {}
        }
      } else {
        if index < 0xDE {
          if index == 0xDC {} else {}
        } else {
          if index == 0xDE {} else {}
        }
      }
    }
  }

  lemma XmodemTable8Slice14(index: bv8)
    requires 0xE0 <= index < 0xF0
    ensures XmodemTable8At(index) == Bswap16(XmodemReference(0, index))
  {
    if index < 0xE8 {
      if index < 0xE4 {
        if index < 0xE2 {
          if index == 0xE0 {} else {}
        } else {
          if index == 0xE2 {} else {}
        }
      } else {
        if index < 0xE6 {
          if index == 0xE4 {} else {}
        } else {
          if index == 0xE6 {} else {}
        }
      }
    } else {
      if index < 0xEC {
        if index < 0xEA {
          if index == 0xE8 {} else {}
        } else {
          if index == 0xEA {} else {}
        }
      } else {
        if index < 0xEE {
          if index == 0xEC {} else {}
        } else {
          if index == 0xEE {} else {}
        }
      }
    }
  }

  lemma XmodemTable8Slice15(index: bv8)
    requires 0xF0 <= index
    ensures XmodemTable8At(index) == Bswap16(XmodemReference(0, index))
  {
    if index < 0xF8 {
      if index < 0xF4 {
        if index < 0xF2 {
          if index == 0xF0 {} else {}
        } else {
          if index == 0xF2 {} else {}
        }
      } else {
        if index < 0xF6 {
          if index == 0xF4 {} else {}
        } else {
          if index == 0xF6 {} else {}
        }
      }
    } else {
      if index < 0xFC {
        if index < 0xFA {
          if index == 0xF8 {} else {}
        } else {
          if index == 0xFA {} else {}
        }
      } else {
        if index < 0xFE {
          if index == 0xFC {} else {}
        } else {
          if index == 0xFE {} else {}
        }
      }
    }
  }

  /** Entry i of the KERMIT byte table is what the nibble build makes of byte i from register 0. */
  lemma KermitTable8Entries(index: bv8)
    ensures KermitTable8At(index) == Nibble.KermitUpdate(0, index)
  {
    if index < 0x20 {
      KermitTable8Slice0(index);
    } else if index < 0x40 {
      KermitTable8Slice1(index);
    } else if index < 0x60 {
      KermitTable8Slice2(index);
    } else if index < 0x80 {
      KermitTable8Slice3(index);
    } else if index < 0xA0 {
      KermitTable8Slice4(index);
    } else if index < 0xC0 {
      KermitTable8Slice5(index);
    } else if index < 0xE0 {
      KermitTable8Slice6(index);
    } else {
      KermitTable8Slice7(index);
    }
  }

  /** Entry i of the XMODEM byte table is the register that byte i makes from register 0, byte-swapped. */
  lemma XmodemTable8Entries(index: bv8)
    ensures XmodemTable8At(index) == Bswap16(XmodemReference(0, index))
  {
    if index < 0x10 {
      XmodemTable8Slice0(index);
    } else if index < 0x20 {
      XmodemTable8Slice1(index);
    } else if index < 0x30 {
      XmodemTable8Slice2(index);
    } else if index < 0x40 {
      XmodemTable8Slice3(index);
    } else if index < 0x50 {
      XmodemTable8Slice4(index);
    } else if index < 0x60 {
      XmodemTable8Slice5(index);
    } else if index < 0x70 {
      XmodemTable8Slice6(index);
    } else if index < 0x80 {
      XmodemTable8Slice7(index);
    } else if index < 0x90 {
      XmodemTable8Slice8(index);
    } else if index < 0xA0 {
      XmodemTable8Slice9(index);
    } else if index < 0xB0 {
      XmodemTable8Slice10(index);
    } else if index < 0xC0 {
      XmodemTable8Slice11(index);
    } else if index < 0xD0 {
      XmodemTable8Slice12(index);
    } else if index < 0xE0 {
      XmodemTable8Slice13(index);
    } else if index < 0xF0 {
      XmodemTable8Slice14(index);
    } else {
      XmodemTable8Slice15(index);
    }
  }

  // ---------------------------------------------------------------------
  // Each byte update against the bit-serial definition, and so against the
  // nibble build.

  /** The byte build's kermit_update does the eight division steps of one byte. */
  lemma KermitUpdateIsReference(crc: bv16, next: bv8)
    ensures KermitUpdate(crc, next) == KermitReference(crc, next)
  {
    calc {
      KermitUpdate(crc, next);
      (crc >> 8) ^ KermitTable8At(TableIndex(crc, next));
      { KermitTable8Entries(TableIndex(crc, next)); }
      (crc >> 8) ^ Nibble.KermitUpdate(0, TableIndex(crc, next));
      { Nibble.KermitUpdateIsReference(0, TableIndex(crc, next)); }
      (crc >> 8) ^ KermitReference(0, LowByte(crc) ^ next);
      { KermitReferenceSplit(crc, next); }
      KermitReference(crc, next);
    }
  }

  /** Swapping the register moves its high byte to where the table index is taken. */
  lemma SwappedIndex(crc: bv16, next: bv8)
    ensures TableIndex(Bswap16(crc), next) == HighByte(crc) ^ next
  {
  }

  /** Swapped, a left shift by eight becomes a right shift by eight. */
  lemma SwappedShift(crc: bv16, whole: bv16, part: bv16)
    requires whole == (crc << 8) ^ part
    ensures Bswap16(whole) == (Bswap16(crc) >> 8) ^ Bswap16(part)
  {
  }

  /** The split of XMODEM's byte update, seen through the byte swap. */
  lemma XmodemSwappedSplit(crc: bv16, next: bv8)
    ensures Bswap16(XmodemReference(crc, next))
         == (Bswap16(crc) >> 8) ^ Bswap16(XmodemReference(0, HighByte(crc) ^ next))
  {
    XmodemReferenceSplit(crc, next);
    SwappedShift(crc, XmodemReference(crc, next), XmodemReference(0, HighByte(crc) ^ next));
  }

  /** The byte build's xmodem_update does the eight division steps of one byte on the swapped register. */
  lemma XmodemUpdateIsReference(crc: bv16, next: bv8)
    ensures XmodemUpdate(Bswap16(crc), next) == Bswap16(XmodemReference(crc, next))
  {
    calc {
      XmodemUpdate(Bswap16(crc), next);
      (Bswap16(crc) >> 8) ^ XmodemTable8At(TableIndex(Bswap16(crc), next));
      { XmodemTable8Entries(TableIndex(Bswap16(crc), next)); }
      (Bswap16(crc) >> 8) ^ Bswap16(XmodemReference(0, TableIndex(Bswap16(crc), next)));
      { SwappedIndex(crc, next); }
      (Bswap16(crc) >> 8) ^ Bswap16(XmodemReference(0, HighByte(crc) ^ next));
      { XmodemSwappedSplit(crc, next); }
      Bswap16(XmodemReference(crc, next));
    }
  }

  /** Both builds of kermit_update compute the same register. */
  lemma KermitBuildsAgree(crc: bv16, next: bv8)
    ensures KermitUpdate(crc, next) == Nibble.KermitUpdate(crc, next)
  {
    KermitUpdateIsReference(crc, next);
    Nibble.KermitUpdateIsReference(crc, next);
  }

  /** The byte build's XMODEM register is the nibble build's, byte-swapped, before and after each update. */
  lemma XmodemBuildsAgree(crc: bv16, next: bv8)
    ensures XmodemUpdate(Bswap16(crc), next) == Bswap16(Nibble.XmodemUpdate(crc, next))
  {
    XmodemUpdateIsReference(crc, next);
    Nibble.XmodemUpdateIsReference(crc, next);
  }
}
