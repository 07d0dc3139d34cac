/** The S-box of the cipher and its inverse, entry by entry.  A table of 256 entries is written as a binary
    decision on the bits of the index, a row of sixteen entries to a function. */
module SBoxTables {

  function SRow0(x: bv8): bv8 {
    if x & 12 == 0 then (if x & 3 == 0 then 0x63 else if x & 3 == 1 then 0x7C else if x & 3 == 2 then 0x77 else 0x7B)
    else if x & 12 == 4 then (if x & 3 == 0 then 0xF2 else if x & 3 == 1 then 0x6B else if x & 3 == 2 then 0x6F else 0xC5)
    else if x & 12 == 8 then (if x & 3 == 0 then 0x30 else if x & 3 == 1 then 0x01 else if x & 3 == 2 then 0x67 else 0x2B)
    else (if x & 3 == 0 then 0xFE else if x & 3 == 1 then 0xD7 else if x & 3 == 2 then 0xAB else 0x76)
  }

  function SRow1(x: bv8): bv8 {
    if x & 12 == 0 then (if x & 3 == 0 then 0xCA else if x & 3 == 1 then 0x82 else if x & 3 == 2 then 0xC9 else 0x7D)
    else if x & 12 == 4 then (if x & 3 == 0 then 0xFA else if x & 3 == 1 then 0x59 else if x & 3 == 2 then 0x47 else 0xF0)
    else if x & 12 == 8 then (if x & 3 == 0 then 0xAD else if x & 3 == 1 then 0xD4 else if x & 3 == 2 then 0xA2 else 0xAF)
    else (if x & 3 == 0 then 0x9C else if x & 3 == 1 then 0xA4 else if x & 3 == 2 then 0x72 else 0xC0)
  }

  function SRow2(x: bv8): bv8 {
    if x & 12 == 0 then (if x & 3 == 0 then 0xB7 else if x & 3 == 1 then 0xFD else if x & 3 == 2 then 0x93 else 0x26)
    else if x & 12 == 4 then (if x & 3 == 0 then 0x36 else if x & 3 == 1 then 0x3F else if x & 3 == 2 then 0xF7 else 0xCC)
    else if x & 12 == 8 then (if x & 3 == 0 then 0x34 else if x & 3 == 1 then 0xA5 else if x & 3 == 2 then 0xE5 else 0xF1)
    else (if x & 3 == 0 then 0x71 else if x & 3 == 1 then 0xD8 else if x & 3 == 2 then 0x31 else 0x15)
  }

  function SRow3(x: bv8): bv8 {
    if x & 12 == 0 then (if x & 3 == 0 then 0x04 else if x & 3 == 1 then 0xC7 else if x & 3 == 2 then 0x23 else 0xC3)
    else if x & 12 == 4 then (if x & 3 == 0 then 0x18 else if x & 3 == 1 then 0x96 else if x & 3 == 2 then 0x05 else 0x9A)
    else if x & 12 == 8 then (if x & 3 == 0 then 0x07 else if x & 3 == 1 then 0x12 else if x & 3 == 2 then 0x80 else 0xE2)
    else (if x & 3 == 0 then 0xEB else if x & 3 == 1 then 0x27 else if x & 3 == 2 then 0xB2 else 0x75)
  }

  function SRow4(x: bv8): bv8 {
    if x & 12 == 0 then (if x & 3 == 0 then 0x09 else if x & 3 == 1 then 0x83 else if x & 3 == 2 then 0x2C else 0x1A)
    else if x & 12 == 4 then (if x & 3 == 0 then 0x1B else if x & 3 == 1 then 0x6E else if x & 3 == 2 then 0x5A else 0xA0)
    else if x & 12 == 8 then (if x & 3 == 0 then 0x52 else if x & 3 == 1 then 0x3B else if x & 3 == 2 then 0xD6 else 0xB3)
    else (if x & 3 == 0 then 0x29 else if x & 3 == 1 then 0xE3 else if x & 3 == 2 then 0x2F else 0x84)
  }

  function SRow5(x: bv8): bv8 {
    if x & 12 == 0 then (if x & 3 == 0 then 0x53 else if x & 3 == 1 then 0xD1 else if x & 3 == 2 then 0x00 else 0xED)
    else if x & 12 == 4 then (if x & 3 == 0 then 0x20 else if x & 3 == 1 then 0xFC else if x & 3 == 2 then 0xB1 else 0x5B)
    else if x & 12 == 8 then (if x & 3 == 0 then 0x6A else if x & 3 == 1 then 0xCB else if x & 3 == 2 then 0xBE else 0x39)
    else (if x & 3 == 0 then 0x4A else if x & 3 == 1 then 0x4C else if x & 3 == 2 then 0x58 else 0xCF)
  }

  function SRow6(x: bv8): bv8 {
    if x & 12 == 0 then (if x & 3 == 0 then 0xD0 else if x & 3 == 1 then 0xEF else if x & 3 == 2 then 0xAA else 0xFB)
    else if x & 12 == 4 then (if x & 3 == 0 then 0x43 else if x & 3 == 1 then 0x4D else if x & 3 == 2 then 0x33 else 0x85)
    else if x & 12 == 8 then (if x & 3 == 0 then 0x45 else if x & 3 == 1 then 0xF9 else if x & 3 == 2 then 0x02 else 0x7F)
    else (if x & 3 == 0 then 0x50 else if x & 3 == 1 then 0x3C else if x & 3 == 2 then 0x9F else 0xA8)
  }

  function SRow7(x: bv8): bv8 {
    if x & 12 == 0 then (if x & 3 == 0 then 0x51 else if x & 3 == 1 then 0xA3 else if x & 3 == 2 then 0x40 else 0x8F)
    else if x & 12 == 4 then (if x & 3 == 0 then 0x92 else if x & 3 == 1 then 0x9D else if x & 3 == 2 then 0x38 else 0xF5)
    else if x & 12 == 8 then (if x & 3 == 0 then 0xBC else if x & 3 == 1 then 0xB6 else if x & 3 == 2 then 0xDA else 0x21)
    else (if x & 3 == 0 then 0x10 else if x & 3 == 1 then 0xFF else if x & 3 == 2 then 0xF3 else 0xD2)
  }

  function SRow8(x: bv8): bv8 {
    if x & 12 == 0 then (if x & 3 == 0 then 0xCD else if x & 3 == 1 then 0x0C else if x & 3 == 2 then 0x13 else 0xEC)
    else if x & 12 == 4 then (if x & 3 == 0 then 0x5F else if x & 3 == 1 then 0x97 else if x & 3 == 2 then 0x44 else 0x17)
    else if x & 12 == 8 then (if x & 3 == 0 then 0xC4 else if x & 3 == 1 then 0xA7 else if x & 3 == 2 then 0x7E else 0x3D)
    else (if x & 3 == 0 then 0x64 else if x & 3 == 1 then 0x5D else if x & 3 == 2 then 0x19 else 0x73)
  }

  function SRow9(x: bv8): bv8 {
    if x & 12 == 0 then (if x & 3 == 0 then 0x60 else if x & 3 == 1 then 0x81 else if x & 3 == 2 then 0x4F else 0xDC)
    else if x & 12 == 4 then (if x & 3 == 0 then 0x22 else if x & 3 == 1 then 0x2A else if x & 3 == 2 then 0x90 else 0x88)
    else if x & 12 == 8 then (if x & 3 == 0 then 0x46 else if x & 3 == 1 then 0xEE else if x & 3 == 2 then 0xB8 else 0x14)
    else (if x & 3 == 0 then 0xDE else if x & 3 == 1 then 0x5E else if x & 3 == 2 then 0x0B else 0xDB)
  }

  function SRowA(x: bv8): bv8 {
    if x & 12 == 0 then (if x & 3 == 0 then 0xE0 else if x & 3 == 1 then 0x32 else if x & 3 == 2 then 0x3A else 0x0A)
    else if x & 12 == 4 then (if x & 3 == 0 then 0x49 else if x & 3 == 1 then 0x06 else if x & 3 == 2 then 0x24 else 0x5C)
    else if x & 12 == 8 then (if x & 3 == 0 then 0xC2 else if x & 3 == 1 then 0xD3 else if x & 3 == 2 then 0xAC else 0x62)
    else (if x & 3 == 0 then 0x91 else if x & 3 == 1 then 0x95 else if x & 3 == 2 then 0xE4 else 0x79)
  }

  function SRowB(x: bv8): bv8 {
    if x & 12 == 0 then (if x & 3 == 0 then 0xE7 else if x & 3 == 1 then 0xC8 else if x & 3 == 2 then 0x37 else 0x6D)
    else if x & 12 == 4 then (if x & 3 == 0 then 0x8D else if x & 3 == 1 then 0xD5 else if x & 3 == 2 then 0x4E else 0xA9)
    else if x & 12 == 8 then (if x & 3 == 0 then 0x6C else if x & 3 == 1 then 0x56 else if x & 3 == 2 then 0xF4 else 0xEA)
    else (if x & 3 == 0 then 0x65 else if x & 3 == 1 then 0x7A else if x & 3 == 2 then 0xAE else 0x08)
  }

  function SRowC(x: bv8): bv8 {
    if x & 12 == 0 then (if x & 3 == 0 then 0xBA else if x & 3 == 1 then 0x78 else if x & 3 == 2 then 0x25 else 0x2E)
    else if x & 12 == 4 then (if x & 3 == 0 then 0x1C else if x & 3 == 1 then 0xA6 else if x & 3 == 2 then 0xB4 else 0xC6)
    else if x & 12 == 8 then (if x & 3 == 0 then 0xE8 else if x & 3 == 1 then 0xDD else if x & 3 == 2 then 0x74 else 0x1F)
    else (if x & 3 == 0 then 0x4B else if x & 3 == 1 then 0xBD else if x & 3 == 2 then 0x8B else 0x8A)
  }

  function SRowD(x: bv8): bv8 {
    if x & 12 == 0 then (if x & 3 == 0 then 0x70 else if x & 3 == 1 then 0x3E else if x & 3 == 2 then 0xB5 else 0x66)
    else if x & 12 == 4 then (if x & 3 == 0 then 0x48 else if x & 3 == 1 then 0x03 else if x & 3 == 2 then 0xF6 else 0x0E)
    else if x & 12 == 8 then (if x & 3 == 0 then 0x61 else if x & 3 == 1 then 0x35 else if x & 3 == 2 then 0x57 else 0xB9)
    else (if x & 3 == 0 then 0x86 else if x & 3 == 1 then 0xC1 else if x & 3 == 2 then 0x1D else 0x9E)
  }

  function SRowE(x: bv8): bv8 {
    if x & 12 == 0 then (if x & 3 == 0 then 0xE1 else if x & 3 == 1 then 0xF8 else if x & 3 == 2 then 0x98 else 0x11)
    else if x & 12 == 4 then (if x & 3 == 0 then 0x69 else if x & 3 == 1 then 0xD9 else if x & 3 == 2 then 0x8E else 0x94)
    else if x & 12 == 8 then (if x & 3 == 0 then 0x9B else if x & 3 == 1 then 0x1E else if x & 3 == 2 then 0x87 else 0xE9)
    else (if x & 3 == 0 then 0xCE else if x & 3 == 1 then 0x55 else if x & 3 == 2 then 0x28 else 0xDF)
  }

  function SRowF(x: bv8): bv8 {
    if x & 12 == 0 then (if x & 3 == 0 then 0x8C else if x & 3 == 1 then 0xA1 else if x & 3 == 2 then 0x89 else 0x0D)
    else if x & 12 == 4 then (if x & 3 == 0 then 0xBF else if x & 3 == 1 then 0xE6 else if x & 3 == 2 then 0x42 else 0x68)
    else if x & 12 == 8 then (if x & 3 == 0 then 0x41 else if x & 3 == 1 then 0x99 else if x & 3 == 2 then 0x2D else 0x0F)
    else (if x & 3 == 0 then 0xB0 else if x & 3 == 1 then 0x54 else if x & 3 == 2 then 0xBB else 0x16)
  }

  /** `sm_S`, the substitution of section 5.1.1 of FIPS 197. */
  function S(x: bv8): bv8 {
    if x & 0x80 == 0 then
      if x & 0x40 == 0 then
        if x & 0x20 == 0 then
          if x & 0x10 == 0 then SRow0(x) else SRow1(x)
        else
          if x & 0x10 == 0 then SRow2(x) else SRow3(x)
      else
        if x & 0x20 == 0 then
          if x & 0x10 == 0 then SRow4(x) else SRow5(x)
        else
          if x & 0x10 == 0 then SRow6(x) else SRow7(x)
    else
      if x & 0x40 == 0 then
        if x & 0x20 == 0 then
          if x & 0x10 == 0 then SRow8(x) else SRow9(x)
        else
          if x & 0x10 == 0 then SRowA(x) else SRowB(x)
      else
        if x & 0x20 == 0 then
          if x & 0x10 == 0 then SRowC(x) else SRowD(x)
        else
          if x & 0x10 == 0 then SRowE(x) else SRowF(x)
  }

  function SiRow0(x: bv8): bv8 {
    if x & 12 == 0 then (if x & 3 == 0 then 0x52 else if x & 3 == 1 then 0x09 else if x & 3 == 2 then 0x6A else 0xD5)
    else if x & 12 == 4 then (if x & 3 == 0 then 0x30 else if x & 3 == 1 then 0x36 else if x & 3 == 2 then 0xA5 else 0x38)
    else if x & 12 == 8 then (if x & 3 == 0 then 0xBF else if x & 3 == 1 then 0x40 else if x & 3 == 2 then 0xA3 else 0x9E)
    else (if x & 3 == 0 then 0x81 else if x & 3 == 1 then 0xF3 else if x & 3 == 2 then 0xD7 else 0xFB)
  }

  function SiRow1(x: bv8): bv8 {
    if x & 12 == 0 then (if x & 3 == 0 then 0x7C else if x & 3 == 1 then 0xE3 else if x & 3 == 2 then 0x39 else 0x82)
    else if x & 12 == 4 then (if x & 3 == 0 then 0x9B else if x & 3 == 1 then 0x2F else if x & 3 == 2 then 0xFF else 0x87)
    else if x & 12 == 8 then (if x & 3 == 0 then 0x34 else if x & 3 == 1 then 0x8E else if x & 3 == 2 then 0x43 else 0x44)
    else (if x & 3 == 0 then 0xC4 else if x & 3 == 1 then 0xDE else if x & 3 == 2 then 0xE9 else 0xCB)
  }

  function SiRow2(x: bv8): bv8 {
    if x & 12 == 0 then (if x & 3 == 0 then 0x54 else if x & 3 == 1 then 0x7B else if x & 3 == 2 then 0x94 else 0x32)
    else if x & 12 == 4 then (if x & 3 == 0 then 0xA6 else if x & 3 == 1 then 0xC2 else if x & 3 == 2 then 0x23 else 0x3D)
    else if x & 12 == 8 then (if x & 3 == 0 then 0xEE else if x & 3 == 1 then 0x4C else if x & 3 == 2 then 0x95 else 0x0B)
    else (if x & 3 == 0 then 0x42 else if x & 3 == 1 then 0xFA else if x & 3 == 2 then 0xC3 else 0x4E)
  }

  function SiRow3(x: bv8): bv8 {
    if x & 12 == 0 then (if x & 3 == 0 then 0x08 else if x & 3 == 1 then 0x2E else if x & 3 == 2 then 0xA1 else 0x66)
    else if x & 12 == 4 then (if x & 3 == 0 then 0x28 else if x & 3 == 1 then 0xD9 else if x & 3 == 2 then 0x24 else 0xB2)
    else if x & 12 == 8 then (if x & 3 == 0 then 0x76 else if x & 3 == 1 then 0x5B else if x & 3 == 2 then 0xA2 else 0x49)
    else (if x & 3 == 0 then 0x6D else if x & 3 == 1 then 0x8B else if x & 3 == 2 then 0xD1 else 0x25)
  }

  function SiRow4(x: bv8): bv8 {
    if x & 12 == 0 then (if x & 3 == 0 then 0x72 else if x & 3 == 1 then 0xF8 else if x & 3 == 2 then 0xF6 else 0x64)
    else if x & 12 == 4 then (if x & 3 == 0 then 0x86 else if x & 3 == 1 then 0x68 else if x & 3 == 2 then 0x98 else 0x16)
    else if x & 12 == 8 then (if x & 3 == 0 then 0xD4 else if x & 3 == 1 then 0xA4 else if x & 3 == 2 then 0x5C else 0xCC)
    else (if x & 3 == 0 then 0x5D else if x & 3 == 1 then 0x65 else if x & 3 == 2 then 0xB6 else 0x92)
  }

  function SiRow5(x: bv8): bv8 {
    if x & 12 == 0 then (if x & 3 == 0 then 0x6C else if x & 3 == 1 then 0x70 else if x & 3 == 2 then 0x48 else 0x50)
    else if x & 12 == 4 then (if x & 3 == 0 then 0xFD else if x & 3 == 1 then 0xED else if x & 3 == 2 then 0xB9 else 0xDA)
    else if x & 12 == 8 then (if x & 3 == 0 then 0x5E else if x & 3 == 1 then 0x15 else if x & 3 == 2 then 0x46 else 0x57)
    else (if x & 3 == 0 then 0xA7 else if x & 3 == 1 then 0x8D else if x & 3 == 2 then 0x9D else 0x84)
  }

  function SiRow6(x: bv8): bv8 {
    if x & 12 == 0 then (if x & 3 == 0 then 0x90 else if x & 3 == 1 then 0xD8 else if x & 3 == 2 then 0xAB else 0x00)
    else if x & 12 == 4 then (if x & 3 == 0 then 0x8C else if x & 3 == 1 then 0xBC else if x & 3 == 2 then 0xD3 else 0x0A)
    else if x & 12 == 8 then (if x & 3 == 0 then 0xF7 else if x & 3 == 1 then 0xE4 else if x & 3 == 2 then 0x58 else 0x05)
    else (if x & 3 == 0 then 0xB8 else if x & 3 == 1 then 0xB3 else if x & 3 == 2 then 0x45 else 0x06)
  }

  function SiRow7(x: bv8): bv8 {
    if x & 12 == 0 then (if x & 3 == 0 then 0xD0 else if x & 3 == 1 then 0x2C else if x & 3 == 2 then 0x1E else 0x8F)
    else if x & 12 == 4 then (if x & 3 == 0 then 0xCA else if x & 3 == 1 then 0x3F else if x & 3 == 2 then 0x0F else 0x02)
    else if x & 12 == 8 then (if x & 3 == 0 then 0xC1 else if x & 3 == 1 then 0xAF else if x & 3 == 2 then 0xBD else 0x03)
    else (if x & 3 == 0 then 0x01 else if x & 3 == 1 then 0x13 else if x & 3 == 2 then 0x8A else 0x6B)
  }

  function SiRow8(x: bv8): bv8 {
    if x & 12 == 0 then (if x & 3 == 0 then 0x3A else if x & 3 == 1 then 0x91 else if x & 3 == 2 then 0x11 else 0x41)
    else if x & 12 == 4 then (if x & 3 == 0 then 0x4F else if x & 3 == 1 then 0x67 else if x & 3 == 2 then 0xDC else 0xEA)
    else if x & 12 == 8 then (if x & 3 == 0 then 0x97 else if x & 3 == 1 then 0xF2 else if x & 3 == 2 then 0xCF else 0xCE)
    else (if x & 3 == 0 then 0xF0 else if x & 3 == 1 then 0xB4 else if x & 3 == 2 then 0xE6 else 0x73)
  }

  function SiRow9(x: bv8): bv8 {
    if x & 12 == 0 then (if x & 3 == 0 then 0x96 else if x & 3 == 1 then 0xAC else if x & 3 == 2 then 0x74 else 0x22)
    else if x & 12 == 4 then (if x & 3 == 0 then 0xE7 else if x & 3 == 1 then 0xAD else if x & 3 == 2 then 0x35 else 0x85)
    else if x & 12 == 8 then (if x & 3 == 0 then 0xE2 else if x & 3 == 1 then 0xF9 else if x & 3 == 2 then 0x37 else 0xE8)
    else (if x & 3 == 0 then 0x1C else if x & 3 == 1 then 0x75 else if x & 3 == 2 then 0xDF else 0x6E)
  }

  function SiRowA(x: bv8): bv8 {
    if x & 12 == 0 then (if x & 3 == 0 then 0x47 else if x & 3 == 1 then 0xF1 else if x & 3 == 2 then 0x1A else 0x71)
    else if x & 12 == 4 then (if x & 3 == 0 then 0x1D else if x & 3 == 1 then 0x29 else if x & 3 == 2 then 0xC5 else 0x89)
    else if x & 12 == 8 then (if x & 3 == 0 then 0x6F else if x & 3 == 1 then 0xB7 else if x & 3 == 2 then 0x62 else 0x0E)
    else (if x & 3 == 0 then 0xAA else if x & 3 == 1 then 0x18 else if x & 3 == 2 then 0xBE else 0x1B)
  }

  function SiRowB(x: bv8): bv8 {
    if x & 12 == 0 then (if x & 3 == 0 then 0xFC else if x & 3 == 1 then 0x56 else if x & 3 == 2 then 0x3E else 0x4B)
    else if x & 12 == 4 then (if x & 3 == 0 then 0xC6 else if x & 3 == 1 then 0xD2 else if x & 3 == 2 then 0x79 else 0x20)
    else if x & 12 == 8 then (if x & 3 == 0 then 0x9A else if x & 3 == 1 then 0xDB else if x & 3 == 2 then 0xC0 else 0xFE)
    else (if x & 3 == 0 then 0x78 else if x & 3 == 1 then 0xCD else if x & 3 == 2 then 0x5A else 0xF4)
  }

  function SiRowC(x: bv8): bv8 {
    if x & 12 == 0 then (if x & 3 == 0 then 0x1F else if x & 3 == 1 then 0xDD else if x & 3 == 2 then 0xA8 else 0x33)
    else if x & 12 == 4 then (if x & 3 == 0 then 0x88 else if x & 3 == 1 then 0x07 else if x & 3 == 2 then 0xC7 else 0x31)
    else if x & 12 == 8 then (if x & 3 == 0 then 0xB1 else if x & 3 == 1 then 0x12 else if x & 3 == 2 then 0x10 else 0x59)
    else (if x & 3 == 0 then 0x27 else if x & 3 == 1 then 0x80 else if x & 3 == 2 then 0xEC else 0x5F)
  }

  function SiRowD(x: bv8): bv8 {
    if x & 12 == 0 then (if x & 3 == 0 then 0x60 else if x & 3 == 1 then 0x51 else if x & 3 == 2 then 0x7F else 0xA9)
    else if x & 12 == 4 then (if x & 3 == 0 then 0x19 else if x & 3 == 1 then 0xB5 else if x & 3 == 2 then 0x4A else 0x0D)
    else if x & 12 == 8 then (if x & 3 == 0 then 0x2D else if x & 3 == 1 then 0xE5 else if x & 3 == 2 then 0x7A else 0x9F)
    else (if x & 3 == 0 then 0x93 else if x & 3 == 1 then 0xC9 else if x & 3 == 2 then 0x9C else 0xEF)
  }

  function SiRowE(x: bv8): bv8 {
    if x & 12 == 0 then (if x & 3 == 0 then 0xA0 else if x & 3 == 1 then 0xE0 else if x & 3 == 2 then 0x3B else 0x4D)
    else if x & 12 == 4 then (if x & 3 == 0 then 0xAE else if x & 3 == 1 then 0x2A else if x & 3 == 2 then 0xF5 else 0xB0)
    else if x & 12 == 8 then (if x & 3 == 0 then 0xC8 else if x & 3 == 1 then 0xEB else if x & 3 == 2 then 0xBB else 0x3C)
    else (if x & 3 == 0 then 0x83 else if x & 3 == 1 then 0x53 else if x & 3 == 2 then 0x99 else 0x61)
  }

  function SiRowF(x: bv8): bv8 {
    if x & 12 == 0 then (if x & 3 == 0 then 0x17 else if x & 3 == 1 then 0x2B else if x & 3 == 2 then 0x04 else 0x7E)
    else if x & 12 == 4 then (if x & 3 == 0 then 0xBA else if x & 3 == 1 then 0x77 else if x & 3 == 2 then 0xD6 else 0x26)
    else if x & 12 == 8 then (if x & 3 == 0 then 0xE1 else if x & 3 == 1 then 0x69 else if x & 3 == 2 then 0x14 else 0x63)
    else (if x & 3 == 0 then 0x55 else if x & 3 == 1 then 0x21 else if x & 3 == 2 then 0x0C else 0x7D)
  }

  /** `sm_Si`, the inverse substitution of section 5.3.2 of FIPS 197. */
  function Si(x: bv8): bv8 {
    if x & 0x80 == 0 then
      if x & 0x40 == 0 then
        if x & 0x20 == 0 then
          if x & 0x10 == 0 then SiRow0(x) else SiRow1(x)
        else
          if x & 0x10 == 0 then SiRow2(x) else SiRow3(x)
      else
        if x & 0x20 == 0 then
          if x & 0x10 == 0 then SiRow4(x) else SiRow5(x)
        else
          if x & 0x10 == 0 then SiRow6(x) else SiRow7(x)
    else
      if x & 0x40 == 0 then
        if x & 0x20 == 0 then
          if x & 0x10 == 0 then SiRow8(x) else SiRow9(x)
        else
          if x & 0x10 == 0 then SiRowA(x) else SiRowB(x)
      else
        if x & 0x20 == 0 then
          if x & 0x10 == 0 then SiRowC(x) else SiRowD(x)
        else
          if x & 0x10 == 0 then SiRowE(x) else SiRowF(x)
  }

  /** The two substitutions undo each other. */
  lemma SubstitutionInverts(x: bv8)
    ensures Si(S(x)) == x
    ensures S(Si(x)) == x
  {
    InverseAfterForward(x);
    ForwardAfterInverse(x);
  }

  lemma InverseAfterForward(x: bv8)
    ensures Si(S(x)) == x
  {
  }

  lemma ForwardAfterInverse(x: bv8)
    ensures S(Si(x)) == x
  {
  }
}
