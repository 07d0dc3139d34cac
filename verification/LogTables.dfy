/** The antilogarithms and logarithms to the base 3 in GF(2^8), entry by entry. */
module LogTables {

  function AlogRow0(x: bv8): bv8 {
    if x & 12 == 0 then (if x & 3 == 0 then 0x01 else if x & 3 == 1 then 0x03 else if x & 3 == 2 then 0x05 else 0x0F)
    else if x & 12 == 4 then (if x & 3 == 0 then 0x11 else if x & 3 == 1 then 0x33 else if x & 3 == 2 then 0x55 else 0xFF)
    else if x & 12 == 8 then (if x & 3 == 0 then 0x1A else if x & 3 == 1 then 0x2E else if x & 3 == 2 then 0x72 else 0x96)
    else (if x & 3 == 0 then 0xA1 else if x & 3 == 1 then 0xF8 else if x & 3 == 2 then 0x13 else 0x35)
  }

  function AlogRow1(x: bv8): bv8 {
    if x & 12 == 0 then (if x & 3 == 0 then 0x5F else if x & 3 == 1 then 0xE1 else if x & 3 == 2 then 0x38 else 0x48)
    else if x & 12 == 4 then (if x & 3 == 0 then 0xD8 else if x & 3 == 1 then 0x73 else if x & 3 == 2 then 0x95 else 0xA4)
    else if x & 12 == 8 then (if x & 3 == 0 then 0xF7 else if x & 3 == 1 then 0x02 else if x & 3 == 2 then 0x06 else 0x0A)
    else (if x & 3 == 0 then 0x1E else if x & 3 == 1 then 0x22 else if x & 3 == 2 then 0x66 else 0xAA)
  }

  function AlogRow2(x: bv8): bv8 {
    if x & 12 == 0 then (if x & 3 == 0 then 0xE5 else if x & 3 == 1 then 0x34 else if x & 3 == 2 then 0x5C else 0xE4)
    else if x & 12 == 4 then (if x & 3 == 0 then 0x37 else if x & 3 == 1 then 0x59 else if x & 3 == 2 then 0xEB else 0x26)
    else if x & 12 == 8 then (if x & 3 == 0 then 0x6A else if x & 3 == 1 then 0xBE else if x & 3 == 2 then 0xD9 else 0x70)
    else (if x & 3 == 0 then 0x90 else if x & 3 == 1 then 0xAB else if x & 3 == 2 then 0xE6 else 0x31)
  }

  function AlogRow3(x: bv8): bv8 {
    if x & 12 == 0 then (if x & 3 == 0 then 0x53 else if x & 3 == 1 then 0xF5 else if x & 3 == 2 then 0x04 else 0x0C)
    else if x & 12 == 4 then (if x & 3 == 0 then 0x14 else if x & 3 == 1 then 0x3C else if x & 3 == 2 then 0x44 else 0xCC)
    else if x & 12 == 8 then (if x & 3 == 0 then 0x4F else if x & 3 == 1 then 0xD1 else if x & 3 == 2 then 0x68 else 0xB8)
    else (if x & 3 == 0 then 0xD3 else if x & 3 == 1 then 0x6E else if x & 3 == 2 then 0xB2 else 0xCD)
  }

  function AlogRow4(x: bv8): bv8 {
    if x & 12 == 0 then (if x & 3 == 0 then 0x4C else if x & 3 == 1 then 0xD4 else if x & 3 == 2 then 0x67 else 0xA9)
    else if x & 12 == 4 then (if x & 3 == 0 then 0xE0 else if x & 3 == 1 then 0x3B else if x & 3 == 2 then 0x4D else 0xD7)
    else if x & 12 == 8 then (if x & 3 == 0 then 0x62 else if x & 3 == 1 then 0xA6 else if x & 3 == 2 then 0xF1 else 0x08)
    else (if x & 3 == 0 then 0x18 else if x & 3 == 1 then 0x28 else if x & 3 == 2 then 0x78 else 0x88)
  }

  function AlogRow5(x: bv8): bv8 {
    if x & 12 == 0 then (if x & 3 == 0 then 0x83 else if x & 3 == 1 then 0x9E else if x & 3 == 2 then 0xB9 else 0xD0)
    else if x & 12 == 4 then (if x & 3 == 0 then 0x6B else if x & 3 == 1 then 0xBD else if x & 3 == 2 then 0xDC else 0x7F)
    else if x & 12 == 8 then (if x & 3 == 0 then 0x81 else if x & 3 == 1 then 0x98 else if x & 3 == 2 then 0xB3 else 0xCE)
    else (if x & 3 == 0 then 0x49 else if x & 3 == 1 then 0xDB else if x & 3 == 2 then 0x76 else 0x9A)
  }

  function AlogRow6(x: bv8): bv8 {
    if x & 12 == 0 then (if x & 3 == 0 then 0xB5 else if x & 3 == 1 then 0xC4 else if x & 3 == 2 then 0x57 else 0xF9)
    else if x & 12 == 4 then (if x & 3 == 0 then 0x10 else if x & 3 == 1 then 0x30 else if x & 3 == 2 then 0x50 else 0xF0)
    else if x & 12 == 8 then (if x & 3 == 0 then 0x0B else if x & 3 == 1 then 0x1D else if x & 3 == 2 then 0x27 else 0x69)
    else (if x & 3 == 0 then 0xBB else if x & 3 == 1 then 0xD6 else if x & 3 == 2 then 0x61 else 0xA3)
  }

  function AlogRow7(x: bv8): bv8 {
    if x & 12 == 0 then (if x & 3 == 0 then 0xFE else if x & 3 == 1 then 0x19 else if x & 3 == 2 then 0x2B else 0x7D)
    else if x & 12 == 4 then (if x & 3 == 0 then 0x87 else if x & 3 == 1 then 0x92 else if x & 3 == 2 then 0xAD else 0xEC)
    else if x & 12 == 8 then (if x & 3 == 0 then 0x2F else if x & 3 == 1 then 0x71 else if x & 3 == 2 then 0x93 else 0xAE)
    else (if x & 3 == 0 then 0xE9 else if x & 3 == 1 then 0x20 else if x & 3 == 2 then 0x60 else 0xA0)
  }

  function AlogRow8(x: bv8): bv8 {
    if x & 12 == 0 then (if x & 3 == 0 then 0xFB else if x & 3 == 1 then 0x16 else if x & 3 == 2 then 0x3A else 0x4E)
    else if x & 12 == 4 then (if x & 3 == 0 then 0xD2 else if x & 3 == 1 then 0x6D else if x & 3 == 2 then 0xB7 else 0xC2)
    else if x & 12 == 8 then (if x & 3 == 0 then 0x5D else if x & 3 == 1 then 0xE7 else if x & 3 == 2 then 0x32 else 0x56)
    else (if x & 3 == 0 then 0xFA else if x & 3 == 1 then 0x15 else if x & 3 == 2 then 0x3F else 0x41)
  }

  function AlogRow9(x: bv8): bv8 {
    if x & 12 == 0 then (if x & 3 == 0 then 0xC3 else if x & 3 == 1 then 0x5E else if x & 3 == 2 then 0xE2 else 0x3D)
    else if x & 12 == 4 then (if x & 3 == 0 then 0x47 else if x & 3 == 1 then 0xC9 else if x & 3 == 2 then 0x40 else 0xC0)
    else if x & 12 == 8 then (if x & 3 == 0 then 0x5B else if x & 3 == 1 then 0xED else if x & 3 == 2 then 0x2C else 0x74)
    else (if x & 3 == 0 then 0x9C else if x & 3 == 1 then 0xBF else if x & 3 == 2 then 0xDA else 0x75)
  }

  function AlogRowA(x: bv8): bv8 {
    if x & 12 == 0 then (if x & 3 == 0 then 0x9F else if x & 3 == 1 then 0xBA else if x & 3 == 2 then 0xD5 else 0x64)
    else if x & 12 == 4 then (if x & 3 == 0 then 0xAC else if x & 3 == 1 then 0xEF else if x & 3 == 2 then 0x2A else 0x7E)
    else if x & 12 == 8 then (if x & 3 == 0 then 0x82 else if x & 3 == 1 then 0x9D else if x & 3 == 2 then 0xBC else 0xDF)
    else (if x & 3 == 0 then 0x7A else if x & 3 == 1 then 0x8E else if x & 3 == 2 then 0x89 else 0x80)
  }

  function AlogRowB(x: bv8): bv8 {
    if x & 12 == 0 then (if x & 3 == 0 then 0x9B else if x & 3 == 1 then 0xB6 else if x & 3 == 2 then 0xC1 else 0x58)
    else if x & 12 == 4 then (if x & 3 == 0 then 0xE8 else if x & 3 == 1 then 0x23 else if x & 3 == 2 then 0x65 else 0xAF)
    else if x & 12 == 8 then (if x & 3 == 0 then 0xEA else if x & 3 == 1 then 0x25 else if x & 3 == 2 then 0x6F else 0xB1)
    else (if x & 3 == 0 then 0xC8 else if x & 3 == 1 then 0x43 else if x & 3 == 2 then 0xC5 else 0x54)
  }

  function AlogRowC(x: bv8): bv8 {
    if x & 12 == 0 then (if x & 3 == 0 then 0xFC else if x & 3 == 1 then 0x1F else if x & 3 == 2 then 0x21 else 0x63)
    else if x & 12 == 4 then (if x & 3 == 0 then 0xA5 else if x & 3 == 1 then 0xF4 else if x & 3 == 2 then 0x07 else 0x09)
    else if x & 12 == 8 then (if x & 3 == 0 then 0x1B else if x & 3 == 1 then 0x2D else if x & 3 == 2 then 0x77 else 0x99)
    else (if x & 3 == 0 then 0xB0 else if x & 3 == 1 then 0xCB else if x & 3 == 2 then 0x46 else 0xCA)
  }

  function AlogRowD(x: bv8): bv8 {
    if x & 12 == 0 then (if x & 3 == 0 then 0x45 else if x & 3 == 1 then 0xCF else if x & 3 == 2 then 0x4A else 0xDE)
    else if x & 12 == 4 then (if x & 3 == 0 then 0x79 else if x & 3 == 1 then 0x8B else if x & 3 == 2 then 0x86 else 0x91)
    else if x & 12 == 8 then (if x & 3 == 0 then 0xA8 else if x & 3 == 1 then 0xE3 else if x & 3 == 2 then 0x3E else 0x42)
    else (if x & 3 == 0 then 0xC6 else if x & 3 == 1 then 0x51 else if x & 3 == 2 then 0xF3 else 0x0E)
  }

  function AlogRowE(x: bv8): bv8 {
    if x & 12 == 0 then (if x & 3 == 0 then 0x12 else if x & 3 == 1 then 0x36 else if x & 3 == 2 then 0x5A else 0xEE)
    else if x & 12 == 4 then (if x & 3 == 0 then 0x29 else if x & 3 == 1 then 0x7B else if x & 3 == 2 then 0x8D else 0x8C)
    else if x & 12 == 8 then (if x & 3 == 0 then 0x8F else if x & 3 == 1 then 0x8A else if x & 3 == 2 then 0x85 else 0x94)
    else (if x & 3 == 0 then 0xA7 else if x & 3 == 1 then 0xF2 else if x & 3 == 2 then 0x0D else 0x17)
  }

  function AlogRowF(x: bv8): bv8 {
    if x & 12 == 0 then (if x & 3 == 0 then 0x39 else if x & 3 == 1 then 0x4B else if x & 3 == 2 then 0xDD else 0x7C)
    else if x & 12 == 4 then (if x & 3 == 0 then 0x84 else if x & 3 == 1 then 0x97 else if x & 3 == 2 then 0xA2 else 0xFD)
    else if x & 12 == 8 then (if x & 3 == 0 then 0x1C else if x & 3 == 1 then 0x24 else if x & 3 == 2 then 0x6C else 0xB4)
    else (if x & 3 == 0 then 0xC7 else if x & 3 == 1 then 0x52 else if x & 3 == 2 then 0xF6 else 0x01)
  }

  /** `sm_alog`. */
  function Alog(x: bv8): bv8 {
    if x & 0x80 == 0 then
      if x & 0x40 == 0 then
        if x & 0x20 == 0 then
          if x & 0x10 == 0 then AlogRow0(x) else AlogRow1(x)
        else
          if x & 0x10 == 0 then AlogRow2(x) else AlogRow3(x)
      else
        if x & 0x20 == 0 then
          if x & 0x10 == 0 then AlogRow4(x) else AlogRow5(x)
        else
          if x & 0x10 == 0 then AlogRow6(x) else AlogRow7(x)
    else
      if x & 0x40 == 0 then
        if x & 0x20 == 0 then
          if x & 0x10 == 0 then AlogRow8(x) else AlogRow9(x)
        else
          if x & 0x10 == 0 then AlogRowA(x) else AlogRowB(x)
      else
        if x & 0x20 == 0 then
          if x & 0x10 == 0 then AlogRowC(x) else AlogRowD(x)
        else
          if x & 0x10 == 0 then AlogRowE(x) else AlogRowF(x)
  }

  function LogRow0(x: bv8): bv8 {
    if x & 12 == 0 then (if x & 3 == 0 then 0x00 else if x & 3 == 1 then 0x00 else if x & 3 == 2 then 0x19 else 0x01)
    else if x & 12 == 4 then (if x & 3 == 0 then 0x32 else if x & 3 == 1 then 0x02 else if x & 3 == 2 then 0x1A else 0xC6)
    else if x & 12 == 8 then (if x & 3 == 0 then 0x4B else if x & 3 == 1 then 0xC7 else if x & 3 == 2 then 0x1B else 0x68)
    else (if x & 3 == 0 then 0x33 else if x & 3 == 1 then 0xEE else if x & 3 == 2 then 0xDF else 0x03)
  }

  function LogRow1(x: bv8): bv8 {
    if x & 12 == 0 then (if x & 3 == 0 then 0x64 else if x & 3 == 1 then 0x04 else if x & 3 == 2 then 0xE0 else 0x0E)
    else if x & 12 == 4 then (if x & 3 == 0 then 0x34 else if x & 3 == 1 then 0x8D else if x & 3 == 2 then 0x81 else 0xEF)
    else if x & 12 == 8 then (if x & 3 == 0 then 0x4C else if x & 3 == 1 then 0x71 else if x & 3 == 2 then 0x08 else 0xC8)
    else (if x & 3 == 0 then 0xF8 else if x & 3 == 1 then 0x69 else if x & 3 == 2 then 0x1C else 0xC1)
  }

  function LogRow2(x: bv8): bv8 {
    if x & 12 == 0 then (if x & 3 == 0 then 0x7D else if x & 3 == 1 then 0xC2 else if x & 3 == 2 then 0x1D else 0xB5)
    else if x & 12 == 4 then (if x & 3 == 0 then 0xF9 else if x & 3 == 1 then 0xB9 else if x & 3 == 2 then 0x27 else 0x6A)
    else if x & 12 == 8 then (if x & 3 == 0 then 0x4D else if x & 3 == 1 then 0xE4 else if x & 3 == 2 then 0xA6 else 0x72)
    else (if x & 3 == 0 then 0x9A else if x & 3 == 1 then 0xC9 else if x & 3 == 2 then 0x09 else 0x78)
  }

  function LogRow3(x: bv8): bv8 {
    if x & 12 == 0 then (if x & 3 == 0 then 0x65 else if x & 3 == 1 then 0x2F else if x & 3 == 2 then 0x8A else 0x05)
    else if x & 12 == 4 then (if x & 3 == 0 then 0x21 else if x & 3 == 1 then 0x0F else if x & 3 == 2 then 0xE1 else 0x24)
    else if x & 12 == 8 then (if x & 3 == 0 then 0x12 else if x & 3 == 1 then 0xF0 else if x & 3 == 2 then 0x82 else 0x45)
    else (if x & 3 == 0 then 0x35 else if x & 3 == 1 then 0x93 else if x & 3 == 2 then 0xDA else 0x8E)
  }

  function LogRow4(x: bv8): bv8 {
    if x & 12 == 0 then (if x & 3 == 0 then 0x96 else if x & 3 == 1 then 0x8F else if x & 3 == 2 then 0xDB else 0xBD)
    else if x & 12 == 4 then (if x & 3 == 0 then 0x36 else if x & 3 == 1 then 0xD0 else if x & 3 == 2 then 0xCE else 0x94)
    else if x & 12 == 8 then (if x & 3 == 0 then 0x13 else if x & 3 == 1 then 0x5C else if x & 3 == 2 then 0xD2 else 0xF1)
    else (if x & 3 == 0 then 0x40 else if x & 3 == 1 then 0x46 else if x & 3 == 2 then 0x83 else 0x38)
  }

  function LogRow5(x: bv8): bv8 {
    if x & 12 == 0 then (if x & 3 == 0 then 0x66 else if x & 3 == 1 then 0xDD else if x & 3 == 2 then 0xFD else 0x30)
    else if x & 12 == 4 then (if x & 3 == 0 then 0xBF else if x & 3 == 1 then 0x06 else if x & 3 == 2 then 0x8B else 0x62)
    else if x & 12 == 8 then (if x & 3 == 0 then 0xB3 else if x & 3 == 1 then 0x25 else if x & 3 == 2 then 0xE2 else 0x98)
    else (if x & 3 == 0 then 0x22 else if x & 3 == 1 then 0x88 else if x & 3 == 2 then 0x91 else 0x10)
  }

  function LogRow6(x: bv8): bv8 {
    if x & 12 == 0 then (if x & 3 == 0 then 0x7E else if x & 3 == 1 then 0x6E else if x & 3 == 2 then 0x48 else 0xC3)
    else if x & 12 == 4 then (if x & 3 == 0 then 0xA3 else if x & 3 == 1 then 0xB6 else if x & 3 == 2 then 0x1E else 0x42)
    else if x & 12 == 8 then (if x & 3 == 0 then 0x3A else if x & 3 == 1 then 0x6B else if x & 3 == 2 then 0x28 else 0x54)
    else (if x & 3 == 0 then 0xFA else if x & 3 == 1 then 0x85 else if x & 3 == 2 then 0x3D else 0xBA)
  }

  function LogRow7(x: bv8): bv8 {
    if x & 12 == 0 then (if x & 3 == 0 then 0x2B else if x & 3 == 1 then 0x79 else if x & 3 == 2 then 0x0A else 0x15)
    else if x & 12 == 4 then (if x & 3 == 0 then 0x9B else if x & 3 == 1 then 0x9F else if x & 3 == 2 then 0x5E else 0xCA)
    else if x & 12 == 8 then (if x & 3 == 0 then 0x4E else if x & 3 == 1 then 0xD4 else if x & 3 == 2 then 0xAC else 0xE5)
    else (if x & 3 == 0 then 0xF3 else if x & 3 == 1 then 0x73 else if x & 3 == 2 then 0xA7 else 0x57)
  }

  function LogRow8(x: bv8): bv8 {
    if x & 12 == 0 then (if x & 3 == 0 then 0xAF else if x & 3 == 1 then 0x58 else if x & 3 == 2 then 0xA8 else 0x50)
    else if x & 12 == 4 then (if x & 3 == 0 then 0xF4 else if x & 3 == 1 then 0xEA else if x & 3 == 2 then 0xD6 else 0x74)
    else if x & 12 == 8 then (if x & 3 == 0 then 0x4F else if x & 3 == 1 then 0xAE else if x & 3 == 2 then 0xE9 else 0xD5)
    else (if x & 3 == 0 then 0xE7 else if x & 3 == 1 then 0xE6 else if x & 3 == 2 then 0xAD else 0xE8)
  }

  function LogRow9(x: bv8): bv8 {
    if x & 12 == 0 then (if x & 3 == 0 then 0x2C else if x & 3 == 1 then 0xD7 else if x & 3 == 2 then 0x75 else 0x7A)
    else if x & 12 == 4 then (if x & 3 == 0 then 0xEB else if x & 3 == 1 then 0x16 else if x & 3 == 2 then 0x0B else 0xF5)
    else if x & 12 == 8 then (if x & 3 == 0 then 0x59 else if x & 3 == 1 then 0xCB else if x & 3 == 2 then 0x5F else 0xB0)
    else (if x & 3 == 0 then 0x9C else if x & 3 == 1 then 0xA9 else if x & 3 == 2 then 0x51 else 0xA0)
  }

  function LogRowA(x: bv8): bv8 {
    if x & 12 == 0 then (if x & 3 == 0 then 0x7F else if x & 3 == 1 then 0x0C else if x & 3 == 2 then 0xF6 else 0x6F)
    else if x & 12 == 4 then (if x & 3 == 0 then 0x17 else if x & 3 == 1 then 0xC4 else if x & 3 == 2 then 0x49 else 0xEC)
    else if x & 12 == 8 then (if x & 3 == 0 then 0xD8 else if x & 3 == 1 then 0x43 else if x & 3 == 2 then 0x1F else 0x2D)
    else (if x & 3 == 0 then 0xA4 else if x & 3 == 1 then 0x76 else if x & 3 == 2 then 0x7B else 0xB7)
  }

  function LogRowB(x: bv8): bv8 {
    if x & 12 == 0 then (if x & 3 == 0 then 0xCC else if x & 3 == 1 then 0xBB else if x & 3 == 2 then 0x3E else 0x5A)
    else if x & 12 == 4 then (if x & 3 == 0 then 0xFB else if x & 3 == 1 then 0x60 else if x & 3 == 2 then 0xB1 else 0x86)
    else if x & 12 == 8 then (if x & 3 == 0 then 0x3B else if x & 3 == 1 then 0x52 else if x & 3 == 2 then 0xA1 else 0x6C)
    else (if x & 3 == 0 then 0xAA else if x & 3 == 1 then 0x55 else if x & 3 == 2 then 0x29 else 0x9D)
  }

  function LogRowC(x: bv8): bv8 {
    if x & 12 == 0 then (if x & 3 == 0 then 0x97 else if x & 3 == 1 then 0xB2 else if x & 3 == 2 then 0x87 else 0x90)
    else if x & 12 == 4 then (if x & 3 == 0 then 0x61 else if x & 3 == 1 then 0xBE else if x & 3 == 2 then 0xDC else 0xFC)
    else if x & 12 == 8 then (if x & 3 == 0 then 0xBC else if x & 3 == 1 then 0x95 else if x & 3 == 2 then 0xCF else 0xCD)
    else (if x & 3 == 0 then 0x37 else if x & 3 == 1 then 0x3F else if x & 3 == 2 then 0x5B else 0xD1)
  }

  function LogRowD(x: bv8): bv8 {
    if x & 12 == 0 then (if x & 3 == 0 then 0x53 else if x & 3 == 1 then 0x39 else if x & 3 == 2 then 0x84 else 0x3C)
    else if x & 12 == 4 then (if x & 3 == 0 then 0x41 else if x & 3 == 1 then 0xA2 else if x & 3 == 2 then 0x6D else 0x47)
    else if x & 12 == 8 then (if x & 3 == 0 then 0x14 else if x & 3 == 1 then 0x2A else if x & 3 == 2 then 0x9E else 0x5D)
    else (if x & 3 == 0 then 0x56 else if x & 3 == 1 then 0xF2 else if x & 3 == 2 then 0xD3 else 0xAB)
  }

  function LogRowE(x: bv8): bv8 {
    if x & 12 == 0 then (if x & 3 == 0 then 0x44 else if x & 3 == 1 then 0x11 else if x & 3 == 2 then 0x92 else 0xD9)
    else if x & 12 == 4 then (if x & 3 == 0 then 0x23 else if x & 3 == 1 then 0x20 else if x & 3 == 2 then 0x2E else 0x89)
    else if x & 12 == 8 then (if x & 3 == 0 then 0xB4 else if x & 3 == 1 then 0x7C else if x & 3 == 2 then 0xB8 else 0x26)
    else (if x & 3 == 0 then 0x77 else if x & 3 == 1 then 0x99 else if x & 3 == 2 then 0xE3 else 0xA5)
  }

  function LogRowF(x: bv8): bv8 {
    if x & 12 == 0 then (if x & 3 == 0 then 0x67 else if x & 3 == 1 then 0x4A else if x & 3 == 2 then 0xED else 0xDE)
    else if x & 12 == 4 then (if x & 3 == 0 then 0xC5 else if x & 3 == 1 then 0x31 else if x & 3 == 2 then 0xFE else 0x18)
    else if x & 12 == 8 then (if x & 3 == 0 then 0x0D else if x & 3 == 1 then 0x63 else if x & 3 == 2 then 0x8C else 0x80)
    else (if x & 3 == 0 then 0xC0 else if x & 3 == 1 then 0xF7 else if x & 3 == 2 then 0x70 else 0x07)
  }

  /** `sm_log`; entry 0 is unused filler. */
  function Log(x: bv8): bv8 {
    if x & 0x80 == 0 then
      if x & 0x40 == 0 then
        if x & 0x20 == 0 then
          if x & 0x10 == 0 then LogRow0(x) else LogRow1(x)
        else
          if x & 0x10 == 0 then LogRow2(x) else LogRow3(x)
      else
        if x & 0x20 == 0 then
          if x & 0x10 == 0 then LogRow4(x) else LogRow5(x)
        else
          if x & 0x10 == 0 then LogRow6(x) else LogRow7(x)
    else
      if x & 0x40 == 0 then
        if x & 0x20 == 0 then
          if x & 0x10 == 0 then LogRow8(x) else LogRow9(x)
        else
          if x & 0x10 == 0 then LogRowA(x) else LogRowB(x)
      else
        if x & 0x20 == 0 then
          if x & 0x10 == 0 then LogRowC(x) else LogRowD(x)
        else
          if x & 0x10 == 0 then LogRowE(x) else LogRowF(x)
  }
}
