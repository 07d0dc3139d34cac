/** The four lookup tables of the encryption rounds, entry by entry. */
module EncryptTables {

  function T1Row0(x: bv8): bv32 {
    if x & 12 == 0 then (if x & 3 == 0 then 0xC66363A5 else if x & 3 == 1 then 0xF87C7C84 else if x & 3 == 2 then 0xEE777799 else 0xF67B7B8D)
    else if x & 12 == 4 then (if x & 3 == 0 then 0xFFF2F20D else if x & 3 == 1 then 0xD66B6BBD else if x & 3 == 2 then 0xDE6F6FB1 else 0x91C5C554)
    else if x & 12 == 8 then (if x & 3 == 0 then 0x60303050 else if x & 3 == 1 then 0x02010103 else if x & 3 == 2 then 0xCE6767A9 else 0x562B2B7D)
    else (if x & 3 == 0 then 0xE7FEFE19 else if x & 3 == 1 then 0xB5D7D762 else if x & 3 == 2 then 0x4DABABE6 else 0xEC76769A)
  }

  function T1Row1(x: bv8): bv32 {
    if x & 12 == 0 then (if x & 3 == 0 then 0x8FCACA45 else if x & 3 == 1 then 0x1F82829D else if x & 3 == 2 then 0x89C9C940 else 0xFA7D7D87)
    else if x & 12 == 4 then (if x & 3 == 0 then 0xEFFAFA15 else if x & 3 == 1 then 0xB25959EB else if x & 3 == 2 then 0x8E4747C9 else 0xFBF0F00B)
    else if x & 12 == 8 then (if x & 3 == 0 then 0x41ADADEC else if x & 3 == 1 then 0xB3D4D467 else if x & 3 == 2 then 0x5FA2A2FD else 0x45AFAFEA)
    else (if x & 3 == 0 then 0x239C9CBF else if x & 3 == 1 then 0x53A4A4F7 else if x & 3 == 2 then 0xE4727296 else 0x9BC0C05B)
  }

  function T1Row2(x: bv8): bv32 {
    if x & 12 == 0 then (if x & 3 == 0 then 0x75B7B7C2 else if x & 3 == 1 then 0xE1FDFD1C else if x & 3 == 2 then 0x3D9393AE else 0x4C26266A)
    else if x & 12 == 4 then (if x & 3 == 0 then 0x6C36365A else if x & 3 == 1 then 0x7E3F3F41 else if x & 3 == 2 then 0xF5F7F702 else 0x83CCCC4F)
    else if x & 12 == 8 then (if x & 3 == 0 then 0x6834345C else if x & 3 == 1 then 0x51A5A5F4 else if x & 3 == 2 then 0xD1E5E534 else 0xF9F1F108)
    else (if x & 3 == 0 then 0xE2717193 else if x & 3 == 1 then 0xABD8D873 else if x & 3 == 2 then 0x62313153 else 0x2A15153F)
  }

  function T1Row3(x: bv8): bv32 {
    if x & 12 == 0 then (if x & 3 == 0 then 0x0804040C else if x & 3 == 1 then 0x95C7C752 else if x & 3 == 2 then 0x46232365 else 0x9DC3C35E)
    else if x & 12 == 4 then (if x & 3 == 0 then 0x30181828 else if x & 3 == 1 then 0x379696A1 else if x & 3 == 2 then 0x0A05050F else 0x2F9A9AB5)
    else if x & 12 == 8 then (if x & 3 == 0 then 0x0E070709 else if x & 3 == 1 then 0x24121236 else if x & 3 == 2 then 0x1B80809B else 0xDFE2E23D)
    else (if x & 3 == 0 then 0xCDEBEB26 else if x & 3 == 1 then 0x4E272769 else if x & 3 == 2 then 0x7FB2B2CD else 0xEA75759F)
  }

  function T1Row4(x: bv8): bv32 {
    if x & 12 == 0 then (if x & 3 == 0 then 0x1209091B else if x & 3 == 1 then 0x1D83839E else if x & 3 == 2 then 0x582C2C74 else 0x341A1A2E)
    else if x & 12 == 4 then (if x & 3 == 0 then 0x361B1B2D else if x & 3 == 1 then 0xDC6E6EB2 else if x & 3 == 2 then 0xB45A5AEE else 0x5BA0A0FB)
    else if x & 12 == 8 then (if x & 3 == 0 then 0xA45252F6 else if x & 3 == 1 then 0x763B3B4D else if x & 3 == 2 then 0xB7D6D661 else 0x7DB3B3CE)
    else (if x & 3 == 0 then 0x5229297B else if x & 3 == 1 then 0xDDE3E33E else if x & 3 == 2 then 0x5E2F2F71 else 0x13848497)
  }

  function T1Row5(x: bv8): bv32 {
    if x & 12 == 0 then (if x & 3 == 0 then 0xA65353F5 else if x & 3 == 1 then 0xB9D1D168 else if x & 3 == 2 then 0x00000000 else 0xC1EDED2C)
    else if x & 12 == 4 then (if x & 3 == 0 then 0x40202060 else if x & 3 == 1 then 0xE3FCFC1F else if x & 3 == 2 then 0x79B1B1C8 else 0xB65B5BED)
    else if x & 12 == 8 then (if x & 3 == 0 then 0xD46A6ABE else if x & 3 == 1 then 0x8DCBCB46 else if x & 3 == 2 then 0x67BEBED9 else 0x7239394B)
    else (if x & 3 == 0 then 0x944A4ADE else if x & 3 == 1 then 0x984C4CD4 else if x & 3 == 2 then 0xB05858E8 else 0x85CFCF4A)
  }

  function T1Row6(x: bv8): bv32 {
    if x & 12 == 0 then (if x & 3 == 0 then 0xBBD0D06B else if x & 3 == 1 then 0xC5EFEF2A else if x & 3 == 2 then 0x4FAAAAE5 else 0xEDFBFB16)
    else if x & 12 == 4 then (if x & 3 == 0 then 0x864343C5 else if x & 3 == 1 then 0x9A4D4DD7 else if x & 3 == 2 then 0x66333355 else 0x11858594)
    else if x & 12 == 8 then (if x & 3 == 0 then 0x8A4545CF else if x & 3 == 1 then 0xE9F9F910 else if x & 3 == 2 then 0x04020206 else 0xFE7F7F81)
    else (if x & 3 == 0 then 0xA05050F0 else if x & 3 == 1 then 0x783C3C44 else if x & 3 == 2 then 0x259F9FBA else 0x4BA8A8E3)
  }

  function T1Row7(x: bv8): bv32 {
    if x & 12 == 0 then (if x & 3 == 0 then 0xA25151F3 else if x & 3 == 1 then 0x5DA3A3FE else if x & 3 == 2 then 0x804040C0 else 0x058F8F8A)
    else if x & 12 == 4 then (if x & 3 == 0 then 0x3F9292AD else if x & 3 == 1 then 0x219D9DBC else if x & 3 == 2 then 0x70383848 else 0xF1F5F504)
    else if x & 12 == 8 then (if x & 3 == 0 then 0x63BCBCDF else if x & 3 == 1 then 0x77B6B6C1 else if x & 3 == 2 then 0xAFDADA75 else 0x42212163)
    else (if x & 3 == 0 then 0x20101030 else if x & 3 == 1 then 0xE5FFFF1A else if x & 3 == 2 then 0xFDF3F30E else 0xBFD2D26D)
  }

  function T1Row8(x: bv8): bv32 {
    if x & 12 == 0 then (if x & 3 == 0 then 0x81CDCD4C else if x & 3 == 1 then 0x180C0C14 else if x & 3 == 2 then 0x26131335 else 0xC3ECEC2F)
    else if x & 12 == 4 then (if x & 3 == 0 then 0xBE5F5FE1 else if x & 3 == 1 then 0x359797A2 else if x & 3 == 2 then 0x884444CC else 0x2E171739)
    else if x & 12 == 8 then (if x & 3 == 0 then 0x93C4C457 else if x & 3 == 1 then 0x55A7A7F2 else if x & 3 == 2 then 0xFC7E7E82 else 0x7A3D3D47)
    else (if x & 3 == 0 then 0xC86464AC else if x & 3 == 1 then 0xBA5D5DE7 else if x & 3 == 2 then 0x3219192B else 0xE6737395)
  }

  function T1Row9(x: bv8): bv32 {
    if x & 12 == 0 then (if x & 3 == 0 then 0xC06060A0 else if x & 3 == 1 then 0x19818198 else if x & 3 == 2 then 0x9E4F4FD1 else 0xA3DCDC7F)
    else if x & 12 == 4 then (if x & 3 == 0 then 0x44222266 else if x & 3 == 1 then 0x542A2A7E else if x & 3 == 2 then 0x3B9090AB else 0x0B888883)
    else if x & 12 == 8 then (if x & 3 == 0 then 0x8C4646CA else if x & 3 == 1 then 0xC7EEEE29 else if x & 3 == 2 then 0x6BB8B8D3 else 0x2814143C)
    else (if x & 3 == 0 then 0xA7DEDE79 else if x & 3 == 1 then 0xBC5E5EE2 else if x & 3 == 2 then 0x160B0B1D else 0xADDBDB76)
  }

  function T1RowA(x: bv8): bv32 {
    if x & 12 == 0 then (if x & 3 == 0 then 0xDBE0E03B else if x & 3 == 1 then 0x64323256 else if x & 3 == 2 then 0x743A3A4E else 0x140A0A1E)
    else if x & 12 == 4 then (if x & 3 == 0 then 0x924949DB else if x & 3 == 1 then 0x0C06060A else if x & 3 == 2 then 0x4824246C else 0xB85C5CE4)
    else if x & 12 == 8 then (if x & 3 == 0 then 0x9FC2C25D else if x & 3 == 1 then 0xBDD3D36E else if x & 3 == 2 then 0x43ACACEF else 0xC46262A6)
    else (if x & 3 == 0 then 0x399191A8 else if x & 3 == 1 then 0x319595A4 else if x & 3 == 2 then 0xD3E4E437 else 0xF279798B)
  }

  function T1RowB(x: bv8): bv32 {
    if x & 12 == 0 then (if x & 3 == 0 then 0xD5E7E732 else if x & 3 == 1 then 0x8BC8C843 else if x & 3 == 2 then 0x6E373759 else 0xDA6D6DB7)
    else if x & 12 == 4 then (if x & 3 == 0 then 0x018D8D8C else if x & 3 == 1 then 0xB1D5D564 else if x & 3 == 2 then 0x9C4E4ED2 else 0x49A9A9E0)
    else if x & 12 == 8 then (if x & 3 == 0 then 0xD86C6CB4 else if x & 3 == 1 then 0xAC5656FA else if x & 3 == 2 then 0xF3F4F407 else 0xCFEAEA25)
    else (if x & 3 == 0 then 0xCA6565AF else if x & 3 == 1 then 0xF47A7A8E else if x & 3 == 2 then 0x47AEAEE9 else 0x10080818)
  }

  function T1RowC(x: bv8): bv32 {
    if x & 12 == 0 then (if x & 3 == 0 then 0x6FBABAD5 else if x & 3 == 1 then 0xF0787888 else if x & 3 == 2 then 0x4A25256F else 0x5C2E2E72)
    else if x & 12 == 4 then (if x & 3 == 0 then 0x381C1C24 else if x & 3 == 1 then 0x57A6A6F1 else if x & 3 == 2 then 0x73B4B4C7 else 0x97C6C651)
    else if x & 12 == 8 then (if x & 3 == 0 then 0xCBE8E823 else if x & 3 == 1 then 0xA1DDDD7C else if x & 3 == 2 then 0xE874749C else 0x3E1F1F21)
    else (if x & 3 == 0 then 0x964B4BDD else if x & 3 == 1 then 0x61BDBDDC else if x & 3 == 2 then 0x0D8B8B86 else 0x0F8A8A85)
  }

  function T1RowD(x: bv8): bv32 {
    if x & 12 == 0 then (if x & 3 == 0 then 0xE0707090 else if x & 3 == 1 then 0x7C3E3E42 else if x & 3 == 2 then 0x71B5B5C4 else 0xCC6666AA)
    else if x & 12 == 4 then (if x & 3 == 0 then 0x904848D8 else if x & 3 == 1 then 0x06030305 else if x & 3 == 2 then 0xF7F6F601 else 0x1C0E0E12)
    else if x & 12 == 8 then (if x & 3 == 0 then 0xC26161A3 else if x & 3 == 1 then 0x6A35355F else if x & 3 == 2 then 0xAE5757F9 else 0x69B9B9D0)
    else (if x & 3 == 0 then 0x17868691 else if x & 3 == 1 then 0x99C1C158 else if x & 3 == 2 then 0x3A1D1D27 else 0x279E9EB9)
  }

  function T1RowE(x: bv8): bv32 {
    if x & 12 == 0 then (if x & 3 == 0 then 0xD9E1E138 else if x & 3 == 1 then 0xEBF8F813 else if x & 3 == 2 then 0x2B9898B3 else 0x22111133)
    else if x & 12 == 4 then (if x & 3 == 0 then 0xD26969BB else if x & 3 == 1 then 0xA9D9D970 else if x & 3 == 2 then 0x078E8E89 else 0x339494A7)
    else if x & 12 == 8 then (if x & 3 == 0 then 0x2D9B9BB6 else if x & 3 == 1 then 0x3C1E1E22 else if x & 3 == 2 then 0x15878792 else 0xC9E9E920)
    else (if x & 3 == 0 then 0x87CECE49 else if x & 3 == 1 then 0xAA5555FF else if x & 3 == 2 then 0x50282878 else 0xA5DFDF7A)
  }

  function T1RowF(x: bv8): bv32 {
    if x & 12 == 0 then (if x & 3 == 0 then 0x038C8C8F else if x & 3 == 1 then 0x59A1A1F8 else if x & 3 == 2 then 0x09898980 else 0x1A0D0D17)
    else if x & 12 == 4 then (if x & 3 == 0 then 0x65BFBFDA else if x & 3 == 1 then 0xD7E6E631 else if x & 3 == 2 then 0x844242C6 else 0xD06868B8)
    else if x & 12 == 8 then (if x & 3 == 0 then 0x824141C3 else if x & 3 == 1 then 0x299999B0 else if x & 3 == 2 then 0x5A2D2D77 else 0x1E0F0F11)
    else (if x & 3 == 0 then 0x7BB0B0CB else if x & 3 == 1 then 0xA85454FC else if x & 3 == 2 then 0x6DBBBBD6 else 0x2C16163A)
  }

  /** `sm_T1`. */
  function T1(x: bv8): bv32 {
    if x & 0x80 == 0 then
      if x & 0x40 == 0 then
        if x & 0x20 == 0 then
          if x & 0x10 == 0 then T1Row0(x) else T1Row1(x)
        else
          if x & 0x10 == 0 then T1Row2(x) else T1Row3(x)
      else
        if x & 0x20 == 0 then
          if x & 0x10 == 0 then T1Row4(x) else T1Row5(x)
        else
          if x & 0x10 == 0 then T1Row6(x) else T1Row7(x)
    else
      if x & 0x40 == 0 then
        if x & 0x20 == 0 then
          if x & 0x10 == 0 then T1Row8(x) else T1Row9(x)
        else
          if x & 0x10 == 0 then T1RowA(x) else T1RowB(x)
      else
        if x & 0x20 == 0 then
          if x & 0x10 == 0 then T1RowC(x) else T1RowD(x)
        else
          if x & 0x10 == 0 then T1RowE(x) else T1RowF(x)
  }

  function T2Row0(x: bv8): bv32 {
    if x & 12 == 0 then (if x & 3 == 0 then 0xA5C66363 else if x & 3 == 1 then 0x84F87C7C else if x & 3 == 2 then 0x99EE7777 else 0x8DF67B7B)
    else if x & 12 == 4 then (if x & 3 == 0 then 0x0DFFF2F2 else if x & 3 == 1 then 0xBDD66B6B else if x & 3 == 2 then 0xB1DE6F6F else 0x5491C5C5)
    else if x & 12 == 8 then (if x & 3 == 0 then 0x50603030 else if x & 3 == 1 then 0x03020101 else if x & 3 == 2 then 0xA9CE6767 else 0x7D562B2B)
    else (if x & 3 == 0 then 0x19E7FEFE else if x & 3 == 1 then 0x62B5D7D7 else if x & 3 == 2 then 0xE64DABAB else 0x9AEC7676)
  }

  function T2Row1(x: bv8): bv32 {
    if x & 12 == 0 then (if x & 3 == 0 then 0x458FCACA else if x & 3 == 1 then 0x9D1F8282 else if x & 3 == 2 then 0x4089C9C9 else 0x87FA7D7D)
    else if x & 12 == 4 then (if x & 3 == 0 then 0x15EFFAFA else if x & 3 == 1 then 0xEBB25959 else if x & 3 == 2 then 0xC98E4747 else 0x0BFBF0F0)
    else if x & 12 == 8 then (if x & 3 == 0 then 0xEC41ADAD else if x & 3 == 1 then 0x67B3D4D4 else if x & 3 == 2 then 0xFD5FA2A2 else 0xEA45AFAF)
    else (if x & 3 == 0 then 0xBF239C9C else if x & 3 == 1 then 0xF753A4A4 else if x & 3 == 2 then 0x96E47272 else 0x5B9BC0C0)
  }

  function T2Row2(x: bv8): bv32 {
    if x & 12 == 0 then (if x & 3 == 0 then 0xC275B7B7 else if x & 3 == 1 then 0x1CE1FDFD else if x & 3 == 2 then 0xAE3D9393 else 0x6A4C2626)
    else if x & 12 == 4 then (if x & 3 == 0 then 0x5A6C3636 else if x & 3 == 1 then 0x417E3F3F else if x & 3 == 2 then 0x02F5F7F7 else 0x4F83CCCC)
    else if x & 12 == 8 then (if x & 3 == 0 then 0x5C683434 else if x & 3 == 1 then 0xF451A5A5 else if x & 3 == 2 then 0x34D1E5E5 else 0x08F9F1F1)
    else (if x & 3 == 0 then 0x93E27171 else if x & 3 == 1 then 0x73ABD8D8 else if x & 3 == 2 then 0x53623131 else 0x3F2A1515)
  }

  function T2Row3(x: bv8): bv32 {
    if x & 12 == 0 then (if x & 3 == 0 then 0x0C080404 else if x & 3 == 1 then 0x5295C7C7 else if x & 3 == 2 then 0x65462323 else 0x5E9DC3C3)
    else if x & 12 == 4 then (if x & 3 == 0 then 0x28301818 else if x & 3 == 1 then 0xA1379696 else if x & 3 == 2 then 0x0F0A0505 else 0xB52F9A9A)
    else if x & 12 == 8 then (if x & 3 == 0 then 0x090E0707 else if x & 3 == 1 then 0x36241212 else if x & 3 == 2 then 0x9B1B8080 else 0x3DDFE2E2)
    else (if x & 3 == 0 then 0x26CDEBEB else if x & 3 == 1 then 0x694E2727 else if x & 3 == 2 then 0xCD7FB2B2 else 0x9FEA7575)
  }

  function T2Row4(x: bv8): bv32 {
    if x & 12 == 0 then (if x & 3 == 0 then 0x1B120909 else if x & 3 == 1 then 0x9E1D8383 else if x & 3 == 2 then 0x74582C2C else 0x2E341A1A)
    else if x & 12 == 4 then (if x & 3 == 0 then 0x2D361B1B else if x & 3 == 1 then 0xB2DC6E6E else if x & 3 == 2 then 0xEEB45A5A else 0xFB5BA0A0)
    else if x & 12 == 8 then (if x & 3 == 0 then 0xF6A45252 else if x & 3 == 1 then 0x4D763B3B else if x & 3 == 2 then 0x61B7D6D6 else 0xCE7DB3B3)
    else (if x & 3 == 0 then 0x7B522929 else if x & 3 == 1 then 0x3EDDE3E3 else if x & 3 == 2 then 0x715E2F2F else 0x97138484)
  }

  function T2Row5(x: bv8): bv32 {
    if x & 12 == 0 then (if x & 3 == 0 then 0xF5A65353 else if x & 3 == 1 then 0x68B9D1D1 else if x & 3 == 2 then 0x00000000 else 0x2CC1EDED)
    else if x & 12 == 4 then (if x & 3 == 0 then 0x60402020 else if x & 3 == 1 then 0x1FE3FCFC else if x & 3 == 2 then 0xC879B1B1 else 0xEDB65B5B)
    else if x & 12 == 8 then (if x & 3 == 0 then 0xBED46A6A else if x & 3 == 1 then 0x468DCBCB else if x & 3 == 2 then 0xD967BEBE else 0x4B723939)
    else (if x & 3 == 0 then 0xDE944A4A else if x & 3 == 1 then 0xD4984C4C else if x & 3 == 2 then 0xE8B05858 else 0x4A85CFCF)
  }

  function T2Row6(x: bv8): bv32 {
    if x & 12 == 0 then (if x & 3 == 0 then 0x6BBBD0D0 else if x & 3 == 1 then 0x2AC5EFEF else if x & 3 == 2 then 0xE54FAAAA else 0x16EDFBFB)
    else if x & 12 == 4 then (if x & 3 == 0 then 0xC5864343 else if x & 3 == 1 then 0xD79A4D4D else if x & 3 == 2 then 0x55663333 else 0x94118585)
    else if x & 12 == 8 then (if x & 3 == 0 then 0xCF8A4545 else if x & 3 == 1 then 0x10E9F9F9 else if x & 3 == 2 then 0x06040202 else 0x81FE7F7F)
    else (if x & 3 == 0 then 0xF0A05050 else if x & 3 == 1 then 0x44783C3C else if x & 3 == 2 then 0xBA259F9F else 0xE34BA8A8)
  }

  function T2Row7(x: bv8): bv32 {
    if x & 12 == 0 then (if x & 3 == 0 then 0xF3A25151 else if x & 3 == 1 then 0xFE5DA3A3 else if x & 3 == 2 then 0xC0804040 else 0x8A058F8F)
    else if x & 12 == 4 then (if x & 3 == 0 then 0xAD3F9292 else if x & 3 == 1 then 0xBC219D9D else if x & 3 == 2 then 0x48703838 else 0x04F1F5F5)
    else if x & 12 == 8 then (if x & 3 == 0 then 0xDF63BCBC else if x & 3 == 1 then 0xC177B6B6 else if x & 3 == 2 then 0x75AFDADA else 0x63422121)
    else (if x & 3 == 0 then 0x30201010 else if x & 3 == 1 then 0x1AE5FFFF else if x & 3 == 2 then 0x0EFDF3F3 else 0x6DBFD2D2)
  }

  function T2Row8(x: bv8): bv32 {
    if x & 12 == 0 then (if x & 3 == 0 then 0x4C81CDCD else if x & 3 == 1 then 0x14180C0C else if x & 3 == 2 then 0x35261313 else 0x2FC3ECEC)
    else if x & 12 == 4 then (if x & 3 == 0 then 0xE1BE5F5F else if x & 3 == 1 then 0xA2359797 else if x & 3 == 2 then 0xCC884444 else 0x392E1717)
    else if x & 12 == 8 then (if x & 3 == 0 then 0x5793C4C4 else if x & 3 == 1 then 0xF255A7A7 else if x & 3 == 2 then 0x82FC7E7E else 0x477A3D3D)
    else (if x & 3 == 0 then 0xACC86464 else if x & 3 == 1 then 0xE7BA5D5D else if x & 3 == 2 then 0x2B321919 else 0x95E67373)
  }

  function T2Row9(x: bv8): bv32 {
    if x & 12 == 0 then (if x & 3 == 0 then 0xA0C06060 else if x & 3 == 1 then 0x98198181 else if x & 3 == 2 then 0xD19E4F4F else 0x7FA3DCDC)
    else if x & 12 == 4 then (if x & 3 == 0 then 0x66442222 else if x & 3 == 1 then 0x7E542A2A else if x & 3 == 2 then 0xAB3B9090 else 0x830B8888)
    else if x & 12 == 8 then (if x & 3 == 0 then 0xCA8C4646 else if x & 3 == 1 then 0x29C7EEEE else if x & 3 == 2 then 0xD36BB8B8 else 0x3C281414)
    else (if x & 3 == 0 then 0x79A7DEDE else if x & 3 == 1 then 0xE2BC5E5E else if x & 3 == 2 then 0x1D160B0B else 0x76ADDBDB)
  }

  function T2RowA(x: bv8): bv32 {
    if x & 12 == 0 then (if x & 3 == 0 then 0x3BDBE0E0 else if x & 3 == 1 then 0x56643232 else if x & 3 == 2 then 0x4E743A3A else 0x1E140A0A)
    else if x & 12 == 4 then (if x & 3 == 0 then 0xDB924949 else if x & 3 == 1 then 0x0A0C0606 else if x & 3 == 2 then 0x6C482424 else 0xE4B85C5C)
    else if x & 12 == 8 then (if x & 3 == 0 then 0x5D9FC2C2 else if x & 3 == 1 then 0x6EBDD3D3 else if x & 3 == 2 then 0xEF43ACAC else 0xA6C46262)
    else (if x & 3 == 0 then 0xA8399191 else if x & 3 == 1 then 0xA4319595 else if x & 3 == 2 then 0x37D3E4E4 else 0x8BF27979)
  }

  function T2RowB(x: bv8): bv32 {
    if x & 12 == 0 then (if x & 3 == 0 then 0x32D5E7E7 else if x & 3 == 1 then 0x438BC8C8 else if x & 3 == 2 then 0x596E3737 else 0xB7DA6D6D)
    else if x & 12 == 4 then (if x & 3 == 0 then 0x8C018D8D else if x & 3 == 1 then 0x64B1D5D5 else if x & 3 == 2 then 0xD29C4E4E else 0xE049A9A9)
    else if x & 12 == 8 then (if x & 3 == 0 then 0xB4D86C6C else if x & 3 == 1 then 0xFAAC5656 else if x & 3 == 2 then 0x07F3F4F4 else 0x25CFEAEA)
    else (if x & 3 == 0 then 0xAFCA6565 else if x & 3 == 1 then 0x8EF47A7A else if x & 3 == 2 then 0xE947AEAE else 0x18100808)
  }

  function T2RowC(x: bv8): bv32 {
    if x & 12 == 0 then (if x & 3 == 0 then 0xD56FBABA else if x & 3 == 1 then 0x88F07878 else if x & 3 == 2 then 0x6F4A2525 else 0x725C2E2E)
    else if x & 12 == 4 then (if x & 3 == 0 then 0x24381C1C else if x & 3 == 1 then 0xF157A6A6 else if x & 3 == 2 then 0xC773B4B4 else 0x5197C6C6)
    else if x & 12 == 8 then (if x & 3 == 0 then 0x23CBE8E8 else if x & 3 == 1 then 0x7CA1DDDD else if x & 3 == 2 then 0x9CE87474 else 0x213E1F1F)
    else (if x & 3 == 0 then 0xDD964B4B else if x & 3 == 1 then 0xDC61BDBD else if x & 3 == 2 then 0x860D8B8B else 0x850F8A8A)
  }

  function T2RowD(x: bv8): bv32 {
    if x & 12 == 0 then (if x & 3 == 0 then 0x90E07070 else if x & 3 == 1 then 0x427C3E3E else if x & 3 == 2 then 0xC471B5B5 else 0xAACC6666)
    else if x & 12 == 4 then (if x & 3 == 0 then 0xD8904848 else if x & 3 == 1 then 0x05060303 else if x & 3 == 2 then 0x01F7F6F6 else 0x121C0E0E)
    else if x & 12 == 8 then (if x & 3 == 0 then 0xA3C26161 else if x & 3 == 1 then 0x5F6A3535 else if x & 3 == 2 then 0xF9AE5757 else 0xD069B9B9)
    else (if x & 3 == 0 then 0x91178686 else if x & 3 == 1 then 0x5899C1C1 else if x & 3 == 2 then 0x273A1D1D else 0xB9279E9E)
  }

  function T2RowE(x: bv8): bv32 {
    if x & 12 == 0 then (if x & 3 == 0 then 0x38D9E1E1 else if x & 3 == 1 then 0x13EBF8F8 else if x & 3 == 2 then 0xB32B9898 else 0x33221111)
    else if x & 12 == 4 then (if x & 3 == 0 then 0xBBD26969 else if x & 3 == 1 then 0x70A9D9D9 else if x & 3 == 2 then 0x89078E8E else 0xA7339494)
    else if x & 12 == 8 then (if x & 3 == 0 then 0xB62D9B9B else if x & 3 == 1 then 0x223C1E1E else if x & 3 == 2 then 0x92158787 else 0x20C9E9E9)
    else (if x & 3 == 0 then 0x4987CECE else if x & 3 == 1 then 0xFFAA5555 else if x & 3 == 2 then 0x78502828 else 0x7AA5DFDF)
  }

  function T2RowF(x: bv8): bv32 {
    if x & 12 == 0 then (if x & 3 == 0 then 0x8F038C8C else if x & 3 == 1 then 0xF859A1A1 else if x & 3 == 2 then 0x80098989 else 0x171A0D0D)
    else if x & 12 == 4 then (if x & 3 == 0 then 0xDA65BFBF else if x & 3 == 1 then 0x31D7E6E6 else if x & 3 == 2 then 0xC6844242 else 0xB8D06868)
    else if x & 12 == 8 then (if x & 3 == 0 then 0xC3824141 else if x & 3 == 1 then 0xB0299999 else if x & 3 == 2 then 0x775A2D2D else 0x111E0F0F)
    else (if x & 3 == 0 then 0xCB7BB0B0 else if x & 3 == 1 then 0xFCA85454 else if x & 3 == 2 then 0xD66DBBBB else 0x3A2C1616)
  }

  /** `sm_T2`. */
  function T2(x: bv8): bv32 {
    if x & 0x80 == 0 then
      if x & 0x40 == 0 then
        if x & 0x20 == 0 then
          if x & 0x10 == 0 then T2Row0(x) else T2Row1(x)
        else
          if x & 0x10 == 0 then T2Row2(x) else T2Row3(x)
      else
        if x & 0x20 == 0 then
          if x & 0x10 == 0 then T2Row4(x) else T2Row5(x)
        else
          if x & 0x10 == 0 then T2Row6(x) else T2Row7(x)
    else
      if x & 0x40 == 0 then
        if x & 0x20 == 0 then
          if x & 0x10 == 0 then T2Row8(x) else T2Row9(x)
        else
          if x & 0x10 == 0 then T2RowA(x) else T2RowB(x)
      else
        if x & 0x20 == 0 then
          if x & 0x10 == 0 then T2RowC(x) else T2RowD(x)
        else
          if x & 0x10 == 0 then T2RowE(x) else T2RowF(x)
  }

  function T3Row0(x: bv8): bv32 {
    if x & 12 == 0 then (if x & 3 == 0 then 0x63A5C663 else if x & 3 == 1 then 0x7C84F87C else if x & 3 == 2 then 0x7799EE77 else 0x7B8DF67B)
    else if x & 12 == 4 then (if x & 3 == 0 then 0xF20DFFF2 else if x & 3 == 1 then 0x6BBDD66B else if x & 3 == 2 then 0x6FB1DE6F else 0xC55491C5)
    else if x & 12 == 8 then (if x & 3 == 0 then 0x30506030 else if x & 3 == 1 then 0x01030201 else if x & 3 == 2 then 0x67A9CE67 else 0x2B7D562B)
    else (if x & 3 == 0 then 0xFE19E7FE else if x & 3 == 1 then 0xD762B5D7 else if x & 3 == 2 then 0xABE64DAB else 0x769AEC76)
  }

  function T3Row1(x: bv8): bv32 {
    if x & 12 == 0 then (if x & 3 == 0 then 0xCA458FCA else if x & 3 == 1 then 0x829D1F82 else if x & 3 == 2 then 0xC94089C9 else 0x7D87FA7D)
    else if x & 12 == 4 then (if x & 3 == 0 then 0xFA15EFFA else if x & 3 == 1 then 0x59EBB259 else if x & 3 == 2 then 0x47C98E47 else 0xF00BFBF0)
    else if x & 12 == 8 then (if x & 3 == 0 then 0xADEC41AD else if x & 3 == 1 then 0xD467B3D4 else if x & 3 == 2 then 0xA2FD5FA2 else 0xAFEA45AF)
    else (if x & 3 == 0 then 0x9CBF239C else if x & 3 == 1 then 0xA4F753A4 else if x & 3 == 2 then 0x7296E472 else 0xC05B9BC0)
  }

  function T3Row2(x: bv8): bv32 {
    if x & 12 == 0 then (if x & 3 == 0 then 0xB7C275B7 else if x & 3 == 1 then 0xFD1CE1FD else if x & 3 == 2 then 0x93AE3D93 else 0x266A4C26)
    else if x & 12 == 4 then (if x & 3 == 0 then 0x365A6C36 else if x & 3 == 1 then 0x3F417E3F else if x & 3 == 2 then 0xF702F5F7 else 0xCC4F83CC)
    else if x & 12 == 8 then (if x & 3 == 0 then 0x345C6834 else if x & 3 == 1 then 0xA5F451A5 else if x & 3 == 2 then 0xE534D1E5 else 0xF108F9F1)
    else (if x & 3 == 0 then 0x7193E271 else if x & 3 == 1 then 0xD873ABD8 else if x & 3 == 2 then 0x31536231 else 0x153F2A15)
  }

  function T3Row3(x: bv8): bv32 {
    if x & 12 == 0 then (if x & 3 == 0 then 0x040C0804 else if x & 3 == 1 then 0xC75295C7 else if x & 3 == 2 then 0x23654623 else 0xC35E9DC3)
    else if x & 12 == 4 then (if x & 3 == 0 then 0x18283018 else if x & 3 == 1 then 0x96A13796 else if x & 3 == 2 then 0x050F0A05 else 0x9AB52F9A)
    else if x & 12 == 8 then (if x & 3 == 0 then 0x07090E07 else if x & 3 == 1 then 0x12362412 else if x & 3 == 2 then 0x809B1B80 else 0xE23DDFE2)
    else (if x & 3 == 0 then 0xEB26CDEB else if x & 3 == 1 then 0x27694E27 else if x & 3 == 2 then 0xB2CD7FB2 else 0x759FEA75)
  }

  function T3Row4(x: bv8): bv32 {
    if x & 12 == 0 then (if x & 3 == 0 then 0x091B1209 else if x & 3 == 1 then 0x839E1D83 else if x & 3 == 2 then 0x2C74582C else 0x1A2E341A)
    else if x & 12 == 4 then (if x & 3 == 0 then 0x1B2D361B else if x & 3 == 1 then 0x6EB2DC6E else if x & 3 == 2 then 0x5AEEB45A else 0xA0FB5BA0)
    else if x & 12 == 8 then (if x & 3 == 0 then 0x52F6A452 else if x & 3 == 1 then 0x3B4D763B else if x & 3 == 2 then 0xD661B7D6 else 0xB3CE7DB3)
    else (if x & 3 == 0 then 0x297B5229 else if x & 3 == 1 then 0xE33EDDE3 else if x & 3 == 2 then 0x2F715E2F else 0x84971384)
  }

  function T3Row5(x: bv8): bv32 {
    if x & 12 == 0 then (if x & 3 == 0 then 0x53F5A653 else if x & 3 == 1 then 0xD168B9D1 else if x & 3 == 2 then 0x00000000 else 0xED2CC1ED)
    else if x & 12 == 4 then (if x & 3 == 0 then 0x20604020 else if x & 3 == 1 then 0xFC1FE3FC else if x & 3 == 2 then 0xB1C879B1 else 0x5BEDB65B)
    else if x & 12 == 8 then (if x & 3 == 0 then 0x6ABED46A else if x & 3 == 1 then 0xCB468DCB else if x & 3 == 2 then 0xBED967BE else 0x394B7239)
    else (if x & 3 == 0 then 0x4ADE944A else if x & 3 == 1 then 0x4CD4984C else if x & 3 == 2 then 0x58E8B058 else 0xCF4A85CF)
  }

  function T3Row6(x: bv8): bv32 {
    if x & 12 == 0 then (if x & 3 == 0 then 0xD06BBBD0 else if x & 3 == 1 then 0xEF2AC5EF else if x & 3 == 2 then 0xAAE54FAA else 0xFB16EDFB)
    else if x & 12 == 4 then (if x & 3 == 0 then 0x43C58643 else if x & 3 == 1 then 0x4DD79A4D else if x & 3 == 2 then 0x33556633 else 0x85941185)
    else if x & 12 == 8 then (if x & 3 == 0 then 0x45CF8A45 else if x & 3 == 1 then 0xF910E9F9 else if x & 3 == 2 then 0x02060402 else 0x7F81FE7F)
    else (if x & 3 == 0 then 0x50F0A050 else if x & 3 == 1 then 0x3C44783C else if x & 3 == 2 then 0x9FBA259F else 0xA8E34BA8)
  }

  function T3Row7(x: bv8): bv32 {
    if x & 12 == 0 then (if x & 3 == 0 then 0x51F3A251 else if x & 3 == 1 then 0xA3FE5DA3 else if x & 3 == 2 then 0x40C08040 else 0x8F8A058F)
    else if x & 12 == 4 then (if x & 3 == 0 then 0x92AD3F92 else if x & 3 == 1 then 0x9DBC219D else if x & 3 == 2 then 0x38487038 else 0xF504F1F5)
    else if x & 12 == 8 then (if x & 3 == 0 then 0xBCDF63BC else if x & 3 == 1 then 0xB6C177B6 else if x & 3 == 2 then 0xDA75AFDA else 0x21634221)
    else (if x & 3 == 0 then 0x10302010 else if x & 3 == 1 then 0xFF1AE5FF else if x & 3 == 2 then 0xF30EFDF3 else 0xD26DBFD2)
  }

  function T3Row8(x: bv8): bv32 {
    if x & 12 == 0 then (if x & 3 == 0 then 0xCD4C81CD else if x & 3 == 1 then 0x0C14180C else if x & 3 == 2 then 0x13352613 else 0xEC2FC3EC)
    else if x & 12 == 4 then (if x & 3 == 0 then 0x5FE1BE5F else if x & 3 == 1 then 0x97A23597 else if x & 3 == 2 then 0x44CC8844 else 0x17392E17)
    else if x & 12 == 8 then (if x & 3 == 0 then 0xC45793C4 else if x & 3 == 1 then 0xA7F255A7 else if x & 3 == 2 then 0x7E82FC7E else 0x3D477A3D)
    else (if x & 3 == 0 then 0x64ACC864 else if x & 3 == 1 then 0x5DE7BA5D else if x & 3 == 2 then 0x192B3219 else 0x7395E673)
  }

  function T3Row9(x: bv8): bv32 {
    if x & 12 == 0 then (if x & 3 == 0 then 0x60A0C060 else if x & 3 == 1 then 0x81981981 else if x & 3 == 2 then 0x4FD19E4F else 0xDC7FA3DC)
    else if x & 12 == 4 then (if x & 3 == 0 then 0x22664422 else if x & 3 == 1 then 0x2A7E542A else if x & 3 == 2 then 0x90AB3B90 else 0x88830B88)
    else if x & 12 == 8 then (if x & 3 == 0 then 0x46CA8C46 else if x & 3 == 1 then 0xEE29C7EE else if x & 3 == 2 then 0xB8D36BB8 else 0x143C2814)
    else (if x & 3 == 0 then 0xDE79A7DE else if x & 3 == 1 then 0x5EE2BC5E else if x & 3 == 2 then 0x0B1D160B else 0xDB76ADDB)
  }

  function T3RowA(x: bv8): bv32 {
    if x & 12 == 0 then (if x & 3 == 0 then 0xE03BDBE0 else if x & 3 == 1 then 0x32566432 else if x & 3 == 2 then 0x3A4E743A else 0x0A1E140A)
    else if x & 12 == 4 then (if x & 3 == 0 then 0x49DB9249 else if x & 3 == 1 then 0x060A0C06 else if x & 3 == 2 then 0x246C4824 else 0x5CE4B85C)
    else if x & 12 == 8 then (if x & 3 == 0 then 0xC25D9FC2 else if x & 3 == 1 then 0xD36EBDD3 else if x & 3 == 2 then 0xACEF43AC else 0x62A6C462)
    else (if x & 3 == 0 then 0x91A83991 else if x & 3 == 1 then 0x95A43195 else if x & 3 == 2 then 0xE437D3E4 else 0x798BF279)
  }

  function T3RowB(x: bv8): bv32 {
    if x & 12 == 0 then (if x & 3 == 0 then 0xE732D5E7 else if x & 3 == 1 then 0xC8438BC8 else if x & 3 == 2 then 0x37596E37 else 0x6DB7DA6D)
    else if x & 12 == 4 then (if x & 3 == 0 then 0x8D8C018D else if x & 3 == 1 then 0xD564B1D5 else if x & 3 == 2 then 0x4ED29C4E else 0xA9E049A9)
    else if x & 12 == 8 then (if x & 3 == 0 then 0x6CB4D86C else if x & 3 == 1 then 0x56FAAC56 else if x & 3 == 2 then 0xF407F3F4 else 0xEA25CFEA)
    else (if x & 3 == 0 then 0x65AFCA65 else if x & 3 == 1 then 0x7A8EF47A else if x & 3 == 2 then 0xAEE947AE else 0x08181008)
  }

  function T3RowC(x: bv8): bv32 {
    if x & 12 == 0 then (if x & 3 == 0 then 0xBAD56FBA else if x & 3 == 1 then 0x7888F078 else if x & 3 == 2 then 0x256F4A25 else 0x2E725C2E)
    else if x & 12 == 4 then (if x & 3 == 0 then 0x1C24381C else if x & 3 == 1 then 0xA6F157A6 else if x & 3 == 2 then 0xB4C773B4 else 0xC65197C6)
    else if x & 12 == 8 then (if x & 3 == 0 then 0xE823CBE8 else if x & 3 == 1 then 0xDD7CA1DD else if x & 3 == 2 then 0x749CE874 else 0x1F213E1F)
    else (if x & 3 == 0 then 0x4BDD964B else if x & 3 == 1 then 0xBDDC61BD else if x & 3 == 2 then 0x8B860D8B else 0x8A850F8A)
  }

  function T3RowD(x: bv8): bv32 {
    if x & 12 == 0 then (if x & 3 == 0 then 0x7090E070 else if x & 3 == 1 then 0x3E427C3E else if x & 3 == 2 then 0xB5C471B5 else 0x66AACC66)
    else if x & 12 == 4 then (if x & 3 == 0 then 0x48D89048 else if x & 3 == 1 then 0x03050603 else if x & 3 == 2 then 0xF601F7F6 else 0x0E121C0E)
    else if x & 12 == 8 then (if x & 3 == 0 then 0x61A3C261 else if x & 3 == 1 then 0x355F6A35 else if x & 3 == 2 then 0x57F9AE57 else 0xB9D069B9)
    else (if x & 3 == 0 then 0x86911786 else if x & 3 == 1 then 0xC15899C1 else if x & 3 == 2 then 0x1D273A1D else 0x9EB9279E)
  }

  function T3RowE(x: bv8): bv32 {
    if x & 12 == 0 then (if x & 3 == 0 then 0xE138D9E1 else if x & 3 == 1 then 0xF813EBF8 else if x & 3 == 2 then 0x98B32B98 else 0x11332211)
    else if x & 12 == 4 then (if x & 3 == 0 then 0x69BBD269 else if x & 3 == 1 then 0xD970A9D9 else if x & 3 == 2 then 0x8E89078E else 0x94A73394)
    else if x & 12 == 8 then (if x & 3 == 0 then 0x9BB62D9B else if x & 3 == 1 then 0x1E223C1E else if x & 3 == 2 then 0x87921587 else 0xE920C9E9)
    else (if x & 3 == 0 then 0xCE4987CE else if x & 3 == 1 then 0x55FFAA55 else if x & 3 == 2 then 0x28785028 else 0xDF7AA5DF)
  }

  function T3RowF(x: bv8): bv32 {
    if x & 12 == 0 then (if x & 3 == 0 then 0x8C8F038C else if x & 3 == 1 then 0xA1F859A1 else if x & 3 == 2 then 0x89800989 else 0x0D171A0D)
    else if x & 12 == 4 then (if x & 3 == 0 then 0xBFDA65BF else if x & 3 == 1 then 0xE631D7E6 else if x & 3 == 2 then 0x42C68442 else 0x68B8D068)
    else if x & 12 == 8 then (if x & 3 == 0 then 0x41C38241 else if x & 3 == 1 then 0x99B02999 else if x & 3 == 2 then 0x2D775A2D else 0x0F111E0F)
    else (if x & 3 == 0 then 0xB0CB7BB0 else if x & 3 == 1 then 0x54FCA854 else if x & 3 == 2 then 0xBBD66DBB else 0x163A2C16)
  }

  /** `sm_T3`. */
  function T3(x: bv8): bv32 {
    if x & 0x80 == 0 then
      if x & 0x40 == 0 then
        if x & 0x20 == 0 then
          if x & 0x10 == 0 then T3Row0(x) else T3Row1(x)
        else
          if x & 0x10 == 0 then T3Row2(x) else T3Row3(x)
      else
        if x & 0x20 == 0 then
          if x & 0x10 == 0 then T3Row4(x) else T3Row5(x)
        else
          if x & 0x10 == 0 then T3Row6(x) else T3Row7(x)
    else
      if x & 0x40 == 0 then
        if x & 0x20 == 0 then
          if x & 0x10 == 0 then T3Row8(x) else T3Row9(x)
        else
          if x & 0x10 == 0 then T3RowA(x) else T3RowB(x)
      else
        if x & 0x20 == 0 then
          if x & 0x10 == 0 then T3RowC(x) else T3RowD(x)
        else
          if x & 0x10 == 0 then T3RowE(x) else T3RowF(x)
  }

  function T4Row0(x: bv8): bv32 {
    if x & 12 == 0 then (if x & 3 == 0 then 0x6363A5C6 else if x & 3 == 1 then 0x7C7C84F8 else if x & 3 == 2 then 0x777799EE else 0x7B7B8DF6)
    else if x & 12 == 4 then (if x & 3 == 0 then 0xF2F20DFF else if x & 3 == 1 then 0x6B6BBDD6 else if x & 3 == 2 then 0x6F6FB1DE else 0xC5C55491)
    else if x & 12 == 8 then (if x & 3 == 0 then 0x30305060 else if x & 3 == 1 then 0x01010302 else if x & 3 == 2 then 0x6767A9CE else 0x2B2B7D56)
    else (if x & 3 == 0 then 0xFEFE19E7 else if x & 3 == 1 then 0xD7D762B5 else if x & 3 == 2 then 0xABABE64D else 0x76769AEC)
  }

  function T4Row1(x: bv8): bv32 {
    if x & 12 == 0 then (if x & 3 == 0 then 0xCACA458F else if x & 3 == 1 then 0x82829D1F else if x & 3 == 2 then 0xC9C94089 else 0x7D7D87FA)
    else if x & 12 == 4 then (if x & 3 == 0 then 0xFAFA15EF else if x & 3 == 1 then 0x5959EBB2 else if x & 3 == 2 then 0x4747C98E else 0xF0F00BFB)
    else if x & 12 == 8 then (if x & 3 == 0 then 0xADADEC41 else if x & 3 == 1 then 0xD4D467B3 else if x & 3 == 2 then 0xA2A2FD5F else 0xAFAFEA45)
    else (if x & 3 == 0 then 0x9C9CBF23 else if x & 3 == 1 then 0xA4A4F753 else if x & 3 == 2 then 0x727296E4 else 0xC0C05B9B)
  }

  function T4Row2(x: bv8): bv32 {
    if x & 12 == 0 then (if x & 3 == 0 then 0xB7B7C275 else if x & 3 == 1 then 0xFDFD1CE1 else if x & 3 == 2 then 0x9393AE3D else 0x26266A4C)
    else if x & 12 == 4 then (if x & 3 == 0 then 0x36365A6C else if x & 3 == 1 then 0x3F3F417E else if x & 3 == 2 then 0xF7F702F5 else 0xCCCC4F83)
    else if x & 12 == 8 then (if x & 3 == 0 then 0x34345C68 else if x & 3 == 1 then 0xA5A5F451 else if x & 3 == 2 then 0xE5E534D1 else 0xF1F108F9)
    else (if x & 3 == 0 then 0x717193E2 else if x & 3 == 1 then 0xD8D873AB else if x & 3 == 2 then 0x31315362 else 0x15153F2A)
  }

  function T4Row3(x: bv8): bv32 {
    if x & 12 == 0 then (if x & 3 == 0 then 0x04040C08 else if x & 3 == 1 then 0xC7C75295 else if x & 3 == 2 then 0x23236546 else 0xC3C35E9D)
    else if x & 12 == 4 then (if x & 3 == 0 then 0x18182830 else if x & 3 == 1 then 0x9696A137 else if x & 3 == 2 then 0x05050F0A else 0x9A9AB52F)
    else if x & 12 == 8 then (if x & 3 == 0 then 0x0707090E else if x & 3 == 1 then 0x12123624 else if x & 3 == 2 then 0x80809B1B else 0xE2E23DDF)
    else (if x & 3 == 0 then 0xEBEB26CD else if x & 3 == 1 then 0x2727694E else if x & 3 == 2 then 0xB2B2CD7F else 0x75759FEA)
  }

  function T4Row4(x: bv8): bv32 {
    if x & 12 == 0 then (if x & 3 == 0 then 0x09091B12 else if x & 3 == 1 then 0x83839E1D else if x & 3 == 2 then 0x2C2C7458 else 0x1A1A2E34)
    else if x & 12 == 4 then (if x & 3 == 0 then 0x1B1B2D36 else if x & 3 == 1 then 0x6E6EB2DC else if x & 3 == 2 then 0x5A5AEEB4 else 0xA0A0FB5B)
    else if x & 12 == 8 then (if x & 3 == 0 then 0x5252F6A4 else if x & 3 == 1 then 0x3B3B4D76 else if x & 3 == 2 then 0xD6D661B7 else 0xB3B3CE7D)
    else (if x & 3 == 0 then 0x29297B52 else if x & 3 == 1 then 0xE3E33EDD else if x & 3 == 2 then 0x2F2F715E else 0x84849713)
  }

  function T4Row5(x: bv8): bv32 {
    if x & 12 == 0 then (if x & 3 == 0 then 0x5353F5A6 else if x & 3 == 1 then 0xD1D168B9 else if x & 3 == 2 then 0x00000000 else 0xEDED2CC1)
    else if x & 12 == 4 then (if x & 3 == 0 then 0x20206040 else if x & 3 == 1 then 0xFCFC1FE3 else if x & 3 == 2 then 0xB1B1C879 else 0x5B5BEDB6)
    else if x & 12 == 8 then (if x & 3 == 0 then 0x6A6ABED4 else if x & 3 == 1 then 0xCBCB468D else if x & 3 == 2 then 0xBEBED967 else 0x39394B72)
    else (if x & 3 == 0 then 0x4A4ADE94 else if x & 3 == 1 then 0x4C4CD498 else if x & 3 == 2 then 0x5858E8B0 else 0xCFCF4A85)
  }

  function T4Row6(x: bv8): bv32 {
    if x & 12 == 0 then (if x & 3 == 0 then 0xD0D06BBB else if x & 3 == 1 then 0xEFEF2AC5 else if x & 3 == 2 then 0xAAAAE54F else 0xFBFB16ED)
    else if x & 12 == 4 then (if x & 3 == 0 then 0x4343C586 else if x & 3 == 1 then 0x4D4DD79A else if x & 3 == 2 then 0x33335566 else 0x85859411)
    else if x & 12 == 8 then (if x & 3 == 0 then 0x4545CF8A else if x & 3 == 1 then 0xF9F910E9 else if x & 3 == 2 then 0x02020604 else 0x7F7F81FE)
    else (if x & 3 == 0 then 0x5050F0A0 else if x & 3 == 1 then 0x3C3C4478 else if x & 3 == 2 then 0x9F9FBA25 else 0xA8A8E34B)
  }

  function T4Row7(x: bv8): bv32 {
    if x & 12 == 0 then (if x & 3 == 0 then 0x5151F3A2 else if x & 3 == 1 then 0xA3A3FE5D else if x & 3 == 2 then 0x4040C080 else 0x8F8F8A05)
    else if x & 12 == 4 then (if x & 3 == 0 then 0x9292AD3F else if x & 3 == 1 then 0x9D9DBC21 else if x & 3 == 2 then 0x38384870 else 0xF5F504F1)
    else if x & 12 == 8 then (if x & 3 == 0 then 0xBCBCDF63 else if x & 3 == 1 then 0xB6B6C177 else if x & 3 == 2 then 0xDADA75AF else 0x21216342)
    else (if x & 3 == 0 then 0x10103020 else if x & 3 == 1 then 0xFFFF1AE5 else if x & 3 == 2 then 0xF3F30EFD else 0xD2D26DBF)
  }

  function T4Row8(x: bv8): bv32 {
    if x & 12 == 0 then (if x & 3 == 0 then 0xCDCD4C81 else if x & 3 == 1 then 0x0C0C1418 else if x & 3 == 2 then 0x13133526 else 0xECEC2FC3)
    else if x & 12 == 4 then (if x & 3 == 0 then 0x5F5FE1BE else if x & 3 == 1 then 0x9797A235 else if x & 3 == 2 then 0x4444CC88 else 0x1717392E)
    else if x & 12 == 8 then (if x & 3 == 0 then 0xC4C45793 else if x & 3 == 1 then 0xA7A7F255 else if x & 3 == 2 then 0x7E7E82FC else 0x3D3D477A)
    else (if x & 3 == 0 then 0x6464ACC8 else if x & 3 == 1 then 0x5D5DE7BA else if x & 3 == 2 then 0x19192B32 else 0x737395E6)
  }

  function T4Row9(x: bv8): bv32 {
    if x & 12 == 0 then (if x & 3 == 0 then 0x6060A0C0 else if x & 3 == 1 then 0x81819819 else if x & 3 == 2 then 0x4F4FD19E else 0xDCDC7FA3)
    else if x & 12 == 4 then (if x & 3 == 0 then 0x22226644 else if x & 3 == 1 then 0x2A2A7E54 else if x & 3 == 2 then 0x9090AB3B else 0x8888830B)
    else if x & 12 == 8 then (if x & 3 == 0 then 0x4646CA8C else if x & 3 == 1 then 0xEEEE29C7 else if x & 3 == 2 then 0xB8B8D36B else 0x14143C28)
    else (if x & 3 == 0 then 0xDEDE79A7 else if x & 3 == 1 then 0x5E5EE2BC else if x & 3 == 2 then 0x0B0B1D16 else 0xDBDB76AD)
  }

  function T4RowA(x: bv8): bv32 {
    if x & 12 == 0 then (if x & 3 == 0 then 0xE0E03BDB else if x & 3 == 1 then 0x32325664 else if x & 3 == 2 then 0x3A3A4E74 else 0x0A0A1E14)
    else if x & 12 == 4 then (if x & 3 == 0 then 0x4949DB92 else if x & 3 == 1 then 0x06060A0C else if x & 3 == 2 then 0x24246C48 else 0x5C5CE4B8)
    else if x & 12 == 8 then (if x & 3 == 0 then 0xC2C25D9F else if x & 3 == 1 then 0xD3D36EBD else if x & 3 == 2 then 0xACACEF43 else 0x6262A6C4)
    else (if x & 3 == 0 then 0x9191A839 else if x & 3 == 1 then 0x9595A431 else if x & 3 == 2 then 0xE4E437D3 else 0x79798BF2)
  }

  function T4RowB(x: bv8): bv32 {
    if x & 12 == 0 then (if x & 3 == 0 then 0xE7E732D5 else if x & 3 == 1 then 0xC8C8438B else if x & 3 == 2 then 0x3737596E else 0x6D6DB7DA)
    else if x & 12 == 4 then (if x & 3 == 0 then 0x8D8D8C01 else if x & 3 == 1 then 0xD5D564B1 else if x & 3 == 2 then 0x4E4ED29C else 0xA9A9E049)
    else if x & 12 == 8 then (if x & 3 == 0 then 0x6C6CB4D8 else if x & 3 == 1 then 0x5656FAAC else if x & 3 == 2 then 0xF4F407F3 else 0xEAEA25CF)
    else (if x & 3 == 0 then 0x6565AFCA else if x & 3 == 1 then 0x7A7A8EF4 else if x & 3 == 2 then 0xAEAEE947 else 0x08081810)
  }

  function T4RowC(x: bv8): bv32 {
    if x & 12 == 0 then (if x & 3 == 0 then 0xBABAD56F else if x & 3 == 1 then 0x787888F0 else if x & 3 == 2 then 0x25256F4A else 0x2E2E725C)
    else if x & 12 == 4 then (if x & 3 == 0 then 0x1C1C2438 else if x & 3 == 1 then 0xA6A6F157 else if x & 3 == 2 then 0xB4B4C773 else 0xC6C65197)
    else if x & 12 == 8 then (if x & 3 == 0 then 0xE8E823CB else if x & 3 == 1 then 0xDDDD7CA1 else if x & 3 == 2 then 0x74749CE8 else 0x1F1F213E)
    else (if x & 3 == 0 then 0x4B4BDD96 else if x & 3 == 1 then 0xBDBDDC61 else if x & 3 == 2 then 0x8B8B860D else 0x8A8A850F)
  }

  function T4RowD(x: bv8): bv32 {
    if x & 12 == 0 then (if x & 3 == 0 then 0x707090E0 else if x & 3 == 1 then 0x3E3E427C else if x & 3 == 2 then 0xB5B5C471 else 0x6666AACC)
    else if x & 12 == 4 then (if x & 3 == 0 then 0x4848D890 else if x & 3 == 1 then 0x03030506 else if x & 3 == 2 then 0xF6F601F7 else 0x0E0E121C)
    else if x & 12 == 8 then (if x & 3 == 0 then 0x6161A3C2 else if x & 3 == 1 then 0x35355F6A else if x & 3 == 2 then 0x5757F9AE else 0xB9B9D069)
    else (if x & 3 == 0 then 0x86869117 else if x & 3 == 1 then 0xC1C15899 else if x & 3 == 2 then 0x1D1D273A else 0x9E9EB927)
  }

  function T4RowE(x: bv8): bv32 {
    if x & 12 == 0 then (if x & 3 == 0 then 0xE1E138D9 else if x & 3 == 1 then 0xF8F813EB else if x & 3 == 2 then 0x9898B32B else 0x11113322)
    else if x & 12 == 4 then (if x & 3 == 0 then 0x6969BBD2 else if x & 3 == 1 then 0xD9D970A9 else if x & 3 == 2 then 0x8E8E8907 else 0x9494A733)
    else if x & 12 == 8 then (if x & 3 == 0 then 0x9B9BB62D else if x & 3 == 1 then 0x1E1E223C else if x & 3 == 2 then 0x87879215 else 0xE9E920C9)
    else (if x & 3 == 0 then 0xCECE4987 else if x & 3 == 1 then 0x5555FFAA else if x & 3 == 2 then 0x28287850 else 0xDFDF7AA5)
  }

  function T4RowF(x: bv8): bv32 {
    if x & 12 == 0 then (if x & 3 == 0 then 0x8C8C8F03 else if x & 3 == 1 then 0xA1A1F859 else if x & 3 == 2 then 0x89898009 else 0x0D0D171A)
    else if x & 12 == 4 then (if x & 3 == 0 then 0xBFBFDA65 else if x & 3 == 1 then 0xE6E631D7 else if x & 3 == 2 then 0x4242C684 else 0x6868B8D0)
    else if x & 12 == 8 then (if x & 3 == 0 then 0x4141C382 else if x & 3 == 1 then 0x9999B029 else if x & 3 == 2 then 0x2D2D775A else 0x0F0F111E)
    else (if x & 3 == 0 then 0xB0B0CB7B else if x & 3 == 1 then 0x5454FCA8 else if x & 3 == 2 then 0xBBBBD66D else 0x16163A2C)
  }

  /** `sm_T4`. */
  function T4(x: bv8): bv32 {
    if x & 0x80 == 0 then
      if x & 0x40 == 0 then
        if x & 0x20 == 0 then
          if x & 0x10 == 0 then T4Row0(x) else T4Row1(x)
        else
          if x & 0x10 == 0 then T4Row2(x) else T4Row3(x)
      else
        if x & 0x20 == 0 then
          if x & 0x10 == 0 then T4Row4(x) else T4Row5(x)
        else
          if x & 0x10 == 0 then T4Row6(x) else T4Row7(x)
    else
      if x & 0x40 == 0 then
        if x & 0x20 == 0 then
          if x & 0x10 == 0 then T4Row8(x) else T4Row9(x)
        else
          if x & 0x10 == 0 then T4RowA(x) else T4RowB(x)
      else
        if x & 0x20 == 0 then
          if x & 0x10 == 0 then T4RowC(x) else T4RowD(x)
        else
          if x & 0x10 == 0 then T4RowE(x) else T4RowF(x)
  }
}
