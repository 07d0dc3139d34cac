/** The four lookup tables of the decryption rounds, entry by entry. */
module DecryptTables {

  function T5Row0(x: bv8): bv32 {
    if x & 12 == 0 then (if x & 3 == 0 then 0x51F4A750 else if x & 3 == 1 then 0x7E416553 else if x & 3 == 2 then 0x1A17A4C3 else 0x3A275E96)
    else if x & 12 == 4 then (if x & 3 == 0 then 0x3BAB6BCB else if x & 3 == 1 then 0x1F9D45F1 else if x & 3 == 2 then 0xACFA58AB else 0x4BE30393)
    else if x & 12 == 8 then (if x & 3 == 0 then 0x2030FA55 else if x & 3 == 1 then 0xAD766DF6 else if x & 3 == 2 then 0x88CC7691 else 0xF5024C25)
    else (if x & 3 == 0 then 0x4FE5D7FC else if x & 3 == 1 then 0xC52ACBD7 else if x & 3 == 2 then 0x26354480 else 0xB562A38F)
  }

  function T5Row1(x: bv8): bv32 {
    if x & 12 == 0 then (if x & 3 == 0 then 0xDEB15A49 else if x & 3 == 1 then 0x25BA1B67 else if x & 3 == 2 then 0x45EA0E98 else 0x5DFEC0E1)
    else if x & 12 == 4 then (if x & 3 == 0 then 0xC32F7502 else if x & 3 == 1 then 0x814CF012 else if x & 3 == 2 then 0x8D4697A3 else 0x6BD3F9C6)
    else if x & 12 == 8 then (if x & 3 == 0 then 0x038F5FE7 else if x & 3 == 1 then 0x15929C95 else if x & 3 == 2 then 0xBF6D7AEB else 0x955259DA)
    else (if x & 3 == 0 then 0xD4BE832D else if x & 3 == 1 then 0x587421D3 else if x & 3 == 2 then 0x49E06929 else 0x8EC9C844)
  }

  function T5Row2(x: bv8): bv32 {
    if x & 12 == 0 then (if x & 3 == 0 then 0x75C2896A else if x & 3 == 1 then 0xF48E7978 else if x & 3 == 2 then 0x99583E6B else 0x27B971DD)
    else if x & 12 == 4 then (if x & 3 == 0 then 0xBEE14FB6 else if x & 3 == 1 then 0xF088AD17 else if x & 3 == 2 then 0xC920AC66 else 0x7DCE3AB4)
    else if x & 12 == 8 then (if x & 3 == 0 then 0x63DF4A18 else if x & 3 == 1 then 0xE51A3182 else if x & 3 == 2 then 0x97513360 else 0x62537F45)
    else (if x & 3 == 0 then 0xB16477E0 else if x & 3 == 1 then 0xBB6BAE84 else if x & 3 == 2 then 0xFE81A01C else 0xF9082B94)
  }

  function T5Row3(x: bv8): bv32 {
    if x & 12 == 0 then (if x & 3 == 0 then 0x70486858 else if x & 3 == 1 then 0x8F45FD19 else if x & 3 == 2 then 0x94DE6C87 else 0x527BF8B7)
    else if x & 12 == 4 then (if x & 3 == 0 then 0xAB73D323 else if x & 3 == 1 then 0x724B02E2 else if x & 3 == 2 then 0xE31F8F57 else 0x6655AB2A)
    else if x & 12 == 8 then (if x & 3 == 0 then 0xB2EB2807 else if x & 3 == 1 then 0x2FB5C203 else if x & 3 == 2 then 0x86C57B9A else 0xD33708A5)
    else (if x & 3 == 0 then 0x302887F2 else if x & 3 == 1 then 0x23BFA5B2 else if x & 3 == 2 then 0x02036ABA else 0xED16825C)
  }

  function T5Row4(x: bv8): bv32 {
    if x & 12 == 0 then (if x & 3 == 0 then 0x8ACF1C2B else if x & 3 == 1 then 0xA779B492 else if x & 3 == 2 then 0xF307F2F0 else 0x4E69E2A1)
    else if x & 12 == 4 then (if x & 3 == 0 then 0x65DAF4CD else if x & 3 == 1 then 0x0605BED5 else if x & 3 == 2 then 0xD134621F else 0xC4A6FE8A)
    else if x & 12 == 8 then (if x & 3 == 0 then 0x342E539D else if x & 3 == 1 then 0xA2F355A0 else if x & 3 == 2 then 0x058AE132 else 0xA4F6EB75)
    else (if x & 3 == 0 then 0x0B83EC39 else if x & 3 == 1 then 0x4060EFAA else if x & 3 == 2 then 0x5E719F06 else 0xBD6E1051)
  }

  function T5Row5(x: bv8): bv32 {
    if x & 12 == 0 then (if x & 3 == 0 then 0x3E218AF9 else if x & 3 == 1 then 0x96DD063D else if x & 3 == 2 then 0xDD3E05AE else 0x4DE6BD46)
    else if x & 12 == 4 then (if x & 3 == 0 then 0x91548DB5 else if x & 3 == 1 then 0x71C45D05 else if x & 3 == 2 then 0x0406D46F else 0x605015FF)
    else if x & 12 == 8 then (if x & 3 == 0 then 0x1998FB24 else if x & 3 == 1 then 0xD6BDE997 else if x & 3 == 2 then 0x894043CC else 0x67D99E77)
    else (if x & 3 == 0 then 0xB0E842BD else if x & 3 == 1 then 0x07898B88 else if x & 3 == 2 then 0xE7195B38 else 0x79C8EEDB)
  }

  function T5Row6(x: bv8): bv32 {
    if x & 12 == 0 then (if x & 3 == 0 then 0xA17C0A47 else if x & 3 == 1 then 0x7C420FE9 else if x & 3 == 2 then 0xF8841EC9 else 0x00000000)
    else if x & 12 == 4 then (if x & 3 == 0 then 0x09808683 else if x & 3 == 1 then 0x322BED48 else if x & 3 == 2 then 0x1E1170AC else 0x6C5A724E)
    else if x & 12 == 8 then (if x & 3 == 0 then 0xFD0EFFFB else if x & 3 == 1 then 0x0F853856 else if x & 3 == 2 then 0x3DAED51E else 0x362D3927)
    else (if x & 3 == 0 then 0x0A0FD964 else if x & 3 == 1 then 0x685CA621 else if x & 3 == 2 then 0x9B5B54D1 else 0x24362E3A)
  }

  function T5Row7(x: bv8): bv32 {
    if x & 12 == 0 then (if x & 3 == 0 then 0x0C0A67B1 else if x & 3 == 1 then 0x9357E70F else if x & 3 == 2 then 0xB4EE96D2 else 0x1B9B919E)
    else if x & 12 == 4 then (if x & 3 == 0 then 0x80C0C54F else if x & 3 == 1 then 0x61DC20A2 else if x & 3 == 2 then 0x5A774B69 else 0x1C121A16)
    else if x & 12 == 8 then (if x & 3 == 0 then 0xE293BA0A else if x & 3 == 1 then 0xC0A02AE5 else if x & 3 == 2 then 0x3C22E043 else 0x121B171D)
    else (if x & 3 == 0 then 0x0E090D0B else if x & 3 == 1 then 0xF28BC7AD else if x & 3 == 2 then 0x2DB6A8B9 else 0x141EA9C8)
  }

  function T5Row8(x: bv8): bv32 {
    if x & 12 == 0 then (if x & 3 == 0 then 0x57F11985 else if x & 3 == 1 then 0xAF75074C else if x & 3 == 2 then 0xEE99DDBB else 0xA37F60FD)
    else if x & 12 == 4 then (if x & 3 == 0 then 0xF701269F else if x & 3 == 1 then 0x5C72F5BC else if x & 3 == 2 then 0x44663BC5 else 0x5BFB7E34)
    else if x & 12 == 8 then (if x & 3 == 0 then 0x8B432976 else if x & 3 == 1 then 0xCB23C6DC else if x & 3 == 2 then 0xB6EDFC68 else 0xB8E4F163)
    else (if x & 3 == 0 then 0xD731DCCA else if x & 3 == 1 then 0x42638510 else if x & 3 == 2 then 0x13972240 else 0x84C61120)
  }

  function T5Row9(x: bv8): bv32 {
    if x & 12 == 0 then (if x & 3 == 0 then 0x854A247D else if x & 3 == 1 then 0xD2BB3DF8 else if x & 3 == 2 then 0xAEF93211 else 0xC729A16D)
    else if x & 12 == 4 then (if x & 3 == 0 then 0x1D9E2F4B else if x & 3 == 1 then 0xDCB230F3 else if x & 3 == 2 then 0x0D8652EC else 0x77C1E3D0)
    else if x & 12 == 8 then (if x & 3 == 0 then 0x2BB3166C else if x & 3 == 1 then 0xA970B999 else if x & 3 == 2 then 0x119448FA else 0x47E96422)
    else (if x & 3 == 0 then 0xA8FC8CC4 else if x & 3 == 1 then 0xA0F03F1A else if x & 3 == 2 then 0x567D2CD8 else 0x223390EF)
  }

  function T5RowA(x: bv8): bv32 {
    if x & 12 == 0 then (if x & 3 == 0 then 0x87494EC7 else if x & 3 == 1 then 0xD938D1C1 else if x & 3 == 2 then 0x8CCAA2FE else 0x98D40B36)
    else if x & 12 == 4 then (if x & 3 == 0 then 0xA6F581CF else if x & 3 == 1 then 0xA57ADE28 else if x & 3 == 2 then 0xDAB78E26 else 0x3FADBFA4)
    else if x & 12 == 8 then (if x & 3 == 0 then 0x2C3A9DE4 else if x & 3 == 1 then 0x5078920D else if x & 3 == 2 then 0x6A5FCC9B else 0x547E4662)
    else (if x & 3 == 0 then 0xF68D13C2 else if x & 3 == 1 then 0x90D8B8E8 else if x & 3 == 2 then 0x2E39F75E else 0x82C3AFF5)
  }

  function T5RowB(x: bv8): bv32 {
    if x & 12 == 0 then (if x & 3 == 0 then 0x9F5D80BE else if x & 3 == 1 then 0x69D0937C else if x & 3 == 2 then 0x6FD52DA9 else 0xCF2512B3)
    else if x & 12 == 4 then (if x & 3 == 0 then 0xC8AC993B else if x & 3 == 1 then 0x10187DA7 else if x & 3 == 2 then 0xE89C636E else 0xDB3BBB7B)
    else if x & 12 == 8 then (if x & 3 == 0 then 0xCD267809 else if x & 3 == 1 then 0x6E5918F4 else if x & 3 == 2 then 0xEC9AB701 else 0x834F9AA8)
    else (if x & 3 == 0 then 0xE6956E65 else if x & 3 == 1 then 0xAAFFE67E else if x & 3 == 2 then 0x21BCCF08 else 0xEF15E8E6)
  }

  function T5RowC(x: bv8): bv32 {
    if x & 12 == 0 then (if x & 3 == 0 then 0xBAE79BD9 else if x & 3 == 1 then 0x4A6F36CE else if x & 3 == 2 then 0xEA9F09D4 else 0x29B07CD6)
    else if x & 12 == 4 then (if x & 3 == 0 then 0x31A4B2AF else if x & 3 == 1 then 0x2A3F2331 else if x & 3 == 2 then 0xC6A59430 else 0x35A266C0)
    else if x & 12 == 8 then (if x & 3 == 0 then 0x744EBC37 else if x & 3 == 1 then 0xFC82CAA6 else if x & 3 == 2 then 0xE090D0B0 else 0x33A7D815)
    else (if x & 3 == 0 then 0xF104984A else if x & 3 == 1 then 0x41ECDAF7 else if x & 3 == 2 then 0x7FCD500E else 0x1791F62F)
  }

  function T5RowD(x: bv8): bv32 {
    if x & 12 == 0 then (if x & 3 == 0 then 0x764DD68D else if x & 3 == 1 then 0x43EFB04D else if x & 3 == 2 then 0xCCAA4D54 else 0xE49604DF)
    else if x & 12 == 4 then (if x & 3 == 0 then 0x9ED1B5E3 else if x & 3 == 1 then 0x4C6A881B else if x & 3 == 2 then 0xC12C1FB8 else 0x4665517F)
    else if x & 12 == 8 then (if x & 3 == 0 then 0x9D5EEA04 else if x & 3 == 1 then 0x018C355D else if x & 3 == 2 then 0xFA877473 else 0xFB0B412E)
    else (if x & 3 == 0 then 0xB3671D5A else if x & 3 == 1 then 0x92DBD252 else if x & 3 == 2 then 0xE9105633 else 0x6DD64713)
  }

  function T5RowE(x: bv8): bv32 {
    if x & 12 == 0 then (if x & 3 == 0 then 0x9AD7618C else if x & 3 == 1 then 0x37A10C7A else if x & 3 == 2 then 0x59F8148E else 0xEB133C89)
    else if x & 12 == 4 then (if x & 3 == 0 then 0xCEA927EE else if x & 3 == 1 then 0xB761C935 else if x & 3 == 2 then 0xE11CE5ED else 0x7A47B13C)
    else if x & 12 == 8 then (if x & 3 == 0 then 0x9CD2DF59 else if x & 3 == 1 then 0x55F2733F else if x & 3 == 2 then 0x1814CE79 else 0x73C737BF)
    else (if x & 3 == 0 then 0x53F7CDEA else if x & 3 == 1 then 0x5FFDAA5B else if x & 3 == 2 then 0xDF3D6F14 else 0x7844DB86)
  }

  function T5RowF(x: bv8): bv32 {
    if x & 12 == 0 then (if x & 3 == 0 then 0xCAAFF381 else if x & 3 == 1 then 0xB968C43E else if x & 3 == 2 then 0x3824342C else 0xC2A3405F)
    else if x & 12 == 4 then (if x & 3 == 0 then 0x161DC372 else if x & 3 == 1 then 0xBCE2250C else if x & 3 == 2 then 0x283C498B else 0xFF0D9541)
    else if x & 12 == 8 then (if x & 3 == 0 then 0x39A80171 else if x & 3 == 1 then 0x080CB3DE else if x & 3 == 2 then 0xD8B4E49C else 0x6456C190)
    else (if x & 3 == 0 then 0x7BCB8461 else if x & 3 == 1 then 0xD532B670 else if x & 3 == 2 then 0x486C5C74 else 0xD0B85742)
  }

  /** `sm_T5`. */
  function T5(x: bv8): bv32 {
    if x & 0x80 == 0 then
      if x & 0x40 == 0 then
        if x & 0x20 == 0 then
          if x & 0x10 == 0 then T5Row0(x) else T5Row1(x)
        else
          if x & 0x10 == 0 then T5Row2(x) else T5Row3(x)
      else
        if x & 0x20 == 0 then
          if x & 0x10 == 0 then T5Row4(x) else T5Row5(x)
        else
          if x & 0x10 == 0 then T5Row6(x) else T5Row7(x)
    else
      if x & 0x40 == 0 then
        if x & 0x20 == 0 then
          if x & 0x10 == 0 then T5Row8(x) else T5Row9(x)
        else
          if x & 0x10 == 0 then T5RowA(x) else T5RowB(x)
      else
        if x & 0x20 == 0 then
          if x & 0x10 == 0 then T5RowC(x) else T5RowD(x)
        else
          if x & 0x10 == 0 then T5RowE(x) else T5RowF(x)
  }

  function T6Row0(x: bv8): bv32 {
    if x & 12 == 0 then (if x & 3 == 0 then 0x5051F4A7 else if x & 3 == 1 then 0x537E4165 else if x & 3 == 2 then 0xC31A17A4 else 0x963A275E)
    else if x & 12 == 4 then (if x & 3 == 0 then 0xCB3BAB6B else if x & 3 == 1 then 0xF11F9D45 else if x & 3 == 2 then 0xABACFA58 else 0x934BE303)
    else if x & 12 == 8 then (if x & 3 == 0 then 0x552030FA else if x & 3 == 1 then 0xF6AD766D else if x & 3 == 2 then 0x9188CC76 else 0x25F5024C)
    else (if x & 3 == 0 then 0xFC4FE5D7 else if x & 3 == 1 then 0xD7C52ACB else if x & 3 == 2 then 0x80263544 else 0x8FB562A3)
  }

  function T6Row1(x: bv8): bv32 {
    if x & 12 == 0 then (if x & 3 == 0 then 0x49DEB15A else if x & 3 == 1 then 0x6725BA1B else if x & 3 == 2 then 0x9845EA0E else 0xE15DFEC0)
    else if x & 12 == 4 then (if x & 3 == 0 then 0x02C32F75 else if x & 3 == 1 then 0x12814CF0 else if x & 3 == 2 then 0xA38D4697 else 0xC66BD3F9)
    else if x & 12 == 8 then (if x & 3 == 0 then 0xE7038F5F else if x & 3 == 1 then 0x9515929C else if x & 3 == 2 then 0xEBBF6D7A else 0xDA955259)
    else (if x & 3 == 0 then 0x2DD4BE83 else if x & 3 == 1 then 0xD3587421 else if x & 3 == 2 then 0x2949E069 else 0x448EC9C8)
  }

  function T6Row2(x: bv8): bv32 {
    if x & 12 == 0 then (if x & 3 == 0 then 0x6A75C289 else if x & 3 == 1 then 0x78F48E79 else if x & 3 == 2 then 0x6B99583E else 0xDD27B971)
    else if x & 12 == 4 then (if x & 3 == 0 then 0xB6BEE14F else if x & 3 == 1 then 0x17F088AD else if x & 3 == 2 then 0x66C920AC else 0xB47DCE3A)
    else if x & 12 == 8 then (if x & 3 == 0 then 0x1863DF4A else if x & 3 == 1 then 0x82E51A31 else if x & 3 == 2 then 0x60975133 else 0x4562537F)
    else (if x & 3 == 0 then 0xE0B16477 else if x & 3 == 1 then 0x84BB6BAE else if x & 3 == 2 then 0x1CFE81A0 else 0x94F9082B)
  }

  function T6Row3(x: bv8): bv32 {
    if x & 12 == 0 then (if x & 3 == 0 then 0x58704868 else if x & 3 == 1 then 0x198F45FD else if x & 3 == 2 then 0x8794DE6C else 0xB7527BF8)
    else if x & 12 == 4 then (if x & 3 == 0 then 0x23AB73D3 else if x & 3 == 1 then 0xE2724B02 else if x & 3 == 2 then 0x57E31F8F else 0x2A6655AB)
    else if x & 12 == 8 then (if x & 3 == 0 then 0x07B2EB28 else if x & 3 == 1 then 0x032FB5C2 else if x & 3 == 2 then 0x9A86C57B else 0xA5D33708)
    else (if x & 3 == 0 then 0xF2302887 else if x & 3 == 1 then 0xB223BFA5 else if x & 3 == 2 then 0xBA02036A else 0x5CED1682)
  }

  function T6Row4(x: bv8): bv32 {
    if x & 12 == 0 then (if x & 3 == 0 then 0x2B8ACF1C else if x & 3 == 1 then 0x92A779B4 else if x & 3 == 2 then 0xF0F307F2 else 0xA14E69E2)
    else if x & 12 == 4 then (if x & 3 == 0 then 0xCD65DAF4 else if x & 3 == 1 then 0xD50605BE else if x & 3 == 2 then 0x1FD13462 else 0x8AC4A6FE)
    else if x & 12 == 8 then (if x & 3 == 0 then 0x9D342E53 else if x & 3 == 1 then 0xA0A2F355 else if x & 3 == 2 then 0x32058AE1 else 0x75A4F6EB)
    else (if x & 3 == 0 then 0x390B83EC else if x & 3 == 1 then 0xAA4060EF else if x & 3 == 2 then 0x065E719F else 0x51BD6E10)
  }

  function T6Row5(x: bv8): bv32 {
    if x & 12 == 0 then (if x & 3 == 0 then 0xF93E218A else if x & 3 == 1 then 0x3D96DD06 else if x & 3 == 2 then 0xAEDD3E05 else 0x464DE6BD)
    else if x & 12 == 4 then (if x & 3 == 0 then 0xB591548D else if x & 3 == 1 then 0x0571C45D else if x & 3 == 2 then 0x6F0406D4 else 0xFF605015)
    else if x & 12 == 8 then (if x & 3 == 0 then 0x241998FB else if x & 3 == 1 then 0x97D6BDE9 else if x & 3 == 2 then 0xCC894043 else 0x7767D99E)
    else (if x & 3 == 0 then 0xBDB0E842 else if x & 3 == 1 then 0x8807898B else if x & 3 == 2 then 0x38E7195B else 0xDB79C8EE)
  }

  function T6Row6(x: bv8): bv32 {
    if x & 12 == 0 then (if x & 3 == 0 then 0x47A17C0A else if x & 3 == 1 then 0xE97C420F else if x & 3 == 2 then 0xC9F8841E else 0x00000000)
    else if x & 12 == 4 then (if x & 3 == 0 then 0x83098086 else if x & 3 == 1 then 0x48322BED else if x & 3 == 2 then 0xAC1E1170 else 0x4E6C5A72)
    else if x & 12 == 8 then (if x & 3 == 0 then 0xFBFD0EFF else if x & 3 == 1 then 0x560F8538 else if x & 3 == 2 then 0x1E3DAED5 else 0x27362D39)
    else (if x & 3 == 0 then 0x640A0FD9 else if x & 3 == 1 then 0x21685CA6 else if x & 3 == 2 then 0xD19B5B54 else 0x3A24362E)
  }

  function T6Row7(x: bv8): bv32 {
    if x & 12 == 0 then (if x & 3 == 0 then 0xB10C0A67 else if x & 3 == 1 then 0x0F9357E7 else if x & 3 == 2 then 0xD2B4EE96 else 0x9E1B9B91)
    else if x & 12 == 4 then (if x & 3 == 0 then 0x4F80C0C5 else if x & 3 == 1 then 0xA261DC20 else if x & 3 == 2 then 0x695A774B else 0x161C121A)
    else if x & 12 == 8 then (if x & 3 == 0 then 0x0AE293BA else if x & 3 == 1 then 0xE5C0A02A else if x & 3 == 2 then 0x433C22E0 else 0x1D121B17)
    else (if x & 3 == 0 then 0x0B0E090D else if x & 3 == 1 then 0xADF28BC7 else if x & 3 == 2 then 0xB92DB6A8 else 0xC8141EA9)
  }

  function T6Row8(x: bv8): bv32 {
    if x & 12 == 0 then (if x & 3 == 0 then 0x8557F119 else if x & 3 == 1 then 0x4CAF7507 else if x & 3 == 2 then 0xBBEE99DD else 0xFDA37F60)
    else if x & 12 == 4 then (if x & 3 == 0 then 0x9FF70126 else if x & 3 == 1 then 0xBC5C72F5 else if x & 3 == 2 then 0xC544663B else 0x345BFB7E)
    else if x & 12 == 8 then (if x & 3 == 0 then 0x768B4329 else if x & 3 == 1 then 0xDCCB23C6 else if x & 3 == 2 then 0x68B6EDFC else 0x63B8E4F1)
    else (if x & 3 == 0 then 0xCAD731DC else if x & 3 == 1 then 0x10426385 else if x & 3 == 2 then 0x40139722 else 0x2084C611)
  }

  function T6Row9(x: bv8): bv32 {
    if x & 12 == 0 then (if x & 3 == 0 then 0x7D854A24 else if x & 3 == 1 then 0xF8D2BB3D else if x & 3 == 2 then 0x11AEF932 else 0x6DC729A1)
    else if x & 12 == 4 then (if x & 3 == 0 then 0x4B1D9E2F else if x & 3 == 1 then 0xF3DCB230 else if x & 3 == 2 then 0xEC0D8652 else 0xD077C1E3)
    else if x & 12 == 8 then (if x & 3 == 0 then 0x6C2BB316 else if x & 3 == 1 then 0x99A970B9 else if x & 3 == 2 then 0xFA119448 else 0x2247E964)
    else (if x & 3 == 0 then 0xC4A8FC8C else if x & 3 == 1 then 0x1AA0F03F else if x & 3 == 2 then 0xD8567D2C else 0xEF223390)
  }

  function T6RowA(x: bv8): bv32 {
    if x & 12 == 0 then (if x & 3 == 0 then 0xC787494E else if x & 3 == 1 then 0xC1D938D1 else if x & 3 == 2 then 0xFE8CCAA2 else 0x3698D40B)
    else if x & 12 == 4 then (if x & 3 == 0 then 0xCFA6F581 else if x & 3 == 1 then 0x28A57ADE else if x & 3 == 2 then 0x26DAB78E else 0xA43FADBF)
    else if x & 12 == 8 then (if x & 3 == 0 then 0xE42C3A9D else if x & 3 == 1 then 0x0D507892 else if x & 3 == 2 then 0x9B6A5FCC else 0x62547E46)
    else (if x & 3 == 0 then 0xC2F68D13 else if x & 3 == 1 then 0xE890D8B8 else if x & 3 == 2 then 0x5E2E39F7 else 0xF582C3AF)
  }

  function T6RowB(x: bv8): bv32 {
    if x & 12 == 0 then (if x & 3 == 0 then 0xBE9F5D80 else if x & 3 == 1 then 0x7C69D093 else if x & 3 == 2 then 0xA96FD52D else 0xB3CF2512)
    else if x & 12 == 4 then (if x & 3 == 0 then 0x3BC8AC99 else if x & 3 == 1 then 0xA710187D else if x & 3 == 2 then 0x6EE89C63 else 0x7BDB3BBB)
    else if x & 12 == 8 then (if x & 3 == 0 then 0x09CD2678 else if x & 3 == 1 then 0xF46E5918 else if x & 3 == 2 then 0x01EC9AB7 else 0xA8834F9A)
    else (if x & 3 == 0 then 0x65E6956E else if x & 3 == 1 then 0x7EAAFFE6 else if x & 3 == 2 then 0x0821BCCF else 0xE6EF15E8)
  }

  function T6RowC(x: bv8): bv32 {
    if x & 12 == 0 then (if x & 3 == 0 then 0xD9BAE79B else if x & 3 == 1 then 0xCE4A6F36 else if x & 3 == 2 then 0xD4EA9F09 else 0xD629B07C)
    else if x & 12 == 4 then (if x & 3 == 0 then 0xAF31A4B2 else if x & 3 == 1 then 0x312A3F23 else if x & 3 == 2 then 0x30C6A594 else 0xC035A266)
    else if x & 12 == 8 then (if x & 3 == 0 then 0x37744EBC else if x & 3 == 1 then 0xA6FC82CA else if x & 3 == 2 then 0xB0E090D0 else 0x1533A7D8)
    else (if x & 3 == 0 then 0x4AF10498 else if x & 3 == 1 then 0xF741ECDA else if x & 3 == 2 then 0x0E7FCD50 else 0x2F1791F6)
  }

  function T6RowD(x: bv8): bv32 {
    if x & 12 == 0 then (if x & 3 == 0 then 0x8D764DD6 else if x & 3 == 1 then 0x4D43EFB0 else if x & 3 == 2 then 0x54CCAA4D else 0xDFE49604)
    else if x & 12 == 4 then (if x & 3 == 0 then 0xE39ED1B5 else if x & 3 == 1 then 0x1B4C6A88 else if x & 3 == 2 then 0xB8C12C1F else 0x7F466551)
    else if x & 12 == 8 then (if x & 3 == 0 then 0x049D5EEA else if x & 3 == 1 then 0x5D018C35 else if x & 3 == 2 then 0x73FA8774 else 0x2EFB0B41)
    else (if x & 3 == 0 then 0x5AB3671D else if x & 3 == 1 then 0x5292DBD2 else if x & 3 == 2 then 0x33E91056 else 0x136DD647)
  }

  function T6RowE(x: bv8): bv32 {
    if x & 12 == 0 then (if x & 3 == 0 then 0x8C9AD761 else if x & 3 == 1 then 0x7A37A10C else if x & 3 == 2 then 0x8E59F814 else 0x89EB133C)
    else if x & 12 == 4 then (if x & 3 == 0 then 0xEECEA927 else if x & 3 == 1 then 0x35B761C9 else if x & 3 == 2 then 0xEDE11CE5 else 0x3C7A47B1)
    else if x & 12 == 8 then (if x & 3 == 0 then 0x599CD2DF else if x & 3 == 1 then 0x3F55F273 else if x & 3 == 2 then 0x791814CE else 0xBF73C737)
    else (if x & 3 == 0 then 0xEA53F7CD else if x & 3 == 1 then 0x5B5FFDAA else if x & 3 == 2 then 0x14DF3D6F else 0x867844DB)
  }

  function T6RowF(x: bv8): bv32 {
    if x & 12 == 0 then (if x & 3 == 0 then 0x81CAAFF3 else if x & 3 == 1 then 0x3EB968C4 else if x & 3 == 2 then 0x2C382434 else 0x5FC2A340)
    else if x & 12 == 4 then (if x & 3 == 0 then 0x72161DC3 else if x & 3 == 1 then 0x0CBCE225 else if x & 3 == 2 then 0x8B283C49 else 0x41FF0D95)
    else if x & 12 == 8 then (if x & 3 == 0 then 0x7139A801 else if x & 3 == 1 then 0xDE080CB3 else if x & 3 == 2 then 0x9CD8B4E4 else 0x906456C1)
    else (if x & 3 == 0 then 0x617BCB84 else if x & 3 == 1 then 0x70D532B6 else if x & 3 == 2 then 0x74486C5C else 0x42D0B857)
  }

  /** `sm_T6`. */
  function T6(x: bv8): bv32 {
    if x & 0x80 == 0 then
      if x & 0x40 == 0 then
        if x & 0x20 == 0 then
          if x & 0x10 == 0 then T6Row0(x) else T6Row1(x)
        else
          if x & 0x10 == 0 then T6Row2(x) else T6Row3(x)
      else
        if x & 0x20 == 0 then
          if x & 0x10 == 0 then T6Row4(x) else T6Row5(x)
        else
          if x & 0x10 == 0 then T6Row6(x) else T6Row7(x)
    else
      if x & 0x40 == 0 then
        if x & 0x20 == 0 then
          if x & 0x10 == 0 then T6Row8(x) else T6Row9(x)
        else
          if x & 0x10 == 0 then T6RowA(x) else T6RowB(x)
      else
        if x & 0x20 == 0 then
          if x & 0x10 == 0 then T6RowC(x) else T6RowD(x)
        else
          if x & 0x10 == 0 then T6RowE(x) else T6RowF(x)
  }

  function T7Row0(x: bv8): bv32 {
    if x & 12 == 0 then (if x & 3 == 0 then 0xA75051F4 else if x & 3 == 1 then 0x65537E41 else if x & 3 == 2 then 0xA4C31A17 else 0x5E963A27)
    else if x & 12 == 4 then (if x & 3 == 0 then 0x6BCB3BAB else if x & 3 == 1 then 0x45F11F9D else if x & 3 == 2 then 0x58ABACFA else 0x03934BE3)
    else if x & 12 == 8 then (if x & 3 == 0 then 0xFA552030 else if x & 3 == 1 then 0x6DF6AD76 else if x & 3 == 2 then 0x769188CC else 0x4C25F502)
    else (if x & 3 == 0 then 0xD7FC4FE5 else if x & 3 == 1 then 0xCBD7C52A else if x & 3 == 2 then 0x44802635 else 0xA38FB562)
  }

  function T7Row1(x: bv8): bv32 {
    if x & 12 == 0 then (if x & 3 == 0 then 0x5A49DEB1 else if x & 3 == 1 then 0x1B6725BA else if x & 3 == 2 then 0x0E9845EA else 0xC0E15DFE)
    else if x & 12 == 4 then (if x & 3 == 0 then 0x7502C32F else if x & 3 == 1 then 0xF012814C else if x & 3 == 2 then 0x97A38D46 else 0xF9C66BD3)
    else if x & 12 == 8 then (if x & 3 == 0 then 0x5FE7038F else if x & 3 == 1 then 0x9C951592 else if x & 3 == 2 then 0x7AEBBF6D else 0x59DA9552)
    else (if x & 3 == 0 then 0x832DD4BE else if x & 3 == 1 then 0x21D35874 else if x & 3 == 2 then 0x692949E0 else 0xC8448EC9)
  }

  function T7Row2(x: bv8): bv32 {
    if x & 12 == 0 then (if x & 3 == 0 then 0x896A75C2 else if x & 3 == 1 then 0x7978F48E else if x & 3 == 2 then 0x3E6B9958 else 0x71DD27B9)
    else if x & 12 == 4 then (if x & 3 == 0 then 0x4FB6BEE1 else if x & 3 == 1 then 0xAD17F088 else if x & 3 == 2 then 0xAC66C920 else 0x3AB47DCE)
    else if x & 12 == 8 then (if x & 3 == 0 then 0x4A1863DF else if x & 3 == 1 then 0x3182E51A else if x & 3 == 2 then 0x33609751 else 0x7F456253)
    else (if x & 3 == 0 then 0x77E0B164 else if x & 3 == 1 then 0xAE84BB6B else if x & 3 == 2 then 0xA01CFE81 else 0x2B94F908)
  }

  function T7Row3(x: bv8): bv32 {
    if x & 12 == 0 then (if x & 3 == 0 then 0x68587048 else if x & 3 == 1 then 0xFD198F45 else if x & 3 == 2 then 0x6C8794DE else 0xF8B7527B)
    else if x & 12 == 4 then (if x & 3 == 0 then 0xD323AB73 else if x & 3 == 1 then 0x02E2724B else if x & 3 == 2 then 0x8F57E31F else 0xAB2A6655)
    else if x & 12 == 8 then (if x & 3 == 0 then 0x2807B2EB else if x & 3 == 1 then 0xC2032FB5 else if x & 3 == 2 then 0x7B9A86C5 else 0x08A5D337)
    else (if x & 3 == 0 then 0x87F23028 else if x & 3 == 1 then 0xA5B223BF else if x & 3 == 2 then 0x6ABA0203 else 0x825CED16)
  }

  function T7Row4(x: bv8): bv32 {
    if x & 12 == 0 then (if x & 3 == 0 then 0x1C2B8ACF else if x & 3 == 1 then 0xB492A779 else if x & 3 == 2 then 0xF2F0F307 else 0xE2A14E69)
    else if x & 12 == 4 then (if x & 3 == 0 then 0xF4CD65DA else if x & 3 == 1 then 0xBED50605 else if x & 3 == 2 then 0x621FD134 else 0xFE8AC4A6)
    else if x & 12 == 8 then (if x & 3 == 0 then 0x539D342E else if x & 3 == 1 then 0x55A0A2F3 else if x & 3 == 2 then 0xE132058A else 0xEB75A4F6)
    else (if x & 3 == 0 then 0xEC390B83 else if x & 3 == 1 then 0xEFAA4060 else if x & 3 == 2 then 0x9F065E71 else 0x1051BD6E)
  }

  function T7Row5(x: bv8): bv32 {
    if x & 12 == 0 then (if x & 3 == 0 then 0x8AF93E21 else if x & 3 == 1 then 0x063D96DD else if x & 3 == 2 then 0x05AEDD3E else 0xBD464DE6)
    else if x & 12 == 4 then (if x & 3 == 0 then 0x8DB59154 else if x & 3 == 1 then 0x5D0571C4 else if x & 3 == 2 then 0xD46F0406 else 0x15FF6050)
    else if x & 12 == 8 then (if x & 3 == 0 then 0xFB241998 else if x & 3 == 1 then 0xE997D6BD else if x & 3 == 2 then 0x43CC8940 else 0x9E7767D9)
    else (if x & 3 == 0 then 0x42BDB0E8 else if x & 3 == 1 then 0x8B880789 else if x & 3 == 2 then 0x5B38E719 else 0xEEDB79C8)
  }

  function T7Row6(x: bv8): bv32 {
    if x & 12 == 0 then (if x & 3 == 0 then 0x0A47A17C else if x & 3 == 1 then 0x0FE97C42 else if x & 3 == 2 then 0x1EC9F884 else 0x00000000)
    else if x & 12 == 4 then (if x & 3 == 0 then 0x86830980 else if x & 3 == 1 then 0xED48322B else if x & 3 == 2 then 0x70AC1E11 else 0x724E6C5A)
    else if x & 12 == 8 then (if x & 3 == 0 then 0xFFFBFD0E else if x & 3 == 1 then 0x38560F85 else if x & 3 == 2 then 0xD51E3DAE else 0x3927362D)
    else (if x & 3 == 0 then 0xD9640A0F else if x & 3 == 1 then 0xA621685C else if x & 3 == 2 then 0x54D19B5B else 0x2E3A2436)
  }

  function T7Row7(x: bv8): bv32 {
    if x & 12 == 0 then (if x & 3 == 0 then 0x67B10C0A else if x & 3 == 1 then 0xE70F9357 else if x & 3 == 2 then 0x96D2B4EE else 0x919E1B9B)
    else if x & 12 == 4 then (if x & 3 == 0 then 0xC54F80C0 else if x & 3 == 1 then 0x20A261DC else if x & 3 == 2 then 0x4B695A77 else 0x1A161C12)
    else if x & 12 == 8 then (if x & 3 == 0 then 0xBA0AE293 else if x & 3 == 1 then 0x2AE5C0A0 else if x & 3 == 2 then 0xE0433C22 else 0x171D121B)
    else (if x & 3 == 0 then 0x0D0B0E09 else if x & 3 == 1 then 0xC7ADF28B else if x & 3 == 2 then 0xA8B92DB6 else 0xA9C8141E)
  }

  function T7Row8(x: bv8): bv32 {
    if x & 12 == 0 then (if x & 3 == 0 then 0x198557F1 else if x & 3 == 1 then 0x074CAF75 else if x & 3 == 2 then 0xDDBBEE99 else 0x60FDA37F)
    else if x & 12 == 4 then (if x & 3 == 0 then 0x269FF701 else if x & 3 == 1 then 0xF5BC5C72 else if x & 3 == 2 then 0x3BC54466 else 0x7E345BFB)
    else if x & 12 == 8 then (if x & 3 == 0 then 0x29768B43 else if x & 3 == 1 then 0xC6DCCB23 else if x & 3 == 2 then 0xFC68B6ED else 0xF163B8E4)
    else (if x & 3 == 0 then 0xDCCAD731 else if x & 3 == 1 then 0x85104263 else if x & 3 == 2 then 0x22401397 else 0x112084C6)
  }

  function T7Row9(x: bv8): bv32 {
    if x & 12 == 0 then (if x & 3 == 0 then 0x247D854A else if x & 3 == 1 then 0x3DF8D2BB else if x & 3 == 2 then 0x3211AEF9 else 0xA16DC729)
    else if x & 12 == 4 then (if x & 3 == 0 then 0x2F4B1D9E else if x & 3 == 1 then 0x30F3DCB2 else if x & 3 == 2 then 0x52EC0D86 else 0xE3D077C1)
    else if x & 12 == 8 then (if x & 3 == 0 then 0x166C2BB3 else if x & 3 == 1 then 0xB999A970 else if x & 3 == 2 then 0x48FA1194 else 0x642247E9)
    else (if x & 3 == 0 then 0x8CC4A8FC else if x & 3 == 1 then 0x3F1AA0F0 else if x & 3 == 2 then 0x2CD8567D else 0x90EF2233)
  }

  function T7RowA(x: bv8): bv32 {
    if x & 12 == 0 then (if x & 3 == 0 then 0x4EC78749 else if x & 3 == 1 then 0xD1C1D938 else if x & 3 == 2 then 0xA2FE8CCA else 0x0B3698D4)
    else if x & 12 == 4 then (if x & 3 == 0 then 0x81CFA6F5 else if x & 3 == 1 then 0xDE28A57A else if x & 3 == 2 then 0x8E26DAB7 else 0xBFA43FAD)
    else if x & 12 == 8 then (if x & 3 == 0 then 0x9DE42C3A else if x & 3 == 1 then 0x920D5078 else if x & 3 == 2 then 0xCC9B6A5F else 0x4662547E)
    else (if x & 3 == 0 then 0x13C2F68D else if x & 3 == 1 then 0xB8E890D8 else if x & 3 == 2 then 0xF75E2E39 else 0xAFF582C3)
  }

  function T7RowB(x: bv8): bv32 {
    if x & 12 == 0 then (if x & 3 == 0 then 0x80BE9F5D else if x & 3 == 1 then 0x937C69D0 else if x & 3 == 2 then 0x2DA96FD5 else 0x12B3CF25)
    else if x & 12 == 4 then (if x & 3 == 0 then 0x993BC8AC else if x & 3 == 1 then 0x7DA71018 else if x & 3 == 2 then 0x636EE89C else 0xBB7BDB3B)
    else if x & 12 == 8 then (if x & 3 == 0 then 0x7809CD26 else if x & 3 == 1 then 0x18F46E59 else if x & 3 == 2 then 0xB701EC9A else 0x9AA8834F)
    else (if x & 3 == 0 then 0x6E65E695 else if x & 3 == 1 then 0xE67EAAFF else if x & 3 == 2 then 0xCF0821BC else 0xE8E6EF15)
  }

  function T7RowC(x: bv8): bv32 {
    if x & 12 == 0 then (if x & 3 == 0 then 0x9BD9BAE7 else if x & 3 == 1 then 0x36CE4A6F else if x & 3 == 2 then 0x09D4EA9F else 0x7CD629B0)
    else if x & 12 == 4 then (if x & 3 == 0 then 0xB2AF31A4 else if x & 3 == 1 then 0x23312A3F else if x & 3 == 2 then 0x9430C6A5 else 0x66C035A2)
    else if x & 12 == 8 then (if x & 3 == 0 then 0xBC37744E else if x & 3 == 1 then 0xCAA6FC82 else if x & 3 == 2 then 0xD0B0E090 else 0xD81533A7)
    else (if x & 3 == 0 then 0x984AF104 else if x & 3 == 1 then 0xDAF741EC else if x & 3 == 2 then 0x500E7FCD else 0xF62F1791)
  }

  function T7RowD(x: bv8): bv32 {
    if x & 12 == 0 then (if x & 3 == 0 then 0xD68D764D else if x & 3 == 1 then 0xB04D43EF else if x & 3 == 2 then 0x4D54CCAA else 0x04DFE496)
    else if x & 12 == 4 then (if x & 3 == 0 then 0xB5E39ED1 else if x & 3 == 1 then 0x881B4C6A else if x & 3 == 2 then 0x1FB8C12C else 0x517F4665)
    else if x & 12 == 8 then (if x & 3 == 0 then 0xEA049D5E else if x & 3 == 1 then 0x355D018C else if x & 3 == 2 then 0x7473FA87 else 0x412EFB0B)
    else (if x & 3 == 0 then 0x1D5AB367 else if x & 3 == 1 then 0xD25292DB else if x & 3 == 2 then 0x5633E910 else 0x47136DD6)
  }

  function T7RowE(x: bv8): bv32 {
    if x & 12 == 0 then (if x & 3 == 0 then 0x618C9AD7 else if x & 3 == 1 then 0x0C7A37A1 else if x & 3 == 2 then 0x148E59F8 else 0x3C89EB13)
    else if x & 12 == 4 then (if x & 3 == 0 then 0x27EECEA9 else if x & 3 == 1 then 0xC935B761 else if x & 3 == 2 then 0xE5EDE11C else 0xB13C7A47)
    else if x & 12 == 8 then (if x & 3 == 0 then 0xDF599CD2 else if x & 3 == 1 then 0x733F55F2 else if x & 3 == 2 then 0xCE791814 else 0x37BF73C7)
    else (if x & 3 == 0 then 0xCDEA53F7 else if x & 3 == 1 then 0xAA5B5FFD else if x & 3 == 2 then 0x6F14DF3D else 0xDB867844)
  }

  function T7RowF(x: bv8): bv32 {
    if x & 12 == 0 then (if x & 3 == 0 then 0xF381CAAF else if x & 3 == 1 then 0xC43EB968 else if x & 3 == 2 then 0x342C3824 else 0x405FC2A3)
    else if x & 12 == 4 then (if x & 3 == 0 then 0xC372161D else if x & 3 == 1 then 0x250CBCE2 else if x & 3 == 2 then 0x498B283C else 0x9541FF0D)
    else if x & 12 == 8 then (if x & 3 == 0 then 0x017139A8 else if x & 3 == 1 then 0xB3DE080C else if x & 3 == 2 then 0xE49CD8B4 else 0xC1906456)
    else (if x & 3 == 0 then 0x84617BCB else if x & 3 == 1 then 0xB670D532 else if x & 3 == 2 then 0x5C74486C else 0x5742D0B8)
  }

  /** `sm_T7`. */
  function T7(x: bv8): bv32 {
    if x & 0x80 == 0 then
      if x & 0x40 == 0 then
        if x & 0x20 == 0 then
          if x & 0x10 == 0 then T7Row0(x) else T7Row1(x)
        else
          if x & 0x10 == 0 then T7Row2(x) else T7Row3(x)
      else
        if x & 0x20 == 0 then
          if x & 0x10 == 0 then T7Row4(x) else T7Row5(x)
        else
          if x & 0x10 == 0 then T7Row6(x) else T7Row7(x)
    else
      if x & 0x40 == 0 then
        if x & 0x20 == 0 then
          if x & 0x10 == 0 then T7Row8(x) else T7Row9(x)
        else
          if x & 0x10 == 0 then T7RowA(x) else T7RowB(x)
      else
        if x & 0x20 == 0 then
          if x & 0x10 == 0 then T7RowC(x) else T7RowD(x)
        else
          if x & 0x10 == 0 then T7RowE(x) else T7RowF(x)
  }

  function T8Row0(x: bv8): bv32 {
    if x & 12 == 0 then (if x & 3 == 0 then 0xF4A75051 else if x & 3 == 1 then 0x4165537E else if x & 3 == 2 then 0x17A4C31A else 0x275E963A)
    else if x & 12 == 4 then (if x & 3 == 0 then 0xAB6BCB3B else if x & 3 == 1 then 0x9D45F11F else if x & 3 == 2 then 0xFA58ABAC else 0xE303934B)
    else if x & 12 == 8 then (if x & 3 == 0 then 0x30FA5520 else if x & 3 == 1 then 0x766DF6AD else if x & 3 == 2 then 0xCC769188 else 0x024C25F5)
    else (if x & 3 == 0 then 0xE5D7FC4F else if x & 3 == 1 then 0x2ACBD7C5 else if x & 3 == 2 then 0x35448026 else 0x62A38FB5)
  }

  function T8Row1(x: bv8): bv32 {
    if x & 12 == 0 then (if x & 3 == 0 then 0xB15A49DE else if x & 3 == 1 then 0xBA1B6725 else if x & 3 == 2 then 0xEA0E9845 else 0xFEC0E15D)
    else if x & 12 == 4 then (if x & 3 == 0 then 0x2F7502C3 else if x & 3 == 1 then 0x4CF01281 else if x & 3 == 2 then 0x4697A38D else 0xD3F9C66B)
    else if x & 12 == 8 then (if x & 3 == 0 then 0x8F5FE703 else if x & 3 == 1 then 0x929C9515 else if x & 3 == 2 then 0x6D7AEBBF else 0x5259DA95)
    else (if x & 3 == 0 then 0xBE832DD4 else if x & 3 == 1 then 0x7421D358 else if x & 3 == 2 then 0xE0692949 else 0xC9C8448E)
  }

  function T8Row2(x: bv8): bv32 {
    if x & 12 == 0 then (if x & 3 == 0 then 0xC2896A75 else if x & 3 == 1 then 0x8E7978F4 else if x & 3 == 2 then 0x583E6B99 else 0xB971DD27)
    else if x & 12 == 4 then (if x & 3 == 0 then 0xE14FB6BE else if x & 3 == 1 then 0x88AD17F0 else if x & 3 == 2 then 0x20AC66C9 else 0xCE3AB47D)
    else if x & 12 == 8 then (if x & 3 == 0 then 0xDF4A1863 else if x & 3 == 1 then 0x1A3182E5 else if x & 3 == 2 then 0x51336097 else 0x537F4562)
    else (if x & 3 == 0 then 0x6477E0B1 else if x & 3 == 1 then 0x6BAE84BB else if x & 3 == 2 then 0x81A01CFE else 0x082B94F9)
  }

  function T8Row3(x: bv8): bv32 {
    if x & 12 == 0 then (if x & 3 == 0 then 0x48685870 else if x & 3 == 1 then 0x45FD198F else if x & 3 == 2 then 0xDE6C8794 else 0x7BF8B752)
    else if x & 12 == 4 then (if x & 3 == 0 then 0x73D323AB else if x & 3 == 1 then 0x4B02E272 else if x & 3 == 2 then 0x1F8F57E3 else 0x55AB2A66)
    else if x & 12 == 8 then (if x & 3 == 0 then 0xEB2807B2 else if x & 3 == 1 then 0xB5C2032F else if x & 3 == 2 then 0xC57B9A86 else 0x3708A5D3)
    else (if x & 3 == 0 then 0x2887F230 else if x & 3 == 1 then 0xBFA5B223 else if x & 3 == 2 then 0x036ABA02 else 0x16825CED)
  }

  function T8Row4(x: bv8): bv32 {
    if x & 12 == 0 then (if x & 3 == 0 then 0xCF1C2B8A else if x & 3 == 1 then 0x79B492A7 else if x & 3 == 2 then 0x07F2F0F3 else 0x69E2A14E)
    else if x & 12 == 4 then (if x & 3 == 0 then 0xDAF4CD65 else if x & 3 == 1 then 0x05BED506 else if x & 3 == 2 then 0x34621FD1 else 0xA6FE8AC4)
    else if x & 12 == 8 then (if x & 3 == 0 then 0x2E539D34 else if x & 3 == 1 then 0xF355A0A2 else if x & 3 == 2 then 0x8AE13205 else 0xF6EB75A4)
    else (if x & 3 == 0 then 0x83EC390B else if x & 3 == 1 then 0x60EFAA40 else if x & 3 == 2 then 0x719F065E else 0x6E1051BD)
  }

  function T8Row5(x: bv8): bv32 {
    if x & 12 == 0 then (if x & 3 == 0 then 0x218AF93E else if x & 3 == 1 then 0xDD063D96 else if x & 3 == 2 then 0x3E05AEDD else 0xE6BD464D)
    else if x & 12 == 4 then (if x & 3 == 0 then 0x548DB591 else if x & 3 == 1 then 0xC45D0571 else if x & 3 == 2 then 0x06D46F04 else 0x5015FF60)
    else if x & 12 == 8 then (if x & 3 == 0 then 0x98FB2419 else if x & 3 == 1 then 0xBDE997D6 else if x & 3 == 2 then 0x4043CC89 else 0xD99E7767)
    else (if x & 3 == 0 then 0xE842BDB0 else if x & 3 == 1 then 0x898B8807 else if x & 3 == 2 then 0x195B38E7 else 0xC8EEDB79)
  }

  function T8Row6(x: bv8): bv32 {
    if x & 12 == 0 then (if x & 3 == 0 then 0x7C0A47A1 else if x & 3 == 1 then 0x420FE97C else if x & 3 == 2 then 0x841EC9F8 else 0x00000000)
    else if x & 12 == 4 then (if x & 3 == 0 then 0x80868309 else if x & 3 == 1 then 0x2BED4832 else if x & 3 == 2 then 0x1170AC1E else 0x5A724E6C)
    else if x & 12 == 8 then (if x & 3 == 0 then 0x0EFFFBFD else if x & 3 == 1 then 0x8538560F else if x & 3 == 2 then 0xAED51E3D else 0x2D392736)
    else (if x & 3 == 0 then 0x0FD9640A else if x & 3 == 1 then 0x5CA62168 else if x & 3 == 2 then 0x5B54D19B else 0x362E3A24)
  }

  function T8Row7(x: bv8): bv32 {
    if x & 12 == 0 then (if x & 3 == 0 then 0x0A67B10C else if x & 3 == 1 then 0x57E70F93 else if x & 3 == 2 then 0xEE96D2B4 else 0x9B919E1B)
    else if x & 12 == 4 then (if x & 3 == 0 then 0xC0C54F80 else if x & 3 == 1 then 0xDC20A261 else if x & 3 == 2 then 0x774B695A else 0x121A161C)
    else if x & 12 == 8 then (if x & 3 == 0 then 0x93BA0AE2 else if x & 3 == 1 then 0xA02AE5C0 else if x & 3 == 2 then 0x22E0433C else 0x1B171D12)
    else (if x & 3 == 0 then 0x090D0B0E else if x & 3 == 1 then 0x8BC7ADF2 else if x & 3 == 2 then 0xB6A8B92D else 0x1EA9C814)
  }

  function T8Row8(x: bv8): bv32 {
    if x & 12 == 0 then (if x & 3 == 0 then 0xF1198557 else if x & 3 == 1 then 0x75074CAF else if x & 3 == 2 then 0x99DDBBEE else 0x7F60FDA3)
    else if x & 12 == 4 then (if x & 3 == 0 then 0x01269FF7 else if x & 3 == 1 then 0x72F5BC5C else if x & 3 == 2 then 0x663BC544 else 0xFB7E345B)
    else if x & 12 == 8 then (if x & 3 == 0 then 0x4329768B else if x & 3 == 1 then 0x23C6DCCB else if x & 3 == 2 then 0xEDFC68B6 else 0xE4F163B8)
    else (if x & 3 == 0 then 0x31DCCAD7 else if x & 3 == 1 then 0x63851042 else if x & 3 == 2 then 0x97224013 else 0xC6112084)
  }

  function T8Row9(x: bv8): bv32 {
    if x & 12 == 0 then (if x & 3 == 0 then 0x4A247D85 else if x & 3 == 1 then 0xBB3DF8D2 else if x & 3 == 2 then 0xF93211AE else 0x29A16DC7)
    else if x & 12 == 4 then (if x & 3 == 0 then 0x9E2F4B1D else if x & 3 == 1 then 0xB230F3DC else if x & 3 == 2 then 0x8652EC0D else 0xC1E3D077)
    else if x & 12 == 8 then (if x & 3 == 0 then 0xB3166C2B else if x & 3 == 1 then 0x70B999A9 else if x & 3 == 2 then 0x9448FA11 else 0xE9642247)
    else (if x & 3 == 0 then 0xFC8CC4A8 else if x & 3 == 1 then 0xF03F1AA0 else if x & 3 == 2 then 0x7D2CD856 else 0x3390EF22)
  }

  function T8RowA(x: bv8): bv32 {
    if x & 12 == 0 then (if x & 3 == 0 then 0x494EC787 else if x & 3 == 1 then 0x38D1C1D9 else if x & 3 == 2 then 0xCAA2FE8C else 0xD40B3698)
    else if x & 12 == 4 then (if x & 3 == 0 then 0xF581CFA6 else if x & 3 == 1 then 0x7ADE28A5 else if x & 3 == 2 then 0xB78E26DA else 0xADBFA43F)
    else if x & 12 == 8 then (if x & 3 == 0 then 0x3A9DE42C else if x & 3 == 1 then 0x78920D50 else if x & 3 == 2 then 0x5FCC9B6A else 0x7E466254)
    else (if x & 3 == 0 then 0x8D13C2F6 else if x & 3 == 1 then 0xD8B8E890 else if x & 3 == 2 then 0x39F75E2E else 0xC3AFF582)
  }

  function T8RowB(x: bv8): bv32 {
    if x & 12 == 0 then (if x & 3 == 0 then 0x5D80BE9F else if x & 3 == 1 then 0xD0937C69 else if x & 3 == 2 then 0xD52DA96F else 0x2512B3CF)
    else if x & 12 == 4 then (if x & 3 == 0 then 0xAC993BC8 else if x & 3 == 1 then 0x187DA710 else if x & 3 == 2 then 0x9C636EE8 else 0x3BBB7BDB)
    else if x & 12 == 8 then (if x & 3 == 0 then 0x267809CD else if x & 3 == 1 then 0x5918F46E else if x & 3 == 2 then 0x9AB701EC else 0x4F9AA883)
    else (if x & 3 == 0 then 0x956E65E6 else if x & 3 == 1 then 0xFFE67EAA else if x & 3 == 2 then 0xBCCF0821 else 0x15E8E6EF)
  }

  function T8RowC(x: bv8): bv32 {
    if x & 12 == 0 then (if x & 3 == 0 then 0xE79BD9BA else if x & 3 == 1 then 0x6F36CE4A else if x & 3 == 2 then 0x9F09D4EA else 0xB07CD629)
    else if x & 12 == 4 then (if x & 3 == 0 then 0xA4B2AF31 else if x & 3 == 1 then 0x3F23312A else if x & 3 == 2 then 0xA59430C6 else 0xA266C035)
    else if x & 12 == 8 then (if x & 3 == 0 then 0x4EBC3774 else if x & 3 == 1 then 0x82CAA6FC else if x & 3 == 2 then 0x90D0B0E0 else 0xA7D81533)
    else (if x & 3 == 0 then 0x04984AF1 else if x & 3 == 1 then 0xECDAF741 else if x & 3 == 2 then 0xCD500E7F else 0x91F62F17)
  }

  function T8RowD(x: bv8): bv32 {
    if x & 12 == 0 then (if x & 3 == 0 then 0x4DD68D76 else if x & 3 == 1 then 0xEFB04D43 else if x & 3 == 2 then 0xAA4D54CC else 0x9604DFE4)
    else if x & 12 == 4 then (if x & 3 == 0 then 0xD1B5E39E else if x & 3 == 1 then 0x6A881B4C else if x & 3 == 2 then 0x2C1FB8C1 else 0x65517F46)
    else if x & 12 == 8 then (if x & 3 == 0 then 0x5EEA049D else if x & 3 == 1 then 0x8C355D01 else if x & 3 == 2 then 0x877473FA else 0x0B412EFB)
    else (if x & 3 == 0 then 0x671D5AB3 else if x & 3 == 1 then 0xDBD25292 else if x & 3 == 2 then 0x105633E9 else 0xD647136D)
  }

  function T8RowE(x: bv8): bv32 {
    if x & 12 == 0 then (if x & 3 == 0 then 0xD7618C9A else if x & 3 == 1 then 0xA10C7A37 else if x & 3 == 2 then 0xF8148E59 else 0x133C89EB)
    else if x & 12 == 4 then (if x & 3 == 0 then 0xA927EECE else if x & 3 == 1 then 0x61C935B7 else if x & 3 == 2 then 0x1CE5EDE1 else 0x47B13C7A)
    else if x & 12 == 8 then (if x & 3 == 0 then 0xD2DF599C else if x & 3 == 1 then 0xF2733F55 else if x & 3 == 2 then 0x14CE7918 else 0xC737BF73)
    else (if x & 3 == 0 then 0xF7CDEA53 else if x & 3 == 1 then 0xFDAA5B5F else if x & 3 == 2 then 0x3D6F14DF else 0x44DB8678)
  }

  function T8RowF(x: bv8): bv32 {
    if x & 12 == 0 then (if x & 3 == 0 then 0xAFF381CA else if x & 3 == 1 then 0x68C43EB9 else if x & 3 == 2 then 0x24342C38 else 0xA3405FC2)
    else if x & 12 == 4 then (if x & 3 == 0 then 0x1DC37216 else if x & 3 == 1 then 0xE2250CBC else if x & 3 == 2 then 0x3C498B28 else 0x0D9541FF)
    else if x & 12 == 8 then (if x & 3 == 0 then 0xA8017139 else if x & 3 == 1 then 0x0CB3DE08 else if x & 3 == 2 then 0xB4E49CD8 else 0x56C19064)
    else (if x & 3 == 0 then 0xCB84617B else if x & 3 == 1 then 0x32B670D5 else if x & 3 == 2 then 0x6C5C7448 else 0xB85742D0)
  }

  /** `sm_T8`. */
  function T8(x: bv8): bv32 {
    if x & 0x80 == 0 then
      if x & 0x40 == 0 then
        if x & 0x20 == 0 then
          if x & 0x10 == 0 then T8Row0(x) else T8Row1(x)
        else
          if x & 0x10 == 0 then T8Row2(x) else T8Row3(x)
      else
        if x & 0x20 == 0 then
          if x & 0x10 == 0 then T8Row4(x) else T8Row5(x)
        else
          if x & 0x10 == 0 then T8Row6(x) else T8Row7(x)
    else
      if x & 0x40 == 0 then
        if x & 0x20 == 0 then
          if x & 0x10 == 0 then T8Row8(x) else T8Row9(x)
        else
          if x & 0x10 == 0 then T8RowA(x) else T8RowB(x)
      else
        if x & 0x20 == 0 then
          if x & 0x10 == 0 then T8RowC(x) else T8RowD(x)
        else
          if x & 0x10 == 0 then T8RowE(x) else T8RowF(x)
  }
}
