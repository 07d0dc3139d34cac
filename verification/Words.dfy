/** The program's 32-bit integers as columns, and what its twelve 32-bit lookup tables hold. */
module Words {
  import opened GaloisField
  import opened Columns
  import opened SBoxTables
  import opened EncryptTables
  import opened DecryptTables
  import opened RoundKeyTables

  /** Four bytes as one integer, the first byte in the high-order position. */
  function Pack(c: Col): bv32 {
    (c.b0 as bv32 << 24) | (c.b1 as bv32 << 16) | (c.b2 as bv32 << 8) | c.b3 as bv32
  }

  function Byte0(w: bv32): bv8 { ((w >> 24) & 0xFF) as bv8 }
  function Byte1(w: bv32): bv8 { ((w >> 16) & 0xFF) as bv8 }
  function Byte2(w: bv32): bv8 { ((w >> 8) & 0xFF) as bv8 }
  function Byte3(w: bv32): bv8 { (w & 0xFF) as bv8 }

  function Unpack(w: bv32): Col {
    Col(Byte0(w), Byte1(w), Byte2(w), Byte3(w))
  }

  lemma UnpackPack(c: Col)
    ensures Unpack(Pack(c)) == c
  {
  }

  /** The program's `^` on integers. */
  function Xor(v: bv32, w: bv32): bv32 {
    v ^ w
  }

  function Xor4(a: bv32, b: bv32, c: bv32, d: bv32): bv32 {
    Xor(Xor(Xor(a, b), c), d)
  }

  lemma UnpackXor(v: bv32, w: bv32)
    ensures Unpack(Xor(v, w)) == AddCol(Unpack(v), Unpack(w))
  {
  }

  // ---------------------------------------------------------------- table entries

  lemma T1Entry(x: bv8)
    ensures T1(x) == Pack(Part0(MIX, S(x)))
  {
    var s := S(x);
    var x1 := Xtime(s);
    assert T1(x) == Pack(Col(x1, s, s, Add(s, x1)));
    ProductsByConstants(s);
  }

  lemma T2Entry(x: bv8)
    ensures T2(x) == Pack(Part1(MIX, S(x)))
  {
    var s := S(x);
    var x1 := Xtime(s);
    assert T2(x) == Pack(Col(Add(s, x1), x1, s, s));
    ProductsByConstants(s);
  }

  lemma T3Entry(x: bv8)
    ensures T3(x) == Pack(Part2(MIX, S(x)))
  {
    var s := S(x);
    var x1 := Xtime(s);
    assert T3(x) == Pack(Col(s, Add(s, x1), x1, s));
    ProductsByConstants(s);
  }

  lemma T4Entry(x: bv8)
    ensures T4(x) == Pack(Part3(MIX, S(x)))
  {
    var s := S(x);
    var x1 := Xtime(s);
    assert T4(x) == Pack(Col(s, s, Add(s, x1), x1));
    ProductsByConstants(s);
  }

  lemma U1Entry(x: bv8)
    ensures U1(x) == Pack(Part0(INV_MIX, x))
  {
    var x1 := Xtime(x);
    var x2 := Xtime(x1);
    var x3 := Xtime(x2);
    assert U1(x) == Pack(Col(Add(x1, Add(x2, x3)), Add(x, x3), Add(x, Add(x2, x3)), Add(x, Add(x1, x3))));
    ProductsByConstants(x);
  }

  lemma T5Entry(x: bv8)
    ensures T5(x) == Pack(Part0(INV_MIX, Si(x)))
  {
    assert T5(x) == U1(Si(x));
    U1Entry(Si(x));
  }

  lemma U2Entry(x: bv8)
    ensures U2(x) == Pack(Part1(INV_MIX, x))
  {
    var x1 := Xtime(x);
    var x2 := Xtime(x1);
    var x3 := Xtime(x2);
    assert U2(x) == Pack(Col(Add(x, Add(x1, x3)), Add(x1, Add(x2, x3)), Add(x, x3), Add(x, Add(x2, x3))));
    ProductsByConstants(x);
  }

  lemma T6Entry(x: bv8)
    ensures T6(x) == Pack(Part1(INV_MIX, Si(x)))
  {
    assert T6(x) == U2(Si(x));
    U2Entry(Si(x));
  }

  lemma U3Entry(x: bv8)
    ensures U3(x) == Pack(Part2(INV_MIX, x))
  {
    var x1 := Xtime(x);
    var x2 := Xtime(x1);
    var x3 := Xtime(x2);
    assert U3(x) == Pack(Col(Add(x, Add(x2, x3)), Add(x, Add(x1, x3)), Add(x1, Add(x2, x3)), Add(x, x3)));
    ProductsByConstants(x);
  }

  lemma T7Entry(x: bv8)
    ensures T7(x) == Pack(Part2(INV_MIX, Si(x)))
  {
    assert T7(x) == U3(Si(x));
    U3Entry(Si(x));
  }

  lemma U4Entry(x: bv8)
    ensures U4(x) == Pack(Part3(INV_MIX, x))
  {
    var x1 := Xtime(x);
    var x2 := Xtime(x1);
    var x3 := Xtime(x2);
    assert U4(x) == Pack(Col(Add(x, x3), Add(x, Add(x2, x3)), Add(x, Add(x1, x3)), Add(x1, Add(x2, x3))));
    ProductsByConstants(x);
  }

  lemma T8Entry(x: bv8)
    ensures T8(x) == Pack(Part3(INV_MIX, Si(x)))
  {
    assert T8(x) == U4(Si(x));
    U4Entry(Si(x));
  }

  // ---------------------------------------------------------------- four lookups make one mixed column

  /** Four packed parts of a product combine to the product in packed form. */
  lemma UnpackParts(p: Col, c: Col)
    ensures Unpack(Xor4(Pack(Part0(p, c.b0)), Pack(Part1(p, c.b1)), Pack(Part2(p, c.b2)), Pack(Part3(p, c.b3))))
         == Circulant(p, c)
  {
    hide Unpack, Pack, AddCol, Xor, Part0, Part1, Part2, Part3, Circulant;
    var w0, w1 := Pack(Part0(p, c.b0)), Pack(Part1(p, c.b1));
    var w2, w3 := Pack(Part2(p, c.b2)), Pack(Part3(p, c.b3));
    UnpackXor(w0, w1);
    UnpackXor(Xor(w0, w1), w2);
    UnpackXor(Xor(Xor(w0, w1), w2), w3);
    UnpackPack(Part0(p, c.b0));
    UnpackPack(Part1(p, c.b1));
    UnpackPack(Part2(p, c.b2));
    UnpackPack(Part3(p, c.b3));
    SumOfParts(p, c);
  }

  /** Four lookups in T1 to T4 substitute four bytes and mix them into a column. */
  lemma EncryptLookup(a: bv8, b: bv8, c: bv8, d: bv8)
    ensures Unpack(Xor4(T1(a), T2(b), T3(c), T4(d))) == MixCol(Col(S(a), S(b), S(c), S(d)))
  {
    hide T1, T2, T3, T4, S, Unpack, Pack, Xor4, Part0, Part1, Part2, Part3, Circulant;
    T1Entry(a);
    T2Entry(b);
    T3Entry(c);
    T4Entry(d);
    UnpackParts(MIX, Col(S(a), S(b), S(c), S(d)));
  }

  /** Four lookups in T5 to T8 substitute four bytes back and unmix them. */
  lemma DecryptLookup(a: bv8, b: bv8, c: bv8, d: bv8)
    ensures Unpack(Xor4(T5(a), T6(b), T7(c), T8(d))) == InvMixCol(Col(Si(a), Si(b), Si(c), Si(d)))
  {
    hide T5, T6, T7, T8, Si, Unpack, Pack, Xor4, Part0, Part1, Part2, Part3, Circulant;
    T5Entry(a);
    T6Entry(b);
    T7Entry(c);
    T8Entry(d);
    UnpackParts(INV_MIX, Col(Si(a), Si(b), Si(c), Si(d)));
  }

  /** Four lookups in U1 to U4 apply the inverse column mixing. */
  lemma RoundKeyLookup(a: bv8, b: bv8, c: bv8, d: bv8)
    ensures Unpack(Xor4(U1(a), U2(b), U3(c), U4(d))) == InvMixCol(Col(a, b, c, d))
  {
    hide U1, U2, U3, U4, Unpack, Pack, Xor4, Part0, Part1, Part2, Part3, Circulant;
    U1Entry(a);
    U2Entry(b);
    U3Entry(c);
    U4Entry(d);
    UnpackParts(INV_MIX, Col(a, b, c, d));
  }
}
