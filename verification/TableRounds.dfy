/** The table-driven forms of the rounds, word by word, and the lemmas that they are the rounds of the
    textbook cipher. */
module TableRounds {
  import opened GaloisField
  import opened Columns
  import opened SBoxTables
  import opened EncryptTables
  import opened DecryptTables
  import opened RoundKeyTables
  import opened Words
  import opened RijndaelSpec

  /** One word of an encryption round. */
  function EncWord(w0: bv32, w1: bv32, w2: bv32, w3: bv32, k: bv32): bv32 {
    Xor(Xor4(T1(Byte0(w0)), T2(Byte1(w1)), T3(Byte2(w2)), T4(Byte3(w3))), k)
  }

  /** One word of a decryption round. */
  function DecWord(w0: bv32, w1: bv32, w2: bv32, w3: bv32, k: bv32): bv32 {
    Xor(Xor4(T5(Byte0(w0)), T6(Byte1(w1)), T7(Byte2(w2)), T8(Byte3(w3))), k)
  }

  /** One word of a decryption round key, from the encryption round key. */
  function InvMixWord(w: bv32): bv32 {
    Xor4(U1(Byte0(w)), U2(Byte1(w)), U3(Byte2(w)), U4(Byte3(w)))
  }

  /** The diagonal that the row rotation moves into column `i`. */
  function Gather(o: Offsets, s: State, i: nat): Col
    requires i < |s|
  {
    Col(s[i].b0, s[Turn(i, o.s1, |s|)].b1, s[Turn(i, o.s2, |s|)].b2, s[Turn(i, o.s3, |s|)].b3)
  }

  /** The state held in a sequence of words. */
  function ColumnsOf(w: seq<bv32>): (s: State)
    ensures |s| == |w|
  {
    seq(|w|, i requires 0 <= i < |w| => Unpack(w[i]))
  }

  /** The diagonals of the state that is held in words. */
  lemma GatherWords(o: Offsets, w: seq<bv32>, i: nat)
    requires i < |w|
    ensures Gather(o, ColumnsOf(w), i)
         == Col(Unpack(w[i]).b0, Unpack(w[Turn(i, o.s1, |w|)]).b1, Unpack(w[Turn(i, o.s2, |w|)]).b2, Unpack(w[Turn(i, o.s3, |w|)]).b3)
  {
    hide Unpack, Turn;
  }

  lemma EncWordMeans(w0: bv32, w1: bv32, w2: bv32, w3: bv32, k: bv32)
    ensures Unpack(EncWord(w0, w1, w2, w3, k))
         == AddCol(MixCol(SubCol(Col(Unpack(w0).b0, Unpack(w1).b1, Unpack(w2).b2, Unpack(w3).b3))), Unpack(k))
  {
    hide T1, T2, T3, T4, S, Byte0, Byte1, Byte2, Byte3, Xor, Xor4, AddCol, MixCol;
    EncryptLookup(Byte0(w0), Byte1(w1), Byte2(w2), Byte3(w3));
    UnpackXor(Xor4(T1(Byte0(w0)), T2(Byte1(w1)), T3(Byte2(w2)), T4(Byte3(w3))), k);
  }

  lemma DecWordMeans(w0: bv32, w1: bv32, w2: bv32, w3: bv32, k: bv32)
    ensures Unpack(DecWord(w0, w1, w2, w3, k))
         == AddCol(InvMixCol(InvSubCol(Col(Unpack(w0).b0, Unpack(w1).b1, Unpack(w2).b2, Unpack(w3).b3))), Unpack(k))
  {
    hide T5, T6, T7, T8, Si, Byte0, Byte1, Byte2, Byte3, Xor, Xor4, AddCol, InvMixCol;
    DecryptLookup(Byte0(w0), Byte1(w1), Byte2(w2), Byte3(w3));
    UnpackXor(Xor4(T5(Byte0(w0)), T6(Byte1(w1)), T7(Byte2(w2)), T8(Byte3(w3))), k);
  }

  lemma InvMixWordMeans(w: bv32)
    ensures Unpack(InvMixWord(w)) == InvMixCol(Unpack(w))
  {
    hide U1, U2, U3, U4, Byte0, Byte1, Byte2, Byte3, Xor4, InvMixCol;
    RoundKeyLookup(Byte0(w), Byte1(w), Byte2(w), Byte3(w));
  }

  /** A state whose columns are table lookups on the diagonals is one round further on. */
  lemma EncRoundFromWords(cur: State, key: State, next: State)
    requires |cur| == |key| == |next|
    requires forall i | 0 <= i < |cur| :: next[i] == AddCol(MixCol(SubCol(Gather(EncOffsets(|cur|), cur, i))), key[i])
    ensures next == AddRoundKey(MixColumns(ShiftRows(SubBytes(cur))), key)
  {
    hide S, MixCol, AddCol, EncOffsets, Turn;
  }

  lemma DecRoundFromWords(cur: State, key: State, next: State)
    requires |cur| == |key| == |next|
    requires forall i | 0 <= i < |cur| :: next[i] == AddCol(InvMixCol(InvSubCol(Gather(DecOffsets(|cur|), cur, i))), key[i])
    ensures next == AddRoundKey(InvMixColumns(InvShiftRows(InvSubBytes(cur))), key)
  {
    hide Si, InvMixCol, AddCol, DecOffsets, Turn;
  }

  lemma EncLastFromWords(cur: State, key: State, next: State)
    requires |cur| == |key| == |next|
    requires forall i | 0 <= i < |cur| :: next[i] == AddCol(SubCol(Gather(EncOffsets(|cur|), cur, i)), key[i])
    ensures next == AddRoundKey(ShiftRows(SubBytes(cur)), key)
  {
    hide S, AddCol, EncOffsets, Turn;
  }

  lemma DecLastFromWords(cur: State, key: State, next: State)
    requires |cur| == |key| == |next|
    requires forall i | 0 <= i < |cur| :: next[i] == AddCol(InvSubCol(Gather(DecOffsets(|cur|), cur, i)), key[i])
    ensures next == AddRoundKey(InvShiftRows(InvSubBytes(cur)), key)
  {
    hide Si, AddCol, DecOffsets, Turn;
  }

  /** The four bytes that the last round stores for one column. */
  lemma LastEncMeans(w0: bv32, w1: bv32, w2: bv32, w3: bv32, k: bv32)
    ensures Col(Add(S(Byte0(w0)), Byte0(k)), Add(S(Byte1(w1)), Byte1(k)),
                Add(S(Byte2(w2)), Byte2(k)), Add(S(Byte3(w3)), Byte3(k)))
         == AddCol(SubCol(Col(Unpack(w0).b0, Unpack(w1).b1, Unpack(w2).b2, Unpack(w3).b3)), Unpack(k))
  {
    hide S, Add, Byte0, Byte1, Byte2, Byte3;
  }

  lemma LastDecMeans(w0: bv32, w1: bv32, w2: bv32, w3: bv32, k: bv32)
    ensures Col(Add(Si(Byte0(w0)), Byte0(k)), Add(Si(Byte1(w1)), Byte1(k)),
                Add(Si(Byte2(w2)), Byte2(k)), Add(Si(Byte3(w3)), Byte3(k)))
         == AddCol(InvSubCol(Col(Unpack(w0).b0, Unpack(w1).b1, Unpack(w2).b2, Unpack(w3).b3)), Unpack(k))
  {
    hide Si, Add, Byte0, Byte1, Byte2, Byte3;
  }

  // ---------------------------------------------------------------- blocks of four columns

  lemma GatherFour(o: Offsets, s: State)
    requires |s| == 4
    ensures o == EncOffsets(4) ==>
              && Gather(o, s, 0) == Col(s[0].b0, s[1].b1, s[2].b2, s[3].b3)
              && Gather(o, s, 1) == Col(s[1].b0, s[2].b1, s[3].b2, s[0].b3)
              && Gather(o, s, 2) == Col(s[2].b0, s[3].b1, s[0].b2, s[1].b3)
              && Gather(o, s, 3) == Col(s[3].b0, s[0].b1, s[1].b2, s[2].b3)
    ensures o == DecOffsets(4) ==>
              && Gather(o, s, 0) == Col(s[0].b0, s[3].b1, s[2].b2, s[1].b3)
              && Gather(o, s, 1) == Col(s[1].b0, s[0].b1, s[3].b2, s[2].b3)
              && Gather(o, s, 2) == Col(s[2].b0, s[1].b1, s[0].b2, s[3].b3)
              && Gather(o, s, 3) == Col(s[3].b0, s[2].b1, s[1].b2, s[0].b3)
  {
  }

  lemma EncRoundOfFour(s: State, key: State, n: State)
    requires |s| == |key| == |n| == 4
    requires n[0] == AddCol(MixCol(SubCol(Col(s[0].b0, s[1].b1, s[2].b2, s[3].b3))), key[0])
    requires n[1] == AddCol(MixCol(SubCol(Col(s[1].b0, s[2].b1, s[3].b2, s[0].b3))), key[1])
    requires n[2] == AddCol(MixCol(SubCol(Col(s[2].b0, s[3].b1, s[0].b2, s[1].b3))), key[2])
    requires n[3] == AddCol(MixCol(SubCol(Col(s[3].b0, s[0].b1, s[1].b2, s[2].b3))), key[3])
    ensures n == AddRoundKey(MixColumns(ShiftRows(SubBytes(s))), key)
  {
    hide AddCol, MixCol, SubCol, EncOffsets, Gather, MixColumns, ShiftRows, SubBytes;
    GatherFour(EncOffsets(4), s);
    EncRoundFromWords(s, key, n);
  }

  lemma DecRoundOfFour(s: State, key: State, n: State)
    requires |s| == |key| == |n| == 4
    requires n[0] == AddCol(InvMixCol(InvSubCol(Col(s[0].b0, s[3].b1, s[2].b2, s[1].b3))), key[0])
    requires n[1] == AddCol(InvMixCol(InvSubCol(Col(s[1].b0, s[0].b1, s[3].b2, s[2].b3))), key[1])
    requires n[2] == AddCol(InvMixCol(InvSubCol(Col(s[2].b0, s[1].b1, s[0].b2, s[3].b3))), key[2])
    requires n[3] == AddCol(InvMixCol(InvSubCol(Col(s[3].b0, s[2].b1, s[1].b2, s[0].b3))), key[3])
    ensures n == AddRoundKey(InvMixColumns(InvShiftRows(InvSubBytes(s))), key)
  {
    hide AddCol, InvMixCol, InvSubCol, DecOffsets, Gather, InvMixColumns, InvShiftRows, InvSubBytes;
    GatherFour(DecOffsets(4), s);
    DecRoundFromWords(s, key, n);
  }

  lemma EncLastOfFour(s: State, key: State, n: State)
    requires |s| == |key| == |n| == 4
    requires n[0] == AddCol(SubCol(Col(s[0].b0, s[1].b1, s[2].b2, s[3].b3)), key[0])
    requires n[1] == AddCol(SubCol(Col(s[1].b0, s[2].b1, s[3].b2, s[0].b3)), key[1])
    requires n[2] == AddCol(SubCol(Col(s[2].b0, s[3].b1, s[0].b2, s[1].b3)), key[2])
    requires n[3] == AddCol(SubCol(Col(s[3].b0, s[0].b1, s[1].b2, s[2].b3)), key[3])
    ensures n == AddRoundKey(ShiftRows(SubBytes(s)), key)
  {
    hide AddCol, SubCol, EncOffsets, Gather, ShiftRows, SubBytes;
    GatherFour(EncOffsets(4), s);
    EncLastFromWords(s, key, n);
  }

  lemma DecLastOfFour(s: State, key: State, n: State)
    requires |s| == |key| == |n| == 4
    requires n[0] == AddCol(InvSubCol(Col(s[0].b0, s[3].b1, s[2].b2, s[1].b3)), key[0])
    requires n[1] == AddCol(InvSubCol(Col(s[1].b0, s[0].b1, s[3].b2, s[2].b3)), key[1])
    requires n[2] == AddCol(InvSubCol(Col(s[2].b0, s[1].b1, s[0].b2, s[3].b3)), key[2])
    requires n[3] == AddCol(InvSubCol(Col(s[3].b0, s[2].b1, s[1].b2, s[0].b3)), key[3])
    ensures n == AddRoundKey(InvShiftRows(InvSubBytes(s)), key)
  {
    hide AddCol, InvSubCol, DecOffsets, Gather, InvShiftRows, InvSubBytes;
    GatherFour(DecOffsets(4), s);
    DecLastFromWords(s, key, n);
  }
}
