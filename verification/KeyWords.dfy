/** The key schedule seen as the program computes it: a window of one key length that is replaced as a whole in
    every pass, with the round constants taken from a table. */
module KeyWords {
  import opened GaloisField
  import opened Columns
  import opened SBoxTables
  import opened Words
  import opened RijndaelSpec
  import opened BlockCipher

  /** `sm_rcon`. */
  function Rcon(n: nat): bv8
    requires n < 30
  {
    if n < 6 then
      if n == 0 then 0x01 else if n == 1 then 0x02 else if n == 2 then 0x04 else if n == 3 then 0x08 else if n == 4 then 0x10 else 0x20
    else if n < 12 then
      if n == 6 then 0x40 else if n == 7 then 0x80 else if n == 8 then 0x1B else if n == 9 then 0x36 else if n == 10 then 0x6C else 0xD8
    else if n < 18 then
      if n == 12 then 0xAB else if n == 13 then 0x4D else if n == 14 then 0x9A else if n == 15 then 0x2F else if n == 16 then 0x5E else 0xBC
    else if n < 24 then
      if n == 18 then 0x63 else if n == 19 then 0xC6 else if n == 20 then 0x97 else if n == 21 then 0x35 else if n == 22 then 0x6A else 0xD4
    else
      if n == 24 then 0xB3 else if n == 25 then 0x7D else if n == 26 then 0xFA else if n == 27 then 0xEF else if n == 28 then 0xC5 else 0x91
  }

  lemma DoubledEntries()
    ensures Xtime(0x01) == 0x02 && Xtime(0x02) == 0x04 && Xtime(0x04) == 0x08 && Xtime(0x08) == 0x10
    ensures Xtime(0x10) == 0x20 && Xtime(0x20) == 0x40 && Xtime(0x40) == 0x80 && Xtime(0x80) == 0x1B
    ensures Xtime(0x1B) == 0x36 && Xtime(0x36) == 0x6C && Xtime(0x6C) == 0xD8 && Xtime(0xD8) == 0xAB
    ensures Xtime(0xAB) == 0x4D && Xtime(0x4D) == 0x9A && Xtime(0x9A) == 0x2F && Xtime(0x2F) == 0x5E
    ensures Xtime(0x5E) == 0xBC && Xtime(0xBC) == 0x63 && Xtime(0x63) == 0xC6 && Xtime(0xC6) == 0x97
    ensures Xtime(0x97) == 0x35 && Xtime(0x35) == 0x6A && Xtime(0x6A) == 0xD4 && Xtime(0xD4) == 0xB3
    ensures Xtime(0xB3) == 0x7D && Xtime(0x7D) == 0xFA && Xtime(0xFA) == 0xEF && Xtime(0xEF) == 0xC5
    ensures Xtime(0xC5) == 0x91
  {
  }

  lemma RconDoubles(n: nat)
    requires n < 29
    ensures Rcon(n + 1) == Xtime(Rcon(n))
  {
    hide Xtime;
    DoubledEntries();
  }

  /** The table holds the successive powers of x. */
  lemma {:induction false} RconIsPower(n: nat)
    requires n < 30
    ensures Rcon(n) == XtimePow(n)
  {
    hide Xtime;
    if n > 0 {
      RconIsPower(n - 1);
      RconDoubles(n - 1);
    }
  }

  function PhiPack(p0: bv8, p1: bv8, p2: bv8, p3: bv8, rc: bv8): bv32 {
    (p0 as bv32 << 24) ^ (p1 as bv32 << 16) ^ (p2 as bv32 << 8) ^ (p3 as bv32) ^ (rc as bv32 << 24)
  }

  /** The round key evolution function: rotate, substitute, add the round constant. */
  function PhiWord(tt: bv32, rc: bv8): bv32 {
    PhiPack(S(Byte1(tt)), S(Byte2(tt)), S(Byte3(tt)), S(Byte0(tt)), rc)
  }

  function SubPack(p0: bv8, p1: bv8, p2: bv8, p3: bv8): bv32 {
    (p3 as bv32) ^ (p2 as bv32 << 8) ^ (p1 as bv32 << 16) ^ (p0 as bv32 << 24)
  }

  /** The additional substitution in the middle of a pass for the longest keys. */
  function SubWord(tt: bv32): bv32 {
    SubPack(S(Byte0(tt)), S(Byte1(tt)), S(Byte2(tt)), S(Byte3(tt)))
  }

  lemma UnpackPhi(p0: bv8, p1: bv8, p2: bv8, p3: bv8, rc: bv8)
    ensures Unpack(PhiPack(p0, p1, p2, p3, rc)) == AddCol(Col(p0, p1, p2, p3), Col(rc, 0, 0, 0))
  {
  }

  lemma PhiWordMeans(tt: bv32, rc: bv8)
    ensures Unpack(PhiWord(tt, rc)) == AddCol(SubCol(RotCol(Unpack(tt))), Col(rc, 0, 0, 0))
  {
    hide S, PhiPack, AddCol, Byte0, Byte1, Byte2, Byte3;
    UnpackPhi(S(Byte1(tt)), S(Byte2(tt)), S(Byte3(tt)), S(Byte0(tt)), rc);
  }

  lemma SubWordMeans(tt: bv32)
    ensures Unpack(SubWord(tt)) == SubCol(Unpack(tt))
  {
  }

  // ---------------------------------------------------------------- the expanded key, pass by pass

  /** Word `j` of pass `m`. */
  function Word(key: seq<Col>, m: nat, j: nat): Col
    requires |key| > 0
  {
    ExpandedWord(key, |key| * m + j)
  }

  predicate KeyColumns(kc: nat) {
    kc == 4 || kc == 6 || kc == 8
  }

  lemma PassIndex(kc: nat, m: nat, j: nat)
    requires KeyColumns(kc) && j < kc
    ensures (kc * m + j) % kc == j && (kc * m + j) / kc == m
  {
  }

  lemma FirstPass(key: seq<Col>, j: nat)
    requires j < |key|
    ensures Word(key, 0, j) == key[j]
  {
  }

  lemma WordOfPass(key: seq<Col>, m: nat, j: nat)
    requires KeyColumns(|key|) && m > 0 && j < |key|
    ensures j == 0 ==>
              Word(key, m, j) == AddCol(Word(key, m - 1, j),
                                        AddCol(SubCol(RotCol(Word(key, m - 1, |key| - 1))), RoundConstant(m - 1)))
    ensures j > 0 && |key| == 8 && j == 4 ==>
              Word(key, m, j) == AddCol(Word(key, m - 1, j), SubCol(Word(key, m, j - 1)))
    ensures j > 0 && !(|key| == 8 && j == 4) ==>
              Word(key, m, j) == AddCol(Word(key, m - 1, j), Word(key, m, j - 1))
  {
    hide AddCol, SubCol, RotCol, RoundConstant;
    var kc := |key|;
    PassIndex(kc, m, j);
    assert kc * m + j - kc == kc * (m - 1) + j;
    assert kc * m - 1 == kc * (m - 1) + (kc - 1);
  }

  /** Every word has one place in the two-dimensional tables. */
  lemma SlotIndex(bc: nat, i: nat)
    requires bc > 0
    ensures Slot(bc, i / bc, i % bc) == i
  {
  }

  lemma SlotUnique(bc: nat, r: nat, j: nat)
    requires BlockColumns(bc) && j < bc
    ensures Slot(bc, r, j) / bc == r && Slot(bc, r, j) % bc == j
  {
  }

  lemma SlotInRange(bc: nat, nr: nat, r: nat, j: nat)
    requires r <= nr && j < bc
    ensures Slot(bc, r, j) < (nr + 1) * bc
  {
  }

  /** The round constants are never exhausted: a pass that is still needed has a constant left. */
  lemma RconInRange(kc: nat, bc: nat, nr: nat, m: nat)
    requires KeyColumns(kc) && BlockColumns(bc) && nr == RoundCount(kc, bc)
    requires kc * (m + 1) < (nr + 1) * bc
    ensures m < 30
  {
  }
}
