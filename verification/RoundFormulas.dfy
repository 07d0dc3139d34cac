/** The cipher and its key schedule in the terms of the source: bytes, the literal tables, and numbers. */
module RoundFormulas {
  import opened GaloisField
  import opened Columns
  import opened SBoxTables
  import opened EncryptTables
  import opened DecryptTables
  import opened RoundKeyTables
  import opened Words
  import opened RijndaelSpec
  import opened BlockCipher
  import opened KeyWords

  // ---------------------------------------------------------------- blocks and round keys

  /** A block is read and written column by column. */
  lemma BlockBytes(b: Bytes, i: nat)
    requires |b| % 4 == 0 && 4 * i + 4 <= |b|
    ensures var s := ToState(b);
            i < |s| && s[i].b0 == b[4 * i] && s[i].b1 == b[4 * i + 1] && s[i].b2 == b[4 * i + 2] && s[i].b3 == b[4 * i + 3]
  {
  }

  lemma StateBytes(s: State, i: nat)
    requires i < |s|
    ensures var b := FromState(s);
            b[4 * i] == s[i].b0 && b[4 * i + 1] == s[i].b1 && b[4 * i + 2] == s[i].b2 && b[4 * i + 3] == s[i].b3
  {
  }

  /** Word `n` of the round keys, as `m_Ke` holds it. */
  function RoundWord(k: Schedule, n: nat): Col
    requires k.WellFormed() && n < (k.nr + 1) * k.bc
  {
    RowInRange(k.bc, k.nr, n);
    k.ke[n / k.bc][n % k.bc]
  }

  lemma RowInRange(bc: nat, nr: nat, n: nat)
    requires BlockColumns(bc) && n < (nr + 1) * bc
    ensures n / bc <= nr && n % bc < bc
  {
  }

  lemma RoundWordIs(key: Bytes, size: nat, n: nat)
    requires LegalLength(|key|) && LegalLength(size)
    requires var k := ExpandKey(key, size); n < (k.nr + 1) * k.bc
    ensures RoundWord(ExpandKey(key, size), n) == ExpandedWord(ToState(key), n)
  {
    hide DecryptKeys, ExpandedWord, ToState;
    var k := ExpandKey(key, size);
    RowInRange(k.bc, k.nr, n);
    SlotIndex(k.bc, n);
  }

  /** The expanded key starts with the key. */
  lemma FirstWords(key: Bytes, size: nat, n: nat)
    requires (|key| == 16 || |key| == 24 || |key| == 32) && (size == 16 || size == 24 || size == 32) && 4 * n < |key|
    requires var k := ExpandKey(key, size); n < (k.nr + 1) * k.bc
    ensures RoundWord(ExpandKey(key, size), n) == Col(key[4 * n], key[4 * n + 1], key[4 * n + 2], key[4 * n + 3])
  {
    hide ExpandKey, DecryptKeys, RoundWord;
    RoundWordIs(key, size, n);
    BlockBytes(key, n);
  }

  /** The word that starts pass `m`: through the substitution, rotated, and with the constant of the pass from the table. */
  lemma WordOfNewPass(key: Bytes, size: nat, n: nat, m: nat)
    requires (|key| == 16 || |key| == 24 || |key| == 32) && (size == 16 || size == 24 || size == 32)
    requires 4 * n >= |key| && n == |key| / 4 * m
    requires var k := ExpandKey(key, size); n < (k.nr + 1) * k.bc
    ensures 1 <= m <= 30
    ensures var k := ExpandKey(key, size);
            var back, last := RoundWord(k, n - |key| / 4), RoundWord(k, n - 1);
            RoundWord(k, n) == Col(Add(back.b0, Add(S(last.b1), Rcon(m - 1))), Add(back.b1, S(last.b2)),
                                   Add(back.b2, S(last.b3)), Add(back.b3, S(last.b0)))
  {
    hide S, Rcon, Add, ExpandKey, DecryptKeys, RoundWord, ToState, ExpandedWord;
    var k, kc := ExpandKey(key, size), |key| / 4;
    assert m >= 1;
    RconInRange(kc, k.bc, k.nr, m - 1);
    RoundWordIs(key, size, n);
    RoundWordIs(key, size, n - kc);
    RoundWordIs(key, size, n - 1);
    PassStarts(ToState(key), m);
  }

  /** A word in the middle of a pass of eight: through the substitution. */
  lemma WordOfHalfPass(key: Bytes, size: nat, n: nat)
    requires |key| == 32 && (size == 16 || size == 24 || size == 32)
    requires n > 8 && n % 8 == 4
    requires var k := ExpandKey(key, size); n < (k.nr + 1) * k.bc
    ensures var k := ExpandKey(key, size);
            var back, last := RoundWord(k, n - 8), RoundWord(k, n - 1);
            RoundWord(k, n) == Col(Add(back.b0, S(last.b0)), Add(back.b1, S(last.b1)),
                                   Add(back.b2, S(last.b2)), Add(back.b3, S(last.b3)))
  {
    hide S, Add, ExpandKey, DecryptKeys, RoundWord, RotCol, RoundConstant;
    RoundWordIs(key, size, n);
    RoundWordIs(key, size, n - 8);
    RoundWordIs(key, size, n - 1);
  }

  /** Any other word: the sum of the one a pass back and the one before. */
  lemma WordInPass(key: Bytes, size: nat, n: nat)
    requires (|key| == 16 || |key| == 24 || |key| == 32) && (size == 16 || size == 24 || size == 32)
    requires 4 * n > |key| && n % (|key| / 4) != 0 && !(|key| == 32 && n % 8 == 4)
    requires var k := ExpandKey(key, size); n < (k.nr + 1) * k.bc
    ensures var k := ExpandKey(key, size);
            var back, last := RoundWord(k, n - |key| / 4), RoundWord(k, n - 1);
            RoundWord(k, n) == Col(Add(back.b0, last.b0), Add(back.b1, last.b1), Add(back.b2, last.b2), Add(back.b3, last.b3))
  {
    hide S, Add, ExpandKey, DecryptKeys, RoundWord, RotCol, RoundConstant;
    RoundWordIs(key, size, n);
    RoundWordIs(key, size, n - |key| / 4);
    RoundWordIs(key, size, n - 1);
  }

  /** The first word of a pass over the window `tk`, from the literal tables. */
  lemma PassStarts(key: seq<Col>, m: nat)
    requires KeyColumns(|key|) && 0 < m <= 30
    ensures var back, w := ExpandedWord(key, |key| * m - |key|), ExpandedWord(key, |key| * m - 1);
            ExpandedWord(key, |key| * m) ==
              Col(Add(back.b0, Add(S(w.b1), Rcon(m - 1))), Add(back.b1, S(w.b2)), Add(back.b2, S(w.b3)), Add(back.b3, S(w.b0)))
  {
    hide S, Rcon, Add, XtimePow;
    PassIndex(|key|, m, 0);
    RconIsPower(m - 1);
    var w := ExpandedWord(key, |key| * m - 1);
    AddZero(S(w.b2));
    AddZero(S(w.b3));
    AddZero(S(w.b0));
  }

  /** The decryption keys: the rounds in reverse, the inner ones through the tables U1 to U4. */
  lemma DecryptionKey(k: Schedule, r: nat, j: nat)
    requires k.Matched() && r <= k.nr && j < k.bc
    ensures var c := k.ke[k.nr - r][j];
            k.kd[r][j] == if r == 0 || r == k.nr then c else Unpack(Xor4(U1(c.b0), U2(c.b1), U3(c.b2), U4(c.b3)))
  {
    hide U1, U2, U3, U4, Unpack, InvMixCol;
    var c := k.ke[k.nr - r][j];
    RoundKeyLookup(c.b0, c.b1, c.b2, c.b3);
    assert 0 < r < k.nr ==> k.kd[r][j] == InvMixColumns(k.ke[k.nr - r])[j] == InvMixCol(c);
  }

  /** What the sums stand for. */
  lemma SumsAreXors(a: bv8, b: bv8, v: bv32, w: bv32)
    ensures Add(a, b) == a ^ b
    ensures Xor(v, w) == v ^ w
  {
  }

  lemma SumOfFour(v: bv32, w: bv32, x: bv32, y: bv32)
    ensures Xor4(v, w, x, y) == Xor(Xor(Xor(v, w), x), y)
  {
  }

  // ---------------------------------------------------------------- encryption

  /** The rows turn by 0, 1, 2, 3, and in blocks of eight columns by 0, 1, 3, 4. */
  lemma SubstitutedAndTurned(t: State, i: nat)
    requires (|t| == 4 || |t| == 6 || |t| == 8) && i < |t|
    ensures var n := |t|;
            ShiftRows(SubBytes(t))[i] ==
              Col(S(t[i].b0), S(t[(i + 1) % n].b1),
                  S(t[(i + if n == 8 then 3 else 2) % n].b2), S(t[(i + if n == 8 then 4 else 3) % n].b3))
  {
    hide S;
  }

  /** The first state is the block with the first round key added. */
  lemma FirstState(bc: nat, nr: nat, ke: seq<State>, s: State, i: nat)
    requires WellFormedKeys(bc, nr, ke) && |s| == bc && i < bc
    ensures Rounds(bc, nr, ke, s, 0)[i] == AddCol(s[i], ke[0][i])
  {
    hide AddCol;
  }

  /** Every further state but the last, by the tables T1 to T4, with the numbers of the shift table. */
  lemma NextState(bc: nat, nr: nat, ke: seq<State>, s: State, r: nat, i: nat)
    requires (bc == 4 || bc == 6 || bc == 8) && WellFormedKeys(bc, nr, ke) && |s| == bc && 0 < r < nr && i < bc
    ensures var t := Rounds(bc, nr, ke, s, r - 1);
            var a, b := t[i].b0, t[(i + 1) % bc].b1;
            var c, d := t[(i + if bc == 8 then 3 else 2) % bc].b2, t[(i + if bc == 8 then 4 else 3) % bc].b3;
            Rounds(bc, nr, ke, s, r)[i] == AddCol(Unpack(Xor4(T1(a), T2(b), T3(c), T4(d))), ke[r][i])
  {
    hide T1, T2, T3, T4, S, MixCol, Unpack, Xor4, AddCol, ShiftRows, SubBytes;
    var t := Rounds(bc, nr, ke, s, r - 1);
    var a, b := t[i].b0, t[(i + 1) % bc].b1;
    var c, d := t[(i + if bc == 8 then 3 else 2) % bc].b2, t[(i + if bc == 8 then 4 else 3) % bc].b3;
    EncryptLookup(a, b, c, d);
    SubstitutedAndTurned(t, i);
  }

  /** The last state, by the substitution table. */
  lemma LastState(bc: nat, nr: nat, ke: seq<State>, s: State, i: nat)
    requires (bc == 4 || bc == 6 || bc == 8) && WellFormedKeys(bc, nr, ke) && |s| == bc && i < bc
    ensures var t := Rounds(bc, nr, ke, s, nr - 1);
            var a, b := t[i].b0, t[(i + 1) % bc].b1;
            var c, d := t[(i + if bc == 8 then 3 else 2) % bc].b2, t[(i + if bc == 8 then 4 else 3) % bc].b3;
            Cipher(bc, nr, ke, s)[i] == AddCol(Col(S(a), S(b), S(c), S(d)), ke[nr][i])
  {
    hide S, AddCol, ShiftRows, SubBytes, Rounds;
    SubstitutedAndTurned(Rounds(bc, nr, ke, s, nr - 1), i);
  }

  // ---------------------------------------------------------------- decryption

  /** The rows turn back. */
  lemma SubstitutedAndTurnedBack(t: State, i: nat)
    requires (|t| == 4 || |t| == 6 || |t| == 8) && i < |t|
    ensures var n := |t|;
            InvShiftRows(InvSubBytes(t))[i] ==
              Col(Si(t[i].b0), Si(t[(i + n - 1) % n].b1),
                  Si(t[(i + if n == 8 then 5 else n - 2) % n].b2), Si(t[(i + if n == 8 then 4 else n - 3) % n].b3))
  {
    hide Si;
  }

  lemma FirstStateBack(bc: nat, nr: nat, kd: seq<State>, s: State, i: nat)
    requires WellFormedKeys(bc, nr, kd) && |s| == bc && i < bc
    ensures EqRounds(bc, nr, kd, s, 0)[i] == AddCol(s[i], kd[0][i])
  {
    hide AddCol;
  }

  /** The states of decryption, by the tables T5 to T8. */
  lemma NextStateBack(bc: nat, nr: nat, kd: seq<State>, s: State, r: nat, i: nat)
    requires (bc == 4 || bc == 6 || bc == 8) && WellFormedKeys(bc, nr, kd) && |s| == bc && 0 < r < nr && i < bc
    ensures var t := EqRounds(bc, nr, kd, s, r - 1);
            var a, b := t[i].b0, t[(i + bc - 1) % bc].b1;
            var c, d := t[(i + if bc == 8 then 5 else bc - 2) % bc].b2, t[(i + if bc == 8 then 4 else bc - 3) % bc].b3;
            EqRounds(bc, nr, kd, s, r)[i] == AddCol(Unpack(Xor4(T5(a), T6(b), T7(c), T8(d))), kd[r][i])
  {
    hide T5, T6, T7, T8, Si, InvMixCol, Unpack, Xor4, AddCol, InvShiftRows, InvSubBytes;
    var t := EqRounds(bc, nr, kd, s, r - 1);
    var a, b := t[i].b0, t[(i + bc - 1) % bc].b1;
    var c, d := t[(i + if bc == 8 then 5 else bc - 2) % bc].b2, t[(i + if bc == 8 then 4 else bc - 3) % bc].b3;
    DecryptLookup(a, b, c, d);
    SubstitutedAndTurnedBack(t, i);
  }

  /** The last state of decryption, by the inverse substitution table. */
  lemma LastStateBack(bc: nat, nr: nat, kd: seq<State>, s: State, i: nat)
    requires (bc == 4 || bc == 6 || bc == 8) && WellFormedKeys(bc, nr, kd) && |s| == bc && i < bc
    ensures var t := EqRounds(bc, nr, kd, s, nr - 1);
            var a, b := t[i].b0, t[(i + bc - 1) % bc].b1;
            var c, d := t[(i + if bc == 8 then 5 else bc - 2) % bc].b2, t[(i + if bc == 8 then 4 else bc - 3) % bc].b3;
            EqInvCipher(bc, nr, kd, s)[i] == AddCol(Col(Si(a), Si(b), Si(c), Si(d)), kd[nr][i])
  {
    hide Si, AddCol, InvShiftRows, InvSubBytes, EqRounds;
    SubstitutedAndTurnedBack(EqRounds(bc, nr, kd, s, nr - 1), i);
  }
}
