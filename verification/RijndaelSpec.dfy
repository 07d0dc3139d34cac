/** The block cipher as FIPS 197 describes it, for blocks of any number of columns: the four steps, the cipher of
    section 5.1, the inverse cipher of section 5.3 and the equivalent inverse cipher of section 5.3.5.

    The main results are that the inverse cipher undoes the cipher on both sides for every key schedule, and
    that the equivalent inverse cipher over the transformed schedule is the inverse cipher. */
module RijndaelSpec {
  import opened Columns
  import opened Divisibility
  import opened SBoxTables

  type State = seq<Col>

  /** By how many columns rows 1 to 3 are rotated. */
  datatype Offsets = Offsets(s1: nat, s2: nat, s3: nat)

  /** Column 0 of `sm_shifts`: the rotations of the cipher. */
  function EncOffsets(bc: nat): Offsets {
    if bc == 4 then Offsets(1, 2, 3) else if bc == 6 then Offsets(1, 2, 3) else Offsets(1, 3, 4)
  }

  /** Column 1 of `sm_shifts`: the rotations of the inverse cipher. */
  function DecOffsets(bc: nat): Offsets {
    if bc == 4 then Offsets(3, 2, 1) else if bc == 6 then Offsets(5, 4, 3) else Offsets(7, 5, 4)
  }

  predicate BlockColumns(bc: nat) {
    bc == 4 || bc == 6 || bc == 8
  }

  function SubCol(c: Col): Col {
    Col(S(c.b0), S(c.b1), S(c.b2), S(c.b3))
  }

  function InvSubCol(c: Col): Col {
    Col(Si(c.b0), Si(c.b1), Si(c.b2), Si(c.b3))
  }

  // ---------------------------------------------------------------- the steps

  function SubBytes(s: State): (r: State)
    ensures |r| == |s|
  {
    seq(|s|, i requires 0 <= i < |s| => SubCol(s[i]))
  }

  function InvSubBytes(s: State): (r: State)
    ensures |r| == |s|
  {
    seq(|s|, i requires 0 <= i < |s| => InvSubCol(s[i]))
  }

  /** The column from which a row rotated by `s` takes its byte for column `i`. */
  function Turn(i: nat, s: nat, n: nat): (j: nat)
    requires n > 0
    ensures j < n
  {
    (i + s) % n
  }

  function Rotate(o: Offsets, s: State): (r: State)
    ensures |r| == |s|
  {
    seq(|s|, i requires 0 <= i < |s| =>
      Col(s[i].b0, s[Turn(i, o.s1, |s|)].b1, s[Turn(i, o.s2, |s|)].b2, s[Turn(i, o.s3, |s|)].b3))
  }

  function ShiftRows(s: State): (r: State)
    ensures |r| == |s|
  {
    Rotate(EncOffsets(|s|), s)
  }

  function InvShiftRows(s: State): (r: State)
    ensures |r| == |s|
  {
    Rotate(DecOffsets(|s|), s)
  }

  function MixColumns(s: State): (r: State)
    ensures |r| == |s|
  {
    seq(|s|, i requires 0 <= i < |s| => MixCol(s[i]))
  }

  function InvMixColumns(s: State): (r: State)
    ensures |r| == |s|
  {
    seq(|s|, i requires 0 <= i < |s| => InvMixCol(s[i]))
  }

  function AddRoundKey(s: State, k: State): (r: State)
    requires |k| == |s|
    ensures |r| == |s|
  {
    seq(|s|, i requires 0 <= i < |s| => AddCol(s[i], k[i]))
  }

  // ---------------------------------------------------------------- what undoes what

  lemma SubBytesInverts(s: State)
    ensures InvSubBytes(SubBytes(s)) == s
    ensures SubBytes(InvSubBytes(s)) == s
  {
    hide S, Si;
    forall i | 0 <= i < |s|
      ensures InvSubBytes(SubBytes(s))[i] == s[i]
      ensures SubBytes(InvSubBytes(s))[i] == s[i]
    {
      SubstitutionInverts(s[i].b0);
      SubstitutionInverts(s[i].b1);
      SubstitutionInverts(s[i].b2);
      SubstitutionInverts(s[i].b3);
    }
  }

  /** The two columns of the shift table cancel modulo the width of the block. */
  lemma OffsetsCancel(bc: nat)
    requires BlockColumns(bc)
    ensures (EncOffsets(bc).s1 + DecOffsets(bc).s1) % bc == 0
    ensures (EncOffsets(bc).s2 + DecOffsets(bc).s2) % bc == 0
    ensures (EncOffsets(bc).s3 + DecOffsets(bc).s3) % bc == 0
  {
  }

  /** Two rotations whose offsets cancel. */
  lemma TurnBack(i: nat, a: nat, b: nat, n: nat)
    requires BlockColumns(n) && i < n && (a + b) % n == 0
    ensures Turn(Turn(i, a, n), b, n) == i
  {
    var q, k := (i + a) / n, (a + b) / n;
    assert Turn(i, a, n) + b == i + n * (k - q);
    MultipleVanishes(i, n, k - q);
  }

  lemma RotateTwice(o: Offsets, p: Offsets, s: State, i: nat)
    requires BlockColumns(|s|) && i < |s|
    requires (o.s1 + p.s1) % |s| == (o.s2 + p.s2) % |s| == (o.s3 + p.s3) % |s| == 0
    ensures Rotate(o, Rotate(p, s))[i] == s[i]
  {
    hide Turn;
    TurnBack(i, o.s1, p.s1, |s|);
    TurnBack(i, o.s2, p.s2, |s|);
    TurnBack(i, o.s3, p.s3, |s|);
  }

  lemma ShiftRowsInverts(s: State)
    requires BlockColumns(|s|)
    ensures InvShiftRows(ShiftRows(s)) == s
    ensures ShiftRows(InvShiftRows(s)) == s
  {
    hide Rotate, EncOffsets, DecOffsets;
    OffsetsCancel(|s|);
    forall i | 0 <= i < |s|
      ensures InvShiftRows(ShiftRows(s))[i] == s[i]
      ensures ShiftRows(InvShiftRows(s))[i] == s[i]
    {
      RotateTwice(DecOffsets(|s|), EncOffsets(|s|), s, i);
      RotateTwice(EncOffsets(|s|), DecOffsets(|s|), s, i);
    }
  }

  lemma MixColumnsInverts(s: State)
    ensures InvMixColumns(MixColumns(s)) == s
    ensures MixColumns(InvMixColumns(s)) == s
  {
    hide MixCol, InvMixCol;
    forall i | 0 <= i < |s|
      ensures InvMixColumns(MixColumns(s))[i] == s[i]
      ensures MixColumns(InvMixColumns(s))[i] == s[i]
    {
      MixColInverts(s[i]);
    }
  }

  lemma AddRoundKeyInverts(s: State, k: State)
    requires |k| == |s|
    ensures AddRoundKey(AddRoundKey(s, k), k) == s
  {
    hide AddCol;
    forall i | 0 <= i < |s|
      ensures AddRoundKey(AddRoundKey(s, k), k)[i] == s[i]
    {
      AddColCancels(s[i], k[i]);
    }
  }

  /** A substitution of single bytes does not care where the bytes stand. */
  lemma InvSubBytesCommutesWithInvShiftRows(s: State)
    ensures InvSubBytes(InvShiftRows(s)) == InvShiftRows(InvSubBytes(s))
  {
    hide Si, Turn;
  }

  lemma InvMixColumnsOfSum(s: State, k: State)
    requires |k| == |s|
    ensures InvMixColumns(AddRoundKey(s, k)) == AddRoundKey(InvMixColumns(s), InvMixColumns(k))
  {
    hide AddCol, Circulant;
    forall i | 0 <= i < |s|
      ensures InvMixColumns(AddRoundKey(s, k))[i] == AddRoundKey(InvMixColumns(s), InvMixColumns(k))[i]
    {
      CirculantLinear(INV_MIX, s[i], k[i]);
    }
  }

  // ---------------------------------------------------------------- the ciphers

  /** A key schedule: `nr + 1` round keys of `bc` columns each. */
  predicate WellFormedKeys(bc: nat, nr: nat, keys: seq<State>) {
    nr > 0 && |keys| == nr + 1 && forall r | 0 <= r <= nr :: |keys[r]| == bc
  }

  /** Section 5.1: the state after the first key addition and `r` full rounds. */
  function Rounds(bc: nat, nr: nat, ke: seq<State>, s: State, r: nat): (t: State)
    requires WellFormedKeys(bc, nr, ke) && |s| == bc && r < nr
    ensures |t| == bc
  {
    if r == 0 then AddRoundKey(s, ke[0])
    else AddRoundKey(MixColumns(ShiftRows(SubBytes(Rounds(bc, nr, ke, s, r - 1)))), ke[r])
  }

  /** Section 5.1: the cipher. */
  function Cipher(bc: nat, nr: nat, ke: seq<State>, s: State): (t: State)
    requires WellFormedKeys(bc, nr, ke) && |s| == bc
    ensures |t| == bc
  {
    AddRoundKey(ShiftRows(SubBytes(Rounds(bc, nr, ke, s, nr - 1))), ke[nr])
  }

  /** Section 5.3: the state after the first key addition and `r` rounds of the inverse cipher. */
  function InvRounds(bc: nat, nr: nat, ke: seq<State>, s: State, r: nat): (t: State)
    requires WellFormedKeys(bc, nr, ke) && |s| == bc && r < nr
    ensures |t| == bc
  {
    if r == 0 then AddRoundKey(s, ke[nr])
    else InvMixColumns(AddRoundKey(InvSubBytes(InvShiftRows(InvRounds(bc, nr, ke, s, r - 1))), ke[nr - r]))
  }

  /** Section 5.3: the inverse cipher. */
  function InvCipher(bc: nat, nr: nat, ke: seq<State>, s: State): (t: State)
    requires WellFormedKeys(bc, nr, ke) && |s| == bc
    ensures |t| == bc
  {
    AddRoundKey(InvSubBytes(InvShiftRows(InvRounds(bc, nr, ke, s, nr - 1))), ke[0])
  }

  /** Section 5.3.5: the state after `r` rounds of the equivalent inverse cipher over its own round keys. */
  function EqRounds(bc: nat, nr: nat, kd: seq<State>, s: State, r: nat): (t: State)
    requires WellFormedKeys(bc, nr, kd) && |s| == bc && r < nr
    ensures |t| == bc
  {
    if r == 0 then AddRoundKey(s, kd[0])
    else AddRoundKey(InvMixColumns(InvShiftRows(InvSubBytes(EqRounds(bc, nr, kd, s, r - 1)))), kd[r])
  }

  /** Section 5.3.5: the equivalent inverse cipher. */
  function EqInvCipher(bc: nat, nr: nat, kd: seq<State>, s: State): (t: State)
    requires WellFormedKeys(bc, nr, kd) && |s| == bc
    ensures |t| == bc
  {
    AddRoundKey(InvShiftRows(InvSubBytes(EqRounds(bc, nr, kd, s, nr - 1))), kd[nr])
  }

  /** The round keys of the equivalent inverse cipher: in reverse order, all but the outer two unmixed. */
  function DecryptKeys(bc: nat, nr: nat, ke: seq<State>): (kd: seq<State>)
    requires WellFormedKeys(bc, nr, ke)
    ensures WellFormedKeys(bc, nr, kd)
  {
    seq(nr + 1, r requires 0 <= r <= nr => if 0 < r < nr then InvMixColumns(ke[nr - r]) else ke[nr - r])
  }

  // ---------------------------------------------------------------- decryption undoes encryption

  /** Round by round, the inverse cipher meets the states of the cipher in the opposite order. */
  lemma {:induction false} InvRoundsMeetRounds(bc: nat, nr: nat, ke: seq<State>, s: State, r: nat)
    requires BlockColumns(bc) && WellFormedKeys(bc, nr, ke) && |s| == bc && r < nr
    ensures InvRounds(bc, nr, ke, Cipher(bc, nr, ke, s), r) == ShiftRows(SubBytes(Rounds(bc, nr, ke, s, nr - 1 - r)))
  {
    hide SubBytes, InvSubBytes, ShiftRows, InvShiftRows, MixColumns, InvMixColumns, AddRoundKey;
    if r == 0 {
      AddRoundKeyInverts(ShiftRows(SubBytes(Rounds(bc, nr, ke, s, nr - 1))), ke[nr]);
    } else {
      InvRoundsMeetRounds(bc, nr, ke, s, r - 1);
      var here := Rounds(bc, nr, ke, s, nr - r);
      var mixed := ShiftRows(SubBytes(Rounds(bc, nr, ke, s, nr - r - 1)));
      ShiftRowsInverts(SubBytes(here));
      SubBytesInverts(here);
      AddRoundKeyInverts(MixColumns(mixed), ke[nr - r]);
      MixColumnsInverts(mixed);
    }
  }

  /** The inverse cipher undoes the cipher, whatever the round keys are. */
  lemma InvCipherAfterCipher(bc: nat, nr: nat, ke: seq<State>, s: State)
    requires BlockColumns(bc) && WellFormedKeys(bc, nr, ke) && |s| == bc
    ensures InvCipher(bc, nr, ke, Cipher(bc, nr, ke, s)) == s
  {
    hide SubBytes, InvSubBytes, ShiftRows, InvShiftRows, AddRoundKey;
    InvRoundsMeetRounds(bc, nr, ke, s, nr - 1);
    var first := Rounds(bc, nr, ke, s, 0);
    ShiftRowsInverts(SubBytes(first));
    SubBytesInverts(first);
    AddRoundKeyInverts(s, ke[0]);
  }

  lemma {:induction false} RoundsMeetInvRounds(bc: nat, nr: nat, ke: seq<State>, s: State, r: nat)
    requires BlockColumns(bc) && WellFormedKeys(bc, nr, ke) && |s| == bc && r < nr
    ensures ShiftRows(SubBytes(Rounds(bc, nr, ke, InvCipher(bc, nr, ke, s), r))) == InvRounds(bc, nr, ke, s, nr - 1 - r)
  {
    hide SubBytes, InvSubBytes, ShiftRows, InvShiftRows, MixColumns, InvMixColumns, AddRoundKey;
    var before := InvRounds(bc, nr, ke, s, nr - 1 - r);
    var back := InvSubBytes(InvShiftRows(before));
    if r == 0 {
      AddRoundKeyInverts(back, ke[0]);
    } else {
      RoundsMeetInvRounds(bc, nr, ke, s, r - 1);
      MixColumnsInverts(AddRoundKey(back, ke[r]));
      AddRoundKeyInverts(back, ke[r]);
    }
    SubBytesInverts(InvShiftRows(before));
    ShiftRowsInverts(before);
  }

  /** The cipher undoes the inverse cipher. */
  lemma CipherAfterInvCipher(bc: nat, nr: nat, ke: seq<State>, s: State)
    requires BlockColumns(bc) && WellFormedKeys(bc, nr, ke) && |s| == bc
    ensures Cipher(bc, nr, ke, InvCipher(bc, nr, ke, s)) == s
  {
    hide SubBytes, InvSubBytes, ShiftRows, InvShiftRows, AddRoundKey;
    RoundsMeetInvRounds(bc, nr, ke, s, nr - 1);
    AddRoundKeyInverts(s, ke[nr]);
  }

  // ---------------------------------------------------------------- the equivalent inverse cipher

  lemma {:induction false} EqRoundsAreInvRounds(bc: nat, nr: nat, ke: seq<State>, s: State, r: nat)
    requires BlockColumns(bc) && WellFormedKeys(bc, nr, ke) && |s| == bc && r < nr
    ensures EqRounds(bc, nr, DecryptKeys(bc, nr, ke), s, r) == InvRounds(bc, nr, ke, s, r)
  {
    hide SubBytes, InvSubBytes, ShiftRows, InvShiftRows, MixColumns, InvMixColumns, AddRoundKey;
    if r > 0 {
      EqRoundsAreInvRounds(bc, nr, ke, s, r - 1);
      var before := InvRounds(bc, nr, ke, s, r - 1);
      InvSubBytesCommutesWithInvShiftRows(before);
      InvMixColumnsOfSum(InvSubBytes(InvShiftRows(before)), ke[nr - r]);
    }
  }

  /** Section 5.3.5: the two forms of the inverse cipher agree. */
  lemma EqInvCipherIsInvCipher(bc: nat, nr: nat, ke: seq<State>, s: State)
    requires BlockColumns(bc) && WellFormedKeys(bc, nr, ke) && |s| == bc
    ensures EqInvCipher(bc, nr, DecryptKeys(bc, nr, ke), s) == InvCipher(bc, nr, ke, s)
  {
    hide SubBytes, InvSubBytes, ShiftRows, InvShiftRows, InvMixColumns, AddRoundKey;
    EqRoundsAreInvRounds(bc, nr, ke, s, nr - 1);
    InvSubBytesCommutesWithInvShiftRows(InvRounds(bc, nr, ke, s, nr - 1));
  }
}
