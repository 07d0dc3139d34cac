/** The cipher on blocks of bytes, and the key expansion of section 5.2 of FIPS 197 for all nine key and block
    sizes. */
module BlockCipher {
  import opened GaloisField
  import opened Columns
  import opened RijndaelSpec

  type Bytes = seq<bv8>

  // ---------------------------------------------------------------- blocks of bytes

  /** Byte `i` of a block stands in column i / 4, row i % 4 (section 3.4). */
  function ToState(b: Bytes): (s: State)
    requires |b| % 4 == 0
    ensures |s| * 4 == |b|
  {
    seq(|b| / 4, i requires 0 <= i < |b| / 4 => Col(b[4 * i], b[4 * i + 1], b[4 * i + 2], b[4 * i + 3]))
  }

  function ColByte(c: Col, row: nat): bv8 {
    if row == 0 then c.b0 else if row == 1 then c.b1 else if row == 2 then c.b2 else c.b3
  }

  function FromState(s: State): (b: Bytes)
    ensures |b| == 4 * |s|
  {
    seq(4 * |s|, i requires 0 <= i < 4 * |s| => ColByte(s[i / 4], i % 4))
  }

  lemma ToStateFour(b: Bytes)
    requires |b| == 16
    ensures var s := ToState(b);
            |s| == 4
            && s[0] == Col(b[0], b[1], b[2], b[3]) && s[1] == Col(b[4], b[5], b[6], b[7])
            && s[2] == Col(b[8], b[9], b[10], b[11]) && s[3] == Col(b[12], b[13], b[14], b[15])
  {
  }

  lemma ToStateFromState(s: State)
    ensures ToState(FromState(s)) == s
  {
  }

  lemma FromStateToState(b: Bytes)
    requires |b| % 4 == 0
    ensures FromState(ToState(b)) == b
  {
  }

  lemma FromStateSnoc(s: State, c: Col)
    ensures FromState(s + [c]) == FromState(s) + [c.b0, c.b1, c.b2, c.b3]
  {
  }

  /** What `MakeKey` leaves behind: the geometry and the two sets of round keys. */
  datatype Schedule = Schedule(bc: nat, nr: nat, ke: seq<State>, kd: seq<State>)
  {
    function BlockSize(): nat {
      4 * bc
    }

    predicate WellFormed() {
      BlockColumns(bc) && WellFormedKeys(bc, nr, ke) && WellFormedKeys(bc, nr, kd)
    }

    /** The decryption keys are those of the equivalent inverse cipher. */
    predicate Matched() {
      WellFormed() && kd == DecryptKeys(bc, nr, ke)
    }
  }

  function EncBlock(k: Schedule, b: Bytes): (r: Bytes)
    requires k.WellFormed() && |b| == k.BlockSize()
    ensures |r| == |b|
  {
    FromState(Cipher(k.bc, k.nr, k.ke, ToState(b)))
  }

  function DecBlock(k: Schedule, b: Bytes): (r: Bytes)
    requires k.WellFormed() && |b| == k.BlockSize()
    ensures |r| == |b|
  {
    FromState(EqInvCipher(k.bc, k.nr, k.kd, ToState(b)))
  }

  /** With matched schedules the two block functions undo each other. */
  lemma BlockFunctionsInvert(k: Schedule, b: Bytes)
    requires k.Matched() && |b| == k.BlockSize()
    ensures DecBlock(k, EncBlock(k, b)) == b
    ensures EncBlock(k, DecBlock(k, b)) == b
  {
    hide Cipher, EqInvCipher, InvCipher, FromState, ToState;
    var s := ToState(b);
    var c := Cipher(k.bc, k.nr, k.ke, s);
    var p := InvCipher(k.bc, k.nr, k.ke, s);
    ToStateFromState(c);
    ToStateFromState(p);
    FromStateToState(b);
    EqInvCipherIsInvCipher(k.bc, k.nr, k.ke, c);
    EqInvCipherIsInvCipher(k.bc, k.nr, k.ke, s);
    InvCipherAfterCipher(k.bc, k.nr, k.ke, s);
    CipherAfterInvCipher(k.bc, k.nr, k.ke, s);
  }

  // ---------------------------------------------------------------- key expansion

  /** Key and block lengths, in bytes, that `MakeKey` accepts. */
  predicate LegalLength(n: int) {
    n == 16 || n == 24 || n == 32
  }

  /** Six more rounds than the longer of key and block has columns. */
  function RoundCount(kc: nat, bc: nat): nat {
    6 + if kc < bc then bc else kc
  }

  function XtimePow(n: nat): bv8 {
    if n == 0 then 1 else Xtime(XtimePow(n - 1))
  }

  /** The round constant x^n in the first row. */
  function RoundConstant(n: nat): Col {
    Col(XtimePow(n), 0, 0, 0)
  }

  function RotCol(c: Col): Col {
    Col(c.b1, c.b2, c.b3, c.b0)
  }

  /** Word `i` of the expanded key (section 5.2, for any of the key lengths). */
  function ExpandedWord(key: seq<Col>, i: nat): Col
    requires |key| > 0
  {
    var kc := |key|;
    if i < kc then key[i]
    else
      var back := ExpandedWord(key, i - kc);
      var last := ExpandedWord(key, i - 1);
      if i % kc == 0 then AddCol(back, AddCol(SubCol(RotCol(last)), RoundConstant(i / kc - 1)))
      else if kc > 6 && i % kc == 4 then AddCol(back, SubCol(last))
      else AddCol(back, last)
  }

  /** The position of column `j` of round key `r` among the expanded words. */
  function Slot(bc: nat, r: nat, j: nat): nat {
    r * bc + j
  }

  function EncryptKeys(key: seq<Col>, bc: nat, nr: nat): (ke: seq<State>)
    requires |key| > 0
    ensures |ke| == nr + 1 && forall r | 0 <= r <= nr :: |ke[r]| == bc
  {
    seq(nr + 1, r requires 0 <= r <= nr => seq(bc, j requires 0 <= j < bc => ExpandedWord(key, Slot(bc, r, j))))
  }

  /** The schedule that belongs to a key and a block length, both in bytes. */
  function ExpandKey(key: Bytes, blockSize: nat): (k: Schedule)
    requires LegalLength(|key|) && LegalLength(blockSize)
    ensures k.Matched() && k.BlockSize() == blockSize && k.nr == RoundCount(|key| / 4, k.bc)
    ensures k.nr == if |key| == 16 && blockSize == 16 then 10 else if |key| == 32 || blockSize == 32 then 14 else 12
  {
    var bc := blockSize / 4;
    var nr := RoundCount(|key| / 4, bc);
    var ke := EncryptKeys(ToState(key), bc, nr);
    Schedule(bc, nr, ke, DecryptKeys(bc, nr, ke))
  }
}
