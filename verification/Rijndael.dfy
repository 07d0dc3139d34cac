/** The cipher object: key schedules kept in fixed tables, table-driven rounds over work arrays, and the chained
    modes.  Every method is proved against the functions of `BlockCipher` and `Modes`.

    The program's `int` is a `bv32` and its `char` a `bv8`; a pointer into a buffer is an array and an offset. */
module Rijndael {
  import opened GaloisField
  import opened Columns
  import opened Divisibility
  import opened SBoxTables
  import opened Words
  import opened RijndaelSpec
  import opened TableRounds
  import opened BlockCipher
  import opened Buffers
  import opened KeyWords
  import opened Modes
  import opened InPlace

  /** How a call ends: normally, or with one of the program's two error messages or a refused key. */
  datatype Status = Done | NotInitialized | NotWholeBlocks | EmptyKey | BadKeyLength | BadBlockLength

  const DEFAULT_BLOCK_SIZE := 16
  const MAX_ROUNDS := 14
  const MAX_KC := 8
  const MAX_BC := 8
  const MAX_BLOCK_SIZE := 32

  lemma LoadedWordMeans(c: Col, k: bv32)
    ensures Unpack(Xor(Pack(c), k)) == AddCol(c, Unpack(k))
  {
    hide Unpack, Pack, Xor, AddCol, DecryptKeys;
    UnpackPack(c);
    UnpackXor(Pack(c), k);
  }

  /** Stores the four bytes of a column. */
  method Put(dst: array<bv8>, n: nat, b0: bv8, b1: bv8, b2: bv8, b3: bv8)
    requires n + 4 <= dst.Length
    modifies dst
    ensures dst[..] == old(dst[..])[n := b0][n + 1 := b1][n + 2 := b2][n + 3 := b3]
  {
    dst[n] := b0;
    dst[n + 1] := b1;
    dst[n + 2] := b2;
    dst[n + 3] := b3;
  }

  class Rijndael {
    var keyInit: bool
    const Ke: array2<bv32>
    const Kd: array2<bv32>
    var keyLength: nat
    var blockSize: nat
    var rounds: nat
    const chain0: array<bv8>
    const chain: array<bv8>
    const tk: array<bv32>
    const a: array<bv32>
    const t: array<bv32>

    /** The schedule that the two tables hold once the key is set. */
    ghost var sched: Schedule

    /** A table holds the columns of a sequence of round keys. */
    ghost predicate Holds(table: array2<bv32>, keys: seq<State>)
      requires WellFormedKeys(sched.bc, sched.nr, keys)
      requires sched.nr < table.Length0 && sched.bc <= table.Length1
      reads this, table
    {
      forall r, j | 0 <= r <= sched.nr && 0 <= j < sched.bc :: Unpack(table[r, j]) == keys[r][j]
    }

    /** The sizes of the tables, and that no two of them share memory. */
    ghost predicate Shape()
    {
      && Ke != Kd && chain0 != chain && tk != a && tk != t && a != t
      && Ke.Length0 == Kd.Length0 == MAX_ROUNDS + 1 && Ke.Length1 == Kd.Length1 == MAX_BC
      && chain0.Length == chain.Length == MAX_BLOCK_SIZE
      && tk.Length == MAX_KC && a.Length == t.Length == MAX_BC
    }

    /** The object invariant: once the key is set, the tables hold two matched schedules. */
    ghost predicate Valid()
      reads this, Ke, Kd
      ensures Valid() ==> Shape()
      ensures Valid() && keyInit ==>
                && sched.Matched() && blockSize == sched.BlockSize() && rounds == sched.nr
                && Ke.Length0 > sched.nr && Ke.Length1 >= sched.bc && Holds(Ke, sched.ke) && Holds(Kd, sched.kd)
    {
      && Shape()
      && (keyInit ==>
            && sched.Matched() && sched.nr <= MAX_ROUNDS
            && blockSize == sched.BlockSize() && rounds == sched.nr
            && Holds(Ke, sched.ke) && Holds(Kd, sched.kd))
    }

    constructor ()
      ensures Valid() && !keyInit
      ensures fresh(Ke) && fresh(Kd) && fresh(chain0) && fresh(chain) && fresh(tk) && fresh(a) && fresh(t)
    {
      keyInit := false;
      Ke := new bv32[MAX_ROUNDS + 1, MAX_BC];
      Kd := new bv32[MAX_ROUNDS + 1, MAX_BC];
      chain0 := new bv8[MAX_BLOCK_SIZE];
      chain := new bv8[MAX_BLOCK_SIZE];
      tk := new bv32[MAX_KC];
      a := new bv32[MAX_BC];
      t := new bv32[MAX_BC];
      new;
      assert Ke != Kd;
    }

    // -------------------------------------------------------------- the key

    /** The window `tk` holds pass `m` of the expanded key up to word `n`, and pass `m - 1` from there on. */
    ghost predicate Window(key: seq<Col>, m: nat, n: nat)
      requires KeyColumns(|key|) && tk.Length == MAX_KC
      reads tk
    {
      forall j | 0 <= j < |key| && (j < n || m > 0) :: Unpack(tk[j]) == Word(key, if j < n then m else m - 1, j)
    }

    /** The first `n` expanded words stand in `Ke`, and mirrored by rounds in `Kd`. */
    ghost predicate Filled(key: seq<Col>, bc: nat, nr: nat, n: nat)
      requires Shape() && |key| > 0 && bc <= MAX_BC && nr <= MAX_ROUNDS
      reads Ke, Kd
    {
      forall r, j | 0 <= r <= nr && 0 <= j < bc && Slot(bc, r, j) < n ::
        Unpack(Ke[r, j]) == ExpandedWord(key, Slot(bc, r, j)) && Kd[nr - r, j] == Ke[r, j]
    }

    /** Copies the bytes of the key into the window. */
    method CopyKey(key: array<bv8>, KC: nat)
      requires Shape() && KeyColumns(KC) && 4 * KC <= key.Length
      modifies tk
      ensures Window(ToState(key[..4 * KC]), 0, KC)
    {
      hide Unpack, Pack;
      ghost var cols := ToState(key[..4 * KC]);
      var i := 0;
      while i < KC
        invariant 0 <= i <= KC
        invariant forall j | 0 <= j < i :: Unpack(tk[j]) == cols[j]
      {
        var c := Col(key[4 * i], key[4 * i + 1], key[4 * i + 2], key[4 * i + 3]);
        tk[i] := Pack(c);
        UnpackPack(c);
        i := i + 1;
      }
      forall j | 0 <= j < KC
        ensures Word(cols, 0, j) == cols[j]
      {
        FirstPass(cols, j);
      }
    }

    /** Stores pass `m` into the tables, from position `t0` on, and stops when they are full. */
    method StorePass(ghost key: seq<Col>, ghost m: nat, t0: nat, KC: nat, BC: nat, nr: nat) returns (t1: nat)
      requires Shape() && KeyColumns(KC) && |key| == KC && BlockColumns(BC) && nr <= MAX_ROUNDS
      requires Window(key, m, KC) && t0 == KC * m < (nr + 1) * BC
      requires Filled(key, BC, nr, t0)
      modifies Ke, Kd
      ensures Filled(key, BC, nr, t1)
      ensures t0 < t1 <= (nr + 1) * BC && (t1 < (nr + 1) * BC ==> t1 == KC * (m + 1))
    {
      hide Unpack;
      t1 := t0;
      var j := 0;
      while j < KC && t1 < (nr + 1) * BC
        invariant 0 <= j <= KC && t1 == t0 + j <= (nr + 1) * BC
        invariant Filled(key, BC, nr, t1)
      {
        StoreWord(key, t1, tk[j], BC, nr);
        t1 := t1 + 1;
        j := j + 1;
      }
    }

    /** Stores one word of the expanded key in both tables. */
    method StoreWord(ghost key: seq<Col>, n: nat, w: bv32, BC: nat, nr: nat)
      requires Shape() && |key| > 0 && BlockColumns(BC) && nr <= MAX_ROUNDS && n < (nr + 1) * BC
      requires Unpack(w) == ExpandedWord(key, n) && Filled(key, BC, nr, n)
      modifies Ke, Kd
      ensures Filled(key, BC, nr, n + 1)
    {
      hide Unpack, ExpandedWord, Slot;
      assert n / BC <= nr;
      Ke[n / BC, n % BC] := w;
      Kd[nr - n / BC, n % BC] := w;
      SlotIndex(BC, n);
      forall r, j | 0 <= r <= nr && 0 <= j < BC && Slot(BC, r, j) < n + 1
        ensures Unpack(Ke[r, j]) == ExpandedWord(key, Slot(BC, r, j)) && Kd[nr - r, j] == Ke[r, j]
      {
        SlotUnique(BC, r, j);
      }
    }

    /** Replaces the window by the next pass, in place. */
    method Evolve(ghost key: seq<Col>, ghost m: nat, KC: nat, rconpointer: nat)
      requires Shape() && KeyColumns(KC) && |key| == KC && m > 0 && rconpointer == m - 1 < 30
      requires Window(key, m - 1, KC)
      modifies tk
      ensures Window(key, m, KC)
    {
      hide Unpack, Xor, AddCol, SubCol, PhiWord, SubWord, Word, Rcon, XtimePow;
      var tt := tk[KC - 1];
      PhiWordMeans(tt, Rcon(rconpointer));
      RconIsPower(rconpointer);
      UnpackXor(tk[0], PhiWord(tt, Rcon(rconpointer)));
      WordOfPass(key, m, 0);
      tk[0] := Xor(tk[0], PhiWord(tt, Rcon(rconpointer)));
      if KC != 8 {
        AddUp(key, m, KC, 1, KC);
      } else {
        AddUp(key, m, KC, 1, KC / 2);
        tt := tk[KC / 2 - 1];
        SubWordMeans(tt);
        UnpackXor(tk[KC / 2], SubWord(tt));
        WordOfPass(key, m, KC / 2);
        tk[KC / 2] := Xor(tk[KC / 2], SubWord(tt));
        AddUp(key, m, KC, KC / 2 + 1, KC);
      }
    }

    /** Adds to each word of a stretch of the window its new left neighbour. */
    method AddUp(ghost key: seq<Col>, ghost m: nat, KC: nat, from: nat, upto: nat)
      requires Shape() && KeyColumns(KC) && |key| == KC && m > 0
      requires 0 < from <= upto <= KC && (KC == 8 ==> upto <= 4 || from > 4)
      requires Window(key, m, from)
      modifies tk
      ensures Window(key, m, upto)
    {
      hide Unpack, Xor, AddCol, Word;
      var i := from;
      while i < upto
        invariant from <= i <= upto
        invariant Window(key, m, i)
      {
        WordOfPass(key, m, i);
        UnpackXor(tk[i], tk[i - 1]);
        tk[i] := Xor(tk[i], tk[i - 1]);
        i := i + 1;
      }
    }

    /** Turns the inner rows of `Kd` into round keys of the equivalent inverse cipher. */
    method UnmixKeys(ghost ke: seq<State>, BC: nat, nr: nat)
      requires Shape() && BlockColumns(BC) && nr <= MAX_ROUNDS && WellFormedKeys(BC, nr, ke)
      requires forall r, j | 0 <= r <= nr && 0 <= j < BC :: Unpack(Kd[r, j]) == ke[nr - r][j]
      modifies Kd
      ensures forall r, j | 0 <= r <= nr && 0 <= j < BC :: Unpack(Kd[r, j]) == DecryptKeys(BC, nr, ke)[r][j]
    {
      hide Unpack, InvMixWord, InvMixCol;
      var r := 1;
      while r < nr
        invariant 1 <= r <= nr
        invariant forall q, j | 0 <= q <= nr && 0 <= j < BC ::
                    Unpack(Kd[q, j]) == if 0 < q < r then InvMixCol(ke[nr - q][j]) else ke[nr - q][j]
      {
        var j := 0;
        while j < BC
          invariant 0 <= j <= BC
          invariant forall q, i | 0 <= q <= nr && 0 <= i < BC ::
                      Unpack(Kd[q, i]) == if 0 < q < r || (q == r && i < j) then InvMixCol(ke[nr - q][i]) else ke[nr - q][i]
        {
          InvMixWordMeans(Kd[r, j]);
          Kd[r, j] := InvMixWord(Kd[r, j]);
          j := j + 1;
        }
        r := r + 1;
      }
      forall q, j | 0 <= q <= nr && 0 <= j < BC
        ensures Unpack(Kd[q, j]) == DecryptKeys(BC, nr, ke)[q][j]
      {
        assert 0 < q < nr ==> InvMixColumns(ke[nr - q])[j] == InvMixCol(ke[nr - q][j]);
      }
    }

    /** The number of rounds, as the program tabulates it. */
    method CountRounds(keyLen: int, size: int) returns (n: nat)
      requires LegalLength(keyLen) && LegalLength(size)
      ensures n == RoundCount(keyLen / 4, size / 4)
      ensures n == if keyLen == 16 && size == 16 then 10 else if keyLen == 32 || size == 32 then 14 else 12
    {
      if keyLen == 16 {
        n := if size == 16 then 10 else if size == 24 then 12 else 14;
      } else if keyLen == 24 {
        n := if size != 32 then 12 else 14;
      } else {
        n := 14;
      }
    }

    method ClearTables(nr: nat, BC: nat)
      requires Shape() && nr <= MAX_ROUNDS && BC <= MAX_BC
      modifies Ke, Kd
    {
      for i := 0 to nr + 1 {
        for j := 0 to BC {
          Ke[i, j] := 0;
        }
      }
      for i := 0 to nr + 1 {
        for j := 0 to BC {
          Kd[i, j] := 0;
        }
      }
    }

    /** Runs the passes of the key expansion until both tables are full. */
    method FillTables(key: array<bv8>, KC: nat, BC: nat, nr: nat)
      requires Shape() && KeyColumns(KC) && BlockColumns(BC) && nr == RoundCount(KC, BC) && 4 * KC <= key.Length
      modifies Ke, Kd, tk
      ensures Filled(ToState(key[..4 * KC]), BC, nr, (nr + 1) * BC)
    {
      hide Unpack, ExpandedWord, Word, Slot, ToState;
      ghost var cols := ToState(key[..4 * KC]);
      var count := (nr + 1) * BC;
      CopyKey(key, KC);
      assert Filled(cols, BC, nr, 0);
      ghost var m := 0;
      var n := StorePass(cols, m, 0, KC, BC, nr);
      var rconpointer := 0;
      while n < count
        invariant n <= count && Filled(cols, BC, nr, n)
        invariant n < count ==> n == KC * (m + 1)
        invariant rconpointer == m && Window(cols, m, KC)
        decreases count - n
      {
        RconInRange(KC, BC, nr, m);
        m := m + 1;
        Evolve(cols, m, KC, rconpointer);
        rconpointer := rconpointer + 1;
        n := StorePass(cols, m, n, KC, BC, nr);
      }
    }

    /** Fills both tables from a key that has been checked. */
    method ExpandInto(key: array<bv8>, keyLen: nat, size: nat, nr: nat)
      requires Shape() && LegalLength(keyLen) && LegalLength(size) && keyLen <= key.Length
      requires nr == RoundCount(keyLen / 4, size / 4)
      modifies Ke, Kd, tk
      ensures var k := ExpandKey(key[..keyLen], size);
              forall r, j | 0 <= r <= nr && 0 <= j < k.bc ::
                Unpack(Ke[r, j]) == k.ke[r][j] && Unpack(Kd[r, j]) == k.kd[r][j]
    {
      hide Unpack, ExpandedWord, Slot, InvMixColumns, ToState;
      var BC := size / 4;
      ClearTables(nr, BC);
      FillTables(key, keyLen / 4, BC, nr);
      ghost var cols := ToState(key[..keyLen]);
      ghost var ke := EncryptKeys(cols, BC, nr);
      forall r, j | 0 <= r <= nr && 0 <= j < BC
        ensures Unpack(Ke[r, j]) == ke[r][j] && Kd[nr - r, j] == Ke[r, j]
      {
        SlotInRange(BC, nr, r, j);
      }
      forall r, j | 0 <= r <= nr && 0 <= j < BC
        ensures Unpack(Kd[r, j]) == ke[nr - r][j]
      {
        assert Kd[nr - (nr - r), j] == Ke[nr - r, j];
      }
      UnmixKeys(ke, BC, nr);
    }

    /** Sets the key, the chain and the block size; a refused call changes nothing. */
    method MakeKey(key: array?<bv8>, chainSrc: array<bv8>, keyLen: int, size: int) returns (status: Status)
      requires Shape()
      requires key != null && LegalLength(keyLen) && LegalLength(size) ==> keyLen <= key.Length && size <= chainSrc.Length
      requires key != chain0 && key != chain && chainSrc != chain0 && chainSrc != chain
      modifies this, Ke, Kd, chain0, chain, tk
      ensures status == if key == null then EmptyKey
                        else if keyLen != 16 && keyLen != 24 && keyLen != 32 then BadKeyLength
                        else if size != 16 && size != 24 && size != 32 then BadBlockLength else Done
      ensures status == Done ==>
                Valid() && keyInit && sched == ExpandKey(key[..keyLen], size) && keyLength == keyLen
                && blockSize == size && chain0[..size] == chain[..size] == chainSrc[..size]
                && rounds == (if keyLen == 16 && size == 16 then 10 else if keyLen == 32 || size == 32 then 14 else 12)
      ensures status != Done ==>
                unchanged(this) && unchanged(Ke) && unchanged(Kd) && unchanged(chain0) && unchanged(chain) && unchanged(tk)
    {
      if key == null {
        return EmptyKey;
      }
      if !LegalLength(keyLen) {
        return BadKeyLength;
      }
      if !LegalLength(size) {
        return BadBlockLength;
      }
      hide Unpack, ExpandKey, DecryptKeys;
      keyLength := keyLen;
      blockSize := size;
      forall i | 0 <= i < blockSize {
        chain0[i] := chainSrc[i];
      }
      forall i | 0 <= i < blockSize {
        chain[i] := chainSrc[i];
      }
      rounds := CountRounds(keyLength, blockSize);
      ExpandInto(key, keyLength, blockSize, rounds);
      sched := ExpandKey(key[..keyLen], size);
      keyInit := true;
      return Done;
    }

    // -------------------------------------------------------------- one block, any width

    /** Copies a block into `t`, adding the first round key of a table. */
    method Load(src: array<bv8>, si: nat, table: array2<bv32>, ghost keys: seq<State>)
      requires Valid() && keyInit && (table == Ke || table == Kd)
      requires WellFormedKeys(sched.bc, sched.nr, keys) && Holds(table, keys)
      requires si + blockSize <= src.Length
      modifies t
      ensures ColumnsOf(t[..sched.bc]) == AddRoundKey(ToState(src[si..si + blockSize]), keys[0])
    {
      hide Unpack, Pack, Xor, AddCol, DecryptKeys;
      var BC := blockSize / 4;
      ghost var s0 := ToState(src[si..si + blockSize]);
      var i := 0;
      while i < BC
        invariant 0 <= i <= BC
        invariant forall j | 0 <= j < i :: Unpack(t[j]) == AddCol(s0[j], keys[0][j])
      {
        var c := Col(src[si + 4 * i], src[si + 4 * i + 1], src[si + 4 * i + 2], src[si + 4 * i + 3]);
        assert c == s0[i];
        t[i] := Xor(Pack(c), table[0, i]);
        LoadedWordMeans(c, table[0, i]);
        i := i + 1;
      }
    }

    /** Loads a block of four columns into integers, adding the first round key of a table. */
    method LoadFour(src: array<bv8>, si: nat, table: array2<bv32>, ghost keys: seq<State>)
      returns (t0: bv32, t1: bv32, t2: bv32, t3: bv32)
      requires Valid() && keyInit && blockSize == 16 && (table == Ke || table == Kd)
      requires WellFormedKeys(sched.bc, sched.nr, keys) && Holds(table, keys)
      requires si + blockSize <= src.Length
      ensures [Unpack(t0), Unpack(t1), Unpack(t2), Unpack(t3)] == AddRoundKey(ToState(src[si..si + blockSize]), keys[0])
    {
      hide Unpack, Pack, Xor, AddCol, DecryptKeys, ToState;
      var c0 := Col(src[si], src[si + 1], src[si + 2], src[si + 3]);
      t0 := Xor(Pack(c0), table[0, 0]);
      var c1 := Col(src[si + 4], src[si + 5], src[si + 6], src[si + 7]);
      t1 := Xor(Pack(c1), table[0, 1]);
      var c2 := Col(src[si + 8], src[si + 9], src[si + 10], src[si + 11]);
      t2 := Xor(Pack(c2), table[0, 2]);
      var c3 := Col(src[si + 12], src[si + 13], src[si + 14], src[si + 15]);
      t3 := Xor(Pack(c3), table[0, 3]);
      LoadedWordMeans(c0, table[0, 0]);
      LoadedWordMeans(c1, table[0, 1]);
      LoadedWordMeans(c2, table[0, 2]);
      LoadedWordMeans(c3, table[0, 3]);
      ToStateFour(src[si..si + blockSize]);
    }

    // -------------------------------------------------------------- encryption of a block

    /** One round of the round loop of `EncryptBlock`. */
    method EncryptRound(r: nat)
      requires Valid() && keyInit && 1 <= r < rounds
      modifies t, a
      ensures ColumnsOf(t[..sched.bc])
           == AddRoundKey(MixColumns(ShiftRows(SubBytes(old(ColumnsOf(t[..sched.bc]))))), sched.ke[r])
    {
      hide EncWord, Unpack, AddCol, MixCol, SubCol, S, Turn, Gather, EncOffsets, SubBytes, ShiftRows, MixColumns, AddRoundKey, DecryptKeys;
      var BC := blockSize / 4;
      var s1, s2, s3 := EncOffsets(BC).s1, EncOffsets(BC).s2, EncOffsets(BC).s3;
      ghost var w := t[..BC];
      ghost var cur := ColumnsOf(w);
      var i := 0;
      while i < BC
        invariant 0 <= i <= BC && t[..BC] == w
        invariant forall j | 0 <= j < i ::
                    Unpack(a[j]) == AddCol(MixCol(SubCol(Gather(EncOffsets(BC), cur, j))), sched.ke[r][j])
        modifies a
      {
        var w0, w1, w2, w3 := t[i], t[Turn(i, s1, BC)], t[Turn(i, s2, BC)], t[Turn(i, s3, BC)];
        GatherWords(EncOffsets(BC), w, i);
        EncWordMeans(w0, w1, w2, w3, Ke[r, i]);
        a[i] := EncWord(w0, w1, w2, w3, Ke[r, i]);
        i := i + 1;
      }
      EncRoundFromWords(cur, sched.ke[r], ColumnsOf(a[..BC]));
      forall j | 0 <= j < BC {
        t[j] := a[j];
      }
      assert t[..BC] == a[..BC];
    }

    /** One column of the last round, which mixes no columns, written out byte by byte. */
    method EncryptLastColumn(dst: array<bv8>, n: nat, i: nat)
      requires Valid() && keyInit && i < sched.bc && n + 4 <= dst.Length
      modifies dst
      ensures var c := AddCol(SubCol(Gather(EncOffsets(sched.bc), ColumnsOf(t[..sched.bc]), i)), sched.ke[sched.nr][i]);
              dst[..] == old(dst[..])[n := c.b0][n + 1 := c.b1][n + 2 := c.b2][n + 3 := c.b3]
    {
      hide Unpack, AddCol, Byte0, Byte1, Byte2, Byte3, Add, S, SubCol, Turn, Gather, ColumnsOf, EncOffsets, DecryptKeys;
      var BC := blockSize / 4;
      var s1, s2, s3 := EncOffsets(BC).s1, EncOffsets(BC).s2, EncOffsets(BC).s3;
      var w0, w1, w2, w3 := t[i], t[Turn(i, s1, BC)], t[Turn(i, s2, BC)], t[Turn(i, s3, BC)];
      var tt := Ke[rounds, i];
      GatherWords(EncOffsets(BC), t[..BC], i);
      LastEncMeans(w0, w1, w2, w3, tt);
      Put(dst, n,
          Add(S(Byte0(w0)), Byte0(tt)), Add(S(Byte1(w1)), Byte1(tt)),
          Add(S(Byte2(w2)), Byte2(tt)), Add(S(Byte3(w3)), Byte3(tt)));
    }

    /** The last round. */
    method EncryptLast(dst: array<bv8>, di: nat)
      requires Valid() && keyInit
      requires di + blockSize <= dst.Length
      modifies dst
      ensures dst[..] == Splice(old(dst[..]), di,
                FromState(AddRoundKey(ShiftRows(SubBytes(ColumnsOf(t[..sched.bc]))), sched.ke[sched.nr])))
    {
      hide Valid, AddCol, SubCol, Gather, EncOffsets, SubBytes, ShiftRows, AddRoundKey, Splice, FromState, ColumnsOf, DecryptKeys;
      var BC := blockSize / 4;
      ghost var cur := ColumnsOf(t[..BC]);
      ghost var key := sched.ke[sched.nr];
      ghost var out := seq(BC, j requires 0 <= j < BC => AddCol(SubCol(Gather(EncOffsets(BC), cur, j)), key[j]));
      SpliceNothing(dst[..], di);
      assert out[..0] == [];
      var i := 0;
      while i < BC
        invariant 0 <= i <= BC
        invariant dst[..] == Splice(old(dst[..]), di, FromState(out[..i]))
      {
        ghost var was := dst[..];
        EncryptLastColumn(dst, di + 4 * i, i);
        SpliceColumn(old(dst[..]), di, out[..i], out[i], was);
        assert out[..i] + [out[i]] == out[..i + 1];
        i := i + 1;
      }
      assert out[..BC] == out;
      EncLastFromWords(cur, key, out);
    }

    /** The general path of `EncryptBlock`, for any block width. */
    method EncryptGeneral(src: array<bv8>, si: nat, dst: array<bv8>, di: nat)
      requires Valid() && keyInit
      requires si + blockSize <= src.Length && di + blockSize <= dst.Length
      modifies dst, t, a
      ensures dst[..] == Splice(old(dst[..]), di, EncBlock(sched, old(src[si..si + blockSize])))
    {
      hide Valid, SubBytes, ShiftRows, MixColumns, AddRoundKey, ColumnsOf, ToState, FromState, Splice;
      ghost var s0 := ToState(src[si..si + blockSize]);
      Load(src, si, Ke, sched.ke);
      var r := 1;
      while r < rounds
        invariant 1 <= r <= rounds
        invariant ColumnsOf(t[..sched.bc]) == Rounds(sched.bc, rounds, sched.ke, s0, r - 1)
        modifies t, a
      {
        EncryptRound(r);
        r := r + 1;
      }
      ghost var last := Rounds(sched.bc, sched.nr, sched.ke, s0, sched.nr - 1);
      assert ColumnsOf(t[..sched.bc]) == last;
      assert dst[..] == old(dst[..]);
      EncryptLast(dst, di);
      assert AddRoundKey(ShiftRows(SubBytes(last)), sched.ke[sched.nr]) == Cipher(sched.bc, sched.nr, sched.ke, s0);
    }

    /** The unrolled path of `EncryptBlock` for blocks of four columns. */
    method DefEncryptBlock(src: array<bv8>, si: nat, dst: array<bv8>, di: nat)
      requires Valid() && keyInit && blockSize == 16
      requires si + blockSize <= src.Length && di + blockSize <= dst.Length
      modifies dst
      ensures dst[..] == Splice(old(dst[..]), di, EncBlock(sched, old(src[si..si + blockSize])))
    {
      hide Valid, Unpack, SubBytes, ShiftRows, MixColumns, AddRoundKey, ToState, FromState, Splice, DecryptKeys;
      ghost var k := sched.ke;
      ghost var s0 := ToState(src[si..si + blockSize]);
      var t0, t1, t2, t3 := LoadFour(src, si, Ke, k);
      var r := 1;
      while r < rounds
        invariant 1 <= r <= rounds
        invariant [Unpack(t0), Unpack(t1), Unpack(t2), Unpack(t3)] == Rounds(4, rounds, k, s0, r - 1)
        modifies {}
      {
        t0, t1, t2, t3 := DefEncryptRound(r, t0, t1, t2, t3);
        r := r + 1;
      }
      ghost var last := Rounds(sched.bc, sched.nr, k, s0, sched.nr - 1);
      assert [Unpack(t0), Unpack(t1), Unpack(t2), Unpack(t3)] == last;
      assert dst[..] == old(dst[..]);
      DefEncryptLast(dst, di, t0, t1, t2, t3);
      assert AddRoundKey(ShiftRows(SubBytes(last)), k[sched.nr]) == Cipher(sched.bc, sched.nr, k, s0);
    }

    /** One round of the unrolled path. */
    method DefEncryptRound(r: nat, t0: bv32, t1: bv32, t2: bv32, t3: bv32) returns (a0: bv32, a1: bv32, a2: bv32, a3: bv32)
      requires Valid() && keyInit && blockSize == 16 && 1 <= r < rounds
      ensures [Unpack(a0), Unpack(a1), Unpack(a2), Unpack(a3)]
           == AddRoundKey(MixColumns(ShiftRows(SubBytes([Unpack(t0), Unpack(t1), Unpack(t2), Unpack(t3)]))), sched.ke[r])
    {
      hide EncWord, Unpack, AddCol, MixCol, SubCol, SubBytes, ShiftRows, MixColumns, AddRoundKey, DecryptKeys;
      a0 := EncWord(t0, t1, t2, t3, Ke[r, 0]);
      a1 := EncWord(t1, t2, t3, t0, Ke[r, 1]);
      a2 := EncWord(t2, t3, t0, t1, Ke[r, 2]);
      a3 := EncWord(t3, t0, t1, t2, Ke[r, 3]);
      EncWordMeans(t0, t1, t2, t3, Ke[r, 0]);
      EncWordMeans(t1, t2, t3, t0, Ke[r, 1]);
      EncWordMeans(t2, t3, t0, t1, Ke[r, 2]);
      EncWordMeans(t3, t0, t1, t2, Ke[r, 3]);
      EncRoundOfFour([Unpack(t0), Unpack(t1), Unpack(t2), Unpack(t3)], sched.ke[r], [Unpack(a0), Unpack(a1), Unpack(a2), Unpack(a3)]);
    }

    /** The last round of the unrolled path. */
    method DefEncryptLast(dst: array<bv8>, di: nat, t0: bv32, t1: bv32, t2: bv32, t3: bv32)
      requires Valid() && keyInit && blockSize == 16
      requires di + 16 <= dst.Length
      modifies dst
      ensures dst[..] == Splice(old(dst[..]), di,
                FromState(AddRoundKey(ShiftRows(SubBytes([Unpack(t0), Unpack(t1), Unpack(t2), Unpack(t3)])), sched.ke[sched.nr])))
    {
      hide Unpack, AddCol, S, Add, SubCol, Byte0, Byte1, Byte2, Byte3, SubBytes, ShiftRows, FromState, Splice, DecryptKeys;
      ghost var was := dst[..];
      var k0 := Ke[rounds, 0];
      Put(dst, di,
          Add(S(Byte0(t0)), Byte0(k0)), Add(S(Byte1(t1)), Byte1(k0)),
          Add(S(Byte2(t2)), Byte2(k0)), Add(S(Byte3(t3)), Byte3(k0)));
      LastEncMeans(t0, t1, t2, t3, k0);
      var k1 := Ke[rounds, 1];
      Put(dst, di + 4,
          Add(S(Byte0(t1)), Byte0(k1)), Add(S(Byte1(t2)), Byte1(k1)),
          Add(S(Byte2(t3)), Byte2(k1)), Add(S(Byte3(t0)), Byte3(k1)));
      LastEncMeans(t1, t2, t3, t0, k1);
      var k2 := Ke[rounds, 2];
      Put(dst, di + 8,
          Add(S(Byte0(t2)), Byte0(k2)), Add(S(Byte1(t3)), Byte1(k2)),
          Add(S(Byte2(t0)), Byte2(k2)), Add(S(Byte3(t1)), Byte3(k2)));
      LastEncMeans(t2, t3, t0, t1, k2);
      var k3 := Ke[rounds, 3];
      Put(dst, di + 12,
          Add(S(Byte0(t3)), Byte0(k3)), Add(S(Byte1(t0)), Byte1(k3)),
          Add(S(Byte2(t1)), Byte2(k3)), Add(S(Byte3(t2)), Byte3(k3)));
      LastEncMeans(t3, t0, t1, t2, k3);
      ghost var key := sched.ke[sched.nr];
      ghost var next := [AddCol(SubCol(Col(Unpack(t0).b0, Unpack(t1).b1, Unpack(t2).b2, Unpack(t3).b3)), key[0]),
                            AddCol(SubCol(Col(Unpack(t1).b0, Unpack(t2).b1, Unpack(t3).b2, Unpack(t0).b3)), key[1]),
                            AddCol(SubCol(Col(Unpack(t2).b0, Unpack(t3).b1, Unpack(t0).b2, Unpack(t1).b3)), key[2]),
                            AddCol(SubCol(Col(Unpack(t3).b0, Unpack(t0).b1, Unpack(t1).b2, Unpack(t2).b3)), key[3])];
      EncLastOfFour([Unpack(t0), Unpack(t1), Unpack(t2), Unpack(t3)], key, next);
      SpliceFour(was, di, next[0], next[1], next[2], next[3]);
    }

    /** One block, by the path that its width selects. */
    method EncryptBlock(src: array<bv8>, si: nat, dst: array<bv8>, di: nat) returns (status: Status)
      requires Valid()
      requires keyInit ==> si + blockSize <= src.Length && di + blockSize <= dst.Length
      modifies dst, t, a
      ensures status == if keyInit then Done else NotInitialized
      ensures status == Done ==> dst[..] == Splice(old(dst[..]), di, EncBlock(sched, old(src[si..si + blockSize])))
      ensures status != Done ==> unchanged(dst) && unchanged(t) && unchanged(a)
    {
      if !keyInit {
        return NotInitialized;
      }
      if blockSize == DEFAULT_BLOCK_SIZE {
        DefEncryptBlock(src, si, dst, di);
      } else {
        EncryptGeneral(src, si, dst, di);
      }
      return Done;
    }

    // -------------------------------------------------------------- decryption of a block

    /** One round of the round loop of `DecryptBlock`. */
    method DecryptRound(r: nat)
      requires Valid() && keyInit && 1 <= r < rounds
      modifies t, a
      ensures ColumnsOf(t[..sched.bc])
           == AddRoundKey(InvMixColumns(InvShiftRows(InvSubBytes(old(ColumnsOf(t[..sched.bc]))))), sched.kd[r])
    {
      hide DecWord, Unpack, AddCol, InvMixCol, InvSubCol, Si, Turn, Gather, DecOffsets, InvSubBytes, InvShiftRows, InvMixColumns, AddRoundKey, DecryptKeys;
      var BC := blockSize / 4;
      var s1, s2, s3 := DecOffsets(BC).s1, DecOffsets(BC).s2, DecOffsets(BC).s3;
      ghost var w := t[..BC];
      ghost var cur := ColumnsOf(w);
      var i := 0;
      while i < BC
        invariant 0 <= i <= BC && t[..BC] == w
        invariant forall j | 0 <= j < i ::
                    Unpack(a[j]) == AddCol(InvMixCol(InvSubCol(Gather(DecOffsets(BC), cur, j))), sched.kd[r][j])
        modifies a
      {
        var w0, w1, w2, w3 := t[i], t[Turn(i, s1, BC)], t[Turn(i, s2, BC)], t[Turn(i, s3, BC)];
        GatherWords(DecOffsets(BC), w, i);
        DecWordMeans(w0, w1, w2, w3, Kd[r, i]);
        a[i] := DecWord(w0, w1, w2, w3, Kd[r, i]);
        i := i + 1;
      }
      DecRoundFromWords(cur, sched.kd[r], ColumnsOf(a[..BC]));
      forall j | 0 <= j < BC {
        t[j] := a[j];
      }
      assert t[..BC] == a[..BC];
    }

    /** One column of the last round, which mixes no columns, written out byte by byte. */
    method DecryptLastColumn(dst: array<bv8>, n: nat, i: nat)
      requires Valid() && keyInit && i < sched.bc && n + 4 <= dst.Length
      modifies dst
      ensures var c := AddCol(InvSubCol(Gather(DecOffsets(sched.bc), ColumnsOf(t[..sched.bc]), i)), sched.kd[sched.nr][i]);
              dst[..] == old(dst[..])[n := c.b0][n + 1 := c.b1][n + 2 := c.b2][n + 3 := c.b3]
    {
      hide Unpack, AddCol, Byte0, Byte1, Byte2, Byte3, Add, Si, InvSubCol, Turn, Gather, ColumnsOf, DecOffsets, DecryptKeys;
      var BC := blockSize / 4;
      var s1, s2, s3 := DecOffsets(BC).s1, DecOffsets(BC).s2, DecOffsets(BC).s3;
      var w0, w1, w2, w3 := t[i], t[Turn(i, s1, BC)], t[Turn(i, s2, BC)], t[Turn(i, s3, BC)];
      var tt := Kd[rounds, i];
      GatherWords(DecOffsets(BC), t[..BC], i);
      LastDecMeans(w0, w1, w2, w3, tt);
      Put(dst, n,
          Add(Si(Byte0(w0)), Byte0(tt)), Add(Si(Byte1(w1)), Byte1(tt)),
          Add(Si(Byte2(w2)), Byte2(tt)), Add(Si(Byte3(w3)), Byte3(tt)));
    }

    /** The last round. */
    method DecryptLast(dst: array<bv8>, di: nat)
      requires Valid() && keyInit
      requires di + blockSize <= dst.Length
      modifies dst
      ensures dst[..] == Splice(old(dst[..]), di,
                FromState(AddRoundKey(InvShiftRows(InvSubBytes(ColumnsOf(t[..sched.bc]))), sched.kd[sched.nr])))
    {
      hide Valid, AddCol, InvSubCol, Gather, DecOffsets, InvSubBytes, InvShiftRows, AddRoundKey, Splice, FromState, ColumnsOf, DecryptKeys;
      var BC := blockSize / 4;
      ghost var cur := ColumnsOf(t[..BC]);
      ghost var key := sched.kd[sched.nr];
      ghost var out := seq(BC, j requires 0 <= j < BC => AddCol(InvSubCol(Gather(DecOffsets(BC), cur, j)), key[j]));
      SpliceNothing(dst[..], di);
      assert out[..0] == [];
      var i := 0;
      while i < BC
        invariant 0 <= i <= BC
        invariant dst[..] == Splice(old(dst[..]), di, FromState(out[..i]))
      {
        ghost var was := dst[..];
        DecryptLastColumn(dst, di + 4 * i, i);
        SpliceColumn(old(dst[..]), di, out[..i], out[i], was);
        assert out[..i] + [out[i]] == out[..i + 1];
        i := i + 1;
      }
      assert out[..BC] == out;
      DecLastFromWords(cur, key, out);
    }

    /** The general path of `DecryptBlock`, for any block width. */
    method DecryptGeneral(src: array<bv8>, si: nat, dst: array<bv8>, di: nat)
      requires Valid() && keyInit
      requires si + blockSize <= src.Length && di + blockSize <= dst.Length
      modifies dst, t, a
      ensures dst[..] == Splice(old(dst[..]), di, DecBlock(sched, old(src[si..si + blockSize])))
    {
      hide Valid, InvSubBytes, InvShiftRows, InvMixColumns, AddRoundKey, ColumnsOf, ToState, FromState, Splice;
      ghost var s0 := ToState(src[si..si + blockSize]);
      Load(src, si, Kd, sched.kd);
      var r := 1;
      while r < rounds
        invariant 1 <= r <= rounds
        invariant ColumnsOf(t[..sched.bc]) == EqRounds(sched.bc, rounds, sched.kd, s0, r - 1)
        modifies t, a
      {
        DecryptRound(r);
        r := r + 1;
      }
      ghost var last := EqRounds(sched.bc, sched.nr, sched.kd, s0, sched.nr - 1);
      assert ColumnsOf(t[..sched.bc]) == last;
      assert dst[..] == old(dst[..]);
      DecryptLast(dst, di);
      assert AddRoundKey(InvShiftRows(InvSubBytes(last)), sched.kd[sched.nr]) == EqInvCipher(sched.bc, sched.nr, sched.kd, s0);
    }

    /** The unrolled path of `DecryptBlock` for blocks of four columns. */
    method DefDecryptBlock(src: array<bv8>, si: nat, dst: array<bv8>, di: nat)
      requires Valid() && keyInit && blockSize == 16
      requires si + blockSize <= src.Length && di + blockSize <= dst.Length
      modifies dst
      ensures dst[..] == Splice(old(dst[..]), di, DecBlock(sched, old(src[si..si + blockSize])))
    {
      hide Valid, Unpack, InvSubBytes, InvShiftRows, InvMixColumns, AddRoundKey, ToState, FromState, Splice, DecryptKeys;
      ghost var k := sched.kd;
      ghost var s0 := ToState(src[si..si + blockSize]);
      var t0, t1, t2, t3 := LoadFour(src, si, Kd, k);
      var r := 1;
      while r < rounds
        invariant 1 <= r <= rounds
        invariant [Unpack(t0), Unpack(t1), Unpack(t2), Unpack(t3)] == EqRounds(4, rounds, k, s0, r - 1)
        modifies {}
      {
        t0, t1, t2, t3 := DefDecryptRound(r, t0, t1, t2, t3);
        r := r + 1;
      }
      ghost var last := EqRounds(sched.bc, sched.nr, k, s0, sched.nr - 1);
      assert [Unpack(t0), Unpack(t1), Unpack(t2), Unpack(t3)] == last;
      assert dst[..] == old(dst[..]);
      DefDecryptLast(dst, di, t0, t1, t2, t3);
      assert AddRoundKey(InvShiftRows(InvSubBytes(last)), k[sched.nr]) == EqInvCipher(sched.bc, sched.nr, k, s0);
    }

    /** One round of the unrolled path. */
    method DefDecryptRound(r: nat, t0: bv32, t1: bv32, t2: bv32, t3: bv32) returns (a0: bv32, a1: bv32, a2: bv32, a3: bv32)
      requires Valid() && keyInit && blockSize == 16 && 1 <= r < rounds
      ensures [Unpack(a0), Unpack(a1), Unpack(a2), Unpack(a3)]
           == AddRoundKey(InvMixColumns(InvShiftRows(InvSubBytes([Unpack(t0), Unpack(t1), Unpack(t2), Unpack(t3)]))), sched.kd[r])
    {
      hide DecWord, Unpack, AddCol, InvMixCol, InvSubCol, InvSubBytes, InvShiftRows, InvMixColumns, AddRoundKey, DecryptKeys;
      a0 := DecWord(t0, t3, t2, t1, Kd[r, 0]);
      a1 := DecWord(t1, t0, t3, t2, Kd[r, 1]);
      a2 := DecWord(t2, t1, t0, t3, Kd[r, 2]);
      a3 := DecWord(t3, t2, t1, t0, Kd[r, 3]);
      DecWordMeans(t0, t3, t2, t1, Kd[r, 0]);
      DecWordMeans(t1, t0, t3, t2, Kd[r, 1]);
      DecWordMeans(t2, t1, t0, t3, Kd[r, 2]);
      DecWordMeans(t3, t2, t1, t0, Kd[r, 3]);
      DecRoundOfFour([Unpack(t0), Unpack(t1), Unpack(t2), Unpack(t3)], sched.kd[r], [Unpack(a0), Unpack(a1), Unpack(a2), Unpack(a3)]);
    }

    /** The last round of the unrolled path. */
    method DefDecryptLast(dst: array<bv8>, di: nat, t0: bv32, t1: bv32, t2: bv32, t3: bv32)
      requires Valid() && keyInit && blockSize == 16
      requires di + 16 <= dst.Length
      modifies dst
      ensures dst[..] == Splice(old(dst[..]), di,
                FromState(AddRoundKey(InvShiftRows(InvSubBytes([Unpack(t0), Unpack(t1), Unpack(t2), Unpack(t3)])), sched.kd[sched.nr])))
    {
      hide Unpack, AddCol, Si, Add, InvSubCol, Byte0, Byte1, Byte2, Byte3, InvSubBytes, InvShiftRows, FromState, Splice, DecryptKeys;
      ghost var was := dst[..];
      var k0 := Kd[rounds, 0];
      Put(dst, di,
          Add(Si(Byte0(t0)), Byte0(k0)), Add(Si(Byte1(t3)), Byte1(k0)),
          Add(Si(Byte2(t2)), Byte2(k0)), Add(Si(Byte3(t1)), Byte3(k0)));
      LastDecMeans(t0, t3, t2, t1, k0);
      var k1 := Kd[rounds, 1];
      Put(dst, di + 4,
          Add(Si(Byte0(t1)), Byte0(k1)), Add(Si(Byte1(t0)), Byte1(k1)),
          Add(Si(Byte2(t3)), Byte2(k1)), Add(Si(Byte3(t2)), Byte3(k1)));
      LastDecMeans(t1, t0, t3, t2, k1);
      var k2 := Kd[rounds, 2];
      Put(dst, di + 8,
          Add(Si(Byte0(t2)), Byte0(k2)), Add(Si(Byte1(t1)), Byte1(k2)),
          Add(Si(Byte2(t0)), Byte2(k2)), Add(Si(Byte3(t3)), Byte3(k2)));
      LastDecMeans(t2, t1, t0, t3, k2);
      var k3 := Kd[rounds, 3];
      Put(dst, di + 12,
          Add(Si(Byte0(t3)), Byte0(k3)), Add(Si(Byte1(t2)), Byte1(k3)),
          Add(Si(Byte2(t1)), Byte2(k3)), Add(Si(Byte3(t0)), Byte3(k3)));
      LastDecMeans(t3, t2, t1, t0, k3);
      ghost var key := sched.kd[sched.nr];
      ghost var next := [AddCol(InvSubCol(Col(Unpack(t0).b0, Unpack(t3).b1, Unpack(t2).b2, Unpack(t1).b3)), key[0]),
                            AddCol(InvSubCol(Col(Unpack(t1).b0, Unpack(t0).b1, Unpack(t3).b2, Unpack(t2).b3)), key[1]),
                            AddCol(InvSubCol(Col(Unpack(t2).b0, Unpack(t1).b1, Unpack(t0).b2, Unpack(t3).b3)), key[2]),
                            AddCol(InvSubCol(Col(Unpack(t3).b0, Unpack(t2).b1, Unpack(t1).b2, Unpack(t0).b3)), key[3])];
      DecLastOfFour([Unpack(t0), Unpack(t1), Unpack(t2), Unpack(t3)], key, next);
      SpliceFour(was, di, next[0], next[1], next[2], next[3]);
    }

    /** One block, by the path that its width selects. */
    method DecryptBlock(src: array<bv8>, si: nat, dst: array<bv8>, di: nat) returns (status: Status)
      requires Valid()
      requires keyInit ==> si + blockSize <= src.Length && di + blockSize <= dst.Length
      modifies dst, t, a
      ensures status == if keyInit then Done else NotInitialized
      ensures status == Done ==> dst[..] == Splice(old(dst[..]), di, DecBlock(sched, old(src[si..si + blockSize])))
      ensures status != Done ==> unchanged(dst) && unchanged(t) && unchanged(a)
    {
      if !keyInit {
        return NotInitialized;
      }
      if blockSize == DEFAULT_BLOCK_SIZE {
        DefDecryptBlock(src, si, dst, di);
      } else {
        DecryptGeneral(src, si, dst, di);
      }
      return Done;
    }

    // -------------------------------------------------------------- messages

    /** The buffers of a call are the caller's own. */
    ghost predicate Foreign(b: array<bv8>) {
      b != chain0 && b != chain
    }

    /** Adds one block of memory to another: apart from each other, or to itself. */
    method XorInto(buff: array<bv8>, bi: nat, src: array<bv8>, si: nat) returns (status: Status)
      requires Valid()
      requires keyInit ==> bi + blockSize <= buff.Length && si + blockSize <= src.Length
      requires buff != src || bi == si
      modifies buff
      ensures status == if keyInit then Done else NotInitialized
      ensures status == Done ==>
                buff[..] == Splice(old(buff[..]), bi, XorBytes(old(buff[bi..bi + blockSize]), old(src[si..si + blockSize])))
      ensures status != Done ==> unchanged(buff)
    {
      hide Valid, Add;
      if !keyInit {
        return NotInitialized;
      }
      ghost var x, y := buff[bi..bi + blockSize], src[si..si + blockSize];
      var i := 0;
      while i < blockSize
        invariant 0 <= i <= blockSize
        invariant forall j | 0 <= j < buff.Length ::
                    buff[j] == if bi <= j < bi + i then Add(x[j - bi], y[j - bi]) else old(buff[j])
        invariant buff != src ==> unchanged(src)
      {
        buff[bi + i] := Add(buff[bi + i], src[si + i]);
        i := i + 1;
      }
      return Done;
    }

    /** Copies one block of memory, for chains and buffers. */
    method CopyBlock(dst: array<bv8>, src: array<bv8>, si: nat)
      requires dst != src && blockSize <= dst.Length && si + blockSize <= src.Length
      modifies dst
      ensures dst[..blockSize] == src[si..si + blockSize]
      ensures dst[blockSize..] == old(dst[blockSize..])
    {
      forall i | 0 <= i < blockSize {
        dst[i] := src[si + i];
      }
    }

    /** Starts the chain again from the one given with the key; before, the size is whatever the memory held. */
    method ResetChain()
      requires Shape() && blockSize <= MAX_BLOCK_SIZE
      modifies chain
      ensures chain[..blockSize] == chain0[..blockSize]
      ensures chain[blockSize..] == old(chain[blockSize..])
    {
      CopyBlock(chain, chain0, 0);
    }

    method EncryptCbc(input: array<bv8>, result: array<bv8>, at: nat)
      requires Valid() && keyInit && Foreign(input) && Foreign(result)
      requires at + blockSize <= input.Length && at + blockSize <= result.Length
      modifies result, chain, t, a
      ensures var c := EncBlock(sched, XorBytes(old(chain[..blockSize]), old(input[at..at + blockSize])));
              result[..] == Splice(old(result[..]), at, c) && chain[..blockSize] == c
    {
      hide Valid, EncBlock, Splice, XorBytes;
      ghost var x := XorBytes(chain[..blockSize], input[at..at + blockSize]);
      assert chain[0..blockSize] == chain[..blockSize];
      SpliceHolds(chain[..], 0, x);
      var summed := XorInto(chain, 0, input, at);
      assert chain[0..blockSize] == chain[..][0..blockSize] == x;
      var status := EncryptBlock(chain, 0, result, at);
      SpliceHolds(old(result[..]), at, EncBlock(sched, x));
      assert result[at..at + blockSize] == result[..][at..at + blockSize];
      CopyBlock(chain, result, at);
    }

    /** The input block is read after the output block has been written. */
    method EncryptCfb(input: array<bv8>, result: array<bv8>, at: nat)
      requires Valid() && keyInit && Foreign(input) && Foreign(result)
      requires at + blockSize <= input.Length && at + blockSize <= result.Length
      modifies result, chain, t, a
      ensures var r := XorBytes(EncBlock(sched, old(chain[..blockSize])), old(input[at..at + blockSize]));
              var o := if input == result then Zeros(blockSize) else r;
              result[..] == Splice(old(result[..]), at, o) &&
              chain[..blockSize] == if input == result then Zeros(blockSize) else r
    {
      hide Valid, EncBlock, Splice, XorBytes, Zeros;
      ghost var e := EncBlock(sched, chain[..blockSize]);
      assert chain[0..blockSize] == chain[..blockSize];
      var status := EncryptBlock(chain, 0, result, at);
      SpliceHolds(old(result[..]), at, e);
      assert result[at..at + blockSize] == result[..][at..at + blockSize] == e;
      ghost var y := input[at..at + blockSize];
      assert input != result ==> y == old(input[at..at + blockSize]);
      var summed := XorInto(result, at, input, at);
      XorWithItself(e);
      SpliceTwice(old(result[..]), at, e, XorBytes(e, y));
      SpliceHolds(old(result[..]), at, XorBytes(e, y));
      assert result[at..at + blockSize] == result[..][at..at + blockSize] == XorBytes(e, y);
      CopyBlock(chain, result, at);
    }

    /** One block of `Encrypt`, in the mode given; `at` is how far the two pointers have advanced. */
    method EncryptOne(input: array<bv8>, result: array<bv8>, at: nat, ghost n: nat, mode: int)
      requires Valid() && keyInit && Foreign(input) && Foreign(result)
      requires at + blockSize <= input.Length && at + blockSize <= result.Length
      modifies result, chain, t, a
      ensures var o := EncryptStepOf(sched, input == result, mode, old(chain[..blockSize]), old(input[at..at + blockSize]));
              result[..] == Splice(old(result[..]), at, o.data) && chain[..blockSize] == o.chain
      ensures at + blockSize <= n <= input.Length ==> input[at + blockSize..n] == old(input[at + blockSize..n])
    {
      hide Valid, EncBlock, DecBlock, Splice, XorBytes, Zeros;
      ghost var o := EncryptStepOf(sched, input == result, mode, chain[..blockSize], input[at..at + blockSize]);
      if mode == CBC {
        EncryptCbc(input, result, at);
      } else if mode == CFB {
        EncryptCfb(input, result, at);
      } else {
        var status := EncryptBlock(input, at, result, at);
      }
      if at + blockSize <= n <= input.Length {
        if input == result {
          SpliceTail(old(result[..]), at, o.data, n);
        }
      }
    }

    /** The loop over the blocks of a message. */
    method EncryptBlocks(input: array<bv8>, result: array<bv8>, n: nat, mode: int)
      requires Valid() && keyInit && Foreign(input) && Foreign(result)
      requires n <= input.Length && n <= result.Length && n % blockSize == 0
      modifies result, chain, t, a
      ensures Whole(sched, n) &&
              var o := EncryptOf(sched, input == result, mode, old(chain[..blockSize]), old(input[..n]));
              result[..] == o.data + old(result[n..]) && chain[..blockSize] == o.chain
    {
      hide Valid, EncryptStepOf, EncryptOf, EncryptProgress, Splice, DecryptKeys;
      ghost var c0, msg, was := chain[..blockSize], input[..n], result[..];
      ghost var shared := input == result;
      var i, at := 0, 0;
      EncryptBegins(sched, shared, mode, c0, msg, was);
      while i < n / blockSize
        invariant 0 <= i <= n / blockSize && at == i * blockSize <= n
        invariant EncryptProgress(sched, shared, mode, c0, msg, was, at, result[..], chain[..blockSize])
        invariant input[at..n] == msg[at..]
      {
        NextBlockFits(i, n, blockSize);
        EncryptProgresses(sched, shared, mode, c0, msg, was, at, result[..], chain[..blockSize]);
        SliceAdvances(input[..], msg, at, blockSize);
        EncryptOne(input, result, at, n, mode);
        i := i + 1;
        at := at + blockSize;
      }
      WholeQuotient(n, blockSize);
      EncryptEnds(sched, shared, mode, c0, msg, was, result[..], chain[..blockSize]);
    }

    /** A message of whole blocks, from the chain that is there; refused calls change nothing. */
    method Encrypt(input: array<bv8>, result: array<bv8>, n: nat, mode: int) returns (status: Status)
      requires Valid() && Foreign(input) && Foreign(result)
      requires n <= input.Length && n <= result.Length
      modifies result, chain, t, a
      ensures status == if !keyInit then NotInitialized
                        else if n == 0 || n % blockSize != 0 then NotWholeBlocks else Done
      ensures status == Done ==>
                LegalMessage(sched, n) &&
                var o := EncryptOf(sched, input == result, mode, old(chain[..blockSize]), old(input[..n]));
                result[..] == o.data + old(result[n..]) && chain[..blockSize] == o.chain
      ensures status != Done ==> unchanged(result) && unchanged(chain) && unchanged(t) && unchanged(a)
    {
      if !keyInit {
        return NotInitialized;
      }
      if n == 0 || n % blockSize != 0 {
        return NotWholeBlocks;
      }
      hide Valid, EncryptOf;
      EncryptBlocks(input, result, n, mode);
      return Done;
    }

    /** The chain takes the input block as it stands after the output block has been written. */
    method DecryptCbc(input: array<bv8>, result: array<bv8>, at: nat)
      requires Valid() && keyInit && Foreign(input) && Foreign(result)
      requires at + blockSize <= input.Length && at + blockSize <= result.Length
      modifies result, chain, t, a
      ensures var p := XorBytes(DecBlock(sched, old(input[at..at + blockSize])), old(chain[..blockSize]));
              result[..] == Splice(old(result[..]), at, p) &&
              chain[..blockSize] == if input == result then p else old(input[at..at + blockSize])
    {
      hide Valid, DecBlock, Splice, XorBytes;
      ghost var d := DecBlock(sched, input[at..at + blockSize]);
      ghost var x := XorBytes(d, chain[..blockSize]);
      var status := DecryptBlock(input, at, result, at);
      SpliceHolds(old(result[..]), at, d);
      assert result[at..at + blockSize] == result[..][at..at + blockSize] == d;
      assert chain[0..blockSize] == chain[..blockSize];
      var summed := XorInto(result, at, chain, 0);
      SpliceTwice(old(result[..]), at, d, x);
      SpliceHolds(old(result[..]), at, x);
      assert result[at..at + blockSize] == result[..][at..at + blockSize];
      CopyBlock(chain, input, at);
    }

    /** The input block is read after the output block has been written. */
    method DecryptCfb(input: array<bv8>, result: array<bv8>, at: nat)
      requires Valid() && keyInit && Foreign(input) && Foreign(result)
      requires at + blockSize <= input.Length && at + blockSize <= result.Length
      modifies result, chain, t, a
      ensures var r := XorBytes(EncBlock(sched, old(chain[..blockSize])), old(input[at..at + blockSize]));
              var o := if input == result then Zeros(blockSize) else r;
              result[..] == Splice(old(result[..]), at, o) &&
              chain[..blockSize] == if input == result then Zeros(blockSize) else old(input[at..at + blockSize])
    {
      hide Valid, EncBlock, Splice, XorBytes, Zeros;
      ghost var e := EncBlock(sched, chain[..blockSize]);
      assert chain[0..blockSize] == chain[..blockSize];
      var status := EncryptBlock(chain, 0, result, at);
      SpliceHolds(old(result[..]), at, e);
      assert result[at..at + blockSize] == result[..][at..at + blockSize] == e;
      ghost var y := input[at..at + blockSize];
      assert input != result ==> y == old(input[at..at + blockSize]);
      var summed := XorInto(result, at, input, at);
      XorWithItself(e);
      SpliceTwice(old(result[..]), at, e, XorBytes(e, y));
      SpliceHolds(old(result[..]), at, XorBytes(e, y));
      assert result[at..at + blockSize] == result[..][at..at + blockSize] == XorBytes(e, y);
      CopyBlock(chain, input, at);
    }

    /** One block of `Decrypt`, in the mode given; `at` is how far the two pointers have advanced. */
    method DecryptOne(input: array<bv8>, result: array<bv8>, at: nat, ghost n: nat, mode: int)
      requires Valid() && keyInit && Foreign(input) && Foreign(result)
      requires at + blockSize <= input.Length && at + blockSize <= result.Length
      modifies result, chain, t, a
      ensures var o := DecryptStepOf(sched, input == result, mode, old(chain[..blockSize]), old(input[at..at + blockSize]));
              result[..] == Splice(old(result[..]), at, o.data) && chain[..blockSize] == o.chain
      ensures at + blockSize <= n <= input.Length ==> input[at + blockSize..n] == old(input[at + blockSize..n])
    {
      hide Valid, EncBlock, DecBlock, Splice, XorBytes, Zeros;
      ghost var o := DecryptStepOf(sched, input == result, mode, chain[..blockSize], input[at..at + blockSize]);
      if mode == CBC {
        DecryptCbc(input, result, at);
      } else if mode == CFB {
        DecryptCfb(input, result, at);
      } else {
        var status := DecryptBlock(input, at, result, at);
      }
      if at + blockSize <= n <= input.Length {
        if input == result {
          SpliceTail(old(result[..]), at, o.data, n);
        }
      }
    }

    /** The loop over the blocks of a message. */
    method DecryptBlocks(input: array<bv8>, result: array<bv8>, n: nat, mode: int)
      requires Valid() && keyInit && Foreign(input) && Foreign(result)
      requires n <= input.Length && n <= result.Length && n % blockSize == 0
      modifies result, chain, t, a
      ensures Whole(sched, n) &&
              var o := DecryptOf(sched, input == result, mode, old(chain[..blockSize]), old(input[..n]));
              result[..] == o.data + old(result[n..]) && chain[..blockSize] == o.chain
    {
      hide Valid, DecryptStepOf, DecryptOf, DecryptProgress, Splice, DecryptKeys;
      ghost var c0, msg, was := chain[..blockSize], input[..n], result[..];
      ghost var shared := input == result;
      var i, at := 0, 0;
      DecryptBegins(sched, shared, mode, c0, msg, was);
      while i < n / blockSize
        invariant 0 <= i <= n / blockSize && at == i * blockSize <= n
        invariant DecryptProgress(sched, shared, mode, c0, msg, was, at, result[..], chain[..blockSize])
        invariant input[at..n] == msg[at..]
      {
        NextBlockFits(i, n, blockSize);
        DecryptProgresses(sched, shared, mode, c0, msg, was, at, result[..], chain[..blockSize]);
        SliceAdvances(input[..], msg, at, blockSize);
        DecryptOne(input, result, at, n, mode);
        i := i + 1;
        at := at + blockSize;
      }
      WholeQuotient(n, blockSize);
      DecryptEnds(sched, shared, mode, c0, msg, was, result[..], chain[..blockSize]);
    }

    /** A message of whole blocks, from the chain that is there; refused calls change nothing. */
    method Decrypt(input: array<bv8>, result: array<bv8>, n: nat, mode: int) returns (status: Status)
      requires Valid() && Foreign(input) && Foreign(result)
      requires n <= input.Length && n <= result.Length
      modifies result, chain, t, a
      ensures status == if !keyInit then NotInitialized
                        else if n == 0 || n % blockSize != 0 then NotWholeBlocks else Done
      ensures status == Done ==>
                LegalMessage(sched, n) &&
                var o := DecryptOf(sched, input == result, mode, old(chain[..blockSize]), old(input[..n]));
                result[..] == o.data + old(result[n..]) && chain[..blockSize] == o.chain
      ensures status != Done ==> unchanged(result) && unchanged(chain) && unchanged(t) && unchanged(a)
    {
      if !keyInit {
        return NotInitialized;
      }
      if n == 0 || n % blockSize != 0 {
        return NotWholeBlocks;
      }
      hide Valid, DecryptOf;
      DecryptBlocks(input, result, n, mode);
      return Done;
    }
  }
}
