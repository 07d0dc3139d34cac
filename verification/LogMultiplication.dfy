/** Multiplication through the logarithm tables, as the header offers it for generating the lookup tables, is the
    field multiplication; and the arguments for which it is not. */
module LogMultiplication {
  import opened GaloisField
  import opened Columns
  import opened LogTables
  import opened Words

  /** Reduction modulo the order of the multiplicative group. */
  function Reduce(s: bv16): bv8 {
    (s % 255) as bv8
  }

  /** Adding two logarithms. */
  function AddLogs(i: bv8, j: bv8): bv8 {
    Reduce(i as bv16 + j as bv16)
  }

  /** `CRijndael::Mul`, on the program's integers. */
  function LogMul(a: bv32, b: bv32): bv32 {
    if a != 0 && b != 0 then Alog(AddLogs(Log(Byte3(a)), Log(Byte3(b)))) as bv32 else 0
  }

  /** One entry of `CRijndael::Mul4`, for the logarithm of a factor that is not zero. */
  function LogMulEntry(l: bv8, b: bv8): bv8 {
    if b != 0 then Alog(AddLogs(l, Log(b))) else 0
  }

  /** `CRijndael::Mul4`: one factor times four bytes, packed. */
  function LogMul4(a: bv32, b: Col): bv32 {
    if a == 0 then 0
    else
      var l := Log(Byte3(a));
      Pack(Col(LogMulEntry(l, b.b0), LogMulEntry(l, b.b1), LogMulEntry(l, b.b2), LogMulEntry(l, b.b3)))
  }

  // ---------------------------------------------------------------- the tables

  lemma AlogStep(i: bv8)
    requires i != 255
    ensures Alog(i + 1) == Mul(3, Alog(i))
  {
    assert Alog(i + 1) == Add(Alog(i), Xtime(Alog(i)));
    ProductsByConstants(Alog(i));
  }

  lemma AlogOfLog(x: bv8)
    requires x != 0
    ensures Alog(Log(x)) == x && Log(x) != 255
  {
  }

  lemma AlogNotZero(i: bv8)
    ensures Alog(i) != 0
  {
  }

  lemma ReduceStep(s: bv16)
    requires 1 <= s <= 508
    ensures Reduce(s) == if Reduce(s - 1) == 254 then 0 else Reduce(s - 1) + 1
  {
  }

  lemma ReduceInRange(s: bv16)
    ensures Reduce(s) < 255
  {
  }

  lemma SumOfLogs(i: bv8, j: bv8)
    requires 0 < i < 255 && j < 255
    ensures 1 <= i as bv16 + j as bv16 <= 508
    ensures (i - 1) as bv16 + j as bv16 == (i as bv16 + j as bv16) - 1
  {
  }

  lemma AddLogsStep(i: bv8, j: bv8)
    requires 0 < i < 255 && j < 255
    ensures AddLogs(i - 1, j) < 255
    ensures AddLogs(i, j) == if AddLogs(i - 1, j) == 254 then 0 else AddLogs(i - 1, j) + 1
  {
    hide Reduce, AddLogs;
    var s := i as bv16 + j as bv16;
    SumOfLogs(i, j);
    AddLogsIs(i, j, s);
    AddLogsIs(i - 1, j, s - 1);
    ReduceStep(s);
    ReduceInRange(s - 1);
  }

  lemma AddLogsIs(i: bv8, j: bv8, s: bv16)
    requires i as bv16 + j as bv16 == s
    ensures AddLogs(i, j) == Reduce(s)
  {
  }

  lemma AlogStart(j: bv8)
    requires j < 255
    ensures Alog(0) == 1 && Alog(255) == 1 && AddLogs(0, j) == j
  {
  }

  /** The antilogarithm turns sums into products. */
  lemma {:induction false} AlogHomomorphism(i: bv8, j: bv8)
    requires i < 255 && j < 255
    ensures Alog(AddLogs(i, j)) == Mul(Alog(i), Alog(j))
    decreases i
  {
    hide Alog, AddLogs, Mul;
    AlogStart(j);
    if i == 0 {
      MulOne(Alog(j));
    } else {
      AddLogsStep(i, j);
      AlogStep(i - 1);
      AlogHomomorphism(i - 1, j);
      MulAssociative(3, Alog(i - 1), Alog(j));
      AlogStep(AddLogs(i - 1, j));
    }
  }

  // ---------------------------------------------------------------- the products

  lemma LogProduct(x: bv8, y: bv8)
    requires x != 0 && y != 0
    ensures Alog(AddLogs(Log(x), Log(y))) == Mul(x, y)
  {
    hide Alog, Log, AddLogs, Mul;
    AlogOfLog(x);
    AlogOfLog(y);
    if Log(x) < 255 && Log(y) < 255 {
      AlogHomomorphism(Log(x), Log(y));
    }
  }

  /** The program masks its arguments to a byte but tests them before: a factor that is a nonzero multiple of 256
      is taken for one.  The product is the one of the low bytes exactly when no such factor occurs beside a
      nonzero one. */
  predicate BytesSuffice(a: bv32, b: bv32) {
    a == 0 || b == 0 || (Byte3(a) != 0 && Byte3(b) != 0)
  }

  lemma ZeroAbsorbs(x: bv8)
    ensures Mul(x, 0) == 0 && Mul(0, x) == 0
  {
  }

  lemma ZeroBytes(a: bv32)
    ensures a == 0 ==> Byte3(a) == 0
  {
  }

  lemma WidenInjective(x: bv8, y: bv8)
    ensures x as bv32 == y as bv32 <==> x == y
  {
  }

  /** `Mul` is the product in the field exactly for such arguments; all bytes are. */
  lemma LogMulIsProductIff(a: bv32, b: bv32)
    ensures LogMul(a, b) == Mul(Byte3(a), Byte3(b)) as bv32 <==> BytesSuffice(a, b)
  {
    hide Alog, Log, AddLogs, Mul, Byte3;
    var x, y := Byte3(a), Byte3(b);
    ZeroBytes(a);
    ZeroBytes(b);
    ZeroAbsorbs(x);
    ZeroAbsorbs(y);
    if a != 0 && b != 0 {
      WidenInjective(Alog(AddLogs(Log(x), Log(y))), Mul(x, y));
      if x != 0 && y != 0 {
        LogProduct(x, y);
      } else {
        AlogNotZero(AddLogs(Log(x), Log(y)));
      }
    }
  }

  /** The byte that stands for a nonzero factor: its low byte, or one in place of zero. */
  function Taken(a: bv32): bv8 {
    if Byte3(a) == 0 then 1 else Byte3(a)
  }

  /** A nonzero multiple of 256 is taken for one. */
  lemma LogMulTakes(a: bv32, b: bv32)
    requires a != 0 && b != 0
    ensures LogMul(a, b) == Mul(Taken(a), Taken(b)) as bv32
  {
    LogOfZero();
    hide Alog, Log, AddLogs, Mul, Byte3;
    LogProduct(Taken(a), Taken(b));
  }

  lemma LogOfZero()
    ensures Log(0) == Log(1)
  {
  }

  /** The failing family is not empty: 256 times 1 comes out as 1, and the low byte of 256 is zero. */
  lemma LogMulOfWideFactor()
    ensures LogMul(256, 1) == 1 && Mul(Byte3(256), Byte3(1)) == 0
  {
  }

  /** `Mul4` multiplies a whole column by the byte that its factor is taken for. */
  lemma LogMul4Takes(a: bv32, b: Col)
    requires a != 0
    ensures Unpack(LogMul4(a, b)) == Col(Mul(Taken(a), b.b0), Mul(Taken(a), b.b1), Mul(Taken(a), b.b2), Mul(Taken(a), b.b3))
  {
    LogOfZero();
    hide Mul, LogMulEntry, Log, Pack, Unpack, Byte3;
    var x, l := Taken(a), Log(Byte3(a));
    EntryIsProduct(x, b.b0);
    EntryIsProduct(x, b.b1);
    EntryIsProduct(x, b.b2);
    EntryIsProduct(x, b.b3);
    UnpackPack(Col(LogMulEntry(l, b.b0), LogMulEntry(l, b.b1), LogMulEntry(l, b.b2), LogMulEntry(l, b.b3)));
  }

  /** `Mul4` multiplies a column by the low byte of its factor, except a nonzero column by a nonzero multiple of 256. */
  lemma LogMul4IsProductIff(a: bv32, b: Col)
    ensures Unpack(LogMul4(a, b)) == Col(Mul(Byte3(a), b.b0), Mul(Byte3(a), b.b1), Mul(Byte3(a), b.b2), Mul(Byte3(a), b.b3))
            <==> a == 0 || Byte3(a) != 0 || b == Col(0, 0, 0, 0)
  {
    hide Mul, Pack, Unpack, Byte3, Log;
    ZeroBytes(a);
    if a == 0 || Byte3(a) == 0 {
      ZeroTimes(b);
    }
    if a == 0 {
      UnpackZero();
    } else {
      LogMul4Takes(a, b);
      OneTimes(b);
    }
  }

  lemma ZeroTimes(b: Col)
    ensures Col(Mul(0, b.b0), Mul(0, b.b1), Mul(0, b.b2), Mul(0, b.b3)) == Col(0, 0, 0, 0)
  {
  }

  lemma OneTimes(b: Col)
    ensures Col(Mul(1, b.b0), Mul(1, b.b1), Mul(1, b.b2), Mul(1, b.b3)) == b
  {
    hide Mul;
    MulOne(b.b0);
    MulOne(b.b1);
    MulOne(b.b2);
    MulOne(b.b3);
  }

  lemma UnpackZero()
    ensures Unpack(0) == Col(0, 0, 0, 0)
  {
  }

  lemma EntryIsProduct(x: bv8, y: bv8)
    ensures x != 0 ==> LogMulEntry(Log(x), y) == Mul(x, y)
    ensures x == 0 ==> Mul(x, y) == 0
  {
    hide Alog, Log, AddLogs, Mul;
    ZeroAbsorbs(x);
    ZeroAbsorbs(y);
    if x != 0 && y != 0 {
      LogProduct(x, y);
    }
  }
}
