/** What the entries of the S-box are (section 5.1.1 of FIPS 197). */
module SBoxMeaning {
  import opened GaloisField
  import opened SBoxTables
  import opened LogTables
  import opened LogMultiplication

  /** The multiplicative inverse, through the logarithm tables; zero for zero. */
  function Inverse(x: bv8): bv8 {
    if x == 0 then 0 else Alog(255 - Log(x))
  }

  /** The affine transformation over the bits. */
  function Affine(b: bv8): bv8 {
    b ^ ((b << 1) | (b >> 7)) ^ ((b << 2) | (b >> 6)) ^ ((b << 3) | (b >> 5)) ^ ((b << 4) | (b >> 4)) ^ 0x63
  }

  lemma LogsOfInverse(x: bv8)
    requires x != 0
    ensures Log(x) < 255 && (Log(x) == 0 ==> x == 1)
    ensures Log(x) != 0 ==> 255 - Log(x) < 255 && AddLogs(Log(x), 255 - Log(x)) == 0
  {
  }

  lemma InverseInverts(x: bv8)
    requires x != 0
    ensures Mul(x, Inverse(x)) == 1
  {
    hide Alog, Log, AddLogs, Mul;
    LogsOfInverse(x);
    AlogOfLog(x);
    AlogStart(0);
    if Log(x) == 0 {
      MulOne(Inverse(x));
    } else {
      AlogHomomorphism(Log(x), 255 - Log(x));
    }
  }

  /** The substitution inverts in the field and then applies the affine transformation. */
  lemma SubstitutionIsAffineInverse(x: bv8)
    ensures S(x) == Affine(Inverse(x))
  {
  }
}
