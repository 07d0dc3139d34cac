/** Arithmetic in GF(2^8) with the Rijndael polynomial (sections 4.1 and 4.2 of FIPS 197).

    `Mul` is the textbook product.  Everything the cipher needs of it is proved here: it is linear
    in both arguments, and a factor x can be moved across it.

    The lemmas hide the bit-level definitions and work with equations between field elements; only
    the leaves look at bits. */
module GaloisField {

  /** The sum of two field elements (section 4.1). */
  function Add(a: bv8, b: bv8): bv8 {
    a ^ b
  }

  /** Multiplication by x (section 4.2.1). */
  function Xtime(a: bv8): bv8 {
    if a & 0x80 == 0 then a << 1 else (a << 1) ^ 0x1B
  }

  /** `a` when the constant coefficient of `c` is one, zero otherwise. */
  function LowTerm(c: bv8, a: bv8): bv8 {
    if c & 1 == 0 then 0 else a
  }

  /** The product of two field elements: the sum of the x^k * a over the bits k of `c`. */
  function Mul(c: bv8, a: bv8): bv8
    decreases c
  {
    if c == 0 then 0 else Add(LowTerm(c, a), Mul(c >> 1, Xtime(a)))
  }

  lemma MulStep(c: bv8, a: bv8)
    requires c != 0
    ensures Mul(c, a) == Add(LowTerm(c, a), Mul(c >> 1, Xtime(a)))
  {
  }

  /** Exchanging the inner summands of two sums. */
  lemma AddExchange(p: bv8, q: bv8, r: bv8, s: bv8)
    ensures Add(Add(p, q), Add(r, s)) == Add(Add(p, r), Add(q, s))
  {
    calc {
      Add(Add(p, q), Add(r, s));
      Add(p ^ q, r ^ s);
      (p ^ q) ^ (r ^ s);
      (p ^ r) ^ (q ^ s);
      Add(p ^ r, q ^ s);
      Add(Add(p, r), Add(q, s));
    }
  }

  lemma AddZero(a: bv8)
    ensures Add(a, 0) == a && Add(0, a) == a
  {
  }

  lemma LowTermLinear(c: bv8, a: bv8, b: bv8)
    ensures LowTerm(c, Add(a, b)) == Add(LowTerm(c, a), LowTerm(c, b))
  {
  }

  lemma XtimeLinear(a: bv8, b: bv8)
    ensures Xtime(Add(a, b)) == Add(Xtime(a), Xtime(b))
  {
    if a & 0x80 == 0 {
      if b & 0x80 == 0 {} else {}
    } else {
      if b & 0x80 == 0 {} else {}
    }
  }

  lemma {:induction false} MulLinear(c: bv8, a: bv8, b: bv8)
    ensures Mul(c, Add(a, b)) == Add(Mul(c, a), Mul(c, b))
    decreases c
  {
    if c != 0 {
      hide Mul, Xtime, LowTerm, Add;
      MulStep(c, a);
      MulStep(c, b);
      MulStep(c, Add(a, b));
      XtimeLinear(a, b);
      LowTermLinear(c, a, b);
      MulLinear(c >> 1, Xtime(a), Xtime(b));
      AddExchange(LowTerm(c, a), LowTerm(c, b), Mul(c >> 1, Xtime(a)), Mul(c >> 1, Xtime(b)));
    }
  }

  /** `c` without its constant coefficient, divided by x, distributes over sums. */
  lemma ShiftLinear(c: bv8, d: bv8)
    ensures Add(c, d) >> 1 == Add(c >> 1, d >> 1)
  {
  }

  lemma LowTermLinearLeft(c: bv8, d: bv8, a: bv8)
    ensures LowTerm(Add(c, d), a) == Add(LowTerm(c, a), LowTerm(d, a))
  {
  }

  /** The defining equation also holds when `c` is zero. */
  lemma MulUnfold(c: bv8, a: bv8)
    ensures Mul(c, a) == Add(LowTerm(c, a), Mul(c >> 1, Xtime(a)))
  {
  }

  lemma MulZero(a: bv8)
    ensures Mul(0, a) == 0
  {
  }

  lemma {:induction false} MulLinearLeft(c: bv8, d: bv8, a: bv8)
    ensures Mul(Add(c, d), a) == Add(Mul(c, a), Mul(d, a))
    decreases c
  {
    hide Mul, Xtime, LowTerm, Add;
    if c == 0 {
      MulZero(a);
      AddZero(d);
      AddZero(Mul(d, a));
    } else {
      MulUnfold(c, a);
      MulUnfold(d, a);
      MulUnfold(Add(c, d), a);
      ShiftLinear(c, d);
      LowTermLinearLeft(c, d, a);
      MulLinearLeft(c >> 1, d >> 1, Xtime(a));
      AddExchange(LowTerm(c, a), LowTerm(d, a), Mul(c >> 1, Xtime(a)), Mul(d >> 1, Xtime(a)));
    }
  }

  lemma {:induction false} MulXtime(c: bv8, a: bv8)
    ensures Mul(c, Xtime(a)) == Xtime(Mul(c, a))
    decreases c
  {
    if c != 0 {
      assert Xtime(LowTerm(c, a)) == LowTerm(c, Xtime(a));
      hide Mul, Xtime, LowTerm, Add;
      MulStep(c, a);
      MulStep(c, Xtime(a));
      MulXtime(c >> 1, Xtime(a));
      XtimeLinear(LowTerm(c, a), Mul(c >> 1, Xtime(a)));
    }
  }

  /** A factor whose constant coefficient is zero is x times its half. */
  lemma MulEven(c: bv8, a: bv8)
    requires c & 1 == 0
    ensures Mul(c, a) == Mul(c >> 1, Xtime(a))
  {
  }

  lemma MulOne(a: bv8)
    ensures Mul(1, a) == a
  {
  }

  /** x^8 is reduced by the Rijndael polynomial. */
  lemma Reduction(a: bv8)
    ensures Mul(0x80, Xtime(a)) == Mul(0x1B, a)
  {
    var a1 := Xtime(a);
    var a2 := Xtime(a1);
    var a3 := Xtime(a2);
    var a4 := Xtime(a3);
    var a8 := Xtime(Xtime(Xtime(Xtime(a4))));
    assert a8 == Add(a, Add(a1, Add(0, Add(a3, a4))));
    hide Mul, Xtime, Add;
    MulEven(0x80, a1);
    MulEven(0x40, a2);
    MulEven(0x20, a3);
    MulEven(0x10, a4);
    MulEven(0x08, Xtime(a4));
    MulEven(0x04, Xtime(Xtime(a4)));
    MulEven(0x02, Xtime(Xtime(Xtime(a4))));
    MulOne(a8);
    MulStep(0x1B, a);
    MulStep(0x0D, a1);
    MulStep(0x06, a2);
    MulStep(0x03, a3);
    MulOne(a4);
  }

  lemma MulXtimeLeft(c: bv8, a: bv8)
    ensures Mul(Xtime(c), a) == Mul(c, Xtime(a))
  {
    var low := c & 0x7F;
    assert (c << 1) & 1 == 0 && (c << 1) >> 1 == low;
    if c & 0x80 == 0 {
      assert low == c && Xtime(c) == c << 1;
      hide Mul, Xtime, Add;
      MulEven(c << 1, a);
    } else {
      assert Xtime(c) == Add(c << 1, 0x1B) && c == Add(low, 0x80);
      hide Mul, Xtime, Add;
      MulEven(c << 1, a);
      MulLinearLeft(c << 1, 0x1B, a);
      Reduction(a);
      MulLinearLeft(low, 0x80, Xtime(a));
    }
  }

  lemma {:induction false} MulAssociative(c: bv8, d: bv8, a: bv8)
    ensures Mul(Mul(c, d), a) == Mul(c, Mul(d, a))
    decreases c
  {
    hide Mul, Xtime, LowTerm, Add;
    if c == 0 {
      MulZero(d);
      MulZero(a);
      MulZero(Mul(d, a));
    } else {
      MulStep(c, d);
      MulStep(c, Mul(d, a));
      MulLinearLeft(LowTerm(c, d), Mul(c >> 1, Xtime(d)), a);
      MulAssociative(c >> 1, Xtime(d), a);
      MulXtimeLeft(d, a);
      MulXtime(d, a);
      LowTermOfProduct(c, d, a);
    }
  }

  lemma LowTermOfProduct(c: bv8, d: bv8, a: bv8)
    ensures Mul(LowTerm(c, d), a) == LowTerm(c, Mul(d, a))
  {
  }
}
