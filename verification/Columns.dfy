/** Four-byte columns of the state: the column mixing of section 4.3 of FIPS 197 and its inverse, and the
    packing of a column into one of the program's 32-bit integers. */
module Columns {
  import opened GaloisField

  datatype Col = Col(b0: bv8, b1: bv8, b2: bv8, b3: bv8)

  function AddCol(c: Col, d: Col): Col {
    Col(Add(c.b0, d.b0), Add(c.b1, d.b1), Add(c.b2, d.b2), Add(c.b3, d.b3))
  }

  function Sum4(a: bv8, b: bv8, c: bv8, d: bv8): bv8 {
    Add(Add(Add(a, b), c), d)
  }

  /** One coefficient of a product of four-term polynomials modulo x^4 + 1. */
  function Row(p: Col, b0: bv8, b1: bv8, b2: bv8, b3: bv8): bv8 {
    Sum4(Mul(p.b0, b0), Mul(p.b1, b1), Mul(p.b2, b2), Mul(p.b3, b3))
  }

  /** The product by a fixed polynomial, written as a circulant matrix with first row `p`. */
  function Circulant(p: Col, c: Col): Col {
    Col(Row(p, c.b0, c.b1, c.b2, c.b3),
        Row(p, c.b1, c.b2, c.b3, c.b0),
        Row(p, c.b2, c.b3, c.b0, c.b1),
        Row(p, c.b3, c.b0, c.b1, c.b2))
  }

  const MIX := Col(0x02, 0x03, 0x01, 0x01)
  const INV_MIX := Col(0x0E, 0x0B, 0x0D, 0x09)

  function MixCol(c: Col): Col {
    Circulant(MIX, c)
  }

  function InvMixCol(c: Col): Col {
    Circulant(INV_MIX, c)
  }

  // ---------------------------------------------------------------- sums

  lemma AddColCancels(c: Col, k: Col)
    ensures AddCol(AddCol(c, k), k) == c
  {
  }

  lemma Sum4Linear(a0: bv8, a1: bv8, a2: bv8, a3: bv8, b0: bv8, b1: bv8, b2: bv8, b3: bv8)
    ensures Sum4(Add(a0, b0), Add(a1, b1), Add(a2, b2), Add(a3, b3)) == Add(Sum4(a0, a1, a2, a3), Sum4(b0, b1, b2, b3))
  {
    hide Add;
    AddExchange(a0, b0, a1, b1);
    AddExchange(Add(a0, a1), Add(b0, b1), a2, b2);
    AddExchange(Add(Add(a0, a1), a2), Add(Add(b0, b1), b2), a3, b3);
  }

  lemma MulSum4(p: bv8, a: bv8, b: bv8, c: bv8, d: bv8)
    ensures Mul(p, Sum4(a, b, c, d)) == Sum4(Mul(p, a), Mul(p, b), Mul(p, c), Mul(p, d))
  {
    hide Add, Mul;
    MulLinear(p, a, b);
    MulLinear(p, Add(a, b), c);
    MulLinear(p, Add(Add(a, b), c), d);
  }

  lemma Sum4Rotate(a: bv8, b: bv8, c: bv8, d: bv8)
    ensures Sum4(a, b, c, d) == Sum4(b, c, d, a)
  {
    calc {
      Sum4(a, b, c, d);
      a ^ b ^ c ^ d;
      b ^ c ^ d ^ a;
      Sum4(b, c, d, a);
    }
  }

  /** Summing a square of sixteen values by rows or by columns. */
  lemma Sum4Transpose(a0: bv8, a1: bv8, a2: bv8, a3: bv8, b0: bv8, b1: bv8, b2: bv8, b3: bv8,
                      c0: bv8, c1: bv8, c2: bv8, c3: bv8, d0: bv8, d1: bv8, d2: bv8, d3: bv8)
    ensures Sum4(Sum4(a0, a1, a2, a3), Sum4(b0, b1, b2, b3), Sum4(c0, c1, c2, c3), Sum4(d0, d1, d2, d3))
         == Sum4(Sum4(a0, b0, c0, d0), Sum4(a1, b1, c1, d1), Sum4(a2, b2, c2, d2), Sum4(a3, b3, c3, d3))
  {
    hide Add, Sum4;
    Sum4IsSumOfSums(a0, a1, a2, a3, b0, b1, b2, b3, c0, c1, c2, c3, d0, d1, d2, d3);
    Sum4Linear(a0, a1, a2, a3, b0, b1, b2, b3);
    Sum4Linear(Add(a0, b0), Add(a1, b1), Add(a2, b2), Add(a3, b3), c0, c1, c2, c3);
    Sum4Linear(Add(Add(a0, b0), c0), Add(Add(a1, b1), c1), Add(Add(a2, b2), c2), Add(Add(a3, b3), c3), d0, d1, d2, d3);
  }

  lemma Sum4IsSumOfSums(a0: bv8, a1: bv8, a2: bv8, a3: bv8, b0: bv8, b1: bv8, b2: bv8, b3: bv8,
                        c0: bv8, c1: bv8, c2: bv8, c3: bv8, d0: bv8, d1: bv8, d2: bv8, d3: bv8)
    ensures Sum4(Sum4(a0, b0, c0, d0), Sum4(a1, b1, c1, d1), Sum4(a2, b2, c2, d2), Sum4(a3, b3, c3, d3))
         == Sum4(Add(Add(Add(a0, b0), c0), d0), Add(Add(Add(a1, b1), c1), d1),
                 Add(Add(Add(a2, b2), c2), d2), Add(Add(Add(a3, b3), c3), d3))
    ensures Sum4(Sum4(a0, a1, a2, a3), Sum4(b0, b1, b2, b3), Sum4(c0, c1, c2, c3), Sum4(d0, d1, d2, d3))
         == Add(Add(Add(Sum4(a0, a1, a2, a3), Sum4(b0, b1, b2, b3)), Sum4(c0, c1, c2, c3)), Sum4(d0, d1, d2, d3))
  {
    hide Add;
  }

  // ---------------------------------------------------------------- the two mixing matrices

  lemma CirculantLinear(p: Col, c: Col, d: Col)
    ensures Circulant(p, AddCol(c, d)) == AddCol(Circulant(p, c), Circulant(p, d))
  {
    hide Add, Mul;
    RowLinear(p, c.b0, c.b1, c.b2, c.b3, d.b0, d.b1, d.b2, d.b3);
    RowLinear(p, c.b1, c.b2, c.b3, c.b0, d.b1, d.b2, d.b3, d.b0);
    RowLinear(p, c.b2, c.b3, c.b0, c.b1, d.b2, d.b3, d.b0, d.b1);
    RowLinear(p, c.b3, c.b0, c.b1, c.b2, d.b3, d.b0, d.b1, d.b2);
  }

  lemma RowLinear(p: Col, a0: bv8, a1: bv8, a2: bv8, a3: bv8, b0: bv8, b1: bv8, b2: bv8, b3: bv8)
    ensures Row(p, Add(a0, b0), Add(a1, b1), Add(a2, b2), Add(a3, b3)) == Add(Row(p, a0, a1, a2, a3), Row(p, b0, b1, b2, b3))
  {
    hide Add, Mul, Sum4;
    MulLinear(p.b0, a0, b0);
    MulLinear(p.b1, a1, b1);
    MulLinear(p.b2, a2, b2);
    MulLinear(p.b3, a3, b3);
    Sum4Linear(Mul(p.b0, a0), Mul(p.b1, a1), Mul(p.b2, a2), Mul(p.b3, a3),
               Mul(p.b0, b0), Mul(p.b1, b1), Mul(p.b2, b2), Mul(p.b3, b3));
  }

  // What each byte of a column contributes to a product: the four columns of the circulant matrix.

  function Part0(p: Col, x: bv8): Col { Col(Mul(p.b0, x), Mul(p.b3, x), Mul(p.b2, x), Mul(p.b1, x)) }
  function Part1(p: Col, x: bv8): Col { Col(Mul(p.b1, x), Mul(p.b0, x), Mul(p.b3, x), Mul(p.b2, x)) }
  function Part2(p: Col, x: bv8): Col { Col(Mul(p.b2, x), Mul(p.b1, x), Mul(p.b0, x), Mul(p.b3, x)) }
  function Part3(p: Col, x: bv8): Col { Col(Mul(p.b3, x), Mul(p.b2, x), Mul(p.b1, x), Mul(p.b0, x)) }

  lemma SumOfParts(p: Col, c: Col)
    ensures AddCol(AddCol(AddCol(Part0(p, c.b0), Part1(p, c.b1)), Part2(p, c.b2)), Part3(p, c.b3)) == Circulant(p, c)
  {
    hide Add, Mul;
    Sum4Rotate(Mul(p.b3, c.b0), Mul(p.b0, c.b1), Mul(p.b1, c.b2), Mul(p.b2, c.b3));
    Sum4Rotate(Mul(p.b2, c.b0), Mul(p.b3, c.b1), Mul(p.b0, c.b2), Mul(p.b1, c.b3));
    Sum4Rotate(Mul(p.b3, c.b1), Mul(p.b0, c.b2), Mul(p.b1, c.b3), Mul(p.b2, c.b0));
    Sum4Rotate(Mul(p.b0, c.b3), Mul(p.b1, c.b0), Mul(p.b2, c.b1), Mul(p.b3, c.b2));
  }

  /** The coefficient that the product of `p` and `q` gives to one position, applied to `x`. */
  function Coefficient(p: Col, q0: bv8, q1: bv8, q2: bv8, q3: bv8, x: bv8): bv8 {
    Sum4(Mul(p.b0, Mul(q0, x)), Mul(p.b1, Mul(q1, x)), Mul(p.b2, Mul(q2, x)), Mul(p.b3, Mul(q3, x)))
  }

  lemma RowOfRows(p: Col, q: Col, b0: bv8, b1: bv8, b2: bv8, b3: bv8)
    ensures Row(p, Row(q, b0, b1, b2, b3), Row(q, b1, b2, b3, b0), Row(q, b2, b3, b0, b1), Row(q, b3, b0, b1, b2))
         == Sum4(Coefficient(p, q.b0, q.b3, q.b2, q.b1, b0), Coefficient(p, q.b1, q.b0, q.b3, q.b2, b1),
                 Coefficient(p, q.b2, q.b1, q.b0, q.b3, b2), Coefficient(p, q.b3, q.b2, q.b1, q.b0, b3))
  {
    hide Add, Mul, Sum4;
    var y0, y1, y2, y3 := Mul(q.b0, b0), Mul(q.b1, b1), Mul(q.b2, b2), Mul(q.b3, b3);
    var z0, z1, z2, z3 := Mul(q.b3, b0), Mul(q.b0, b1), Mul(q.b1, b2), Mul(q.b2, b3);
    var u0, u1, u2, u3 := Mul(q.b2, b0), Mul(q.b3, b1), Mul(q.b0, b2), Mul(q.b1, b3);
    var v0, v1, v2, v3 := Mul(q.b1, b0), Mul(q.b2, b1), Mul(q.b3, b2), Mul(q.b0, b3);
    Sum4Rotate(z0, z1, z2, z3);
    Sum4Rotate(u0, u1, u2, u3);
    Sum4Rotate(u1, u2, u3, u0);
    Sum4Rotate(v3, v0, v1, v2);
    MulSum4(p.b0, y0, y1, y2, y3);
    MulSum4(p.b1, z0, z1, z2, z3);
    MulSum4(p.b2, u0, u1, u2, u3);
    MulSum4(p.b3, v0, v1, v2, v3);
    Sum4Transpose(Mul(p.b0, y0), Mul(p.b0, y1), Mul(p.b0, y2), Mul(p.b0, y3),
                  Mul(p.b1, z0), Mul(p.b1, z1), Mul(p.b1, z2), Mul(p.b1, z3),
                  Mul(p.b2, u0), Mul(p.b2, u1), Mul(p.b2, u2), Mul(p.b2, u3),
                  Mul(p.b3, v0), Mul(p.b3, v1), Mul(p.b3, v2), Mul(p.b3, v3));
  }

  // Products by the constants that occur, as sums of multiples by powers of x.

  lemma ProductsByConstants(a: bv8)
    ensures Mul(0x01, a) == a
    ensures Mul(0x02, a) == Xtime(a)
    ensures Mul(0x03, a) == Add(a, Xtime(a))
    ensures Mul(0x09, a) == Add(a, Xtime(Xtime(Xtime(a))))
    ensures Mul(0x0B, a) == Add(a, Add(Xtime(a), Xtime(Xtime(Xtime(a)))))
    ensures Mul(0x0D, a) == Add(a, Add(Xtime(Xtime(a)), Xtime(Xtime(Xtime(a)))))
    ensures Mul(0x0E, a) == Add(Xtime(a), Add(Xtime(Xtime(a)), Xtime(Xtime(Xtime(a)))))
  {
    hide Mul, Add, Xtime;
    var a1 := Xtime(a);
    var a2 := Xtime(a1);
    var a3 := Xtime(a2);
    MulOne(a);
    MulOne(a1);
    MulOne(a3);
    MulOne(a2);
    MulEven(0x02, a);
    MulStep(0x03, a);
    MulStep(0x09, a);
    MulEven(0x04, a1);
    MulEven(0x02, a2);
    MulStep(0x0B, a);
    MulStep(0x05, a1);
    MulStep(0x0D, a);
    MulEven(0x06, a1);
    MulStep(0x03, a2);
    MulEven(0x0E, a);
    MulStep(0x07, a1);
  }

  lemma MulSum4Left(a: bv8, b: bv8, c: bv8, d: bv8, x: bv8)
    ensures Mul(Sum4(a, b, c, d), x) == Sum4(Mul(a, x), Mul(b, x), Mul(c, x), Mul(d, x))
  {
    hide Add, Mul;
    MulLinearLeft(a, b, x);
    MulLinearLeft(Add(a, b), c, x);
    MulLinearLeft(Add(Add(a, b), c), d, x);
  }

  lemma CoefficientIsProduct(p: Col, q0: bv8, q1: bv8, q2: bv8, q3: bv8, x: bv8)
    ensures Coefficient(p, q0, q1, q2, q3, x) == Mul(Sum4(Mul(p.b0, q0), Mul(p.b1, q1), Mul(p.b2, q2), Mul(p.b3, q3)), x)
  {
    hide Add, Mul, Sum4;
    MulAssociative(p.b0, q0, x);
    MulAssociative(p.b1, q1, x);
    MulAssociative(p.b2, q2, x);
    MulAssociative(p.b3, q3, x);
    MulSum4Left(Mul(p.b0, q0), Mul(p.b1, q1), Mul(p.b2, q2), Mul(p.b3, q3), x);
  }

  /** The product of two polynomials modulo x^4 + 1, as the first row of a circulant. */
  function PolyMul(p: Col, q: Col): Col {
    Col(Row(p, q.b0, q.b3, q.b2, q.b1), Row(p, q.b1, q.b0, q.b3, q.b2),
        Row(p, q.b2, q.b1, q.b0, q.b3), Row(p, q.b3, q.b2, q.b1, q.b0))
  }

  /** Multiplying by `q` and then by `p` multiplies by their product. */
  lemma CirculantCompose(p: Col, q: Col, c: Col)
    ensures Circulant(p, Circulant(q, c)) == Circulant(PolyMul(p, q), c)
  {
    hide Add, Mul, Sum4;
    RowCompose(p, q, c.b0, c.b1, c.b2, c.b3);
    RowCompose(p, q, c.b1, c.b2, c.b3, c.b0);
    RowCompose(p, q, c.b2, c.b3, c.b0, c.b1);
    RowCompose(p, q, c.b3, c.b0, c.b1, c.b2);
  }

  lemma RowCompose(p: Col, q: Col, b0: bv8, b1: bv8, b2: bv8, b3: bv8)
    ensures Row(p, Row(q, b0, b1, b2, b3), Row(q, b1, b2, b3, b0), Row(q, b2, b3, b0, b1), Row(q, b3, b0, b1, b2))
         == Row(PolyMul(p, q), b0, b1, b2, b3)
  {
    hide Add, Mul, Sum4;
    RowOfRows(p, q, b0, b1, b2, b3);
    CoefficientIsProduct(p, q.b0, q.b3, q.b2, q.b1, b0);
    CoefficientIsProduct(p, q.b1, q.b0, q.b3, q.b2, b1);
    CoefficientIsProduct(p, q.b2, q.b1, q.b0, q.b3, b2);
    CoefficientIsProduct(p, q.b3, q.b2, q.b1, q.b0, b3);
  }

  const ONE := Col(1, 0, 0, 0)

  lemma CirculantOne(c: Col)
    ensures Circulant(ONE, c) == c
  {
  }

  lemma MixPolynomialsInvert()
    ensures PolyMul(INV_MIX, MIX) == ONE
    ensures PolyMul(MIX, INV_MIX) == ONE
  {
    ProductsByConstants(0x01);
    ProductsByConstants(0x02);
    ProductsByConstants(0x03);
    ProductsByConstants(0x09);
    ProductsByConstants(0x0B);
    ProductsByConstants(0x0D);
    ProductsByConstants(0x0E);
  }

  /** The inverse of the column mixing, on both sides. */
  lemma MixColInverts(c: Col)
    ensures InvMixCol(MixCol(c)) == c
    ensures MixCol(InvMixCol(c)) == c
  {
    hide Circulant, PolyMul;
    CirculantCompose(INV_MIX, MIX, c);
    CirculantCompose(MIX, INV_MIX, c);
    MixPolynomialsInvert();
    CirculantOne(c);
  }
}
