/** The four time weights of the fourth-order backward time derivative
    (fourthOrderDdt.C, makeCoeffs) and the algebra behind them.

    makeCoeffs computes the weights from four distances d0 > d1 > d2 > d3 > 0,
    the suffix sums of the stored step sizes.  For such distances the weights
    are those of the derivative at 0 of the quartic that interpolates the
    values at 0, -d0, -d1, -d2 and -d3.  The lemmas below prove that they
    meet the four moment conditions, and hence differentiate exactly every
    quartic sampled at those distances.  Whether the distances are the true
    distances back to the stored time levels depends on how the step sizes
    are kept; that is the business of FourthOrderDdtScheme. */
module FourthOrderWeights {

  /** The four distances are non-zero and pairwise distinct: exactly what makes
      every denominator of makeCoeffs non-zero. */
  predicate Separated(d0: real, d1: real, d2: real, d3: real)
  {
    d0 != 0.0 && d1 != 0.0 && d2 != 0.0 && d3 != 0.0 &&
    d0 != d1 && d0 != d2 && d0 != d3 && d1 != d2 && d1 != d3 && d2 != d3
  }

  // ---------------------------------------------------------------------
  // Elementary facts about products and fractions over plain variables.

  lemma ProductNonzero(a: real, b: real)
    requires a != 0.0 && b != 0.0
    ensures a * b != 0.0
  {}

  lemma SubFractions(f: real, p: real, q: real)
    requires p != 0.0 && q != 0.0
    ensures p * q != 0.0
    ensures f / p - f / q == f * (q - p) / (p * q)
  {
    ProductNonzero(p, q);
  }

  lemma CancelFactor(n: real, r: real, s: real)
    requires r != 0.0 && s != 0.0
    ensures r * s != 0.0
    ensures n * s / (r * s) == n / r
  {
    ProductNonzero(r, s);
  }

  lemma QuotientOfMultiple(n: real, e: real)
    requires e != 0.0
    ensures n * e / e == n
  {}

  lemma DivideOut(f: real, e: real, r: real)
    requires e != 0.0 && r != 0.0
    ensures f * e / r / e == f / r
  {}

  // ---------------------------------------------------------------------
  // Node polynomials: Pi3(x, y, z) = (x - y)(x - z), Pi4 one factor more.

  function Pi3(x: real, y: real, z: real): real { (x - y) * (x - z) }

  function Pi4(x: real, y: real, z: real, w: real): real { (x - y) * (x - z) * (x - w) }

  lemma Pi3Nonzero(x: real, y: real, z: real)
    requires x != y && x != z
    ensures Pi3(x, y, z) != 0.0
  {
    var a, b := x - y, x - z;
    ProductNonzero(a, b);
    assert Pi3(x, y, z) == a * b;
  }

  lemma Pi4Nonzero(x: real, y: real, z: real, w: real)
    requires x != y && x != z && x != w
    ensures Pi4(x, y, z, w) != 0.0
  {
    var a, b, c := x - y, x - z, x - w;
    ProductNonzero(a, b);
    var ab := a * b;
    ProductNonzero(ab, c);
    assert Pi4(x, y, z, w) == ab * c;
  }

  // ---------------------------------------------------------------------
  // Divided differences of the values fx, fy, ... at the nodes x, y, ...

  function DD2(x: real, y: real, fx: real, fy: real): real
    requires x != y
  {
    (fx - fy) / (x - y)
  }

  function DD3(x: real, y: real, z: real, fx: real, fy: real, fz: real): real
    requires x != y && x != z && y != z
  {
    (DD2(x, y, fx, fy) - DD2(y, z, fy, fz)) / (x - z)
  }

  predicate Distinct4(a: real, b: real, c: real, d: real)
  {
    a != b && a != c && a != d && b != c && b != d && c != d
  }

  function DD4(a: real, b: real, c: real, d: real, fa: real, fb: real, fc: real, fd: real): real
    requires Distinct4(a, b, c, d)
  {
    (DD3(a, b, c, fa, fb, fc) - DD3(b, c, d, fb, fc, fd)) / (a - d)
  }

  /** Lagrange form of the second divided difference. */
  lemma Split3(x: real, y: real, z: real, fx: real, fy: real, fz: real)
    requires x != y && x != z && y != z
    ensures Pi3(x, y, z) != 0.0 && Pi3(y, x, z) != 0.0 && Pi3(z, x, y) != 0.0
    ensures fx / Pi3(x, y, z) + fy / Pi3(y, x, z) + fz / Pi3(z, x, y) == DD3(x, y, z, fx, fy, fz)
  {
    Pi3Nonzero(x, y, z);
    Pi3Nonzero(y, x, z);
    Pi3Nonzero(z, x, y);
  }

  /** The term of an end node a: one factor of Pi4 is the outer (a - d). */
  lemma EndTerm(a: real, b: real, c: real, d: real, f: real)
    requires Distinct4(a, b, c, d)
    ensures Pi3(a, b, c) != 0.0 && Pi4(a, b, c, d) != 0.0
    ensures f / Pi4(a, b, c, d) == (f / Pi3(a, b, c)) / (a - d)
  {
    Pi3Nonzero(a, b, c);
    Pi4Nonzero(a, b, c, d);
    var p, e := Pi3(a, b, c), a - d;
    assert Pi4(a, b, c, d) == p * e;
  }

  /** The two contributions of an inner node b combine into one term. */
  lemma InnerTerm(a: real, b: real, c: real, d: real, f: real)
    requires Distinct4(a, b, c, d)
    ensures Pi3(b, a, c) != 0.0 && Pi3(b, c, d) != 0.0 && Pi4(b, a, c, d) != 0.0
    ensures f / Pi4(b, a, c, d) == (f / Pi3(b, a, c) - f / Pi3(b, c, d)) / (a - d)
  {
    Pi3Nonzero(b, a, c);
    Pi3Nonzero(b, c, d);
    Pi4Nonzero(b, a, c, d);
    var p, q, r := Pi3(b, a, c), Pi3(b, c, d), Pi4(b, a, c, d);
    var e, g := a - d, b - c;
    assert q - p == g * e;
    assert p * q == r * g;
    SubFractions(f, p, q);
    var fe := f * e;
    assert f * (q - p) == fe * g;
    CancelFactor(fe, r, g);
    assert f / p - f / q == fe / r;
    DivideOut(f, e, r);
  }

  /** The term of the last node d, whose outer factor (a - d) flips sign. */
  lemma LastTerm(a: real, b: real, c: real, d: real, f: real)
    requires Distinct4(a, b, c, d)
    ensures Pi3(d, b, c) != 0.0 && Pi4(d, a, b, c) != 0.0
    ensures f / Pi4(d, a, b, c) == -(f / Pi3(d, b, c)) / (a - d)
  {
    Pi3Nonzero(d, b, c);
    Pi4Nonzero(d, a, b, c);
    var p, e := Pi3(d, b, c), a - d;
    assert Pi4(d, a, b, c) == -(p * e);
  }

  /** Dividing the difference of two three-term sums by a common e. */
  lemma RegroupQuotient(x: real, y: real, e: real, u1: real, u2: real, u3: real, v1: real, v2: real, v3: real)
    requires e != 0.0 && x == u1 + u2 + u3 && y == v1 + v2 + v3
    ensures (x - y) / e == u1 / e + (u2 - v1) / e + (u3 - v2) / e + -v3 / e
  {}

  /** Lagrange form of the third divided difference. */
  lemma Split4(a: real, b: real, c: real, d: real, fa: real, fb: real, fc: real, fd: real)
    requires Distinct4(a, b, c, d)
    ensures Pi4(a, b, c, d) != 0.0 && Pi4(b, a, c, d) != 0.0 && Pi4(c, a, b, d) != 0.0 && Pi4(d, a, b, c) != 0.0
    ensures fa / Pi4(a, b, c, d) + fb / Pi4(b, a, c, d) + fc / Pi4(c, a, b, d) + fd / Pi4(d, a, b, c)
         == DD4(a, b, c, d, fa, fb, fc, fd)
  {
    EndTerm(a, b, c, d, fa);
    InnerTerm(a, b, c, d, fb);
    InnerTerm(a, c, b, d, fc);
    LastTerm(a, b, c, d, fd);
    Split3(a, b, c, fa, fb, fc);
    Split3(b, c, d, fb, fc, fd);
    RegroupQuotient(DD3(a, b, c, fa, fb, fc), DD3(b, c, d, fb, fc, fd), a - d,
                    fa / Pi3(a, b, c), fb / Pi3(b, a, c), fc / Pi3(c, a, b),
                    fb / Pi3(b, c, d), fc / Pi3(c, b, d), fd / Pi3(d, b, c));
  }

  // ---------------------------------------------------------------------
  // Divided differences of the monomials the exactness proof needs.

  lemma DD3OfConstant(x: real, y: real, z: real, s: real)
    requires x != y && x != z && y != z
    ensures DD3(x, y, z, s, s, s) == 0.0
  {}

  /** The value at each node is s times the product of the other two nodes. */
  lemma DD3OfCofactor(x: real, y: real, z: real, s: real)
    requires x != y && x != z && y != z
    ensures DD3(x, y, z, s * y * z, s * x * z, s * x * y) == s
  {
    var ex, ey, ez := x - y, y - z, x - z;
    var u, v := -(s * z), -(s * x);
    assert s * y * z - s * x * z == u * ex;
    assert s * x * z - s * x * y == v * ey;
    assert DD2(x, y, s * y * z, s * x * z) == u;
    assert DD2(y, z, s * x * z, s * x * y) == v;
    assert u - v == s * ez;
  }

  lemma DD4OfConstant(a: real, b: real, c: real, d: real, s: real)
    requires Distinct4(a, b, c, d)
    ensures DD4(a, b, c, d, s, s, s, s) == 0.0
  {
    DD3OfConstant(a, b, c, s);
    DD3OfConstant(b, c, d, s);
  }

  /** The value at each node is the product of the other three nodes. */
  lemma DD4OfCofactor(a: real, b: real, c: real, d: real)
    requires Distinct4(a, b, c, d)
    ensures DD4(a, b, c, d, b * c * d, a * c * d, a * b * d, a * b * c) == -1.0
  {
    DD3OfCofactor(a, b, c, d);
    assert d * b * c == b * c * d && d * a * c == a * c * d && d * a * b == a * b * d;
    assert DD3(a, b, c, b * c * d, a * c * d, a * b * d) == d;
    DD3OfCofactor(b, c, d, a);
    var e := a - d;
    assert DD4(a, b, c, d, b * c * d, a * c * d, a * b * d, a * b * c) == (d - a) / e;
    assert d - a == -1.0 * e;
    QuotientOfMultiple(-1.0, e);
  }

  // ---------------------------------------------------------------------
  // The weights exactly as makeCoeffs writes them.

  function Den0(d0: real, d1: real, d2: real, d3: real): real
  {
    (-d3 + d0) * d0 * (-d1 + d0) * (-d2 + d0)
  }

  function Den1(d0: real, d1: real, d2: real, d3: real): real
  {
    (d1 - d3) * (-d1 + d0) * d1 * (d1 - d2)
  }

  function Den2(d0: real, d1: real, d2: real, d3: real): real
  {
    (d2 - d3) * (d1 * d0 - d2 * d0 + d2 * d2 - d2 * d1) * d2
  }

  function Den3(d0: real, d1: real, d2: real, d3: real): real
  {
    (d0 * d2 * d1 - d0 * d3 * d1 + d3 * d3 * d0 - d0 * d2 * d3
      + d3 * d3 * d1 - d1 * d2 * d3 - d3 * d3 * d3 + d3 * d3 * d2) * d3
  }

  /** Each denominator is, up to sign, the node polynomial of its own
      distance times that distance; the expanded factors of the third and
      fourth denominators are products of distance differences. */
  lemma Den0Factors(d0: real, d1: real, d2: real, d3: real)
    ensures Den0(d0, d1, d2, d3) == Pi4(d0, d1, d2, d3) * d0
  {}

  lemma Den1Factors(d0: real, d1: real, d2: real, d3: real)
    ensures Den1(d0, d1, d2, d3) == -(Pi4(d1, d0, d2, d3) * d1)
  {}

  lemma Den2Factors(d0: real, d1: real, d2: real, d3: real)
    ensures Den2(d0, d1, d2, d3) == (d2 - d3) * (d0 - d2) * (d1 - d2) * d2
    ensures Den2(d0, d1, d2, d3) == Pi4(d2, d0, d1, d3) * d2
  {
    var e02, e12 := d0 - d2, d1 - d2;
    assert d1 * d0 - d2 * d0 + d2 * d2 - d2 * d1 == e02 * e12;
  }

  lemma Den3Factors(d0: real, d1: real, d2: real, d3: real)
    ensures Den3(d0, d1, d2, d3) == (d0 - d3) * (d1 - d3) * (d2 - d3) * d3
    ensures Den3(d0, d1, d2, d3) == -(Pi4(d3, d0, d1, d2) * d3)
  {
    var e03, e13, e23 := d0 - d3, d1 - d3, d2 - d3;
    assert d0 * d2 * d1 - d0 * d3 * d1 + d3 * d3 * d0 - d0 * d2 * d3
      + d3 * d3 * d1 - d1 * d2 * d3 - d3 * d3 * d3 + d3 * d3 * d2 == e03 * e13 * e23;
  }

  lemma DenominatorsNonzero(d0: real, d1: real, d2: real, d3: real)
    requires Separated(d0, d1, d2, d3)
    ensures Den0(d0, d1, d2, d3) != 0.0 && Den1(d0, d1, d2, d3) != 0.0
    ensures Den2(d0, d1, d2, d3) != 0.0 && Den3(d0, d1, d2, d3) != 0.0
  {
    Den0Factors(d0, d1, d2, d3);
    Den1Factors(d0, d1, d2, d3);
    Den2Factors(d0, d1, d2, d3);
    Den3Factors(d0, d1, d2, d3);
    var p0, p1, p2, p3 := Pi4(d0, d1, d2, d3), Pi4(d1, d0, d2, d3), Pi4(d2, d0, d1, d3), Pi4(d3, d0, d1, d2);
    Pi4Nonzero(d0, d1, d2, d3);
    Pi4Nonzero(d1, d0, d2, d3);
    Pi4Nonzero(d2, d0, d1, d3);
    Pi4Nonzero(d3, d0, d1, d2);
    ProductNonzero(p0, d0);
    ProductNonzero(p1, d1);
    ProductNonzero(p2, d2);
    ProductNonzero(p3, d3);
  }

  function K0(d0: real, d1: real, d2: real, d3: real): real
    requires Separated(d0, d1, d2, d3)
  {
    DenominatorsNonzero(d0, d1, d2, d3);
    d1 * d2 * d3 / Den0(d0, d1, d2, d3)
  }

  function K1(d0: real, d1: real, d2: real, d3: real): real
    requires Separated(d0, d1, d2, d3)
  {
    DenominatorsNonzero(d0, d1, d2, d3);
    -(d0 * d2 * d3) / Den1(d0, d1, d2, d3)
  }

  function K2(d0: real, d1: real, d2: real, d3: real): real
    requires Separated(d0, d1, d2, d3)
  {
    DenominatorsNonzero(d0, d1, d2, d3);
    d0 * d3 * d1 / Den2(d0, d1, d2, d3)
  }

  function K3(d0: real, d1: real, d2: real, d3: real): real
    requires Separated(d0, d1, d2, d3)
  {
    DenominatorsNonzero(d0, d1, d2, d3);
    -(d0 * d2 * d1) / Den3(d0, d1, d2, d3)
  }

  lemma WeightTimesOwn(k: real, n: real, den: real, p: real, x: real)
    requires p != 0.0 && x != 0.0 && den == p * x && k == n / den
    ensures k * x == n / p
  {
    ProductNonzero(p, x);
  }

  lemma NegatedWeightTimesOwn(k: real, n: real, den: real, p: real, x: real)
    requires p != 0.0 && x != 0.0 && den == -(p * x) && k == -n / den
    ensures k * x == n / p
  {
    ProductNonzero(p, x);
  }

  /** Each weight times its own distance is the cofactor of that distance
      over its node polynomial. */
  lemma Weight0TimesDistance(d0: real, d1: real, d2: real, d3: real)
    requires Separated(d0, d1, d2, d3)
    ensures Pi4(d0, d1, d2, d3) != 0.0
    ensures K0(d0, d1, d2, d3) * d0 == d1 * d2 * d3 / Pi4(d0, d1, d2, d3)
  {
    Den0Factors(d0, d1, d2, d3);
    Pi4Nonzero(d0, d1, d2, d3);
    WeightTimesOwn(K0(d0, d1, d2, d3), d1 * d2 * d3, Den0(d0, d1, d2, d3), Pi4(d0, d1, d2, d3), d0);
  }

  lemma Weight1TimesDistance(d0: real, d1: real, d2: real, d3: real)
    requires Separated(d0, d1, d2, d3)
    ensures Pi4(d1, d0, d2, d3) != 0.0
    ensures K1(d0, d1, d2, d3) * d1 == d0 * d2 * d3 / Pi4(d1, d0, d2, d3)
  {
    Den1Factors(d0, d1, d2, d3);
    Pi4Nonzero(d1, d0, d2, d3);
    NegatedWeightTimesOwn(K1(d0, d1, d2, d3), d0 * d2 * d3, Den1(d0, d1, d2, d3), Pi4(d1, d0, d2, d3), d1);
  }

  lemma Weight2TimesDistance(d0: real, d1: real, d2: real, d3: real)
    requires Separated(d0, d1, d2, d3)
    ensures Pi4(d2, d0, d1, d3) != 0.0
    ensures K2(d0, d1, d2, d3) * d2 == d0 * d1 * d3 / Pi4(d2, d0, d1, d3)
  {
    Den2Factors(d0, d1, d2, d3);
    Pi4Nonzero(d2, d0, d1, d3);
    WeightTimesOwn(K2(d0, d1, d2, d3), d0 * d1 * d3, Den2(d0, d1, d2, d3), Pi4(d2, d0, d1, d3), d2);
  }

  lemma Weight3TimesDistance(d0: real, d1: real, d2: real, d3: real)
    requires Separated(d0, d1, d2, d3)
    ensures Pi4(d3, d0, d1, d2) != 0.0
    ensures K3(d0, d1, d2, d3) * d3 == d0 * d1 * d2 / Pi4(d3, d0, d1, d2)
  {
    Den3Factors(d0, d1, d2, d3);
    Pi4Nonzero(d3, d0, d1, d2);
    NegatedWeightTimesOwn(K3(d0, d1, d2, d3), d0 * d1 * d2, Den3(d0, d1, d2, d3), Pi4(d3, d0, d1, d2), d3);
  }

  /** Each weight times its own distance is the product of the other three
      distances over the node polynomial of its own distance. */
  predicate Cofactors(d0: real, d1: real, d2: real, d3: real, k0: real, k1: real, k2: real, k3: real)
  {
    Pi4(d0, d1, d2, d3) != 0.0 && Pi4(d1, d0, d2, d3) != 0.0 &&
    Pi4(d2, d0, d1, d3) != 0.0 && Pi4(d3, d0, d1, d2) != 0.0 &&
    k0 * d0 == d1 * d2 * d3 / Pi4(d0, d1, d2, d3) &&
    k1 * d1 == d0 * d2 * d3 / Pi4(d1, d0, d2, d3) &&
    k2 * d2 == d0 * d1 * d3 / Pi4(d2, d0, d1, d3) &&
    k3 * d3 == d0 * d1 * d2 / Pi4(d3, d0, d1, d2)
  }

  lemma WeightsTimesDistance(d0: real, d1: real, d2: real, d3: real)
    requires Separated(d0, d1, d2, d3)
    ensures Cofactors(d0, d1, d2, d3, K0(d0, d1, d2, d3), K1(d0, d1, d2, d3), K2(d0, d1, d2, d3), K3(d0, d1, d2, d3))
  {
    Weight0TimesDistance(d0, d1, d2, d3);
    Weight1TimesDistance(d0, d1, d2, d3);
    Weight2TimesDistance(d0, d1, d2, d3);
    Weight3TimesDistance(d0, d1, d2, d3);
  }

  lemma DD3OfScaledLinear(x: real, y: real, z: real, fx: real, fy: real, fz: real, s: real)
    requires x != y && x != z && y != z
    requires fx == s * x && fy == s * y && fz == s * z
    ensures DD3(x, y, z, fx, fy, fz) == 0.0
  {
    var ex, ey := x - y, y - z;
    assert fx - fy == s * ex;
    assert fy - fz == s * ey;
    assert DD2(x, y, fx, fy) == s;
    assert DD2(y, z, fy, fz) == s;
  }

  lemma DD3OfScaledSquare(x: real, y: real, z: real, fx: real, fy: real, fz: real, s: real)
    requires x != y && x != z && y != z
    requires fx == s * x * x && fy == s * y * y && fz == s * z * z
    ensures DD3(x, y, z, fx, fy, fz) == s
  {
    var ex, ey, ez := x - y, y - z, x - z;
    var u, v := s * (x + y), s * (y + z);
    assert fx - fy == u * ex;
    assert fy - fz == v * ey;
    assert DD2(x, y, fx, fy) == u;
    assert DD2(y, z, fy, fz) == v;
    assert u - v == s * ez;
  }

  /** Values P * x at the nodes, P the product of the four nodes. */
  lemma DD4OfNodeTimesAll(a: real, b: real, c: real, d: real)
    requires Distinct4(a, b, c, d)
    ensures DD4(a, b, c, d, b * c * d * a * a, a * c * d * b * b, a * b * d * c * c, a * b * c * d * d) == 0.0
  {
    DD3OfScaledLinear(a, b, c, b * c * d * a * a, a * c * d * b * b, a * b * d * c * c, a * b * c * d);
    DD3OfScaledLinear(b, c, d, a * c * d * b * b, a * b * d * c * c, a * b * c * d * d, a * b * c * d);
  }

  lemma DD3OfSquareTimesOthers(x: real, y: real, z: real, w: real)
    requires x != y && x != z && y != z
    ensures DD3(x, y, z, y * z * w * x * x * x, x * z * w * y * y * y, x * y * w * z * z * z) == x * y * z * w
  {
    DD3OfScaledSquare(x, y, z, y * z * w * x * x * x, x * z * w * y * y * y, x * y * w * z * z * z, x * y * z * w);
  }

  lemma DD3OfSquareTimesOthersRotated(x: real, y: real, z: real, w: real)
    requires x != y && x != z && y != z
    ensures DD3(x, y, z, w * y * z * x * x * x, w * x * z * y * y * y, w * x * y * z * z * z) == w * x * y * z
  {
    DD3OfScaledSquare(x, y, z, w * y * z * x * x * x, w * x * z * y * y * y, w * x * y * z * z * z, w * x * y * z);
  }

  /** Values P * x^2 at the nodes. */
  lemma DD4OfNodeSquaredTimesAll(a: real, b: real, c: real, d: real)
    requires Distinct4(a, b, c, d)
    ensures DD4(a, b, c, d, b * c * d * a * a * a, a * c * d * b * b * b, a * b * d * c * c * c, a * b * c * d * d * d) == 0.0
  {
    DD3OfSquareTimesOthers(a, b, c, d);
    DD3OfSquareTimesOthersRotated(b, c, d, a);
  }

  lemma CubeFromCofactor(k: real, d: real, a: real, b: real, c: real, p: real)
    requires p != 0.0 && k * d == a * b * c / p
    ensures k * d * d * d == a * b * c * d * d / p
  {
    assert k * d * d * d == (k * d) * (d * d);
  }

  lemma FourthPowerFromCofactor(k: real, d: real, a: real, b: real, c: real, p: real)
    requires p != 0.0 && k * d == a * b * c / p
    ensures k * d * d * d * d == a * b * c * d * d * d / p
  {
    assert k * d * d * d * d == (k * d) * (d * d * d);
  }

  lemma SquareFromCofactor(k: real, d: real, a: real, b: real, c: real, p: real)
    requires p != 0.0 && k * d == a * b * c / p
    ensures k * d * d == a * b * c * d / p
  {
    assert k * d * d == (k * d) * d;
  }

  /** Values equal to the product of the four nodes at every node. */
  lemma DD4OfNodeProduct(a: real, b: real, c: real, d: real)
    requires Distinct4(a, b, c, d)
    ensures DD4(a, b, c, d, b * c * d * a, a * c * d * b, a * b * d * c, a * b * c * d) == 0.0
  {
    var s := a * b * c * d;
    assert b * c * d * a == s && a * c * d * b == s && a * b * d * c == s;
    DD4OfConstant(a, b, c, d, s);
  }

  lemma FirstMomentOf(d0: real, d1: real, d2: real, d3: real, k0: real, k1: real, k2: real, k3: real)
    requires Distinct4(d0, d1, d2, d3) && Cofactors(d0, d1, d2, d3, k0, k1, k2, k3)
    ensures k0 * d0 + k1 * d1 + k2 * d2 + k3 * d3 == -1.0
  {
    Split4(d0, d1, d2, d3, d1 * d2 * d3, d0 * d2 * d3, d0 * d1 * d3, d0 * d1 * d2);
    DD4OfCofactor(d0, d1, d2, d3);
  }

  lemma SecondMomentOf(d0: real, d1: real, d2: real, d3: real, k0: real, k1: real, k2: real, k3: real)
    requires Distinct4(d0, d1, d2, d3) && Cofactors(d0, d1, d2, d3, k0, k1, k2, k3)
    ensures k0 * d0 * d0 + k1 * d1 * d1 + k2 * d2 * d2 + k3 * d3 * d3 == 0.0
  {
    SquareFromCofactor(k0, d0, d1, d2, d3, Pi4(d0, d1, d2, d3));
    SquareFromCofactor(k1, d1, d0, d2, d3, Pi4(d1, d0, d2, d3));
    SquareFromCofactor(k2, d2, d0, d1, d3, Pi4(d2, d0, d1, d3));
    SquareFromCofactor(k3, d3, d0, d1, d2, Pi4(d3, d0, d1, d2));
    Split4(d0, d1, d2, d3, d1 * d2 * d3 * d0, d0 * d2 * d3 * d1, d0 * d1 * d3 * d2, d0 * d1 * d2 * d3);
    DD4OfNodeProduct(d0, d1, d2, d3);
  }

  lemma ThirdMomentOf(d0: real, d1: real, d2: real, d3: real, k0: real, k1: real, k2: real, k3: real)
    requires Distinct4(d0, d1, d2, d3) && Cofactors(d0, d1, d2, d3, k0, k1, k2, k3)
    ensures k0 * d0 * d0 * d0 + k1 * d1 * d1 * d1 + k2 * d2 * d2 * d2 + k3 * d3 * d3 * d3 == 0.0
  {
    CubeFromCofactor(k0, d0, d1, d2, d3, Pi4(d0, d1, d2, d3));
    CubeFromCofactor(k1, d1, d0, d2, d3, Pi4(d1, d0, d2, d3));
    CubeFromCofactor(k2, d2, d0, d1, d3, Pi4(d2, d0, d1, d3));
    CubeFromCofactor(k3, d3, d0, d1, d2, Pi4(d3, d0, d1, d2));
    Split4(d0, d1, d2, d3, d1 * d2 * d3 * d0 * d0, d0 * d2 * d3 * d1 * d1, d0 * d1 * d3 * d2 * d2, d0 * d1 * d2 * d3 * d3);
    DD4OfNodeTimesAll(d0, d1, d2, d3);
  }

  lemma FourthMomentOf(d0: real, d1: real, d2: real, d3: real, k0: real, k1: real, k2: real, k3: real)
    requires Distinct4(d0, d1, d2, d3) && Cofactors(d0, d1, d2, d3, k0, k1, k2, k3)
    ensures k0 * d0 * d0 * d0 * d0 + k1 * d1 * d1 * d1 * d1 + k2 * d2 * d2 * d2 * d2 + k3 * d3 * d3 * d3 * d3 == 0.0
  {
    FourthPowerFromCofactor(k0, d0, d1, d2, d3, Pi4(d0, d1, d2, d3));
    FourthPowerFromCofactor(k1, d1, d0, d2, d3, Pi4(d1, d0, d2, d3));
    FourthPowerFromCofactor(k2, d2, d0, d1, d3, Pi4(d2, d0, d1, d3));
    FourthPowerFromCofactor(k3, d3, d0, d1, d2, Pi4(d3, d0, d1, d2));
    Split4(d0, d1, d2, d3, d1 * d2 * d3 * d0 * d0 * d0, d0 * d2 * d3 * d1 * d1 * d1,
           d0 * d1 * d3 * d2 * d2 * d2, d0 * d1 * d2 * d3 * d3 * d3);
    DD4OfNodeSquaredTimesAll(d0, d1, d2, d3);
  }

  /** The moment conditions: applied to the distances d0 .. d3, the weights
      give -1 for the first power and 0 for the second, third and fourth,
      which is what makes them exact on every quartic sampled at those
      distances. */
  predicate MomentConditions(d0: real, d1: real, d2: real, d3: real, k0: real, k1: real, k2: real, k3: real)
  {
    k0 * d0 + k1 * d1 + k2 * d2 + k3 * d3 == -1.0 &&
    k0 * d0 * d0 + k1 * d1 * d1 + k2 * d2 * d2 + k3 * d3 * d3 == 0.0 &&
    k0 * d0 * d0 * d0 + k1 * d1 * d1 * d1 + k2 * d2 * d2 * d2 + k3 * d3 * d3 * d3 == 0.0 &&
    k0 * d0 * d0 * d0 * d0 + k1 * d1 * d1 * d1 * d1 + k2 * d2 * d2 * d2 * d2 + k3 * d3 * d3 * d3 * d3 == 0.0
  }

  /** The weights makeCoeffs computes meet the moment conditions. */
  lemma WeightMoments(d0: real, d1: real, d2: real, d3: real, k0: real, k1: real, k2: real, k3: real)
    requires Separated(d0, d1, d2, d3)
    requires k0 == K0(d0, d1, d2, d3) && k1 == K1(d0, d1, d2, d3)
    requires k2 == K2(d0, d1, d2, d3) && k3 == K3(d0, d1, d2, d3)
    ensures MomentConditions(d0, d1, d2, d3, k0, k1, k2, k3)
  {
    WeightsTimesDistance(d0, d1, d2, d3);
    FirstMomentOf(d0, d1, d2, d3, k0, k1, k2, k3);
    SecondMomentOf(d0, d1, d2, d3, k0, k1, k2, k3);
    ThirdMomentOf(d0, d1, d2, d3, k0, k1, k2, k3);
    FourthMomentOf(d0, d1, d2, d3, k0, k1, k2, k3);
  }

  // ---------------------------------------------------------------------
  // Exactness on quartics.

  /** The polynomial c0 + c1 t + c2 t^2 + c3 t^3 + c4 t^4 in the time t
      measured from the new level. */
  datatype Quartic = Quartic(c0: real, c1: real, c2: real, c3: real, c4: real)

  /** t to the n-th power. */
  function Pow(t: real, n: nat): real
  {
    if n == 0 then 1.0 else t * Pow(t, n - 1)
  }

  function Eval(q: Quartic, t: real): real
  {
    q.c0 + q.c1 * t + q.c2 * Pow(t, 2) + q.c3 * Pow(t, 3) + q.c4 * Pow(t, 4)
  }

  /** The powers of -d, written out. */
  lemma PowersOfNegated(d: real)
    ensures Pow(-d, 1) == -d && Pow(-d, 2) == d * d
    ensures Pow(-d, 3) == -(d * d * d) && Pow(-d, 4) == d * d * d * d
  {
    assert Pow(-d, 1) == -d;
    assert Pow(-d, 2) == -d * -d;
    assert Pow(-d, 3) == -d * (-d * -d);
    assert Pow(-d, 4) == -d * (-d * (-d * -d));
  }

  /** The value of q at distance d before the new level. */
  function Past(q: Quartic, d: real): real
  {
    Eval(q, -d)
  }

  /** Weight times the first to fourth power of the distance. */
  function Moment1(k: real, d: real): real { k * d }
  function Moment2(k: real, d: real): real { k * d * d }
  function Moment3(k: real, d: real): real { k * d * d * d }
  function Moment4(k: real, d: real): real { k * d * d * d * d }

  /** The change of q from the new level back by d, times a weight k, as a
      combination of the moments of k at d. */
  lemma WeightedChange(q: Quartic, k: real, d: real)
    ensures k * (Past(q, d) - Eval(q, 0.0)) ==
            -q.c1 * Moment1(k, d) + q.c2 * Moment2(k, d) - q.c3 * Moment3(k, d) + q.c4 * Moment4(k, d)
  {
    PowersOfNegated(d);
    assert Eval(q, 0.0) == q.c0;
    assert Eval(q, -d) - Eval(q, 0.0) == -q.c1 * d + q.c2 * (d * d) - q.c3 * (d * d * d) + q.c4 * (d * d * d * d);
  }

  lemma ScaleSum(c: real, x0: real, x1: real, x2: real, x3: real, s: real)
    requires x0 + x1 + x2 + x3 == s
    ensures c * x0 + c * x1 + c * x2 + c * x3 == c * s
  {}

  /** Four weighted changes, each a combination of moments, add up to c1. */
  lemma CombineMoments(c1: real, c2: real, c3: real, c4: real,
                       a0: real, a1: real, a2: real, a3: real, b0: real, b1: real, b2: real, b3: real,
                       e0: real, e1: real, e2: real, e3: real, f0: real, f1: real, f2: real, f3: real,
                       t0: real, t1: real, t2: real, t3: real)
    requires a0 + a1 + a2 + a3 == -1.0 && b0 + b1 + b2 + b3 == 0.0
    requires e0 + e1 + e2 + e3 == 0.0 && f0 + f1 + f2 + f3 == 0.0
    requires t0 == -c1 * a0 + c2 * b0 - c3 * e0 + c4 * f0
    requires t1 == -c1 * a1 + c2 * b1 - c3 * e1 + c4 * f1
    requires t2 == -c1 * a2 + c2 * b2 - c3 * e2 + c4 * f2
    requires t3 == -c1 * a3 + c2 * b3 - c3 * e3 + c4 * f3
    ensures t0 + t1 + t2 + t3 == c1
  {
    ScaleSum(-c1, a0, a1, a2, a3, -1.0);
    ScaleSum(c2, b0, b1, b2, b3, 0.0);
    ScaleSum(c3, e0, e1, e2, e3, 0.0);
    ScaleSum(c4, f0, f1, f2, f3, 0.0);
  }

  /** Weights that meet the moment conditions differentiate every quartic
      exactly: the weighted changes of q from 0 back to the distances d0 .. d3
      add up to its slope c1 at 0. */
  lemma ExactOnQuartics(d0: real, d1: real, d2: real, d3: real, k0: real, k1: real, k2: real, k3: real, q: Quartic)
    requires MomentConditions(d0, d1, d2, d3, k0, k1, k2, k3)
    ensures k0 * (Past(q, d0) - Eval(q, 0.0)) + k1 * (Past(q, d1) - Eval(q, 0.0)) +
            k2 * (Past(q, d2) - Eval(q, 0.0)) + k3 * (Past(q, d3) - Eval(q, 0.0)) == q.c1
  {
    WeightedChange(q, k0, d0);
    WeightedChange(q, k1, d1);
    WeightedChange(q, k2, d2);
    WeightedChange(q, k3, d3);
    CombineMoments(q.c1, q.c2, q.c3, q.c4,
                   Moment1(k0, d0), Moment1(k1, d1), Moment1(k2, d2), Moment1(k3, d3),
                   Moment2(k0, d0), Moment2(k1, d1), Moment2(k2, d2), Moment2(k3, d3),
                   Moment3(k0, d0), Moment3(k1, d1), Moment3(k2, d2), Moment3(k3, d3),
                   Moment4(k0, d0), Moment4(k1, d1), Moment4(k2, d2), Moment4(k3, d3),
                   k0 * (Past(q, d0) - Eval(q, 0.0)), k1 * (Past(q, d1) - Eval(q, 0.0)),
                   k2 * (Past(q, d2) - Eval(q, 0.0)), k3 * (Past(q, d3) - Eval(q, 0.0)));
  }
}
