/** Exact complex arithmetic over the reals, standing in for Python's
    `complex` values. Only the operations the modelled code uses are given:
    sums, differences, products, scaling by a real, and the squared modulus
    (Python's `abs(z)**2`). */
module ComplexNumbers {

  datatype Complex = Complex(re: real, im: real)

  const Zero: Complex := Complex(0.0, 0.0)

  /** A real number seen as a complex one (Python's int/float promotion). */
  function Of(a: real): Complex {
    Complex(a, 0.0)
  }

  function Add(a: Complex, b: Complex): Complex {
    Complex(a.re + b.re, a.im + b.im)
  }

  function Sub(a: Complex, b: Complex): Complex {
    Complex(a.re - b.re, a.im - b.im)
  }

  function Neg(a: Complex): Complex {
    Complex(-a.re, -a.im)
  }

  function Mul(a: Complex, b: Complex): Complex {
    Complex(a.re * b.re - a.im * b.im, a.re * b.im + a.im * b.re)
  }

  /** `k * a` for a real `k`. */
  function Scale(k: real, a: Complex): Complex {
    Complex(k * a.re, k * a.im)
  }

  /** `a ** 2`; CPython evaluates a small integer power by repeated multiplication. */
  function Square(a: Complex): Complex {
    Mul(a, a)
  }

  /** The squared modulus `abs(a)**2`. */
  function NormSq(a: Complex): (r: real)
    ensures r >= 0.0
  {
    a.re * a.re + a.im * a.im
  }

  /** A number with no imaginary part is its real part, promoted. */
  lemma RealPart(a: Complex)
    requires a.im == 0.0
    ensures a == Of(a.re)
  {
  }

  /** A product of non-zero reals is non-zero. */
  lemma ProductNonZero(a: real, b: real)
    ensures a != 0.0 && b != 0.0 ==> a * b != 0.0
  {
  }

  /** `r` is a square root of `w` on the principal branch, as `cmath.sqrt`
      returns it: the right half-plane, and the upper half of the imaginary axis. */
  predicate IsPrincipalSqrt(r: Complex, w: Complex) {
    Square(r) == w && (r.re > 0.0 || (r.re == 0.0 && r.im >= 0.0))
  }

  /** The principal square root of a positive real is that real's positive root. */
  lemma {:induction false} PrincipalSqrtOfPositive(r: Complex, a: real)
    requires a > 0.0
    requires IsPrincipalSqrt(r, Of(a))
    ensures r.im == 0.0 && r.re > 0.0 && r.re * r.re == a
  {
    assert r.re * r.im + r.im * r.re == 0.0;
    assert r.re * (2.0 * r.im) == 0.0;
    assert r.im == 0.0;
  }

  /** Two positive reals with the same square are equal; used to pin a root down. */
  lemma PositiveRootUnique(s: real, t: real)
    requires s > 0.0 && t > 0.0 && s * s == t * t
    ensures s == t
  {
    assert (s - t) * (s + t) == s * s - t * t;
  }

  /** Negating a number leaves its square unchanged. */
  lemma SquareNeg(a: Complex)
    ensures Square(Neg(a)) == Square(a)
  {
  }

  /** Negating one factor negates the product. */
  lemma MulNegRight(a: Complex, b: Complex)
    ensures Mul(a, Neg(b)) == Neg(Mul(a, b))
  {
  }
}
