/** Traces of a punctured torus from the traces of a four-punctured sphere
    (cp1/t11.py). The torus double-covers the sphere branched at the four
    punctures; a sphere trace t becomes the torus trace sqrt(2 - t), and the
    three torus traces (x, y, z) of a, b and ab of a punctured torus with a
    parabolic commutator satisfy the Markov relation x^2 + y^2 + z^2 = xyz.

    `cmath.sqrt` is a parameter `sqrt` of the functions; lemmas assume only what
    they need of it: that it returns a square root, the principal one, or given
    values at given points. */
module T11 {
  import opened ComplexNumbers
  import opened Outcome

  /** The torus traces (x, y, z) of the generators a, b and of ab. */
  datatype TraceTriple = TraceTriple(x: Complex, y: Complex, z: Complex)

  /** `sqrt` returns a square root of every argument. */
  ghost predicate SquareRootFn(sqrt: Complex -> Complex) {
    forall w :: Square(sqrt(w)) == w
  }

  /** x^2 + y^2 + z^2, the left side of the Markov relation. */
  function MarkovSum(x: Complex, y: Complex, z: Complex): Complex {
    Add(Add(Square(x), Square(y)), Square(z))
  }

  /** xyz, the right side of the Markov relation. */
  function MarkovProduct(x: Complex, y: Complex, z: Complex): Complex {
    Mul(Mul(x, y), z)
  }

  predicate Markov(x: Complex, y: Complex, z: Complex) {
    MarkovSum(x, y, z) == MarkovProduct(x, y, z)
  }

  /** The discriminant (xy)^2 - 4(x^2 + y^2) of z^2 - xy z + (x^2 + y^2) = 0,
      the Markov relation read as a quadratic in z. */
  function MarkovDiscriminant(x: Complex, y: Complex): Complex {
    Sub(Square(Mul(x, y)), Scale(4.0, Add(Square(x), Square(y))))
  }

  /** The Markov relation as a quadratic: with s^2 = p^2 - 4q, the number
      z = (p - s)/2 satisfies z^2 - pz + q = 0. */
  lemma QuadraticRoot(p: Complex, q: Complex, s: Complex)
    ensures Square(s) == Sub(Square(p), Scale(4.0, q)) ==>
              Add(Sub(Square(Scale(0.5, Sub(p, s))), Mul(p, Scale(0.5, Sub(p, s)))), q) == Zero
  {
  }

  /** `markov_z(x, y)`: the z that completes x, y to a solution of the Markov
      relation, (xy - sqrt((xy)^2 - 4(x^2 + y^2)))/2. Any square root of the
      discriminant gives a solution; `cmath.sqrt` picks the principal one. */
  function MarkovZ(x: Complex, y: Complex, sqrt: Complex -> Complex): (z: Complex)
    ensures Square(sqrt(MarkovDiscriminant(x, y))) == MarkovDiscriminant(x, y) ==>
              Markov(x, y, z)
  {
    var s := sqrt(MarkovDiscriminant(x, y));
    var z := Scale(0.5, Sub(Mul(x, y), s));
    QuadraticRoot(Mul(x, y), Add(Square(x), Square(y)), s);
    z
  }

  /** The torus trace `sqrt(2 - t)` for a sphere trace `t`. */
  function TorusTrace(t: Complex, sqrt: Complex -> Complex): Complex {
    sqrt(Sub(Of(2.0), t))
  }

  /** |q + p| < |q - p|, compared through squared moduli. */
  predicate PlusIsNearer(q: Complex, p: Complex) {
    NormSq(Add(q, p)) < NormSq(Sub(q, p))
  }

  /** The sign test of `s04_to_t11`: |x^2 + y^2 + z^2 + xyz| < |x^2 + y^2 + z^2 - xyz|. */
  predicate FlipsSign(x: Complex, y: Complex, z: Complex) {
    PlusIsNearer(MarkovSum(x, y, z), MarkovProduct(x, y, z))
  }

  /** `s04_to_t11(traces)`: two sphere traces give x, y and the Markov z; three
      give x, y, z directly, with z negated when that brings xyz closer to
      x^2 + y^2 + z^2 (the square roots fix z only up to sign). Any other
      length fails to unpack into x, y, z, which Python reports as ValueError. */
  function S04ToT11(traces: seq<Complex>, sqrt: Complex -> Complex): (r: Result<TraceTriple>)
    ensures r.Failure? <==> |traces| != 2 && |traces| != 3
    ensures r.Failure? ==> r.error == ValueError
    ensures r.Success? ==>
              r.value.x == TorusTrace(traces[0], sqrt) && r.value.y == TorusTrace(traces[1], sqrt)
    ensures |traces| == 2 ==> r.value.z == MarkovZ(r.value.x, r.value.y, sqrt)
    ensures |traces| == 3 ==>
              r.value.z == TorusTrace(traces[2], sqrt) || r.value.z == Neg(TorusTrace(traces[2], sqrt))
    ensures |traces| == 3 && !FlipsSign(r.value.x, r.value.y, TorusTrace(traces[2], sqrt)) ==>
              r.value.z == TorusTrace(traces[2], sqrt)
  {
    if |traces| == 2 then
      var x, y := TorusTrace(traces[0], sqrt), TorusTrace(traces[1], sqrt);
      Success(TraceTriple(x, y, MarkovZ(x, y, sqrt)))
    else if |traces| == 3 then
      var x, y, z := TorusTrace(traces[0], sqrt), TorusTrace(traces[1], sqrt), TorusTrace(traces[2], sqrt);
      if FlipsSign(x, y, z) then Success(TraceTriple(x, y, Neg(z)))
      else Success(TraceTriple(x, y, z))
    else
      Failure(ValueError)
  }

  /** With two sphere traces, x and y square to 2 - t and the triple satisfies
      the Markov relation. */
  lemma TwoTraces(t1: Complex, t2: Complex, sqrt: Complex -> Complex)
    requires SquareRootFn(sqrt)
    ensures S04ToT11([t1, t2], sqrt).Success?
    ensures var v := S04ToT11([t1, t2], sqrt).value;
              Square(v.x) == Sub(Of(2.0), t1) && Square(v.y) == Sub(Of(2.0), t2) &&
              Markov(v.x, v.y, v.z)
  {
    var x, y := TorusTrace(t1, sqrt), TorusTrace(t2, sqrt);
    assert Square(sqrt(MarkovDiscriminant(x, y))) == MarkovDiscriminant(x, y);
  }

  /** With three sphere traces every output trace squares to 2 - t, whichever
      sign z gets. */
  lemma ThreeTraces(t1: Complex, t2: Complex, t3: Complex, sqrt: Complex -> Complex)
    requires SquareRootFn(sqrt)
    ensures S04ToT11([t1, t2, t3], sqrt).Success?
    ensures var v := S04ToT11([t1, t2, t3], sqrt).value;
              Square(v.x) == Sub(Of(2.0), t1) && Square(v.y) == Sub(Of(2.0), t2) &&
              Square(v.z) == Sub(Of(2.0), t3)
  {
    var z := TorusTrace(t3, sqrt);
    assert Square(z) == Sub(Of(2.0), t3);
    SquareNeg(z);
  }

  /** Negating z keeps x^2 + y^2 + z^2 and negates xyz. */
  lemma NegateZ(x: Complex, y: Complex, z: Complex)
    ensures MarkovSum(x, y, Neg(z)) == MarkovSum(x, y, z)
    ensures MarkovProduct(x, y, Neg(z)) == Neg(MarkovProduct(x, y, z))
  {
    SquareNeg(z);
    MulNegRight(Mul(x, y), z);
  }

  /** After the sign choice of the three-trace case, xyz is at least as close
      to x^2 + y^2 + z^2 as -xyz is: the branch nearer the Markov relation is kept. */
  lemma {:induction false} BranchSelection(t1: Complex, t2: Complex, t3: Complex, sqrt: Complex -> Complex)
    ensures S04ToT11([t1, t2, t3], sqrt).Success?
    ensures var v := S04ToT11([t1, t2, t3], sqrt).value;
              NormSq(Sub(MarkovSum(v.x, v.y, v.z), MarkovProduct(v.x, v.y, v.z))) <=
              NormSq(Add(MarkovSum(v.x, v.y, v.z), MarkovProduct(v.x, v.y, v.z)))
  {
    var x, y, z := TorusTrace(t1, sqrt), TorusTrace(t2, sqrt), TorusTrace(t3, sqrt);
    var q, p := MarkovSum(x, y, z), MarkovProduct(x, y, z);
    if FlipsSign(x, y, z) {
      NegateZ(x, y, z);
      assert Sub(q, Neg(p)) == Add(q, p);
      assert Add(q, Neg(p)) == Sub(q, p);
    }
  }

  /** The principal root of the positive real `a` is `Of(root)` for the
      positive `root` with root * root == a. */
  lemma PrincipalRootOf(sqrt: Complex -> Complex, a: real, root: real)
    requires IsPrincipalSqrt(sqrt(Of(a)), Of(a))
    requires a > 0.0 && root > 0.0 && root * root == a
    ensures sqrt(Of(a)) == Of(root)
  {
    var r := sqrt(Of(a));
    PrincipalSqrtOfPositive(r, a);
    PositiveRootUnique(r.re, root);
  }

  /** A triple that already satisfies the Markov relation is never flipped:
      then |x^2 + y^2 + z^2 - xyz| = 0. */
  lemma MarkovIsKept(x: Complex, y: Complex, z: Complex)
    requires Markov(x, y, z)
    ensures !FlipsSign(x, y, z)
  {
    assert Sub(MarkovSum(x, y, z), MarkovProduct(x, y, z)) == Zero;
  }

  /** Real traces satisfy the complex Markov relation when they satisfy the real one. */
  lemma RealMarkov(a: real, b: real, c: real)
    requires a * a + b * b + c * c == a * b * c
    ensures Markov(Of(a), Of(b), Of(c))
  {
  }

  /** The torus trace of a real sphere trace t, given what `sqrt` returns for 2 - t. */
  lemma RealTorusTrace(t: real, a: real, sqrt: Complex -> Complex)
    requires sqrt(Of(2.0 - t)) == Of(a)
    ensures TorusTrace(Of(t), sqrt) == Of(a)
  {
    assert Sub(Of(2.0), Of(t)) == Of(2.0 - t);
  }

  /** Three sphere traces whose torus traces need no sign change come back
      as those torus traces. */
  lemma KeptTraces(t1: Complex, t2: Complex, t3: Complex, sqrt: Complex -> Complex,
                    x: Complex, y: Complex, z: Complex)
    requires TorusTrace(t1, sqrt) == x && TorusTrace(t2, sqrt) == y
    requires TorusTrace(t3, sqrt) == z && !FlipsSign(x, y, z)
    ensures S04ToT11([t1, t2, t3], sqrt) == Success(TraceTriple(x, y, z))
  {
  }

  /** Three real sphere traces whose torus traces a, b, c are real and satisfy
      the Markov relation come back as (a, b, c). */
  lemma RealMarkovTraces(t1: real, t2: real, t3: real, a: real, b: real, c: real, sqrt: Complex -> Complex)
    requires sqrt(Of(2.0 - t1)) == Of(a) && sqrt(Of(2.0 - t2)) == Of(b) && sqrt(Of(2.0 - t3)) == Of(c)
    requires a * a + b * b + c * c == a * b * c
    ensures S04ToT11([Of(t1), Of(t2), Of(t3)], sqrt) == Success(TraceTriple(Of(a), Of(b), Of(c)))
  {
    RealTorusTrace(t1, a, sqrt);
    RealTorusTrace(t2, b, sqrt);
    RealTorusTrace(t3, c, sqrt);
    RealMarkov(a, b, c);
    MarkovIsKept(Of(a), Of(b), Of(c));
    KeptTraces(Of(t1), Of(t2), Of(t3), sqrt, Of(a), Of(b), Of(c));
  }

  /** Sphere traces -7, -7, -7 give torus traces 3, 3, 3 once sqrt(9) = 3. */
  lemma HexagonalTraces(sqrt: Complex -> Complex)
    requires sqrt(Of(9.0)) == Of(3.0)
    ensures S04ToT11([Of(-7.0), Of(-7.0), Of(-7.0)], sqrt) == Success(TraceTriple(Of(3.0), Of(3.0), Of(3.0)))
  {
    RealMarkovTraces(-7.0, -7.0, -7.0, 3.0, 3.0, 3.0, sqrt);
  }

  /** The hexagonal torus under the principal square root: sphere traces
      -7, -7, -7 give torus traces 3, 3, 3 (the reference values of the
      hexagonal test case). */
  lemma HexagonalCase(sqrt: Complex -> Complex)
    requires IsPrincipalSqrt(sqrt(Of(9.0)), Of(9.0))
    ensures S04ToT11([Of(-7.0), Of(-7.0), Of(-7.0)], sqrt) == Success(TraceTriple(Of(3.0), Of(3.0), Of(3.0)))
  {
    PrincipalRootOf(sqrt, 9.0, 3.0);
    HexagonalTraces(sqrt);
  }

  /** Sphere traces -6, -6, -14 give torus traces r, r, 4 once sqrt(8) is a
      positive real r with r^2 = 8 and sqrt(16) = 4. */
  lemma SquareTraces(sqrt: Complex -> Complex, r: Complex)
    requires r.im == 0.0 && r.re > 0.0 && r.re * r.re == 8.0
    requires sqrt(Of(8.0)) == r && sqrt(Of(16.0)) == Of(4.0)
    ensures S04ToT11([Of(-6.0), Of(-6.0), Of(-14.0)], sqrt) == Success(TraceTriple(r, r, Of(4.0)))
  {
    RealPart(r);
    RealMarkovTraces(-6.0, -6.0, -14.0, r.re, r.re, 4.0, sqrt);
  }

  /** The principal root of 16 is 4. */
  lemma Root16(sqrt: Complex -> Complex)
    requires IsPrincipalSqrt(sqrt(Of(16.0)), Of(16.0))
    ensures sqrt(Of(16.0)) == Of(4.0)
  {
    PrincipalRootOf(sqrt, 16.0, 4.0);
  }

  /** The square torus under the principal square root: sphere traces
      -6, -6, -14 give torus traces r, r, 4 for r = sqrt(8), which is the
      positive real 2 sqrt(2) (the reference values of the square test case). */
  lemma {:induction false} SquareCase(sqrt: Complex -> Complex, r: Complex)
    requires r == sqrt(Of(8.0)) && IsPrincipalSqrt(r, Of(8.0))
    requires IsPrincipalSqrt(sqrt(Of(16.0)), Of(16.0))
    ensures r.im == 0.0 && r.re > 0.0 && r.re * r.re == 8.0
    ensures S04ToT11([Of(-6.0), Of(-6.0), Of(-14.0)], sqrt) == Success(TraceTriple(r, r, Of(4.0)))
  {
    PrincipalSqrtOfPositive(r, 8.0);
    Root16(sqrt);
    SquareTraces(sqrt, r);
  }

  /** A 2 x 2 complex matrix, the type `gens` would return. */
  datatype Matrix2 = Matrix2(a: Complex, b: Complex, c: Complex, d: Complex)

  /** `T11.gens(C)`: the generators of the torus holonomy are not available;
      every call raises NotImplementedError. */
  function Gens(C: Complex): (r: Result<seq<Matrix2>>)
    ensures r.Failure? && r.error.NotImplementedError?
    ensures r.error.message == "Matrix generators are not available for T11 holonomy."
  {
    Failure(NotImplementedError("Matrix generators are not available for T11 holonomy."))
  }
}
