# cp1 contours and torus traces, modelled in Dafny

This project models two parts of `cp1`, a package that computes the holonomy of
complex projective structures on the four-punctured sphere and the punctured torus.

- **The contour generator** (`cp1/contourgen.py`). Given the cross-ratio lambda (`L`),
  it builds closed polygons around subsets of the punctures 0, 1 and lambda. The
  holonomy integrator later runs along these polygons.
  - The simple contours are `simp1`, `simp2`, `simp3` and `simple`.
  - The advanced contours are `advanced`, which uses the bisector crossings
    `horiz_int` and `vert_int`.
- **The sphere-to-torus trace reduction** (`cp1/t11.py`).
  - `s04_to_t11` turns the traces of the four-punctured sphere into the traces
    (x, y, z) of the punctured torus.
  - `markov_z` completes x, y to a solution of the Markov relation
    x^2 + y^2 + z^2 = xyz.
  - `T11.gens` always raises.

Files:

- `complex.dfy`, module `ComplexNumbers`. Python's `complex` values, as pairs of exact reals.
- `outcome.dfy`, module `Outcome`. The Python exceptions that can reach a caller
  (`ZeroDivisionError`, `ValueError`, `NotImplementedError`), and a `Result` type
  that carries them.
- `contourgen.dfy`, module `ContourGen`. The contour generator.
  - The pure helpers are functions.
  - `advanced` builds its lists step by step under branching, so it is a method.
    It is split into `Contour2` and `Contour3`, one per contour it builds.
- `t11.dfy`, module `T11`. The trace reduction, as functions and lemmas.
  - `cmath.sqrt` is a function parameter `sqrt`.
  - Each lemma states, as a precondition, what it needs of `sqrt`: that it returns
    a square root, the principal one, or given values at given points.

Arithmetic is exact. Python's `abs(a) < abs(b)` is compared through squared moduli,
and `abs(L) > 100*abs(L.real)` becomes |L|^2 > 10000 Re(L)^2. Every division by zero
the code can reach is modelled as a `ZeroDivisionError` failure, not as a precondition.

## Model

| member | source | states |
|---|---|---|
| ContourGen.MakeRect | cp1/contourgen.py:12-16 | exactly four vertices, in the order (xmax,ymax), (xmin,ymax), (xmin,ymin), (xmax,ymin) |
| ContourGen.MakeRectCounterClockwise | cp1/contourgen.py:12-16 | for xmin < xmax and ymin < ymax the vertex order is counter-clockwise: twice the signed (shoelace) area is twice the box area, so it is positive |
| ContourGen.Simp1 | cp1/contourgen.py:18-30 | the box has xmin = -0.25, xmax = min(0.5(Re L + 1), Re L + 0.25), ymin = min(-0.25, Im L - 0.25) and ymax = max(0.25, Im L + 0.25); for -0.25 < Re L < 1, 0 and lambda lie strictly inside and 1 lies to its right |
| ContourGen.Simp2 | cp1/contourgen.py:32-44 | the box has xmin = max(0.5 Re L, Re L - 0.25) and xmax = 1.25, with the vertical bounds of simp1; for 0 < Re L < 1.25, lambda and 1 lie strictly inside and 0 lies to its left |
| ContourGen.Simp3 | cp1/contourgen.py:46-69 | exactly 8 vertices, on two rows (ymax, ymin) and four columns (1.25, xmid2, xmid1, -0.25); for 0 < Re L < 1 the columns satisfy xmin < 0 < xmid1 < Re L < xmid2 < 1 < xmax and the rows enclose 0 and Im L; 0 is inside the left box and 1 inside the right box, and lambda is inside neither |
| ContourGen.Simple | cp1/contourgen.py:71-72 | the result has length min(n, 3) for n >= 0, and Python's negative-slice length for n < 0; its elements are simp1, simp2, simp3 of L, in that order |
| ContourGen.Signum | cp1/contourgen.py:85-90 | the result is in {-1, 0, 1}; it is 0 exactly for x = 0; and signum(x) * x = abs(x) |
| ContourGen.NearImaginaryAxisCases | cp1/contourgen.py:93 | the guard abs(L) > 100 abs(Re L) holds for every non-zero lambda on the imaginary axis, and never on the real axis |
| ContourGen.OnBisectorIsEquidistant | cp1/contourgen.py:95-98 | the equation 2x Re L + 2y Im L = abs(L)^2 that horiz_int and vert_int solve holds exactly when x + iy is as far from 0 as from lambda |
| ContourGen.HorizInt | cp1/contourgen.py:92-95 | under the guard, the result is the sentinel -100 signum(Im L * y), which is in {-100, 0, 100} and is +-100 when y != 0; otherwise x + iy lies on the bisector of 0 and lambda; ZeroDivisionError is raised exactly for L = 0 |
| ContourGen.VertInt | cp1/contourgen.py:97-98 | x + iy lies on the bisector of 0 and lambda; ZeroDivisionError is raised exactly when Im L = 0 |
| ContourGen.SnapAvoidsDivision | cp1/contourgen.py:104-111 | after the signed snap Re L < 1e-8, horiz_int returns the sentinel whenever Im L != 0, so it never divides by Re M = 0; when Im L = 0 the snapped M is 0 and the call raises ZeroDivisionError |
| ContourGen.HorizIntOnRealAxis | cp1/contourgen.py:95 | for a real non-zero lambda, horiz_int is Re(L)/2 at every height |
| ContourGen.YTop | cp1/contourgen.py:108 | ytop >= 0.5 and ytop > Im L |
| ContourGen.YBot2 | cp1/contourgen.py:109 | ybot of contour 2 is <= -0.5 and < Im L |
| ContourGen.YBot3 | cp1/contourgen.py:136 | ybot of contour 3 is <= -0.25 and < Im L |
| ContourGen.Contour2 | cp1/contourgen.py:115-131 | contour 2 starts 1.25 + ytop i, 1.25 + ybot i; its third vertex is the horiz_int crossing of the bottom edge clipped to [-0.25, 0.5] and its last vertex the clipped crossing of the top edge; each clipped crossing adds the point vert_int gives on its column (so 4 to 6 vertices); every vertex after the first two lies in the strip and on an edge or the bisector; ZeroDivisionError is raised exactly when Im M = 0 and a crossing leaves the strip |
| ContourGen.Contour3 | cp1/contourgen.py:136-155 | contour 3 starts -0.25 + ybot i, 1.25 + ybot i, 1.25 + ytop i, 0.75 + ytop i; a bottom crossing at most 0.75 gives 0.75 + ybot i and the crossing clipped to [-0.2, 0.75], plus the vert_int point on x = -0.2 when it lies left of -0.2, and one right of 0.75 gives the vert_int point on x = 0.75 instead; a top crossing left of -0.25 ends the contour at the vert_int point on x = -0.25, otherwise it ends with the crossing clipped to [-0.25, 0.5] and -0.25 + ytop i, preceded by the vert_int point on x = 0.5 when clipped there (6 to 10 vertices); ZeroDivisionError is raised exactly when Im M = 0 and a crossing leaves its strip |
| ContourGen.ShapesStayInColumns | cp1/contourgen.py:115-152 | every vertex of contours 2 and 3 has real part in [-0.25, 1.25] |
| ContourGen.Advanced | cp1/contourgen.py:100-157 | the first contour is simp1(L); there are exactly 2 contours for n < 3 (n = 1 included) and 3 otherwise; contours 2 and 3 have the shapes above, with the horiz_int crossings and vert_int points of the snapped lambda at heights ytop and ybot, vertex by vertex; ZeroDivisionError is raised exactly for a real lambda with Re L < 1e-8 or Re L > 1 |
| ComplexNumbers.PrincipalSqrtOfPositive | cp1/t11.py:11 | the principal square root of a positive real a is a positive real whose square is a |
| T11.MarkovZ | cp1/t11.py:6-7 | when sqrt returns a square root of the discriminant (xy)^2 - 4(x^2 + y^2), the result z satisfies x^2 + y^2 + z^2 = xyz |
| T11.S04ToT11 | cp1/t11.py:9-19 | ValueError is raised exactly when there are not 2 or 3 traces; x and y are sqrt(2 - t1) and sqrt(2 - t2); with 2 traces z is markov_z(x, y); with 3 traces z is +-sqrt(2 - t3), and it stays sqrt(2 - t3) unless the strict test abs(sum + xyz) < abs(sum - xyz) holds, so a tie keeps z |
| T11.TwoTraces | cp1/t11.py:10-13 | with a square-root function and 2 traces, x^2 = 2 - t1, y^2 = 2 - t2, and x^2 + y^2 + z^2 = xyz |
| T11.ThreeTraces | cp1/t11.py:16-19 | with a square-root function and 3 traces, x^2 = 2 - t1, y^2 = 2 - t2 and z^2 = 2 - t3, whichever sign z gets |
| T11.NegateZ | cp1/t11.py:17-18 | negating z keeps x^2 + y^2 + z^2 and negates xyz |
| T11.BranchSelection | cp1/t11.py:17-18 | after the sign choice, abs(x^2 + y^2 + z^2 - xyz) <= abs(x^2 + y^2 + z^2 + xyz): the branch nearer the Markov relation is kept |
| T11.MarkovIsKept | cp1/t11.py:17-18 | a triple that already satisfies the Markov relation is never flipped |
| T11.PrincipalRootOf | cp1/t11.py:11 | the principal square root of a positive real a is the positive root of a |
| T11.RealMarkovTraces | cp1/t11.py:16-19 | three real sphere traces whose torus traces are real and satisfy the Markov relation come back unchanged, as those torus traces |
| T11.HexagonalCase | cp1/test/test_t11.py:5-14 | under the principal square root, sphere traces -7, -7, -7 give torus traces 3, 3, 3 |
| T11.SquareCase | cp1/test/test_t11.py:16-25 | under the principal square root at 8 and 16, r = sqrt(8) is the positive real with r^2 = 8 (that is, 2 sqrt(2)), and sphere traces -6, -6, -14 give torus traces r, r, 4 |
| T11.Gens | cp1/t11.py:34-35 | every call fails with NotImplementedError("Matrix generators are not available for T11 holonomy.") and never returns matrices |

## Left out

- `T11.traces`, `t11_lambda_hol` and `t11_tau_hol` (cp1/t11.py:37-50) only pass the output of the `s04` module to `s04_to_t11`. The `s04` module is not part of this model, nor are the native integrator modules `pcint` and `bowditch`. The concrete cases therefore start from the sphere traces that the `s04` tests expect (cp1/test/test_s04.py:7-30).
- Floating point is not modelled: rounding, overflow, NaN, infinities and signed zero are out. The 1e-8 snap threshold is kept as an exact constant, without its numeric intent.
- `cmath.sqrt` is a function parameter. Each lemma states what it needs of `sqrt` as a precondition: a square root of every argument, the principal root at the points it uses, or (for the helper steps of the concrete cases) particular values at those points. The branch cut on the negative real axis is not modelled beyond the principal half-plane.
- Whether the polygons are simple or wind once around their punctures is not modelled: the code never checks it, and `simp3` runs along part of its bottom edge twice. Only the orientation of `_make_rect` is proved.
- Reading and printing: the commented-out `print` lines of `advanced` and the repository's example scripts and its build script.
- T11.MarkovZ: promises the Markov relation only when `sqrt` returns a square root of the discriminant. Which of the two roots `cmath.sqrt` picks is not constrained.

## Notes on the code

- The header comment of `contourgen.py` says "4,4,6 vertices", but `simp3` returns 8 vertices (cp1/contourgen.py:62-69). The model follows the code.
- `advanced(L, n)` returns two contours for every n < 3, including n = 1 and n <= 0 (cp1/contourgen.py:133-134). The model follows the code.
- The snap test `L.real < 1e-8` is signed, so lambda with a negative real part is moved to the imaginary axis too. For a real lambda the snapped value is 0, and `horiz_int` then raises ZeroDivisionError.
- `s04_to_t11` treats every length other than 2 as the three-trace case. Unpacking then raises ValueError unless there are exactly 3 traces.
