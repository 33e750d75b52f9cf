/** Integration contours for the four-punctured sphere with punctures
    0, 1, lambda and infinity (cp1/contourgen.py).

    A contour is the list of vertices of a closed polygon; the last vertex
    joins back to the first. Lambda (`L`) is an exact complex number, so every
    formula of the generator is exact real arithmetic here. */
module ContourGen {
  import opened ComplexNumbers
  import opened Outcome

  type Contour = seq<Complex>

  const One: Complex := Complex(1.0, 0.0)

  /** The real part below which `advanced` moves lambda onto the imaginary axis (1e-8). */
  const SnapThreshold: real := 0.00000001

  function Min(a: real, b: real): (m: real)
    ensures m <= a && m <= b && (m == a || m == b)
  {
    if a <= b then a else b
  }

  function Max(a: real, b: real): (m: real)
    ensures m >= a && m >= b && (m == a || m == b)
  {
    if a >= b then a else b
  }

  /** `z` lies strictly inside the axis-parallel box with corners `lo` and `hi`. */
  predicate StrictlyInsideBox(z: Complex, lo: Complex, hi: Complex) {
    lo.re < z.re < hi.re && lo.im < z.im < hi.im
  }

  // ----------------------------------------------------------------------
  // Orientation: twice the signed area of a polygon (shoelace formula)
  // ----------------------------------------------------------------------

  function Cross(p: Complex, q: Complex): real {
    p.re * q.im - q.re * p.im
  }

  /** The shoelace sum over the open chain c[0], c[1], ..., c[|c|-1]. */
  function ShoelaceChain(c: Contour): real
    decreases |c|
  {
    if |c| < 2 then 0.0 else Cross(c[0], c[1]) + ShoelaceChain(c[1..])
  }

  /** Twice the signed area enclosed by the closed polygon `c`; positive for a
      counter-clockwise traversal. */
  function TwiceSignedArea(c: Contour): real {
    if |c| < 2 then 0.0 else ShoelaceChain(c) + Cross(c[|c| - 1], c[0])
  }

  // ----------------------------------------------------------------------
  // Simple contours
  // ----------------------------------------------------------------------

  /** `_make_rect`: the four corners of a box, starting top right. */
  function MakeRect(xmin: real, xmax: real, ymin: real, ymax: real): (r: Contour)
    ensures |r| == 4
    ensures r[0] == Complex(xmax, ymax) && r[1] == Complex(xmin, ymax)
    ensures r[2] == Complex(xmin, ymin) && r[3] == Complex(xmax, ymin)
  {
    [Complex(xmax, ymax), Complex(xmin, ymax), Complex(xmin, ymin), Complex(xmax, ymin)]
  }

  /** The product of two positive reals is positive. */
  lemma PositiveProduct(a: real, b: real)
    requires a > 0.0 && b > 0.0
    ensures a * b > 0.0
  {
  }

  /** The corners of `_make_rect` run counter-clockwise around a non-degenerate
      box: the signed area is the box's area. */
  lemma {:induction false} MakeRectCounterClockwise(xmin: real, xmax: real, ymin: real, ymax: real)
    requires xmin < xmax && ymin < ymax
    ensures TwiceSignedArea(MakeRect(xmin, xmax, ymin, ymax)) == 2.0 * ((xmax - xmin) * (ymax - ymin))
    ensures TwiceSignedArea(MakeRect(xmin, xmax, ymin, ymax)) > 0.0
  {
    var c := MakeRect(xmin, xmax, ymin, ymax);
    assert c[1..][1..][1..] == [c[3]];
    assert ShoelaceChain(c[1..][1..]) == Cross(c[2], c[3]);
    assert ShoelaceChain(c[1..]) == Cross(c[1], c[2]) + Cross(c[2], c[3]);
    assert ShoelaceChain(c) == Cross(c[0], c[1]) + Cross(c[1], c[2]) + Cross(c[2], c[3]);
    PositiveProduct(xmax - xmin, ymax - ymin);
  }

  /** `simp1`: a box around 0 and lambda. Its right edge is the nearer of the
      midpoint between lambda and 1 and a 0.25 margin right of lambda; its
      vertical extent covers both 0 and lambda with a 0.25 margin. */
  function Simp1(L: Complex): (r: Contour)
    ensures r == MakeRect(-0.25, Min(0.5 * (L.re + 1.0), L.re + 0.25),
                          Min(-0.25, L.im - 0.25), Max(0.25, L.im + 0.25))
    ensures -0.25 < L.re < 1.0 ==>
              StrictlyInsideBox(Zero, r[2], r[0]) && StrictlyInsideBox(L, r[2], r[0]) &&
              One.re > r[0].re
  {
    var xmin := -0.25;
    var xmax := if L.re + 0.25 < 0.5 * (L.re + 1.0) then L.re + 0.25 else 0.5 * (L.re + 1.0);
    var ymin := if L.im - 0.25 < -0.25 then L.im - 0.25 else -0.25;
    var ymax := if L.im + 0.25 > 0.25 then L.im + 0.25 else 0.25;
    MakeRect(xmin, xmax, ymin, ymax)
  }

  /** `simp2`: a box around lambda and 1. Its left edge is the nearer of the
      midpoint between 0 and lambda and a 0.25 margin left of lambda. */
  function Simp2(L: Complex): (r: Contour)
    ensures r == MakeRect(Max(0.5 * L.re, L.re - 0.25), 1.25,
                          Min(-0.25, L.im - 0.25), Max(0.25, L.im + 0.25))
    ensures 0.0 < L.re < 1.25 ==>
              StrictlyInsideBox(L, r[2], r[0]) && StrictlyInsideBox(One, r[2], r[0]) &&
              Zero.re < r[2].re
  {
    var xmin := if L.re - 0.25 > 0.5 * L.re then L.re - 0.25 else 0.5 * L.re;
    var xmax := 1.25;
    var ymin := if L.im - 0.25 < -0.25 then L.im - 0.25 else -0.25;
    var ymax := if L.im + 0.25 > 0.25 then L.im + 0.25 else 0.25;
    MakeRect(xmin, xmax, ymin, ymax)
  }

  /** `simp3`: eight vertices (not six, as the file's header comment says).
      Reading the columns xmin < xmid1 < xmid2 < xmax, the path is the right box
      [xmid2, xmax] and the left box [xmin, xmid1], joined along the bottom edge
      between xmid1 and xmid2, which is traversed twice. Lambda lies in the
      column between the two boxes, 0 in the left box and 1 in the right box. */
  function Simp3(L: Complex): (r: Contour)
    ensures |r| == 8
    // two rows: the top at ymax, the bottom at ymin
    ensures r[0].im == r[1].im == r[4].im == r[5].im == Max(0.25, L.im + 0.25)
    ensures r[2].im == r[3].im == r[6].im == r[7].im == Min(-0.25, L.im - 0.25)
    // four columns: xmax, xmid2, xmid1, xmin
    ensures r[0].re == r[7].re == 1.25 && r[5].re == r[6].re == -0.25
    ensures r[1].re == r[2].re == Min(0.5 * (L.re + 1.0), L.re + 0.25)
    ensures r[3].re == r[4].re == Max(0.5 * L.re, L.re - 0.25)
    ensures 0.0 < L.re < 1.0 ==>
              r[5].re < 0.0 < r[3].re < L.re < r[1].re < 1.0 < r[0].re &&
              r[2].im < 0.0 && r[2].im < L.im && r[0].im > 0.0 && r[0].im > L.im
    ensures 0.0 < L.re < 1.0 ==>
              StrictlyInsideBox(Zero, r[6], r[4]) && StrictlyInsideBox(One, r[2], r[0]) &&
              !StrictlyInsideBox(L, r[6], r[4]) && !StrictlyInsideBox(L, r[2], r[0])
  {
    var xmin := -0.25;
    var xmax := 1.25;
    var xmid1 := if L.re - 0.25 > 0.5 * L.re then L.re - 0.25 else 0.5 * L.re;
    var xmid2 := if L.re + 0.25 < 0.5 * (L.re + 1.0) then L.re + 0.25 else 0.5 * (L.re + 1.0);
    var ymin := if L.im - 0.25 < -0.25 then L.im - 0.25 else -0.25;
    var ymax := if L.im + 0.25 > 0.25 then L.im + 0.25 else 0.25;
    [Complex(xmax, ymax), Complex(xmid2, ymax), Complex(xmid2, ymin), Complex(xmid1, ymin),
     Complex(xmid1, ymax), Complex(xmin, ymax), Complex(xmin, ymin), Complex(xmax, ymin)]
  }

  /** Where Python's slice `s[:n]` of a list of length `len` ends: a negative
      `n` counts from the end. */
  function SliceStop(n: int, len: nat): (k: nat)
    ensures k <= len
  {
    if n >= 0 then (if n <= len then n else len)
    else if len + n >= 0 then len + n else 0
  }

  /** `simple(L, n)`: the first `n` of simp1, simp2, simp3, in that order, with
      Python's slicing of `[simp1, simp2, simp3][:n]`. */
  function Simple(L: Complex, n: int): (r: seq<Contour>)
    ensures 0 <= n ==> |r| == (if n <= 3 then n else 3)
    ensures n < 0 ==> |r| == (if n >= -3 then 3 + n else 0)
    ensures |r| >= 1 ==> r[0] == Simp1(L)
    ensures |r| >= 2 ==> r[1] == Simp2(L)
    ensures |r| >= 3 ==> r[2] == Simp3(L)
  {
    [Simp1(L), Simp2(L), Simp3(L)][..SliceStop(n, 3)]
  }

  // ----------------------------------------------------------------------
  // Advanced contours
  // ----------------------------------------------------------------------

  /** `_signum`: the sign of `x`, as the integer that turns `x` into `abs(x)`. */
  function Signum(x: real): (s: int)
    ensures -1 <= s <= 1
    ensures s as real * x == (if x < 0.0 then -x else x)
    ensures s == 0 <==> x == 0.0
  {
    if x < 0.0 then -1 else if x > 0.0 then 1 else 0
  }

  /** The guard `abs(L) > 100*abs(L.real)` of `horiz_int` on the parts of
      lambda, squared on both sides: |L|^2 > 10000 Re(L)^2, that is, lambda is
      within about 0.6 degrees of the imaginary axis. */
  predicate NearImaginaryAxis(re: real, im: real) {
    re * re + im * im > 10000.0 * re * re
  }

  /** A non-zero lambda on the imaginary axis passes the guard. */
  lemma ImaginaryAxisPassesGuard(im: real)
    requires im != 0.0
    ensures NearImaginaryAxis(0.0, im)
  {
  }

  /** A lambda on the real axis never passes the guard. */
  lemma RealAxisFailsGuard(re: real)
    ensures !NearImaginaryAxis(re, 0.0)
  {
  }

  /** The guard holds on the imaginary axis away from 0, and only off the real axis. */
  lemma NearImaginaryAxisCases(L: Complex)
    ensures L.re == 0.0 && L.im != 0.0 ==> NearImaginaryAxis(L.re, L.im)
    ensures NearImaginaryAxis(L.re, L.im) ==> L.im != 0.0
  {
    if L.re == 0.0 && L.im != 0.0 {
      ImaginaryAxisPassesGuard(L.im);
    }
    RealAxisFailsGuard(L.re);
  }

  /** `z` lies on the perpendicular bisector of 0 and `L`:
      2 Re(z) Re(L) + 2 Im(z) Im(L) = |L|^2. */
  predicate OnBisector(z: Complex, L: Complex) {
    2.0 * z.re * L.re + 2.0 * z.im * L.im == NormSq(L)
  }

  /** The bisector equation says exactly that `z` is as far from 0 as from `L`. */
  lemma OnBisectorIsEquidistant(z: Complex, L: Complex)
    ensures OnBisector(z, L) <==> NormSq(z) == NormSq(Sub(z, L))
  {
    assert NormSq(Sub(z, L)) == NormSq(z) - (2.0 * z.re * L.re + 2.0 * z.im * L.im) + NormSq(L);
  }

  /** The abscissa where the horizontal line at height `y` meets the bisector
      of 0 and `re + im i`: (-2 y im + |L|^2) / (2 re). */
  function BisectorX(re: real, im: real, y: real): real
    requires re != 0.0
  {
    (-2.0 * y * im + (re * re + im * im)) / (2.0 * re)
  }

  /** The ordinate where the vertical line at `x` meets that bisector:
      (|L|^2 - 2 x re) / (2 im). */
  function BisectorY(re: real, im: real, x: real): real
    requires im != 0.0
  {
    ((re * re + im * im) - 2.0 * x * re) / (2.0 * im)
  }

  lemma BisectorXSolves(re: real, im: real, y: real)
    requires re != 0.0
    ensures 2.0 * BisectorX(re, im, y) * re + 2.0 * y * im == re * re + im * im
  {
    var num := -2.0 * y * im + (re * re + im * im);
    assert BisectorX(re, im, y) * (2.0 * re) == num;
  }

  lemma BisectorYSolves(re: real, im: real, x: real)
    requires im != 0.0
    ensures 2.0 * x * re + 2.0 * BisectorY(re, im, x) * im == re * re + im * im
  {
    var num := (re * re + im * im) - 2.0 * x * re;
    assert BisectorY(re, im, x) * (2.0 * im) == num;
  }

  /** `horiz_int(L, y)`: where the horizontal line at height `y` meets the
      perpendicular bisector of 0 and `L`, or the sentinel -100*signum(Im L * y)
      when `L` is so close to the imaginary axis that the bisector is almost
      horizontal. Dividing by 2 Re(L) = 0 raises ZeroDivisionError, which
      happens exactly for L = 0. */
  function HorizInt(L: Complex, y: real): (r: Result<real>)
    ensures r.Failure? <==> L == Zero
    ensures r.Failure? ==> r.error == ZeroDivisionError
    ensures NearImaginaryAxis(L.re, L.im) ==> r.Success? && r.value == -100.0 * Signum(L.im * y) as real
    ensures NearImaginaryAxis(L.re, L.im) ==> r.Success? && (r.value == -100.0 || r.value == 0.0 || r.value == 100.0)
    ensures NearImaginaryAxis(L.re, L.im) && y != 0.0 ==> r.Success? && (r.value == -100.0 || r.value == 100.0)
    ensures !NearImaginaryAxis(L.re, L.im) && r.Success? ==> OnBisector(Complex(r.value, y), L)
  {
    NearImaginaryAxisCases(L);
    if NearImaginaryAxis(L.re, L.im) then
      ProductNonZero(L.im, y);
      Success(-100.0 * Signum(L.im * y) as real)
    else if L.re == 0.0 then
      Failure(ZeroDivisionError)
    else
      BisectorXSolves(L.re, L.im, y);
      Success(BisectorX(L.re, L.im, y))
  }

  /** `vert_int(L, x)`: where the vertical line at `x` meets the perpendicular
      bisector of 0 and `L`. Dividing by 2 Im(L) = 0 raises ZeroDivisionError. */
  function VertInt(L: Complex, x: real): (r: Result<real>)
    ensures r.Failure? <==> L.im == 0.0
    ensures r.Failure? ==> r.error == ZeroDivisionError
    ensures r.Success? ==> OnBisector(Complex(x, r.value), L)
  {
    if L.im == 0.0 then
      Failure(ZeroDivisionError)
    else
      BisectorYSolves(L.re, L.im, x);
      Success(BisectorY(L.re, L.im, x))
  }

  /** `advanced` trades lambda for M = i Im(L) when Re(L) < 1e-8 (a signed
      test: a negative real part is moved too). */
  function Snap(L: Complex): Complex {
    if L.re < SnapThreshold then Complex(0.0, L.im) else L
  }

  /** After the snap, `horiz_int` never divides by Re(M) = 0: off the real
      axis the snapped lambda passes its guard and gets the sentinel. On the
      real axis the snapped lambda is 0 itself (L = -1 gives M = 0), and the
      division 0/0 raises ZeroDivisionError. */
  lemma SnapAvoidsDivision(L: Complex, y: real)
    requires L.re < SnapThreshold
    ensures L.im != 0.0 ==> NearImaginaryAxis(Snap(L).re, Snap(L).im)
    ensures L.im != 0.0 ==> HorizInt(Snap(L), y) == Success(-100.0 * Signum(L.im * y) as real)
    ensures L.im == 0.0 ==> HorizInt(Snap(L), y) == Failure(ZeroDivisionError)
  {
    NearImaginaryAxisCases(Snap(L));
  }

  lemma BisectorXOnRealAxis(re: real, y: real)
    requires re != 0.0
    ensures BisectorX(re, 0.0, y) == re / 2.0
  {
    assert (re * re) / (2.0 * re) == re / 2.0;
  }

  /** On the real axis the bisector of 0 and lambda is the vertical line at
      half of lambda, whatever the height of the horizontal line. */
  lemma HorizIntOnRealAxis(L: Complex, y: real)
    ensures L.im == 0.0 && L.re != 0.0 ==> HorizInt(L, y) == Success(L.re / 2.0)
  {
    if L.im == 0.0 && L.re != 0.0 {
      RealAxisFailsGuard(L.re);
      BisectorXOnRealAxis(L.re, y);
    }
  }

  /** The top edge of contours 2 and 3: at least 0.5 and above lambda. */
  function YTop(L: Complex): (y: real)
    ensures y >= 0.5 && y > L.im
  {
    Max(0.5, L.im + 0.25)
  }

  /** The bottom edge of contour 2: at most -0.5 and below lambda. */
  function YBot2(L: Complex): (y: real)
    ensures y <= -0.5 && y < L.im
  {
    Min(-0.5, L.im - 0.25)
  }

  /** The bottom edge of contour 3: at most -0.25 and below lambda. */
  function YBot3(L: Complex): (y: real)
    ensures y <= -0.25 && y < L.im
  {
    Min(-0.25, L.im - 0.25)
  }

  /** A crossing `x` moved into the strip lo <= x <= hi. */
  function Clip(x: real, lo: real, hi: real): (c: real)
    requires lo <= hi
    ensures lo <= c <= hi
    ensures lo <= x <= hi ==> c == x
    ensures x < lo ==> c == lo
    ensures x > hi ==> c == hi
  {
    if x < lo then lo else if x > hi then hi else x
  }

  /** Vertices a crossing `x` adds to a contour: one, the crossing itself, when
      it lies in the strip lo <= x <= hi; two, the clipped crossing and the point
      where that column meets the bisector, otherwise. */
  function Turns(x: real, lo: real, hi: real): nat {
    if lo <= x <= hi then 1 else 2
  }

  /** Contour 2 of `advanced` for the (snapped) lambda `M`: down the right
      edge x = 1.25 from `ytop` to `ybot`, left along the bottom to the crossing
      of the bottom edge with the bisector of 0 and M, clipped to the strip
      -0.25 <= x <= 0.5, up the bisector, and back along the top from the
      clipped crossing of the top edge. Where a crossing is clipped, the path
      meets the bisector on that column, at the height `vert_int` gives. */
  predicate Contour2Shape(c: Contour, M: Complex, ybot: real, ytop: real) {
    HorizInt(M, ybot).Success? && HorizInt(M, ytop).Success? &&
    var ixbot, ixtop := HorizInt(M, ybot).value, HorizInt(M, ytop).value;
    var k := |c|;
    k == 2 + Turns(ixbot, -0.25, 0.5) + Turns(ixtop, -0.25, 0.5) &&
    c[0] == Complex(1.25, ytop) && c[1] == Complex(1.25, ybot) &&
    c[2] == Complex(Clip(ixbot, -0.25, 0.5), ybot) &&
    (Turns(ixbot, -0.25, 0.5) == 2 ==> VertInt(M, c[2].re).Success? && c[3] == Complex(c[2].re, VertInt(M, c[2].re).value)) &&
    c[k - 1] == Complex(Clip(ixtop, -0.25, 0.5), ytop) &&
    (Turns(ixtop, -0.25, 0.5) == 2 ==> VertInt(M, c[k - 1].re).Success? && c[k - 2] == Complex(c[k - 1].re, VertInt(M, c[k - 1].re).value)) &&
    forall i :: 2 <= i < k ==>
      -0.25 <= c[i].re <= 0.5 &&
      (c[i].im == ybot || c[i].im == ytop || OnBisector(c[i], M))
  }

  /** Contour 3 of `advanced`: along the bottom to x = 1.25, up the right edge,
      back along the top to x = 0.75, down to the crossing of its own bottom
      edge with the bisector, clipped to -0.2 <= x <= 0.75, and back to the left
      edge x = -0.25 from the crossing of the top edge, clipped to
      -0.25 <= x <= 0.5. A bottom crossing right of 0.75 puts the path straight
      onto the bisector at x = 0.75; a top crossing left of -0.25 ends it on
      the bisector at x = -0.25. */
  predicate Contour3Shape(c: Contour, M: Complex, ybot: real, ytop: real) {
    HorizInt(M, ybot).Success? && HorizInt(M, ytop).Success? &&
    var ixbot, ixtop := HorizInt(M, ybot).value, HorizInt(M, ytop).value;
    var k := |c|;
    k == 4 + (if ixbot < -0.2 then 3 else if ixbot > 0.75 then 1 else 2)
           + (if ixtop < -0.25 then 1 else if ixtop > 0.5 then 3 else 2) &&
    c[0] == Complex(-0.25, ybot) && c[1] == Complex(1.25, ybot) &&
    c[2] == Complex(1.25, ytop) && c[3] == Complex(0.75, ytop) &&
    (ixbot <= 0.75 ==> c[4] == Complex(0.75, ybot) && c[5] == Complex(Clip(ixbot, -0.2, 0.75), ybot)) &&
    (ixbot < -0.2 ==> VertInt(M, -0.2).Success? && c[6] == Complex(-0.2, VertInt(M, -0.2).value)) &&
    (ixbot > 0.75 ==> VertInt(M, 0.75).Success? && c[4] == Complex(0.75, VertInt(M, 0.75).value)) &&
    (ixtop < -0.25 ==> VertInt(M, -0.25).Success? && c[k - 1] == Complex(-0.25, VertInt(M, -0.25).value)) &&
    (ixtop >= -0.25 ==> c[k - 1] == Complex(-0.25, ytop) && c[k - 2] == Complex(Clip(ixtop, -0.25, 0.5), ytop)) &&
    (ixtop > 0.5 ==> VertInt(M, 0.5).Success? && c[k - 3] == Complex(0.5, VertInt(M, 0.5).value)) &&
    c[k - 1].re == -0.25 &&
    forall i :: 4 <= i < k ==>
      -0.25 <= c[i].re <= 0.75 &&
      (c[i].im == ybot || c[i].im == ytop || OnBisector(c[i], M))
  }

  /** Every vertex of contours 2 and 3 lies in the columns -0.25 <= x <= 1.25. */
  lemma ShapesStayInColumns(c: Contour, M: Complex, ybot: real, ytop: real)
    ensures Contour2Shape(c, M, ybot, ytop) ==> forall i :: 0 <= i < |c| ==> -0.25 <= c[i].re <= 1.25
    ensures Contour3Shape(c, M, ybot, ytop) ==> forall i :: 0 <= i < |c| ==> -0.25 <= c[i].re <= 1.25
  {
  }

  /** A result of `horiz_int` inside the strip -100 < x < 100 is a point of
      the bisector, never the sentinel. */
  lemma InStripIsOnBisector(M: Complex, y: real, x: real)
    requires y != 0.0 && HorizInt(M, y) == Success(x) && -100.0 < x < 100.0
    ensures OnBisector(Complex(x, y), M)
  {
  }

  /** The second contour of `advanced`, from the crossings `ixtop`, `ixbot`
      of the top and bottom edges with the bisector of 0 and M. Where a
      crossing falls outside -0.25 <= x <= 0.5 the path turns at that column
      and meets the bisector with `vert_int`, which divides by Im(M). */
  method Contour2(M: Complex, ybot: real, ytop: real, ixbot: real, ixtop: real)
    returns (r: Result<Contour>)
    requires ybot < 0.0 < ytop
    requires HorizInt(M, ybot) == Success(ixbot) && HorizInt(M, ytop) == Success(ixtop)
    ensures r.Failure? <==>
              M.im == 0.0 && (ixbot < -0.25 || ixbot > 0.5 || ixtop < -0.25 || ixtop > 0.5)
    ensures r.Failure? ==> r.error == ZeroDivisionError
    ensures r.Success? ==> Contour2Shape(r.value, M, ybot, ytop)
  {
    var gamma := [Complex(1.25, ytop), Complex(1.25, ybot)];
    if ixbot < -0.25 {
      var y :- VertInt(M, -0.25);
      gamma := gamma + [Complex(-0.25, ybot), Complex(-0.25, y)];
    } else if ixbot > 0.5 {
      var y :- VertInt(M, 0.5);
      gamma := gamma + [Complex(0.5, ybot), Complex(0.5, y)];
    } else {
      InStripIsOnBisector(M, ybot, ixbot);
      gamma := gamma + [Complex(ixbot, ybot)];
    }

    // For a real M both crossings are Re(M)/2, so a top crossing outside the
    // strip means the bottom one was too, and `vert_int` has already succeeded.
    HorizIntOnRealAxis(M, ybot);
    HorizIntOnRealAxis(M, ytop);
    if ixtop < -0.25 {
      var y := VertInt(M, -0.25).value;
      gamma := gamma + [Complex(-0.25, y), Complex(-0.25, ytop)];
    } else if ixtop > 0.5 {
      var y := VertInt(M, 0.5).value;
      gamma := gamma + [Complex(0.5, y), Complex(0.5, ytop)];
    } else {
      InStripIsOnBisector(M, ytop, ixtop);
      gamma := gamma + [Complex(ixtop, ytop)];
    }
    return Success(gamma);
  }

  /** The third contour of `advanced`, from the crossing `ixbot` of its own
      bottom edge and the crossing `ixtop` of the top edge shared with
      contour 2. */
  method Contour3(M: Complex, ybot: real, ytop: real, ixbot: real, ixtop: real)
    returns (r: Result<Contour>)
    requires ybot < 0.0 < ytop
    requires HorizInt(M, ybot) == Success(ixbot) && HorizInt(M, ytop) == Success(ixtop)
    ensures r.Failure? <==>
              M.im == 0.0 && (ixbot < -0.2 || ixbot > 0.75 || ixtop < -0.25 || ixtop > 0.5)
    ensures r.Failure? ==> r.error == ZeroDivisionError
    ensures r.Success? ==> Contour3Shape(r.value, M, ybot, ytop)
  {
    var gamma := [Complex(-0.25, ybot), Complex(1.25, ybot), Complex(1.25, ytop), Complex(0.75, ytop)];
    if ixbot < -0.2 {
      var y :- VertInt(M, -0.2);
      gamma := gamma + [Complex(0.75, ybot), Complex(-0.2, ybot), Complex(-0.2, y)];
    } else if ixbot > 0.75 {
      var y :- VertInt(M, 0.75);
      gamma := gamma + [Complex(0.75, y)];
    } else {
      InStripIsOnBisector(M, ybot, ixbot);
      gamma := gamma + [Complex(0.75, ybot), Complex(ixbot, ybot)];
    }

    // For a real M both crossings are Re(M)/2: a top crossing left of -0.25
    // means the bottom one was left of -0.2, and `vert_int` has already succeeded.
    HorizIntOnRealAxis(M, ybot);
    HorizIntOnRealAxis(M, ytop);
    if ixtop < -0.25 {
      var y := VertInt(M, -0.25).value;
      gamma := gamma + [Complex(-0.25, y)];
    } else if ixtop > 0.5 {
      var y :- VertInt(M, 0.5);
      gamma := gamma + [Complex(0.5, y), Complex(0.5, ytop), Complex(-0.25, ytop)];
    } else {
      InStripIsOnBisector(M, ytop, ixtop);
      gamma := gamma + [Complex(ixtop, ytop), Complex(-0.25, ytop)];
    }
    return Success(gamma);
  }

  /** `advanced(L, n)`: contour 1 is `simp1(L)`, contour 2 encloses lambda
      and 1, and contour 3, built only when n >= 3, encloses 0 and 1 around
      lambda. Fewer than two contours are never returned: for n < 3 (n = 1
      included) the result has two. The only division by zero is for lambda
      on the real axis left of 1e-8 (M = 0) or right of 1 (where a vertical
      bisector meets a vertical line nowhere). */
  method Advanced(L: Complex, n: int) returns (r: Result<seq<Contour>>)
    ensures r.Failure? <==> L.im == 0.0 && (L.re < SnapThreshold || L.re > 1.0)
    ensures r.Failure? ==> r.error == ZeroDivisionError
    ensures r.Success? ==> |r.value| == (if n < 3 then 2 else 3)
    ensures r.Success? ==> r.value[0] == Simp1(L)
    ensures r.Success? ==> Contour2Shape(r.value[1], Snap(L), YBot2(L), YTop(L))
    ensures r.Success? && n >= 3 ==> Contour3Shape(r.value[2], Snap(L), YBot3(L), YTop(L))
  {
    var contours := [Simp1(L)];

    var M := L;
    if L.re < SnapThreshold {
      M := Complex(0.0, L.im);
    }

    var ytop := YTop(L);
    var ybot := YBot2(L);
    HorizIntOnRealAxis(M, ytop);
    HorizIntOnRealAxis(M, ybot);
    var ixtop :- HorizInt(M, ytop);
    // Both calls fail exactly for M = 0, so this one succeeds.
    var ixbot := HorizInt(M, ybot).value;

    var gamma :- Contour2(M, ybot, ytop, ixbot, ixtop);
    contours := contours + [gamma];

    if n < 3 {
      return Success(contours);
    }

    ybot := YBot3(L);
    HorizIntOnRealAxis(M, ybot);
    ixbot := HorizInt(M, ybot).value;
    // Contour 2 was built, so for a real M the shared crossing Re(M)/2 lies
    // in [-0.25, 0.5], and contour 3 needs no `vert_int` either.
    var gamma3 := Contour3(M, ybot, ytop, ixbot, ixtop);
    gamma := gamma3.value;
    contours := contours + [gamma];

    return Success(contours);
  }
}
