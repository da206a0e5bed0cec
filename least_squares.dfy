/** Degree-one least-squares fit of the points (j, ys[j]), j = 0 .. |ys| - 1, in closed form.
    This is the fit the triangle indicator asks of its polynomial-fitting routine.

    The arithmetic is stated on the five sufficient statistics (n, sum x, sum x^2, sum y,
    sum xy) by the `...Of` functions; the sequence-level functions feed them the sums. */
module LeastSquares {

  import Arith

  /** Sum of the abscissae 0 + 1 + ... + (n - 1). */
  function SumX(n: nat): real
  {
    if n == 0 then 0.0 else SumX(n - 1) + (n - 1) as real
  }

  /** Sum of the squared abscissae. */
  function SumXX(n: nat): real
  {
    if n == 0 then 0.0 else SumXX(n - 1) + ((n - 1) as real) * ((n - 1) as real)
  }

  function SumY(ys: seq<real>): real
  {
    if ys == [] then 0.0 else SumY(ys[..|ys| - 1]) + ys[|ys| - 1]
  }

  function SumXY(ys: seq<real>): real
  {
    if ys == [] then 0.0 else SumXY(ys[..|ys| - 1]) + (|ys| - 1) as real * ys[|ys| - 1]
  }

  /** n * sum(x^2) - sum(x)^2, the determinant of the normal equations. */
  function Determinant(n: real, sx: real, sxx: real): real
  {
    n * sxx - sx * sx
  }

  function SlopeOf(n: real, sx: real, sxx: real, sy: real, sxy: real): real
    requires Determinant(n, sx, sxx) != 0.0
  {
    (n * sxy - sx * sy) / Determinant(n, sx, sxx)
  }

  function InterceptOf(n: real, sx: real, sxx: real, sy: real, sxy: real): real
    requires Determinant(n, sx, sxx) != 0.0
  {
    (sxx * sy - sx * sxy) / Determinant(n, sx, sxx)
  }

  /** Sum of the residuals y - (m x + c), from the sums. */
  function ResidualOf(n: real, sx: real, sy: real, m: real, c: real): real
  {
    sy - m * sx - n * c
  }

  /** Sum of the residuals weighted by x, from the sums. */
  function WeightedResidualOf(sx: real, sxx: real, sxy: real, m: real, c: real): real
  {
    sxy - m * sxx - c * sx
  }

  function Denominator(n: nat): real
  {
    Determinant(n as real, SumX(n), SumXX(n))
  }

  /** The fitted slope (the leading coefficient of a degree-one polynomial fit): the slope
      of the one line that solves the normal equations. */
  function Slope(ys: seq<real>): (m: real)
    requires |ys| >= 2
    ensures exists c :: NormalEquations(ys, m, c)
    ensures forall m', c' :: NormalEquations(ys, m', c') ==> m' == m
  {
    ClosedFormSolves(ys);
    ClosedFormUnique(ys);
    SlopeOf(|ys| as real, SumX(|ys|), SumXX(|ys|), SumY(ys), SumXY(ys))
  }

  /** The fitted intercept (the constant coefficient), completing the fitted slope to the
      one solution of the normal equations. */
  function Intercept(ys: seq<real>): (c: real)
    requires |ys| >= 2
    ensures NormalEquations(ys, Slope(ys), c)
    ensures forall m', c' :: NormalEquations(ys, m', c') ==> c' == c
  {
    ClosedFormSolves(ys);
    ClosedFormUnique(ys);
    InterceptOf(|ys| as real, SumX(|ys|), SumXX(|ys|), SumY(ys), SumXY(ys))
  }

  /** The line with slope `m` and intercept `c`, evaluated at `x`. */
  function Line(m: real, c: real, x: real): real
  {
    m * x + c
  }

  /** The fitted line evaluated at abscissa `x`: the value there of every line that solves
      the normal equations. */
  function FitAt(ys: seq<real>, x: real): (y: real)
    requires |ys| >= 2
    ensures forall m, c :: NormalEquations(ys, m, c) ==> y == Line(m, c, x)
  {
    Line(Slope(ys), Intercept(ys), x)
  }

  /** Sum of the residuals of the line y = m x + c over the points. */
  function ResidualSum(ys: seq<real>, m: real, c: real): real
  {
    if ys == [] then 0.0
    else ResidualSum(ys[..|ys| - 1], m, c) + (ys[|ys| - 1] - Line(m, c, (|ys| - 1) as real))
  }

  /** Sum of the residuals of y = m x + c, each weighted by its abscissa. */
  function WeightedResidualSum(ys: seq<real>, m: real, c: real): real
  {
    if ys == [] then 0.0
    else
      var j := (|ys| - 1) as real;
      WeightedResidualSum(ys[..|ys| - 1], m, c) + j * (ys[|ys| - 1] - Line(m, c, j))
  }

  /** The normal equations of least squares: the gradient of the squared error vanishes
      at (m, c). They characterise the least-squares line. */
  ghost predicate NormalEquations(ys: seq<real>, m: real, c: real)
  {
    ResidualSum(ys, m, c) == 0.0 && WeightedResidualSum(ys, m, c) == 0.0
  }

  lemma {:induction false} SumXClosedForm(n: nat)
    ensures 2.0 * SumX(n) == n as real * (n as real - 1.0)
  {
    if n > 0 {
      SumXClosedForm(n - 1);
    }
  }

  lemma {:induction false} SumXXClosedForm(n: nat)
    ensures 6.0 * SumXX(n) == (n as real - 1.0) * n as real * (2.0 * n as real - 1.0)
  {
    if n > 0 {
      SumXXClosedForm(n - 1);
    }
  }

  /** The determinant for abscissae 0 .. n - 1 is n^2 (n^2 - 1) / 12. */
  lemma DenominatorClosedForm(n: nat)
    ensures 12.0 * Denominator(n) == (n as real * n as real) * (n as real * n as real - 1.0)
  {
    SumXClosedForm(n);
    SumXXClosedForm(n);
    var r := n as real;
    var sx, sxx := SumX(n), SumXX(n);
    calc {
      12.0 * Denominator(n);
      12.0 * (r * sxx - sx * sx);
      2.0 * r * (6.0 * sxx) - 3.0 * (2.0 * sx) * (2.0 * sx);
      2.0 * r * ((r - 1.0) * r * (2.0 * r - 1.0)) - 3.0 * (r * (r - 1.0)) * (r * (r - 1.0));
      (r * r) * (r * r - 1.0);
    }
  }

  /** With two or more distinct abscissae the fit is well defined. */
  lemma DenominatorPositive(n: nat)
    requires n >= 2
    ensures Denominator(n) > 0.0
  {
    DenominatorClosedForm(n);
    var r := n as real;
    Arith.MulLeft(r, 2.0, r);
    assert Arith.Mul(r, r) >= 4.0;
    Arith.MulLeftStrict(r * r, 0.0, r * r - 1.0);
    assert Arith.Mul(r * r, r * r - 1.0) > 0.0;
  }

  /** The residual sum depends on the points only through their count and sums. */
  lemma {:induction false} ResidualSumClosedForm(ys: seq<real>, m: real, c: real)
    ensures ResidualSum(ys, m, c) == ResidualOf(|ys| as real, SumX(|ys|), SumY(ys), m, c)
  {
    if ys != [] {
      var init, j := ys[..|ys| - 1], (|ys| - 1) as real;
      ResidualSumClosedForm(init, m, c);
      ResidualStep(j, SumX(|init|), SumY(init), ys[|ys| - 1], m, c);
    }
  }

  lemma ResidualStep(j: real, sx: real, sy: real, y: real, m: real, c: real)
    ensures ResidualOf(j, sx, sy, m, c) + (y - Line(m, c, j)) == ResidualOf(j + 1.0, sx + j, sy + y, m, c)
  {
  }

  /** The weighted residual sum depends on the points only through their sums. */
  lemma {:induction false} WeightedResidualSumClosedForm(ys: seq<real>, m: real, c: real)
    ensures WeightedResidualSum(ys, m, c) == WeightedResidualOf(SumX(|ys|), SumXX(|ys|), SumXY(ys), m, c)
  {
    if ys != [] {
      WeightedResidualSumClosedForm(ys[..|ys| - 1], m, c);
      WeightedResidualStep(ys, m, c);
    }
  }

  lemma WeightedResidualStep(ys: seq<real>, m: real, c: real)
    requires ys != []
    ensures var init, j, y := ys[..|ys| - 1], (|ys| - 1) as real, ys[|ys| - 1];
      WeightedResidualOf(SumX(|ys|), SumXX(|ys|), SumXY(ys), m, c)
      == WeightedResidualOf(SumX(|init|), SumXX(|init|), SumXY(init), m, c) + j * (y - Line(m, c, j))
  {
    var init, j, y := ys[..|ys| - 1], (|ys| - 1) as real, ys[|ys| - 1];
    assert |init| == |ys| - 1;
    WeightedResidualAppend(j, SumX(|init|), SumXX(|init|), SumXY(init), y, m, c);
  }

  lemma WeightedResidualAppend(j: real, sx: real, sxx: real, sxy: real, y: real, m: real, c: real)
    ensures WeightedResidualOf(sx, sxx, sxy, m, c) + j * (y - Line(m, c, j))
         == WeightedResidualOf(sx + j, sxx + j * j, sxy + j * y, m, c)
  {
  }

  /** On the sums: the closed-form slope and intercept solve both normal equations. */
  lemma SolvesOnSums(n: real, sx: real, sxx: real, sy: real, sxy: real)
    requires Determinant(n, sx, sxx) != 0.0
    ensures var m, c := SlopeOf(n, sx, sxx, sy, sxy), InterceptOf(n, sx, sxx, sy, sxy);
      ResidualOf(n, sx, sy, m, c) == 0.0 && WeightedResidualOf(sx, sxx, sxy, m, c) == 0.0
  {
    var d := Determinant(n, sx, sxx);
    var m, c := SlopeOf(n, sx, sxx, sy, sxy), InterceptOf(n, sx, sxx, sy, sxy);
    assert m * d == n * sxy - sx * sy;
    assert c * d == sxx * sy - sx * sxy;
    var e1, e2 := ResidualOf(n, sx, sy, m, c), WeightedResidualOf(sx, sxx, sxy, m, c);
    calc {
      d * e1;
      sy * d - (m * d) * sx - n * (c * d);
      sy * d - (n * sxy - sx * sy) * sx - n * (sxx * sy - sx * sxy);
      0.0;
    }
    calc {
      d * e2;
      sxy * d - (m * d) * sxx - (c * d) * sx;
      sxy * d - (n * sxy - sx * sy) * sxx - (sxx * sy - sx * sxy) * sx;
      0.0;
    }
    assert e1 == (d * e1) / d;
    assert e2 == (d * e2) / d;
  }

  /** On the sums: the normal equations, linear in (m, c), have only the closed-form solution. */
  lemma UniqueOnSums(n: real, sx: real, sxx: real, sy: real, sxy: real, m: real, c: real)
    requires Determinant(n, sx, sxx) != 0.0
    requires ResidualOf(n, sx, sy, m, c) == 0.0 && WeightedResidualOf(sx, sxx, sxy, m, c) == 0.0
    ensures m == SlopeOf(n, sx, sxx, sy, sxy) && c == InterceptOf(n, sx, sxx, sy, sxy)
  {
    var d := Determinant(n, sx, sxx);
    calc {
      n * sxy - sx * sy;
      n * (m * sxx + c * sx) - sx * (m * sx + n * c);
      m * d;
    }
    calc {
      sxx * sy - sx * sxy;
      sxx * (m * sx + n * c) - sx * (m * sxx + c * sx);
      c * d;
    }
    assert m == (m * d) / d;
    assert c == (c * d) / d;
  }

  /** The closed-form line of the points' sums solves their normal equations. */
  lemma ClosedFormSolves(ys: seq<real>)
    requires |ys| >= 2
    ensures Denominator(|ys|) > 0.0
    ensures NormalEquations(ys,
      SlopeOf(|ys| as real, SumX(|ys|), SumXX(|ys|), SumY(ys), SumXY(ys)),
      InterceptOf(|ys| as real, SumX(|ys|), SumXX(|ys|), SumY(ys), SumXY(ys)))
  {
    DenominatorPositive(|ys|);
    var n, sx, sxx, sy, sxy := |ys| as real, SumX(|ys|), SumXX(|ys|), SumY(ys), SumXY(ys);
    SolvesOnSums(n, sx, sxx, sy, sxy);
    ResidualSumClosedForm(ys, SlopeOf(n, sx, sxx, sy, sxy), InterceptOf(n, sx, sxx, sy, sxy));
    WeightedResidualSumClosedForm(ys, SlopeOf(n, sx, sxx, sy, sxy), InterceptOf(n, sx, sxx, sy, sxy));
  }

  /** No other line solves the normal equations of two or more points. */
  lemma ClosedFormUnique(ys: seq<real>)
    requires |ys| >= 2
    ensures Denominator(|ys|) > 0.0
    ensures forall m, c :: NormalEquations(ys, m, c) ==>
      && m == SlopeOf(|ys| as real, SumX(|ys|), SumXX(|ys|), SumY(ys), SumXY(ys))
      && c == InterceptOf(|ys| as real, SumX(|ys|), SumXX(|ys|), SumY(ys), SumXY(ys))
  {
    DenominatorPositive(|ys|);
    var n, sx, sxx, sy, sxy := |ys| as real, SumX(|ys|), SumXX(|ys|), SumY(ys), SumXY(ys);
    forall m, c | NormalEquations(ys, m, c)
      ensures m == SlopeOf(n, sx, sxx, sy, sxy) && c == InterceptOf(n, sx, sxx, sy, sxy)
    {
      ResidualSumClosedForm(ys, m, c);
      WeightedResidualSumClosedForm(ys, m, c);
      UniqueOnSums(n, sx, sxx, sy, sxy, m, c);
    }
  }

  /** The fitted slope and intercept solve the normal equations: they are the
      least-squares line. */
  lemma FitSolvesNormalEquations(ys: seq<real>)
    requires |ys| >= 2
    ensures NormalEquations(ys, Slope(ys), Intercept(ys))
  {
    DenominatorPositive(|ys|);
    SolvesOnSums(|ys| as real, SumX(|ys|), SumXX(|ys|), SumY(ys), SumXY(ys));
    ResidualSumClosedForm(ys, Slope(ys), Intercept(ys));
    WeightedResidualSumClosedForm(ys, Slope(ys), Intercept(ys));
  }

  /** Any line that solves the normal equations is the fitted line: least squares has a
      unique solution once there are two points. */
  lemma NormalEquationsDetermineFit(ys: seq<real>, m: real, c: real)
    requires |ys| >= 2 && NormalEquations(ys, m, c)
    ensures m == Slope(ys) && c == Intercept(ys)
  {
    DenominatorPositive(|ys|);
    ResidualSumClosedForm(ys, m, c);
    WeightedResidualSumClosedForm(ys, m, c);
    UniqueOnSums(|ys| as real, SumX(|ys|), SumXX(|ys|), SumY(ys), SumXY(ys), m, c);
  }

  lemma {:induction false} ExactLineHasZeroResiduals(ys: seq<real>, a: real, b: real)
    requires forall j :: 0 <= j < |ys| ==> ys[j] == Line(a, b, j as real)
    ensures NormalEquations(ys, a, b)
  {
    if ys != [] {
      ExactLineHasZeroResiduals(ys[..|ys| - 1], a, b);
    }
  }

  /** Points that lie exactly on a line are fitted by that very line, so the fit
      reproduces every point, in particular the last one. */
  lemma FitOfExactLine(ys: seq<real>, a: real, b: real)
    requires |ys| >= 2
    requires forall j :: 0 <= j < |ys| ==> ys[j] == Line(a, b, j as real)
    ensures Slope(ys) == a && Intercept(ys) == b
    ensures FitAt(ys, (|ys| - 1) as real) == ys[|ys| - 1]
  {
    ExactLineHasZeroResiduals(ys, a, b);
    NormalEquationsDetermineFit(ys, a, b);
  }
}
