/** The least-squares line through a history, and the forecast drawn from it. Money is in exact reals. */
module Forecast {
  import opened Reals

  /** The sums that the fit reduces to, over x = 1, 2, ..., n. */
  function SumX(n: nat): int { if n == 0 then 0 else SumX(n - 1) + n }

  function SumXX(n: nat): int { if n == 0 then 0 else SumXX(n - 1) + n * n }

  function SumY(y: seq<real>): real { if y == [] then 0.0 else SumY(y[..|y| - 1]) + y[|y| - 1] }

  function SumXY(y: seq<real>): real { if y == [] then 0.0 else SumXY(y[..|y| - 1]) + Times(|y| as real, y[|y| - 1]) }

  datatype Line = Line(slope: real, intercept: real)

  function Denominator(n: nat): int { n * SumXX(n) - SumX(n) * SumX(n) }

  function LinearFit(y: seq<real>): Line {
    var n := |y| as real;
    if |y| < 2 then Line(0.0, if y == [] then 0.0 else y[0])
    else if Denominator(|y|) == 0 then Line(0.0, SumY(y) / n)
    else
      var slope := (n * SumXY(y) - SumX(|y|) as real * SumY(y)) / Denominator(|y|) as real;
      Line(slope, (SumY(y) - slope * SumX(|y|) as real) / n)
  }

  // ---- The denominator ---------------------------------------------------------------------

  lemma {:induction false} ClosedSums(n: nat)
    ensures 2 * SumX(n) == n * (n + 1)
    ensures 6 * SumXX(n) == n * (n + 1) * (2 * n + 1)
  {
    if n > 0 {
      ClosedSums(n - 1);
    }
  }

  /** The denominator is n^2 (n^2 - 1) / 12, so the branch that divides by it is always taken. */
  lemma DenominatorClosed(n: nat)
    ensures 12 * Denominator(n) == n * n * (n * n - 1)
    ensures n >= 2 ==> Denominator(n) > 0
  {
    ClosedSums(n);
    FromClosedSums(n, SumX(n), SumXX(n));
    if n >= 2 {
      assert n * n >= 2 * n;
      Positive(n * n, n * n - 1);
    }
  }

  lemma DenominatorPositive(n: nat)
    ensures n >= 2 ==> Denominator(n) > 0
  {
    DenominatorClosed(n);
  }

  lemma FromClosedSums(n: int, s: int, q: int)
    requires 2 * s == n * (n + 1) && 6 * q == n * (n + 1) * (2 * n + 1)
    ensures 12 * (n * q - s * s) == n * n * (n * n - 1)
  {
    assert 12 * (n * q) == 2 * n * (6 * q);
    assert 12 * (s * s) == 3 * (2 * s) * (2 * s);
    Polynomial(n);
  }

  lemma Polynomial(n: int)
    ensures 2 * n * (n * (n + 1) * (2 * n + 1)) - 3 * (n * (n + 1)) * (n * (n + 1)) == n * n * (n * n - 1)
  {
    var m := n * n;
    assert n * (n + 1) == m + n;
    assert (m + n) * (2 * n + 1) == 2 * m * n + 3 * m + n;
    assert 2 * n * (2 * m * n + 3 * m + n) == 4 * m * m + 6 * m * n + 2 * m;
    assert (m + n) * (m + n) == m * m + 2 * m * n + m;
  }

  lemma Positive(a: int, b: int)
    requires a > 0 && b > 0
    ensures a * b > 0
  {
  }

  // ---- Residuals and the normal equations -------------------------------------------------------

  function Residual(y: seq<real>, line: Line, x: nat): real
    requires 1 <= x <= |y|
  {
    y[x - 1] - (line.intercept + line.slope * x as real)
  }

  /** The sum of the residuals, the sum of x times the residual, and the sum of their squares. */
  function Error(y: seq<real>, line: Line): real {
    if y == [] then 0.0 else Error(y[..|y| - 1], line) + Residual(y, line, |y|)
  }

  function Moment(y: seq<real>, line: Line): real {
    if y == [] then 0.0 else Moment(y[..|y| - 1], line) + Times(|y| as real, Residual(y, line, |y|))
  }

  function SquaredError(y: seq<real>, line: Line): real {
    if y == [] then 0.0 else SquaredError(y[..|y| - 1], line) + Times(Residual(y, line, |y|), Residual(y, line, |y|))
  }

  lemma {:induction false} ErrorExpands(y: seq<real>, line: Line)
    ensures Error(y, line) == SumY(y) - |y| as real * line.intercept - line.slope * SumX(|y|) as real
  {
    if y != [] {
      ErrorExpands(y[..|y| - 1], line);
      Distribute(line.slope, SumX(|y| - 1) as real, |y| as real);
      Distribute(line.intercept, (|y| - 1) as real, 1.0);
    }
  }

  lemma Distribute(a: real, b: real, c: real)
    ensures a * (b + c) == a * b + a * c
  {
  }

  lemma {:induction false} MomentExpands(y: seq<real>, line: Line)
    ensures Moment(y, line) == SumXY(y) - Times(line.intercept, SumX(|y|) as real) - Times(line.slope, SumXX(|y|) as real)
  {
    if y != [] {
      MomentExpands(y[..|y| - 1], line);
      MomentGrows(y, line);
      hide SumX, SumXX, Residual, Times;
    } else {
      NothingTimes(line.intercept);
      NothingTimes(line.slope);
      hide Times;
    }
  }

  lemma NothingTimes(a: real)
    ensures Times(a, 0.0) == 0.0
  {
  }

  lemma MomentGrows(y: seq<real>, line: Line)
    requires y != []
    ensures var (n, x, a, b) := (|y|, |y| as real, line.intercept, line.slope);
            Times(x, Residual(y, line, n))
              == Times(x, y[n - 1]) - (Times(a, SumX(n) as real) - Times(a, SumX(n - 1) as real))
                - (Times(b, SumXX(n) as real) - Times(b, SumXX(n - 1) as real))
  {
    var n := |y|;
    SquareAdded(n);
    MomentStep(n as real, line.intercept, line.slope, y[n - 1], SumX(n - 1) as real, SumXX(n - 1) as real);
    hide Times;
  }

  lemma SquareAdded(n: nat)
    requires n > 0
    ensures SumXX(n) as real == SumXX(n - 1) as real + n as real * n as real
  {
    assert (n * n) as real == n as real * n as real;
  }

  lemma MomentStep(x: real, a: real, b: real, v: real, s: real, q: real)
    ensures Times(x, v - (a + b * x)) == Times(x, v) - (Times(a, s + x) - Times(a, s)) - (Times(b, q + x * x) - Times(b, q))
  {
    Distribute(b, q, x * x);
    Distribute(a, s, x);
    Distribute(x, v, -(a + b * x));
    Distribute(x, a, b * x);
  }

  /** The residuals of the fitted line sum to zero, and so do their products with x. */
  lemma {:induction false} NormalEquations(y: seq<real>)
    ensures Error(y, LinearFit(y)) == 0.0 && Moment(y, LinearFit(y)) == 0.0
  {
    if |y| >= 2 {
      FitIsNormal(y);
    } else if |y| == 1 {
      assert y[..0] == [];
      assert Residual(y, LinearFit(y), 1) == 0.0;
    }
  }

  lemma {:induction false} FitIsNormal(y: seq<real>)
    requires |y| >= 2
    ensures Error(y, LinearFit(y)) == 0.0 && Moment(y, LinearFit(y)) == 0.0
  {
    hide LinearFit, Error, Moment, SumX, SumXX, SumY, SumXY, Denominator;
    var line := LinearFit(y);
    ErrorExpands(y, line);
    MomentExpands(y, line);
    FitSlope(y);
    FitIntercept(y);
    Cramer(|y| as real, SumX(|y|) as real, SumXX(|y|) as real, SumY(y), SumXY(y), line.slope, line.intercept,
           Error(y, line), Moment(y, line));
  }

  /** The quotients of the fit, cleared of their denominators. */
  lemma {:induction false} FitSlope(y: seq<real>)
    requires |y| >= 2
    ensures var (n, sx) := (|y| as real, SumX(|y|) as real);
            LinearFit(y).slope * (n * SumXX(|y|) as real - sx * sx) == n * SumXY(y) - sx * SumY(y)
  {
    hide SumX, SumXX, SumY, SumXY;
    DenominatorPositive(|y|);
    RealDenominator(|y|, SumX(|y|), SumXX(|y|));
    var rise := |y| as real * SumXY(y) - SumX(|y|) as real * SumY(y);
    Quotient(rise, Denominator(|y|) as real);
  }

  lemma RealDenominator(n: int, s: int, q: int)
    ensures (n * q - s * s) as real == n as real * q as real - s as real * s as real
  {
  }

  lemma {:induction false} FitIntercept(y: seq<real>)
    requires |y| >= 2
    ensures |y| as real * LinearFit(y).intercept == SumY(y) - LinearFit(y).slope * SumX(|y|) as real
  {
    hide SumX, SumXX, SumY, SumXY, Denominator;
    DenominatorPositive(|y|);
    var rest := SumY(y) - LinearFit(y).slope * SumX(|y|) as real;
    assert LinearFit(y).intercept == rest / |y| as real;
    hide LinearFit;
    Quotient(rest, |y| as real);
  }

  lemma Quotient(a: real, b: real)
    requires b > 0.0
    ensures a / b * b == a && b * (a / b) == a
  {
  }

  lemma Cramer(n: real, sx: real, sxx: real, sy: real, sxy: real, b: real, a: real, error: real, moment: real)
    requires n > 0.0 && b * (n * sxx - sx * sx) == n * sxy - sx * sy && n * a == sy - b * sx
    requires error == sy - n * a - b * sx && moment == sxy - sx * a - b * sxx
    ensures error == 0.0 && moment == 0.0
  {
    assert n * moment == n * sxy - sx * (n * a) - b * (n * sxx);
    assert sx * (sy - b * sx) == sx * sy - b * (sx * sx);
    assert n * moment == 0.0;
  }

  // ---- No line does better ----------------------------------------------------------------------------

  function Offset(p: real, q: real, x: real): real { p + q * x }

  /** The sum over x of p + q x times the residual, and of p + q x squared. */
  function Cross(y: seq<real>, line: Line, p: real, q: real): real {
    if y == [] then 0.0 else Cross(y[..|y| - 1], line, p, q) + Times(Offset(p, q, |y| as real), Residual(y, line, |y|))
  }

  function Gap(n: nat, p: real, q: real): real {
    if n == 0 then 0.0 else Gap(n - 1, p, q) + Times(Offset(p, q, n as real), Offset(p, q, n as real))
  }

  lemma {:induction false} CrossExpands(y: seq<real>, line: Line, p: real, q: real)
    ensures Cross(y, line, p, q) == p * Error(y, line) + q * Moment(y, line)
  {
    hide Residual, Times, Offset;
    if y != [] {
      var before := y[..|y| - 1];
      CrossExpands(before, line, p, q);
      CrossStep(p, q, |y| as real, Residual(y, line, |y|), Error(before, line), Moment(before, line));
    } else {
      NoCross(p, q);
    }
  }

  lemma NoCross(p: real, q: real)
    ensures p * 0.0 + q * 0.0 == 0.0
  {
  }

  lemma CrossStep(p: real, q: real, x: real, e: real, error: real, moment: real)
    ensures p * error + q * moment + Times(Offset(p, q, x), e) == p * (error + e) + q * (moment + Times(x, e))
  {
    OffsetTimes(p, q, x, e);
    hide Times, Offset;
    Distribute(p, error, e);
    Distribute(q, moment, Times(x, e));
  }

  lemma OffsetTimes(p: real, q: real, x: real, e: real)
    ensures Times(Offset(p, q, x), e) == p * e + q * Times(x, e)
  {
  }

  lemma {:induction false} OtherLine(y: seq<real>, line: Line, other: Line)
    ensures var (p, q) := (line.intercept - other.intercept, line.slope - other.slope);
            SquaredError(y, other) == SquaredError(y, line) + 2.0 * Cross(y, line, p, q) + Gap(|y|, p, q)
  {
    if y != [] {
      OtherLine(y[..|y| - 1], line, other);
      OtherStep(y, line, other);
      hide SquaredError, Cross, Gap;
    }
  }

  lemma {:induction false} OtherStep(y: seq<real>, line: Line, other: Line)
    requires y != []
    ensures var (p, q, before) := (line.intercept - other.intercept, line.slope - other.slope, y[..|y| - 1]);
            SquaredError(y, other) - SquaredError(before, other)
            == SquaredError(y, line) - SquaredError(before, line)
             + 2.0 * (Cross(y, line, p, q) - Cross(before, line, p, q)) + Gap(|y|, p, q) - Gap(|before|, p, q)
  {
    hide Residual, Offset, Times;
    OtherResidual(y, line, other);
  }

  lemma OtherResidual(y: seq<real>, line: Line, other: Line)
    requires y != []
    ensures var (e, f) := (Residual(y, line, |y|), Residual(y, other, |y|));
            var d := Offset(line.intercept - other.intercept, line.slope - other.slope, |y| as real);
            Times(f, f) == Times(e, e) + 2.0 * Times(d, e) + Times(d, d)
  {
    var x := |y| as real;
    assert (line.slope - other.slope) * x == line.slope * x - other.slope * x;
    var d := Offset(line.intercept - other.intercept, line.slope - other.slope, x);
    Square(Residual(y, line, |y|), d, Residual(y, other, |y|));
  }

  lemma Square(e: real, d: real, f: real)
    requires f == e + d
    ensures Times(f, f) == Times(e, e) + 2.0 * Times(d, e) + Times(d, d)
  {
  }

  lemma {:induction false} GapPositive(n: nat, p: real, q: real)
    ensures Gap(n, p, q) >= 0.0
    ensures n >= 2 && Gap(n, p, q) == 0.0 ==> p == 0.0 && q == 0.0
  {
    if n > 0 {
      GapPositive(n - 1, p, q);
      SquarePositive(Offset(p, q, n as real));
      if n == 2 {
        GapOfTwo(p, q);
      }
    }
    hide Offset, Times;
  }

  lemma {:induction false} GapOfTwo(p: real, q: real)
    ensures Gap(2, p, q) == 0.0 ==> p == 0.0 && q == 0.0
  {
    var c, d := Offset(p, q, 1.0), Offset(p, q, 2.0);
    assert d - c == q && 2.0 * c - d == p;
    hide Offset, Times;
    assert Gap(1, p, q) == Times(c, c) && Gap(2, p, q) == Times(c, c) + Times(d, d);
    if Gap(2, p, q) == 0.0 {
      SquaresZero(c, d);
    }
  }

  lemma SquaresZero(c: real, d: real)
    requires Times(c, c) + Times(d, d) == 0.0
    ensures c == 0.0 && d == 0.0
  {
    hide Times;
    SquarePositive(c);
    SquarePositive(d);
  }

  /** The fitted line has the smallest squared error of all lines, and from two points on no other
      line has as small a one. */
  lemma {:induction false} LeastSquares(y: seq<real>, other: Line)
    ensures SquaredError(y, LinearFit(y)) <= SquaredError(y, other)
    ensures |y| >= 2 && SquaredError(y, other) == SquaredError(y, LinearFit(y)) ==> other == LinearFit(y)
  {
    var line := LinearFit(y);
    var p, q := line.intercept - other.intercept, line.slope - other.slope;
    NormalEquations(y);
    CrossExpands(y, line, p, q);
    OtherLine(y, line, other);
    GapPositive(|y|, p, q);
    hide LinearFit, Error, Moment, SquaredError, Cross, Gap;
    assert Cross(y, line, p, q) == 0.0;
    assert other == Line(other.slope, other.intercept);
  }

  /** A history on a line is fitted by that line. */
  lemma {:induction false} OnTheLine(y: seq<real>, line: Line)
    requires forall x | 1 <= x <= |y| :: Residual(y, line, x) == 0.0
    ensures SquaredError(y, line) == 0.0
  {
    if y != [] {
      var before := y[..|y| - 1];
      forall x | 1 <= x <= |before| ensures Residual(before, line, x) == 0.0 {
        assert Residual(before, line, x) == Residual(y, line, x);
      }
      OnTheLine(before, line);
    }
  }

  lemma {:induction false} SquaredErrorPositive(y: seq<real>, line: Line)
    ensures SquaredError(y, line) >= 0.0
  {
    if y != [] {
      SquaredErrorPositive(y[..|y| - 1], line);
      SquarePositive(Residual(y, line, |y|));
    }
  }

  lemma AffineRecovered(y: seq<real>, line: Line)
    requires |y| >= 2 && forall x | 1 <= x <= |y| :: Residual(y, line, x) == 0.0
    ensures LinearFit(y) == line
  {
    OnTheLine(y, line);
    SquaredErrorPositive(y, LinearFit(y));
    LeastSquares(y, line);
  }

  // ---- The forecast ------------------------------------------------------------------------------------

  /** A stored day, counted from the base date; amounts are rounded to cents. */
  datatype Point = Point(day: int, forecast: real, ciLow: real, ciHigh: real)

  function Max(a: real, b: real): real { if a < b then b else a }

  function Average(y: seq<real>): real { if y == [] then 0.0 else SumY(y) / |y| as real }

  /** `toFixed(2)`: the nearest whole number of cents. */
  function ToCents(x: real): int { (x * 100.0 + 0.5).Floor }

  function Cents(x: real): real { ToCents(x) as real / 100.0 }

  function Blend(y: seq<real>, i: nat): real {
    var line := LinearFit(y);
    0.6 * (line.intercept + Times(line.slope, (|y| + i) as real)) + 0.4 * Average(y)
  }

  function ForecastAt(y: seq<real>, i: nat): real { Max(0.0, Blend(y, i)) }

  function PointAt(y: seq<real>, i: nat): Point {
    var forecast := ForecastAt(y, i);
    Point(i, Cents(forecast), Cents(forecast * 0.8), Cents(forecast * 1.2))
  }

  function Points(y: seq<real>, horizonDays: nat): seq<Point> {
    if horizonDays == 0 then [] else Points(y, horizonDays - 1) + [PointAt(y, horizonDays)]
  }

  function Projected(points: seq<Point>): real {
    if points == [] then 0.0 else Projected(points[..|points| - 1]) + points[|points| - 1].forecast
  }

  method Run(y: seq<real>, horizonDays: nat) returns (points: seq<Point>, opportunity: bool, projectedRevenue: real)
    ensures points == Points(y, horizonDays)
    ensures opportunity <==> LinearFit(y).slope >= 0.0
    ensures projectedRevenue == Projected(points)
  {
    hide LinearFit, Average, Times, Cents;
    var line := LinearFit(y);
    var avg := Average(y);
    points := [];
    for i := 1 to horizonDays + 1
      invariant points == Points(y, i - 1)
    {
      var trend := line.intercept + Times(line.slope, (|y| + i) as real);
      var forecast := Max(0.0, 0.6 * trend + 0.4 * avg);
      points := points + [Point(i, Cents(forecast), Cents(forecast * 0.8), Cents(forecast * 1.2))];
    }
    opportunity := line.slope >= 0.0;
    ProjectedWhole(y, horizonDays);
    projectedRevenue := Cents(Projected(points));
  }

  // ---- Rounding ----------------------------------------------------------------------------------------

  lemma CentsNear(x: real)
    ensures x - 0.005 < Cents(x) <= x + 0.005
  {
  }

  lemma CentsRise(x: real, y: real)
    requires x <= y
    ensures Cents(x) <= Cents(y)
  {
    FloorRises(x * 100.0 + 0.5, y * 100.0 + 0.5);
    Hundredths(ToCents(x), ToCents(y));
    hide ToCents;
  }

  lemma FloorRises(x: real, y: real)
    requires x <= y
    ensures x.Floor <= y.Floor
  {
  }

  lemma Hundredths(m: int, n: int)
    requires m <= n
    ensures m as real / 100.0 <= n as real / 100.0
  {
  }

  lemma CentsOfCents(n: int)
    ensures Cents(n as real / 100.0) == n as real / 100.0
  {
    ToCentsOf(n as real / 100.0, n);
    hide ToCents;
  }

  lemma ToCentsOf(x: real, n: int)
    requires x * 100.0 == n as real
    ensures ToCents(x) == n
  {
  }

  /** The sum of points in cents is whole cents: rounding the projected revenue again changes nothing. */
  lemma {:induction false} ProjectedWhole(y: seq<real>, h: nat)
    ensures Cents(Projected(Points(y, h))) == Projected(Points(y, h))
  {
    hide Cents, ToCents, PointAt;
    var n := Whole(y, h);
    CentsOfCents(n);
  }

  lemma {:induction false} Whole(y: seq<real>, h: nat) returns (n: int)
    ensures Projected(Points(y, h)) == n as real / 100.0
  {
    if h == 0 {
      n := 0;
    } else {
      n := Whole(y, h - 1);
      ProjectedStep(y, h);
      n := n + ToCents(ForecastAt(y, h));
      hide ForecastAt, Points, Projected, ToCents;
    }
  }

  lemma ProjectedStep(y: seq<real>, h: nat)
    requires h > 0
    ensures Projected(Points(y, h)) == Projected(Points(y, h - 1)) + Cents(ForecastAt(y, h))
  {
    hide Cents, ForecastAt;
    var points := Points(y, h);
    assert points[..|points| - 1] == Points(y, h - 1);
  }

  /** What the points would add up to before rounding and without the cut at zero: the area under the
      blended line, over `h` days. */
  function Area(y: seq<real>, h: nat): real {
    h as real * (Average(y) + 0.3 * Times(LinearFit(y).slope, (h + |y|) as real))
  }

  /** The fitted line passes through the mean of the history. */
  lemma ThroughTheMean(y: seq<real>)
    requires y != []
    ensures LinearFit(y).intercept == Average(y) - LinearFit(y).slope * ((|y| + 1) as real / 2.0)
  {
    if |y| >= 2 {
      FitThroughTheMean(y);
    } else {
      assert y[..0] == [] && SumY(y) == y[0];
    }
  }

  lemma FitThroughTheMean(y: seq<real>)
    requires |y| >= 2
    ensures LinearFit(y).intercept == Average(y) - LinearFit(y).slope * ((|y| + 1) as real / 2.0)
  {
    hide LinearFit, SumX, SumXX, SumY, SumXY, Denominator, Average;
    FitIntercept(y);
    AverageIs(y);
    ClosedSums(|y|);
    RealSum(|y|, SumX(|y|));
    Halves(|y| as real, LinearFit(y).slope, LinearFit(y).intercept, SumY(y), SumX(|y|) as real, (|y| + 1) as real / 2.0, Average(y));
  }

  lemma {:induction false} AverageIs(y: seq<real>)
    requires y != []
    ensures |y| as real * Average(y) == SumY(y)
  {
    Quotient(SumY(y), |y| as real);
    hide SumY;
  }

  lemma RealSum(n: nat, s: int)
    requires 2 * s == n * (n + 1)
    ensures 2.0 * s as real == n as real * (n as real + 1.0)
  {
    assert (2 * s) as real == (n * (n + 1)) as real;
  }

  lemma Halves(n: real, b: real, a: real, sy: real, sx: real, h: real, average: real)
    requires n > 0.0 && 2.0 * sx == n * (n + 1.0) && h == (n + 1.0) / 2.0
    requires n * a == sy - b * sx && n * average == sy
    ensures a == average - b * h
  {
    assert sx == n * h;
    assert b * sx == n * (b * h);
    assert n * (a - (average - b * h)) == 0.0;
  }

  /** Before rounding a forecast is the history's average moved along sixty percent of the slope, and
      never below zero. */
  lemma BlendMeaning(y: seq<real>, i: nat)
    requires y != []
    ensures Blend(y, i) == Average(y) + 0.6 * Times(LinearFit(y).slope, i as real + (|y| - 1) as real / 2.0)
  {
    hide LinearFit, Average;
    ThroughTheMean(y);
    Moved(LinearFit(y).slope, (|y| + i) as real, (|y| + 1) as real / 2.0);
    assert (|y| + i) as real - (|y| + 1) as real / 2.0 == i as real + (|y| - 1) as real / 2.0;
    hide Times;
  }

  /** A point is that forecast to within half a cent, and its bounds enclose it. */
  lemma ForecastMeaning(y: seq<real>, i: nat)
    requires y != []
    ensures var forecast := Max(0.0, Average(y) + 0.6 * Times(LinearFit(y).slope, i as real + (|y| - 1) as real / 2.0));
            forecast - 0.005 < PointAt(y, i).forecast <= forecast + 0.005
    ensures 0.0 <= PointAt(y, i).ciLow <= PointAt(y, i).forecast <= PointAt(y, i).ciHigh
    ensures var forecast := Max(0.0, Average(y) + 0.6 * Times(LinearFit(y).slope, i as real + (|y| - 1) as real / 2.0));
            && 0.8 * forecast - 0.005 < PointAt(y, i).ciLow <= 0.8 * forecast + 0.005
            && 1.2 * forecast - 0.005 < PointAt(y, i).ciHigh <= 1.2 * forecast + 0.005
  {
    BlendMeaning(y, i);
    hide LinearFit, Average, Blend;
    var forecast := ForecastAt(y, i);
    CentsNear(forecast);
    CentsNear(forecast * 0.8);
    CentsNear(forecast * 1.2);
    CentsRise(0.0, forecast * 0.8);
    CentsRise(forecast * 0.8, forecast);
    CentsRise(forecast, forecast * 1.2);
    CentsOfCents(0);
    hide Cents;
  }

  /** One point for each day of the horizon, in order. */
  lemma {:induction false} PointsAre(y: seq<real>, h: nat)
    ensures |Points(y, h)| == h
    ensures forall i | 0 <= i < h :: Points(y, h)[i] == PointAt(y, i + 1) && Points(y, h)[i].day == i + 1
  {
    if h > 0 {
      PointsAre(y, h - 1);
    }
    hide ForecastAt, Cents;
  }

  lemma Moved(b: real, x: real, h: real)
    ensures Times(b, x) - b * h == Times(b, x - h)
  {
    Distribute(b, x - h, h);
  }

  /** An opportunity is a forecast that never falls, a warning one that never rises. */
  lemma TrendDirection(y: seq<real>, i: nat, j: nat)
    requires i <= j
    ensures LinearFit(y).slope >= 0.0 ==> PointAt(y, i).forecast <= PointAt(y, j).forecast
    ensures LinearFit(y).slope <= 0.0 ==> PointAt(y, i).forecast >= PointAt(y, j).forecast
  {
    hide LinearFit, Average, Times, Cents;
    Rises(LinearFit(y).slope, (|y| + i) as real, (|y| + j) as real);
    if ForecastAt(y, i) <= ForecastAt(y, j) {
      CentsRise(ForecastAt(y, i), ForecastAt(y, j));
    }
    if ForecastAt(y, j) <= ForecastAt(y, i) {
      CentsRise(ForecastAt(y, j), ForecastAt(y, i));
    }
  }

  /** The projected revenue is at least the area under the blended line, and that area itself when the
      line stays above zero, up to half a cent a day. */
  lemma {:induction false} ProjectedIsArea(y: seq<real>, h: nat)
    requires y != []
    ensures Projected(Points(y, h)) >= Area(y, h) - 0.005 * h as real
    ensures (forall i | 1 <= i <= h :: Blend(y, i) >= 0.0) ==> Projected(Points(y, h)) <= Area(y, h) + 0.005 * h as real
  {
    hide LinearFit, Average, Blend, Cents, Area;
    if h > 0 {
      ProjectedIsArea(y, h - 1);
      ProjectedStep(y, h);
      CentsNear(ForecastAt(y, h));
      BlendMeaning(y, h);
      AreaStep(y, h);
      hide Points, Projected, Times;
    } else {
      NoArea(y);
    }
  }

  lemma {:induction false} NoArea(y: seq<real>)
    ensures Area(y, 0) == 0.0 && Projected(Points(y, 0)) == 0.0
  {
    hide LinearFit, Average, Times;
  }

  lemma AreaStep(y: seq<real>, h: nat)
    requires h > 0
    ensures Area(y, h) == Area(y, h - 1) + (Average(y) + 0.6 * Times(LinearFit(y).slope, h as real + (|y| - 1) as real / 2.0))
  {
    hide LinearFit, Average;
    Trapezoid(LinearFit(y).slope, h as real, |y| as real);
    assert (h - 1 + |y|) as real == h as real - 1.0 + |y| as real;
    hide Times;
    Distribution(h as real, Average(y), 0.3 * Times(LinearFit(y).slope, (h + |y|) as real),
                 0.3 * Times(LinearFit(y).slope, (h - 1 + |y|) as real));
  }

  lemma Distribution(h: real, a: real, s: real, t: real)
    ensures h * (a + s) == h * a + h * s
    ensures (h - 1.0) * (a + t) == h * a - a + (h - 1.0) * t
  {
  }

  /** b h (h + n) / 2 grows by b (h + (n - 1) / 2) from h - 1 to h. */
  lemma Trapezoid(b: real, h: real, n: real)
    ensures h * Times(b, h + n) - (h - 1.0) * Times(b, h - 1.0 + n) == 2.0 * Times(b, h + (n - 1.0) / 2.0)
  {
  }

  lemma Rises(b: real, s: real, t: real)
    requires s <= t
    ensures b >= 0.0 ==> Times(b, s) <= Times(b, t)
    ensures b <= 0.0 ==> Times(b, s) >= Times(b, t)
  {
    Expanded(b, s, t);
    hide Times;
    if s < t && b > 0.0 {
      PositiveProduct(b, t - s);
    } else if s < t && b < 0.0 {
      PositiveProduct(-b, t - s);
    }
  }

  lemma Expanded(b: real, s: real, t: real)
    ensures Times(b, t - s) == Times(b, t) - Times(b, s) && Times(-b, t - s) == Times(b, s) - Times(b, t)
    ensures b == 0.0 ==> Times(b, s) == 0.0 && Times(b, t) == 0.0
  {
  }
}
