/** Angles: the wrapping loop both `wrap_pi` functions run, congruence modulo a turn, and
    the C library's elementary functions as values with the laws the proofs use. */
module Angles {
  /** `atan2` takes (y, x), as the library's does. */
  datatype Math = Math(pi: real, cos: real -> real, sin: real -> real,
                       atan2: (real, real) -> real, acos: real -> real, root: real -> real)

  datatype Complex = Complex(re: real, im: real)

  function Times(a: Complex, b: Complex): (c: Complex) {
    Complex(a.re * b.re - a.im * b.im, a.re * b.im + a.im * b.re)
  }

  function Square(a: Complex): (c: Complex) {
    Times(a, a)
  }

  function Mirrored(a: Complex): (c: Complex) {
    Complex(a.re, -a.im)
  }

  function Grown(a: Complex, k: real): (c: Complex) {
    Complex(a.re * k, a.im * k)
  }

  function Length2(a: Complex): (n: real) {
    a.re * a.re + a.im * a.im
  }

  function Direction(m: Math, x: real): (d: Complex) {
    Complex(m.cos(x), m.sin(x))
  }

  function Argument(m: Math, a: Complex): (rad: real) {
    m.atan2(a.im, a.re)
  }

  /** Degrees, in radians. */
  function Rad(m: Math, deg: real): (rad: real) {
    deg * (m.pi / 180.0)
  }

  predicate SquaresTo(m: Math, s: real) {
    s >= 0.0 ==> m.root(s) >= 0.0 && m.root(s) * m.root(s) == s
  }

  predicate Adds(m: Math, x: real, y: real) {
    Direction(m, x + y) == Times(Direction(m, x), Direction(m, y))
  }

  predicate OnCircle(m: Math, x: real) {
    Length2(Direction(m, x)) == 1.0
  }

  predicate OnceAround(m: Math, x: real) {
    -2.0 * m.pi < x < 2.0 * m.pi && m.cos(x) == 1.0 ==> x == 0.0
  }

  predicate Polar(m: Math, a: Complex) {
    a != Complex(0.0, 0.0) ==>
      && -m.pi <= Argument(m, a) <= m.pi
      && Grown(Direction(m, Argument(m, a)), m.root(Length2(a))) == a
  }

  ghost predicate Lawful(m: Math) {
    && m.pi > 3.0
    && Direction(m, 0.0) == Complex(1.0, 0.0) && Direction(m, m.pi) == Complex(-1.0, 0.0)
    && (forall s :: SquaresTo(m, s))
    && (forall x, y :: Adds(m, x, y))
    && (forall x :: OnCircle(m, x))
    && (forall x :: OnceAround(m, x))
    && (forall a :: Polar(m, a))
  }

  // ---- wrapping -----------------------------------------------------------------------------

  /** `k` whole turns. */
  function Whole(pi: real, k: int): (a: real) {
    k as real * (2.0 * pi)
  }

  /** The two angles differ by `k` whole turns. */
  predicate Apart(pi: real, k: int, x: real, y: real) {
    x == y + Whole(pi, k)
  }

  ghost predicate Congruent(pi: real, x: real, y: real) {
    exists k: int :: Apart(pi, k, x, y)
  }

  lemma WholeSum(pi: real, j: int, k: int)
    ensures Whole(pi, j + k) == Whole(pi, j) + Whole(pi, k)
    ensures Whole(pi, -k) == -Whole(pi, k) && Whole(pi, 0) == 0.0 && Whole(pi, 1) == 2.0 * pi
  {
    var t, x, y := 2.0 * pi, j as real, k as real;
    assert (x + y) * t == x * t + y * t;
    assert (0.0 - y) * t == 0.0 - y * t;
    assert (j + k) as real == x + y && (-k) as real == 0.0 - y;
  }

  lemma Scaled(x: real, y: real, t: real)
    requires t > 0.0
    ensures x <= y ==> x * t <= y * t
    ensures x < y ==> x * t < y * t
  {
    assert y * t - x * t == (y - x) * t;
  }

  lemma WholeGrows(pi: real, j: int, k: int)
    requires pi > 0.0
    ensures j <= k ==> Whole(pi, j) <= Whole(pi, k)
    ensures j < k ==> Whole(pi, j) + 2.0 * pi <= Whole(pi, k)
  {
    hide Whole;
    if j <= k {
      WholePositive(pi, k - j);
      WholeSum(pi, j, k - j);
    }
  }

  lemma {:induction false} WholePositive(pi: real, n: nat)
    requires pi > 0.0
    ensures Whole(pi, n) >= 0.0 && (n >= 1 ==> Whole(pi, n) >= 2.0 * pi)
    decreases n
  {
    hide Whole;
    WholeSum(pi, n - 1, 1);
    if n > 0 {
      WholePositive(pi, n - 1);
    }
  }

  /** How many turns the loops take off. */
  function Turns(pi: real, a: real): (n: int)
    requires pi > 0.0
  {
    if a > pi then -((pi - a) / (2.0 * pi)).Floor
    else if a < -pi then ((a + pi) / (2.0 * pi)).Floor
    else 0
  }

  function Wrap(pi: real, a: real): (r: real)
    requires pi > 0.0
  {
    a - Whole(pi, Turns(pi, a))
  }

  lemma QuotientBounds(pi: real, x: real)
    requires pi > 0.0
    ensures var k := (x / (2.0 * pi)).Floor; Whole(pi, k) <= x < Whole(pi, k) + 2.0 * pi
  {
    var t := 2.0 * pi;
    var q := x / t;
    var f := q.Floor as real;
    assert f <= q < f + 1.0;
    assert x == q * t;
    Scaled(f, q, t);
    Scaled(q, f + 1.0, t);
    var upper := (f + 1.0) * t;
    assert x < upper;
    assert upper == f * t + t;
  }

  /** A wrapped angle lies within half a turn of zero; both ends are kept as they are. */
  lemma WrapRange(pi: real, a: real)
    requires pi > 0.0
    ensures -pi <= Wrap(pi, a) <= pi
    ensures -pi <= a <= pi ==> Wrap(pi, a) == a
    ensures a > pi ==> Wrap(pi, a) > -pi
    ensures a < -pi ==> Wrap(pi, a) < pi
    ensures Congruent(pi, Wrap(pi, a), a)
  {
    hide Whole;
    QuotientBounds(pi, pi - a);
    QuotientBounds(pi, a + pi);
    WholeSum(pi, 0, Turns(pi, a));
    assert Apart(pi, -Turns(pi, a), Wrap(pi, a), a);
  }

  /** Nothing else is congruent and in range, except that half a turn has two names. */
  lemma WrapUnique(pi: real, a: real, b: real)
    requires pi > 0.0 && -pi <= b <= pi && Congruent(pi, b, a)
    ensures Wrap(pi, a) == b || (Wrap(pi, a) == -b && (b == pi || b == -pi))
    ensures a > pi && b > -pi ==> Wrap(pi, a) == b
    ensures a < -pi && b < pi ==> Wrap(pi, a) == b
  {
    hide Whole, Turns;
    WrapRange(pi, a);
    var k: int :| Apart(pi, k, b, a);
    var n := k + Turns(pi, a);
    WholeSum(pi, k, Turns(pi, a));
    WholeSum(pi, 0, 0);
    WholeSum(pi, 1, 1);
    WholeSum(pi, 1, -1);
    WholeSum(pi, -1, -1);
    WholeGrows(pi, n, -2);
    WholeGrows(pi, 2, n);
    assert b - Wrap(pi, a) == Whole(pi, n);
    assert Whole(pi, 2) == 4.0 * pi && Whole(pi, -2) == -4.0 * pi;
    assert n in [-1, 0, 1] || n <= -2 || n >= 2;
  }

  /** The two loops of `wrap_pi`. */
  method WrapPi(pi: real, rad: real) returns (a: real)
    requires pi > 0.0
    ensures a == Wrap(pi, rad)
  {
    hide Whole, Turns;
    a := rad;
    ghost var k := 0;
    WrapRange(pi, rad);
    WholeSum(pi, 0, 0);
    if rad > pi {
      StillAbove(pi, rad, 0);
    } else if rad < -pi {
      StillBelow(pi, rad, 0);
    }
    while a > pi
      invariant Apart(pi, -k, a, rad) && k >= 0
      invariant k > 0 ==> rad > pi && a > -pi
      invariant rad > pi ==> k <= Turns(pi, rad)
      decreases Turns(pi, rad) - k
    {
      WholeSum(pi, 0, k);
      StillAbove(pi, rad, k);
      WholeSum(pi, -k, -1);
      WholeSum(pi, 0, 1);
      a := a - 2.0 * pi;
      k := k + 1;
    }
    ghost var j := 0;
    assert rad > pi || k == 0;
    while a < -pi
      invariant Apart(pi, j - k, a, rad) && j >= 0
      invariant k > 0 ==> j == 0 && -pi < a
      invariant j > 0 ==> rad < -pi
      invariant a <= pi && (j > 0 ==> a < pi)
      invariant rad < -pi ==> j <= -Turns(pi, rad)
      decreases -Turns(pi, rad) - j
    {
      StillBelow(pi, rad, j);
      WholeSum(pi, j - k, 1);
      a := a + 2.0 * pi;
      j := j + 1;
    }
    assert Congruent(pi, a, rad);
    WrapUnique(pi, rad, a);
  }

  /** As long as the angle is too large, not all turns are off. */
  lemma StillAbove(pi: real, a: real, k: nat)
    requires pi > 0.0 && a > pi
    ensures a - Whole(pi, k) > pi ==> k < Turns(pi, a)
  {
    hide Whole;
    WrapRange(pi, a);
    WholeGrows(pi, Turns(pi, a), k);
  }

  lemma StillBelow(pi: real, a: real, j: nat)
    requires pi > 0.0 && a < -pi
    ensures a + Whole(pi, j) < -pi ==> j < -Turns(pi, a)
  {
    hide Whole;
    WrapRange(pi, a);
    WholeGrows(pi, -Turns(pi, a), j);
    WholeSum(pi, 0, Turns(pi, a));
  }

  // ---- congruence ---------------------------------------------------------------------------

  lemma CongruentSelf(pi: real, x: real)
    ensures Congruent(pi, x, x)
  {
    WholeSum(pi, 0, 0);
    assert Apart(pi, 0, x, x);
  }

  lemma CongruentBack(pi: real, x: real, y: real)
    requires Congruent(pi, x, y)
    ensures Congruent(pi, y, x)
  {
    hide Whole;
    var k: int :| Apart(pi, k, x, y);
    WholeSum(pi, 0, k);
    assert Apart(pi, -k, y, x);
  }

  /** Congruent angles may be added, subtracted and chained. */
  lemma CongruentSum(pi: real, x: real, y: real, u: real, v: real)
    requires Congruent(pi, x, y) && Congruent(pi, u, v)
    ensures Congruent(pi, x + u, y + v) && Congruent(pi, x - u, y - v)
  {
    hide Whole;
    var k: int :| Apart(pi, k, x, y);
    var j: int :| Apart(pi, j, u, v);
    WholeSum(pi, k, j);
    WholeSum(pi, k, -j);
    WholeSum(pi, 0, j);
    assert Apart(pi, k + j, x + u, y + v);
    assert Apart(pi, k - j, x - u, y - v);
  }

  lemma CongruentChain(pi: real, x: real, y: real, z: real)
    requires Congruent(pi, x, y) && Congruent(pi, y, z)
    ensures Congruent(pi, x, z)
  {
    hide Whole;
    var k: int :| Apart(pi, k, x, y);
    var j: int :| Apart(pi, j, y, z);
    WholeSum(pi, k, j);
    assert Apart(pi, k + j, x, z);
  }

  lemma CongruentAlike(pi: real, x: real, y: real, z: real)
    requires Congruent(pi, x, y)
    ensures Congruent(pi, x, z) <==> Congruent(pi, y, z)
    ensures Congruent(pi, z, x) <==> Congruent(pi, x, z)
  {
    hide Apart;
    CongruentBack(pi, x, y);
    if Congruent(pi, x, z) { CongruentChain(pi, y, x, z); CongruentBack(pi, x, z); }
    if Congruent(pi, y, z) { CongruentChain(pi, x, y, z); }
    if Congruent(pi, z, x) { CongruentBack(pi, z, x); }
  }

  function Abs(x: real): (r: real)
    ensures r >= 0.0 && (r == x || r == -x)
  {
    if x < 0.0 then -x else x
  }

  /** Congruent angles wrap to the same size, and to the same angle unless it is half a turn. */
  lemma WrapSame(pi: real, x: real, y: real)
    requires pi > 0.0 && Congruent(pi, x, y)
    ensures Abs(Wrap(pi, x)) == Abs(Wrap(pi, y))
    ensures Wrap(pi, x) == Wrap(pi, y) || Abs(Wrap(pi, x)) == pi
  {
    WrapRange(pi, x);
    WrapRange(pi, y);
    CongruentChain(pi, Wrap(pi, x), x, y);
    WrapUnique(pi, y, Wrap(pi, x));
  }

  // ---- complex numbers ------------------------------------------------------------------------

  lemma LengthTimes(a: Complex, b: Complex)
    ensures Length2(Times(a, b)) == Product(Length2(a), Length2(b))
  {
  }

  /** The law of cosines. */
  lemma LengthSum(a: Complex, b: Complex)
    ensures Length2(Sum(a, b)) == Length2(a) + Length2(b) + 2.0 * Times(Mirrored(a), b).re
    ensures Length2(Minus(a)) == Length2(a) && Length2(Mirrored(a)) == Length2(a)
  {
  }

  lemma GrownTimes(a: Complex, j: real, b: Complex, k: real)
    ensures Times(Grown(a, j), Grown(b, k)) == Grown(Times(a, b), j * k)
  {
  }

  lemma GrownSquare(a: Complex, r: real, n: real)
    requires r * r == n
    ensures Square(Grown(a, r)) == Grown(Square(a), n)
  {
    GrownTimes(a, r, a, r);
  }

  lemma SquareTimes(a: Complex, b: Complex)
    ensures Square(Times(a, b)) == Times(Square(a), Square(b))
  {
    hide Times;
    TimesSwap(a, b, a, b);
  }

  lemma GrownSame(a: Complex, b: Complex, k: real)
    requires k != 0.0 && Grown(a, k) == Grown(b, k)
    ensures a == b
  {
    assert (a.re - b.re) * k == 0.0 && (a.im - b.im) * k == 0.0;
  }

  lemma TimesCommutes(a: Complex, b: Complex)
    ensures Times(a, b) == Times(b, a)
  {
  }

  lemma TimesAssociative(a: Complex, b: Complex, c: Complex)
    ensures Times(Times(a, b), c) == Times(a, Times(b, c))
  {
  }

  /** The middle factors of a product of two products change places. */
  lemma TimesSwap(a: Complex, b: Complex, c: Complex, d: Complex)
    ensures Times(Times(a, b), Times(c, d)) == Times(Times(a, c), Times(b, d))
  {
    hide Times;
    TimesAssociative(a, b, Times(c, d));
    TimesAssociative(b, c, d);
    TimesCommutes(b, c);
    TimesAssociative(c, b, d);
    TimesAssociative(a, c, Times(b, d));
  }

  lemma MirroredTimes(a: Complex, b: Complex)
    ensures Mirrored(Times(a, b)) == Times(Mirrored(a), Mirrored(b))
    ensures Times(Mirrored(a), a) == Complex(Length2(a), 0.0)
  {
  }

  const NOUGHT := Complex(0.0, 0.0)

  function Sum(a: Complex, b: Complex): (c: Complex) {
    Complex(a.re + b.re, a.im + b.im)
  }

  function Minus(a: Complex): (c: Complex) {
    Complex(-a.re, -a.im)
  }

  lemma NoughtFacts(a: Complex)
    ensures Times(a, NOUGHT) == NOUGHT && Times(NOUGHT, a) == NOUGHT
    ensures Sum(a, NOUGHT) == a && Sum(NOUGHT, a) == a && Minus(NOUGHT) == NOUGHT
    ensures Mirrored(NOUGHT) == NOUGHT
  {
  }

  lemma MinusFacts(a: Complex, b: Complex)
    ensures Times(Minus(a), b) == Minus(Times(a, b)) && Times(a, Minus(b)) == Minus(Times(a, b))
    ensures Mirrored(Minus(a)) == Minus(Mirrored(a)) && Minus(Minus(a)) == a && Mirrored(Mirrored(a)) == a
    ensures Sum(a, Minus(a)) == NOUGHT && Sum(Minus(a), a) == NOUGHT
  {
  }

  lemma Distributes(a: Complex, b: Complex, c: Complex)
    ensures Times(Sum(a, b), c) == Sum(Times(a, c), Times(b, c))
    ensures Mirrored(Sum(a, b)) == Sum(Mirrored(a), Mirrored(b))
  {
  }

  lemma GrownSum(a: Complex, b: Complex, j: real, k: real)
    ensures Sum(Grown(a, j), Grown(a, k)) == Grown(a, j + k)
    ensures Sum(Grown(a, k), Grown(b, k)) == Grown(Sum(a, b), k)
  {
  }

  lemma TimesReal(a: Complex, k: real)
    ensures Times(Complex(k, 0.0), a) == Grown(a, k)
  {
  }

  lemma TimesMirrored(t: Complex, a: Complex, b: Complex)
    requires Length2(t) == 1.0
    ensures Times(Mirrored(Times(t, a)), Times(t, b)) == Times(Mirrored(a), b)
  {
    hide Times, Mirrored, Length2;
    MirroredTimes(t, a);
    TimesSwap(Mirrored(t), Mirrored(a), t, b);
    TimesReal(Times(Mirrored(a), b), 1.0);
    GrownOne(Times(Mirrored(a), b));
  }

  lemma GrownOne(a: Complex)
    ensures Grown(a, 1.0) == a
  {
  }

  function Product(x: real, y: real): (p: real) {
    x * y
  }

  lemma ProductSum(a: real, b: real, c: real, d: real)
    ensures Product(a + b, c + d) == Product(a, c) + Product(b, d) + Product(a, d) + Product(b, c)
    ensures Product(1.0, c) == c
  {
  }

  lemma ProductNegates(x: real, y: real)
    ensures Product(x, -y) == -Product(x, y) && Product(-x, y) == -Product(x, y)
  {
  }

  lemma TimesProducts(a: Complex, b: Complex)
    ensures Times(a, b).re == Product(a.re, b.re) - Product(a.im, b.im)
    ensures Times(a, b).im == Product(a.re, b.im) + Product(a.im, b.re)
  {
  }

  lemma ProductSign(x: real, y: real)
    ensures x > 0.0 && y > 0.0 ==> Product(x, y) > 0.0
    ensures x < 0.0 && y < 0.0 ==> Product(x, y) > 0.0
    ensures x == 0.0 ==> Product(x, y) == 0.0
  {
  }

  lemma NonZero(z: Complex)
    ensures Length2(z) >= 0.0 && (Length2(z) == 0.0 <==> z == Complex(0.0, 0.0))
  {
    assert Length2(z) == Product(z.re, z.re) + Product(z.im, z.im);
    hide Product, Length2;
    ProductSign(z.re, z.re);
    ProductSign(z.im, z.im);
  }

  // ---- directions -----------------------------------------------------------------------------

  lemma LawsAt(m: Math, x: real, y: real)
    requires Lawful(m)
    ensures m.pi > 3.0 && OnceAround(m, x)
    ensures Direction(m, x + y) == Times(Direction(m, x), Direction(m, y))
    ensures Length2(Direction(m, x)) == 1.0 && Length2(Direction(m, y)) == 1.0
    ensures Direction(m, 0.0) == Complex(1.0, 0.0)
  {
    hide Times, Length2, Direction;
    assert Adds(m, x, y) && OnCircle(m, x) && OnCircle(m, y) && OnceAround(m, x);
  }

  lemma PiAt(m: Math)
    requires Lawful(m)
    ensures m.pi > 3.0
  {
  }

  lemma RootAt(m: Math, s: real)
    requires Lawful(m) && s >= 0.0
    ensures m.root(s) >= 0.0 && m.root(s) * m.root(s) == s
    ensures s > 0.0 ==> m.root(s) > 0.0
  {
    assert SquaresTo(m, s);
  }

  lemma PolarAt(m: Math, a: Complex)
    requires Lawful(m) && a != Complex(0.0, 0.0)
    ensures -m.pi <= Argument(m, a) <= m.pi
    ensures Grown(Direction(m, Argument(m, a)), m.root(Length2(a))) == a
  {
    assert Polar(m, a);
  }

  lemma HalfTurns(m: Math)
    requires Lawful(m)
    ensures Direction(m, m.pi + m.pi) == Complex(1.0, 0.0)
  {
    hide Times;
    assert Adds(m, m.pi, m.pi);
    MinusOneSquared(Direction(m, m.pi));
  }

  lemma MinusOneSquared(d: Complex)
    requires d.re == -1.0 && d.im == 0.0
    ensures Times(d, d) == Complex(1.0, 0.0)
  {
  }

  lemma OneTurn(m: Math, x: real)
    requires Lawful(m)
    ensures Direction(m, x + 2.0 * m.pi) == Direction(m, x)
  {
    hide Lawful;
    HalfTurns(m);
    LawsAt(m, x, m.pi + m.pi);
    assert x + (m.pi + m.pi) == x + 2.0 * m.pi;
  }

  lemma {:induction false} WholeTurns(m: Math, k: int, x: real)
    requires Lawful(m)
    ensures Direction(m, x + Whole(m.pi, k)) == Direction(m, x)
    decreases if k < 0 then -k else k
  {
    hide Lawful, Whole, Direction;
    WholeSum(m.pi, k, -1);
    WholeSum(m.pi, k, 1);
    WholeSum(m.pi, 0, 1);
    if k > 0 {
      WholeTurns(m, k - 1, x);
      OneTurn(m, x + Whole(m.pi, k - 1));
      assert x + Whole(m.pi, k) == x + Whole(m.pi, k - 1) + 2.0 * m.pi;
    } else if k < 0 {
      WholeTurns(m, k + 1, x);
      OneTurn(m, x + Whole(m.pi, k));
      assert x + Whole(m.pi, k + 1) == x + Whole(m.pi, k) + 2.0 * m.pi;
    } else {
      assert x + Whole(m.pi, k) == x;
    }
  }

  lemma NoTurn(m: Math, d: real)
    requires Lawful(m) && Direction(m, d) == Complex(1.0, 0.0)
    ensures Congruent(m.pi, d, 0.0)
  {
    hide Lawful, Whole, Turns, Times, Length2;
    LawsAt(m, d, 0.0);
    var n := Turns(m.pi, d);
    WrapRange(m.pi, d);
    WholeTurns(m, -n, d);
    WholeSum(m.pi, 0, n);
    assert Wrap(m.pi, d) == d + Whole(m.pi, -n);
    LawsAt(m, Wrap(m.pi, d), 0.0);
    assert Apart(m.pi, n, d, 0.0);
  }

  /** Angles have the same direction exactly when they are congruent. */
  lemma SameDirection(m: Math, x: real, y: real)
    requires Lawful(m)
    ensures Congruent(m.pi, x, y) <==> Direction(m, x) == Direction(m, y)
  {
    hide Lawful, Whole, Turns, Direction, Times;
    if Congruent(m.pi, x, y) {
      var k: int :| Apart(m.pi, k, x, y);
      WholeTurns(m, k, y);
    }
    if Direction(m, x) == Direction(m, y) {
      LawsAt(m, x - y, y);
      assert x - y + y == x;
      OneFactor(Direction(m, x - y), Direction(m, y));
      NoTurn(m, x - y);
      var k: int :| Apart(m.pi, k, x - y, 0.0);
      assert Apart(m.pi, k, x, y);
    }
  }

  lemma OneFactor(a: Complex, b: Complex)
    requires Length2(b) == 1.0 && Times(a, b) == b
    ensures a == Complex(1.0, 0.0)
  {
    calc {
      a.re;
      a.re * Length2(b);
      (a.re * b.re - a.im * b.im) * b.re + (a.re * b.im + a.im * b.re) * b.im;
      1.0;
    }
    calc {
      a.im;
      a.im * Length2(b);
      (a.re * b.im + a.im * b.re) * b.re - (a.re * b.re - a.im * b.im) * b.im;
      0.0;
    }
  }
}
