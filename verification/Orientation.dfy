/** host/libheadtracker/src/orientation.cpp: quaternion algebra, the twist heading, body-frame
    gravity, and the Recenterer's two-sided reference frame. Floats are reals; a pose whose
    heading is undefined falls back to the identity heading exactly where the code does. */
module Orientation {
  import opened Angles

  datatype Quat = Quat(w: real, x: real, y: real, z: real)

  datatype Vec3 = Vec3(x: real, y: real, z: real)

  const IDENTITY := Quat(1.0, 0.0, 0.0, 0.0)
  const DOWN := Quat(0.0, 0.0, 0.0, -1.0)
  const TINY := 0.000000000001

  function Multiply(a: Quat, b: Quat): (q: Quat) {
    Quat(a.w * b.w - a.x * b.x - a.y * b.y - a.z * b.z,
         a.w * b.x + a.x * b.w + a.y * b.z - a.z * b.y,
         a.w * b.y - a.x * b.z + a.y * b.w + a.z * b.x,
         a.w * b.z + a.x * b.y - a.y * b.x + a.z * b.w)
  }

  function Conjugate(q: Quat): (c: Quat) {
    Quat(q.w, -q.x, -q.y, -q.z)
  }

  function Norm2(q: Quat): (n: real) {
    q.w * q.w + q.x * q.x + q.y * q.y + q.z * q.z
  }

  /** The rotation's twist about the world's vertical; the heading is undefined where it vanishes. */
  function Twist(q: Quat): (t: Complex) {
    Complex(q.w, q.z)
  }

  function Swing(q: Quat): (s: Complex) {
    Complex(q.x, q.y)
  }

  function Twist2(q: Quat): (n: real) {
    Length2(Twist(q))
  }

  function Scale(q: Quat, k: real): (r: Quat) {
    Quat(q.w * k, q.x * k, q.y * k, q.z * k)
  }

  function Inverse(m: Math, n2: real): (k: real) {
    if m.root(n2) == 0.0 then 0.0 else 1.0 / m.root(n2)
  }

  function Normalized(m: Math, q: Quat): (r: Quat) {
    if Norm2(q) > TINY then Scale(q, Inverse(m, Norm2(q))) else IDENTITY
  }

  function Heading(m: Math, q: Quat): (h: Quat) {
    if Twist2(q) > TINY then
      Quat(q.w * Inverse(m, Twist2(q)), 0.0, 0.0, q.z * Inverse(m, Twist2(q)))
    else IDENTITY
  }

  function HeadingAngle(m: Math, q: Quat): (rad: real)
    requires m.pi > 0.0
  {
    if Twist2(q) > TINY then Wrap(m.pi, 2.0 * Argument(m, Twist(q))) else 0.0
  }

  function YawQuat(m: Math, rad: real): (q: Quat) {
    Quat(m.cos(rad * 0.5), 0.0, 0.0, m.sin(rad * 0.5))
  }

  function GravityBody(q: Quat): (g: Vec3) {
    Vec3(-(2.0 * (q.x * q.z - q.w * q.y)),
         -(2.0 * (q.y * q.z + q.w * q.x)),
         -(1.0 - 2.0 * (q.x * q.x + q.y * q.y)))
  }

  function Size2(g: Vec3): (n: real) {
    g.x * g.x + g.y * g.y + g.z * g.z
  }

  function Stretched(g: Vec3, k: real): (v: Vec3) {
    Vec3(g.x * k, g.y * k, g.z * k)
  }

  /** The half-angle construction before normalization: 1 + u·down and u × down. */
  function HalfWay(u: Vec3): (q: Quat) {
    Quat(1.0 - u.z, -u.y, u.x, 0.0)
  }

  function ShortestArcToDown(m: Math, g: Vec3): (q: Quat) {
    if Size2(g) <= TINY then IDENTITY
    else
      var u := Stretched(g, Inverse(m, Size2(g)));
      if 1.0 - u.z < 0.000001 then Quat(0.0, 1.0, 0.0, 0.0) else Normalized(m, HalfWay(u))
  }

  predicate Unit(q: Quat) {
    Norm2(q) == 1.0
  }

  /** A rotation about the world's vertical axis. */
  predicate PureYaw(q: Quat) {
    q.x == 0.0 && q.y == 0.0 && Unit(q)
  }

  // ---- algebra --------------------------------------------------------------------------------

  lemma MultiplyProducts(a: Quat, b: Quat)
    ensures Multiply(a, b).w ==
            Product(a.w, b.w) - Product(a.x, b.x) - Product(a.y, b.y) - Product(a.z, b.z)
    ensures Multiply(a, b).x ==
            Product(a.w, b.x) + Product(a.x, b.w) + Product(a.y, b.z) - Product(a.z, b.y)
    ensures Multiply(a, b).y ==
            Product(a.w, b.y) - Product(a.x, b.z) + Product(a.y, b.w) + Product(a.z, b.x)
    ensures Multiply(a, b).z ==
            Product(a.w, b.z) + Product(a.x, b.y) - Product(a.y, b.x) + Product(a.z, b.w)
  {
  }

  /** The product, in terms of twist and swing. */
  lemma TwistOfProduct(a: Quat, b: Quat)
    ensures Twist(Multiply(a, b)) ==
            Sum(Times(Twist(a), Twist(b)), Minus(Times(Swing(a), Mirrored(Swing(b)))))
  {
    hide Multiply, Times, Product;
    MultiplyProducts(a, b);
    TimesProducts(Twist(a), Twist(b));
    TimesProducts(Swing(a), Mirrored(Swing(b)));
    ProductNegates(a.x, b.y);
    ProductNegates(a.y, b.y);
  }

  lemma SwingOfProduct(a: Quat, b: Quat)
    ensures Swing(Multiply(a, b)) == Sum(Times(Twist(a), Swing(b)), Times(Swing(a), Mirrored(Twist(b))))
  {
    hide Multiply, Times, Product;
    MultiplyProducts(a, b);
    TimesProducts(Twist(a), Swing(b));
    TimesProducts(Swing(a), Mirrored(Twist(b)));
    ProductNegates(a.x, b.z);
    ProductNegates(a.y, b.z);
  }

  lemma Parts(q: Quat)
    ensures q == Quat(Twist(q).re, Swing(q).re, Swing(q).im, Twist(q).im)
    ensures Norm2(q) == Length2(Twist(q)) + Length2(Swing(q))
    ensures Twist(Conjugate(q)) == Mirrored(Twist(q)) && Swing(Conjugate(q)) == Minus(Swing(q))
  {
  }

  /** Lengths multiply: Euler's four-square identity. */
  lemma NormMultiplies(a: Quat, b: Quat)
    ensures Norm2(Multiply(a, b)) == Product(Norm2(a), Norm2(b))
  {
    hide Multiply, Norm2, Times, Twist, Swing, Mirrored, Sum, Length2, Product;
    var t, s, u, v := Twist(a), Swing(a), Twist(b), Swing(b);
    Parts(a);
    Parts(b);
    Parts(Multiply(a, b));
    TwistOfProduct(a, b);
    SwingOfProduct(a, b);
    CrossTermsCancel(t, s, u, v);
    LengthSum(Times(t, u), Minus(Times(s, Mirrored(v))));
    LengthSum(Times(t, v), Times(s, Mirrored(u)));
    LengthSum(Times(s, Mirrored(v)), v);
    LengthSum(u, v);
    LengthSum(v, u);
    LengthTimes(t, u);
    LengthTimes(s, Mirrored(v));
    LengthTimes(t, v);
    LengthTimes(s, Mirrored(u));
    ProductSum(Length2(t), Length2(s), Length2(u), Length2(v));
  }

  lemma CrossTermsCancel(t: Complex, s: Complex, u: Complex, v: Complex)
    ensures Times(Mirrored(Times(t, u)), Minus(Times(s, Mirrored(v)))) ==
            Minus(Times(Mirrored(Times(t, v)), Times(s, Mirrored(u))))
  {
    hide Times, Mirrored, Minus;
    MirroredTimes(t, u);
    MirroredTimes(t, v);
    MinusFacts(Mirrored(Times(t, u)), Times(s, Mirrored(v)));
    TimesSwap(Mirrored(t), Mirrored(u), s, Mirrored(v));
    TimesSwap(Mirrored(t), Mirrored(v), s, Mirrored(u));
    TimesCommutes(Mirrored(u), Mirrored(v));
  }

  lemma AssociativeTwist(a: Quat, b: Quat, c: Quat)
    ensures Twist(Multiply(Multiply(a, b), c)) == Twist(Multiply(a, Multiply(b, c)))
  {
    hide Multiply, Times, Mirrored, Twist, Swing;
    var t1, s1, t2, s2, t3, s3 := Twist(a), Swing(a), Twist(b), Swing(b), Twist(c), Swing(c);
    TwistOfProduct(a, b);
    SwingOfProduct(a, b);
    TwistOfProduct(b, c);
    SwingOfProduct(b, c);
    TwistOfProduct(Multiply(a, b), c);
    TwistOfProduct(a, Multiply(b, c));
    Distributes(Times(t1, t2), Minus(Times(s1, Mirrored(s2))), t3);
    Distributes(Times(t1, s2), Times(s1, Mirrored(t2)), Mirrored(s3));
    Distributes(Times(t2, t3), Minus(Times(s2, Mirrored(s3))), t1);
    Distributes(Times(t2, s3), Times(s2, Mirrored(t3)), s1);
    Distributes(Mirrored(Times(t2, s3)), Mirrored(Times(s2, Mirrored(t3))), s1);
    FourTerms(t1, s1, t2, s2, t3, s3);
    TimesCommutes(t1, Sum(Times(t2, t3), Minus(Times(s2, Mirrored(s3)))));
    TimesCommutes(s1, Sum(Mirrored(Times(t2, s3)), Mirrored(Times(s2, Mirrored(t3)))));
  }

  lemma FourTerms(t1: Complex, s1: Complex, t2: Complex, s2: Complex, t3: Complex, s3: Complex)
    ensures Times(Times(t1, t2), t3) == Times(Times(t2, t3), t1)
    ensures Times(Minus(Times(s1, Mirrored(s2))), t3) == Minus(Times(Mirrored(Times(s2, Mirrored(t3))), s1))
    ensures Times(Times(t1, s2), Mirrored(s3)) == Minus(Times(Minus(Times(s2, Mirrored(s3))), t1))
    ensures Times(Times(s1, Mirrored(t2)), Mirrored(s3)) == Times(Mirrored(Times(t2, s3)), s1)
  {
    hide Times, Mirrored, Minus;
    TimesAssociative(t1, t2, t3);
    TimesCommutes(t1, Times(t2, t3));
    MirroredTimes(s2, Mirrored(t3));
    MinusFacts(t3, t3);
    MinusFacts(Times(s1, Mirrored(s2)), t3);
    TimesAssociative(s1, Mirrored(s2), t3);
    TimesCommutes(s1, Times(Mirrored(s2), t3));
    TimesAssociative(t1, s2, Mirrored(s3));
    TimesCommutes(t1, Times(s2, Mirrored(s3)));
    MinusFacts(Times(s2, Mirrored(s3)), t1);
    MinusFacts(Times(Times(s2, Mirrored(s3)), t1), t1);
    MirroredTimes(t2, s3);
    TimesAssociative(s1, Mirrored(t2), Mirrored(s3));
    TimesCommutes(s1, Times(Mirrored(t2), Mirrored(s3)));
  }

  lemma AssociativeSwing(a: Quat, b: Quat, c: Quat)
    ensures Swing(Multiply(Multiply(a, b), c)) == Swing(Multiply(a, Multiply(b, c)))
  {
    hide Multiply, Times, Mirrored, Twist, Swing;
    var t1, s1, t2, s2, t3, s3 := Twist(a), Swing(a), Twist(b), Swing(b), Twist(c), Swing(c);
    TwistOfProduct(a, b);
    SwingOfProduct(a, b);
    TwistOfProduct(b, c);
    SwingOfProduct(b, c);
    SwingOfProduct(Multiply(a, b), c);
    SwingOfProduct(a, Multiply(b, c));
    Distributes(Times(t1, t2), Minus(Times(s1, Mirrored(s2))), s3);
    Distributes(Times(t1, s2), Times(s1, Mirrored(t2)), Mirrored(t3));
    Distributes(Times(t2, s3), Times(s2, Mirrored(t3)), t1);
    Distributes(Times(t2, t3), Minus(Times(s2, Mirrored(s3))), s1);
    Distributes(Mirrored(Times(t2, t3)), Mirrored(Minus(Times(s2, Mirrored(s3)))), s1);
    FourMore(t1, s1, t2, s2, t3, s3);
    TimesCommutes(t1, Sum(Times(t2, s3), Times(s2, Mirrored(t3))));
    TimesCommutes(s1, Sum(Mirrored(Times(t2, t3)), Mirrored(Minus(Times(s2, Mirrored(s3))))));
  }

  lemma FourMore(t1: Complex, s1: Complex, t2: Complex, s2: Complex, t3: Complex, s3: Complex)
    ensures Times(Times(t1, t2), s3) == Times(Times(t2, s3), t1)
    ensures Times(Minus(Times(s1, Mirrored(s2))), s3) == Times(Mirrored(Minus(Times(s2, Mirrored(s3)))), s1)
    ensures Times(Times(t1, s2), Mirrored(t3)) == Times(Times(s2, Mirrored(t3)), t1)
    ensures Times(Times(s1, Mirrored(t2)), Mirrored(t3)) == Times(Mirrored(Times(t2, t3)), s1)
  {
    hide Times, Mirrored, Minus;
    TimesAssociative(t1, t2, s3);
    TimesCommutes(t1, Times(t2, s3));
    MirroredTimes(s2, Mirrored(s3));
    MinusFacts(s3, s3);
    MinusFacts(Times(s1, Mirrored(s2)), s3);
    MinusFacts(Times(s2, Mirrored(s3)), s1);
    MinusFacts(Times(Mirrored(s2), s3), s1);
    TimesAssociative(s1, Mirrored(s2), s3);
    TimesCommutes(s1, Times(Mirrored(s2), s3));
    TimesAssociative(t1, s2, Mirrored(t3));
    TimesCommutes(t1, Times(s2, Mirrored(t3)));
    MirroredTimes(t2, t3);
    TimesAssociative(s1, Mirrored(t2), Mirrored(t3));
    TimesCommutes(s1, Times(Mirrored(t2), Mirrored(t3)));
  }

  lemma Associative(a: Quat, b: Quat, c: Quat)
    ensures Multiply(Multiply(a, b), c) == Multiply(a, Multiply(b, c))
  {
    hide Multiply, Twist, Swing;
    AssociativeTwist(a, b, c);
    AssociativeSwing(a, b, c);
    Parts(Multiply(Multiply(a, b), c));
    Parts(Multiply(a, Multiply(b, c)));
  }

  lemma ConjugateProduct(a: Quat, b: Quat)
    ensures Conjugate(Multiply(a, b)) == Multiply(Conjugate(b), Conjugate(a))
    ensures Conjugate(Conjugate(a)) == a && Norm2(Conjugate(a)) == Norm2(a)
  {
    ConjugateTwice(a);
    hide Multiply, Times, Mirrored, Twist, Swing, Conjugate, Minus, Norm2;
    var t, s, u, v := Twist(a), Swing(a), Twist(b), Swing(b);
    Parts(a);
    Parts(b);
    Parts(Multiply(a, b));
    Parts(Conjugate(Multiply(a, b)));
    Parts(Multiply(Conjugate(b), Conjugate(a)));
    TwistOfProduct(a, b);
    SwingOfProduct(a, b);
    TwistOfProduct(Conjugate(b), Conjugate(a));
    SwingOfProduct(Conjugate(b), Conjugate(a));
    ConjugateParts(t, s, u, v);
  }

  lemma ConjugateTwice(a: Quat)
    ensures Conjugate(Conjugate(a)) == a && Norm2(Conjugate(a)) == Norm2(a)
  {
  }

  lemma ConjugateParts(t: Complex, s: Complex, u: Complex, v: Complex)
    ensures Mirrored(Sum(Times(t, u), Minus(Times(s, Mirrored(v))))) ==
            Sum(Times(Mirrored(u), Mirrored(t)), Minus(Times(Minus(v), Mirrored(Minus(s)))))
    ensures Minus(Sum(Times(t, v), Times(s, Mirrored(u)))) ==
            Sum(Times(Mirrored(u), Minus(s)), Times(Minus(v), Mirrored(Mirrored(t))))
  {
    hide Times, Mirrored;
    Distributes(Times(t, u), Minus(Times(s, Mirrored(v))), t);
    MirroredTimes(t, u);
    MirroredTimes(s, Mirrored(v));
    MinusFacts(Times(s, Mirrored(v)), t);
    MinusFacts(s, t);
    MinusFacts(v, Mirrored(Minus(s)));
    MinusFacts(v, Mirrored(s));
    MinusFacts(v, t);
    MinusFacts(t, Mirrored(s));
    MinusFacts(s, Mirrored(u));
    TimesCommutes(v, Minus(Mirrored(s)));
    TimesCommutes(v, Mirrored(s));
    TimesCommutes(Mirrored(u), Mirrored(t));
    TimesCommutes(Mirrored(u), Minus(s));
    TimesCommutes(t, v);
  }

  lemma MultiplyOne(q: Quat)
    ensures Multiply(IDENTITY, q) == q
  {
  }

  lemma ConjugateInverts(q: Quat)
    ensures Multiply(q, Conjugate(q)) == Quat(Norm2(q), 0.0, 0.0, 0.0)
    ensures Multiply(Conjugate(q), q) == Quat(Norm2(q), 0.0, 0.0, 0.0)
  {
  }

  lemma InverseAt(m: Math, s: real)
    requires Lawful(m) && s > 0.0
    ensures Inverse(m, s) > 0.0 && Inverse(m, s) * Inverse(m, s) * s == 1.0
    ensures Inverse(m, s) * m.root(s) == 1.0
    ensures s == 1.0 ==> Inverse(m, s) == 1.0
  {
    hide Lawful;
    RootAt(m, s);
    var r, k := m.root(s), Inverse(m, s);
    assert k * r == 1.0;
    assert k * k * (r * r) == (k * r) * (k * r);
    if s == 1.0 {
      assert r > 1.0 ==> r * r > 1.0 * r;
      assert r < 1.0 ==> r * r < 1.0 * r;
    }
  }

  lemma NormScales(q: Quat, k: real)
    ensures Norm2(Scale(q, k)) == k * k * Norm2(q) && Twist2(Scale(q, k)) == k * k * Twist2(q)
  {
  }

  /** Normalizing yields a unit quaternion and leaves a unit one alone. */
  lemma NormalizedUnit(m: Math, q: Quat)
    requires Lawful(m)
    ensures Unit(Normalized(m, q))
    ensures Unit(q) ==> Normalized(m, q) == q
  {
    hide Lawful, Inverse;
    if Norm2(q) > TINY {
      var k := Inverse(m, Norm2(q));
      InverseAt(m, Norm2(q));
      NormScales(q, k);
    }
  }

  /** Body-frame gravity is world-down carried into the body's coordinates. */
  lemma GravityIsDown(q: Quat)
    requires Unit(q)
    ensures var g := GravityBody(q);
      Multiply(Multiply(Conjugate(q), DOWN), q) == Quat(0.0, g.x, g.y, g.z)
  {
  }

  /** A yaw applied on the world's side turns twist and swing alike. */
  lemma YawTurns(y: Quat, q: Quat)
    requires PureYaw(y)
    ensures Length2(Twist(y)) == 1.0
    ensures Twist(Multiply(y, q)) == Times(Twist(y), Twist(q))
    ensures Swing(Multiply(y, q)) == Times(Twist(y), Swing(q))
  {
    assert Swing(y) == NOUGHT;
    hide Multiply, Times, Twist, Swing;
    TwistOfProduct(y, q);
    SwingOfProduct(y, q);
    NoughtFacts(Mirrored(Swing(q)));
    NoughtFacts(Mirrored(Twist(q)));
    NoughtFacts(Times(Twist(y), Twist(q)));
    NoughtFacts(Times(Twist(y), Swing(q)));
    YawLength(y);
  }

  lemma YawLength(y: Quat)
    requires PureYaw(y)
    ensures Length2(Twist(y)) == 1.0
  {
  }

  lemma YawKeeps(y: Quat, q: Quat)
    requires PureYaw(y)
    ensures Norm2(Multiply(y, q)) == Norm2(q) && Twist2(Multiply(y, q)) == Twist2(q)
    ensures Length2(Swing(Multiply(y, q))) == Length2(Swing(q))
  {
    hide Multiply, Times;
    YawTurns(y, q);
    LengthTimes(Twist(y), Twist(q));
    LengthTimes(Twist(y), Swing(q));
    NormSplits(q);
    NormSplits(Multiply(y, q));
  }

  lemma NormSplits(q: Quat)
    ensures Norm2(q) == Length2(Twist(q)) + Length2(Swing(q))
  {
  }

  lemma GravitySplits(q: Quat)
    ensures GravityBody(q) == Vec3(2.0 * Times(Mirrored(Twist(q)), Swing(q)).im,
                                   -2.0 * Times(Mirrored(Twist(q)), Swing(q)).re,
                                   -(1.0 - 2.0 * Length2(Swing(q))))
  {
  }

  /** Body-frame gravity does not see any yaw applied on the world's side. */
  lemma GravityYawBlind(y: Quat, q: Quat)
    requires PureYaw(y)
    ensures GravityBody(Multiply(y, q)) == GravityBody(q)
  {
    hide Multiply, Times, Length2, GravityBody;
    YawTurns(y, q);
    YawKeeps(y, q);
    TimesMirrored(Twist(y), Twist(q), Swing(q));
    GravitySplits(q);
    GravitySplits(Multiply(y, q));
  }

  lemma ScaleParts(q: Quat, k: real)
    ensures Twist(Scale(q, k)) == Grown(Twist(q), k) && Swing(Scale(q, k)) == Grown(Swing(q), k)
  {
  }

  lemma ScaleMultiply(a: Quat, b: Quat, j: real, k: real)
    ensures Multiply(Scale(a, j), Scale(b, k)) == Scale(Multiply(a, b), j * k)
  {
    hide Multiply, Times, Sum, Twist, Swing, Grown, Scale, Mirrored, Minus;
    var p, q := Multiply(Scale(a, j), Scale(b, k)), Multiply(a, b);
    ScaleParts(a, j);
    ScaleParts(b, k);
    ScaleParts(q, j * k);
    TwistOfProduct(Scale(a, j), Scale(b, k));
    SwingOfProduct(Scale(a, j), Scale(b, k));
    TwistOfProduct(a, b);
    SwingOfProduct(a, b);
    GrownTimes(Twist(a), j, Twist(b), k);
    GrownTimes(Swing(a), j, Mirrored(Swing(b)), k);
    GrownTimes(Twist(a), j, Swing(b), k);
    GrownTimes(Swing(a), j, Mirrored(Twist(b)), k);
    GrownSigns(Swing(b), k);
    GrownSigns(Twist(b), k);
    GrownSigns(Times(Swing(a), Mirrored(Swing(b))), j * k);
    GrownSum(Times(Twist(a), Twist(b)), Minus(Times(Swing(a), Mirrored(Swing(b)))), j * k, j * k);
    GrownSum(Times(Twist(a), Swing(b)), Times(Swing(a), Mirrored(Twist(b))), j * k, j * k);
    Parts(p);
    Parts(Scale(q, j * k));
  }

  lemma GrownSigns(a: Complex, k: real)
    ensures Mirrored(Grown(a, k)) == Grown(Mirrored(a), k) && Minus(Grown(a, k)) == Grown(Minus(a), k)
  {
  }

  lemma ScaleOne(q: Quat)
    ensures Scale(q, 1.0) == q
  {
  }

  /** Not even through normalization. */
  lemma NormalizedYawBlind(m: Math, y: Quat, q: Quat)
    requires PureYaw(y)
    ensures Norm2(q) > TINY ==> Normalized(m, Multiply(y, q)) == Multiply(y, Normalized(m, q))
    ensures GravityBody(Normalized(m, Multiply(y, q))) == GravityBody(Normalized(m, q))
  {
    hide Multiply, Norm2, GravityBody;
    YawKeeps(y, q);
    ScaleMultiply(y, q, 1.0, Inverse(m, Norm2(q)));
    ScaleOne(y);
    GravityYawBlind(y, Normalized(m, q));
  }

  // ---- the twist heading ----------------------------------------------------------------------

  /** The heading angle points along the squared twist, whatever the quaternion's sign. */
  lemma HeadingDirection(m: Math, q: Quat)
    requires Lawful(m) && Twist2(q) > TINY
    ensures -m.pi <= HeadingAngle(m, q) <= m.pi
    ensures Grown(Direction(m, HeadingAngle(m, q)), Twist2(q)) == Square(Twist(q))
  {
    hide Lawful, Times, Wrap, Direction, Grown;
    var t := Twist(q);
    var a := Argument(m, t);
    assert t != Complex(0.0, 0.0);
    LawsAt(m, a, a);
    RootAt(m, Twist2(q));
    PolarAt(m, t);
    GrownSquare(Direction(m, a), m.root(Twist2(q)), Twist2(q));
    assert a + a == 2.0 * a;
    WrapRange(m.pi, 2.0 * a);
    SameDirection(m, Wrap(m.pi, 2.0 * a), 2.0 * a);
  }

  /** Turning the world adds to the heading, modulo a turn. */
  lemma YawAdds(m: Math, y: Quat, q: Quat)
    requires Lawful(m) && PureYaw(y)
    ensures Twist2(Multiply(y, q)) == Twist2(q)
    ensures Twist2(q) > TINY ==>
              Congruent(m.pi, HeadingAngle(m, Multiply(y, q)), HeadingAngle(m, y) + HeadingAngle(m, q))
  {
    hide Lawful, HeadingAngle, Times, Multiply, Direction, Grown, Square;
    PiAt(m);
    YawKeeps(y, q);
    if Twist2(q) > TINY {
      var p := Multiply(y, q);
      var a, b, c := HeadingAngle(m, y), HeadingAngle(m, q), HeadingAngle(m, p);
      HeadingDirection(m, y);
      HeadingDirection(m, q);
      HeadingDirection(m, p);
      YawTurns(y, q);
      SquareTimes(Twist(y), Twist(q));
      GrownTimes(Direction(m, a), 1.0, Direction(m, b), Twist2(q));
      LawsAt(m, a, b);
      GrownSame(Direction(m, c), Direction(m, a + b), Twist2(q));
      SameDirection(m, c, a + b);
    }
  }

  /** A yaw quaternion made from an angle has that angle as its heading. */
  lemma YawQuatAngle(m: Math, rad: real)
    requires Lawful(m)
    ensures PureYaw(YawQuat(m, rad))
    ensures Congruent(m.pi, HeadingAngle(m, YawQuat(m, rad)), rad)
  {
    hide Lawful, HeadingAngle, Times, Grown, Length2, Norm2, Direction;
    PiAt(m);
    var q := YawQuat(m, rad);
    YawQuatParts(m, rad);
    HeadingDirection(m, q);
    GrownOne(Direction(m, HeadingAngle(m, q)));
    SameDirection(m, HeadingAngle(m, q), rad);
  }

  lemma YawQuatParts(m: Math, rad: real)
    requires Lawful(m)
    ensures var q := YawQuat(m, rad);
      PureYaw(q) && Twist2(q) == 1.0 && Square(Twist(q)) == Direction(m, rad)
  {
    hide Lawful, Times, Length2;
    var h := rad * 0.5;
    LawsAt(m, h, h);
    assert h + h == rad;
    var q := YawQuat(m, rad);
    assert Twist(q) == Direction(m, h);
    YawSize(q);
  }

  lemma YawSize(q: Quat)
    requires q.x == 0.0 && q.y == 0.0
    ensures Norm2(q) == Twist2(q)
  {
  }

  lemma HeadingPure(m: Math, q: Quat)
    requires Lawful(m)
    ensures PureYaw(Heading(m, q)) && PureYaw(Conjugate(Heading(m, q)))
  {
    hide Lawful, Inverse;
    if Twist2(q) > TINY {
      var k := Inverse(m, Twist2(q));
      InverseAt(m, Twist2(q));
      NormScales(Quat(q.w, 0.0, 0.0, q.z), k);
      assert Norm2(Quat(q.w, 0.0, 0.0, q.z)) == Twist2(q);
    }
  }

  /** Yaws compose into a yaw, and apply one after the other. */
  lemma YawsCompose(h: Quat, y: Quat, q: Quat)
    requires PureYaw(h) && PureYaw(y)
    ensures PureYaw(Multiply(h, y))
    ensures Multiply(Multiply(h, y), q) == Multiply(h, Multiply(y, q))
  {
    YawKeeps(h, y);
    YawTurns(h, y);
    NoughtFacts(Twist(h));
    assert Swing(y) == NOUGHT;
    Associative(h, y, q);
    hide Multiply, Times;
    assert Swing(Multiply(h, y)) == NOUGHT;
  }

  // ---- the shortest arc ------------------------------------------------------------------------

  function Pure(g: Vec3): (q: Quat) {
    Quat(0.0, g.x, g.y, g.z)
  }

  /** The vector, rotated by `q`, as a quaternion. */
  function Carried(q: Quat, g: Vec3): (r: Quat) {
    Multiply(Multiply(q, Pure(g)), Conjugate(q))
  }

  lemma HalfWayCarries(u: Vec3)
    requires Size2(u) == 1.0
    ensures Carried(HalfWay(u), u) == Quat(0.0, 0.0, 0.0, -(2.0 * (1.0 - u.z)))
  {
    hide Multiply, HalfWay;
    FirstHalf(u);
    SecondHalf(u);
  }

  lemma FirstHalf(u: Vec3)
    requires Size2(u) == 1.0
    ensures Multiply(HalfWay(u), Pure(u)) == Quat(0.0, u.x, u.y, u.z - 1.0)
  {
    var p := Multiply(HalfWay(u), Pure(u));
    assert p.w == 0.0;
    assert p.x == u.x;
    assert p.y == u.y;
    assert p.z == u.z - Size2(u);
  }

  lemma SecondHalf(u: Vec3)
    requires Size2(u) == 1.0
    ensures Multiply(Quat(0.0, u.x, u.y, u.z - 1.0), Conjugate(HalfWay(u))) ==
            Quat(0.0, 0.0, 0.0, -(2.0 * (1.0 - u.z)))
  {
    var p := Multiply(Quat(0.0, u.x, u.y, u.z - 1.0), Conjugate(HalfWay(u)));
    assert p.w == 0.0;
    assert p.x == 0.0;
    assert p.y == 0.0;
    assert p.z == -(1.0 + Size2(u) - 2.0 * u.z);
  }

  lemma HalfWaySize(u: Vec3)
    requires Size2(u) == 1.0
    ensures Norm2(HalfWay(u)) == 2.0 * (1.0 - u.z)
  {
    assert Norm2(HalfWay(u)) == 1.0 - 2.0 * u.z + Size2(u);
  }

  lemma ScaleCarried(q: Quat, u: Vec3, k: real, k2: real)
    requires k * k == k2
    ensures Carried(Scale(q, k), u) == Scale(Carried(q, u), k2)
  {
    hide Multiply, Pure, Scale;
    ScaleMultiply(q, Pure(u), k, 1.0);
    ScaleMultiply(Multiply(q, Pure(u)), Conjugate(q), k, k);
    ScaleOne(Pure(u));
    ScaleConjugate(q, k);
  }

  lemma ScaleConjugate(q: Quat, k: real)
    ensures Conjugate(Scale(q, k)) == Scale(Conjugate(q), k)
  {
  }

  /** The arc is a unit swing, and carries its argument's direction to straight down unless
      that points up within the code's margin. */
  lemma ShortestArcCarries(m: Math, g: Vec3)
    requires Lawful(m)
    ensures Unit(ShortestArcToDown(m, g)) && ShortestArcToDown(m, g).z == 0.0
    ensures var u := Stretched(g, Inverse(m, Size2(g)));
      Size2(g) > TINY && 1.0 - u.z >= 0.000001 ==>
        Carried(ShortestArcToDown(m, g), u) == DOWN
  {
    hide Lawful, Inverse, Carried, Size2, Normalized;
    NormalizedUnit(m, IDENTITY);
    if Size2(g) > TINY {
      InverseAt(m, Size2(g));
      StretchedSize(g, Inverse(m, Size2(g)));
      var u := Stretched(g, Inverse(m, Size2(g)));
      HalfWaySize(u);
      NormalizedUnit(m, HalfWay(u));
      if 1.0 - u.z >= 0.000001 {
        ArcCarries(m, u);
      }
    }
  }

  lemma StretchedSize(g: Vec3, k: real)
    ensures Size2(Stretched(g, k)) == k * k * Size2(g)
  {
  }

  lemma ArcCarries(m: Math, u: Vec3)
    requires Lawful(m) && Size2(u) == 1.0 && 1.0 - u.z >= 0.000001
    ensures Normalized(m, HalfWay(u)).z == 0.0
    ensures Carried(Normalized(m, HalfWay(u)), u) == DOWN
  {
    hide Lawful, Inverse, Carried, Norm2;
    HalfWaySize(u);
    HalfWayCarries(u);
    var n := 2.0 * (1.0 - u.z);
    var k := Inverse(m, n);
    InverseAt(m, n);
    ScaleCarried(HalfWay(u), u, k, k * k);
  }

  lemma GravitySize(q: Quat)
    requires Unit(q)
    ensures Size2(GravityBody(q)) == 1.0
  {
    hide Multiply, GravityBody;
    var g := GravityBody(q);
    GravityIsDown(q);
    ProductSum(1.0, 0.0, 1.0, 0.0);
    ConjugateProduct(q, q);
    NormMultiplies(Conjugate(q), DOWN);
    NormMultiplies(Multiply(Conjugate(q), DOWN), q);
    assert Norm2(Quat(0.0, g.x, g.y, g.z)) == Size2(g);
    DownSize(DOWN);
  }

  lemma DownSize(d: Quat)
    requires d == DOWN
    ensures Norm2(d) == 1.0
  {
  }

  /** The tilt auto-level aims for is the right one: with the conjugate of the arc from the
      gravity a pose sees as its tare, the tared pose is level. */
  lemma TargetLevels(m: Math, q: Quat)
    requires Lawful(m) && Unit(q) && 1.0 - GravityBody(q).z >= 0.000001
    ensures GravityBody(Multiply(q, Conjugate(ShortestArcToDown(m, GravityBody(q))))) == Vec3(0.0, 0.0, -1.0)
  {
    hide Lawful, Multiply, GravityBody, ShortestArcToDown, Norm2;
    var g := GravityBody(q);
    var a := ShortestArcToDown(m, g);
    var p := Multiply(q, Conjugate(a));
    GravitySize(q);
    InverseAt(m, 1.0);
    assert Stretched(g, 1.0) == g;
    ShortestArcCarries(m, g);
    ProductSum(1.0, 0.0, 1.0, 0.0);
    ConjugateProduct(q, Conjugate(a));
    ConjugateProduct(a, a);
    NormMultiplies(q, Conjugate(a));
    GravityIsDown(q);
    GravityIsDown(p);
    Sandwich(a, Conjugate(q), DOWN, q, Conjugate(a));
  }

  lemma Sandwich(a: Quat, b: Quat, d: Quat, c: Quat, e: Quat)
    ensures Multiply(Multiply(Multiply(a, b), d), Multiply(c, e)) ==
            Multiply(Multiply(a, Multiply(Multiply(b, d), c)), e)
  {
    hide Multiply;
    Associative(a, b, d);
    Associative(Multiply(a, Multiply(b, d)), c, e);
    Associative(a, Multiply(b, d), c);
  }

  // ---- the reference frame --------------------------------------------------------------------

  /** The body-side tare and the world-side yaw. */
  datatype Frame = Frame(bore: Quat, yaw: Quat)

  const RAW := Frame(IDENTITY, IDENTITY)

  predicate Sound(f: Frame) {
    Unit(f.bore) && PureYaw(f.yaw)
  }

  function Boresighted(m: Math, current: Quat): (f: Frame) {
    var ref := Normalized(m, current);
    var h := Heading(m, ref);
    Frame(Multiply(Conjugate(ref), h), Conjugate(h))
  }

  function Applied(m: Math, f: Frame, raw: Quat): (q: Quat) {
    Normalized(m, Multiply(f.yaw, Multiply(raw, f.bore)))
  }

  function Recentred(m: Math, f: Frame, current: Quat): (g: Frame) {
    var corrected := Applied(m, f, Normalized(m, current));
    f.(yaw := Multiply(Conjugate(Heading(m, corrected)), f.yaw))
  }

  function YawAngle(m: Math, f: Frame): (rad: real)
    requires m.pi > 0.0
  {
    HeadingAngle(m, f.yaw)
  }

  /** How far a new tilt moves the heading of the pose before its yaw reference. */
  function TiltShift(m: Math, f: Frame, tilt: Quat, current: Quat): (delta: real)
    requires m.pi > 0.0
  {
    var q := Normalized(m, current);
    Wrap(m.pi, HeadingAngle(m, Multiply(q, tilt)) - HeadingAngle(m, Multiply(q, f.bore)))
  }

  function TiltSet(m: Math, f: Frame, tilt: Quat, current: Quat): (g: Frame)
    requires m.pi > 0.0
  {
    Frame(tilt, YawQuat(m, Wrap(m.pi, YawAngle(m, f) - TiltShift(m, f, tilt, current))))
  }

  class Recenterer {
    const m: Math
    var boreInv: Quat
    var yawInv: Quat

    ghost function View(): (f: Frame)
      reads this
    {
      Frame(boreInv, yawInv)
    }

    constructor (lib: Math)
      ensures m == lib && View() == RAW
    {
      m := lib;
      boreInv, yawInv := IDENTITY, IDENTITY;
    }

    method Boresight(current: Quat)
      modifies this
      ensures View() == Boresighted(m, current)
    {
      hide Normalized, Heading, Multiply;
      var ref := Normalized(m, current);
      var h := Heading(m, ref);
      boreInv := Multiply(Conjugate(ref), h);
      yawInv := Conjugate(h);
    }

    method Recenter(current: Quat)
      modifies this`yawInv
      ensures View() == Recentred(m, old(View()), current)
    {
      hide Normalized, Heading, Multiply;
      var corrected := Apply(Normalized(m, current));
      yawInv := Multiply(Conjugate(Heading(m, corrected)), yawInv);
    }

    method SetTilt(tilt: Quat, current: Quat) returns (delta: real)
      requires m.pi > 0.0
      modifies this
      ensures delta == TiltShift(m, old(View()), tilt, current)
      ensures View() == TiltSet(m, old(View()), tilt, current)
    {
      hide Normalized, HeadingAngle, Multiply, Wrap;
      var q := Normalized(m, current);
      var before := HeadingAngle(m, Multiply(q, boreInv));
      var after := HeadingAngle(m, Multiply(q, tilt));
      delta := WrapPi(m.pi, after - before);
      boreInv := tilt;
      var rad := WrapPi(m.pi, HeadingAngle(m, yawInv) - delta);
      SetYawAngle(rad);
    }

    method SetYawAngle(rad: real)
      modifies this`yawInv
      ensures yawInv == YawQuat(m, rad)
    {
      yawInv := YawQuat(m, rad);
    }

    /** In a sound frame a unit pose comes out as a unit, its heading the yaw reference plus the
        heading of the tared pose, its gravity that of the tared pose. */
    method Apply(raw: Quat) returns (q: Quat)
      ensures q == Applied(m, View(), raw)
      ensures Lawful(m) && Sound(View()) && Unit(raw) ==>
                && m.pi > 0.0 && Unit(q) && GravityBody(q) == GravityBody(Multiply(raw, boreInv))
                && (Twist2(Multiply(raw, boreInv)) > TINY ==>
                      Congruent(m.pi, HeadingAngle(m, q),
                                HeadingAngle(m, yawInv) + HeadingAngle(m, Multiply(raw, boreInv))))
    {
      hide Normalized, Multiply, HeadingAngle, Lawful, GravityBody, Sound, Unit, Congruent;
      q := Normalized(m, Multiply(yawInv, Multiply(raw, boreInv)));
      ghost var f := View();
      if Lawful(m) && Sound(f) && Unit(raw) {
        AppliedFacts(m, f, raw);
      }
    }

    method Reset()
      modifies this
      ensures View() == RAW
    {
      boreInv, yawInv := IDENTITY, IDENTITY;
    }
  }

  lemma BoresightSound(m: Math, current: Quat)
    requires Lawful(m)
    ensures Sound(Boresighted(m, current))
  {
    hide Lawful, Multiply, Heading, Normalized;
    ProductSum(1.0, 0.0, 1.0, 0.0);
    var ref := Normalized(m, current);
    NormalizedUnit(m, current);
    HeadingPure(m, ref);
    NormMultiplies(Conjugate(ref), Heading(m, ref));
    assert Norm2(Conjugate(ref)) == Norm2(ref);
  }

  lemma RecentreSound(m: Math, f: Frame, current: Quat)
    requires Lawful(m) && Sound(f)
    ensures Sound(Recentred(m, f, current))
  {
    hide Lawful, Multiply, Heading, Applied, Normalized, Norm2;
    var corrected := Applied(m, f, Normalized(m, current));
    HeadingPure(m, corrected);
    YawsCompose(Conjugate(Heading(m, corrected)), f.yaw, IDENTITY);
  }

  lemma TiltSound(m: Math, f: Frame, tilt: Quat, current: Quat)
    requires Lawful(m) && Unit(tilt)
    ensures Sound(TiltSet(m, f, tilt, current))
  {
    hide Lawful, TiltShift, YawAngle, YawQuat, Norm2, Wrap, HeadingAngle;
    PiAt(m);
    YawQuatAngle(m, Wrap(m.pi, YawAngle(m, f) - TiltShift(m, f, tilt, current)));
  }

  /** Every operation keeps a unit tare and a pure yaw. */
  lemma StaysSound(m: Math, f: Frame, tilt: Quat, current: Quat)
    requires Lawful(m) && Sound(f) && Unit(tilt)
    ensures Sound(RAW) && Sound(Boresighted(m, current)) && Sound(Recentred(m, f, current))
    ensures Sound(TiltSet(m, f, tilt, current))
  {
    hide Lawful, Boresighted, Recentred, TiltSet;
    BoresightSound(m, current);
    RecentreSound(m, f, current);
    TiltSound(m, f, tilt, current);
  }

  /** In a sound frame a unit pose needs no renormalization. */
  lemma AppliedExactly(m: Math, f: Frame, q: Quat)
    requires Lawful(m) && Sound(f) && Unit(q)
    ensures Applied(m, f, q) == Multiply(f.yaw, Multiply(q, f.bore))
    ensures Unit(Applied(m, f, q))
  {
    hide Lawful, Multiply, Normalized;
    ProductSum(1.0, 0.0, 1.0, 0.0);
    NormMultiplies(q, f.bore);
    NormMultiplies(f.yaw, Multiply(q, f.bore));
    NormalizedUnit(m, Multiply(f.yaw, Multiply(q, f.bore)));
  }

  /** The full-pose tare: the captured pose reads as the identity from then on. */
  lemma BoresightTares(m: Math, current: Quat)
    requires Lawful(m)
    ensures Applied(m, Boresighted(m, current), Normalized(m, current)) == IDENTITY
  {
    hide Lawful, Multiply, Heading, Applied, Normalized;
    var q := Normalized(m, current);
    var h := Heading(m, q);
    NormalizedUnit(m, current);
    BoresightSound(m, current);
    AppliedExactly(m, Boresighted(m, current), q);
    HeadingPure(m, q);
    Associative(q, Conjugate(q), h);
    ConjugateInverts(q);
    MultiplyOne(h);
    ConjugateInverts(h);
  }

  /** It splits the pose: the tare takes off all but its heading, which it leaves to the yaw reference. */
  lemma BoresightSplits(m: Math, current: Quat)
    requires Lawful(m)
    ensures var q, f := Normalized(m, current), Boresighted(m, current);
      Multiply(q, f.bore) == Heading(m, q) && f.yaw == Conjugate(Heading(m, q))
  {
    hide Lawful, Multiply, Heading, Normalized;
    var q := Normalized(m, current);
    NormalizedUnit(m, current);
    Associative(q, Conjugate(q), Heading(m, q));
    ConjugateInverts(q);
    MultiplyOne(Heading(m, q));
    hide Norm2;
  }

  /** The heading of the corrected pose: yaw reference plus heading of the tared pose, or zero
      where the latter is undefined. */
  lemma CorrectedHeading(m: Math, f: Frame, q: Quat)
    requires Lawful(m) && Sound(f) && Unit(q)
    ensures Twist2(Applied(m, f, q)) == Twist2(Multiply(q, f.bore))
    ensures Twist2(Multiply(q, f.bore)) > TINY ==>
              Congruent(m.pi, HeadingAngle(m, Applied(m, f, q)),
                        YawAngle(m, f) + HeadingAngle(m, Multiply(q, f.bore)))
    ensures Twist2(Multiply(q, f.bore)) <= TINY ==> HeadingAngle(m, Applied(m, f, q)) == 0.0
  {
    hide Lawful, Multiply, Applied;
    PiAt(m);
    AppliedExactly(m, f, q);
    YawAdds(m, f.yaw, Multiply(q, f.bore));
  }

  lemma AppliedFacts(m: Math, f: Frame, q: Quat)
    requires Lawful(m) && Sound(f) && Unit(q)
    ensures m.pi > 0.0
    ensures Unit(Applied(m, f, q)) && GravityBody(Applied(m, f, q)) == GravityBody(Multiply(q, f.bore))
    ensures Twist2(Multiply(q, f.bore)) > TINY ==>
              Congruent(m.pi, HeadingAngle(m, Applied(m, f, q)),
                        HeadingAngle(m, f.yaw) + HeadingAngle(m, Multiply(q, f.bore)))
  {
    hide Lawful, Multiply, Applied, HeadingAngle, GravityBody, Norm2, Congruent;
    PiAt(m);
    AppliedExactly(m, f, q);
    CorrectedHeading(m, f, q);
    GravityYawBlind(f.yaw, Multiply(q, f.bore));
  }

  /** A new tilt takes from the yaw reference exactly what it adds to the tared heading. */
  lemma TiltMovesYaw(m: Math, f: Frame, tilt: Quat, current: Quat)
    requires Lawful(m)
    ensures Congruent(m.pi, YawAngle(m, TiltSet(m, f, tilt, current)),
                      YawAngle(m, f) - TiltShift(m, f, tilt, current))
  {
    hide Lawful, HeadingAngle, Wrap, TiltShift, YawQuat;
    PiAt(m);
    var rad := YawAngle(m, f) - TiltShift(m, f, tilt, current);
    YawQuatAngle(m, Wrap(m.pi, rad));
    WrapRange(m.pi, rad);
    CongruentChain(m.pi, YawAngle(m, TiltSet(m, f, tilt, current)), Wrap(m.pi, rad), rad);
  }

  /** No heading is defined for the tared pose. */
  predicate Gimbal(q: Quat, bore: Quat) {
    Twist2(Multiply(q, bore)) <= TINY
  }

  /** Tilt refinement does not move the output heading of any pose that has one before and
      after, nor of one that has none either time; at a pose that only gains or loses its
      heading it moves exactly unless the heading happens to be zero. */
  lemma TiltInvisible(m: Math, f: Frame, tilt: Quat, q: Quat)
    requires Lawful(m) && Sound(f) && Unit(tilt) && Unit(q)
    ensures var before := HeadingAngle(m, Applied(m, f, q));
      var after := HeadingAngle(m, Applied(m, TiltSet(m, f, tilt, q), q));
      Congruent(m.pi, after, before) <==>
        (Gimbal(q, f.bore) == Gimbal(q, tilt)
         || (Gimbal(q, f.bore) && Congruent(m.pi, YawAngle(m, f), 0.0))
         || (Gimbal(q, tilt) && Congruent(m.pi, YawAngle(m, f) + HeadingAngle(m, Multiply(q, f.bore)), 0.0)))
  {
    hide Lawful, Multiply, Applied, Sound, HeadingAngle, YawAngle, Wrap, Congruent, Unit;
    PiAt(m);
    var g := TiltSet(m, f, tilt, q);
    var old0, new0 := HeadingAngle(m, Multiply(q, f.bore)), HeadingAngle(m, Multiply(q, tilt));
    var before, after := HeadingAngle(m, Applied(m, f, q)), HeadingAngle(m, Applied(m, g, q));
    var yaw, delta := YawAngle(m, f), TiltShift(m, f, tilt, q);
    TiltSound(m, f, tilt, q);
    CorrectedHeading(m, f, q);
    CorrectedHeading(m, g, q);
    NormalizedUnit(m, q);
    Undefined(m, Multiply(q, f.bore));
    Undefined(m, Multiply(q, tilt));
    TiltMovesYaw(m, f, tilt, q);
    WrapRange(m.pi, new0 - old0);
    assert delta == Wrap(m.pi, new0 - old0);
    Reanchored(m.pi, yaw, YawAngle(m, g), old0, new0, delta);
    var tared, moved := yaw + old0, YawAngle(m, g) + new0;
    CongruentSelf(m.pi, 0.0);
    if !Gimbal(q, tilt) {
      CongruentAlike(m.pi, after, moved, before);
      CongruentAlike(m.pi, moved, tared, before);
      assert Gimbal(q, f.bore) ==> tared == yaw;
    }
    if !Gimbal(q, f.bore) {
      CongruentAlike(m.pi, before, tared, after);
      CongruentAlike(m.pi, before, tared, tared);
      CongruentSelf(m.pi, tared);
    }
  }

  lemma Undefined(m: Math, q: Quat)
    requires m.pi > 0.0
    ensures Twist2(q) <= TINY ==> HeadingAngle(m, q) == 0.0
  {
  }

  lemma Reanchored(pi: real, yaw: real, moved: real, old0: real, new0: real, delta: real)
    requires Congruent(pi, moved, yaw - delta) && Congruent(pi, delta, new0 - old0)
    ensures Congruent(pi, moved + new0, yaw + old0)
  {
    hide Congruent;
    CongruentSelf(pi, yaw);
    CongruentSelf(pi, new0);
    CongruentSum(pi, yaw, yaw, delta, new0 - old0);
    CongruentChain(pi, moved, yaw - delta, yaw - (new0 - old0));
    CongruentSum(pi, moved, yaw - (new0 - old0), new0, new0);
  }

  const VERTICAL := Quat(0.0, 1.0, 0.0, 0.0)
  const TILTED := Quat(0.6, 0.8, 0.0, 0.0)
  const TURNED := Frame(IDENTITY, Quat(0.0, 0.0, 0.0, 1.0))

  /** At a vertical pose the refinement can turn the output by half a turn: an instance. */
  lemma GimbalJumps(m: Math)
    requires Lawful(m)
    ensures Sound(TURNED) && Unit(TILTED) && Unit(VERTICAL)
    ensures !Congruent(m.pi, HeadingAngle(m, Applied(m, TiltSet(m, TURNED, TILTED, VERTICAL), VERTICAL)),
                       HeadingAngle(m, Applied(m, TURNED, VERTICAL)))
  {
    hide Lawful, Applied, HeadingAngle, Congruent, TiltSet, Multiply;
    PiAt(m);
    GimbalNumbers();
    HalfTurned(m);
    TiltInvisible(m, TURNED, TILTED, VERTICAL);
  }

  lemma GimbalNumbers()
    ensures Gimbal(VERTICAL, TURNED.bore) && !Gimbal(VERTICAL, TILTED)
    ensures Sound(TURNED) && Unit(TILTED) && Unit(VERTICAL)
  {
    hide Multiply, Norm2, Twist;
    AboutX(VERTICAL, TURNED.bore);
    AboutX(VERTICAL, TILTED);
    Sizes(VERTICAL, 0.0, 1.0);
    Sizes(IDENTITY, 1.0, 0.0);
    Sizes(TILTED, 0.6, 0.8);
    Sizes(Quat(-0.8, 0.6, -0.0, 0.0), -0.8, 0.6);
    AboutZ(TURNED.yaw);
  }

  lemma Sizes(q: Quat, w: real, x: real)
    requires q == Quat(w, x, 0.0, 0.0)
    ensures Norm2(q) == w * w + x * x && Twist2(q) == w * w
  {
  }

  lemma AboutZ(q: Quat)
    requires q == Quat(0.0, 0.0, 0.0, 1.0)
    ensures Norm2(q) == 1.0
  {
  }

  lemma AboutX(a: Quat, b: Quat)
    requires a.w == 0.0 && a.x == 1.0 && a.y == 0.0 && a.z == 0.0
    ensures Multiply(a, b) == Quat(-b.x, b.w, -b.z, b.y)
  {
  }

  lemma HalfTurned(m: Math)
    requires Lawful(m)
    ensures !Congruent(m.pi, YawAngle(m, TURNED), 0.0)
  {
    hide Lawful, HeadingAngle, Congruent, Direction;
    PiAt(m);
    HeadingDirection(m, TURNED.yaw);
    GrownOne(Direction(m, HeadingAngle(m, TURNED.yaw)));
    LawsAt(m, 0.0, 0.0);
    SameDirection(m, HeadingAngle(m, TURNED.yaw), 0.0);
  }

  /** How far the yaw reference is from centering the mean heading `z`. */
  function CenteringError(m: Math, z: Complex, f: Frame): (err: real)
    requires m.pi > 0.0
  {
    Wrap(m.pi, -Argument(m, z) - YawAngle(m, f))
  }

  /** The mean turned by the shift a new tilt reports. */
  function CoRotated(m: Math, z: Complex, delta: real): (r: Complex) {
    Times(z, Direction(m, delta))
  }

  lemma CoRotates(m: Math, z: Complex, delta: real)
    requires Lawful(m)
    ensures Length2(CoRotated(m, z, delta)) == Length2(z)
    ensures z != Complex(0.0, 0.0) ==>
              Congruent(m.pi, Argument(m, CoRotated(m, z, delta)), Argument(m, z) + delta)
  {
    hide Lawful, Direction, Times, Grown, Argument, Congruent;
    var d := Direction(m, delta);
    LawsAt(m, Argument(m, z), delta);
    LengthTimes(z, d);
    if z != Complex(0.0, 0.0) {
      var w, r := CoRotated(m, z, delta), m.root(Length2(z));
      PolarAt(m, z);
      NonZero(z);
      NonZero(w);
      PolarAt(m, w);
      RootAt(m, Length2(z));
      GrownTimes(Direction(m, Argument(m, z)), r, d, 1.0);
      GrownOne(d);
      GrownSame(Direction(m, Argument(m, w)), Direction(m, Argument(m, z) + delta), r);
      SameDirection(m, Argument(m, w), Argument(m, z) + delta);
    }
  }

  /** Co-rotating the accumulator by the reported shift leaves its length and the centering
      error as they were, at every pose; an error of half a turn may change its sign. */
  lemma CenteringUndisturbed(m: Math, f: Frame, z: Complex, tilt: Quat, current: Quat)
    requires Lawful(m) && z != Complex(0.0, 0.0)
    ensures var delta := TiltShift(m, f, tilt, current);
      var w := CoRotated(m, z, delta);
      var before, after := CenteringError(m, z, f), CenteringError(m, w, TiltSet(m, f, tilt, current));
      && Length2(w) == Length2(z)
      && Abs(after) == Abs(before)
      && (after == before || Abs(before) == m.pi)
  {
    hide Lawful, TiltShift, TiltSet, YawAngle, Argument, Wrap, Congruent, CoRotated;
    PiAt(m);
    var delta := TiltShift(m, f, tilt, current);
    var w := CoRotated(m, z, delta);
    var g := TiltSet(m, f, tilt, current);
    var yaw, moved := YawAngle(m, f), YawAngle(m, g);
    CoRotates(m, z, delta);
    TiltMovesYaw(m, f, tilt, current);
    CongruentSum(m.pi, Argument(m, w), Argument(m, z) + delta, moved, yaw - delta);
    var x, y := Argument(m, w) + moved, Argument(m, z) + yaw;
    CongruentSelf(m.pi, 0.0);
    CongruentSum(m.pi, 0.0, 0.0, x, y);
    assert -Argument(m, w) - moved == 0.0 - x && -Argument(m, z) - yaw == 0.0 - y;
    WrapSame(m.pi, 0.0 - x, 0.0 - y);
  }

  /** A recenter zeroes the heading of the corrected pose and leaves its tilt alone. */
  lemma RecentreZeroes(m: Math, f: Frame, q: Quat)
    requires Lawful(m) && Sound(f) && Unit(q)
    ensures HeadingAngle(m, Applied(m, Recentred(m, f, q), q)) == 0.0
    ensures GravityBody(Applied(m, Recentred(m, f, q), q)) == GravityBody(Applied(m, f, q))
  {
    hide Lawful, Multiply, Applied, Heading, HeadingAngle, GravityBody, Norm2;
    PiAt(m);
    var c := Applied(m, f, q);
    var h := Conjugate(Heading(m, c));
    NormalizedUnit(m, q);
    HeadingPure(m, c);
    AppliedExactly(m, f, q);
    RecentreSound(m, f, q);
    AppliedExactly(m, Recentred(m, f, q), q);
    YawsCompose(h, f.yaw, Multiply(q, f.bore));
    GravityYawBlind(h, c);
    HeadingTakenOff(m, c);
  }

  lemma HeadingTakenOff(m: Math, c: Quat)
    requires Lawful(m)
    ensures HeadingAngle(m, Multiply(Conjugate(Heading(m, c)), c)) == 0.0
  {
    hide Lawful, Multiply, HeadingAngle, Heading, Norm2, Grown, Times;
    PiAt(m);
    var h := Conjugate(Heading(m, c));
    HeadingPure(m, c);
    YawKeeps(h, c);
    var p := Multiply(h, c);
    if Twist2(c) > TINY {
      YawTurns(h, c);
      TwistTakenOff(m, c);
      HeadingDirection(m, p);
      RealSquare(Twist(p));
      var rad := HeadingAngle(m, p);
      GrownSame(Direction(m, rad), Complex(1.0, 0.0), Twist2(c));
      NoTurn(m, rad);
      WrapRange(m.pi, 0.0);
      CongruentBack(m.pi, rad, 0.0);
      CongruentBack(m.pi, 0.0, rad);
      WrapUnique(m.pi, 0.0, rad);
    } else {
      Undefined(m, p);
    }
  }

  lemma TwistTakenOff(m: Math, c: Quat)
    requires Twist2(c) > TINY
    ensures Times(Twist(Conjugate(Heading(m, c))), Twist(c)).im == 0.0
  {
    hide Inverse;
  }

  lemma RealSquare(a: Complex)
    requires a.im == 0.0
    ensures Square(a) == Grown(Complex(1.0, 0.0), Length2(a))
  {
  }
}
