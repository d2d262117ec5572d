/**
 The quaternion arithmetic of the skeleton exporter, over the reals, with the
 algebraic laws that its users rely on.  Components are in XYZW order.
 */
module Quaternions {

  datatype Quat = Quat(x: real, y: real, z: real, w: real)

  datatype Vec3 = Vec3(x: real, y: real, z: real)

  const ONE := Quat(0.0, 0.0, 0.0, 1.0)

  // The four components of a product.
  function MulX(a: Quat, b: Quat): real {
    a.w * b.x + a.x * b.w + a.y * b.z - a.z * b.y
  }

  function MulY(a: Quat, b: Quat): real {
    a.w * b.y - a.x * b.z + a.y * b.w + a.z * b.x
  }

  function MulZ(a: Quat, b: Quat): real {
    a.w * b.z + a.x * b.y - a.y * b.x + a.z * b.w
  }

  function MulW(a: Quat, b: Quat): real {
    a.w * b.w - a.x * b.x - a.y * b.y - a.z * b.z
  }

  function Qmul(a: Quat, b: Quat): Quat {
    Quat(MulX(a, b), MulY(a, b), MulZ(a, b), MulW(a, b))
  }

  function Qinv(q: Quat): Quat {
    Quat(-q.x, -q.y, -q.z, q.w)
  }

  function Negated(q: Quat): Quat {
    Quat(-q.x, -q.y, -q.z, -q.w)
  }

  function Norm2(q: Quat): real {
    q.x * q.x + q.y * q.y + q.z * q.z + q.w * q.w
  }

  function Dot(a: Quat, b: Quat): real {
    a.x * b.x + a.y * b.y + a.z * b.z + a.w * b.w
  }

  function Over(q: Quat, n: real): Quat
    requires n != 0.0
  {
    Quat(q.x / n, q.y / n, q.z / n, q.w / n)
  }

  /** What the exporter needs of the square root. */
  ghost predicate IsRoot(root: real -> real) {
    forall x: real :: x > 0.0 ==> root(x) > 0.0 && root(x) * root(x) == x
  }

  function Normalized(q: Quat, root: real -> real): Quat
    requires root(Norm2(q)) != 0.0
  {
    Over(q, root(Norm2(q)))
  }

  function Pure(v: Vec3): Quat {
    Quat(v.x, v.y, v.z, 0.0)
  }

  function Imaginary(p: Quat): Vec3 {
    Vec3(p.x, p.y, p.z)
  }

  function Rotated(q: Quat, v: Vec3): Vec3 {
    Imaginary(Qmul(Qmul(q, Pure(v)), Qinv(q)))
  }

  function Plus(a: Vec3, b: Vec3): Vec3 {
    Vec3(a.x + b.x, a.y + b.y, a.z + b.z)
  }

  function Minus(a: Vec3, b: Vec3): Vec3 {
    Vec3(a.x - b.x, a.y - b.y, a.z - b.z)
  }

  function Times(s: real, v: Vec3): Vec3 {
    Vec3(s * v.x, s * v.y, s * v.z)
  }

  function Divided(v: Vec3, s: real): Vec3
    requires s != 0.0
  {
    Vec3(v.x / s, v.y / s, v.z / s)
  }

  function Scaled(s: real, q: Quat): Quat {
    Quat(s * q.x, s * q.y, s * q.z, s * q.w)
  }

  function Sum(a: Quat, b: Quat): Quat {
    Quat(a.x + b.x, a.y + b.y, a.z + b.z, a.w + b.w)
  }

  // The products with the three imaginary units on the left.
  function TimesI(q: Quat): Quat {
    Quat(q.w, -q.z, q.y, -q.x)
  }

  function TimesJ(q: Quat): Quat {
    Quat(q.z, q.w, -q.x, -q.y)
  }

  function TimesK(q: Quat): Quat {
    Quat(-q.y, q.x, q.w, -q.z)
  }

  lemma QmulSum(a: Quat, c: Quat, b: Quat)
    ensures Qmul(Sum(a, c), b) == Sum(Qmul(a, b), Qmul(c, b))
  {
  }

  lemma MulScaled(s: real, a: Quat, b: Quat)
    ensures MulX(Scaled(s, a), b) == s * MulX(a, b)
    ensures MulY(Scaled(s, a), b) == s * MulY(a, b)
    ensures MulZ(Scaled(s, a), b) == s * MulZ(a, b)
    ensures MulW(Scaled(s, a), b) == s * MulW(a, b)
  {
  }

  lemma QmulScaled(s: real, a: Quat, b: Quat)
    ensures Qmul(Scaled(s, a), b) == Scaled(s, Qmul(a, b))
  {
    hide MulX, MulY, MulZ, MulW;
    MulScaled(s, a, b);
  }

  lemma QmulTimesI(a: Quat, b: Quat)
    ensures Qmul(TimesI(a), b) == TimesI(Qmul(a, b))
  {
  }

  lemma QmulTimesK(a: Quat, b: Quat)
    ensures Qmul(TimesK(a), b) == TimesK(Qmul(a, b))
  {
  }

  lemma QmulTimesJ(a: Quat, b: Quat)
    ensures Qmul(TimesJ(a), b) == TimesJ(Qmul(a, b))
  {
    hide Qmul;
    QmulTimesK(TimesI(a), b);
    QmulTimesI(a, b);
  }

  lemma QmulByUnits(a: Quat, b: Quat)
    ensures Qmul(a, b) == Sum(Sum(Scaled(a.x, TimesI(b)), Scaled(a.y, TimesJ(b))), Sum(Scaled(a.z, TimesK(b)), Scaled(a.w, b)))
  {
  }

  lemma QmulAssociative(a: Quat, b: Quat, c: Quat)
    ensures Qmul(Qmul(a, b), c) == Qmul(a, Qmul(b, c))
  {
    hide Qmul, Sum, Scaled, TimesI, TimesJ, TimesK;
    QmulByUnits(a, b);
    QmulByUnits(a, Qmul(b, c));
    QmulSum(Sum(Scaled(a.x, TimesI(b)), Scaled(a.y, TimesJ(b))), Sum(Scaled(a.z, TimesK(b)), Scaled(a.w, b)), c);
    QmulSum(Scaled(a.x, TimesI(b)), Scaled(a.y, TimesJ(b)), c);
    QmulSum(Scaled(a.z, TimesK(b)), Scaled(a.w, b), c);
    QmulScaled(a.x, TimesI(b), c);
    QmulScaled(a.y, TimesJ(b), c);
    QmulScaled(a.z, TimesK(b), c);
    QmulScaled(a.w, b, c);
    QmulTimesI(b, c);
    QmulTimesJ(b, c);
    QmulTimesK(b, c);
  }

  lemma QinvReverses(a: Quat, b: Quat)
    ensures Qinv(Qmul(a, b)) == Qmul(Qinv(b), Qinv(a))
  {
  }

  lemma QinvCancels(q: Quat)
    ensures Qmul(q, Qinv(q)) == Quat(0.0, 0.0, 0.0, Norm2(q))
    ensures Qmul(Qinv(q), q) == Quat(0.0, 0.0, 0.0, Norm2(q))
  {
  }

  lemma QmulReal(q: Quat, s: real)
    ensures Qmul(q, Quat(0.0, 0.0, 0.0, s)) == Scaled(s, q)
  {
  }

  lemma Norm2Multiplies(a: Quat, b: Quat)
    ensures Norm2(Qmul(a, b)) == Norm2(a) * Norm2(b)
  {
    hide Qmul, Qinv, Norm2;
    var p, n := Qmul(a, b), Norm2(b);
    calc {
      Qmul(p, Qinv(p));
    ==  { QinvReverses(a, b); }
      Qmul(p, Qmul(Qinv(b), Qinv(a)));
    ==  { QmulAssociative(p, Qinv(b), Qinv(a)); }
      Qmul(Qmul(p, Qinv(b)), Qinv(a));
    ==  { QmulAssociative(a, b, Qinv(b)); }
      Qmul(Qmul(a, Qmul(b, Qinv(b))), Qinv(a));
    ==  { QinvCancels(b); QmulReal(a, n); }
      Qmul(Scaled(n, a), Qinv(a));
    ==  { QmulScaled(n, a, Qinv(a)); QinvCancels(a); }
      Scaled(n, Quat(0.0, 0.0, 0.0, Norm2(a)));
    }
    QinvCancels(p);
  }

  lemma RotatedIsPure(q: Quat, v: Vec3)
    ensures Pure(Rotated(q, v)) == Qmul(Qmul(q, Pure(v)), Qinv(q))
  {
  }

  /** Rotating by a product is rotating twice. */
  lemma RotatedComposes(a: Quat, b: Quat, v: Vec3)
    ensures Rotated(Qmul(a, b), v) == Rotated(a, Rotated(b, v))
  {
    hide Qmul, Qinv;
    var p := Pure(v);
    calc {
      Qmul(Qmul(Qmul(a, b), p), Qinv(Qmul(a, b)));
    ==  { QinvReverses(a, b); }
      Qmul(Qmul(Qmul(a, b), p), Qmul(Qinv(b), Qinv(a)));
    ==  { QmulAssociative(a, b, p); }
      Qmul(Qmul(a, Qmul(b, p)), Qmul(Qinv(b), Qinv(a)));
    ==  { QmulAssociative(Qmul(a, Qmul(b, p)), Qinv(b), Qinv(a)); }
      Qmul(Qmul(Qmul(a, Qmul(b, p)), Qinv(b)), Qinv(a));
    ==  { QmulAssociative(a, Qmul(b, p), Qinv(b)); }
      Qmul(Qmul(a, Qmul(Qmul(b, p), Qinv(b))), Qinv(a));
    ==  { RotatedIsPure(b, v); }
      Qmul(Qmul(a, Pure(Rotated(b, v))), Qinv(a));
    }
  }

  lemma RotatedByReal(s: real, v: Vec3)
    ensures Rotated(Quat(0.0, 0.0, 0.0, s), v) == Times(s * s, v)
  {
  }

  /** A rotation and its inverse undo each other, up to the quaternion's norm. */
  lemma RotatedInverse(q: Quat, v: Vec3)
    ensures Rotated(q, Rotated(Qinv(q), v)) == Times(Norm2(q) * Norm2(q), v)
  {
    hide Rotated, Norm2;
    RotatedComposes(q, Qinv(q), v);
    QinvCancels(q);
    assert Rotated(q, Rotated(Qinv(q), v)) == Rotated(Quat(0.0, 0.0, 0.0, Norm2(q)), v);
    RotatedByReal(Norm2(q), v);
  }

  lemma QmulScaledRight(s: real, a: Quat, b: Quat)
    ensures Qmul(a, Scaled(s, b)) == Scaled(s, Qmul(a, b))
  {
    hide Qmul;
    QinvReverses(a, Scaled(s, b));
    QinvReverses(a, b);
    QmulScaled(s, Qinv(b), Qinv(a));
    QinvScaled(s, b);
    QinvScaled(s, Qmul(a, b));
    QinvTwice(Qmul(a, Scaled(s, b)));
    QinvTwice(Scaled(s, Qmul(a, b)));
  }

  lemma QinvScaled(s: real, q: Quat)
    ensures Qinv(Scaled(s, q)) == Scaled(s, Qinv(q))
  {
  }

  lemma Neutral(a: real, b: real, c: real, d: real, x: real, y: real, z: real, w: real)
    requires a == 1.0 && b == 0.0 && c == 0.0 && d == 0.0
    ensures a * x == x && b * y == 0.0 && c * z == 0.0 && d * w == 0.0
  {
  }

  lemma MulOneLeft(q: Quat)
    ensures MulX(ONE, q) == q.x && MulY(ONE, q) == q.y && MulZ(ONE, q) == q.z && MulW(ONE, q) == q.w
  {
    Neutral(ONE.w, ONE.x, ONE.y, ONE.z, q.x, q.w, q.z, q.y);
    Neutral(ONE.w, ONE.x, ONE.y, ONE.z, q.y, q.z, q.w, q.x);
    Neutral(ONE.w, ONE.x, ONE.y, ONE.z, q.z, q.y, q.x, q.w);
    Neutral(ONE.w, ONE.x, ONE.y, ONE.z, q.w, q.x, q.y, q.z);
  }

  lemma MulOneRight(q: Quat)
    ensures MulX(q, ONE) == q.x && MulY(q, ONE) == q.y && MulZ(q, ONE) == q.z && MulW(q, ONE) == q.w
  {
    Neutral(ONE.w, ONE.x, ONE.y, ONE.z, q.x, q.w, q.z, q.y);
    Neutral(ONE.w, ONE.x, ONE.y, ONE.z, q.y, q.z, q.w, q.x);
    Neutral(ONE.w, ONE.x, ONE.y, ONE.z, q.z, q.y, q.x, q.w);
    Neutral(ONE.w, ONE.x, ONE.y, ONE.z, q.w, q.x, q.y, q.z);
  }

  lemma QmulOne(q: Quat)
    ensures Qmul(ONE, q) == q && Qmul(q, ONE) == q
  {
    hide MulX, MulY, MulZ, MulW;
    MulOneLeft(q);
    MulOneRight(q);
  }

  lemma QinvOne()
    ensures Qinv(ONE) == ONE
  {
  }

  /** The unit quaternion turns nothing. */
  lemma RotatedOne(v: Vec3)
    ensures Rotated(ONE, v) == v
  {
    hide Qmul, Qinv;
    QmulOne(Pure(v));
    QinvOne();
  }

  lemma QinvTwice(q: Quat)
    ensures Qinv(Qinv(q)) == q
  {
  }

  lemma NegatedScales(q: Quat)
    ensures Negated(q) == Scaled(-1.0, q)
    ensures Qinv(Negated(q)) == Scaled(-1.0, Qinv(q))
    ensures Scaled(-1.0, Scaled(-1.0, q)) == q
  {
  }

  /** A quaternion and its negative are the same rotation. */
  lemma RotatedNegated(q: Quat, v: Vec3)
    ensures Rotated(Negated(q), v) == Rotated(q, v)
  {
    hide Qmul, Qinv, Negated, Scaled;
    var p := Qmul(q, Pure(v));
    NegatedScales(q);
    QmulScaled(-1.0, q, Pure(v));
    QmulScaled(-1.0, p, Qinv(Negated(q)));
    QmulScaledRight(-1.0, p, Qinv(q));
    NegatedScales(Qmul(p, Qinv(q)));
  }

  lemma RotatedLinear(q: Quat, s: real, v: Vec3)
    ensures Rotated(q, Times(s, v)) == Times(s, Rotated(q, v))
  {
    hide Qmul;
    assert Pure(Times(s, v)) == Scaled(s, Pure(v));
    QmulScaledRight(s, q, Pure(v));
    QmulScaled(s, Qmul(q, Pure(v)), Qinv(q));
  }

  lemma QmulSumRight(a: Quat, b: Quat, c: Quat)
    ensures Qmul(a, Sum(b, c)) == Sum(Qmul(a, b), Qmul(a, c))
  {
  }

  lemma RotatedPlus(q: Quat, u: Vec3, v: Vec3)
    ensures Rotated(q, Plus(u, v)) == Plus(Rotated(q, u), Rotated(q, v))
  {
    hide Qmul, Qinv;
    assert Pure(Plus(u, v)) == Sum(Pure(u), Pure(v));
    QmulSumRight(q, Pure(u), Pure(v));
    QmulSum(Qmul(q, Pure(u)), Qmul(q, Pure(v)), Qinv(q));
  }

  lemma QmulCancels(p: Quat, q: Quat)
    requires Norm2(p) == 1.0
    ensures Qmul(p, Qmul(Qinv(p), q)) == q
  {
    QmulAssociative(p, Qinv(p), q);
    QinvCancels(p);
  }

  lemma Norm2OverTimes(q: Quat, n: real, m: real)
    requires n != 0.0 && m == n * n
    ensures Norm2(Over(q, n)) * m == Norm2(q)
  {
    assert Norm2(Over(q, n)) * (n * n) == Norm2(q);
  }

  lemma Norm2Over(q: Quat, n: real)
    requires n > 0.0 && n * n == Norm2(q) && Norm2(q) > 0.0
    ensures Norm2(Over(q, n)) == 1.0
  {
    hide Norm2, Over;
    Norm2OverTimes(q, n, Norm2(q));
    UnitFactor(Norm2(Over(q, n)), Norm2(q));
  }

  lemma UnitFactor(x: real, m: real)
    requires m > 0.0 && x * m == m
    ensures x == 1.0
  {
    assert (x - 1.0) * m == 0.0;
  }

  /** A quaternion of positive norm is normalized to one of norm one. */
  lemma NormalizedUnit(q: Quat, root: real -> real)
    requires IsRoot(root) && Norm2(q) > 0.0
    ensures root(Norm2(q)) > 0.0 && Norm2(Normalized(q, root)) == 1.0
  {
    hide Norm2, Over;
    Norm2Over(q, root(Norm2(q)));
  }

  lemma NormalizedFixed(q: Quat, root: real -> real)
    requires IsRoot(root) && Norm2(q) == 1.0
    ensures root(Norm2(q)) == 1.0 && Normalized(q, root) == q
  {
    hide Norm2;
    UnitRoot(root(1.0));
  }

  lemma UnitRoot(n: real)
    requires n > 0.0 && n * n == 1.0
    ensures n == 1.0
  {
    assert (n - 1.0) * (n + 1.0) == 0.0;
  }
}
