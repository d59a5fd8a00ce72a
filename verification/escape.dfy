/**
 * The escape-time iteration `z := z*z + c`, stopped when `|z|^2 > 4` or
 * when the iteration bound is reached (`iterate_point`).
 * Numbers are exact reals; the rounding of `f64` is not captured.
 */
module Escape {

  /** An unsigned 32-bit integer (`u32`), the type of the iteration bound. */
  newtype u32 = x: int | 0 <= x < 0x1_0000_0000

  const U32Max: u32 := 0xFFFF_FFFF

  datatype Complex = Complex(re: real, im: real)

  const Zero := Complex(0.0, 0.0)

  /** One step of the recurrence: `z*z + c`. */
  function Step(z: Complex, c: Complex): (r: Complex) {
    Complex(z.re * z.re - z.im * z.im + c.re, 2.0 * z.re * z.im + c.im)
  }

  /** Step written out on the coordinates, as the iteration loop computes it. */
  lemma StepParts(x: real, y: real, cx: real, cy: real)
    ensures Step(Complex(x, y), Complex(cx, cy)) == Complex(x * x - y * y + cx, 2.0 * x * y + cy)
  {
    var s := Step(Complex(x, y), Complex(cx, cy));
    assert s.re == x * x - y * y + cx;
    assert s.im == 2.0 * x * y + cy;
  }

  /** The squared modulus of `x + y*i`. */
  function NormSq(x: real, y: real): (r: real) {
    x * x + y * y
  }

  /** The orbit has left the disc of radius 2. */
  predicate Escaped(z: Complex) {
    NormSq(z.re, z.im) > 4.0
  }

  /** The `n`-th point of the orbit of `z` under `c`. */
  function Orbit(z: Complex, c: Complex, n: nat): (o: Complex)
    decreases n
  {
    if n == 0 then z else Orbit(Step(z, c), c, n - 1)
  }

  /** Each orbit point is one step after the previous one. */
  lemma {:induction false} OrbitSucc(z: Complex, c: Complex, n: nat)
    ensures Orbit(z, c, n + 1) == Step(Orbit(z, c, n), c)
    decreases n
  {
    if n > 0 {
      OrbitSucc(Step(z, c), c, n - 1);
    }
  }

  /**
   * The escape time of `z` under `c` with bound `m`: the index of the first
   * orbit point outside the disc, or `m` when none of the first `m` is.
   */
  function EscapeTime(z: Complex, c: Complex, m: nat): (n: nat)
    ensures n <= m
    ensures forall k: nat :: k < n ==> !Escaped(Orbit(z, c, k))
    ensures n < m ==> Escaped(Orbit(z, c, n))
    decreases m
  {
    if Escaped(z) || m == 0 then 0 else 1 + EscapeTime(Step(z, c), c, m - 1)
  }

  /** The three properties above determine the escape time uniquely. */
  lemma EscapeTimeUnique(z: Complex, c: Complex, m: nat, n: nat)
    requires n <= m
    requires forall k: nat :: k < n ==> !Escaped(Orbit(z, c, k))
    requires n < m ==> Escaped(Orbit(z, c, n))
    ensures n == EscapeTime(z, c, m)
  {
  }

  /**
   * The bound and the escape test are checked before any step: with a zero
   * bound, or a starting point already outside the disc, the escape time is 0.
   */
  lemma EscapeCheckedFirst(z: Complex, c: Complex, m: nat)
    requires m == 0 || Escaped(z)
    ensures EscapeTime(z, c, m) == 0
  {
  }

  /**
   * A Mandelbrot orbit (from zero) is the orbit of `c` under `c` shifted by one
   * step, so its escape time is one more than that of `c` with one step less.
   */
  lemma MandelbrotShift(c: Complex, m: nat)
    ensures EscapeTime(Zero, c, m + 1) == 1 + EscapeTime(c, c, m)
  {
    assert Step(Zero, c) == c;
  }

  /**
   * Runs the escape-time loop from `(zx, zy)` under `(cx, cy)` with bound
   * `maxIterations` and returns the number of steps taken.
   */
  method IteratePoint(zx: real, zy: real, cx: real, cy: real, maxIterations: u32) returns (i: u32)
    ensures i <= maxIterations
    ensures forall k: nat :: k < i as nat ==> !Escaped(Orbit(Complex(zx, zy), Complex(cx, cy), k))
    ensures i < maxIterations ==> Escaped(Orbit(Complex(zx, zy), Complex(cx, cy), i as nat))
    ensures i as nat == EscapeTime(Complex(zx, zy), Complex(cx, cy), maxIterations as nat)
  {
    ghost var z0, c := Complex(zx, zy), Complex(cx, cy);
    var x, y := zx, zy;
    i := 0;
    while NormSq(x, y) <= 4.0 && i < maxIterations
      invariant i <= maxIterations
      decreases maxIterations - i
      invariant EscapeTime(z0, c, maxIterations as nat)
                == i as nat + EscapeTime(Complex(x, y), c, (maxIterations - i) as nat)
      invariant Complex(x, y) == Orbit(z0, c, i as nat)
    {
      ghost var rem := (maxIterations - i) as nat;
      ghost var next := Step(Complex(x, y), c);
      assert !Escaped(Complex(x, y)) && rem > 0;
      assert EscapeTime(Complex(x, y), c, rem) == 1 + EscapeTime(next, c, rem - 1);
      StepParts(x, y, cx, cy);
      var tmp := x * x - y * y + cx;
      y := 2.0 * x * y + cy;
      x := tmp;
      assert Complex(x, y) == next;
      OrbitSucc(z0, c, i as nat);
      i := i + 1;
    }
    EscapeCheckedFirst(Complex(x, y), c, (maxIterations - i) as nat);
  }
}
