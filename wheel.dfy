/**
 * The arithmetic of the spinning wheel in script.js: the cubic ease-out curve,
 * the animation progress, the random spin and player picks, and the settle
 * formula that turns the final rotation into a task position.
 * Angles are in degrees; the wheel draws task `i` of `n` from
 * `angle + i * 360 / n` to `angle + (i + 1) * 360 / n`, clockwise from the
 * canvas's 0° ray (3 o'clock).
 */
module Wheel {

  /** Length of one spin animation, in milliseconds. */
  const Duration: real := 2000.0

  /** The ease-out curve `(t - 1)^3 + 1`. */
  function EaseOut(t: real): (r: real)
    ensures t == 0.0 ==> r == 0.0
    ensures t == 1.0 ==> r == 1.0
  {
    var u := t - 1.0;
    u * u * u + 1.0
  }

  /** Multiplying by a non-negative factor keeps an inequality. */
  lemma MulLeq(a: real, b: real, c: real)
    requires a <= b && 0.0 <= c
    ensures a * c <= b * c
  {
  }

  /** Multiplying by a positive factor keeps a strict inequality. */
  lemma MulLess(a: real, b: real, c: real)
    requires a < b && 0.0 < c
    ensures a * c < b * c
  {
  }

  /** A fraction of a non-negative quantity lies between 0 and that quantity. */
  lemma FractionOf(a: real, c: real)
    requires 0.0 <= a <= 1.0 && 0.0 <= c
    ensures 0.0 <= a * c <= c
    ensures a < 1.0 && 0.0 < c ==> a * c < c
  {
    MulLeq(0.0, a, c);
    MulLeq(a, 1.0, c);
    if a < 1.0 && 0.0 < c { MulLess(a, 1.0, c); }
  }

  /** On the unit interval the curve stays in the unit interval. */
  lemma EaseOutBounds(t: real)
    requires 0.0 <= t <= 1.0
    ensures 0.0 <= EaseOut(t) <= 1.0
  {
    var p := 1.0 - t;
    MulLeq(0.0, p, p);
    MulLeq(p, 1.0, p);
    MulLeq(0.0, p * p, p);
    MulLeq(p * p, 1.0, p);
    assert (t - 1.0) * (t - 1.0) * (t - 1.0) == -(p * p * p);
  }

  /** The curve never goes backwards: the wheel only turns forward. */
  lemma EaseOutMonotone(s: real, t: real)
    requires s <= t
    ensures EaseOut(s) <= EaseOut(t)
  {
    var u, v := s - 1.0, t - 1.0;
    CubeGap(u, v);
    SumOfSquaresForm(u, v);
    MulLeq(0.0, v - u, v * v + u * v + u * u);
  }

  lemma CubeGap(u: real, v: real)
    ensures v * v * v - u * u * u == (v - u) * (v * v + u * v + u * u)
  {
  }

  lemma SumOfSquaresForm(u: real, v: real)
    ensures v * v + u * v + u * u >= 0.0
  {
    var c := v + u / 2.0;
    assert v * v + u * v + u * u == c * c + 3.0 * (u * u) / 4.0;
    if c < 0.0 { MulLeq(c, 0.0, -c); } else { MulLeq(0.0, c, c); }
    if u < 0.0 { MulLeq(u, 0.0, -u); } else { MulLeq(0.0, u, u); }
  }

  /**
   * How much further the curve rises over `[s, s + h]` than over `[t, t + h]`:
   * a polynomial whose sign gives the deceleration below.
   */
  lemma EaseOutGap(s: real, t: real, h: real)
    ensures (EaseOut(s + h) - EaseOut(s)) - (EaseOut(t + h) - EaseOut(t))
         == 3.0 * h * ((s - t) * (s + t + h - 2.0))
  {
  }

  /**
   * The curve decelerates: over equal stretches of progress `h`, a later
   * stretch turns the wheel no further than an earlier one.
   */
  lemma EaseOutDecelerates(s: real, t: real, h: real)
    requires 0.0 <= s <= t && 0.0 <= h && t + h <= 1.0
    ensures EaseOut(t + h) - EaseOut(t) <= EaseOut(s + h) - EaseOut(s)
  {
    EaseOutGap(s, t, h);
    GapNonNegative(s, t, h);
  }

  lemma GapNonNegative(s: real, t: real, h: real)
    requires 0.0 <= s <= t && 0.0 <= h && t + h <= 1.0
    ensures 3.0 * h * ((s - t) * (s + t + h - 2.0)) >= 0.0
  {
  }

  /** `Math.min((timestamp - start) / duration, 1)` for `elapsed = timestamp - start`. */
  function Progress(elapsed: real): (p: real)
    ensures p <= 1.0
    ensures p == 1.0 <==> elapsed >= Duration
    ensures 0.0 <= elapsed ==> 0.0 <= p
    ensures elapsed < Duration ==> p * Duration == elapsed
  {
    var x := elapsed / Duration;
    if x < 1.0 then x else 1.0
  }

  /**
   * Given the elapsed times of successive animation frames, the frame at
   * which the spin settles (the first whose progress reaches 1), or the
   * number of frames if none does.
   */
  function SettleFrame(elapsed: seq<real>): (k: nat)
    ensures k <= |elapsed|
    ensures forall j :: 0 <= j < k ==> Progress(elapsed[j]) < 1.0
    ensures k < |elapsed| ==> Progress(elapsed[k]) == 1.0
  {
    if elapsed == [] || elapsed[0] >= Duration then 0
    else 1 + SettleFrame(elapsed[1..])
  }

  /** `Math.random() * 360 + 720`: the total rotation of one spin. */
  function SpinAngle(rand: real): (a: real)
    requires 0.0 <= rand < 1.0
    ensures 720.0 <= a < 1080.0
  {
    rand * 360.0 + 720.0
  }

  /** `Math.floor(Math.random() * n)`: a random position in a list of length `n`. */
  function RandomIndex(rand: real, n: nat): (i: int)
    requires 0.0 <= rand < 1.0 && n > 0
    ensures 0 <= i < n
  {
    var x := rand * n as real;
    FractionOf(rand, n as real);
    assert x < n as real;
    assert x.Floor as real <= x;
    assert x.Floor as real < n as real;
    assert x.Floor < n;
    x.Floor
  }

  /** Every position can be picked: each has a random value that yields it. */
  lemma RandomIndexOnto(i: nat, n: nat)
    requires i < n
    ensures 0.0 <= i as real / n as real < 1.0
    ensures RandomIndex(i as real / n as real, n) == i
  {
  }

  /** JavaScript's `a % 360` for a non-negative angle. */
  function Mod360(a: real): (m: real)
    requires a >= 0.0
    ensures 0.0 <= m < 360.0
  {
    a - 360.0 * (a / 360.0).Floor as real
  }

  /** The remainder is the only angle in [0, 360) that differs from `a` by whole turns. */
  lemma Mod360Unique(a: real, turns: int, m: real)
    requires a >= 0.0 && 0.0 <= m < 360.0 && a == 360.0 * turns as real + m
    ensures Mod360(a) == m
  {
    assert a / 360.0 == turns as real + m / 360.0;
    assert (a / 360.0).Floor == turns;
  }

  /**
   * The settle formula `n - Math.floor(((angle % 360) / 360) * n) - 1`: the
   * position of the task the wheel stops on, or -1 when the list is empty.
   */
  function SettleIndex(n: nat, angle: real): (i: int)
    requires angle >= 0.0
    ensures n >= 1 ==> 0 <= i < n
    ensures n == 0 ==> i == -1
  {
    var y := Mod360(angle) / 360.0 * n as real;
    FractionOf(Mod360(angle) / 360.0, n as real);
    assert y.Floor as real <= y;
    n - y.Floor - 1
  }

  /** Task `i`'s wedge, drawn at rotation residue `m`, covers the 0° ray (taken as 360°). */
  predicate WedgeCovers(n: nat, m: real, i: int)
    requires n >= 1
  {
    var w := 360.0 / n as real;
    m + i as real * w < 360.0 <= m + (i + 1) as real * w
  }

  /** For positive `w`: `c * w` compares with `m` as `c` does with `m / w`. */
  lemma ScaleCompare(m: real, c: real, w: real)
    requires w > 0.0
    ensures m < c * w <==> m / w < c
    ensures c * w <= m <==> c <= m / w
  {
  }

  /**
   * The settled position is exactly the task whose drawn wedge covers the
   * 0° ray: each wedge includes its far edge and excludes its near edge, so a
   * rotation on a boundary resolves to one wedge only.
   */
  lemma SettleIndexCovers(n: nat, angle: real, i: int)
    requires n >= 1 && angle >= 0.0 && 0 <= i < n
    ensures SettleIndex(n, angle) == i <==> WedgeCovers(n, Mod360(angle), i)
  {
    var m := Mod360(angle);
    var w := 360.0 / n as real;
    var y := m / 360.0 * n as real;
    assert y == m / w;
    ScaleCompare(m, (n - i) as real, w);
    ScaleCompare(m, (n - i - 1) as real, w);
    assert m + i as real * w < 360.0 <==> m < (n - i) as real * w;
    assert 360.0 <= m + (i + 1) as real * w <==> (n - i - 1) as real * w <= m;
  }
}
