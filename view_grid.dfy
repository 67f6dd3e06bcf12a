/** The J x I grid of viewpoints: theta (index j) wraps around horizontally,
    phi (index i) is closed at both poles, where a vertical step turns into
    a half-turn in theta. */
module ViewGrid {
  import opened Common

  /** The grid shape the engine works on; J must be even so that the
      half-turn J / 2 is a whole number of views. */
  predicate ValidShape(J: int, I: int) {
    J >= 2 && J % 2 == 0 && I >= 1
  }

  predicate InGrid(J: int, I: int, j: int, i: int) {
    0 <= j < J && 0 <= i < I
  }

  /** `j += delta`, then one correction of J back into range. */
  function WrapTheta(j: int, delta: int, J: int): (r: int)
    requires 0 <= j < J && -1 <= delta <= 1
    ensures 0 <= r < J
    ensures r == (j + delta) % J
  {
    var k := j + delta;
    if k >= J then
      ModUnique(k, J, 1, k - J);
      k - J
    else if k < 0 then
      ModUnique(k, J, -1, k + J);
      k + J
    else
      ModUnique(k, J, 0, k);
      k
  }

  /** `j += J / 2`, then one correction of J back into range. */
  function HalfTurn(j: int, J: int): (r: int)
    requires 0 <= j < J && J % 2 == 0
    ensures 0 <= r < J
    ensures r == (j + J / 2) % J
  {
    var k := j + J / 2;
    if k >= J then
      ModUnique(k, J, 1, k - J);
      k - J
    else
      ModUnique(k, J, 0, k);
      k
  }

  datatype View = View(j: int, i: int)

  /** One tick's movement: the pending theta step `delta` first, then the
      pending phi step `lambda`; a phi step that leaves [0, I) is undone and
      replaced by a half-turn in theta. */
  function Step(v: View, delta: int, lambda: int, J: int, I: int): (r: View)
    requires ValidShape(J, I) && InGrid(J, I, v.j, v.i)
    requires -1 <= delta <= 1 && -1 <= lambda <= 1
    ensures InGrid(J, I, r.j, r.i)
  {
    var j1 := if delta != 0 then WrapTheta(v.j, delta, J) else v.j;
    if lambda == 0 then View(j1, v.i)
    else if 0 <= v.i + lambda < I then View(j1, v.i + lambda)
    else View(HalfTurn(j1, J), v.i)
  }

  /** A tick moves the view exactly when some step is pending. */
  function Moved(delta: int, lambda: int): bool {
    delta != 0 || lambda != 0
  }

  /** A theta step is undone by the opposite step. */
  lemma WrapThetaInverse(j: int, delta: int, J: int)
    requires 0 <= j < J && -1 <= delta <= 1
    ensures WrapTheta(WrapTheta(j, delta, J), -delta, J) == j
  {
  }

  /** Two half-turns bring the view back to where it was. */
  lemma HalfTurnInvolution(j: int, J: int)
    requires 0 <= j < J && J % 2 == 0
    ensures HalfTurn(HalfTurn(j, J), J) == j
  {
  }

  /** Repeating a theta step n times lands on (j + n * delta) mod J. */
  function WrapThetaTimes(j: int, delta: int, J: int, n: nat): (r: int)
    requires 0 <= j < J && -1 <= delta <= 1
    ensures 0 <= r < J
  {
    if n == 0 then j else WrapTheta(WrapThetaTimes(j, delta, J, n - 1), delta, J)
  }

  lemma {:induction false} WrapThetaTimesIsMod(j: int, delta: int, J: int, n: nat)
    requires 0 <= j < J && -1 <= delta <= 1
    ensures WrapThetaTimes(j, delta, J, n) == (j + n * delta) % J
  {
    if n > 0 {
      WrapThetaTimesIsMod(j, delta, J, n - 1);
      var p := WrapThetaTimes(j, delta, J, n - 1);
      ModAddStep(j + (n - 1) * delta, delta, J);
    }
  }

  lemma ModAddStep(a: int, d: int, J: int)
    requires J > 0
    ensures ((a % J) + d) % J == (a + d) % J
  {
    var q, r := a / J, a % J;
    var q2, r2 := (r + d) / J, (r + d) % J;
    assert a + d == (q + q2) * J + r2 by {
      assert a == q * J + r;
      assert r + d == q2 * J + r2;
      assert (q + q2) * J == q * J + q2 * J;
    }
    ModUnique(a + d, J, q + q2, r2);
  }

  /** A full horizontal turn (J steps the same way) is the identity. */
  lemma FullTurnIsIdentity(j: int, delta: int, J: int)
    requires 0 <= j < J && -1 <= delta <= 1
    ensures WrapThetaTimes(j, delta, J, J) == j
  {
    WrapThetaTimesIsMod(j, delta, J, J);
    assert j + J * delta == j + delta * J;
    ModMultiple(j, delta, J);
  }

  lemma ModMultiple(j: int, k: int, J: int)
    requires 0 <= j < J
    ensures (j + k * J) % J == j
  {
    ModUnique(j + k * J, J, k, j);
  }

  /** Stepping past a pole keeps phi at the pole and turns theta by half. */
  lemma PoleCompensation(v: View, delta: int, lambda: int, J: int, I: int)
    requires ValidShape(J, I) && InGrid(J, I, v.j, v.i)
    requires -1 <= delta <= 1 && (lambda == -1 || lambda == 1)
    requires !(0 <= v.i + lambda < I)
    ensures Step(v, delta, lambda, J, I).i == v.i
    ensures Step(v, delta, lambda, J, I).j == (v.j + delta + J / 2) % J
  {
    var j1 := if delta != 0 then WrapTheta(v.j, delta, J) else v.j;
    assert j1 == (v.j + delta) % J by {
      if delta == 0 {
        ModUnique(v.j, J, 0, v.j);
      }
    }
    ModAddStep(v.j + delta, J / 2, J);
  }

  /** Inside the grid a phi step moves phi and leaves theta to delta alone. */
  lemma InteriorPhiStep(v: View, delta: int, lambda: int, J: int, I: int)
    requires ValidShape(J, I) && InGrid(J, I, v.j, v.i)
    requires -1 <= delta <= 1 && -1 <= lambda <= 1
    requires 0 <= v.i + lambda < I
    ensures Step(v, delta, lambda, J, I) == View((v.j + delta) % J, v.i + lambda)
  {
    if delta == 0 {
      ModUnique(v.j, J, 0, v.j);
    }
  }
}
