/** Euler's equations on principal axes, stepped explicitly.  The gyroscopic terms do no work
    and turn no angular momentum into length, so along a torque-free run the explicit step can
    only add energy and angular momentum, and adds exactly its own second-order terms. */
module Euler {
  import opened Roots
  import opened Vectors

  const MIN_PRINCIPAL: real := 0.000000001

  predicate Steppable(inertia: Vec, dt: real) {
    0.0 < dt < 1.0 && inertia.x >= MIN_PRINCIPAL && inertia.y >= MIN_PRINCIPAL && inertia.z >= MIN_PRINCIPAL
  }

  /** Angular acceleration about one principal axis. */
  function AxisRate(torque: real, i: real, ij: real, ik: real, wj: real, wk: real): real
    requires i > 0.0
  {
    (torque + (ij - ik) * wj * wk) / i
  }

  function Rate(omega: Vec, torque: Vec, inertia: Vec): Vec
    requires inertia.x > 0.0 && inertia.y > 0.0 && inertia.z > 0.0
  {
    Vec(AxisRate(torque.x, inertia.x, inertia.y, inertia.z, omega.y, omega.z),
        AxisRate(torque.y, inertia.y, inertia.z, inertia.x, omega.z, omega.x),
        AxisRate(torque.z, inertia.z, inertia.x, inertia.y, omega.x, omega.y))
  }

  function EulerStep(omega: Vec, torque: Vec, inertia: Vec, dt: real): Vec {
    if !Steppable(inertia, dt) then omega else Add(omega, Times(dt, Rate(omega, torque, inertia)))
  }

  /** Inertia times a vector, axis by axis. */
  function Weigh(inertia: Vec, v: Vec): Vec { Vec(inertia.x * v.x, inertia.y * v.y, inertia.z * v.z) }

  function SpinEnergy(inertia: Vec, omega: Vec): real { 0.5 * Dot(Weigh(inertia, omega), omega) }

  /** Squared length of the angular momentum. */
  function Momentum2(inertia: Vec, omega: Vec): real { Dot(Weigh(inertia, omega), Weigh(inertia, omega)) }

  // ---- one step ----

  lemma AxisEquation(torque: real, i: real, j: real, k: real, wj: real, wk: real)
    requires i > 0.0
    ensures i * AxisRate(torque, i, j, k, wj, wk) + (wj * (k * wk) - wk * (j * wj)) == torque
  {
  }

  lemma CrossIsAcross(a: Vec, b: Vec)
    ensures Dot(Cross(a, b), a) == 0.0 && Dot(Cross(a, b), b) == 0.0
  {
  }

  lemma WeighIsSymmetric(inertia: Vec, u: Vec, v: Vec)
    ensures Dot(Weigh(inertia, u), v) == Dot(Weigh(inertia, v), u)
  {
  }

  lemma VectorEquation(omega: Vec, torque: Vec, inertia: Vec)
    requires inertia.x > 0.0 && inertia.y > 0.0 && inertia.z > 0.0
    ensures Add(Weigh(inertia, Rate(omega, torque, inertia)), Cross(omega, Weigh(inertia, omega))) == torque
  {
    AxisEquation(torque.x, inertia.x, inertia.y, inertia.z, omega.y, omega.z);
    AxisEquation(torque.y, inertia.y, inertia.z, inertia.x, omega.z, omega.x);
    AxisEquation(torque.z, inertia.z, inertia.x, inertia.y, omega.x, omega.y);
  }

  lemma GyroIsIdle(omega: Vec, l: Vec, push: Vec, torque: Vec)
    requires Add(push, Cross(omega, l)) == torque
    ensures Dot(push, omega) == Dot(torque, omega) && Dot(l, push) == Dot(l, torque)
  {
    CrossIsAcross(omega, l);
    DotAdd(push, Cross(omega, l), omega);
    DotAdd(push, Cross(omega, l), l);
    DotSymmetric(l, Cross(omega, l));
  }

  /** Euler's equation as a vector law, I a + omega x I omega = torque. The gyroscopic term lies across both
      spin and angular momentum, so it does no work and changes no length. */
  lemma RateObeysEuler(omega: Vec, torque: Vec, inertia: Vec)
    requires inertia.x > 0.0 && inertia.y > 0.0 && inertia.z > 0.0
    ensures var a, l := Rate(omega, torque, inertia), Weigh(inertia, omega);
            && Add(Weigh(inertia, a), Cross(omega, l)) == torque
            && Dot(l, a) == Dot(torque, omega)
            && Dot(l, Weigh(inertia, a)) == Dot(l, torque)
  {
    var a, l := Rate(omega, torque, inertia), Weigh(inertia, omega);
    VectorEquation(omega, torque, inertia);
    GyroIsIdle(omega, l, Weigh(inertia, a), torque);
    WeighIsSymmetric(inertia, omega, a);
  }

  lemma Isolate(a: Vec, b: Vec, c: Vec)
    requires Add(a, b) == c
    ensures a == Sub(c, b)
  {
  }

  lemma WeighAhead(inertia: Vec, omega: Vec, k: real, a: Vec)
    ensures Weigh(inertia, Add(omega, Times(k, a))) == Add(Weigh(inertia, omega), Times(k, Weigh(inertia, a)))
  {
  }

  /** What one step does to the angular momentum, as a vector on the body's axes: it moves it by dt times
      the torque less its own precession. */
  lemma StepTurnsMomentum(omega: Vec, torque: Vec, inertia: Vec, dt: real)
    requires Steppable(inertia, dt)
    ensures Weigh(inertia, EulerStep(omega, torque, inertia, dt))
         == Add(Weigh(inertia, omega), Times(dt, Sub(torque, Cross(omega, Weigh(inertia, omega)))))
  {
    var a := Rate(omega, torque, inertia);
    RateObeysEuler(omega, torque, inertia);
    Isolate(Weigh(inertia, a), Cross(omega, Weigh(inertia, omega)), torque);
    WeighAhead(inertia, omega, dt, a);
  }

  lemma DotOfAhead(p: Vec, u: Vec, k: real, v: Vec)
    ensures Dot(p, Add(u, Times(k, v))) == Dot(p, u) + Mul(k, Dot(p, v))
    ensures Dot(Add(u, Times(k, v)), p) == Dot(u, p) + Mul(k, Dot(v, p))
  {
    DotAdd(u, Times(k, v), p);
    DotTimes(k, v, p);
  }

  lemma MulAdds(k: real, a: real, b: real)
    ensures Mul(k, a + b) == Mul(k, a) + Mul(k, b)
  {
  }

  /** (p + k q) . (u + k v) */
  lemma DotAhead(p: Vec, q: Vec, u: Vec, v: Vec, k: real)
    ensures Dot(Add(p, Times(k, q)), Add(u, Times(k, v)))
         == Dot(p, u) + Mul(k, Dot(p, v) + Dot(q, u)) + Mul(k, Mul(k, Dot(q, v)))
  {
    DotOfAhead(Add(u, Times(k, v)), p, k, q);
    DotOfAhead(p, u, k, v);
    DotOfAhead(q, u, k, v);
    MulAdds(k, Dot(q, u), Mul(k, Dot(q, v)));
    MulAdds(k, Dot(p, v), Dot(q, u));
  }

  /** One step adds the work of the torque and a second-order term that is never negative. */
  lemma StepEnergy(omega: Vec, torque: Vec, inertia: Vec, dt: real)
    requires Steppable(inertia, dt)
    ensures var a := Rate(omega, torque, inertia);
            SpinEnergy(inertia, EulerStep(omega, torque, inertia, dt))
              == SpinEnergy(inertia, omega) + Mul(dt, Dot(torque, omega)) + Mul(dt, Mul(dt, SpinEnergy(inertia, a)))
  {
    var a := Rate(omega, torque, inertia);
    RateObeysEuler(omega, torque, inertia);
    WeighAhead(inertia, omega, dt, a);
    DotAhead(Weigh(inertia, omega), Weigh(inertia, a), omega, a, dt);
    WeighIsSymmetric(inertia, a, omega);
    var work, second := Dot(torque, omega), Dot(Weigh(inertia, a), a);
    assert 0.5 * Mul(dt, work + work) == Mul(dt, work);
    assert 0.5 * Mul(dt, Mul(dt, second)) == Mul(dt, Mul(dt, 0.5 * second));
  }

  lemma StepMomentum(omega: Vec, torque: Vec, inertia: Vec, dt: real)
    requires Steppable(inertia, dt)
    ensures var a := Rate(omega, torque, inertia);
            Momentum2(inertia, EulerStep(omega, torque, inertia, dt))
              == Momentum2(inertia, omega) + 2.0 * Mul(dt, Dot(Weigh(inertia, omega), torque))
                 + Mul(dt, Mul(dt, Momentum2(inertia, a)))
  {
    var a := Rate(omega, torque, inertia);
    var p, q := Weigh(inertia, omega), Weigh(inertia, a);
    RateObeysEuler(omega, torque, inertia);
    WeighAhead(inertia, omega, dt, a);
    DotAhead(p, q, p, q, dt);
    DotSymmetric(p, q);
    assert Mul(dt, Dot(p, torque) + Dot(p, torque)) == 2.0 * Mul(dt, Dot(p, torque));
  }

  // ---- runs ----

  /** A torque-free run over a list of time steps. */
  function FreeRun(omega: Vec, inertia: Vec, steps: seq<real>): Vec {
    if |steps| == 0 then omega
    else EulerStep(FreeRun(omega, inertia, steps[..|steps| - 1]), ZERO, inertia, steps[|steps| - 1])
  }

  lemma EnergyIsPositive(inertia: Vec, v: Vec)
    requires inertia.x > 0.0 && inertia.y > 0.0 && inertia.z > 0.0
    ensures SpinEnergy(inertia, v) >= 0.0 && Momentum2(inertia, v) >= 0.0
    ensures SpinEnergy(inertia, v) == 0.0 ==> v == ZERO
    ensures Momentum2(inertia, v) == 0.0 ==> v == ZERO
  {
    AxisEnergy(inertia.x, v.x);
    AxisEnergy(inertia.y, v.y);
    AxisEnergy(inertia.z, v.z);
    var l := Weigh(inertia, v);
    SumVanishes(l.x * v.x, l.y * v.y, l.z * v.z);
    SumVanishes(l.x * l.x, l.y * l.y, l.z * l.z);
  }

  lemma SumVanishes(a: real, b: real, c: real)
    requires a >= 0.0 && b >= 0.0 && c >= 0.0
    ensures a + b + c >= 0.0 && (a + b + c == 0.0 ==> a == 0.0 && b == 0.0 && c == 0.0)
  {
  }

  lemma AxisEnergy(i: real, w: real)
    requires i > 0.0
    ensures (i * w) * w >= 0.0 && (i * w) * (i * w) >= 0.0
    ensures w != 0.0 ==> (i * w) * w > 0.0 && (i * w) * (i * w) > 0.0
  {
    if w == 0.0 {
      assert i * w == 0.0;
    } else {
      SquareSign(w);
      ProductSign(i, w * w);
      assert (i * w) * w == i * (w * w);
      assert i * w != 0.0;
      SquareSign(i * w);
    }
  }

  lemma SecondOrder(dt: real, e: real)
    requires dt > 0.0 && e >= 0.0
    ensures Mul(dt, Mul(dt, e)) >= 0.0
    ensures Mul(dt, Mul(dt, e)) == 0.0 ==> e == 0.0
  {
    ProductSign(dt, e);
    ProductSign(dt, Mul(dt, e));
  }

  /** A torque-free step never loses energy or angular momentum, and keeps either only by
      changing nothing at all. */
  lemma FreeStepGains(omega: Vec, inertia: Vec, dt: real)
    ensures var next := EulerStep(omega, ZERO, inertia, dt);
            && SpinEnergy(inertia, next) >= SpinEnergy(inertia, omega)
            && Momentum2(inertia, next) >= Momentum2(inertia, omega)
            && (SpinEnergy(inertia, next) == SpinEnergy(inertia, omega) <==> next == omega)
            && (Momentum2(inertia, next) == Momentum2(inertia, omega) <==> next == omega)
  {
    if Steppable(inertia, dt) {
      var a := Rate(omega, ZERO, inertia);
      StepEnergy(omega, ZERO, inertia, dt);
      StepMomentum(omega, ZERO, inertia, dt);
      NoTorque(omega, Weigh(inertia, omega), dt);
      EnergyIsPositive(inertia, a);
      SecondOrder(dt, SpinEnergy(inertia, a));
      SecondOrder(dt, Momentum2(inertia, a));
      if a == ZERO {
        StandStill(omega, dt);
      }
    }
  }

  lemma NoTorque(omega: Vec, p: Vec, dt: real)
    ensures Mul(dt, Dot(ZERO, omega)) == 0.0 && Mul(dt, Dot(p, ZERO)) == 0.0
  {
  }

  lemma StandStill(omega: Vec, dt: real)
    ensures Add(omega, Times(dt, ZERO)) == omega
  {
  }

  /** Along a whole torque-free run energy and angular momentum never fall, and a run that
      ends with the energy it began with never turned the body's spin at any step. */
  lemma {:induction false} FreeRunGains(omega: Vec, inertia: Vec, steps: seq<real>)
    ensures var last := FreeRun(omega, inertia, steps);
            && SpinEnergy(inertia, last) >= SpinEnergy(inertia, omega)
            && Momentum2(inertia, last) >= Momentum2(inertia, omega)
            && (SpinEnergy(inertia, last) == SpinEnergy(inertia, omega) <==> last == omega)
            && (Momentum2(inertia, last) == Momentum2(inertia, omega) <==> last == omega)
  {
    if |steps| > 0 {
      var before := FreeRun(omega, inertia, steps[..|steps| - 1]);
      FreeRunGains(omega, inertia, steps[..|steps| - 1]);
      FreeStepGains(before, inertia, steps[|steps| - 1]);
    }
  }

  lemma {:induction false} FreeRunStandsStill(omega: Vec, inertia: Vec, steps: seq<real>, k: nat)
    requires k <= |steps| && FreeRun(omega, inertia, steps) == omega
    ensures FreeRun(omega, inertia, steps[..k]) == omega
    decreases |steps|
  {
    if k < |steps| {
      var rest := steps[..|steps| - 1];
      var before := FreeRun(omega, inertia, rest);
      FreeRunGains(omega, inertia, rest);
      FreeStepGains(before, inertia, steps[|steps| - 1]);
      assert before == omega;
      assert rest[..k] == steps[..k];
      FreeRunStandsStill(omega, inertia, rest, k);
    } else {
      assert steps[..k] == steps;
    }
  }
}
