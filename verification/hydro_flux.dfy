/** What the pieces of the shallow-water step mean on their own: the interface flux is that of
    the shallow-water equations, a cell's momentum is moved exactly, and relaxation contracts
    towards the wind-driven equilibrium. */
module HydroFlux {
  import opened Roots
  import opened HydroKernel

  // ---- the flux ----

  /** Flux of depth and of momentum in the shallow-water equations. */
  function PhysicalFlux(h: real, u: real, g: real): Flux { Flux(h * u, u * (h * u) + g * (h * h) / 2.0) }

  /** Between equal wet states the flux is the physical one. */
  lemma FluxIsConsistent(root: real -> real, h: real, u: real, g: real)
    requires h >= H_DRY
    ensures Rusanov(root, h, u, h, u, g) == PhysicalFlux(h, u, g)
  {
  }

  lemma MirroredMass(hL: real, uL: real, hR: real, uR: real, s: real)
    ensures MassFlux(hR, -uR, hL, -uL, s) == -MassFlux(hL, uL, hR, uR, s)
  {
  }

  lemma MirroredMomentum(hL: real, uL: real, hR: real, uR: real, g: real, s: real)
    ensures MomentumFlux(hR, -uR, hL, -uL, g, s) == MomentumFlux(hL, uL, hR, uR, g, s)
  {
    MomFluxIsEven(hL, uL, g);
    MomFluxIsEven(hR, uR, g);
    assert hL * -uL - hR * -uR == hR * uR - hL * uL;
  }

  lemma SpeedMirrors(root: real -> real, hL: real, uL: real, hR: real, uR: real, g: real)
    ensures FaceSpeed(root, hR, -uR, hL, -uL, g) == FaceSpeed(root, hL, uL, hR, uR, g)
  {
  }

  lemma MomFluxIsEven(h: real, u: real, g: real)
    ensures MomFlux(h, -u, g) == MomFlux(h, u, g)
  {
  }

  lemma VelocityMirrors(h: real, u: real)
    ensures EffectiveVelocity(h, -u) == -EffectiveVelocity(h, u)
  {
  }

  /** Seen in a mirror the water crosses the other way under the same pressure. */
  lemma FluxMirrors(root: real -> real, hL: real, uL: real, hR: real, uR: real, g: real)
    ensures var f := Rusanov(root, hL, uL, hR, uR, g);
            Rusanov(root, hR, -uR, hL, -uL, g) == Flux(-f.mass, f.mom)
  {
    var dL, dR := Max(hL, 0.0), Max(hR, 0.0);
    var a, b := EffectiveVelocity(dL, uL), EffectiveVelocity(dR, uR);
    var s := FaceSpeed(root, dL, a, dR, b, g);
    VelocityMirrors(dL, uL);
    VelocityMirrors(dR, uR);
    SpeedMirrors(root, dL, a, dR, b, g);
    MirroredMass(dL, a, dR, b, s);
    MirroredMomentum(dL, a, dR, b, g, s);
  }

  // ---- the cell ----

  /** A cell that stays wet carries exactly the momentum the faces leave it, along the sweep axis
      only; one that dries carries none. */
  lemma CellMovesMomentum(still: real, c: Cell, dt: real, dx: real, plus: Flux, minus: Flux, alongN: bool)
    requires still > 0.0
    ensures var n := UpdatedCell(still, c, dt, dx, plus, minus, alongN);
            var h0 := Max(c.h, 0.0);
            var u0, u1 := if alongN then c.un else c.ue, if alongN then n.un else n.ue;
            && (n.h >= H_DRY ==> n.h * u1 == Moved(h0 * u0, Courant(dt, dx), plus.mom, minus.mom))
            && (n.h < H_DRY ==> u1 == 0.0)
            && (if alongN then n.ue == c.ue else n.un == c.un)
  {
  }

  // ---- relaxation ----

  /** Velocity at which wind stress and Rayleigh friction balance. */
  function Equilibrium(h: real, wind: real): real { WIND_COEFF * wind / Max(h, H_DRY) / FRICTION }

  lemma Push(dt: real, wind: real, h: real)
    requires h > 0.0
    ensures dt * WIND_COEFF * wind / h == dt * (FRICTION * (WIND_COEFF * wind / h / FRICTION))
  {
  }

  /** Each relaxation takes both velocities of a wet cell towards that balance, by a factor of
      exactly 1 / (1 + 0.08 dt), and leaves the depth alone. */
  lemma RelaxationContracts(still: real, c: Cell, dt: real, windN: real, windE: real)
    requires still > 0.0 && dt >= 0.0
    ensures var n := SourcedCell(still, c, dt, windN, windE);
            var damp := 1.0 / (1.0 + dt * FRICTION);
            && n.h == c.h
            && n.un - Equilibrium(c.h, windN) == (c.un - Equilibrium(c.h, windN)) * damp
            && n.ue - Equilibrium(c.h, windE) == (c.ue - Equilibrium(c.h, windE)) * damp
  {
  }
}
