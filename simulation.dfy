/**
 * The whole simulation state of the component and the three things that
 * change it besides the mount-time scatter: a wheel event, an animation frame
 * and the model-load callback.
 */
module Simulation {
  import opened Wrappers
  import opened Geometry
  import opened Buffers
  import opened Particles
  import opened Input

  /** Scroll progress scaled by this is the per-frame lerp factor. */
  const LerpRate: real := 0.05
  /** Sampling radius until the model reports its size. */
  const InitialParticleRadius: real := 1500.0
  /** Lower bound of the model's bounding dimension. */
  const MinModelDim: real := 10.0

  datatype Sim = Sim(store: Store, input: InputState, maxDim: real, particleRadius: real)

  /** The state the component starts with: zeroed buffers and 1000 active particles. */
  function InitialSim(): (s: Sim)
    ensures Valid(s.store) && s.store.count == InitialParticleCount
    ensures s.input == InitialInput && !s.input.lastDirection.Some?
    ensures s.particleRadius == InitialParticleRadius
    ensures s.maxDim == 0.0
    ensures forall j :: 0 <= j < 3 * MaxParticles ==>
      s.store.positions[j] == 0.0 && s.store.velocities[j] == 0.0 && s.store.targets[j] == 0.0
  {
    var zeros := seq(3 * MaxParticles, _ => 0.0);
    Sim(Store(zeros, zeros, zeros, InitialParticleCount), InitialInput, 0.0, InitialParticleRadius)
  }

  /** What every operation keeps. */
  predicate Inv(s: Sim) {
    && Valid(s.store)
    && VelocitiesSeeded(s.store)
    && Bounded(s.input)
    && InitialParticleCount <= s.store.count
  }

  /** handleScroll(event): re-scatter on a change to "up", update the scalars, then retarget. */
  function HandleScroll(s: Sim, delta: real, m: MathLib, draws: seq<SeedDraws>): (r: Sim)
    requires Valid(s.store) && s.store.count <= |draws|
    ensures Valid(r.store) && r.store.count == s.store.count
  {
    var scattered := if Rescatters(s.input, delta) then Regenerate(s.store, m, s.particleRadius, draws) else s.store;
    s.(store := UpdateTargets(scattered, s.maxDim), input := Scroll(s.input, delta))
  }

  /**
   * The store as the frame loop finds it: retargeted, then grown by GrowthStep,
   * each only while the model spins.
   */
  function Prepare(s: Sim, m: MathLib, draws: seq<SeedDraws>): (st: Store)
    requires Valid(s.store) && GrowthStep <= |draws|
    ensures Valid(st) && s.store.count <= st.count
  {
    var spinning := s.input.rotationSpeed > 0.0;
    var retargeted := if spinning then UpdateTargets(s.store, s.maxDim) else s.store;
    if spinning && retargeted.count < MaxParticles
    then AddParticles(retargeted, GrowthStep, m, s.particleRadius, draws)
    else retargeted
  }

  /** The per-frame lerp factor 0.05 * scrollProgress; in [0, 0.05] while the input is clamped. */
  function LerpFactor(scrollProgress: real): (f: real)
    ensures 0.0 <= scrollProgress <= 1.0 ==> 0.0 <= f <= LerpRate
  {
    LerpRate * scrollProgress
  }

  /** One animate() frame without the rendering calls. */
  function Tick(s: Sim, m: MathLib, draws: seq<SeedDraws>): (r: Sim)
    requires Valid(s.store) && GrowthStep <= |draws|
    ensures Valid(r.store) && s.store.count <= r.store.count
  {
    s.(store := Advance(Prepare(s, m, draws), LerpFactor(s.input.scrollProgress), m))
  }

  /** Math.max(size.x, size.y, size.z, 10) */
  function ModelDim(sx: real, sy: real, sz: real): (d: real)
    ensures d >= sx && d >= sy && d >= sz && d >= MinModelDim
    ensures d == sx || d == sy || d == sz || d == MinModelDim
  {
    var a := if sx > sy then sx else sy;
    var b := if a > sz then a else sz;
    if b > MinModelDim then b else MinModelDim
  }

  /** The arithmetic of the model-load callback: set maxDim and particleRadius, then retarget. */
  function Load(s: Sim, sx: real, sy: real, sz: real): (r: Sim)
    requires Valid(s.store)
    ensures Valid(r.store) && r.store.count == s.store.count && r.input == s.input
    ensures r.maxDim >= MinModelDim && r.particleRadius >= 1.5 * MinModelDim
  {
    var dim := ModelDim(sx, sy, sz);
    s.(maxDim := dim, particleRadius := dim * 1.5, store := UpdateTargets(s.store, dim))
  }

  lemma InitialSimInv()
    ensures Inv(InitialSim())
    ensures InitialSim().store.count == 1000
  {
  }

  /**
   * A wheel event keeps the count. On a change to "up" every active particle is
   * moved to a fresh scatter point with a seeded velocity; otherwise positions
   * and velocities are untouched. Either way every active target ends on the
   * anchor and inactive slots keep their values.
   */
  lemma HandleScrollEffect(s: Sim, delta: real, m: MathLib, draws: seq<SeedDraws>)
    requires Valid(s.store) && s.store.count <= |draws|
    ensures var r := HandleScroll(s, delta, m, draws);
      && r.store.count == s.store.count
      && r.input == Scroll(s.input, delta)
      && Bounded(r.input)
      && r.maxDim == s.maxDim && r.particleRadius == s.particleRadius
      && (forall k :: 0 <= k < s.store.count ==> VecAt(r.store.targets, k) == Anchor(s.maxDim))
      && (Rescatters(s.input, delta) ==> forall k :: 0 <= k < s.store.count ==>
            && VecAt(r.store.positions, k) == ScatterPoint(m, s.particleRadius, draws[k])
            && VecAt(r.store.velocities, k) == SeedVelocity(draws[k]))
      && (!Rescatters(s.input, delta) ==>
            r.store.positions == s.store.positions && r.store.velocities == s.store.velocities)
      && UnchangedOutside(s.store, r.store, 0, s.store.count)
  {
    var st := s.store;
    var scattered := if Rescatters(s.input, delta) then Regenerate(st, m, s.particleRadius, draws) else st;
    if Rescatters(s.input, delta) {
      RegenerateScattersActive(st, m, s.particleRadius, draws);
    }
    UpdateTargetsAnchorsActive(scattered, s.maxDim);
  }

  lemma HandleScrollKeepsInv(s: Sim, delta: real, m: MathLib, draws: seq<SeedDraws>)
    requires Inv(s) && s.store.count <= |draws| && AllUniform(draws)
    ensures Inv(HandleScroll(s, delta, m, draws))
  {
    var st := s.store;
    var scattered := if Rescatters(s.input, delta) then Regenerate(st, m, s.particleRadius, draws) else st;
    if Rescatters(s.input, delta) {
      RegenerateKeepsVelocitiesSeeded(st, m, s.particleRadius, draws);
    }
    UpdateTargetsAnchorsActive(scattered, s.maxDim);
  }

  /**
   * A frame grows the store by GrowthStep, clamped to capacity, exactly when
   * the model spins and the store is not full; otherwise the count is kept.
   */
  lemma TickGrowth(s: Sim, m: MathLib, draws: seq<SeedDraws>)
    requires Valid(s.store) && GrowthStep <= |draws|
    ensures var r := Tick(s, m, draws);
      && r.store.count == (if s.input.rotationSpeed > 0.0 then Min(s.store.count + GrowthStep, MaxParticles) else s.store.count)
      && (r.store.count > s.store.count <==> s.input.rotationSpeed > 0.0 && s.store.count < MaxParticles)
      && r.store.count <= MaxParticles
      && r.input == s.input
  {
    var spinning := s.input.rotationSpeed > 0.0;
    var retargeted := if spinning then UpdateTargets(s.store, s.maxDim) else s.store;
    if spinning && retargeted.count < MaxParticles {
      AddParticlesSeedsNewSlots(retargeted, GrowthStep, m, s.particleRadius, draws);
    }
  }

  /**
   * Before the frame loop, a particle that was already active keeps its
   * position and its velocity (its swirl angle); while the model spins it aims
   * at the anchor, and while it does not the store is left as it was.
   */
  lemma PrepareKeepsOldAt(s: Sim, m: MathLib, draws: seq<SeedDraws>, k: nat)
    requires Valid(s.store) && GrowthStep <= |draws| && k < s.store.count
    ensures VecAt(Prepare(s, m, draws).positions, k) == VecAt(s.store.positions, k)
    ensures VecAt(Prepare(s, m, draws).velocities, k) == VecAt(s.store.velocities, k)
    ensures s.input.rotationSpeed > 0.0 ==> VecAt(Prepare(s, m, draws).targets, k) == Anchor(s.maxDim)
    ensures s.input.rotationSpeed <= 0.0 ==> Prepare(s, m, draws) == s.store
  {
    if s.input.rotationSpeed > 0.0 {
      var retargeted := UpdateTargets(s.store, s.maxDim);
      UpdateTargetsAt(s.store, s.maxDim, k);
      if retargeted.count < MaxParticles {
        AddParticlesKeepsAt(retargeted, GrowthStep, m, s.particleRadius, draws, k);
      }
    }
  }

  /**
   * A frame moves a previously active particle by its own velocity from before
   * the frame: swirled in x/z by its y velocity, then lerped by
   * 0.05 * scrollProgress toward its target for this frame.
   */
  lemma TickMovesOldAt(s: Sim, m: MathLib, draws: seq<SeedDraws>, k: nat)
    requires Valid(s.store) && GrowthStep <= |draws| && k < s.store.count
    ensures var r := Tick(s, m, draws);
      VecAt(r.store.positions, k)
        == MoveParticle(m, VecAt(s.store.positions, k), s.store.velocities[3 * k + 1],
                        VecAt(r.store.targets, k), LerpFactor(s.input.scrollProgress))
    ensures s.input.rotationSpeed <= 0.0 ==>
      VecAt(Tick(s, m, draws).store.targets, k) == VecAt(s.store.targets, k)
  {
    var st := Prepare(s, m, draws);
    var f := LerpFactor(s.input.scrollProgress);
    PrepareKeepsOldAt(s, m, draws, k);
    AdvanceMovesAt(st, f, m, k);
    assert st.velocities[3 * k + 1] == VecAt(st.velocities, k).y;
    assert s.store.velocities[3 * k + 1] == VecAt(s.store.velocities, k).y;
  }

  /** Before the frame loop, a particle added by the growth step sits on its target. */
  lemma PrepareAddsOnTargetAt(s: Sim, m: MathLib, draws: seq<SeedDraws>, k: nat)
    requires Valid(s.store) && GrowthStep <= |draws| && s.store.count <= k < Prepare(s, m, draws).count
    ensures VecAt(Prepare(s, m, draws).positions, k) == VecAt(Prepare(s, m, draws).targets, k)
  {
    var retargeted := UpdateTargets(s.store, s.maxDim);
    AddParticlesOnTargetAt(retargeted, GrowthStep, m, s.particleRadius, draws, k);
  }

  /** Before the frame loop, nothing beyond the new count has changed. */
  lemma PrepareFrame(s: Sim, m: MathLib, draws: seq<SeedDraws>)
    requires Valid(s.store) && GrowthStep <= |draws|
    ensures UnchangedOutside(s.store, Prepare(s, m, draws), 0, Prepare(s, m, draws).count)
  {
    var spinning := s.input.rotationSpeed > 0.0;
    var retargeted := if spinning then UpdateTargets(s.store, s.maxDim) else s.store;
    if spinning {
      UpdateTargetsAnchorsActive(s.store, s.maxDim);
    }
    if spinning && retargeted.count < MaxParticles {
      AddParticlesSeedsNewSlots(retargeted, GrowthStep, m, s.particleRadius, draws);
    }
  }

  /**
   * A frame leaves every slot beyond the new count untouched and, while the
   * model spins, aims every previously active particle at the anchor.
   */
  lemma TickFrame(s: Sim, m: MathLib, draws: seq<SeedDraws>)
    requires Valid(s.store) && GrowthStep <= |draws|
    ensures UnchangedOutside(s.store, Tick(s, m, draws).store, 0, Tick(s, m, draws).store.count)
    ensures s.input.rotationSpeed > 0.0 ==> forall k :: 0 <= k < s.store.count ==>
      VecAt(Tick(s, m, draws).store.targets, k) == Anchor(s.maxDim)
  {
    var st := Prepare(s, m, draws);
    PrepareFrame(s, m, draws);
    AdvanceFrame(st, LerpFactor(s.input.scrollProgress), m);
    forall k | 0 <= k < s.store.count
      ensures s.input.rotationSpeed > 0.0 ==> VecAt(Tick(s, m, draws).store.targets, k) == Anchor(s.maxDim)
    {
      PrepareKeepsOldAt(s, m, draws, k);
    }
  }

  /**
   * In a frame with lerp factor f = 0.05 * scrollProgress, a particle that was
   * already active ends with its y distance to its (possibly retargeted)
   * target scaled by 1 - f, so that distance never grows.
   */
  lemma TickScalesYDistanceAt(s: Sim, m: MathLib, draws: seq<SeedDraws>, k: nat)
    requires Valid(s.store) && Bounded(s.input) && GrowthStep <= |draws| && k < s.store.count
    ensures var r := Tick(s, m, draws);
      Abs(VecAt(r.store.positions, k).y - VecAt(r.store.targets, k).y)
        == (1.0 - LerpFactor(s.input.scrollProgress)) * Abs(VecAt(s.store.positions, k).y - VecAt(r.store.targets, k).y)
    ensures var r := Tick(s, m, draws);
      Abs(VecAt(r.store.positions, k).y - VecAt(r.store.targets, k).y)
        <= Abs(VecAt(s.store.positions, k).y - VecAt(r.store.targets, k).y)
  {
    var f := LerpFactor(s.input.scrollProgress);
    PrepareAdvanceScalesAt(s, m, draws, k, f);
    assert Tick(s, m, draws).store == Advance(Prepare(s, m, draws), f, m);
  }

  /** TickScalesYDistanceAt for any lerp factor f in [0, 1]. */
  lemma PrepareAdvanceScalesAt(s: Sim, m: MathLib, draws: seq<SeedDraws>, k: nat, f: real)
    requires Valid(s.store) && GrowthStep <= |draws| && k < s.store.count && 0.0 <= f <= 1.0
    ensures var r := Advance(Prepare(s, m, draws), f, m);
      Abs(VecAt(r.positions, k).y - VecAt(r.targets, k).y)
        == (1.0 - f) * Abs(VecAt(s.store.positions, k).y - VecAt(r.targets, k).y)
    ensures var r := Advance(Prepare(s, m, draws), f, m);
      Abs(VecAt(r.positions, k).y - VecAt(r.targets, k).y)
        <= Abs(VecAt(s.store.positions, k).y - VecAt(r.targets, k).y)
  {
    assert VecAt(Prepare(s, m, draws).positions, k).y == VecAt(s.store.positions, k).y by {
      PrepareKeepsOldAt(s, m, draws, k);
    }
    AdvanceScalesYDistanceFrom(Prepare(s, m, draws), f, m, k, VecAt(s.store.positions, k));
  }

  /** TickScalesYDistanceAt for every previously active particle. */
  lemma TickScalesYDistance(s: Sim, m: MathLib, draws: seq<SeedDraws>)
    requires Valid(s.store) && Bounded(s.input) && GrowthStep <= |draws|
    ensures 0.0 <= LerpFactor(s.input.scrollProgress) <= LerpRate
    ensures var r := Tick(s, m, draws);
      forall k :: 0 <= k < s.store.count ==>
        Abs(VecAt(r.store.positions, k).y - VecAt(r.store.targets, k).y)
          <= Abs(VecAt(s.store.positions, k).y - VecAt(r.store.targets, k).y)
  {
    var r := Tick(s, m, draws);
    forall k | 0 <= k < s.store.count
      ensures Abs(VecAt(r.store.positions, k).y - VecAt(r.store.targets, k).y)
          <= Abs(VecAt(s.store.positions, k).y - VecAt(r.store.targets, k).y)
    {
      TickScalesYDistanceAt(s, m, draws, k);
    }
  }

  /** With scrollProgress = 0 a frame only swirls: every previously active particle keeps its y. */
  lemma TickAtRestKeepsHeight(s: Sim, m: MathLib, draws: seq<SeedDraws>)
    requires Valid(s.store) && GrowthStep <= |draws| && s.input.scrollProgress == 0.0
    ensures var r := Tick(s, m, draws);
      forall k :: 0 <= k < s.store.count ==> VecAt(r.store.positions, k).y == VecAt(s.store.positions, k).y
  {
    var st := Prepare(s, m, draws);
    assert LerpFactor(s.input.scrollProgress) == 0.0;
    forall k | 0 <= k < s.store.count
      ensures VecAt(Advance(st, 0.0, m).positions, k).y == VecAt(s.store.positions, k).y
    {
      PrepareKeepsOldAt(s, m, draws, k);
      AdvanceMovesAt(st, 0.0, m, k);
    }
  }

  /**
   * A frame keeps maxDim, particleRadius and the input state, and every
   * velocity slot of a previously active particle, so its swirl angle is the
   * same in the next frame.
   */
  lemma TickKeepsRest(s: Sim, m: MathLib, draws: seq<SeedDraws>)
    requires Valid(s.store) && GrowthStep <= |draws|
    ensures var r := Tick(s, m, draws);
      && r.maxDim == s.maxDim && r.particleRadius == s.particleRadius && r.input == s.input
      && (forall j :: 0 <= j < 3 * s.store.count ==> r.store.velocities[j] == s.store.velocities[j])
  {
    var spinning := s.input.rotationSpeed > 0.0;
    var retargeted := if spinning then UpdateTargets(s.store, s.maxDim) else s.store;
    if spinning {
      UpdateTargetsAnchorsActive(s.store, s.maxDim);
    }
    if spinning && retargeted.count < MaxParticles {
      AddParticlesSeedsNewSlots(retargeted, GrowthStep, m, s.particleRadius, draws);
    }
    assert Tick(s, m, draws).store.velocities == Prepare(s, m, draws).velocities;
  }

  /**
   * A particle added by a frame is seeded after the retarget, so its target
   * stays its scatter point; it gets the seeded velocity and is then moved
   * once from the scatter point by that velocity's y component.
   */
  lemma TickSeedsNewAt(s: Sim, m: MathLib, draws: seq<SeedDraws>, k: nat)
    requires Valid(s.store) && GrowthStep <= |draws| && s.store.count <= k < Tick(s, m, draws).store.count
    ensures var r := Tick(s, m, draws);
      var p := ScatterPoint(m, s.particleRadius, draws[k - s.store.count]);
      var v := SeedVelocity(draws[k - s.store.count]);
      && VecAt(r.store.targets, k) == p
      && VecAt(r.store.velocities, k) == v
      && VecAt(r.store.positions, k) == MoveParticle(m, p, v.y, p, LerpFactor(s.input.scrollProgress))
  {
    var st := Prepare(s, m, draws);
    var f := LerpFactor(s.input.scrollProgress);
    var retargeted := UpdateTargets(s.store, s.maxDim);
    AddParticlesOnTargetAt(retargeted, GrowthStep, m, s.particleRadius, draws, k);
    AdvanceMovesAt(st, f, m, k);
    assert st.velocities[3 * k + 1] == VecAt(st.velocities, k).y;
  }

  /** Particles added by a frame start on their targets and keep their y on them. */
  lemma TickAddsOnTarget(s: Sim, m: MathLib, draws: seq<SeedDraws>)
    requires Valid(s.store) && Bounded(s.input) && GrowthStep <= |draws|
    ensures var r := Tick(s, m, draws);
      forall k :: s.store.count <= k < r.store.count ==> VecAt(r.store.positions, k).y == VecAt(r.store.targets, k).y
  {
    var st := Prepare(s, m, draws);
    var f := LerpFactor(s.input.scrollProgress);
    var r := Advance(st, f, m);

    forall k | s.store.count <= k < r.count
      ensures VecAt(r.positions, k).y == VecAt(r.targets, k).y
    {
      PrepareAddsOnTargetAt(s, m, draws, k);
      AdvanceKeepsOnTargetAt(st, f, m, k);
    }
  }

  /** A frame keeps the invariant when the growth draws are Math.random() values. */
  lemma TickKeepsInv(s: Sim, m: MathLib, draws: seq<SeedDraws>)
    requires Inv(s) && GrowthStep <= |draws| && AllUniform(draws)
    ensures Inv(Tick(s, m, draws))
  {
    var spinning := s.input.rotationSpeed > 0.0;
    var retargeted := if spinning then UpdateTargets(s.store, s.maxDim) else s.store;
    if spinning {
      UpdateTargetsAnchorsActive(s.store, s.maxDim);
    }
    if spinning && retargeted.count < MaxParticles {
      AddParticlesKeepsVelocitiesSeeded(retargeted, GrowthStep, m, s.particleRadius, draws);
    }
  }

  /**
   * Loading the model sets maxDim to max(size.x, size.y, size.z, 10) and
   * particleRadius to 1.5 times it, retargets every active particle at the new
   * anchor, keeps everything else and keeps the invariant.
   */
  lemma LoadRescales(s: Sim, sx: real, sy: real, sz: real)
    requires Inv(s)
    ensures var r := Load(s, sx, sy, sz);
      && Inv(r)
      && r.maxDim == ModelDim(sx, sy, sz)
      && r.maxDim >= MinModelDim && r.particleRadius == 1.5 * r.maxDim
      && r.store.count == s.store.count
      && r.store.positions == s.store.positions
      && r.store.velocities == s.store.velocities
      && r.input == s.input
      && (forall k :: 0 <= k < r.store.count ==> VecAt(r.store.targets, k) == Anchor(r.maxDim))
      && (forall j :: 3 * s.store.count <= j < 3 * MaxParticles ==> r.store.targets[j] == s.store.targets[j])
  {
    UpdateTargetsAnchorsActive(s.store, ModelDim(sx, sy, sz));
  }
}
