/**
 * The fixed-capacity particle store and the three operations that rewrite it:
 * growth (addParticles), full re-scatter (regenerateInitialPositions) and
 * retargeting (updateTargetPositions), plus the per-particle pass of one frame.
 * Each is a function of the old store; StarModel runs them in place.
 */
module Particles {
  import opened Geometry
  import opened Buffers

  /** Capacity of the three buffers, in particles. */
  const MaxParticles: nat := 300000
  /** Active particles at start-up. */
  const InitialParticleCount: nat := 1000
  /** Particles added per frame while the model spins. */
  const GrowthStep: nat := 20

  /**
   * Positions, velocities and target positions (three slots per particle) and
   * the active-prefix length `currentParticleCount`.
   */
  datatype Store = Store(positions: seq<real>, velocities: seq<real>, targets: seq<real>, count: nat)

  predicate Valid(st: Store) {
    && |st.positions| == 3 * MaxParticles
    && |st.velocities| == 3 * MaxParticles
    && |st.targets| == 3 * MaxParticles
    && st.count <= MaxParticles
  }

  /** Every velocity slot of an active particle was seeded, so lies in [-0.01, 0.01). */
  predicate VelocitiesSeeded(st: Store)
    requires Valid(st)
  {
    forall j :: 0 <= j < 3 * st.count ==> InVelocityRange(st.velocities[j])
  }

  predicate AllUniform(draws: seq<SeedDraws>) {
    forall i :: 0 <= i < |draws| ==> Uniform(draws[i])
  }

  function Min(a: nat, b: nat): nat {
    if a < b then a else b
  }

  function Points(m: MathLib, radius: real, draws: seq<SeedDraws>): (ps: seq<Vec3>)
    ensures |ps| == |draws|
  {
    seq(|draws|, i requires 0 <= i < |draws| => ScatterPoint(m, radius, draws[i]))
  }

  function Velocities(draws: seq<SeedDraws>): (vs: seq<Vec3>)
    ensures |vs| == |draws|
  {
    seq(|draws|, i requires 0 <= i < |draws| => SeedVelocity(draws[i]))
  }

  /**
   * Seeds particles [lo, lo + |draws|) from the draws: position and target both
   * get the scatter point, velocity the seeded velocity.
   */
  function Seed(st: Store, lo: nat, m: MathLib, radius: real, draws: seq<SeedDraws>): (r: Store)
    requires Valid(st) && lo + |draws| <= MaxParticles
    ensures Valid(r)
  {
    var pts := Points(m, radius, draws);
    st.(positions := Overwrite(st.positions, lo, pts),
        velocities := Overwrite(st.velocities, lo, Velocities(draws)),
        targets := Overwrite(st.targets, lo, pts))
  }

  /** addParticles(num): activate up to num more particles, seeding only the new ones. */
  function AddParticles(st: Store, num: nat, m: MathLib, radius: real, draws: seq<SeedDraws>): (r: Store)
    requires Valid(st) && num <= |draws|
    ensures Valid(r) && st.count <= r.count
  {
    var newCount := Min(st.count + num, MaxParticles);
    Seed(st, st.count, m, radius, draws[..newCount - st.count]).(count := newCount)
  }

  /** regenerateInitialPositions(): re-seed every active particle. */
  function Regenerate(st: Store, m: MathLib, radius: real, draws: seq<SeedDraws>): (r: Store)
    requires Valid(st) && st.count <= |draws|
    ensures Valid(r) && r.count == st.count
  {
    Seed(st, 0, m, radius, draws[..st.count])
  }

  /**
   * The gathering point every active target is set to: on the centre line
   * x = 0, above and in front of the centre, higher than it is forward.
   */
  function Anchor(maxDim: real): (a: Vec3)
    ensures a.x == 0.0
    ensures 0.0 <= maxDim ==> 0.0 <= a.z <= a.y
    ensures a.y == 2.0 * a.z
  {
    Vec3(maxDim * 0.0, maxDim * 0.2, maxDim * 0.1)
  }

  /** The anchor repeated for n particles. */
  function Anchors(n: nat, maxDim: real): (a: seq<Vec3>)
    ensures |a| == n
  {
    seq(n, _ => Anchor(maxDim))
  }

  /** updateTargetPositions(): every active target becomes the anchor. */
  function UpdateTargets(st: Store, maxDim: real): (r: Store)
    requires Valid(st)
    ensures Valid(r) && r.count == st.count
  {
    st.(targets := Overwrite(st.targets, 0, Anchors(st.count, maxDim)))
  }

  /** Where the frame loop moves each active particle, read from the store before the loop. */
  function Moved(st: Store, f: real, m: MathLib): (ms: seq<Vec3>)
    requires Valid(st)
    ensures |ms| == st.count
  {
    seq(st.count, k requires 0 <= k < st.count =>
      MoveParticle(m, VecAt(st.positions, k), st.velocities[3 * k + 1], VecAt(st.targets, k), f))
  }

  /** The per-particle loop of one animation frame, with lerp factor f. */
  function Advance(st: Store, f: real, m: MathLib): (r: Store)
    requires Valid(st)
    ensures Valid(r) && r.count == st.count
  {
    st.(positions := Overwrite(st.positions, 0, Moved(st, f, m)))
  }

  /** Particles [lo, hi) of r sit on their targets at scatter points from draws, with seeded velocities. */
  predicate SeededFrom(r: Store, lo: nat, hi: nat, m: MathLib, radius: real, draws: seq<SeedDraws>)
    requires Valid(r) && lo <= hi <= MaxParticles && hi - lo <= |draws|
  {
    forall k :: lo <= k < hi ==>
      && VecAt(r.positions, k) == ScatterPoint(m, radius, draws[k - lo])
      && VecAt(r.targets, k) == VecAt(r.positions, k)
      && VecAt(r.velocities, k) == SeedVelocity(draws[k - lo])
  }

  /** All three buffers of r agree with st outside particles [lo, hi). */
  predicate UnchangedOutside(st: Store, r: Store, lo: nat, hi: nat)
    requires Valid(st) && Valid(r)
  {
    forall j :: 0 <= j < 3 * MaxParticles && (j < 3 * lo || 3 * hi <= j) ==>
      && r.positions[j] == st.positions[j]
      && r.velocities[j] == st.velocities[j]
      && r.targets[j] == st.targets[j]
  }

  lemma SeedPlaces(st: Store, lo: nat, m: MathLib, radius: real, draws: seq<SeedDraws>)
    requires Valid(st) && lo + |draws| <= MaxParticles
    ensures Valid(Seed(st, lo, m, radius, draws))
    ensures SeededFrom(Seed(st, lo, m, radius, draws), lo, lo + |draws|, m, radius, draws)
  {
    var r := Seed(st, lo, m, radius, draws);
    forall k | lo <= k < lo + |draws|
      ensures VecAt(r.positions, k) == ScatterPoint(m, radius, draws[k - lo])
      ensures VecAt(r.targets, k) == VecAt(r.positions, k)
      ensures VecAt(r.velocities, k) == SeedVelocity(draws[k - lo])
    {
      SeedAt(st, lo, m, radius, draws, k);
    }
  }

  lemma SeedFrame(st: Store, lo: nat, m: MathLib, radius: real, draws: seq<SeedDraws>)
    requires Valid(st) && lo + |draws| <= MaxParticles
    ensures Valid(Seed(st, lo, m, radius, draws))
    ensures UnchangedOutside(st, Seed(st, lo, m, radius, draws), lo, lo + |draws|)
  {
    var r := Seed(st, lo, m, radius, draws);
    var pts := Points(m, radius, draws);
    forall j | 0 <= j < 3 * MaxParticles && (j < 3 * lo || 3 * (lo + |draws|) <= j)
      ensures r.positions[j] == st.positions[j]
      ensures r.velocities[j] == st.velocities[j]
      ensures r.targets[j] == st.targets[j]
    {
      OverwriteFrame(st.positions, lo, pts, j);
      OverwriteFrame(st.targets, lo, pts, j);
      OverwriteFrame(st.velocities, lo, Velocities(draws), j);
    }
  }

  lemma SeedVelocitiesInRange(st: Store, lo: nat, m: MathLib, radius: real, draws: seq<SeedDraws>)
    requires Valid(st) && lo + |draws| <= MaxParticles && AllUniform(draws)
    ensures forall j :: 3 * lo <= j < 3 * (lo + |draws|) ==>
      InVelocityRange(Seed(st, lo, m, radius, draws).velocities[j])
  {
    var r := Seed(st, lo, m, radius, draws);
    forall j | 3 * lo <= j < 3 * (lo + |draws|)
      ensures InVelocityRange(r.velocities[j])
    {
      OverwriteSlot(st.velocities, lo, Velocities(draws), j);
      assert Uniform(draws[j / 3 - lo]);
    }
  }

  /** Particle k of the seeded range gets its scatter point as position and target, and its seeded velocity. */
  lemma SeedAt(st: Store, lo: nat, m: MathLib, radius: real, draws: seq<SeedDraws>, k: nat)
    requires Valid(st) && lo + |draws| <= MaxParticles && lo <= k < lo + |draws|
    ensures VecAt(Seed(st, lo, m, radius, draws).positions, k) == ScatterPoint(m, radius, draws[k - lo])
    ensures VecAt(Seed(st, lo, m, radius, draws).targets, k) == ScatterPoint(m, radius, draws[k - lo])
    ensures VecAt(Seed(st, lo, m, radius, draws).velocities, k) == SeedVelocity(draws[k - lo])
  {
    var pts := Points(m, radius, draws);
    OverwriteAt(st.positions, lo, pts, k - lo);
    OverwriteAt(st.targets, lo, pts, k - lo);
    OverwriteAt(st.velocities, lo, Velocities(draws), k - lo);
  }

  /** A particle outside the seeded range keeps its position, velocity and target. */
  lemma SeedKeepsAt(st: Store, lo: nat, m: MathLib, radius: real, draws: seq<SeedDraws>, k: nat)
    requires Valid(st) && lo + |draws| <= MaxParticles && k < MaxParticles && (k < lo || lo + |draws| <= k)
    ensures VecAt(Seed(st, lo, m, radius, draws).positions, k) == VecAt(st.positions, k)
    ensures VecAt(Seed(st, lo, m, radius, draws).targets, k) == VecAt(st.targets, k)
    ensures VecAt(Seed(st, lo, m, radius, draws).velocities, k) == VecAt(st.velocities, k)
  {
    var pts := Points(m, radius, draws);
    var vs := Velocities(draws);
    OverwriteFrame(st.positions, lo, pts, 3 * k);
    OverwriteFrame(st.positions, lo, pts, 3 * k + 1);
    OverwriteFrame(st.positions, lo, pts, 3 * k + 2);
    OverwriteFrame(st.targets, lo, pts, 3 * k);
    OverwriteFrame(st.targets, lo, pts, 3 * k + 1);
    OverwriteFrame(st.targets, lo, pts, 3 * k + 2);
    OverwriteFrame(st.velocities, lo, vs, 3 * k);
    OverwriteFrame(st.velocities, lo, vs, 3 * k + 1);
    OverwriteFrame(st.velocities, lo, vs, 3 * k + 2);
  }

  /** A particle newly activated by addParticles sits on its target. */
  lemma AddParticlesOnTargetAt(st: Store, num: nat, m: MathLib, radius: real, draws: seq<SeedDraws>, k: nat)
    requires Valid(st) && num <= |draws| && st.count <= k < AddParticles(st, num, m, radius, draws).count
    ensures VecAt(AddParticles(st, num, m, radius, draws).positions, k) == ScatterPoint(m, radius, draws[k - st.count])
    ensures VecAt(AddParticles(st, num, m, radius, draws).targets, k) == VecAt(AddParticles(st, num, m, radius, draws).positions, k)
    ensures VecAt(AddParticles(st, num, m, radius, draws).velocities, k) == SeedVelocity(draws[k - st.count])
  {
    var newCount := Min(st.count + num, MaxParticles);
    var used := draws[..newCount - st.count];
    var seeded := Seed(st, st.count, m, radius, used);
    var r := AddParticles(st, num, m, radius, draws);
    assert r.positions == seeded.positions && r.targets == seeded.targets && r.velocities == seeded.velocities;
    SeedAt(st, st.count, m, radius, used, k);
    var p := ScatterPoint(m, radius, used[k - st.count]);
    assert VecAt(seeded.positions, k) == p && VecAt(seeded.targets, k) == p;
    assert used[k - st.count] == draws[k - st.count];
  }

  /** A particle that was already active keeps its position, velocity and target through addParticles. */
  lemma AddParticlesKeepsAt(st: Store, num: nat, m: MathLib, radius: real, draws: seq<SeedDraws>, k: nat)
    requires Valid(st) && num <= |draws| && k < st.count
    ensures VecAt(AddParticles(st, num, m, radius, draws).positions, k) == VecAt(st.positions, k)
    ensures VecAt(AddParticles(st, num, m, radius, draws).targets, k) == VecAt(st.targets, k)
    ensures VecAt(AddParticles(st, num, m, radius, draws).velocities, k) == VecAt(st.velocities, k)
  {
    var newCount := Min(st.count + num, MaxParticles);
    SeedKeepsAt(st, st.count, m, radius, draws[..newCount - st.count], k);
  }

  /** After updateTargetPositions, active particle k aims at the anchor. */
  lemma UpdateTargetsAt(st: Store, maxDim: real, k: nat)
    requires Valid(st) && k < st.count
    ensures VecAt(UpdateTargets(st, maxDim).targets, k) == Anchor(maxDim)
  {
    OverwriteAt(st.targets, 0, Anchors(st.count, maxDim), k);
  }

  /**
   * addParticles: the count becomes min(old + num, MaxParticles); each newly
   * activated particle sits on its target at a scatter point with a seeded
   * velocity; every slot outside the new particles is unchanged.
   */
  lemma AddParticlesSeedsNewSlots(st: Store, num: nat, m: MathLib, radius: real, draws: seq<SeedDraws>)
    requires Valid(st) && num <= |draws|
    ensures Valid(AddParticles(st, num, m, radius, draws))
    ensures AddParticles(st, num, m, radius, draws).count == Min(st.count + num, MaxParticles)
    ensures SeededFrom(AddParticles(st, num, m, radius, draws), st.count, Min(st.count + num, MaxParticles), m, radius, draws)
    ensures UnchangedOutside(st, AddParticles(st, num, m, radius, draws), st.count, Min(st.count + num, MaxParticles))
  {
    var newCount := Min(st.count + num, MaxParticles);
    var used := draws[..newCount - st.count];
    var seeded := Seed(st, st.count, m, radius, used);
    var r := AddParticles(st, num, m, radius, draws);
    assert r.count == newCount;
    assert SeededFrom(r, st.count, newCount, m, radius, draws) by {
      forall k | st.count <= k < newCount
        ensures VecAt(r.positions, k) == ScatterPoint(m, radius, draws[k - st.count])
        ensures VecAt(r.targets, k) == VecAt(r.positions, k)
        ensures VecAt(r.velocities, k) == SeedVelocity(draws[k - st.count])
      {
        AddParticlesOnTargetAt(st, num, m, radius, draws, k);
      }
    }
    assert UnchangedOutside(st, r, st.count, newCount) by {
      SeedFrame(st, st.count, m, radius, used);
      assert r.positions == seeded.positions && r.velocities == seeded.velocities && r.targets == seeded.targets;
    }
  }

  /** addParticles keeps every active velocity seeded when the draws are Math.random() values. */
  lemma AddParticlesKeepsVelocitiesSeeded(st: Store, num: nat, m: MathLib, radius: real, draws: seq<SeedDraws>)
    requires Valid(st) && num <= |draws| && VelocitiesSeeded(st) && AllUniform(draws)
    ensures VelocitiesSeeded(AddParticles(st, num, m, radius, draws))
  {
    var newCount := Min(st.count + num, MaxParticles);
    var used := draws[..newCount - st.count];
    SeedFrame(st, st.count, m, radius, used);
    SeedVelocitiesInRange(st, st.count, m, radius, used);
  }

  /**
   * regenerateInitialPositions: every active particle sits on its target at a
   * fresh scatter point with a seeded velocity; the count and every inactive
   * slot are unchanged.
   */
  lemma RegenerateScattersActive(st: Store, m: MathLib, radius: real, draws: seq<SeedDraws>)
    requires Valid(st) && st.count <= |draws|
    ensures Valid(Regenerate(st, m, radius, draws))
    ensures Regenerate(st, m, radius, draws).count == st.count
    ensures SeededFrom(Regenerate(st, m, radius, draws), 0, st.count, m, radius, draws)
    ensures UnchangedOutside(st, Regenerate(st, m, radius, draws), 0, st.count)
  {
    var used := draws[..st.count];
    SeedPlaces(st, 0, m, radius, used);
    SeedFrame(st, 0, m, radius, used);
  }

  /** regenerateInitialPositions re-seeds every active velocity. */
  lemma RegenerateKeepsVelocitiesSeeded(st: Store, m: MathLib, radius: real, draws: seq<SeedDraws>)
    requires Valid(st) && st.count <= |draws| && AllUniform(draws)
    ensures VelocitiesSeeded(Regenerate(st, m, radius, draws))
  {
    SeedVelocitiesInRange(st, 0, m, radius, draws[..st.count]);
  }

  /**
   * updateTargetPositions: every active target is the anchor; positions,
   * velocities, the count and inactive targets are unchanged.
   */
  lemma UpdateTargetsAnchorsActive(st: Store, maxDim: real)
    requires Valid(st)
    ensures var r := UpdateTargets(st, maxDim);
      && Valid(r)
      && r.count == st.count
      && r.positions == st.positions
      && r.velocities == st.velocities
      && (forall k :: 0 <= k < r.count ==> VecAt(r.targets, k) == Vec3(0.0, maxDim * 0.2, maxDim * 0.1))
      && (forall j :: 3 * st.count <= j < 3 * MaxParticles ==> r.targets[j] == st.targets[j])
  {
    var r := UpdateTargets(st, maxDim);
    var anchors := Anchors(st.count, maxDim);
    forall k | 0 <= k < r.count
      ensures VecAt(r.targets, k) == Vec3(0.0, maxDim * 0.2, maxDim * 0.1)
    {
      OverwriteAt(st.targets, 0, anchors, k);
    }
    forall j | 3 * st.count <= j < 3 * MaxParticles
      ensures r.targets[j] == st.targets[j]
    {
      OverwriteFrame(st.targets, 0, anchors, j);
    }
  }

  /**
   * One step of the frame loop: with particles [0, k) already moved, particle k
   * still holds its old position, and moving it extends the moved prefix by one.
   */
  lemma MovedStep(st: Store, f: real, m: MathLib, k: nat, cur: seq<real>)
    requires Valid(st) && k < st.count
    requires cur == Overwrite(st.positions, 0, Moved(st, f, m)[..k])
    ensures VecAt(cur, k) == VecAt(st.positions, k)
    ensures WriteVec(cur, k, MoveParticle(m, VecAt(cur, k), st.velocities[3 * k + 1], VecAt(st.targets, k), f))
         == Overwrite(st.positions, 0, Moved(st, f, m)[..k + 1])
  {
    var moved := Moved(st, f, m);
    OverwriteFrame(st.positions, 0, moved[..k], 3 * k);
    OverwriteFrame(st.positions, 0, moved[..k], 3 * k + 1);
    OverwriteFrame(st.positions, 0, moved[..k], 3 * k + 2);
    OverwriteExtend(st.positions, 0, moved, k);
  }

  /** The frame loop moves active particle k as MoveParticle says, from the store before the loop. */
  lemma AdvanceMovesAt(st: Store, f: real, m: MathLib, k: nat)
    requires Valid(st) && k < st.count
    ensures VecAt(Advance(st, f, m).positions, k)
        == MoveParticle(m, VecAt(st.positions, k), st.velocities[3 * k + 1], VecAt(st.targets, k), f)
  {
    OverwriteAt(st.positions, 0, Moved(st, f, m), k);
  }

  /**
   * The frame loop with factor f in [0, 1] scales active particle k's y
   * distance to its (unchanged) target by 1 - f.
   */
  lemma AdvanceScalesYDistanceAt(st: Store, f: real, m: MathLib, k: nat)
    requires Valid(st) && 0.0 <= f <= 1.0 && k < st.count
    ensures Abs(VecAt(Advance(st, f, m).positions, k).y - VecAt(st.targets, k).y)
        == (1.0 - f) * Abs(VecAt(st.positions, k).y - VecAt(st.targets, k).y)
  {
    var p, target := VecAt(st.positions, k), VecAt(st.targets, k);
    AdvanceMovesAt(st, f, m, k);
    assert VecAt(Advance(st, f, m).positions, k) == MoveParticle(m, p, st.velocities[3 * k + 1], target, f);
    MoveParticleScalesY(m, p, st.velocities[3 * k + 1], target, f);
  }

  /**
   * AdvanceScalesYDistanceAt measured from a point p at the particle's height
   * before the loop: the y distance to the target is scaled by 1 - f and so
   * never grows.
   */
  lemma AdvanceScalesYDistanceFrom(st: Store, f: real, m: MathLib, k: nat, p: Vec3)
    requires Valid(st) && 0.0 <= f <= 1.0 && k < st.count && p.y == VecAt(st.positions, k).y
    ensures Abs(VecAt(Advance(st, f, m).positions, k).y - VecAt(Advance(st, f, m).targets, k).y)
        == (1.0 - f) * Abs(p.y - VecAt(Advance(st, f, m).targets, k).y)
    ensures Abs(VecAt(Advance(st, f, m).positions, k).y - VecAt(Advance(st, f, m).targets, k).y)
        <= Abs(p.y - VecAt(Advance(st, f, m).targets, k).y)
  {
    var r := Advance(st, f, m);
    assert r.targets == st.targets;
    var before := Abs(p.y - VecAt(st.targets, k).y);
    var after := Abs(VecAt(r.positions, k).y - VecAt(st.targets, k).y);
    AdvanceScalesYDistanceAt(st, f, m, k);
    ScaleShrinks(f, before, after);
  }

  /**
   * The frame loop with factor f in [0, 1] scales each active particle's y
   * distance to its (unchanged) target by 1 - f.
   */
  lemma AdvanceScalesYDistance(st: Store, f: real, m: MathLib)
    requires Valid(st) && 0.0 <= f <= 1.0
    ensures Advance(st, f, m).targets == st.targets
    ensures forall k :: 0 <= k < st.count ==>
      Abs(VecAt(Advance(st, f, m).positions, k).y - VecAt(st.targets, k).y)
        == (1.0 - f) * Abs(VecAt(st.positions, k).y - VecAt(st.targets, k).y)
  {
    forall k | 0 <= k < st.count
      ensures Abs(VecAt(Advance(st, f, m).positions, k).y - VecAt(st.targets, k).y)
        == (1.0 - f) * Abs(VecAt(st.positions, k).y - VecAt(st.targets, k).y)
    {
      AdvanceScalesYDistanceAt(st, f, m, k);
    }
  }

  /** With factor 0 the frame loop only swirls each active particle about the y axis. */
  lemma AdvanceAtRestSwirls(st: Store, m: MathLib)
    requires Valid(st)
    ensures forall k :: 0 <= k < st.count ==>
      VecAt(Advance(st, 0.0, m).positions, k) == Swirl(m, VecAt(st.positions, k), st.velocities[3 * k + 1])
  {
    forall k | 0 <= k < st.count
      ensures VecAt(Advance(st, 0.0, m).positions, k) == Swirl(m, VecAt(st.positions, k), st.velocities[3 * k + 1])
    {
      AdvanceMovesAt(st, 0.0, m, k);
      MoveParticleScalesY(m, VecAt(st.positions, k), st.velocities[3 * k + 1], VecAt(st.targets, k), 0.0);
    }
  }

  /** A particle that starts the frame loop on its target keeps its y on it, for f in [0, 1]. */
  lemma AdvanceKeepsOnTargetAt(st: Store, f: real, m: MathLib, k: nat)
    requires Valid(st) && 0.0 <= f <= 1.0 && k < st.count
    requires VecAt(st.positions, k) == VecAt(st.targets, k)
    ensures VecAt(Advance(st, f, m).positions, k).y == VecAt(st.targets, k).y
  {
    AdvanceScalesYDistanceAt(st, f, m, k);
    assert Abs(VecAt(st.positions, k).y - VecAt(st.targets, k).y) == 0.0;
  }

  /** The frame loop writes only active positions. */
  lemma AdvanceFrame(st: Store, f: real, m: MathLib)
    requires Valid(st)
    ensures UnchangedOutside(st, Advance(st, f, m), 0, st.count)
  {
    var r := Advance(st, f, m);
    var ms := Moved(st, f, m);
    forall j | 3 * st.count <= j < 3 * MaxParticles
      ensures r.positions[j] == st.positions[j]
    {
      OverwriteFrame(st.positions, 0, ms, j);
    }
  }
}
