/**
 * The particle state of the MicrofiberStarModel component as the source keeps
 * it: three Float32Array-like buffers of MaxParticles * 3 slots overwritten in
 * place by stride-3 loops, the active-prefix counter and the wheel-input refs.
 * Every method is proved against the matching function of Simulation or
 * Particles, whose properties are proved there.
 */
module StarModel {
  import opened Wrappers
  import opened Geometry
  import opened Buffers
  import opened Particles
  import opened Input
  import opened Simulation

  class MicrofiberStar {
    var positions: array<real>
    var velocities: array<real>
    var targetPositions: array<real>
    var currentParticleCount: nat
    var scrollProgress: real
    var rotationSpeed: real
    var lastScrollDirection: Option<Direction>
    var maxDim: real
    var particleRadius: real

    /** The abstract value of the whole state. */
    ghost function Model(): Sim
      reads this, positions, velocities, targetPositions
    {
      Sim(Store(positions[..], velocities[..], targetPositions[..], currentParticleCount),
          InputState(scrollProgress, rotationSpeed, lastScrollDirection),
          maxDim, particleRadius)
    }

    ghost predicate Valid()
      reads this, positions, velocities, targetPositions
    {
      && positions != velocities && positions != targetPositions && velocities != targetPositions
      && Inv(Model())
    }

    /** The component's initial state: zeroed buffers, 1000 active particles, no input yet. */
    constructor ()
      ensures Valid() && Model() == InitialSim()
      ensures fresh(positions) && fresh(velocities) && fresh(targetPositions)
    {
      positions := new real[3 * MaxParticles](_ => 0.0);
      velocities := new real[3 * MaxParticles](_ => 0.0);
      targetPositions := new real[3 * MaxParticles](_ => 0.0);
      currentParticleCount := InitialParticleCount;
      scrollProgress := 0.0;
      rotationSpeed := 0.0;
      lastScrollDirection := None;
      maxDim := 0.0;
      particleRadius := InitialParticleRadius;
      new;
      InitialSimInv();
    }

    /** Stores v into particle k's three slots of buffer a. */
    static method SetVec(a: array<real>, k: nat, v: Vec3)
      requires 3 * k + 3 <= a.Length
      modifies a
      ensures a[..] == WriteVec(old(a[..]), k, v)
    {
      a[3 * k] := v.x;
      a[3 * k + 1] := v.y;
      a[3 * k + 2] := v.z;
    }

    /**
     * Seeds particles [lo, hi) from the draws: a scatter point as position and
     * target, and a seeded velocity. The loop shared by addParticles and
     * regenerateInitialPositions.
     */
    method SeedParticles(lo: nat, hi: nat, m: MathLib, draws: seq<SeedDraws>)
      requires Valid() && lo <= hi <= MaxParticles && hi - lo <= |draws|
      modifies positions, velocities, targetPositions
      ensures Model() == old(Model()).(store := Seed(old(Model().store), lo, m, particleRadius, draws[..hi - lo]))
    {
      SeedAll(positions, velocities, targetPositions, lo, m, particleRadius, draws[..hi - lo]);
    }

    /** The loop of SeedParticles over the three buffers, seeding particles lo, lo + 1, ... from draws. */
    static method SeedAll(positions: array<real>, velocities: array<real>, targetPositions: array<real>,
                          lo: nat, m: MathLib, radius: real, draws: seq<SeedDraws>)
      requires positions != velocities && positions != targetPositions && velocities != targetPositions
      requires Particles.Valid(Store(positions[..], velocities[..], targetPositions[..], 0))
      requires lo + |draws| <= MaxParticles
      modifies positions, velocities, targetPositions
      ensures var r := Seed(Store(old(positions[..]), old(velocities[..]), old(targetPositions[..]), 0), lo, m, radius, draws);
        positions[..] == r.positions && velocities[..] == r.velocities && targetPositions[..] == r.targets
    {
      ghost var st0 := Store(positions[..], velocities[..], targetPositions[..], 0);
      ghost var pts := Points(m, radius, draws);
      ghost var vs := Velocities(draws);
      var i := 0;
      while i < |draws|
        invariant 0 <= i <= |draws|
        invariant positions[..] == Overwrite(st0.positions, lo, pts[..i])
        invariant velocities[..] == Overwrite(st0.velocities, lo, vs[..i])
        invariant targetPositions[..] == Overwrite(st0.targets, lo, pts[..i])
      {
        OverwriteExtend(st0.positions, lo, pts, i);
        OverwriteExtend(st0.velocities, lo, vs, i);
        OverwriteExtend(st0.targets, lo, pts, i);
        SeedOne(positions, velocities, targetPositions, lo + i, m, radius, draws[i]);
        i := i + 1;
      }
      assert pts[..|draws|] == pts && vs[..|draws|] == vs;
    }

    /** Seeds particle k from one draw: its scatter point as position and target, and its velocity. */
    static method SeedOne(positions: array<real>, velocities: array<real>, targetPositions: array<real>,
                          k: nat, m: MathLib, radius: real, d: SeedDraws)
      requires positions != velocities && positions != targetPositions && velocities != targetPositions
      requires 3 * k + 3 <= positions.Length && 3 * k + 3 <= velocities.Length && 3 * k + 3 <= targetPositions.Length
      modifies positions, velocities, targetPositions
      ensures positions[..] == WriteVec(old(positions[..]), k, ScatterPoint(m, radius, d))
      ensures velocities[..] == WriteVec(old(velocities[..]), k, SeedVelocity(d))
      ensures targetPositions[..] == WriteVec(old(targetPositions[..]), k, ScatterPoint(m, radius, d))
    {
      var p := ScatterPoint(m, radius, d);
      SetVec(positions, k, p);
      SetVec(velocities, k, SeedVelocity(d));
      SetVec(targetPositions, k, p);
    }

    /** addParticles(num): activate up to num more particles, seeding only the new slots. */
    method AddParticles(num: nat, m: MathLib, draws: seq<SeedDraws>)
      requires Valid() && num <= |draws| && AllUniform(draws)
      modifies this`currentParticleCount, positions, velocities, targetPositions
      ensures Valid()
      ensures Model() == old(Model()).(store := Particles.AddParticles(old(Model().store), num, m, particleRadius, draws))
    {
      var start := currentParticleCount;
      var end := Min(currentParticleCount + num, MaxParticles);
      SeedParticles(start, end, m, draws);
      currentParticleCount := end;
      assert Model().store == Particles.AddParticles(old(Model().store), num, m, particleRadius, draws);
      AddParticlesKeepsVelocitiesSeeded(old(Model().store), num, m, particleRadius, draws);
    }

    /** regenerateInitialPositions(): re-seed every active particle, position equal to target. */
    method RegenerateInitialPositions(m: MathLib, draws: seq<SeedDraws>)
      requires Valid() && currentParticleCount <= |draws| && AllUniform(draws)
      modifies positions, velocities, targetPositions
      ensures Valid()
      ensures Model() == old(Model()).(store := Regenerate(old(Model().store), m, particleRadius, draws))
    {
      SeedParticles(0, currentParticleCount, m, draws);
      RegenerateKeepsVelocitiesSeeded(old(Model().store), m, particleRadius, draws);
    }

    /**
     * updateTargetPositions(): every active target becomes (0, 0.2, 0.1) * maxDim.
     * The sector point the source draws first is never stored and is not computed here.
     */
    method UpdateTargetPositions()
      requires Valid()
      modifies targetPositions
      ensures Valid()
      ensures Model() == old(Model()).(store := UpdateTargets(old(Model().store), maxDim))
    {
      ghost var st0 := Model().store;
      RetargetAll(targetPositions, currentParticleCount, maxDim);
      UpdateTargetsAnchorsActive(st0, maxDim);
    }

    /** The loop of UpdateTargetPositions: targets [0, count) become the anchor for maxDim. */
    static method RetargetAll(targetPositions: array<real>, count: nat, maxDim: real)
      requires 3 * count <= targetPositions.Length
      modifies targetPositions
      ensures targetPositions[..] == Overwrite(old(targetPositions[..]), 0, Anchors(count, maxDim))
    {
      ghost var targets0 := targetPositions[..];
      ghost var anchors := Anchors(count, maxDim);
      var k := 0;
      while k < count
        invariant 0 <= k <= count
        invariant targetPositions[..] == Overwrite(targets0, 0, anchors[..k])
      {
        OverwriteExtend(targets0, 0, anchors, k);
        SetVec(targetPositions, k, Anchor(maxDim));
        k := k + 1;
      }
      assert anchors[..count] == anchors;
    }

    /**
     * handleScroll(event) with event.deltaY = delta: re-scatter on a change of
     * direction to up, clamp the two scalars, then retarget.
     */
    method HandleScroll(delta: real, m: MathLib, draws: seq<SeedDraws>)
      requires Valid() && currentParticleCount <= |draws| && AllUniform(draws)
      modifies this`scrollProgress, this`rotationSpeed, this`lastScrollDirection
      modifies positions, velocities, targetPositions
      ensures Valid()
      ensures Model() == Simulation.HandleScroll(old(Model()), delta, m, draws)
    {
      ghost var s0 := Model();
      var direction := if delta > 0.0 then Down else Up;
      if Some(direction) != lastScrollDirection {
        if direction == Up {
          RegenerateInitialPositions(m, draws);
        }
        lastScrollDirection := Some(direction);
      }
      ghost var scattered := Model().store;
      assert Particles.Valid(scattered) && VelocitiesSeeded(scattered) && InitialParticleCount <= scattered.count;
      assert scattered == if Rescatters(s0.input, delta) then Regenerate(s0.store, m, s0.particleRadius, draws) else s0.store;

      ApplyWheel(delta, direction);
      assert Model() == s0.(store := scattered, input := Scroll(s0.input, delta));
      assert Inv(Model());

      UpdateTargetPositions();
    }

    /**
     * The scalar half of handleScroll: scroll progress and rotation speed move
     * by the event and are clamped, as Input.Scroll prescribes for any earlier
     * direction.
     */
    method ApplyWheel(delta: real, direction: Direction)
      requires direction == DirectionOf(delta)
      modifies this`scrollProgress, this`rotationSpeed
      ensures scrollProgress == Scroll(old(Model().input), delta).scrollProgress
      ensures rotationSpeed == Scroll(old(Model().input), delta).rotationSpeed
    {
      scrollProgress := scrollProgress + delta * ScrollGain;
      scrollProgress := Clamp(scrollProgress, 0.0, 1.0);

      if direction == Down {
        rotationSpeed := rotationSpeed + delta * ScrollGain;
      } else {
        rotationSpeed := rotationSpeed - Abs(delta) * ScrollGain;
      }
      rotationSpeed := Clamp(rotationSpeed, 0.0, MaxRotationSpeed);
    }

    /** The model-load callback's arithmetic: maxDim, particleRadius, then retarget. */
    method OnModelLoaded(sizeX: real, sizeY: real, sizeZ: real)
      requires Valid()
      modifies this`maxDim, this`particleRadius, targetPositions
      ensures Valid()
      ensures Model() == Load(old(Model()), sizeX, sizeY, sizeZ)
    {
      maxDim := ModelDim(sizeX, sizeY, sizeZ);
      particleRadius := maxDim * 1.5;
      UpdateTargetPositions();
    }

    /**
     * One animate() frame without requestAnimationFrame, the model rotation and
     * the render call: retarget and grow while spinning, then swirl and lerp
     * every active particle toward its target.
     */
    method Animate(m: MathLib, draws: seq<SeedDraws>)
      requires Valid() && GrowthStep <= |draws| && AllUniform(draws)
      modifies this`currentParticleCount, positions, velocities, targetPositions
      ensures Valid()
      ensures Model() == Tick(old(Model()), m, draws)
    {
      if rotationSpeed > 0.0 {
        UpdateTargetPositions();
      }
      if rotationSpeed > 0.0 && currentParticleCount < MaxParticles {
        AddParticles(GrowthStep, m, draws);
      }

      assert Model().store == Prepare(old(Model()), m, draws);
      var lerpFactor := LerpFactor(scrollProgress);
      MoveParticles(lerpFactor, m);
      TickKeepsInv(old(Model()), m, draws);
    }

    /** The per-particle loop of animate(): swirl by the y velocity, then lerp toward the target by f. */
    method MoveParticles(f: real, m: MathLib)
      requires Valid()
      modifies positions
      ensures Valid()
      ensures Model() == old(Model()).(store := Advance(old(Model().store), f, m))
    {
      MoveAll(positions, velocities, targetPositions, currentParticleCount, f, m);
    }

    /** The loop body of MoveParticles, over the three buffers and the active count. */
    static method MoveAll(positions: array<real>, velocities: array<real>, targetPositions: array<real>,
                          count: nat, f: real, m: MathLib)
      requires positions != velocities && positions != targetPositions
      requires Particles.Valid(Store(positions[..], velocities[..], targetPositions[..], count))
      modifies positions
      ensures positions[..] == Advance(Store(old(positions[..]), velocities[..], targetPositions[..], count), f, m).positions
    {
      ghost var st0 := Store(positions[..], velocities[..], targetPositions[..], count);
      ghost var moved := Moved(st0, f, m);
      var k := 0;
      while k < count
        invariant 0 <= k <= count
        invariant positions[..] == Overwrite(st0.positions, 0, moved[..k])
        invariant velocities[..] == st0.velocities && targetPositions[..] == st0.targets
      {
        MoveOne(positions, velocities, targetPositions, k, f, m, st0);
        k := k + 1;
      }
      assert moved[..count] == moved;
    }

    /**
     * Moves particle k one frame (swirl by its y velocity, then lerp toward its
     * target by f), extending the moved prefix of the frame loop by one.
     */
    static method MoveOne(positions: array<real>, velocities: array<real>, targetPositions: array<real>,
                          k: nat, f: real, m: MathLib, ghost st0: Store)
      requires positions != velocities && positions != targetPositions
      requires Particles.Valid(st0) && k < st0.count
      requires positions[..] == Overwrite(st0.positions, 0, Moved(st0, f, m)[..k])
      requires velocities[..] == st0.velocities && targetPositions[..] == st0.targets
      modifies positions
      ensures positions[..] == Overwrite(st0.positions, 0, Moved(st0, f, m)[..k + 1])
    {
      MovedStep(st0, f, m, k, positions[..]);
      var i := 3 * k;
      var p := Vec3(positions[i], positions[i + 1], positions[i + 2]);
      var target := Vec3(targetPositions[i], targetPositions[i + 1], targetPositions[i + 2]);
      var q := MoveParticle(m, p, velocities[i + 1], target, f);
      SetVec(positions, k, q);
    }
  }
}
