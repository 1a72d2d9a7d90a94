# Microfiber star particle field

A model of the particle simulation behind the `MicrofiberStarModel` React
component (`app/components/MicrofiberStarModel.tsx`). It covers the state
the component keeps:

- three flat buffers of `300000 * 3` slots, overwritten in place:
  positions, velocities and target positions;
- the active-prefix counter `currentParticleCount`, which starts at 1000;
- the wheel-input refs `scrollProgress`, `rotationSpeed` and
  `lastScrollDirection`;
- `maxDim` and `particleRadius`.

It also covers the operations that change that state:

- `addParticles`;
- `regenerateInitialPositions`;
- `updateTargetPositions`;
- the wheel handler `handleScroll`;
- one `animate` frame without the rendering calls;
- the arithmetic of the model-load callback.

The files:

- `star_model.dfy` (module `StarModel`) holds the class `MicrofiberStar`. Its
  fields are the component's state, with the buffers as `array<real>`. Each
  operation is a method that changes the arrays and fields step by step,
  using the source's stride-3 loops.
  - Every method is proved against a pure specification of the whole state:
    `Model() == Spec(old(Model()))`.
  - Every method also keeps the invariant `Valid()`. It says that the buffers
    have full length, the count is between 1000 and 300000, every active
    velocity lies in [-0.01, 0.01), and both input scalars are within their
    clamps.
  - Each loop runs in a static method over the bare arrays (`SeedAll`,
    `RetargetAll`, `MoveAll`), so its invariant only speaks of the arrays.
- `particles.dfy` (module `Particles`) holds the specification of the store:
  growth, re-scatter, retargeting and the per-particle pass of a frame. Each
  is a function of the old store, with the lemmas the source promises about
  it.
- `input.dfy` (module `Input`) holds the wheel state machine: direction, the
  two clamped scalars, and when a re-scatter happens. It also has lemmas over
  runs of wheel events.
- `simulation.dfy` (module `Simulation`) holds the whole-state
  specifications, with their lemmas:
  - `HandleScroll`;
  - `Tick`, one frame;
  - `Load`, the model-load callback;
  - `InitialSim`, the initial state.
- `geometry.dfy` and `buffers.dfy` hold the shared pieces:
  - the scatter-point formula;
  - the velocity formula `(u - 0.5) * 0.02`;
  - `THREE.MathUtils.lerp`;
  - the x/z swirl;
  - the stride-3 layout, with `Overwrite`, which writes a run of particles.

Inputs from outside the program are passed in as parameters:

- Each `Math.random()` call is a value in a `SeedDraws` record. There are six
  uniforms per seeded particle, in the order the source draws them.
- `Math.sin`, `Math.cos`, `Math.acos` and `Math.cbrt` are function-valued
  fields of a `MathLib` record. They stay uninterpreted.
- The bounding-box size the loader reports is three reals.

Behaviour the component does not have, although its names suggest it:

- There is no per-particle gather speed.
- The lerp factor of a frame is `0.05 * scrollProgress`. It is not a clamped
  function of the rotation speed.
- A frame always swirls and lerps. There is no "free drift" branch when the
  rotation speed is 0.
- `updateTargetPositions` computes a sector point, never stores it, and
  writes the fixed anchor `(0, 0.2 * maxDim, 0.1 * maxDim)` to every active
  target. There is neither a sector policy nor a jittered gather policy.
- `handleScroll` always retargets after it updates the scalars, in either
  direction. After a down event followed by an up event, the field is
  re-scattered exactly once (`Input.DownThenUpRescattersOnce`). But the
  targets then sit on the anchor, not on the fresh scatter points
  (`Simulation.HandleScrollEffect`), so position and target do not coincide.
- Only the y component of a velocity is ever read, as the swirl angle.

## Model

| member | source | states |
|---|---|---|
| Geometry.VelocityComponent | app/components/MicrofiberStarModel.tsx:208-210 | a velocity component `(u - 0.5) * 0.02` seeded from a draw u in [0, 1) lies in [-0.01, 0.01) |
| Geometry.SeedVelocity | app/components/MicrofiberStarModel.tsx:280-282 | all three seeded velocity components lie in [-0.01, 0.01) when the three draws are in [0, 1) |
| Geometry.ScatterPoint | app/components/MicrofiberStarModel.tsx:196-202 | a scatter point whose distance radius * cbrt(u) is zero is the centre |
| Geometry.ScatterPointInBall | app/components/MicrofiberStarModel.tsx:268-274 | where sin^2 + cos^2 = 1 at the drawn angles and cbrt(u) is in [0, 1], the scatter point lies at distance radius * cbrt(u) from the centre, inside the ball of the sampling radius |
| Geometry.LerpDistance | app/components/MicrofiberStarModel.tsx:147-162 | lerping x toward y by t in [0, 1] leaves distance `(1 - t) * |x - y|` to y; t = 0 leaves x unchanged |
| Geometry.LerpEndpoints | app/components/MicrofiberStarModel.tsx:148-162 | `THREE.MathUtils.lerp(x, y, t)` (`Geometry.Lerp`) is x at t = 0, y at t = 1, and lies between x and y for t in [0, 1] |
| Geometry.Swirl | app/components/MicrofiberStarModel.tsx:142-145 | the x/z rotation by the y velocity keeps y |
| Geometry.MoveParticleScalesY | app/components/MicrofiberStarModel.tsx:137-163 | one frame of one particle scales its y distance to the target by 1 - f; with f = 0 it only swirls |
| Geometry.MoveParticle | app/components/MicrofiberStarModel.tsx:138-162 | one frame of one particle only lerps its height toward the target's: the x/z swirl leaves y alone |
| Buffers.WriteVec | app/components/MicrofiberStarModel.tsx:204-214 | writing particle k's three slots sets exactly slots 3k..3k+2 and keeps the length |
| Buffers.Overwrite | app/components/MicrofiberStarModel.tsx:195 | the stride-3 loop writing a run of particles keeps the buffer length |
| Buffers.OverwriteAt | app/components/MicrofiberStarModel.tsx:195-215 | after a stride-3 loop writes a run of particles from index lo, particle lo + i holds the i-th value |
| Buffers.OverwriteFrame | app/components/MicrofiberStarModel.tsx:195-215 | a stride-3 loop over particles [lo, lo + n) leaves every slot outside [3lo, 3(lo + n)) unchanged |
| Buffers.OverwriteSlot | app/components/MicrofiberStarModel.tsx:195-215 | slot j inside the written run holds coordinate j mod 3 of particle j / 3's value |
| Buffers.OverwriteExtend | app/components/MicrofiberStarModel.tsx:195-215 | one more loop iteration extends the written run by one particle |
| Particles.Seed | app/components/MicrofiberStarModel.tsx:195-215 | seeding a run of particles keeps every buffer at full length |
| Particles.SeedAt | app/components/MicrofiberStarModel.tsx:195-215 | a seeded particle gets the scatter point as both position and target, and the seeded velocity |
| Particles.SeedKeepsAt | app/components/MicrofiberStarModel.tsx:195-215 | a particle outside the seeded run keeps its position, velocity and target |
| Particles.SeedPlaces | app/components/MicrofiberStarModel.tsx:267-287 | every seeded particle sits on its target at its scatter point with its seeded velocity |
| Particles.SeedFrame | app/components/MicrofiberStarModel.tsx:267-287 | seeding writes no slot outside the seeded run |
| Particles.SeedVelocitiesInRange | app/components/MicrofiberStarModel.tsx:280-282 | every velocity slot written by seeding lies in [-0.01, 0.01) when the draws are in [0, 1) |
| Particles.AddParticles | app/components/MicrofiberStarModel.tsx:191-221 | growth keeps the buffers full length, never lowers the count and never exceeds 300000 |
| Particles.AddParticlesOnTargetAt | app/components/MicrofiberStarModel.tsx:195-214 | each newly activated particle sits at its scatter point, on its target, with its seeded velocity |
| Particles.AddParticlesKeepsAt | app/components/MicrofiberStarModel.tsx:192-195 | a particle that was already active keeps its position, velocity and target through growth |
| Particles.AddParticlesSeedsNewSlots | app/components/MicrofiberStarModel.tsx:191-221 | the count becomes min(old + num, 300000); the new particles are seeded and on target; every slot outside [old, new) is unchanged |
| Particles.AddParticlesKeepsVelocitiesSeeded | app/components/MicrofiberStarModel.tsx:208-210 | after growth every active velocity still lies in [-0.01, 0.01) |
| Particles.Regenerate | app/components/MicrofiberStarModel.tsx:266-288 | re-scatter keeps the buffers full length and the count unchanged |
| Particles.RegenerateScattersActive | app/components/MicrofiberStarModel.tsx:266-288 | every active particle gets a fresh scatter point as both position and target, with a seeded velocity; the count and all inactive slots are unchanged |
| Particles.RegenerateKeepsVelocitiesSeeded | app/components/MicrofiberStarModel.tsx:280-282 | after re-scatter every active velocity lies in [-0.01, 0.01) |
| Particles.UpdateTargets | app/components/MicrofiberStarModel.tsx:249-264 | retargeting keeps the buffers full length and the count unchanged |
| Particles.UpdateTargetsAt | app/components/MicrofiberStarModel.tsx:260-262 | active particle k's target becomes the anchor (0, 0.2 maxDim, 0.1 maxDim) |
| Particles.Anchor | app/components/MicrofiberStarModel.tsx:260-262 | the anchor is on the centre line x = 0, its y is twice its z, and both are nonnegative for a nonnegative maxDim |
| Particles.UpdateTargetsAnchorsActive | app/components/MicrofiberStarModel.tsx:249-264 | every active target is the anchor, whatever was drawn; positions, velocities, the count and inactive targets are unchanged |
| Particles.Advance | app/components/MicrofiberStarModel.tsx:137-163 | the frame loop keeps the buffers full length and the count unchanged |
| Particles.MovedStep | app/components/MicrofiberStarModel.tsx:137-163 | inside the frame loop particle k still holds its old position, and moving it extends the moved prefix by one |
| Particles.Moved | app/components/MicrofiberStarModel.tsx:137-163 | the frame loop computes one moved point per active particle |
| Particles.AdvanceMovesAt | app/components/MicrofiberStarModel.tsx:138-162 | active particle k is swirled by its y velocity, then lerped toward its target, from its position before the loop |
| Particles.AdvanceScalesYDistanceAt | app/components/MicrofiberStarModel.tsx:153-157 | with f in [0, 1], active particle k's y distance to its target is scaled by 1 - f |
| Particles.AdvanceScalesYDistanceFrom | app/components/MicrofiberStarModel.tsx:153-157 | measured from any point at particle k's height before the loop, the frame scales its y distance to the target by 1 - f, so it never grows |
| Particles.AdvanceScalesYDistance | app/components/MicrofiberStarModel.tsx:153-157 | the same for every active particle, with the targets unchanged |
| Particles.AdvanceAtRestSwirls | app/components/MicrofiberStarModel.tsx:142-162 | with f = 0 each active particle is only swirled about the y axis |
| Particles.AdvanceKeepsOnTargetAt | app/components/MicrofiberStarModel.tsx:153-157 | a particle that starts the frame on its target keeps its y on the target |
| Particles.AdvanceFrame | app/components/MicrofiberStarModel.tsx:137 | the frame loop writes no slot at or beyond the active count |
| Input.Clamp | app/components/MicrofiberStarModel.tsx:236 | `Math.max(lo, Math.min(hi, x))` lies in [lo, hi], is x when x is inside, and is the nearer bound otherwise |
| Input.Rescatters | app/components/MicrofiberStarModel.tsx:225-231 | a wheel event re-scatters iff delta <= 0 (direction up) and the last direction was not up |
| Input.DirectionOf | app/components/MicrofiberStarModel.tsx:225 | a wheel event with positive deltaY is "down"; zero and negative deltaY are "up" |
| Input.Scroll | app/components/MicrofiberStarModel.tsx:223-244 | after any wheel event scrollProgress is in [0, 1], rotationSpeed in [0, 0.05], and the last direction is the event's |
| Input.ScrollMovesWithDirection | app/components/MicrofiberStarModel.tsx:235-244 | a down event never lowers either scalar; an up event never raises either; a zero delta keeps scrollProgress |
| Input.HeldDirectionNeverRescatters | app/components/MicrofiberStarModel.tsx:227-233 | while the direction is unchanged, no event re-scatters |
| Input.SameDirectionRescattersAtMostOnce | app/components/MicrofiberStarModel.tsx:225-233 | a run of same-direction events re-scatters at most once, exactly once iff it is a non-empty up run and the last direction was not up, and never when it scrolls down |
| Input.DownThenUpRescattersOnce | app/components/MicrofiberStarModel.tsx:225-233 | a down event then an up event re-scatters exactly once, on the up event |
| Input.DownRunSpeedsUp | app/components/MicrofiberStarModel.tsx:238-244 | each down event of at least 100 units raises the rotation speed by 0.01 until it reaches the cap |
| Input.DownRunSaturates | app/components/MicrofiberStarModel.tsx:238-244 | five or more down events of at least 100 units leave the rotation speed at 0.05 |
| Input.ScrollAllBounded | app/components/MicrofiberStarModel.tsx:235-244 | both scalars stay within their clamps after any run of wheel events |
| Simulation.HandleScroll | app/components/MicrofiberStarModel.tsx:223-247 | a wheel event keeps the buffers full length and the count unchanged |
| Simulation.Prepare | app/components/MicrofiberStarModel.tsx:125-131 | retargeting and growth before the frame loop never lower the count |
| Simulation.LerpFactor | app/components/MicrofiberStarModel.tsx:147 | `0.05 * scrollProgress` lies in [0, 0.05] while scrollProgress is in [0, 1] |
| Simulation.Tick | app/components/MicrofiberStarModel.tsx:122-167 | a frame keeps the buffers full length and never lowers the count |
| Simulation.ModelDim | app/components/MicrofiberStarModel.tsx:110 | `Math.max(size.x, size.y, size.z, 10)` is at least each argument and equals one of them |
| Simulation.Load | app/components/MicrofiberStarModel.tsx:110-112 | loading keeps the buffers full length, the count and the input state, and leaves maxDim >= 10 and particleRadius >= 15 |
| Simulation.InitialSimInv | app/components/MicrofiberStarModel.tsx:7-23 | the initial state (zeroed buffers, 1000 active particles, radius 1500, no direction) satisfies the invariant |
| Simulation.InitialSim | app/components/MicrofiberStarModel.tsx:7-23 | the component starts with all three buffers zeroed at full length, 1000 active particles, radius 1500, maxDim 0 (so the anchor is the origin until the model loads) and no wheel input |
| Simulation.HandleScrollEffect | app/components/MicrofiberStarModel.tsx:223-247 | a wheel event keeps the count; on a change to up it re-scatters every active particle, otherwise positions and velocities are untouched; every active target ends on the anchor; inactive slots are unchanged |
| Simulation.HandleScrollKeepsInv | app/components/MicrofiberStarModel.tsx:223-247 | a wheel event keeps the invariant |
| Simulation.TickGrowth | app/components/MicrofiberStarModel.tsx:129-131 | a frame grows the count to min(count + 20, 300000) iff the rotation speed is positive and the store is not full, and otherwise keeps it |
| Simulation.PrepareKeepsOldAt | app/components/MicrofiberStarModel.tsx:125-131 | before the frame loop a previously active particle keeps its position and its velocity (its swirl angle); while spinning it aims at the anchor, and while not spinning the store is left exactly as it was |
| Simulation.PrepareAddsOnTargetAt | app/components/MicrofiberStarModel.tsx:129-131 | a particle added by the frame's growth starts on its target |
| Simulation.PrepareFrame | app/components/MicrofiberStarModel.tsx:125-131 | retargeting and growth change no slot beyond the new count |
| Simulation.TickFrame | app/components/MicrofiberStarModel.tsx:122-167 | a frame leaves every slot beyond the new count unchanged and, while spinning, aims every previously active particle at the anchor |
| Simulation.TickScalesYDistanceAt | app/components/MicrofiberStarModel.tsx:147-157 | a frame scales a previously active particle's y distance to its target by 1 - 0.05 scrollProgress, so it never grows |
| Simulation.TickMovesOldAt | app/components/MicrofiberStarModel.tsx:125-162 | a frame moves each previously active particle from its position before the frame, swirled in x/z by its own y velocity from before the frame, then lerped by 0.05 scrollProgress toward its target; when not spinning that target is the one it had |
| Simulation.PrepareAdvanceScalesAt | app/components/MicrofiberStarModel.tsx:125-157 | the same for any lerp factor in [0, 1] |
| Simulation.TickScalesYDistance | app/components/MicrofiberStarModel.tsx:147-157 | in a frame no previously active particle's y distance to its target grows, and the factor is in [0, 0.05] |
| Simulation.TickAtRestKeepsHeight | app/components/MicrofiberStarModel.tsx:147-157 | with scrollProgress 0 a frame keeps every previously active particle's y |
| Simulation.TickAddsOnTarget | app/components/MicrofiberStarModel.tsx:129-157 | particles added by a frame end it with their y on their target's |
| Simulation.TickKeepsRest | app/components/MicrofiberStarModel.tsx:122-167 | a frame keeps maxDim, particleRadius, the input state and every velocity slot of a previously active particle |
| Simulation.TickSeedsNewAt | app/components/MicrofiberStarModel.tsx:125-162 | a particle added by a frame keeps its scatter point as target (growth runs after the retarget), gets its seeded velocity, and is moved once from the scatter point by that velocity's y component |
| Simulation.TickKeepsInv | app/components/MicrofiberStarModel.tsx:122-167 | a frame keeps the invariant |
| Simulation.LoadRescales | app/components/MicrofiberStarModel.tsx:110-112 | loading sets maxDim to `Math.max(size.x, size.y, size.z, 10)` and particleRadius to 1.5 maxDim, aims every active particle at the new anchor, and keeps the count, positions, velocities, input state, inactive targets and the invariant |
| StarModel.MicrofiberStar.constructor | app/components/MicrofiberStarModel.tsx:7-23 | the new component holds the initial state and satisfies `Valid()` |
| StarModel.MicrofiberStar.SetVec | app/components/MicrofiberStarModel.tsx:204-206 | stores one particle's three coordinates into its slots of a buffer |
| StarModel.MicrofiberStar.SeedParticles | app/components/MicrofiberStarModel.tsx:195-215 | the seeding loop leaves the state as `Seed` of the old state |
| StarModel.MicrofiberStar.SeedAll | app/components/MicrofiberStarModel.tsx:195-215 | the seeding loop over the bare buffers computes `Seed` of the old buffers |
| StarModel.MicrofiberStar.SeedOne | app/components/MicrofiberStarModel.tsx:196-214 | one iteration writes the scatter point to position and target and the seeded velocity |
| StarModel.MicrofiberStar.AddParticles | app/components/MicrofiberStarModel.tsx:191-221 | the new state is `Particles.AddParticles` of the old one; `Valid()` is kept |
| StarModel.MicrofiberStar.RegenerateInitialPositions | app/components/MicrofiberStarModel.tsx:266-288 | the new state is `Regenerate` of the old one; `Valid()` is kept |
| StarModel.MicrofiberStar.UpdateTargetPositions | app/components/MicrofiberStarModel.tsx:249-264 | the new state is `UpdateTargets` of the old one; `Valid()` is kept |
| StarModel.MicrofiberStar.RetargetAll | app/components/MicrofiberStarModel.tsx:250-263 | the retargeting loop writes the anchor to every active target slot and nothing else |
| StarModel.MicrofiberStar.HandleScroll | app/components/MicrofiberStarModel.tsx:223-247 | the new state is `Simulation.HandleScroll` of the old one; `Valid()` is kept |
| StarModel.MicrofiberStar.ApplyWheel | app/components/MicrofiberStarModel.tsx:235-244 | the scalar half of the wheel handler leaves scroll progress and rotation speed as `Input.Scroll` prescribes |
| StarModel.MicrofiberStar.OnModelLoaded | app/components/MicrofiberStarModel.tsx:110-112 | the new state is `Load` of the old one; `Valid()` is kept |
| StarModel.MicrofiberStar.Animate | app/components/MicrofiberStarModel.tsx:122-167 | the new state is `Tick` of the old one; `Valid()` is kept |
| StarModel.MicrofiberStar.MoveParticles | app/components/MicrofiberStarModel.tsx:137-163 | the frame loop leaves the positions as `Advance` of the old store and changes nothing else |
| StarModel.MicrofiberStar.MoveAll | app/components/MicrofiberStarModel.tsx:137-163 | the frame loop over the bare buffers computes `Advance` of the old positions |
| StarModel.MicrofiberStar.MoveOne | app/components/MicrofiberStarModel.tsx:138-162 | one iteration moves particle k and extends the moved prefix by one |

## Left out

- Rendering is not modelled: the scene, camera, renderer, lights, debug helpers, `renderer.render`, `setDrawRange` and `needsUpdate` are calls into three.js.
- `model.rotation.y += rotationSpeed` (line 134) is left out. It turns the loaded model, not the particle state.
- GLTF loading, the pivot and the camera placement (lines 89-120) are asynchronous I/O. Only the `maxDim`/`particleRadius` arithmetic and the retarget that follows it are modelled, as `OnModelLoaded`. The box size is an input.
- `requestAnimationFrame`, the wheel and resize listeners, resize handling and cleanup are event plumbing. `Animate` is one frame, and `HandleScroll` takes `deltaY` directly.
- The mount-time call of `regenerateInitialPositions` (line 64) is not a separate operation. The constructor models the state before it, and a caller runs `RegenerateInitialPositions`.
- Float32 rounding is left out. The buffers hold reals. The input scalars (JavaScript doubles) and `deltaY` are reals too, so a non-finite `deltaY`, which would leave `scrollProgress` NaN for good, is outside the model.
- `Math.sin`, `Math.cos`, `Math.acos` and `Math.cbrt` are uninterpreted. Sphere containment (`Geometry.ScatterPointInBall`) is therefore stated under the hypothesis sin^2 + cos^2 = 1 at the two drawn angles and cbrt(u) in [0, 1], and the distribution of the scatter points is not stated.
- The sector point that `updateTargetPositions` computes and discards (lines 251-258) is not computed. The three `Math.random()` draws per particle it consumes do not appear either, since nothing depends on them.
- `console.log` and `console.error` are left out.
- Particles.Seed: its own contract states only the buffer lengths and how the count moves; what it does to the slots is stated by the lemmas beside it.
- Particles.AddParticles: its own contract states only the buffer lengths and how the count moves; what it does to the slots is stated by the lemmas beside it.
- Particles.Regenerate: its own contract states only the buffer lengths and how the count moves; what it does to the slots is stated by the lemmas beside it.
- Particles.UpdateTargets: its own contract states only the buffer lengths and how the count moves; what it does to the slots is stated by the lemmas beside it.
- Particles.Advance: its own contract states only the buffer lengths and how the count moves; what it does to the slots is stated by the lemmas beside it.
- Simulation.HandleScroll: its own contract states only the buffer lengths and how the count moves; what it does to the slots is stated by the lemmas beside it.
- Simulation.Prepare: its own contract states only the buffer lengths and how the count moves; what it does to the slots is stated by the lemmas beside it.
- Particles.Moved: its own contract states only that there is one moved point per active particle; what each point is is stated by MovedStep and AdvanceMovesAt.
- Simulation.Load: its own contract states only what is kept and the bounds on maxDim and particleRadius; LoadRescales states the exact new maxDim and the retargeting.
- Simulation.Tick: its own contract states only the buffer lengths and how the count moves; the rest of a frame is stated by TickGrowth (count), TickMovesOldAt (old particles' positions), TickFrame (old targets while spinning, slots beyond the count), TickSeedsNewAt (new particles' target, velocity and position) and TickKeepsRest (velocities of old particles, maxDim, particleRadius, input).
