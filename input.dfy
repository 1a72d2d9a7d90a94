/**
 * The wheel-input state machine of handleScroll: scroll progress and rotation
 * speed, both clamped, and the last observed direction, whose change to "up"
 * triggers a full re-scatter.
 */
module Input {
  import opened Wrappers
  import opened Geometry

  /** Each wheel unit adds this much to scroll progress and rotation speed. */
  const ScrollGain: real := 0.0001
  const MaxRotationSpeed: real := 0.05

  datatype Direction = Up | Down

  datatype InputState = InputState(scrollProgress: real, rotationSpeed: real, lastDirection: Option<Direction>)

  const InitialInput: InputState := InputState(0.0, 0.0, None)

  predicate Bounded(s: InputState) {
    0.0 <= s.scrollProgress <= 1.0 && 0.0 <= s.rotationSpeed <= MaxRotationSpeed
  }

  /** A positive deltaY scrolls down; zero and negative deltas count as up. */
  function DirectionOf(delta: real): (d: Direction)
    ensures d == Down <==> delta > 0.0
    ensures d == Up <==> delta <= 0.0
  {
    if delta > 0.0 then Down else Up
  }

  /** Math.max(lo, Math.min(hi, x)) */
  function Clamp(x: real, lo: real, hi: real): (r: real)
    requires lo <= hi
    ensures lo <= r <= hi
    ensures lo <= x <= hi ==> r == x
    ensures x < lo ==> r == lo
    ensures hi < x ==> r == hi
  {
    var below := if hi < x then hi else x;
    if lo > below then lo else below
  }

  /** Whether the wheel event re-scatters: a change of direction whose new direction is up. */
  function Rescatters(s: InputState, delta: real): (b: bool)
    ensures b <==> delta <= 0.0 && s.lastDirection != Some(Up)
  {
    var dir := DirectionOf(delta);
    Some(dir) != s.lastDirection && dir == Up
  }

  /** The scalar part of handleScroll(delta). */
  function Scroll(s: InputState, delta: real): (r: InputState)
    ensures Bounded(r)
    ensures r.lastDirection == Some(DirectionOf(delta))
  {
    var dir := DirectionOf(delta);
    var last := if Some(dir) != s.lastDirection then Some(dir) else s.lastDirection;
    var progress := Clamp(s.scrollProgress + delta * ScrollGain, 0.0, 1.0);
    var speed := if dir == Down then s.rotationSpeed + delta * ScrollGain
                 else s.rotationSpeed - Abs(delta) * ScrollGain;
    InputState(progress, Clamp(speed, 0.0, MaxRotationSpeed), last)
  }

  /**
   * Scrolling down never slows the rotation nor rewinds the progress; scrolling
   * up never speeds it up nor advances the progress.
   */
  lemma ScrollMovesWithDirection(s: InputState, delta: real)
    requires Bounded(s)
    ensures delta > 0.0 ==> Scroll(s, delta).rotationSpeed >= s.rotationSpeed
    ensures delta > 0.0 ==> Scroll(s, delta).scrollProgress >= s.scrollProgress
    ensures delta <= 0.0 ==> Scroll(s, delta).rotationSpeed <= s.rotationSpeed
    ensures delta <= 0.0 ==> Scroll(s, delta).scrollProgress <= s.scrollProgress
    ensures delta == 0.0 ==> Scroll(s, delta).scrollProgress == s.scrollProgress
  {
  }

  /** The input state after a run of wheel events, in arrival order. */
  function ScrollAll(s: InputState, deltas: seq<real>): InputState
    decreases |deltas|
  {
    if deltas == [] then s else ScrollAll(Scroll(s, deltas[0]), deltas[1..])
  }

  /** How many of a run of wheel events re-scatter the field. */
  function RescatterCount(s: InputState, deltas: seq<real>): nat
    decreases |deltas|
  {
    if deltas == [] then 0
    else (if Rescatters(s, deltas[0]) then 1 else 0) + RescatterCount(Scroll(s, deltas[0]), deltas[1..])
  }

  /** Every event of the run scrolls in direction d. */
  predicate AllInDirection(deltas: seq<real>, d: Direction) {
    forall i :: 0 <= i < |deltas| ==> DirectionOf(deltas[i]) == d
  }

  /** While the direction is held, no event re-scatters. */
  lemma {:induction false} HeldDirectionNeverRescatters(s: InputState, deltas: seq<real>, d: Direction)
    requires s.lastDirection == Some(d) && AllInDirection(deltas, d)
    ensures RescatterCount(s, deltas) == 0
    decreases |deltas|
  {
    if deltas != [] {
      assert DirectionOf(deltas[0]) == d;
      HeldDirectionNeverRescatters(Scroll(s, deltas[0]), deltas[1..], d);
    }
  }

  /**
   * A run of same-direction events re-scatters at most once, and only when it
   * scrolls up; a downward run never re-scatters.
   */
  lemma {:induction false} SameDirectionRescattersAtMostOnce(s: InputState, deltas: seq<real>, d: Direction)
    requires AllInDirection(deltas, d)
    ensures RescatterCount(s, deltas) <= 1
    ensures d == Down ==> RescatterCount(s, deltas) == 0
    ensures RescatterCount(s, deltas) == 1 <==> deltas != [] && d == Up && s.lastDirection != Some(Up)
  {
    if deltas != [] {
      assert DirectionOf(deltas[0]) == d;
      HeldDirectionNeverRescatters(Scroll(s, deltas[0]), deltas[1..], d);
    }
  }

  /** A down event followed by an up event re-scatters exactly once, on the up event. */
  lemma DownThenUpRescattersOnce(s: InputState, delta: real)
    requires delta > 0.0
    ensures !Rescatters(s, delta)
    ensures Rescatters(Scroll(s, delta), -delta)
    ensures RescatterCount(s, [delta, -delta]) == 1
  {
    var next := Scroll(s, delta);
    assert [delta, -delta][1..] == [-delta];
    assert [-delta][1..] == [];
    assert RescatterCount(next, [-delta]) == 1 + RescatterCount(Scroll(next, -delta), []);
  }

  /** Each down event of at least 100 units speeds the rotation by 0.01 until the cap. */
  lemma {:induction false} DownRunSpeedsUp(s: InputState, deltas: seq<real>)
    requires Bounded(s)
    requires forall i :: 0 <= i < |deltas| ==> deltas[i] >= 100.0
    ensures ScrollAll(s, deltas).rotationSpeed >= MaxRotationSpeed
         || ScrollAll(s, deltas).rotationSpeed >= s.rotationSpeed + 0.01 * |deltas| as real
    decreases |deltas|
  {
    if deltas != [] {
      var next := Scroll(s, deltas[0]);
      DownRunSpeedsUp(next, deltas[1..]);
    }
  }

  /** Five or more down events of at least 100 units saturate the rotation speed. */
  lemma DownRunSaturates(s: InputState, deltas: seq<real>)
    requires Bounded(s) && |deltas| >= 5
    requires forall i :: 0 <= i < |deltas| ==> deltas[i] >= 100.0
    ensures ScrollAll(s, deltas).rotationSpeed == MaxRotationSpeed
  {
    DownRunSpeedsUp(s, deltas);
    ScrollAllBounded(s, deltas);
  }

  /** The scalars stay within their clamps after any run of events. */
  lemma {:induction false} ScrollAllBounded(s: InputState, deltas: seq<real>)
    requires Bounded(s)
    ensures Bounded(ScrollAll(s, deltas))
    decreases |deltas|
  {
    if deltas != [] {
      ScrollAllBounded(Scroll(s, deltas[0]), deltas[1..]);
    }
  }
}
