/**
 * Flat stride-3 buffers: particle k owns slots 3k, 3k+1 and 3k+2 of a
 * Float32Array-like sequence of reals.
 */
module Buffers {
  import opened Geometry

  /** The 3D value particle k holds in buffer s. */
  function VecAt(s: seq<real>, k: nat): Vec3
    requires 3 * k + 3 <= |s|
  {
    Vec3(s[3 * k], s[3 * k + 1], s[3 * k + 2])
  }

  /** Slot c (0, 1 or 2) of a 3D value. */
  function Coord(v: Vec3, c: nat): real
    requires c < 3
  {
    if c == 0 then v.x else if c == 1 then v.y else v.z
  }

  /** Stores v into particle k's three slots. */
  function WriteVec(s: seq<real>, k: nat, v: Vec3): (r: seq<real>)
    requires 3 * k + 3 <= |s|
    ensures |r| == |s|
    ensures VecAt(r, k) == v
    ensures forall j :: 0 <= j < |s| && (j < 3 * k || 3 * k + 3 <= j) ==> r[j] == s[j]
  {
    s[3 * k := v.x][3 * k + 1 := v.y][3 * k + 2 := v.z]
  }

  /**
   * Stores vals[0], vals[1], ... into particles lo, lo + 1, ..., in that order,
   * as the source's stride-3 loops do.
   */
  function Overwrite(s: seq<real>, lo: nat, vals: seq<Vec3>): (r: seq<real>)
    requires 3 * (lo + |vals|) <= |s|
    ensures |r| == |s|
    decreases |vals|
  {
    if vals == [] then s
    else WriteVec(Overwrite(s, lo, vals[..|vals| - 1]), lo + |vals| - 1, vals[|vals| - 1])
  }

  /** Particle lo + i holds vals[i] after the overwrite. */
  lemma {:induction false} OverwriteAt(s: seq<real>, lo: nat, vals: seq<Vec3>, i: nat)
    requires 3 * (lo + |vals|) <= |s|
    requires i < |vals|
    ensures VecAt(Overwrite(s, lo, vals), lo + i) == vals[i]
  {
    var n := |vals| - 1;
    if i < n {
      var prefix := Overwrite(s, lo, vals[..n]);
      OverwriteAt(s, lo, vals[..n], i);
      var r := WriteVec(prefix, lo + n, vals[n]);
      assert r[3 * (lo + i)] == prefix[3 * (lo + i)];
      assert r[3 * (lo + i) + 1] == prefix[3 * (lo + i) + 1];
      assert r[3 * (lo + i) + 2] == prefix[3 * (lo + i) + 2];
    }
  }

  /** Slots outside particles [lo, lo + |vals|) keep their value. */
  lemma {:induction false} OverwriteFrame(s: seq<real>, lo: nat, vals: seq<Vec3>, j: nat)
    requires 3 * (lo + |vals|) <= |s|
    requires j < |s| && (j < 3 * lo || 3 * (lo + |vals|) <= j)
    ensures Overwrite(s, lo, vals)[j] == s[j]
  {
    if vals != [] {
      OverwriteFrame(s, lo, vals[..|vals| - 1], j);
    }
  }

  /** Slot j of particle lo + i holds the matching coordinate of vals[i]. */
  lemma OverwriteSlot(s: seq<real>, lo: nat, vals: seq<Vec3>, j: nat)
    requires 3 * (lo + |vals|) <= |s|
    requires 3 * lo <= j < 3 * (lo + |vals|)
    ensures Overwrite(s, lo, vals)[j] == Coord(vals[j / 3 - lo], j % 3)
  {
    var k := j / 3;
    OverwriteAt(s, lo, vals, k - lo);
  }

  /** Overwriting one more particle is one more WriteVec: the step of the source's loops. */
  lemma OverwriteExtend(s: seq<real>, lo: nat, vals: seq<Vec3>, n: nat)
    requires 3 * (lo + |vals|) <= |s| && n < |vals|
    ensures Overwrite(s, lo, vals[..n + 1]) == WriteVec(Overwrite(s, lo, vals[..n]), lo + n, vals[n])
  {
    assert vals[..n + 1][..n] == vals[..n];
  }
}
