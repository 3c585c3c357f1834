/**
 * The values a polygon's pattern bank is made of: corners, the live geometry, and the stored
 * pattern slots, with the deep copies between them (saveCurrentStateTo / applyState) and the
 * corner list that setSides produces.
 */
module Patterns {
  import opened Wrappers

  /** A fresh corner plays middle C (Hz) for a fifth of its slot at full volume. */
  const MiddleC: real := 261.63
  const DefaultLengthFactor: real := 0.2
  const DefaultVolume: real := 1.0

  /** The four pattern slots every polygon carries. */
  const PatternLetters: set<char> := {'A', 'B', 'C', 'D'}

  /** A corner of the live polygon; `note == 0.0` is a rest. */
  datatype Corner = Corner(index: int, note: real, lengthFactor: real, volume: real)

  /** A corner as kept in a pattern slot; slots saved by older versions may lack the volume. */
  datatype StoredCorner = StoredCorner(index: int, note: real, lengthFactor: real, volume: Option<real>)

  /** The live geometry a polygon draws and plays (its fields sides .. corners). */
  datatype LiveState = LiveState(sides: int, radius: real, strokeStyle: string, fillStyle: string,
                                 corners: seq<Corner>)

  /** One pattern slot (A-D). */
  datatype PatternState = PatternState(sides: int, radius: real, strokeStyle: string, fillStyle: string,
                                       corners: seq<StoredCorner>)

  function DefaultCorner(i: int): Corner
  {
    Corner(i, MiddleC, DefaultLengthFactor, DefaultVolume)
  }

  /** Corner k carries index k. */
  predicate Indexed(cs: seq<Corner>)
  {
    forall k :: 0 <= k < |cs| ==> cs[k].index == k
  }

  predicate StoredIndexed(cs: seq<StoredCorner>)
  {
    forall k :: 0 <= k < |cs| ==> cs[k].index == k
  }

  /** At least a triangle, one corner per side, corners indexed 0 .. sides-1. */
  predicate WellFormedLive(l: LiveState)
  {
    l.sides >= 3 && |l.corners| == l.sides && Indexed(l.corners)
  }

  predicate WellFormed(p: PatternState)
  {
    p.sides >= 3 && |p.corners| == p.sides && StoredIndexed(p.corners)
  }

  /** JSON copy of a live corner: every field, the volume included. */
  function StoreCorner(c: Corner): StoredCorner
  {
    StoredCorner(c.index, c.note, c.lengthFactor, Some(c.volume))
  }

  /** applyState's per-corner copy: an absent volume becomes 1.0. */
  function LoadCorner(c: StoredCorner): (r: Corner)
    ensures r.index == c.index && r.note == c.note && r.lengthFactor == c.lengthFactor
    ensures c.volume.Some? ==> r.volume == c.volume.value
    ensures c.volume.None? ==> r.volume == DefaultVolume
  {
    Corner(c.index, c.note, c.lengthFactor, c.volume.GetOr(DefaultVolume))
  }

  /** saveCurrentStateTo: the slot value built from the live geometry. */
  function Snapshot(l: LiveState): (p: PatternState)
    ensures p.sides == l.sides && p.radius == l.radius
    ensures p.strokeStyle == l.strokeStyle && p.fillStyle == l.fillStyle
    ensures |p.corners| == |l.corners|
    ensures forall k :: 0 <= k < |p.corners| ==>
              && p.corners[k].index == l.corners[k].index && p.corners[k].note == l.corners[k].note
              && p.corners[k].lengthFactor == l.corners[k].lengthFactor
              && p.corners[k].volume == Some(l.corners[k].volume)
  {
    PatternState(l.sides, l.radius, l.strokeStyle, l.fillStyle,
                 seq(|l.corners|, k requires 0 <= k < |l.corners| => StoreCorner(l.corners[k])))
  }

  /** applyState: the live geometry a slot loads into. */
  function Restore(p: PatternState): (l: LiveState)
    ensures l.sides == p.sides && l.radius == p.radius
    ensures l.strokeStyle == p.strokeStyle && l.fillStyle == p.fillStyle
    ensures |l.corners| == |p.corners|
    ensures forall k :: 0 <= k < |l.corners| ==> l.corners[k] == LoadCorner(p.corners[k])
  {
    LiveState(p.sides, p.radius, p.strokeStyle, p.fillStyle,
              seq(|p.corners|, k requires 0 <= k < |p.corners| => LoadCorner(p.corners[k])))
  }

  /** Saving then loading a slot gives back the same geometry and corners, by value. */
  lemma RestoreSnapshot(l: LiveState)
    ensures Restore(Snapshot(l)) == l
  {
    var r := Restore(Snapshot(l));
    assert |r.corners| == |l.corners|;
    forall k | 0 <= k < |l.corners| ensures r.corners[k] == l.corners[k] {
      assert Snapshot(l).corners[k] == StoreCorner(l.corners[k]);
    }
  }

  /** Loading keeps sides, radius and notes, and defaults exactly the missing volumes. */
  lemma RestoreDefaultsVolume(p: PatternState, k: int)
    requires 0 <= k < |p.corners|
    ensures |Restore(p).corners| == |p.corners|
    ensures Restore(p).sides == p.sides && Restore(p).radius == p.radius
    ensures Restore(p).corners[k].note == p.corners[k].note
    ensures Restore(p).corners[k].volume == if p.corners[k].volume.Some? then p.corners[k].volume.value else 1.0
  {
  }

  /** Both copies keep the well-formedness of the geometry. */
  lemma SnapshotWellFormed(l: LiveState)
    requires WellFormedLive(l)
    ensures WellFormed(Snapshot(l))
  {
  }

  lemma RestoreWellFormed(p: PatternState)
    requires WellFormed(p)
    ensures WellFormedLive(Restore(p))
  {
  }

  /** The corner list setSides leaves: the first n old corners, then defaults, all re-indexed. */
  function Resized(cs: seq<Corner>, n: nat): (r: seq<Corner>)
    ensures |r| == n && Indexed(r)
    ensures forall k :: 0 <= k < n && k < |cs| ==>
              r[k].note == cs[k].note && r[k].lengthFactor == cs[k].lengthFactor && r[k].volume == cs[k].volume
    ensures forall k :: |cs| <= k < n ==> r[k] == DefaultCorner(k)
  {
    seq(n, k requires 0 <= k < n => if k < |cs| then cs[k].(index := k) else DefaultCorner(k))
  }

  /** Growing keeps every old corner unchanged and appends default corners. */
  lemma ResizedGrows(cs: seq<Corner>, n: nat)
    requires Indexed(cs) && |cs| <= n
    ensures |Resized(cs, n)| == n && Indexed(Resized(cs, n))
    ensures Resized(cs, n)[..|cs|] == cs
    ensures forall k :: |cs| <= k < n ==> Resized(cs, n)[k] == DefaultCorner(k)
  {
    var r := Resized(cs, n);
    forall k | 0 <= k < |cs| ensures r[..|cs|][k] == cs[k] {
      assert cs[k].(index := k) == cs[k];
    }
  }

  /** Shrinking keeps exactly the first n corners. */
  lemma ResizedShrinks(cs: seq<Corner>, n: nat)
    requires Indexed(cs) && n <= |cs|
    ensures Resized(cs, n) == cs[..n]
  {
    var r := Resized(cs, n);
    forall k | 0 <= k < n ensures r[k] == cs[..n][k] {
      assert cs[k].(index := k) == cs[k];
    }
  }
}
