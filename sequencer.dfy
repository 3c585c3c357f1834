/**
 * RotatingPolygon: a polygon's pattern bank (slots A-D), its live geometry, and the pattern
 * sequencer that switches slots at rotation-cycle boundaries, together with the setters and
 * the editor and transport actions that change them.
 */
module Sequencer {
  import opened Wrappers
  import opened Music
  import opened Patterns
  import opened Input
  import opened Detection

  /** Math.max(0, t): time before the start counts as the start. */
  function NonNegative(t: real): real
  {
    if t > 0.0 then t else 0.0
  }

  /** The rotation cycle that time t (seconds) falls in: whole rotations elapsed since the start. */
  function CycleIndex(bpm: real, t: real, measures: int): int
    requires measures >= 1
  {
    (bpm / 60.0 * NonNegative(t) / RotationDuration(measures) as real).Floor
  }

  /** Cycle c is the rotation the elapsed beats fall in: c rotations are complete, c + 1 are not. */
  lemma CycleIndexBounds(bpm: real, t: real, measures: int)
    requires measures >= 1
    ensures var c, beats, d := CycleIndex(bpm, t, measures), bpm / 60.0 * NonNegative(t), RotationDuration(measures) as real;
            c as real * d <= beats < c as real * d + d
  {
    var beats, d := bpm / 60.0 * NonNegative(t), RotationDuration(measures) as real;
    assert CycleIndex(bpm, t, measures) == (beats / d).Floor;
    FloorScale(beats, d);
  }

  /** floor(b / d) whole units of d fit into b, and one more does not. */
  lemma FloorScale(b: real, d: real)
    requires d > 0.0
    ensures var c := (b / d).Floor; c as real * d <= b < c as real * d + d
  {
    var c := (b / d).Floor as real;
    LowerBound(c, b, d);
    UpperBound(c + 1.0, b, d);
    assert (c + 1.0) * d == c * d + d;
  }

  /** A lower bound on b / d scales to a lower bound on b. */
  lemma LowerBound(c: real, b: real, d: real)
    requires d > 0.0 && c <= b / d
    ensures c * d <= b
  {
  }

  /** A strict upper bound on b / d scales to a strict upper bound on b. */
  lemma UpperBound(e: real, b: real, d: real)
    requires d > 0.0 && b / d < e
    ensures b < e * d
  {
  }

  /**
   * With a non-negative tempo the cycle index is 0 at and before the start, never negative,
   * and never goes back.
   */
  lemma CycleIndexMonotone(bpm: real, t1: real, t2: real, measures: int)
    requires measures >= 1 && bpm >= 0.0 && t1 <= t2
    ensures t1 <= 0.0 ==> CycleIndex(bpm, t1, measures) == 0
    ensures 0 <= CycleIndex(bpm, t1, measures) <= CycleIndex(bpm, t2, measures)
  {
    var d := RotationDuration(measures) as real;
    var x1, x2 := bpm / 60.0 * NonNegative(t1) / d, bpm / 60.0 * NonNegative(t2) / d;
    assert CycleIndex(bpm, t1, measures) == x1.Floor && CycleIndex(bpm, t2, measures) == x2.Floor;
    ScaleMonotone(bpm / 60.0 / d, NonNegative(t1), NonNegative(t2));
    assert x1 == bpm / 60.0 / d * NonNegative(t1);
    assert x2 == bpm / 60.0 / d * NonNegative(t2);
    FloorMonotone(x1, x2);
    if t1 <= 0.0 {
      assert x1 == 0.0;
    }
  }

  lemma FloorMonotone(x: real, y: real)
    requires x <= y
    ensures x.Floor <= y.Floor
  {
  }

  lemma ScaleMonotone(c: real, a: real, b: real)
    requires c >= 0.0 && 0.0 <= a <= b
    ensures 0.0 <= c * a <= c * b
  {
    assert c * b - c * a == c * (b - a);
  }

  /** The value a fresh polygon gives every slot: `sides` default corners. */
  function SeedState(sides: int, radius: real, strokeStyle: string, fillStyle: string): LiveState
    requires sides >= 0
  {
    LiveState(sides, radius, strokeStyle, fillStyle, Resized([], sides))
  }

  /** What checkForIntersection returns: the distance of the hitting corner and the corner. */
  datatype Hit = Hit(angle: real, corner: Corner)

  class RotatingPolygon {
    var measures: int
    var polyVolume: real
    var currentPatternChar: char
    var sequence: seq<char>
    var patterns: map<char, PatternState>
    // the live geometry
    var sides: int
    var radius: real
    var strokeStyle: string
    var fillStyle: string
    var corners: seq<Corner>
    // playback and selection state
    var wasHittingLine: bool
    var selectedCornerIndex: Option<int>
    var lastCycleIndex: int

    function Live(): LiveState
      reads this
    {
      LiveState(sides, radius, strokeStyle, fillStyle, corners)
    }

    /** Everything but the agreement of the live geometry with the active slot. */
    ghost predicate Consistent()
      reads this
    {
      && WellFormedLive(Live())
      && measures >= 1
      && ValidSequence(sequence)
      && PatternLetters <= patterns.Keys
      && (forall ch :: ch in patterns ==> WellFormed(patterns[ch]))
      && currentPatternChar in patterns
      && lastCycleIndex >= -1
      && (selectedCornerIndex.Some? ==> selectedCornerIndex.value >= 0)
    }

    /**
     * The object invariant. Every mutator saves into the active slot, so the live geometry is
     * always what loading the active slot gives.
     */
    ghost predicate Valid()
      reads this
    {
      Consistent() && Live() == Restore(patterns[currentPatternChar])
    }

    /** A polygon with one seeded pattern copied into all four slots, showing slot A. */
    constructor (initialSides: int, initialRadius: real, stroke: string, fill: string,
                 initialMeasures: int, initialPolyVolume: real)
      requires initialSides >= 3 && initialMeasures >= 1
      ensures Valid()
      ensures patterns == map ch | ch in PatternLetters :: Snapshot(SeedState(initialSides, initialRadius, stroke, fill))
      ensures Live() == SeedState(initialSides, initialRadius, stroke, fill)
      ensures currentPatternChar == 'A' && sequence == ['A'] && lastCycleIndex == -1
      ensures !wasHittingLine && selectedCornerIndex.None?
      ensures measures == initialMeasures && polyVolume == initialPolyVolume
    {
      var seed := Snapshot(SeedState(initialSides, initialRadius, stroke, fill));
      measures := initialMeasures;
      currentPatternChar := 'A';
      sequence := ['A'];
      patterns := map ch | ch in PatternLetters :: seed;
      polyVolume := initialPolyVolume;
      var l := Restore(seed);
      sides, radius, strokeStyle, fillStyle, corners := l.sides, l.radius, l.strokeStyle, l.fillStyle, l.corners;
      wasHittingLine := false;
      selectedCornerIndex := None;
      lastCycleIndex := -1;
      new;
      RestoreSnapshot(SeedState(initialSides, initialRadius, stroke, fill));
      SnapshotWellFormed(SeedState(initialSides, initialRadius, stroke, fill));
    }

    /** saveCurrentStateTo: a deep copy of the live geometry into slot ch; no other slot changes. */
    method SaveCurrentStateTo(ch: char)
      requires Consistent()
      modifies this`patterns
      ensures Consistent()
      ensures patterns == old(patterns)[ch := Snapshot(Live())]
      ensures (ch == currentPatternChar || old(Valid())) ==> Valid()
    {
      SnapshotWellFormed(Live());
      RestoreSnapshot(Live());
      patterns := patterns[ch := Snapshot(Live())];
    }

    /** Saving into a slot and loading it back gives the same live geometry, in that slot. */
    method SaveThenLoad(ch: char)
      requires Valid()
      modifies this`patterns, this`sides, this`radius, this`strokeStyle, this`fillStyle, this`corners,
               this`currentPatternChar
      ensures Consistent()
      ensures Live() == old(Live()) && currentPatternChar == ch && Valid()
      ensures patterns == old(patterns)[ch := Snapshot(old(Live()))]
    {
      SaveCurrentStateTo(ch);
      LoadStateFrom(ch);
      RestoreSnapshot(old(Live()));
    }

    /** applyState: the live geometry becomes a copy of the slot value, missing volumes defaulted. */
    method ApplyState(data: PatternState)
      modifies this`sides, this`radius, this`strokeStyle, this`fillStyle, this`corners
      ensures Live() == Restore(data)
    {
      var l := Restore(data);
      sides, radius, strokeStyle, fillStyle, corners := l.sides, l.radius, l.strokeStyle, l.fillStyle, l.corners;
    }

    /** loadStateFrom: make slot ch live and active; a letter with no slot changes nothing. */
    method LoadStateFrom(ch: char)
      requires Consistent()
      modifies this`sides, this`radius, this`strokeStyle, this`fillStyle, this`corners, this`currentPatternChar
      ensures Consistent()
      ensures ch in patterns ==> currentPatternChar == ch && Live() == Restore(patterns[ch]) && Valid()
      ensures ch !in patterns ==> currentPatternChar == old(currentPatternChar) && Live() == old(Live())
    {
      if ch !in patterns {
        return;
      }
      RestoreWellFormed(patterns[ch]);
      ApplyState(patterns[ch]);
      currentPatternChar := ch;
    }

    /**
     * updateSequence: nothing happens unless time t has entered a later cycle than the last one
     * seen. Then the live geometry is flushed into the slot being left, and the slot the
     * sequence names for that cycle becomes live, loaded as it was stored before this update.
     */
    method UpdateSequence(t: real, bpm: real)
      requires Valid()
      modifies this`lastCycleIndex, this`patterns, this`currentPatternChar,
               this`sides, this`radius, this`strokeStyle, this`fillStyle, this`corners
      ensures Valid()
      ensures var c := CycleIndex(bpm, t, measures);
              if c > old(lastCycleIndex) then
                && lastCycleIndex == c
                && currentPatternChar == sequence[c % |sequence|]
                && patterns == old(patterns)[old(currentPatternChar) := Snapshot(old(Live()))]
                && Live() == (if currentPatternChar == old(currentPatternChar) then old(Live())
                              else Restore(old(patterns)[currentPatternChar]))
              else
                && lastCycleIndex == old(lastCycleIndex)
                && currentPatternChar == old(currentPatternChar)
                && patterns == old(patterns)
                && Live() == old(Live())
    {
      var duration := RotationDuration(measures);
      if duration <= 0 {
        return;
      }
      var totalBeats := bpm / 60.0 * NonNegative(t);
      var currentCycleIndex := (totalBeats / duration as real).Floor;
      if currentCycleIndex > lastCycleIndex {
        lastCycleIndex := currentCycleIndex;
        var nextChar := sequence[currentCycleIndex % |sequence|];
        SaveCurrentStateTo(currentPatternChar);
        if nextChar != currentPatternChar {
          LoadStateFrom(nextChar);
        }
      }
    }

    /**
     * setSides: the side count becomes max(3, floor(n)). An unchanged count is a no-op;
     * otherwise corners are kept or appended with defaults, re-indexed, the selection is
     * pulled back into range, and the result is saved into the active slot.
     */
    method SetSides(n: real)
      requires Valid()
      modifies this`sides, this`corners, this`selectedCornerIndex, this`patterns
      ensures Valid()
      ensures var newCount := if n.Floor > 3 then n.Floor else 3;
              if newCount == old(sides) then
                && Live() == old(Live())
                && patterns == old(patterns)
                && selectedCornerIndex == old(selectedCornerIndex)
              else
                && sides == newCount
                && corners == Resized(old(corners), newCount)
                && selectedCornerIndex == (if old(selectedCornerIndex).Some? && old(selectedCornerIndex).value >= newCount
                                           then Some(newCount - 1) else old(selectedCornerIndex))
                && patterns == old(patterns)[currentPatternChar := Snapshot(Live())]
    {
      var newCount := if n.Floor > 3 then n.Floor else 3;
      if newCount == sides {
        return;
      }
      var newCorners := ResizeCorners(corners, newCount);
      sides := newCount;
      corners := newCorners;
      if selectedCornerIndex.Some? && selectedCornerIndex.value >= sides {
        selectedCornerIndex := Some(sides - 1);
      }
      SaveCurrentStateTo(currentPatternChar);
    }

    /**
     * setSides' corner loops: push default corners up to n, or truncate to n, then renumber
     * every corner by its position.
     */
    static method ResizeCorners(corners: seq<Corner>, newCount: int) returns (newCorners: seq<Corner>)
      requires newCount >= 0
      ensures newCorners == Resized(corners, newCount)
    {
      var sides := |corners|;
      newCorners := corners;
      if newCount > sides {
        var diff := newCount - sides;
        var i := 0;
        while i < diff
          invariant 0 <= i <= diff
          invariant |newCorners| == sides + i
          invariant newCorners[..sides] == corners
          invariant forall k :: sides <= k < sides + i ==> newCorners[k] == DefaultCorner(k)
        {
          newCorners := newCorners + [Corner(sides + i, MiddleC, DefaultLengthFactor, DefaultVolume)];
          i := i + 1;
        }
      } else {
        newCorners := newCorners[..newCount];
      }
      ghost var target := Resized(corners, newCount);
      var k := 0;
      while k < |newCorners|
        invariant |newCorners| == newCount
        invariant 0 <= k <= newCount
        invariant forall j :: 0 <= j < k ==> newCorners[j] == target[j]
        invariant forall j :: k <= j < newCount ==>
                    newCorners[j] == if j < |corners| then corners[j] else DefaultCorner(j)
      {
        newCorners := newCorners[k := newCorners[k].(index := k)];
        k := k + 1;
      }
    }

    /** setRadius: the radius becomes max(5, r), saved into the active slot only. */
    method SetRadius(r: real)
      requires Valid()
      modifies this`radius, this`patterns
      ensures Valid()
      ensures radius == (if r > 5.0 then r else 5.0) && radius >= 5.0
      ensures patterns == old(patterns)[currentPatternChar := Snapshot(Live())]
    {
      radius := if 5.0 > r then 5.0 else r;
      SaveCurrentStateTo(currentPatternChar);
    }

    /** The sequence box's input handler: keep the pattern letters typed, and re-evaluate. */
    method SetSequenceText(text: string)
      requires Valid()
      modifies this`sequence, this`lastCycleIndex
      ensures Valid()
      ensures sequence == CleanSequence(text) && lastCycleIndex == -1
    {
      sequence := CleanSequence(text);
      lastCycleIndex := -1;
    }

    /** The measures box's input handler: at least one measure, and re-evaluate. */
    method SetMeasures(value: int)
      requires Valid()
      modifies this`measures, this`lastCycleIndex
      ensures Valid()
      ensures measures == (if value > 1 then value else 1) && lastCycleIndex == -1
    {
      measures := if 1 > value then 1 else value;
      lastCycleIndex := -1;
    }

    /** The per-polygon part of the reset button: rearm, forget the cycle, show the first step. */
    method ResetPlayback()
      requires Valid()
      modifies this`wasHittingLine, this`lastCycleIndex, this`currentPatternChar,
               this`sides, this`radius, this`strokeStyle, this`fillStyle, this`corners
      ensures Valid() && Rewound()
      ensures patterns == old(patterns) && sequence == old(sequence) && measures == old(measures)
      ensures polyVolume == old(polyVolume) && selectedCornerIndex == old(selectedCornerIndex)
      ensures Settings() == old(Settings())
    {
      wasHittingLine := false;
      lastCycleIndex := -1;
      var first := if |sequence| > 0 then sequence[0] else 'A';
      LoadStateFrom(first);
    }

    /** The fields a playback reset keeps: the slots, the sequence, measures, volume, selection. */
    ghost function Settings(): (map<char, PatternState>, seq<char>, int, real, Option<int>)
      reads this
    {
      (patterns, sequence, measures, polyVolume, selectedCornerIndex)
    }

    /** State right after a reset: the gate open, no cycle seen, the first step's slot live. */
    ghost predicate Rewound()
      reads this
    {
      && !wasHittingLine
      && lastCycleIndex == -1
      && |sequence| > 0
      && currentPatternChar == sequence[0]
      && sequence[0] in patterns
      && Live() == Restore(patterns[sequence[0]])
    }

    /**
     * assignNextCornerNote on this polygon: a known key writes its frequency into corner
     * assignIndex mod sides, selects that corner, saves it, and returns the next corner index
     * (mod sides). An unknown key changes nothing.
     */
    method AssignNextCornerNote(key: string, assignIndex: int) returns (next: int)
      requires Valid() && assignIndex >= 0
      modifies this`corners, this`selectedCornerIndex, this`patterns
      ensures Valid()
      ensures NoteFrequency(key).None? ==>
                next == assignIndex && corners == old(corners)
                && selectedCornerIndex == old(selectedCornerIndex) && patterns == old(patterns)
      ensures NoteFrequency(key).Some? ==>
                var i := assignIndex % sides;
                && corners == old(corners)[i := old(corners)[i].(note := NoteFrequency(key).value)]
                && selectedCornerIndex == Some(i)
                && patterns == old(patterns)[currentPatternChar := Snapshot(Live())]
                && next == (i + 1) % sides
                && 0 <= next < sides
    {
      var freq := NoteFrequency(key);
      if freq.None? {
        return assignIndex;
      }
      if selectedCornerIndex.None? {
        selectedCornerIndex := Some(0);
      }
      var i := assignIndex % |corners|;
      corners := corners[i := corners[i].(note := freq.value)];
      selectedCornerIndex := Some(i);
      SaveCurrentStateTo(currentPatternChar);
      next := (i + 1) % |corners|;
    }

    /** checkForIntersection over the corners' distances to the playhead (dist[k] for corner k). */
    method CheckForIntersection(dist: seq<real>) returns (hit: Option<Hit>)
      requires |dist| == |corners|
      ensures hit.Some? <==> exists k :: 0 <= k < |dist| && dist[k] < ToleranceDegrees
      ensures hit == match FirstWithin(dist, ToleranceDegrees)
                     case None => None
                     case Some(k) => Some(Hit(dist[k], corners[k]))
    {
      var k := 0;
      while k < |corners|
        invariant 0 <= k <= |corners|
        invariant forall j :: 0 <= j < k ==> dist[j] >= ToleranceDegrees
      {
        if dist[k] < ToleranceDegrees {
          return Some(Hit(dist[k], corners[k]));
        }
        k := k + 1;
      }
      return None;
    }
  }

  /** The reset button: time goes back to just before the start and every polygon is rewound. */
  method Reset(polygons: seq<RotatingPolygon>) returns (elapsedSeconds: real)
    requires forall p :: p in polygons ==> p.Valid()
    modifies set p | p in polygons
    ensures elapsedSeconds == -0.1
    ensures forall p :: p in polygons ==>
              p.Valid() && p.Rewound() && p.patterns == old(p.patterns) && p.sequence == old(p.sequence)
    ensures forall p :: p in polygons ==> p.measures == old(p.measures)
    ensures forall p :: p in polygons ==> p.polyVolume == old(p.polyVolume)
    ensures forall p :: p in polygons ==> p.selectedCornerIndex == old(p.selectedCornerIndex)
  {
    elapsedSeconds := -0.1;
    var i := 0;
    while i < |polygons|
      invariant 0 <= i <= |polygons|
      invariant forall p :: p in polygons ==> p.Valid() && p.Settings() == old(p.Settings())
      invariant forall p :: p in polygons[..i] ==> p.Rewound()
    {
      polygons[i].ResetPlayback();
      i := i + 1;
    }
  }
}
