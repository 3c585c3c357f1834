/**
 * The MIDI export: the note-event timeline rebuilt from the same timing formulas as playback,
 * one track per polygon over a length every polygon's cycle divides, and the patch that forces
 * the division field of the Standard MIDI File header chunk to 480 ticks per quarter note.
 */
module MidiExport {
  import opened Music
  import opened Patterns
  import opened Sequencer

  /** What the export reads of one polygon. */
  datatype Voice = Voice(measures: int, sides: int, radius: real, corners: seq<Corner>)

  predicate ValidVoice(v: Voice)
  {
    v.measures >= 1 && v.sides >= 1
  }

  function VoiceOf(p: RotatingPolygon): Voice
    reads p
  {
    Voice(p.measures, p.sides, p.radius, p.corners)
  }

  /** What a polygon's invariant guarantees about the snapshot export takes of it. */
  function VoicesOf(polygons: seq<RotatingPolygon>): (vs: seq<Voice>)
    requires forall i :: 0 <= i < |polygons| ==> polygons[i].Valid()
    reads polygons
    ensures |vs| == |polygons|
    ensures forall i :: 0 <= i < |vs| ==> vs[i] == VoiceOf(polygons[i]) && ValidVoice(vs[i])
  {
    var vs := seq(|polygons|, i requires 0 <= i < |polygons| reads polygons => VoiceOf(polygons[i]));
    assert forall i :: 0 <= i < |vs| ==> vs[i] == VoiceOf(polygons[i]) && polygons[i].Valid();
    vs
  }

  /**
   * One exported note. The pitch is freqToMidi of `frequency`; freqToMidi itself (a rounded
   * logarithm) is not part of this model.
   */
  datatype NoteEvent = NoteEvent(frequency: real, startTick: int, durationTicks: int)

  function Measures(voices: seq<Voice>): (ms: seq<int>)
    requires forall i :: 0 <= i < |voices| ==> ValidVoice(voices[i])
    ensures |ms| == |voices| && forall i :: 0 <= i < |ms| ==> ms[i] == voices[i].measures && ms[i] > 0
  {
    var ms := seq(|voices|, i requires 0 <= i < |voices| => voices[i].measures);
    assert forall i :: 0 <= i < |ms| ==> ms[i] == voices[i].measures && ValidVoice(voices[i]);
    ms
  }

  /** The arrangement length: the lcm of all measures, in beats. */
  function TotalBeats(voices: seq<Voice>): int
    requires forall i :: 0 <= i < |voices| ==> ValidVoice(voices[i])
  {
    LcmArray(Measures(voices)) * BeatsPerMeasure
  }

  /** How many rotations of v the export writes: ceil(totalBeats / rotation beats). */
  function Repetitions(totalBeats: int, v: Voice): int
    requires ValidVoice(v)
  {
    Ceil(totalBeats as real / RotationDuration(v.measures) as real)
  }

  /** The repetitions are the least number of whole rotations that reach the arrangement's end. */
  lemma RepetitionsBounds(totalBeats: int, v: Voice)
    requires ValidVoice(v)
    ensures totalBeats >= 0 ==> Repetitions(totalBeats, v) >= 0
    ensures var n, d := Repetitions(totalBeats, v), RotationDuration(v.measures);
            (n - 1) * d < totalBeats <= n * d
  {
    CeilCovers(totalBeats, RotationDuration(v.measures), Repetitions(totalBeats, v));
  }

  /** The least number of whole rotations of d beats that reach totalBeats. */
  lemma CeilCovers(totalBeats: int, d: int, n: int)
    requires d > 0 && totalBeats as real / d as real <= n as real < totalBeats as real / d as real + 1.0
    ensures (n - 1) * d < totalBeats <= n * d
  {
    var x := totalBeats as real / d as real;
    var dr := d as real;
    assert x * dr == totalBeats as real;
    ScaleReal(x, n as real, dr);
    ScaleReal(n as real, x + 1.0, dr);
    CastMul(n, d);
    CastMul(n - 1, d);
    assert (x + 1.0) * dr == x * dr + dr;
    assert (n - 1) * d == n * d - d;
  }

  lemma CastMul(n: int, d: int)
    ensures (n * d) as real == n as real * d as real
  {
  }

  lemma ScaleReal(a: real, b: real, d: real)
    requires d > 0.0 && a <= b
    ensures a * d <= b * d
    ensures a < b ==> a * d < b * d
  {
    assert b * d - a * d == (b - a) * d;
  }

  /** The beat a corner fires on in repetition r, as a tick. */
  function StartTick(v: Voice, c: Corner, r: int): int
    requires ValidVoice(v)
  {
    var dur := RotationDuration(v.measures) as real;
    Round((c.index as real / v.sides as real * dur + r as real * dur) * TicksPerBeat as real)
  }

  function DurationTicks(v: Voice, c: Corner): int
    requires ValidVoice(v)
  {
    Round(NoteDurationTicks(v.measures, v.sides) as real * c.lengthFactor)
  }

  /** A corner with length factor 1 lasts its whole slot; a non-negative factor never gives a negative length. */
  lemma DurationTicksOfSlot(v: Voice, c: Corner)
    requires ValidVoice(v)
    ensures c.lengthFactor == 1.0 ==> DurationTicks(v, c) == NoteDurationTicks(v.measures, v.sides)
    ensures c.lengthFactor >= 0.0 ==> DurationTicks(v, c) >= 0
  {
    if c.lengthFactor >= 0.0 {
      NonNegativeScale(NoteDurationTicks(v.measures, v.sides) as real, c.lengthFactor);
    }
  }

  lemma NonNegativeScale(a: real, b: real)
    requires a >= 0.0 && b >= 0.0
    ensures a * b >= 0.0
  {
  }

  function EventOf(v: Voice, c: Corner, r: int): NoteEvent
    requires ValidVoice(v)
  {
    NoteEvent(GetNoteByRadius(c.note, v.radius), StartTick(v, c, r), DurationTicks(v, c))
  }

  /** The corners that are not rests, in corner order. */
  function Sounding(cs: seq<Corner>): (s: seq<Corner>)
    ensures |s| <= |cs|
    ensures forall j :: 0 <= j < |s| ==> s[j].note != 0.0
  {
    if cs == [] then []
    else Sounding(cs[..|cs| - 1]) + (if cs[|cs| - 1].note == 0.0 then [] else [cs[|cs| - 1]])
  }

  /** The sounding corners are exactly the corners that are not rests. */
  lemma {:induction false} SoundingMembers(cs: seq<Corner>)
    ensures forall c :: c in Sounding(cs) <==> c in cs && c.note != 0.0
  {
    if cs != [] {
      SoundingMembers(cs[..|cs| - 1]);
      assert cs == cs[..|cs| - 1] + [cs[|cs| - 1]];
    }
  }

  /** The events of one repetition over the corners cs, in corner order, rests skipped. */
  function EventsOf(v: Voice, cs: seq<Corner>, r: int): seq<NoteEvent>
    requires ValidVoice(v)
  {
    if cs == [] then []
    else
      var c := cs[|cs| - 1];
      EventsOf(v, cs[..|cs| - 1], r) + (if c.note == 0.0 then [] else [EventOf(v, c, r)])
  }

  /** Extending the corners by one appends that corner's note, unless it is a rest. */
  lemma EventsOfSnoc(v: Voice, cs: seq<Corner>, k: int, r: int)
    requires ValidVoice(v) && 0 <= k < |cs|
    ensures EventsOf(v, cs[..k + 1], r)
            == EventsOf(v, cs[..k], r) + (if cs[k].note == 0.0 then [] else [EventOf(v, cs[k], r)])
  {
    assert cs[..k + 1][..k] == cs[..k];
  }

  /** A track's events: repetition after repetition. */
  function TrackEvents(v: Voice, reps: nat): seq<NoteEvent>
    requires ValidVoice(v)
  {
    if reps == 0 then [] else TrackEvents(v, reps - 1) + EventsOf(v, v.corners, reps - 1)
  }

  /** A repetition holds one event per sounding corner, in order. */
  lemma {:induction false} EventsOfSounding(v: Voice, cs: seq<Corner>, r: int)
    requires ValidVoice(v)
    ensures |EventsOf(v, cs, r)| == |Sounding(cs)|
    ensures forall j :: 0 <= j < |Sounding(cs)| ==> EventsOf(v, cs, r)[j] == EventOf(v, Sounding(cs)[j], r)
  {
    if cs != [] {
      EventsOfSounding(v, cs[..|cs| - 1], r);
    }
  }

  /** A track holds one event per sounding corner and repetition. */
  lemma {:induction false} TrackEventCount(v: Voice, reps: nat)
    requires ValidVoice(v)
    ensures |TrackEvents(v, reps)| == reps * |Sounding(v.corners)|
  {
    if reps > 0 {
      var n := |Sounding(v.corners)|;
      TrackEventCount(v, reps - 1);
      EventsOfSounding(v, v.corners, reps - 1);
      assert (reps - 1) * n + n == reps * n;
    }
  }

  /**
   * Repetition r of a track occupies positions r*n .. r*n+n-1, n being the number of
   * sounding corners: event r*n+j is corner j's note in repetition r.
   */
  lemma {:induction false} TrackEventAt(v: Voice, reps: nat, r: nat, j: nat)
    requires ValidVoice(v)
    requires r < reps && j < |Sounding(v.corners)|
    ensures r * |Sounding(v.corners)| + j < |TrackEvents(v, reps)|
    ensures TrackEvents(v, reps)[r * |Sounding(v.corners)| + j] == EventOf(v, Sounding(v.corners)[j], r)
  {
    var n := |Sounding(v.corners)|;
    TrackEventCount(v, reps - 1);
    EventsOfSounding(v, v.corners, reps - 1);
    var prev := TrackEvents(v, reps - 1);
    assert TrackEvents(v, reps) == prev + EventsOf(v, v.corners, reps - 1);
    if r == reps - 1 {
      assert r * n + j == |prev| + j;
    } else {
      TrackEventAt(v, reps - 1, r, j);
    }
  }

  /** Every note of one repetition has a non-zero frequency. */
  lemma {:induction false} EventsOfSound(v: Voice, cs: seq<Corner>, r: int)
    requires ValidVoice(v)
    ensures forall e :: e in EventsOf(v, cs, r) ==> e.frequency != 0.0
  {
    if cs != [] {
      EventsOfSound(v, cs[..|cs| - 1], r);
    }
  }

  /** Every exported note has a non-zero frequency, so freqToMidi never yields null. */
  lemma {:induction false} TrackEventsSound(v: Voice, reps: nat)
    requires ValidVoice(v)
    ensures forall e :: e in TrackEvents(v, reps) ==> e.frequency != 0.0
  {
    if reps > 0 {
      TrackEventsSound(v, reps - 1);
      EventsOfSound(v, v.corners, reps - 1);
    }
  }

  /** Each track spans exactly the arrangement: its rotations add up to the total length. */
  lemma RepetitionsCover(voices: seq<Voice>, i: int)
    requires forall k :: 0 <= k < |voices| ==> ValidVoice(voices[k])
    requires 0 <= i < |voices|
    ensures Repetitions(TotalBeats(voices), voices[i]) * RotationDuration(voices[i].measures)
            == TotalBeats(voices)
  {
    var ms := Measures(voices);
    LcmArrayMultiple(ms);
    var m := voices[i].measures;
    assert Divides(ms[i], LcmArray(ms));
    var q :| m * q == LcmArray(ms);
    var total, dur := TotalBeats(voices), RotationDuration(m);
    assert total == dur * q by { assert total == LcmArray(ms) * BeatsPerMeasure; }
    RealQuotient(total, dur, q);
    assert Repetitions(total, voices[i]) == Ceil(q as real);
    CeilWhole(q);
  }

  lemma CeilWhole(q: int)
    ensures Ceil(q as real) == q
  {
  }

  lemma RealQuotient(n: int, d: int, q: int)
    requires d > 0 && n == d * q
    ensures n as real / d as real == q as real
  {
    CastMul(d, q);
  }

  /** Repetition r is repetition 0 moved by exactly r rotations: the timeline does not drift. */
  lemma StartTickShift(v: Voice, c: Corner, r: int)
    requires ValidVoice(v)
    ensures StartTick(v, c, r) == StartTick(v, c, 0) + r * RotationDuration(v.measures) * TicksPerBeat
  {
    StartTickOffset(v, c, r);
    StartTickOffset(v, c, 0);
  }

  /**
   * A start tick is the rounded offset of the corner inside its rotation plus r whole
   * rotations; corner 0 starts exactly on the rotation boundary.
   */
  lemma StartTickOffset(v: Voice, c: Corner, r: int)
    requires ValidVoice(v)
    ensures StartTick(v, c, r)
            == Round(c.index as real / v.sides as real * RotationDuration(v.measures) as real * TicksPerBeat as real)
               + r * RotationDuration(v.measures) * TicksPerBeat
    ensures c.index == 0 ==> StartTick(v, c, r) == r * RotationDuration(v.measures) * TicksPerBeat
  {
    var dur := RotationDuration(v.measures) as real;
    var a := c.index as real / v.sides as real * dur;
    var n := r * RotationDuration(v.measures) * TicksPerBeat;
    assert (a + r as real * dur) * TicksPerBeat as real == a * TicksPerBeat as real + n as real;
    RoundShift(a * TicksPerBeat as real, n);
  }

  /** The event-building loop for one polygon: rotation after rotation until the arrangement ends. */
  method BuildTrack(v: Voice, totalBeats: int) returns (events: seq<NoteEvent>)
    requires ValidVoice(v) && totalBeats >= 0
    ensures Repetitions(totalBeats, v) >= 0
    ensures events == TrackEvents(v, Repetitions(totalBeats, v))
  {
    var polygonDurationBeats := RotationDuration(v.measures);
    var repetitions := Ceil(totalBeats as real / polygonDurationBeats as real);
    assert repetitions >= 0;
    events := [];
    var r := 0;
    while r < repetitions
      invariant 0 <= r <= repetitions
      invariant events == TrackEvents(v, r)
    {
      var repetition := RepetitionEvents(v, r);
      events := events + repetition;
      r := r + 1;
    }
  }

  /** The body of the corner loop: one note event from the formulas of the export. */
  method CornerEvent(v: Voice, corner: Corner, r: int, polygonDurationBeats: int) returns (event: NoteEvent)
    requires ValidVoice(v) && polygonDurationBeats == RotationDuration(v.measures)
    ensures event == EventOf(v, corner, r)
  {
    var deltaBeat := corner.index as real / v.sides as real * polygonDurationBeats as real
                     + r as real * polygonDurationBeats as real;
    var noteDurationTicks := NoteDurationTicks(v.measures, v.sides) as real * corner.lengthFactor;
    event := NoteEvent(GetNoteByRadius(corner.note, v.radius),
                       Round(deltaBeat * TicksPerBeat as real),
                       Round(noteDurationTicks));
  }

  /** The inner loop over the corners: one note per corner that is not a rest. */
  method RepetitionEvents(v: Voice, r: int) returns (events: seq<NoteEvent>)
    requires ValidVoice(v)
    ensures events == EventsOf(v, v.corners, r)
  {
    var polygonDurationBeats := RotationDuration(v.measures);
    events := [];
    var k := 0;
    while k < |v.corners|
      invariant 0 <= k <= |v.corners|
      invariant events == EventsOf(v, v.corners[..k], r)
    {
      var corner := v.corners[k];
      EventsOfSnoc(v, v.corners, k, r);
      if corner.note != 0.0 {
        var event := CornerEvent(v, corner, r, polygonDurationBeats);
        events := events + [event];
      }
      k := k + 1;
    }
    assert v.corners[..|v.corners|] == v.corners;
  }

  /** exportPolygonsToMIDI's timeline over a snapshot: one track per voice. */
  method ExportTracks(voices: seq<Voice>) returns (tracks: seq<seq<NoteEvent>>)
    requires forall i :: 0 <= i < |voices| ==> ValidVoice(voices[i])
    ensures |tracks| == |voices|
    ensures forall i :: 0 <= i < |voices| ==>
              tracks[i] == TrackEvents(voices[i], Repetitions(TotalBeats(voices), voices[i]))
  {
    var totalMeasures := LcmArray(Measures(voices));
    LcmArrayMultiple(Measures(voices));
    var totalBeats := totalMeasures * BeatsPerMeasure;
    tracks := [];
    var i := 0;
    while i < |voices|
      invariant 0 <= i <= |voices|
      invariant |tracks| == i
      invariant forall j :: 0 <= j < i ==> tracks[j] == TrackEvents(voices[j], Repetitions(totalBeats, voices[j]))
    {
      var track := BuildTrack(voices[i], totalBeats);
      tracks := tracks + [track];
      i := i + 1;
    }
  }

  /** The export as the download button runs it, on a snapshot of the live polygons. */
  method ExportPolygons(polygons: seq<RotatingPolygon>) returns (tracks: seq<seq<NoteEvent>>)
    requires forall i :: 0 <= i < |polygons| ==> polygons[i].Valid()
    ensures |tracks| == |polygons|
    ensures var voices := VoicesOf(polygons);
            forall i :: 0 <= i < |polygons| ==>
              tracks[i] == TrackEvents(voices[i], Repetitions(TotalBeats(voices), voices[i]))
  {
    var voices := VoicesOf(polygons);
    tracks := ExportTracks(voices);
  }

  // ---------------------------------------------------------------------------------------
  // Header patch

  newtype byte = x: int | 0 <= x < 256

  /** The division field of the header chunk: bytes 12-13, big-endian (Standard MIDI File 1.0). */
  function Division(file: seq<byte>): int
    requires |file| >= 14
  {
    file[12] as int * 256 + file[13] as int
  }

  /** The file after the division patch; a write past the end of the buffer is dropped. */
  function WithDivision480(file: seq<byte>): (r: seq<byte>)
    ensures |r| == |file|
    ensures |file| >= 14 ==> Division(r) == TicksPerBeat
    ensures |file| > 12 ==> r[12] == 0x01
    ensures |file| > 13 ==> r[13] == 0xE0
    ensures forall k :: 0 <= k < |file| && k != 12 && k != 13 ==> r[k] == file[k]
  {
    var a := if |file| > 12 then file[12 := 0x01] else file;
    if |a| > 13 then a[13 := 0xE0] else a
  }

  /** Patching twice is patching once. */
  lemma WithDivision480Idempotent(file: seq<byte>)
    ensures WithDivision480(WithDivision480(file)) == WithDivision480(file)
  {
  }

  /** The in-place patch of the buffer the MIDI writer built. */
  method PatchDivision(midiBytes: array<byte>)
    modifies midiBytes
    ensures midiBytes[..] == WithDivision480(old(midiBytes[..]))
  {
    if midiBytes.Length > 12 {
      midiBytes[12] := 0x01;
    }
    if midiBytes.Length > 13 {
      midiBytes[13] := 0xE0;
    }
  }
}
