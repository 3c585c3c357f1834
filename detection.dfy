/**
 * The trigger decision of the animation loop, on angular distances given in degrees: which
 * corner of a polygon is hitting the playhead, when that hit fires a note (edge-triggered,
 * inside a tighter band), and when the requested note is audible.
 */
module Detection {
  import opened Wrappers
  import opened Music
  import opened Patterns

  /** intersection_tolerance: a corner closer than this to the playhead is hitting it. */
  const ToleranceDegrees: real := 12.0

  /** A hit fires a note only when it is closer than this. */
  const FireDegrees: real := 4.0

  /** The audible band, exclusive at both ends, in Hz. */
  const MinAudibleHz: real := 20.0
  const MaxAudibleHz: real := 10000.0

  /** playClick does nothing at or below this volume. */
  const SilentVolume: real := 0.001

  /** No note is shorter than this, in seconds. */
  const MinNoteSeconds: real := 0.01

  /**
   * The corner checkForIntersection reports: the first one, in corner order, whose distance
   * to the playhead is below `tol`, even when a later one is closer.
   */
  function FirstWithin(dist: seq<real>, tol: real): (r: Option<nat>)
    ensures r.Some? ==> r.value < |dist| && dist[r.value] < tol
    ensures r.Some? ==> forall j :: 0 <= j < r.value ==> dist[j] >= tol
    ensures r.None? <==> forall j :: 0 <= j < |dist| ==> dist[j] >= tol
  {
    FirstWithinFrom(dist, tol, 0)
  }

  function FirstWithinFrom(dist: seq<real>, tol: real, from: nat): (r: Option<nat>)
    requires from <= |dist|
    requires forall j :: 0 <= j < from ==> dist[j] >= tol
    ensures r.Some? ==> from <= r.value < |dist| && dist[r.value] < tol
    ensures r.Some? ==> forall j :: 0 <= j < r.value ==> dist[j] >= tol
    ensures r.None? <==> forall j :: 0 <= j < |dist| ==> dist[j] >= tol
    decreases |dist| - from
  {
    if from == |dist| then None
    else if dist[from] < tol then Some(from)
    else FirstWithinFrom(dist, tol, from + 1)
  }

  /** A frame fires a note when a hit within the firing band follows a frame that was not hitting. */
  predicate Fires(wasHitting: bool, hit: Option<real>)
  {
    hit.Some? && !wasHitting && hit.value < FireDegrees
  }

  /** wasHittingLine after a frame: cleared by a frame without a hit, set by a frame that fires. */
  function NextWasHitting(wasHitting: bool, hit: Option<real>): (next: bool)
    ensures hit.None? ==> !next
    ensures hit.Some? && hit.value < FireDegrees ==> next
    ensures hit.Some? && hit.value >= FireDegrees ==> next == wasHitting
    ensures Fires(wasHitting, hit) ==> !wasHitting && next
  {
    if hit.None? then false else wasHitting || Fires(wasHitting, hit)
  }

  /** Notes fired over consecutive frames, each frame given by its reported distance, if any. */
  function FireCount(wasHitting: bool, frames: seq<Option<real>>): nat
    decreases |frames|
  {
    if frames == [] then 0
    else (if Fires(wasHitting, frames[0]) then 1 else 0)
         + FireCount(NextWasHitting(wasHitting, frames[0]), frames[1..])
  }

  /** During a contiguous hit period, at most one note fires, and none if the gate was closed. */
  lemma {:induction false} AtMostOncePerPass(wasHitting: bool, frames: seq<Option<real>>)
    requires forall k :: 0 <= k < |frames| ==> frames[k].Some?
    ensures FireCount(wasHitting, frames) <= 1
    ensures wasHitting ==> FireCount(wasHitting, frames) == 0
    decreases |frames|
  {
    if frames != [] {
      AtMostOncePerPass(NextWasHitting(wasHitting, frames[0]), frames[1..]);
    }
  }

  /** A pass that comes within the firing band after the gate reopened fires exactly once. */
  lemma {:induction false} OncePerPass(frames: seq<Option<real>>, k: nat)
    requires forall j :: 0 <= j < |frames| ==> frames[j].Some?
    requires k < |frames| && frames[k].value < FireDegrees
    ensures FireCount(false, frames) == 1
    decreases |frames|
  {
    if Fires(false, frames[0]) {
      AtMostOncePerPass(true, frames[1..]);
    } else {
      assert frames[1..][k - 1] == frames[k];
      OncePerPass(frames[1..], k - 1);
    }
  }

  /** One frame without a hit reopens the gate, whatever came before. */
  lemma {:induction false} MissRearms(wasHitting: bool, frames: seq<Option<real>>)
    requires frames != [] && frames[0].None?
    ensures FireCount(wasHitting, frames) == FireCount(false, frames[1..])
  {
  }

  /** A sound request handed to the tone sink. */
  datatype Sound = Sound(volume: real, frequency: real, duration: real)

  /** The animation loop's band check on the octave-adjusted frequency. */
  predicate InBand(freq: real)
  {
    MinAudibleHz < freq < MaxAudibleHz
  }

  /** playClick: silent at or below the volume threshold. */
  function PlayClick(volume: real, freq: real, duration: real): (s: Option<Sound>)
    ensures s.Some? <==> volume > SilentVolume
    ensures s.Some? ==> s.value == Sound(volume, freq, duration)
  {
    if volume <= SilentVolume then None else Some(Sound(volume, freq, duration))
  }

  /**
   * The note a firing corner requests: its frequency moved by the polygon's octave, its volume
   * scaled by master and polygon volume, and its length a share of the corner's slot.
   */
  function Dispatch(c: Corner, radius: real, measures: int, sides: int, bpm: real,
                    masterVolume: real, polyVolume: real): (s: Option<Sound>)
    requires sides > 0 && bpm > 0.0
    ensures s.Some? <==> InBand(GetNoteByRadius(c.note, radius))
                         && masterVolume * polyVolume * c.volume > SilentVolume
    ensures s.Some? ==> s.value.frequency == GetNoteByRadius(c.note, radius)
    ensures s.Some? ==> s.value.volume == masterVolume * polyVolume * c.volume
    ensures s.Some? ==> s.value.duration >= MinNoteSeconds
    ensures s.Some? ==> s.value.duration >= NoteDurationSeconds(measures, sides, bpm) * c.lengthFactor
    ensures s.Some? ==> s.value.duration == MinNoteSeconds
                        || s.value.duration == NoteDurationSeconds(measures, sides, bpm) * c.lengthFactor
  {
    var d := NoteDurationSeconds(measures, sides, bpm) * c.lengthFactor;
    var noteDuration := if MinNoteSeconds > d then MinNoteSeconds else d;
    var freq := GetNoteByRadius(c.note, radius);
    var finalVolume := masterVolume * polyVolume * c.volume;
    if InBand(freq) then PlayClick(finalVolume, freq, noteDuration) else None
  }

  /** Rests never sound. */
  lemma RestIsSilent(c: Corner, radius: real, measures: int, sides: int, bpm: real,
                     masterVolume: real, polyVolume: real)
    requires sides > 0 && bpm > 0.0 && c.note == 0.0
    ensures Dispatch(c, radius, measures, sides, bpm, masterVolume, polyVolume).None?
  {
  }
}
