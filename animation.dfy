/**
 * The trigger block of the animation loop for one polygon in one frame: report the hitting
 * corner, fire on the rising edge inside the firing band, and keep the edge state.
 */
module Animation {
  import opened Wrappers
  import opened Detection
  import opened Sequencer

  /** The distance a frame reports, if some corner is hitting the playhead. */
  function ReportedAngle(dist: seq<real>): (a: Option<real>)
    ensures a.Some? <==> FirstWithin(dist, ToleranceDegrees).Some?
    ensures a.Some? ==> a.value < ToleranceDegrees
    ensures a.Some? ==> exists k :: 0 <= k < |dist| && a.value == dist[k] &&
                                   forall j :: 0 <= j < k ==> dist[j] >= ToleranceDegrees
  {
    match FirstWithin(dist, ToleranceDegrees)
    case None => None
    case Some(k) => Some(dist[k])
  }

  /**
   * One frame for polygon p, with dist[k] the distance in degrees of corner k to the playhead.
   * The returned sound, if any, is what the tone sink is asked to play.
   */
  method TriggerFrame(p: RotatingPolygon, dist: seq<real>, bpm: real, masterVolume: real)
    returns (sound: Option<Sound>)
    requires p.Valid() && |dist| == |p.corners| && bpm > 0.0
    modifies p`wasHittingLine
    ensures p.Valid()
    ensures p.wasHittingLine == NextWasHitting(old(p.wasHittingLine), ReportedAngle(dist))
    ensures sound.Some? ==> Fires(old(p.wasHittingLine), ReportedAngle(dist))
    ensures Fires(old(p.wasHittingLine), ReportedAngle(dist)) ==>
              var k := FirstWithin(dist, ToleranceDegrees).value;
              sound == Dispatch(p.corners[k], p.radius, p.measures, p.sides, bpm, masterVolume, p.polyVolume)
  {
    sound := None;
    var hit := p.CheckForIntersection(dist);
    if hit.Some? {
      if !p.wasHittingLine && hit.value.angle < FireDegrees {
        sound := Dispatch(hit.value.corner, p.radius, p.measures, p.sides, bpm, masterVolume, p.polyVolume);
        p.wasHittingLine := true;
      }
    } else {
      p.wasHittingLine := false;
    }
  }
}
