/**
 * FindDesiredSlideAmount: the pointer's horizontal travel as a time, set to a sample boundary of
 * the track under the pointer, then adjusted so that one edge of the dragged clip (or track)
 * lands on a snap point.
 */
module Snap {
  import opened Wrappers
  import opened Tracks
  import opened Geometry
  import opened Slide

  /**
   * SnapManager::Snap, which is not part of this model: where a time near the given track lands
   * after snapping (the time itself when no snap point is near).
   */
  type SnapQuery = (TrackId, int) -> int

  datatype SnapEdge = NoSnap | LeftEdge | RightEdge

  /**
   * Only one edge may snap: when both would, the edge the click was not nearer to is let go.
   * The right edge is looked at only when the left one did not snap.
   */
  function SnappedEdge(left: int, right: int, newLeft: int, newRight: int, preferRight: bool): (e: SnapEdge)
    ensures e == LeftEdge <==> newLeft != left && (newRight == right || !preferRight)
    ensures e == RightEdge <==> newRight != right && (newLeft == left || preferRight)
    ensures e == NoSnap <==> newLeft == left && newRight == right
  {
    var (l, r) :=
      if newLeft != left && newRight != right then
        (if preferRight then (left, newRight) else (newLeft, right))
      else (newLeft, newRight);
    if l != left then LeftEdge
    else if r != right then RightEdge
    else NoSnap
  }

  /**
   * The pointer's travel since the click as a time; over a wave track, rounded to the nearest
   * whole number of that track's sample periods.
   */
  function PointerSlide(z: Zoom, x: int, mouseClickX: int, period: Option<int>): (d: int)
    requires period.Some? ==> period.value > 0
    ensures period.None? ==> d == (x - mouseClickX) * z.ticksPerPixel
    ensures period.Some? ==> d % period.value == 0
    ensures period.Some? ==>
      -period.value <= 2 * (d - (x - mouseClickX) * z.ticksPerPixel) <= period.value
  {
    var raw := PositionToTime(z, x, 0) - PositionToTime(z, mouseClickX, 0);
    match period
    case None => raw
    case Some(q) => Quantise(raw, q)
  }

  /**
   * FindDesiredSlideAmount. `left` and `right` are the edges of the captured clip, or of the
   * captured track when no clip was captured, before the slide; `period` is the sample period
   * of the track under the pointer when that is a wave track; `s` carries the snap lines
   * drawn so far. The result is the slide amount and the snap lines to draw.
   */
  function FindDesiredSlideAmount(z: Zoom, rectX: int, x: int, mouseClickX: int, period: Option<int>,
                                  snap: Option<SnapQuery>, slideUpDownOnly: bool, preferRight: bool,
                                  capturedTrack: TrackId, left: int, right: int, s: SlideState): (r: SlideState)
    requires z.ticksPerPixel > 0 && (period.Some? ==> period.value > 0)
    ensures slideUpDownOnly ==> r == s.(amount := 0)
    ensures !slideUpDownOnly && snap.None? ==> r == s.(amount := PointerSlide(z, x, mouseClickX, period))
    ensures !slideUpDownOnly && snap.Some? ==>
      var d := PointerSlide(z, x, mouseClickX, period);
      var e := SnappedEdge(left + d, right + d, snap.value(capturedTrack, left + d),
                           snap.value(capturedTrack, right + d), preferRight);
      && (e == NoSnap ==> r.amount == d && Unsnapped(r))
      && (e == LeftEdge ==>
            left + r.amount == snap.value(capturedTrack, left + d)
            && r.snapLeft == TimeToPosition(z, left + r.amount, rectX) && r.snapRight == -1)
      && (e == RightEdge ==>
            right + r.amount == snap.value(capturedTrack, right + d)
            && r.snapRight == TimeToPosition(z, right + r.amount, rectX) && r.snapLeft == -1)
  {
    if slideUpDownOnly then s.(amount := 0)
    else
      var d := PointerSlide(z, x, mouseClickX, period);
      match snap
      case None => s.(amount := d)
      case Some(sn) =>
        var clipLeft, clipRight := left + d, right + d;
        var newLeft, newRight := sn(capturedTrack, clipLeft), sn(capturedTrack, clipRight);
        match SnappedEdge(clipLeft, clipRight, newLeft, newRight, preferRight)
        case LeftEdge => SlideState(d + (newLeft - clipLeft), TimeToPosition(z, newLeft, rectX), -1)
        case RightEdge => SlideState(d + (newRight - clipRight), -1, TimeToPosition(z, newRight, rectX))
        case NoSnap => SlideState(d, -1, -1)
  }

  /** With a snap point near neither edge, the amount is the pointer's travel, kept on a sample boundary. */
  lemma UnsnappedSlideOnSample(z: Zoom, rectX: int, x: int, mouseClickX: int, period: int,
                               sn: SnapQuery, preferRight: bool, capturedTrack: TrackId, left: int, right: int, s: SlideState)
    requires z.ticksPerPixel > 0 && period > 0
    requires var d := PointerSlide(z, x, mouseClickX, Some(period));
      sn(capturedTrack, left + d) == left + d && sn(capturedTrack, right + d) == right + d
    ensures var r := FindDesiredSlideAmount(z, rectX, x, mouseClickX, Some(period), Some(sn), false, preferRight,
                                            capturedTrack, left, right, s);
      r.amount % period == 0 && Unsnapped(r)
  {
  }

  /** At most one snap line is drawn after a horizontal drag. */
  lemma OneSnapLine(z: Zoom, rectX: int, x: int, mouseClickX: int, period: Option<int>, sn: SnapQuery,
                    preferRight: bool, capturedTrack: TrackId, left: int, right: int, s: SlideState)
    requires z.ticksPerPixel > 0 && (period.Some? ==> period.value > 0)
    ensures var r := FindDesiredSlideAmount(z, rectX, x, mouseClickX, period, Some(sn), false, preferRight,
                                            capturedTrack, left, right, s);
      r.snapLeft == -1 || r.snapRight == -1
  {
  }
}
