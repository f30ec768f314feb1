/**
 * TimeShiftHandle: the mouse handle of the time-shift tool. A click captures what will move, each
 * drag event undoes the slide so far and works out the new one (moving the clips to another
 * track first when the pointer is over one), and the release records the move in the history.
 */
module Handle {
  import opened Wrappers
  import opened Tracks
  import opened Geometry
  import opened Timeline
  import opened Capture
  import opened Offset
  import opened Slide
  import opened Snap
  import opened Vertical

  /** The RefreshCode bits a handle's event returns; the empty set is RefreshNone. */
  datatype RefreshCode = RefreshAll | Cancelled | FixScrollbars

  /** The sample period FindDesiredSlideAmount rounds to: that of the track under the pointer, if it is a wave track. */
  function PeriodOf(ts: seq<Track>, t: TrackId): (r: Option<int>)
    requires WellFormed(ts) && t < |ts|
    ensures r.Some? <==> ts[t].kind == Wave
    ensures r.Some? ==> r.value > 0
  {
    if ts[t].kind == Wave then Some(ts[t].period) else None
  }

  /**
   * The track a drag event works with: the one under the pointer; off every track, the captured
   * track as long as the pointer is within the horizontal bounds of the track area.
   */
  function PointerTrack(pTrack: Option<TrackId>, x: int, rectX: int, rectWidth: int, captured: TrackId): (r: Option<TrackId>)
    ensures pTrack.Some? ==> r == pTrack
    ensures pTrack.None? ==> (r.Some? <==> rectX <= x < rectX + rectWidth)
    ensures r.Some? ==> r == pTrack || r == Some(captured)
  {
    if pTrack.Some? then pTrack
    else if rectX <= x && x < rectX + rectWidth then Some(captured)
    else None
  }

  /** The edges a drag snaps: those of the captured clip, or of the captured track when no clip was captured. */
  function DragEdges(ts: seq<Track>, held: seq<seq<ClipId>>, lens: map<ClipId, nat>, P: Positions,
                     clip: Option<ClipId>, t: TrackId): (int, int)
    requires t < |ts| && t < |held| && t < |P.shift| && ClipsKnown(held, P.starts, lens)
    requires clip.Some? ==> clip.value in P.starts && clip.value in lens
  {
    if clip.Some? then (P.starts[clip.value], P.starts[clip.value] + lens[clip.value])
    else (TrackStartAt(ts, held, lens, P, t), TrackEndAt(ts, held, lens, P, t))
  }

  /** The click is nearer the captured clip's end than its start (it then prefers to snap the right edge). */
  function NearerEnd(clickTime: int, start: int, end: int): bool
  {
    Abs(clickTime - end) < Abs(clickTime - start)
  }

  // ---------------------------------------------------------------- Release: resampling moved clips

  /** The clips of the entries before k that now sit in another track than the one they were captured from. */
  function MovedBefore(es: seq<TrackClip>, k: nat): set<ClipId>
    requires k <= |es|
  {
    if k == 0 then {}
    else
      var e := es[k - 1];
      MovedBefore(es, k - 1) + (if e.clip.Some? && e.track != e.origTrack then {e.clip.value} else {})
  }

  /** A clip is among the moved ones exactly when one of the first k entries carries it into another track. */
  lemma {:induction false} MovedBeforeMembers(es: seq<TrackClip>, k: nat, c: ClipId)
    requires k <= |es|
    ensures c in MovedBefore(es, k) <==>
      exists i :: 0 <= i < k && es[i].clip == Some(c) && es[i].track != es[i].origTrack
  {
    if k > 0 {
      MovedBeforeMembers(es, k - 1, c);
      var e := es[k - 1];
      if e.clip == Some(c) && e.track != e.origTrack {
        assert c in MovedBefore(es, k);
      }
    }
  }

  /** The clips' sample periods after the first k entries' clips were resampled to their new tracks' rates. */
  function Resampled(periods: map<ClipId, int>, ts: seq<Track>, es: seq<TrackClip>, k: nat): map<ClipId, int>
    requires k <= |es| && TracksIn(ts, es)
  {
    if k == 0 then periods
    else
      var m := Resampled(periods, ts, es, k - 1);
      var e := es[k - 1];
      if e.clip.Some? && e.track != e.origTrack then m[e.clip.value := ts[e.track].period] else m
  }

  /**
   * After Release's loop, a clip that was dropped into another track has that track's rate and
   * every other clip keeps its own; no clip appears or disappears.
   */
  lemma {:induction false} ResampledRates(periods: map<ClipId, int>, ts: seq<Track>, es: seq<TrackClip>, k: nat)
    requires k <= |es| && TracksIn(ts, es) && DistinctKeys(es)
    requires forall i :: 0 <= i < |es| && es[i].clip.Some? ==> es[i].clip.value in periods
    ensures var r := Resampled(periods, ts, es, k);
      && r.Keys == periods.Keys
      && (forall i :: 0 <= i < k && es[i].clip.Some? && es[i].track != es[i].origTrack ==>
            r[es[i].clip.value] == ts[es[i].track].period)
      && (forall c :: c in periods && c !in MovedBefore(es, k) ==> r[c] == periods[c])
  {
    if k > 0 {
      ResampledRates(periods, ts, es, k - 1);
      var e := es[k - 1];
      forall i | 0 <= i < k - 1 && es[i].clip.Some? ensures es[i].clip != e.clip {
        assert Key(es[i]) != Key(e);
      }
    }
  }

  /** The history message of a release: a move to another track, or a time shift with its direction and size. */
  function ReleaseMessage(didSlideVertically: bool, hSlideAmount: int): (m: HistoryMessage)
    ensures m.TimeShifted? <==> !didSlideVertically
    ensures m.TimeShifted? ==> m.ticks == Abs(hSlideAmount) && (m.rightward <==> hSlideAmount > 0)
  {
    if didSlideVertically then MovedToAnotherTrack else TimeShifted(hSlideAmount > 0, Abs(hSlideAmount))
  }

  /** Release's loop: every captured clip that changed track takes the rate of its new track and is marked changed. */
  method ResampleMoved(state: ClipMoveState, p: Project)
    requires p.Valid() && p.Rated() && CaptureValid(p.tracks, p.held, state.capturedClipArray)
    modifies p`clipPeriod, p`changed
    ensures p.Rated()
    ensures p.clipPeriod == Resampled(old(p.clipPeriod), p.tracks, state.capturedClipArray, |state.capturedClipArray|)
    ensures p.changed == old(p.changed) + MovedBefore(state.capturedClipArray, |state.capturedClipArray|)
  {
    var es := state.capturedClipArray;
    ghost var m0, changed0 := p.clipPeriod, p.changed;
    assert TracksIn(p.tracks, es) && forall i :: 0 <= i < |es| && es[i].clip.Some? ==> es[i].clip.value in m0 by {
      forall i | 0 <= i < |es| ensures es[i].track < |p.tracks| && (es[i].clip.Some? ==> es[i].clip.value in m0) {
        assert EntryValid(p.tracks, p.held, es[i]);
      }
    }
    for k := 0 to |es|
      invariant ResampledUpTo(p.clipPeriod, p.changed, m0, changed0, p.tracks, es, k)
    {
      ResampleStep(p, es, k, m0, changed0);
    }
  }

  /** Release's loop after k entries: the rates and the changed set as Resampled and MovedBefore say. */
  ghost predicate ResampledUpTo(periods: map<ClipId, int>, changed: set<ClipId>, periods0: map<ClipId, int>,
                                changed0: set<ClipId>, ts: seq<Track>, es: seq<TrackClip>, k: nat)
  {
    && k <= |es| && TracksIn(ts, es) && periods.Keys == periods0.Keys
    && (forall i :: 0 <= i < |es| && es[i].clip.Some? ==> es[i].clip.value in periods0)
    && periods == Resampled(periods0, ts, es, k)
    && changed == changed0 + MovedBefore(es, k)
  }

  /** One turn of Release's loop. */
  method ResampleStep(p: Project, es: seq<TrackClip>, k: nat, ghost periods0: map<ClipId, int>, ghost changed0: set<ClipId>)
    requires k < |es| && ResampledUpTo(p.clipPeriod, p.changed, periods0, changed0, p.tracks, es, k)
    modifies p`clipPeriod, p`changed
    ensures ResampledUpTo(p.clipPeriod, p.changed, periods0, changed0, p.tracks, es, k + 1)
  {
    var e := es[k];
    if e.clip.Some? && e.track != e.origTrack {
      p.Resample(e.clip.value, p.tracks[e.track].period);
      p.MarkChanged(e.clip.value);
    }
  }

  // ---------------------------------------------------------------- Click: the capture

  /**
   * What Click captures at clickTime on track t: on a wave track without shift, the clip under
   * the pointer (none: the click fails) and the capture set built from it; otherwise nothing.
   * With sync-lock on, the set holds the clicked entries or the selection's, then every clip or
   * non-wave track that the sync-lock group of an earlier clip brings in, and nothing else.
   */
  ghost predicate Grabbed(ts: seq<Track>, held: seq<seq<ClipId>>, starts: map<ClipId, int>, lens: map<ClipId, nat>,
                          sel0: int, sel1: int, t: TrackId, clickTime: int, shiftDown: bool, syncLocked: bool,
                          clipAtX: Option<ClipId>, ok: bool, clip: Option<ClipId>, isSel: bool, es: seq<TrackClip>)
    requires WellFormed(ts) && t < |ts| && |held| == |ts| && ClipsKnown(held, starts, lens)
  {
    var grabs := ts[t].kind == Wave && !shiftDown;
    && ok == !(grabs && clipAtX.None?)
    && clip == (if grabs then clipAtX else None)
    && isSel == (ts[t].selected && sel0 <= clickTime < sel1)
    && (clip.None? ==> es == [])
    && (clip.Some? && !isSel ==> Prefix(ClickedEntries(ts, held, starts, lens, t, clip, clickTime), es))
    && (clip.Some? && !isSel && !syncLocked ==> es == ClickedEntries(ts, held, starts, lens, t, clip, clickTime))
    && (clip.Some? && isSel ==> forall u :: 0 <= u < |ts| && ts[u].selected ==> Covered(ts, held, starts, lens, es, u, sel0, sel1))
    && (clip.Some? && isSel && !syncLocked ==> FromSelection(ts, starts, lens, es, sel0, sel1))
    && (clip.Some? && syncLocked ==> forall j :: 0 <= j < |es| ==> SyncClosedAt(ts, held, starts, lens, es, j))
    && (clip.Some? && !isSel && syncLocked ==>
          SyncBrought(ts, held, starts, lens, es, |ClickedEntries(ts, held, starts, lens, t, clip, clickTime)|))
    && (clip.Some? && isSel && syncLocked ==>
          exists n :: 0 <= n <= |es| && FromSelection(ts, starts, lens, es[..n], sel0, sel1) &&
            SyncBrought(ts, held, starts, lens, es, n))
  }

  /** The middle of Click, on a cleared state: which clip is captured, whether the selection is, and the capture set. */
  method CaptureForClick(state: ClipMoveState, p: Project, t: TrackId, clickTime: int, shiftDown: bool, syncLocked: bool,
                         clipAtX: Option<ClipId>) returns (ok: bool)
    requires p.Valid() && t < |p.tracks| && state.capturedClipArray == []
    requires clipAtX.Some? ==> clipAtX.value in p.held[t]
    modifies state`capturedClip, state`capturedClipIsSelection, state`capturedClipArray, state`trackExclusions
    ensures CaptureValid(p.tracks, p.held, state.capturedClipArray)
    ensures state.capturedClip.Some? ==> state.capturedClip.value in p.lens
    ensures Grabbed(p.tracks, p.held, p.starts, p.lens, p.sel0, p.sel1, t, clickTime, shiftDown, syncLocked,
                    clipAtX, ok, state.capturedClip, state.capturedClipIsSelection, state.capturedClipArray)
  {
    state.capturedClipIsSelection := p.tracks[t].selected && p.sel0 <= clickTime < p.sel1;
    ok := true;
    if p.tracks[t].kind == Wave && !shiftDown {
      state.capturedClip := clipAtX;
      if clipAtX.None? {
        ok := false;
      } else {
        CreateListOfCapturedClips(state, p, t, syncLocked, clickTime);
      }
    } else {
      state.capturedClip := None;
    }
  }

  /** No capture set that Click builds holds a wave track whole. */
  lemma GrabbedWholeNotWave(ts: seq<Track>, held: seq<seq<ClipId>>, starts: map<ClipId, int>, lens: map<ClipId, nat>,
                            sel0: int, sel1: int, t: TrackId, clickTime: int, shiftDown: bool, syncLocked: bool,
                            clipAtX: Option<ClipId>, ok: bool, clip: Option<ClipId>, isSel: bool, es: seq<TrackClip>)
    requires WellFormed(ts) && t < |ts| && |held| == |ts| && ClipsKnown(held, starts, lens)
    requires Grabbed(ts, held, starts, lens, sel0, sel1, t, clickTime, shiftDown, syncLocked, clipAtX, ok, clip, isSel, es)
    ensures WholeNotWave(ts, es)
  {
    if clip.Some? {
      var n: nat := 0;
      if !isSel {
        n := |ClickedEntries(ts, held, starts, lens, t, clip, clickTime)|;
        if !syncLocked {
          n := |es|;
        }
      } else if !syncLocked {
        n := |es|;
        assert es[..n] == es;
      } else {
        n :| 0 <= n <= |es| && FromSelection(ts, starts, lens, es[..n], sel0, sel1) && SyncBrought(ts, held, starts, lens, es, n);
      }
      forall k | 0 <= k < |es| && es[k].clip.None? ensures es[k].track < |ts| && ts[es[k].track].kind != Wave {
        if k >= n {
          var j :| 0 <= j < k && BroughtBy(ts, held, starts, lens, es[j], es[k]);
        } else if isSel {
          assert es[..n][k] == es[k];
        }
      }
    }
  }

  /** A vertical move keeps every whole-track entry on its track, so no wave track comes to be captured whole. */
  lemma RelocatedWhole(ts: seq<Track>, held0: seq<seq<ClipId>>, es0: seq<TrackClip>, held: seq<seq<ClipId>>,
                       es: seq<TrackClip>, diff: int, v: VerticalOutcome)
    requires TracksIn(ts, es0) && Relocated(ts, held0, es0, held, es, diff, v) && WholeNotWave(ts, es0)
    ensures WholeNotWave(ts, es)
  {
    forall k | 0 <= k < |es| && es[k].clip.None? ensures es[k].track < |ts| && ts[es[k].track].kind != Wave {
      assert SameEntry(es0[k], es[k]);
    }
  }

  // ---------------------------------------------------------------- Drag: what an event leaves behind

  /**
   * The slide the horizontal part of a drag settles on for the request `s` from positions P: a
   * request of zero is left alone (no slide is made); with nothing captured the clicked track
   * takes it whole; otherwise DoSlideHorizontal's resolver cuts it back until every captured
   * clip accepts it.
   */
  function SlideFor(ts: seq<Track>, held: seq<seq<ClipId>>, lens: map<ClipId, nat>, P: Positions, es: seq<TrackClip>,
                    canOffset: OffsetQuery, s: SlideState): (r: SlideState)
    requires OffsetOracle(canOffset) && CaptureValid(ts, held, es)
    requires |held| == |ts| && |P.shift| == |ts| && P.starts.Keys == lens.Keys
    requires forall u, c :: 0 <= u < |held| && c in held[u] ==> c in lens
    ensures Between(r.amount, s.amount)
    ensures r == s || Unsnapped(r)
  {
    if s.amount == 0 || |es| == 0 then s
    else
      assert TracksKnown(held, es) by {
        forall i | 0 <= i < |es| ensures es[i].track < |held| {
          assert EntryValid(ts, held, es[i]);
        }
      }
      Resolve(ts, held, P, es, SafeBigDistance(ts, held, lens, P), canOffset, s)
  }

  /** A slide that is not zero and was resolved for captured clips is accepted by every one of them. */
  lemma SlideForAccepted(ts: seq<Track>, held: seq<seq<ClipId>>, lens: map<ClipId, nat>, P: Positions, es: seq<TrackClip>,
                         canOffset: OffsetQuery, s: SlideState)
    requires OffsetOracle(canOffset) && CaptureValid(ts, held, es)
    requires |held| == |ts| && |P.shift| == |ts| && P.starts.Keys == lens.Keys
    requires forall u, c :: 0 <= u < |held| && c in held[u] ==> c in lens
    requires |es| > 0
    ensures var r := SlideFor(ts, held, lens, P, es, canOffset, s);
      r.amount == 0 || forall j :: 0 <= j < |es| && es[j].clip.Some? ==>
        Query(ts, held, P, es, SafeBigDistance(ts, held, lens, P), canOffset, j, r.amount) == Some(r.amount)
  {
    assert TracksKnown(held, es) by {
      forall i | 0 <= i < |es| ensures es[i].track < |held| {
        assert EntryValid(ts, held, es[i]);
      }
    }
    if s.amount != 0 {
      ResolveAccepted(ts, held, P, es, SafeBigDistance(ts, held, lens, P), canOffset, s);
    }
  }

  /**
   * Non-overlapping with other clips: a slide that is not zero, settled for a capture set that
   * holds no wave track whole, leaves every captured clip clear of the clips of its track that stay.
   */
  lemma SlideForClear(ts: seq<Track>, held: seq<seq<ClipId>>, lens: map<ClipId, nat>, P: Positions, es: seq<TrackClip>,
                      canOffset: OffsetQuery, s: SlideState)
    requires OffsetOracle(canOffset) && OffsetFits(canOffset, lens) && CaptureValid(ts, held, es) && WholeNotWave(ts, es)
    requires |held| == |ts| && |P.shift| == |ts| && P.starts.Keys == lens.Keys
    requires forall u, c :: 0 <= u < |held| && c in held[u] ==> c in lens
    requires |es| > 0
    ensures var r := SlideFor(ts, held, lens, P, es, canOffset, s);
      r.amount != 0 ==> ClearOfStill(held, Shifted(ts, held, P, es, r.amount, None).starts, lens, es)
  {
    assert TracksKnown(held, es) by {
      forall i | 0 <= i < |es| ensures es[i].track < |held| {
        assert EntryValid(ts, held, es[i]);
      }
    }
    if s.amount != 0 {
      ResolveClear(ts, held, lens, P, es, SafeBigDistance(ts, held, lens, P), canOffset, s);
    }
  }


  /**
   * What a drag event starts from: the clip lists, the capture set, the captured track, where
   * everything stood when the slide began and the selection then, the point clicked, and whether
   * the clips have moved to another track.
   */
  datatype DragStart = DragStart(held: seq<seq<ClipId>>, es: seq<TrackClip>, track: TrackId, origin: Positions,
                                 sel0: int, sel1: int, mouseClickX: int, slidVertically: bool)

  /** The start fits the project: its tracks, clips and positions are the project's. */
  ghost predicate ValidStart(p: Project, s0: DragStart)
  {
    && s0.track < |p.tracks| && |s0.held| == |p.tracks| && TracksIn(p.tracks, s0.es)
    && CaptureValid(p.tracks, s0.held, s0.es)
    && s0.origin.starts.Keys == p.lens.Keys && |s0.origin.shift| == |p.tracks|
  }

  // ---------------------------------------------------------------- the handle

  class TimeShiftHandle {
    const state: ClipMoveState
    const gripHit: bool
    var capturedTrack: TrackId
    var didSlideVertically: bool
    var slideUpDownOnly: bool
    var snapPreferRightEdge: bool
    var rectX: int
    var rectWidth: int
    /** Where everything stood when the slide now in progress began, and the selection then. */
    ghost var origin: Positions
    ghost var selOrigin0: int
    ghost var selOrigin1: int

    /**
     * The project is valid, the capture set is valid for it, and everything stands where it stood
     * when the slide began, offset by the slide amount; a captured selection has moved with it.
     */
    ghost predicate Inv(p: Project)
      reads this`capturedTrack, this`origin, this`selOrigin0, this`selOrigin1
      reads p`held, p`starts, p`shift, p`sel0, p`sel1
      reads state`capturedClip, state`capturedClipIsSelection, state`capturedClipArray, state`hSlideAmount
    {
      && p.Valid() && capturedTrack < |p.tracks|
      && CaptureValid(p.tracks, p.held, state.capturedClipArray) && WholeNotWave(p.tracks, state.capturedClipArray)
      && (state.capturedClip.Some? ==> state.capturedClip.value in p.lens)
      && origin.starts.Keys == p.lens.Keys && |origin.shift| == |p.tracks|
      && p.Pos() == DoOffsetResult(p.tracks, p.held, origin, state.capturedClipArray, Some(capturedTrack),
                                   state.hSlideAmount, None)
      && var d := if state.capturedClipIsSelection then state.hSlideAmount else 0;
         p.sel0 == selOrigin0 + d && p.sel1 == selOrigin1 + d
    }

    /** The slide FindDesiredSlideAmount asks for when the pointer is at x over track t, from the slide's start. */
    ghost function Desired(p: Project, x: int, t: TrackId, snap: SnapQuery): SlideState
      reads this, state, p
      requires Inv(p) && t < |p.tracks|
    {
      var edges := DragEdges(p.tracks, p.held, p.lens, origin, state.capturedClip, capturedTrack);
      FindDesiredSlideAmount(p.zoom, rectX, x, state.mouseClickX, PeriodOf(p.tracks, t), Some(snap), slideUpDownOnly,
                             snapPreferRightEdge, capturedTrack, edges.0, edges.1, SlideOf(state).(amount := 0))
    }

    /** Where a drag event starts from. */
    ghost function Start(p: Project): DragStart
      reads this`capturedTrack, this`origin, this`selOrigin0, this`selOrigin1, this`didSlideVertically
      reads p`held, state`capturedClipArray, state`mouseClickX
    {
      DragStart(p.held, state.capturedClipArray, capturedTrack, origin, selOrigin0, selOrigin1, state.mouseClickX,
                didSlideVertically)
    }

    /**
     * The state after the part of a drag event that follows FindDesiredSlideAmount, from `s0`,
     * for the requested slide and snap lines `req`, with the pointer at x over track t.
     *
     * The clips try to move to t exactly when a clip was captured and t is another wave track;
     * the vertical move then decides as Verdict says, and leaves the clips as Relocated says:
     * - with no destination nothing moves, and the clips stay where the slide began;
     * - when there is no room they stay in their tracks, each captured clip moved by the
     *   request if all of them fit there with it (whole-track entries stay), and that becomes
     *   the new start of the slide;
     * - after a move to t, what the checks left of the slide is applied as SlideFor settles it,
     *   from where the slide began, and that becomes the new start.
     * Otherwise nothing changes track, and the slide is SlideFor's for the request, from where
     * the slide began.
     */
    ghost predicate Moved(p: Project, x: int, t: TrackId, canOffset: OffsetQuery, canInsert: InsertQuery,
                          s0: DragStart, req: SlideState, vertical: Option<VerticalOutcome>)
      reads this, state, p
      requires Inv(p) && t < |p.tracks| && OffsetOracle(canOffset) && ValidStart(p, s0)
    {
      && (vertical.Some? <==> state.capturedClip.Some? && t != s0.track && p.tracks[t].kind == Wave)
      && match vertical
         case None =>
           && capturedTrack == s0.track && didSlideVertically == s0.slidVertically
           && p.held == s0.held && state.capturedClipArray == s0.es && state.mouseClickX == s0.mouseClickX
           && origin == s0.origin && selOrigin0 == s0.sel0 && selOrigin1 == s0.sel1
           && SlideOf(state) == SlideFor(p.tracks, p.held, p.lens, s0.origin, s0.es, canOffset, req)
           && p.Pos() == DoOffsetResult(p.tracks, s0.held, s0.origin, s0.es, Some(s0.track), state.hSlideAmount, None)
         case Some(v) => MovedAcross(p, x, t, canOffset, canInsert, s0, req, v)
    }

    /**
     * What a vertical move to another wave track t leaves behind, whatever its verdict v: the
     * verdict is the one MoveVertically reaches from the drag event's start s0, the clips and the
     * capture list are relocated as it says, and the slide starts again from where things now are.
     */
    ghost predicate Landed(p: Project, t: TrackId, canInsert: InsertQuery, s0: DragStart, req: SlideState, v: VerticalOutcome)
      reads this, state, p
      requires Inv(p) && t < |p.tracks| && ValidStart(p, s0)
    {
      var diff := RowDistance(p.tracks, s0.track, t);
      && v == Verdict(p.tracks, s0.held, s0.origin.starts, s0.es, diff, req.amount, p.zoom.ticksPerPixel, canInsert)
      && Relocated(p.tracks, s0.held, s0.es, p.held, state.capturedClipArray, diff, v)
      && state.hSlideAmount == 0 && origin == p.Pos()
    }

    /**
     * When the vertical move kept the clips where they were: put back, or shifted by the whole
     * slide when it did not fit and the shifted clips do; the selection follows a shift.
     */
    ghost predicate Stayed(p: Project, x: int, s0: DragStart, req: SlideState, v: VerticalOutcome)
      reads this, state, p
      requires !v.MovedTo?
    {
      && capturedTrack == s0.track && didSlideVertically == s0.slidVertically
      && state.snapLeft == req.snapLeft && state.snapRight == req.snapRight
      && match v
         case NoDestination =>
           && p.Pos() == s0.origin && p.sel0 == s0.sel0 && p.sel1 == s0.sel1 && state.mouseClickX == s0.mouseClickX
         case StayedPut(slid) =>
           && p.starts == (if slid then ShiftClips(s0.origin.starts, ClipsOf(s0.es), req.amount) else s0.origin.starts)
           && p.shift == s0.origin.shift
           && state.mouseClickX == (if slid then x else s0.mouseClickX)
           && var d := if slid && state.capturedClipIsSelection then req.amount else 0;
              p.sel0 == s0.sel0 + d && p.sel1 == s0.sel1 + d
    }

    /** VerticalStep's result: after a move to t nothing has slid yet; otherwise the clips stayed. */
    ghost predicate Stepped(p: Project, x: int, t: TrackId, canInsert: InsertQuery, s0: DragStart, req: SlideState,
                            v: VerticalOutcome)
      reads this, state, p
      requires Inv(p) && t < |p.tracks| && ValidStart(p, s0)
    {
      && Landed(p, t, canInsert, s0, req, v)
      && if v.MovedTo? then
           && capturedTrack == t && didSlideVertically && state.mouseClickX == x
           && p.Pos() == s0.origin && p.sel0 == s0.sel0 && p.sel1 == s0.sel1 && SlideOf(state) == req.(amount := 0)
         else Stayed(p, x, s0, req, v)
    }

    /** Moved when the clips went to another wave track t, with the vertical move's verdict v. */
    ghost predicate MovedAcross(p: Project, x: int, t: TrackId, canOffset: OffsetQuery, canInsert: InsertQuery,
                                s0: DragStart, req: SlideState, v: VerticalOutcome)
      reads this, state, p
      requires Inv(p) && t < |p.tracks| && OffsetOracle(canOffset) && ValidStart(p, s0)
    {
      && Landed(p, t, canInsert, s0, req, v)
      && if v.MovedTo? then Arrived(p, x, t, canOffset, s0, req.(amount := v.slide)) else Stayed(p, x, s0, req, v)
    }

    /**
     * After the clips went to track t, the slide req, cut back as Slide cuts it, is applied from
     * where the drag event started, and the selection moves with it.
     */
    ghost predicate Arrived(p: Project, x: int, t: TrackId, canOffset: OffsetQuery, s0: DragStart, req: SlideState)
      reads this, state, p
      requires Inv(p) && t < |p.tracks| && OffsetOracle(canOffset) && ValidStart(p, s0)
    {
      && capturedTrack == t && didSlideVertically && state.mouseClickX == x
      && var h := SlideFor(p.tracks, p.held, p.lens, s0.origin, state.capturedClipArray, canOffset, req);
         && p.Pos() == DoOffsetResult(p.tracks, p.held, s0.origin, state.capturedClipArray, Some(t), h.amount, None)
         && state.snapLeft == h.snapLeft && state.snapRight == h.snapRight
         && var d := if state.capturedClipIsSelection then h.amount else 0;
            p.sel0 == s0.sel0 + d && p.sel1 == s0.sel1 + d
    }

    /** HitAnywhere: a handle for track t, with nothing captured yet. */
    constructor(p: Project, t: TrackId, gripHit: bool)
      requires p.Valid() && t < |p.tracks|
      ensures Inv(p) && fresh(state) && state.Cleared()
      ensures capturedTrack == t && this.gripHit == gripHit && !didSlideVertically
    {
      state := new ClipMoveState();
      this.gripHit := gripHit;
      capturedTrack := t;
      didSlideVertically := false;
      slideUpDownOnly := false;
      snapPreferRightEdge := false;
      rectX, rectWidth := 0, 0;
      origin := p.Pos();
      selOrigin0, selOrigin1 := p.sel0, p.sel1;
      new;
      OffsetByZero(p.tracks, p.held, p.Pos(), [], Some(t), None);
    }

    /** The slide starts again from where everything now stands. */
    ghost method Rebase(p: Project)
      requires p.Valid() && capturedTrack < |p.tracks| && CaptureValid(p.tracks, p.held, state.capturedClipArray)
      requires WholeNotWave(p.tracks, state.capturedClipArray)
      requires (state.capturedClip.Some? ==> state.capturedClip.value in p.lens) && state.hSlideAmount == 0
      modifies this`origin, this`selOrigin0, this`selOrigin1
      ensures Inv(p) && origin == p.Pos()
    {
      origin := p.Pos();
      selOrigin0, selOrigin1 := p.sel0, p.sel1;
      OffsetByZero(p.tracks, p.held, p.Pos(), state.capturedClipArray, Some(capturedTrack), None);
    }

    /**
     * Click's capture: the state is cleared and the capture set built for a click at clickTime;
     * false when a click on a wave track hits no clip.
     */
    method Capture(p: Project, clickTime: int, shiftDown: bool, syncLocked: bool, clipAtX: Option<ClipId>)
      returns (ok: bool)
      requires Inv(p)
      requires clipAtX.Some? ==> clipAtX.value in p.held[capturedTrack]
      modifies this`didSlideVertically, this`origin, this`selOrigin0, this`selOrigin1, state
      ensures Inv(p) && !didSlideVertically && state.hSlideAmount == 0 && origin == p.Pos()
      ensures Grabbed(p.tracks, p.held, p.starts, p.lens, p.sel0, p.sel1, capturedTrack, clickTime, shiftDown, syncLocked,
                      clipAtX, ok, state.capturedClip, state.capturedClipIsSelection, state.capturedClipArray)
    {
      state.Clear();
      didSlideVertically := false;
      ok := CaptureForClick(state, p, capturedTrack, clickTime, shiftDown, syncLocked, clipAtX);
      GrabbedWholeNotWave(p.tracks, p.held, p.starts, p.lens, p.sel0, p.sel1, capturedTrack, clickTime, shiftDown,
                          syncLocked, clipAtX, ok, state.capturedClip, state.capturedClipIsSelection,
                          state.capturedClipArray);
      Rebase(p);
    }

    /** The rest of Click: the drag's settings, the point clicked, no snap line, and the edge to prefer when snapping. */
    method Arm(p: Project, x: int, rectX': int, rectWidth': int, cmdDown: bool, multiToolActive: bool, clickTime: int)
      requires state.capturedClip.Some? ==> state.capturedClip.value in p.starts && state.capturedClip.value in p.lens
      modifies this`slideUpDownOnly, this`rectX, this`rectWidth, this`snapPreferRightEdge
      modifies state`mouseClickX, state`snapLeft, state`snapRight
      ensures rectX == rectX' && rectWidth == rectWidth' && slideUpDownOnly == (cmdDown && !multiToolActive)
      ensures state.mouseClickX == x && state.snapLeft == -1 && state.snapRight == -1
      ensures snapPreferRightEdge == (state.capturedClip.Some? &&
        NearerEnd(clickTime, p.starts[state.capturedClip.value],
                  p.starts[state.capturedClip.value] + p.lens[state.capturedClip.value]))
    {
      slideUpDownOnly := cmdDown && !multiToolActive;
      rectX, rectWidth := rectX', rectWidth';
      state.mouseClickX := x;
      state.snapLeft, state.snapRight := -1, -1;
      snapPreferRightEdge := state.capturedClip.Some? &&
        NearerEnd(clickTime, p.starts[state.capturedClip.value],
                  p.starts[state.capturedClip.value] + p.lens[state.capturedClip.value]);
    }

    /**
     * Click: with audio playing or no track under the pointer it is cancelled and nothing
     * changes; otherwise the state is cleared, the capture set built, and the drag armed. A click
     * on a wave track that hits no clip is cancelled after the state has been cleared.
     */
    method Click(p: Project, x: int, rectX': int, rectWidth': int, onTrack: bool, audioActive: bool, shiftDown: bool,
                 cmdDown: bool, multiToolActive: bool, syncLocked: bool, clipAtX: Option<ClipId>)
      returns (result: set<RefreshCode>)
      requires Inv(p)
      requires clipAtX.Some? ==> clipAtX.value in p.held[capturedTrack]
      modifies this`didSlideVertically, this`slideUpDownOnly, this`snapPreferRightEdge, this`rectX, this`rectWidth,
               this`origin, this`selOrigin0, this`selOrigin1, state
      ensures Inv(p) && capturedTrack == old(capturedTrack)
      ensures var grabs := p.tracks[capturedTrack].kind == Wave && !shiftDown;
        result == if audioActive || !onTrack || (grabs && clipAtX.None?) then {Cancelled} else {}
      ensures audioActive || !onTrack ==> unchanged(this) && unchanged(state)
      ensures !audioActive && onTrack ==>
        && !didSlideVertically && state.hSlideAmount == 0 && origin == p.Pos()
        && Grabbed(p.tracks, p.held, p.starts, p.lens, p.sel0, p.sel1, capturedTrack, PositionToTime(p.zoom, x, rectX'),
                   shiftDown, syncLocked, clipAtX, result == {}, state.capturedClip, state.capturedClipIsSelection,
                   state.capturedClipArray)
      ensures result == {} ==>
        var clickTime := PositionToTime(p.zoom, x, rectX');
        && rectX == rectX' && rectWidth == rectWidth' && slideUpDownOnly == (cmdDown && !multiToolActive)
        && state.mouseClickX == x && state.snapLeft == -1 && state.snapRight == -1
        && snapPreferRightEdge == (state.capturedClip.Some? &&
             NearerEnd(clickTime, p.starts[state.capturedClip.value],
                       p.starts[state.capturedClip.value] + p.lens[state.capturedClip.value]))
    {
      if audioActive || !onTrack {
        return {Cancelled};
      }
      var clickTime := PositionToTime(p.zoom, x, rectX');
      var ok := Capture(p, clickTime, shiftDown, syncLocked, clipAtX);
      if !ok {
        return {Cancelled};
      }
      Arm(p, x, rectX', rectWidth', cmdDown, multiToolActive, clickTime);
      return {};
    }

    /** Cancel: the project goes back to its last recorded state. */
    method Cancel(p: Project) returns (result: set<RefreshCode>)
      modifies p`history
      ensures p.history == old(p.history) + [RolledBack] && result == {RefreshAll}
    {
      p.RollbackState();
      return {RefreshAll};
    }

    /** Drag's first step: the slide so far is undone, and the selection moves back with it. */
    method UndoSlide(p: Project)
      requires Inv(p)
      modifies p`starts, p`shift, p`sel0, p`sel1, state`hSlideAmount
      ensures Inv(p) && p.Pos() == origin && state.hSlideAmount == 0
    {
      ghost var h := state.hSlideAmount;
      DoOffset(state, p, Some(capturedTrack), -state.hSlideAmount, None);
      DoOffsetRoundTrip(p.tracks, p.held, origin, state.capturedClipArray, Some(capturedTrack), h, None);
      if state.capturedClipIsSelection {
        p.MoveSelection(-state.hSlideAmount);
      }
      state.hSlideAmount := 0;
      OffsetByZero(p.tracks, p.held, origin, state.capturedClipArray, Some(capturedTrack), None);
    }

    /** The state a drag event starts from fits the project. */
    lemma ValidStartNow(p: Project)
      requires Inv(p)
      ensures ValidStart(p, Start(p))
    {
      forall i | 0 <= i < |state.capturedClipArray| ensures state.capturedClipArray[i].track < |p.tracks| {
        assert EntryValid(p.tracks, p.held, state.capturedClipArray[i]);
      }
    }

    /**
     * The vertical block of Drag: the clips move to the track under the pointer, or stay (put
     * back, shifted when they fit); either way the slide starts again from where things now are.
     */
    method VerticalStep(p: Project, t: TrackId, desired: int, x: int, canInsert: InsertQuery)
      returns (outcome: VerticalOutcome)
      requires Inv(p) && state.hSlideAmount == 0 && t < |p.tracks| && InsertOracle(canInsert, p.lens)
      modifies this`capturedTrack, this`didSlideVertically, this`origin, this`selOrigin0, this`selOrigin1
      modifies state`capturedClipArray, state`mouseClickX, state`hSlideAmount, p`held, p`starts, p`sel0, p`sel1
      ensures Inv(p) && ValidStart(p, old(Start(p)))
      ensures Stepped(p, x, t, canInsert, old(Start(p)), SlideState(desired, old(state.snapLeft), old(state.snapRight)),
                      outcome)
    {
      ValidStartNow(p);
      OffsetByZero(p.tracks, p.held, origin, state.capturedClipArray, Some(capturedTrack), None);
      ghost var held0, es0 := p.held, state.capturedClipArray;
      outcome := MoveVertically(state, p, capturedTrack, t, desired, x, canInsert);
      RelocatedWhole(p.tracks, held0, es0, p.held, state.capturedClipArray, RowDistance(p.tracks, capturedTrack, t), outcome);
      if outcome.MovedTo? {
        capturedTrack := t;
        didSlideVertically := true;
      }
      Rebase(p);
    }

    /** The horizontal slide: cut back until every clip can take it, then applied, the selection moving with it. */
    method Slide(p: Project, desired: int, canOffset: OffsetQuery)
      requires Inv(p) && state.hSlideAmount == 0 && desired != 0 && OffsetOracle(canOffset) && OffsetFits(canOffset, p.lens)
      modifies state`hSlideAmount, state`snapLeft, state`snapRight, p`starts, p`shift, p`sel0, p`sel1
      ensures Inv(p)
      ensures SlideOf(state) == SlideFor(p.tracks, p.held, p.lens, origin, state.capturedClipArray, canOffset,
                                         SlideState(desired, old(state.snapLeft), old(state.snapRight)))
      ensures |state.capturedClipArray| > 0 && state.hSlideAmount != 0 ==>
        ClearOfStill(p.held, p.starts, p.lens, state.capturedClipArray)
    {
      OffsetByZero(p.tracks, p.held, origin, state.capturedClipArray, Some(capturedTrack), None);
      assert p.Pos() == origin;
      state.hSlideAmount := desired;
      DoSlideHorizontal(state, p, capturedTrack, canOffset);
      if state.capturedClipIsSelection {
        p.MoveSelection(state.hSlideAmount);
      }
    }

    /** After a move to another track the horizontal slide is applied and then becomes the new origin. */
    method SlideAfterMove(p: Project, desired: int, canOffset: OffsetQuery)
      requires Inv(p) && state.hSlideAmount == 0 && desired != 0 && OffsetOracle(canOffset) && OffsetFits(canOffset, p.lens)
      modifies state`hSlideAmount, state`snapLeft, state`snapRight, p`starts, p`shift, p`sel0, p`sel1
      modifies this`origin, this`selOrigin0, this`selOrigin1
      ensures Inv(p) && state.hSlideAmount == 0 && origin == p.Pos()
      ensures var h := SlideFor(p.tracks, p.held, p.lens, old(origin), state.capturedClipArray, canOffset,
                                SlideState(desired, old(state.snapLeft), old(state.snapRight)));
        && p.Pos() == DoOffsetResult(p.tracks, p.held, old(origin), state.capturedClipArray, Some(capturedTrack),
                                     h.amount, None)
        && state.snapLeft == h.snapLeft && state.snapRight == h.snapRight
        && var d := if state.capturedClipIsSelection then h.amount else 0;
           p.sel0 == old(selOrigin0) + d && p.sel1 == old(selOrigin1) + d
    {
      Slide(p, desired, canOffset);
      state.hSlideAmount := 0;
      Rebase(p);
    }

    /** SlideAfterMove for a vertical move to t, stated against the start s0 of the drag event. */
    method SlideArrived(p: Project, x: int, t: TrackId, canOffset: OffsetQuery, canInsert: InsertQuery,
                        ghost s0: DragStart, ghost req: SlideState, outcome: VerticalOutcome)
      requires Inv(p) && state.hSlideAmount == 0 && t < |p.tracks| && OffsetOracle(canOffset) && ValidStart(p, s0)
      requires OffsetFits(canOffset, p.lens)
      requires outcome.MovedTo? && outcome.slide != 0 && Stepped(p, x, t, canInsert, s0, req, outcome)
      modifies state`hSlideAmount, state`snapLeft, state`snapRight, p`starts, p`shift, p`sel0, p`sel1
      modifies this`origin, this`selOrigin0, this`selOrigin1
      ensures Inv(p) && MovedAcross(p, x, t, canOffset, canInsert, s0, req, outcome)
    {
      SlideAfterMove(p, outcome.slide, canOffset);
      assert Arrived(p, x, t, canOffset, s0, req.(amount := outcome.slide));
    }

    /** FindDesiredSlideAmount at the slide's start, its snap lines becoming the state's. */
    method Aim(p: Project, x: int, t: TrackId, snap: SnapQuery) returns (desired: int)
      requires Inv(p) && t < |p.tracks| && p.Pos() == origin
      modifies state`snapLeft, state`snapRight
      ensures desired == old(Desired(p, x, t, snap)).amount
      ensures state.snapLeft == old(Desired(p, x, t, snap)).snapLeft
      ensures state.snapRight == old(Desired(p, x, t, snap)).snapRight
    {
      var edges := DragEdges(p.tracks, p.held, p.lens, p.Pos(), state.capturedClip, capturedTrack);
      var s := FindDesiredSlideAmount(p.zoom, rectX, x, state.mouseClickX, PeriodOf(p.tracks, t), Some(snap),
                                      slideUpDownOnly, snapPreferRightEdge, capturedTrack, edges.0, edges.1,
                                      SlideOf(state).(amount := 0));
      state.snapLeft, state.snapRight := s.snapLeft, s.snapRight;
      desired := s.amount;
    }

    /**
     * Drag's move to another wave track t: the vertical move decides; after a move to t what is
     * left of the slide is applied horizontally and becomes the new origin.
     */
    method MoveAcross(p: Project, x: int, t: TrackId, desired: int, canOffset: OffsetQuery, canInsert: InsertQuery)
      returns (outcome: VerticalOutcome)
      requires Inv(p) && state.hSlideAmount == 0 && t < |p.tracks|
      requires state.capturedClip.Some? && t != capturedTrack && p.tracks[t].kind == Wave
      requires OffsetOracle(canOffset) && OffsetFits(canOffset, p.lens) && InsertOracle(canInsert, p.lens)
      modifies this`capturedTrack, this`didSlideVertically, this`origin, this`selOrigin0, this`selOrigin1
      modifies state`capturedClipArray, state`mouseClickX, state`hSlideAmount, state`snapLeft, state`snapRight
      modifies p`held, p`starts, p`shift, p`sel0, p`sel1
      ensures Inv(p) && ValidStart(p, old(Start(p)))
      ensures MovedAcross(p, x, t, canOffset, canInsert, old(Start(p)),
                          SlideState(desired, old(state.snapLeft), old(state.snapRight)), outcome)
    {
      ghost var s0 := Start(p);
      ghost var req := SlideState(desired, state.snapLeft, state.snapRight);
      outcome := VerticalStep(p, t, desired, x, canInsert);
      if outcome.MovedTo? && outcome.slide != 0 {
        SlideArrived(p, x, t, canOffset, canInsert, s0, req, outcome);
      } else if outcome.MovedTo? {
        OffsetByZero(p.tracks, p.held, p.Pos(), state.capturedClipArray, Some(t), None);
      }
    }

    /**
     * The rest of Drag once the slide is undone: to the track under the pointer when it is
     * another wave track and a clip was captured, otherwise the slide horizontally.
     */
    method Move(p: Project, x: int, t: TrackId, desired: int, canOffset: OffsetQuery, canInsert: InsertQuery)
      returns (vertical: Option<VerticalOutcome>)
      requires Inv(p) && state.hSlideAmount == 0 && t < |p.tracks|
      requires OffsetOracle(canOffset) && OffsetFits(canOffset, p.lens) && InsertOracle(canInsert, p.lens)
      modifies this`capturedTrack, this`didSlideVertically, this`origin, this`selOrigin0, this`selOrigin1
      modifies state`capturedClipArray, state`mouseClickX, state`hSlideAmount, state`snapLeft, state`snapRight
      modifies p`held, p`starts, p`shift, p`sel0, p`sel1
      ensures Inv(p) && ValidStart(p, old(Start(p)))
      ensures Moved(p, x, t, canOffset, canInsert, old(Start(p)),
                    SlideState(desired, old(state.snapLeft), old(state.snapRight)), vertical)
    {
      ValidStartNow(p);
      if state.capturedClip.Some? && t != capturedTrack && p.tracks[t].kind == Wave {
        var outcome := MoveAcross(p, x, t, desired, canOffset, canInsert);
        vertical := Some(outcome);
      } else {
        vertical := None;
        if desired != 0 {
          Slide(p, desired, canOffset);
        }
      }
    }

    /**
     * Drag over track t: the slide so far is undone, the new one is worked out from the pointer,
     * the clips move to t when it is another wave track, and what is left of the slide is
     * applied horizontally.
     */
    method DragOver(p: Project, x: int, t: TrackId, snap: SnapQuery, canOffset: OffsetQuery, canInsert: InsertQuery)
      returns (ghost vertical: Option<VerticalOutcome>)
      requires Inv(p) && OffsetOracle(canOffset) && OffsetFits(canOffset, p.lens) && InsertOracle(canInsert, p.lens) && t < |p.tracks|
      modifies this`capturedTrack, this`didSlideVertically, this`origin, this`selOrigin0, this`selOrigin1
      modifies state`capturedClipArray, state`mouseClickX, state`hSlideAmount, state`snapLeft, state`snapRight
      modifies p`held, p`starts, p`shift, p`sel0, p`sel1
      ensures Inv(p) && ValidStart(p, old(Start(p)))
      ensures Moved(p, x, t, canOffset, canInsert, old(Start(p)), old(Desired(p, x, t, snap)), vertical)
    {
      ghost var want := Desired(p, x, t, snap);
      ghost var s0 := Start(p);
      ValidStartNow(p);
      UndoSlide(p);
      assert Desired(p, x, t, snap) == want;
      var desired := Aim(p, x, t, snap);
      assert Start(p) == s0 && SlideState(desired, state.snapLeft, state.snapRight) == want;
      vertical := Move(p, x, t, desired, canOffset, canInsert);
    }

    /**
     * Drag: with audio playing the drag is cancelled; off every track and outside the track
     * area nothing happens; otherwise the drag goes on over the track under the pointer, or over
     * the captured track when the pointer is off every track.
     */
    method Drag(p: Project, x: int, pTrack: Option<TrackId>, audioActive: bool, snap: SnapQuery,
                canOffset: OffsetQuery, canInsert: InsertQuery)
      returns (result: set<RefreshCode>, ghost vertical: Option<VerticalOutcome>)
      requires Inv(p) && OffsetOracle(canOffset) && OffsetFits(canOffset, p.lens) && InsertOracle(canInsert, p.lens)
      requires pTrack.Some? ==> pTrack.value < |p.tracks|
      modifies this`capturedTrack, this`didSlideVertically, this`origin, this`selOrigin0, this`selOrigin1
      modifies state`capturedClipArray, state`mouseClickX, state`hSlideAmount, state`snapLeft, state`snapRight
      modifies p`held, p`starts, p`shift, p`sel0, p`sel1, p`history
      ensures Inv(p) && ValidStart(p, old(Start(p)))
      ensures var track := PointerTrack(pTrack, x, rectX, rectWidth, old(capturedTrack));
        result == if audioActive then {RefreshAll, Cancelled} else if track.None? then {} else {RefreshAll}
      ensures p.history == if audioActive then old(p.history) + [RolledBack] else old(p.history)
      ensures audioActive || PointerTrack(pTrack, x, rectX, rectWidth, old(capturedTrack)).None? ==>
        && Start(p) == old(Start(p)) && p.Pos() == old(p.Pos()) && p.sel0 == old(p.sel0) && p.sel1 == old(p.sel1)
        && SlideOf(state) == old(SlideOf(state)) && vertical.None?
      ensures !audioActive && PointerTrack(pTrack, x, rectX, rectWidth, old(capturedTrack)).Some? ==>
        var t := PointerTrack(pTrack, x, rectX, rectWidth, old(capturedTrack)).value;
        Moved(p, x, t, canOffset, canInsert, old(Start(p)), old(Desired(p, x, t, snap)), vertical)
    {
      ValidStartNow(p);
      if audioActive {
        result := Cancel(p);
        return result + {Cancelled}, None;
      }
      var track := PointerTrack(pTrack, x, rectX, rectWidth, capturedTrack);
      if track.None? {
        return {}, None;
      }
      vertical := DragOver(p, x, track.value, snap, canOffset, canInsert);
      return {RefreshAll}, vertical;
    }

    /**
     * Release: the snap lines go; unless nothing moved, every clip that changed track takes its
     * new track's rate and the move is pushed onto the history, a time shift consolidating with
     * the one before it.
     */
    method Release(p: Project, audioActive: bool) returns (result: set<RefreshCode>)
      requires Inv(p) && p.Rated()
      modifies state`snapLeft, state`snapRight, p`clipPeriod, p`changed, p`history
      ensures Inv(p) && p.Rated()
      ensures audioActive ==>
        && result == {RefreshAll} && p.history == old(p.history) + [RolledBack]
        && unchanged(state) && p.clipPeriod == old(p.clipPeriod) && p.changed == old(p.changed)
      ensures !audioActive ==>
        var es := state.capturedClipArray;
        var moved := didSlideVertically || state.hSlideAmount != 0;
        && state.snapLeft == -1 && state.snapRight == -1
        && result == (if old(state.snapLeft) != -1 || old(state.snapRight) != -1 then {RefreshAll} else {})
                     + (if moved then {FixScrollbars} else {})
        && p.clipPeriod == (if moved then Resampled(old(p.clipPeriod), p.tracks, es, |es|) else old(p.clipPeriod))
        && p.changed == (if moved then old(p.changed) + MovedBefore(es, |es|) else old(p.changed))
        && p.history == old(p.history) +
             (if moved then [Pushed(ReleaseMessage(didSlideVertically, state.hSlideAmount), !didSlideVertically)] else [])
    {
      if audioActive {
        result := Cancel(p);
        return;
      }
      result := ClearSnapLines();
      if !didSlideVertically && state.hSlideAmount == 0 {
        return;
      }
      Commit(p);
      result := result + {FixScrollbars};
    }

    /** Release's first step: the snap lines are removed, a redraw needed only when there were some. */
    method ClearSnapLines() returns (result: set<RefreshCode>)
      modifies state`snapLeft, state`snapRight
      ensures state.snapLeft == -1 && state.snapRight == -1
      ensures result == if old(state.snapLeft) != -1 || old(state.snapRight) != -1 then {RefreshAll} else {}
    {
      result := {};
      if state.snapLeft != -1 || state.snapRight != -1 {
        state.snapLeft, state.snapRight := -1, -1;
        result := {RefreshAll};
      }
    }

    /** Release's commit: the moved clips are resampled and marked changed, and the move is recorded. */
    method Commit(p: Project)
      requires Inv(p) && p.Rated()
      modifies p`clipPeriod, p`changed, p`history
      ensures p.Rated()
      ensures var es := state.capturedClipArray;
        && p.clipPeriod == Resampled(old(p.clipPeriod), p.tracks, es, |es|)
        && p.changed == old(p.changed) + MovedBefore(es, |es|)
        && p.history == old(p.history) + [Pushed(ReleaseMessage(didSlideVertically, state.hSlideAmount), !didSlideVertically)]
    {
      ResampleMoved(state, p);
      p.PushState(ReleaseMessage(didSlideVertically, state.hSlideAmount), !didSlideVertically);
    }
  }
}
