/**
 * DoSlideHorizontal: the requested slide is cut back toward zero until every captured clip can
 * move by it without running into a clip that is not moving, then applied once.
 */
module Slide {
  import opened Wrappers
  import opened Tracks
  import opened Geometry
  import opened Timeline
  import opened Capture
  import opened Offset

  /**
   * WaveTrack::CanOffsetClip, which is not part of this model: given the clips of a track and
   * where clips start, whether `clip` can move by `amount`, and if so by how much it may move.
   */
  type OffsetQuery = (seq<ClipId>, map<ClipId, int>, ClipId, int) -> Option<int>

  /** `x` lies between zero and `a`, both included. */
  predicate Between(x: int, a: int)
  {
    0 <= x <= a || a <= x <= 0
  }

  function Abs(x: int): nat
  {
    if x < 0 then -x else x
  }

  /** The contract assumed of CanOffsetClip: the allowed amount is never beyond the requested one. */
  ghost predicate OffsetOracle(canOffset: OffsetQuery)
  {
    forall cs, m, c, a :: canOffset(cs, m, c, a).Some? ==> Between(canOffset(cs, m, c, a).value, a)
  }

  /**
   * The rest of the contract assumed of CanOffsetClip, which checks the amount it settles on
   * once more against every clip: the clip, slid by an amount it allows, overlaps no other clip
   * of the track where the clips now are.
   */
  ghost predicate OffsetFits(canOffset: OffsetQuery, lens: map<ClipId, nat>)
  {
    forall cs, m, c, a, o ::
      canOffset(cs, m, c, a).Some? && o in cs && o != c && c in m && c in lens && o in m && o in lens ==>
      !Clash(m, lens, c, canOffset(cs, m, c, a).value, o)
  }

  /** Every captured clip overlaps no clip of its own track that is not captured. */
  ghost predicate ClearOfStill(held: seq<seq<ClipId>>, starts: map<ClipId, int>, lens: map<ClipId, nat>,
                               es: seq<TrackClip>)
  {
    forall j, o ::
      0 <= j < |es| && es[j].clip.Some? && es[j].track < |held| && o in held[es[j].track] && !HasClip(es, o) &&
      es[j].clip.value in starts && es[j].clip.value in lens && o in starts && o in lens ==>
      !Clash(starts, lens, es[j].clip.value, 0, o)
  }

  /** The part of the drag state the resolver rewrites. */
  datatype SlideState = SlideState(amount: int, snapLeft: int, snapRight: int)

  function SlideOf(state: ClipMoveState): SlideState
    reads state
  {
    SlideState(state.hSlideAmount, state.snapLeft, state.snapRight)
  }

  predicate Unsnapped(s: SlideState)
  {
    s.snapLeft == -1 && s.snapRight == -1
  }

  predicate TracksKnown(held: seq<seq<ClipId>>, es: seq<TrackClip>)
  {
    forall i :: 0 <= i < |es| ==> es[i].track < |held|
  }

  /** The question asked for entry k: can its clip move by `amount` with the other moving clips pushed away by `big`? */
  function Query(ts: seq<Track>, held: seq<seq<ClipId>>, P: Positions, es: seq<TrackClip>, big: int,
                 canOffset: OffsetQuery, k: nat, amount: int): Option<int>
    requires k < |es| && es[k].clip.Some? && es[k].track < |held|
  {
    canOffset(held[es[k].track], Shifted(ts, held, P, es, -big, es[k].clip).starts, es[k].clip.value, amount)
  }

  /** The answer's effect: a smaller allowed amount, or zero when the clip cannot move; either unsnaps. */
  function Step(s: SlideState, q: Option<int>): SlideState
  {
    match q
    case Some(allowed) => if s.amount != allowed then SlideState(allowed, -1, -1) else s
    case None => SlideState(0, -1, -1)
  }

  /** One pass of the do-while from entry k on. */
  function PassFrom(ts: seq<Track>, held: seq<seq<ClipId>>, P: Positions, es: seq<TrackClip>, big: int,
                    canOffset: OffsetQuery, k: nat, s: SlideState): (r: SlideState)
    requires OffsetOracle(canOffset) && TracksKnown(held, es) && k <= |es|
    ensures Between(r.amount, s.amount)
    ensures r == s || Unsnapped(r)
    decreases |es| - k
  {
    if k == |es| then s
    else if es[k].clip.None? then PassFrom(ts, held, P, es, big, canOffset, k + 1, s)
    else PassFrom(ts, held, P, es, big, canOffset, k + 1, Step(s, Query(ts, held, P, es, big, canOffset, k, s.amount)))
  }

  /** The do-while: passes until one leaves the amount as it found it. */
  function Resolve(ts: seq<Track>, held: seq<seq<ClipId>>, P: Positions, es: seq<TrackClip>, big: int,
                   canOffset: OffsetQuery, s: SlideState): (r: SlideState)
    requires OffsetOracle(canOffset) && TracksKnown(held, es)
    ensures Between(r.amount, s.amount)
    ensures r == s || Unsnapped(r)
    decreases Abs(s.amount)
  {
    var s' := PassFrom(ts, held, P, es, big, canOffset, 0, s);
    if s'.amount == s.amount then s' else Resolve(ts, held, P, es, big, canOffset, s')
  }

  /**
   * A pass that leaves the amount unchanged got it accepted, unchanged, for every clip from
   * entry k on (or the amount is zero).
   */
  lemma {:induction false} PassUnchangedAccepts(ts: seq<Track>, held: seq<seq<ClipId>>, P: Positions, es: seq<TrackClip>,
                                                big: int, canOffset: OffsetQuery, k: nat, s: SlideState)
    requires OffsetOracle(canOffset) && TracksKnown(held, es) && k <= |es|
    requires PassFrom(ts, held, P, es, big, canOffset, k, s).amount == s.amount
    ensures s.amount == 0 || forall j :: k <= j < |es| && es[j].clip.Some? ==>
      Query(ts, held, P, es, big, canOffset, j, s.amount) == Some(s.amount)
    decreases |es| - k
  {
    if k < |es| && s.amount != 0 {
      if es[k].clip.None? {
        PassUnchangedAccepts(ts, held, P, es, big, canOffset, k + 1, s);
      } else {
        var q := Query(ts, held, P, es, big, canOffset, k, s.amount);
        var s' := Step(s, q);
        if q == Some(s.amount) {
          assert s' == s;
          PassUnchangedAccepts(ts, held, P, es, big, canOffset, k + 1, s);
        } else {
          assert false;
        }
      }
    }
  }

  /**
   * The amount the resolver settles on is one that every captured clip's track accepts as it
   * stands, with the other moving clips out of the way; only zero is exempt (a clip that
   * cannot move at all drives the amount to zero).
   */
  lemma {:induction false} ResolveAccepted(ts: seq<Track>, held: seq<seq<ClipId>>, P: Positions, es: seq<TrackClip>,
                                           big: int, canOffset: OffsetQuery, s: SlideState)
    requires OffsetOracle(canOffset) && TracksKnown(held, es)
    ensures var r := Resolve(ts, held, P, es, big, canOffset, s);
      r.amount == 0 || forall j :: 0 <= j < |es| && es[j].clip.Some? ==>
        Query(ts, held, P, es, big, canOffset, j, r.amount) == Some(r.amount)
    decreases Abs(s.amount)
  {
    var s' := PassFrom(ts, held, P, es, big, canOffset, 0, s);
    if s'.amount == s.amount {
      PassUnchangedAccepts(ts, held, P, es, big, canOffset, 0, s);
    } else {
      ResolveAccepted(ts, held, P, es, big, canOffset, s');
    }
  }

  /**
   * Non-overlapping with other clips: when the resolver settles on an amount that is not zero,
   * offsetting the capture set by it leaves every captured clip clear of every clip of its track
   * that does not move (wave tracks captured whole would move clips unchecked, so there are none).
   */
  lemma ResolveClear(ts: seq<Track>, held: seq<seq<ClipId>>, lens: map<ClipId, nat>, P: Positions, es: seq<TrackClip>,
                     big: int, canOffset: OffsetQuery, s: SlideState)
    requires OffsetOracle(canOffset) && OffsetFits(canOffset, lens) && TracksKnown(held, es)
    requires DistinctKeys(es) && WholeNotWave(ts, es)
    ensures var r := Resolve(ts, held, P, es, big, canOffset, s).amount;
      r != 0 ==> ClearOfStill(held, Shifted(ts, held, P, es, r, None).starts, lens, es)
  {
    var r := Resolve(ts, held, P, es, big, canOffset, s).amount;
    if r != 0 {
      ResolveAccepted(ts, held, P, es, big, canOffset, s);
      var F := Shifted(ts, held, P, es, r, None);
      ShiftedCounts(ts, held, P, es, r, None);
      forall j, o | 0 <= j < |es| && es[j].clip.Some? && es[j].track < |held| && o in held[es[j].track] &&
          !HasClip(es, o) && es[j].clip.value in F.starts && es[j].clip.value in lens && o in F.starts && o in lens
        ensures !Clash(F.starts, lens, es[j].clip.value, 0, o)
      {
        AcceptedClear(ts, held, lens, P, es, big, canOffset, j, o, r);
      }
    }
  }

  /**
   * One captured clip and one clip that stays: the track accepted the amount with the other
   * moving clips pushed away, which is where the stationary clip and this clip's start are the
   * same as before the offset.
   */
  lemma AcceptedClear(ts: seq<Track>, held: seq<seq<ClipId>>, lens: map<ClipId, nat>, P: Positions, es: seq<TrackClip>,
                      big: int, canOffset: OffsetQuery, j: nat, o: ClipId, r: int)
    requires OffsetFits(canOffset, lens) && TracksKnown(held, es) && DistinctKeys(es) && WholeNotWave(ts, es)
    requires j < |es| && es[j].clip.Some? && o in held[es[j].track] && !HasClip(es, o)
    requires es[j].clip.value in P.starts && es[j].clip.value in lens && o in P.starts && o in lens
    requires Query(ts, held, P, es, big, canOffset, j, r) == Some(r)
    ensures var F := Shifted(ts, held, P, es, r, None).starts;
      es[j].clip.value in F && o in F && !Clash(F, lens, es[j].clip.value, 0, o)
  {
    var c := es[j].clip.value;
    assert HasClip(es, c);
    var Q := Shifted(ts, held, P, es, -big, es[j].clip);
    ShiftedCapture(ts, held, P, es, -big, es[j].clip);
    ShiftedCapture(ts, held, P, es, r, None);
    assert !Clash(Q.starts, lens, c, r, o);
  }

  /** A request of zero stays zero. */
  lemma ResolveZero(ts: seq<Track>, held: seq<seq<ClipId>>, P: Positions, es: seq<TrackClip>,
                    big: int, canOffset: OffsetQuery, s: SlideState)
    requires OffsetOracle(canOffset) && TracksKnown(held, es) && s.amount == 0
    ensures Resolve(ts, held, P, es, big, canOffset, s).amount == 0
  {
  }

  /** The distance the other moving clips are pushed away while one clip is tested. */
  function SafeBigDistance(ts: seq<Track>, held: seq<seq<ClipId>>, lens: map<ClipId, nat>, P: Positions): int
    requires |held| == |ts| && |P.shift| == |ts| && ClipsKnown(held, P.starts, lens)
  {
    1000 * TicksPerSecond + 2 * (ListEndAt(ts, held, lens, P, 0) - ListStartAt(ts, held, lens, P, 0))
  }

  /**
   * One clip entry's test: the other moving clips are pushed away by `big`, the clip's track is
   * asked how far the clip may move, the answer is taken, and the other clips come back.
   */
  method TestEntry(state: ClipMoveState, p: Project, big: int, canOffset: OffsetQuery, k: nat)
    requires p.Valid() && CaptureValid(p.tracks, p.held, state.capturedClipArray) && OffsetOracle(canOffset)
    requires k < |state.capturedClipArray| && TracksKnown(p.held, state.capturedClipArray)
    modifies state`hSlideAmount, state`snapLeft, state`snapRight, p`starts, p`shift
    ensures p.Valid() && p.Pos() == old(p.Pos())
    ensures SlideOf(state) ==
      if state.capturedClipArray[k].clip.None? then old(SlideOf(state))
      else Step(old(SlideOf(state)),
                Query(p.tracks, p.held, p.Pos(), state.capturedClipArray, big, canOffset, k, old(state.hSlideAmount)))
  {
    var es := state.capturedClipArray;
    ghost var P0 := p.Pos();
    var e := es[k];
    if e.clip.Some? {
      assert EntryValid(p.tracks, p.held, e);
      DoOffset(state, p, None, -big, e.clip);
      ghost var P1 := Shifted(p.tracks, p.held, P0, es, -big, e.clip);
      assert p.Pos() == P1;
      var allowed := canOffset(p.held[e.track], p.starts, e.clip.value, state.hSlideAmount);
      assert allowed == Query(p.tracks, p.held, P0, es, big, canOffset, k, state.hSlideAmount);
      Accept(state, allowed);
      DoOffset(state, p, None, big, e.clip);
      assert p.Pos() == Shifted(p.tracks, p.held, P1, es, big, e.clip);
      ShiftedRoundTrip(p.tracks, p.held, P0, es, -big, e.clip);
    }
  }

  /** The answer for one clip: a different allowed amount replaces the slide and drops the snap. */
  method Accept(state: ClipMoveState, allowed: Option<int>)
    modifies state`hSlideAmount, state`snapLeft, state`snapRight
    ensures SlideOf(state) == Step(old(SlideOf(state)), allowed)
  {
    match allowed {
      case Some(a) =>
        if state.hSlideAmount != a {
          state.hSlideAmount := a;
          state.snapLeft, state.snapRight := -1, -1;
        }
      case None =>
        state.hSlideAmount := 0;
        state.snapLeft, state.snapRight := -1, -1;
    }
  }

  /** One pass of the do-while: each clip entry is tested in turn. */
  method SlidePass(state: ClipMoveState, p: Project, big: int, canOffset: OffsetQuery)
    requires p.Valid() && CaptureValid(p.tracks, p.held, state.capturedClipArray) && OffsetOracle(canOffset)
    requires |state.capturedClipArray| > 0
    modifies state`hSlideAmount, state`snapLeft, state`snapRight, p`starts, p`shift
    ensures p.Valid() && p.Pos() == old(p.Pos())
    ensures SlideOf(state) ==
      PassFrom(p.tracks, p.held, p.Pos(), state.capturedClipArray, big, canOffset, 0, old(SlideOf(state)))
  {
    var es := state.capturedClipArray;
    ghost var P0 := p.Pos();
    assert TracksKnown(p.held, es) by {
      forall i | 0 <= i < |es| ensures es[i].track < |p.held| {
        assert EntryValid(p.tracks, p.held, es[i]);
      }
    }
    for k := 0 to |es|
      invariant p.Valid() && p.Pos() == P0
      invariant PassFrom(p.tracks, p.held, P0, es, big, canOffset, k, SlideOf(state)) ==
                PassFrom(p.tracks, p.held, P0, es, big, canOffset, 0, old(SlideOf(state)))
    {
      TestEntry(state, p, big, canOffset, k);
    }
  }

  /** DoSlideHorizontal: resolve the amount, then move the capture set (or the clicked track) by it. */
  method DoSlideHorizontal(state: ClipMoveState, p: Project, capturedTrack: TrackId, canOffset: OffsetQuery)
    requires p.Valid() && CaptureValid(p.tracks, p.held, state.capturedClipArray) && OffsetOracle(canOffset)
    requires capturedTrack < |p.tracks| && OffsetFits(canOffset, p.lens)
    modifies state`hSlideAmount, state`snapLeft, state`snapRight, p`starts, p`shift
    ensures p.Valid()
    ensures |state.capturedClipArray| > 0 ==>
      (SlideOf(state) ==
       Resolve(p.tracks, p.held, old(p.Pos()), state.capturedClipArray, SafeBigDistance(p.tracks, p.held, p.lens, old(p.Pos())),
               canOffset, old(SlideOf(state))))
    ensures |state.capturedClipArray| == 0 ==> SlideOf(state) == old(SlideOf(state))
    ensures p.Pos() ==
      if |state.capturedClipArray| == 0 then
        Shifted(p.tracks, p.held, old(p.Pos()), ChannelEntries(p.tracks, capturedTrack), state.hSlideAmount, None)
      else if state.hSlideAmount != 0 then
        Shifted(p.tracks, p.held, old(p.Pos()), state.capturedClipArray, state.hSlideAmount, None)
      else old(p.Pos())
    ensures |state.capturedClipArray| > 0 && state.hSlideAmount != 0 && WholeNotWave(p.tracks, state.capturedClipArray) ==>
      ClearOfStill(p.held, p.starts, p.lens, state.capturedClipArray)
  {
    var es := state.capturedClipArray;
    if |es| > 0 {
      var big := SafeBigDistance(p.tracks, p.held, p.lens, p.Pos());
      ghost var P0 := p.Pos();
      ghost var s0 := SlideOf(state);
      assert TracksKnown(p.held, es) by {
        forall i | 0 <= i < |es| ensures es[i].track < |p.held| {
          assert EntryValid(p.tracks, p.held, es[i]);
        }
      }
      while true
        invariant p.Valid() && p.Pos() == P0
        invariant Resolve(p.tracks, p.held, P0, es, big, canOffset, SlideOf(state)) ==
                  Resolve(p.tracks, p.held, P0, es, big, canOffset, s0)
        decreases Abs(state.hSlideAmount)
      {
        var initialAllowed := state.hSlideAmount;
        ghost var before := SlideOf(state);
        SlidePass(state, p, big, canOffset);
        if state.hSlideAmount == initialAllowed {
          break;
        }
      }
      if WholeNotWave(p.tracks, es) {
        ResolveClear(p.tracks, p.held, p.lens, P0, es, big, canOffset, s0);
      }
      if state.hSlideAmount != 0 {
        DoOffset(state, p, None, state.hSlideAmount, None);
      }
    } else {
      DoOffset(state, p, Some(capturedTrack), state.hSlideAmount, None);
    }
  }
}
