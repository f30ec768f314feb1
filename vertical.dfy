/**
 * The vertical part of a drag: when the pointer is over another wave track, every captured clip
 * is given the track the same number of audio rows away, taken out of its track, checked for
 * room in its destination (first with one pixel of tolerance, then with none) and put into the
 * destination, or back into its own track when there is no room.
 */
module Vertical {
  import opened Wrappers
  import opened Tracks
  import opened Geometry
  import opened Timeline
  import opened Capture

  /** The answer of WaveTrack::CanInsertClip: whether the clip fits, and the slide and tolerance left. */
  datatype InsertResult = InsertResult(ok: bool, slide: int, tolerance: int)

  /**
   * WaveTrack::CanInsertClip, which is not part of this model: the clips of the track, where
   * clips start, the clip, the slide and the tolerance (the last two passed by reference).
   */
  type InsertQuery = (seq<ClipId>, map<ClipId, int>, ClipId, int, int) -> InsertResult

  /**
   * The contract assumed of CanInsertClip: the slide moves by no more than the tolerance, the
   * tolerance only shrinks, and with no tolerance a clip fits only if, slid, it overlaps no
   * clip of the track.
   */
  ghost predicate InsertOracle(canInsert: InsertQuery, lens: map<ClipId, nat>)
  {
    && (forall cs, m, c, s, tol :: tol >= 0 ==>
          && 0 <= canInsert(cs, m, c, s, tol).tolerance <= tol
          && -tol <= canInsert(cs, m, c, s, tol).slide - s <= tol)
    && (forall cs, m, c, s, o ::
          canInsert(cs, m, c, s, 0).ok && o in cs && c in m && c in lens && o in m && o in lens ==>
          !Clash(m, lens, c, s, o))
  }

  // ---------------------------------------------------------------- destinations

  predicate TracksIn(ts: seq<Track>, es: seq<TrackClip>)
  {
    forall i :: 0 <= i < |es| ==> es[i].track < |ts|
  }

  /** The capture set with every clip entry given its destination (None where there is none). */
  function Destined(ts: seq<Track>, es: seq<TrackClip>, diff: int): (r: seq<TrackClip>)
    requires TracksIn(ts, es)
    ensures |r| == |es|
  {
    seq(|es|, i requires 0 <= i < |es| =>
      if es[i].clip.Some? then es[i].(dstTrack := Destination(ts, es[i].track, diff)) else es[i])
  }

  /** Every captured clip has a destination. */
  predicate AllPlaced(ts: seq<Track>, es: seq<TrackClip>, diff: int)
    requires TracksIn(ts, es)
  {
    forall i :: 0 <= i < |es| && es[i].clip.Some? ==> Destination(ts, es[i].track, diff).Some?
  }

  /**
   * The destination loop of Drag: each clip entry gets its destination, and the loop gives up
   * at the first clip that has none, leaving the entries before it assigned.
   */
  method AssignDestinations(state: ClipMoveState, ts: seq<Track>, diff: int) returns (ok: bool)
    requires TracksIn(ts, state.capturedClipArray)
    modifies state`capturedClipArray
    ensures ok <==> AllPlaced(ts, old(state.capturedClipArray), diff)
    ensures ok ==> state.capturedClipArray == Destined(ts, old(state.capturedClipArray), diff)
    ensures |state.capturedClipArray| == |old(state.capturedClipArray)|
    ensures forall i :: 0 <= i < |state.capturedClipArray| ==>
      state.capturedClipArray[i] in {old(state.capturedClipArray)[i], Destined(ts, old(state.capturedClipArray), diff)[i]}
  {
    ghost var es0 := state.capturedClipArray;
    for k := 0 to |state.capturedClipArray|
      invariant |state.capturedClipArray| == |es0|
      invariant forall i :: 0 <= i < |es0| ==>
        state.capturedClipArray[i] == if i < k then Destined(ts, es0, diff)[i] else es0[i]
      invariant forall i :: 0 <= i < k && es0[i].clip.Some? ==> Destination(ts, es0[i].track, diff).Some?
    {
      var e := state.capturedClipArray[k];
      if e.clip.Some? {
        var dst := Destination(ts, e.track, diff);
        if dst.None? {
          return false;
        }
        state.capturedClipArray := state.capturedClipArray[k := e.(dstTrack := dst)];
      }
    }
    return true;
  }

  /**
   * Every clip goes to a wave track exactly `diff` audio rows from its own, with the same number
   * of channels and, in stereo, the same left or right role.
   */
  lemma PlacedRows(ts: seq<Track>, es: seq<TrackClip>, diff: int)
    requires WellFormed(ts) && TracksIn(ts, es) && AllPlaced(ts, es, diff)
    ensures forall i :: 0 <= i < |es| && es[i].clip.Some? ==>
      var d := Destined(ts, es, diff)[i].dstTrack.value;
      && d < |ts| && ts[d].kind == Wave
      && TrackPosition(ts, d) == TrackPosition(ts, es[i].track) + diff
      && (IsStereo(ts, es[i].track) <==> IsStereo(ts, d))
      && (IsStereo(ts, d) ==> ts[es[i].track].linked == ts[d].linked)
  {
    forall i | 0 <= i < |es| && es[i].clip.Some?
      ensures var d := Destined(ts, es, diff)[i].dstTrack.value;
        ts[d].kind == Wave && TrackPosition(ts, d) == TrackPosition(ts, es[i].track) + diff
    {
      DestinationRow(ts, es[i].track, diff);
    }
  }

  // ---------------------------------------------------------------- clip sets of a capture set

  function ClipsBefore(es: seq<TrackClip>, k: nat): set<ClipId>
  {
    set i | 0 <= i < k && i < |es| && es[i].clip.Some? :: es[i].clip.value
  }

  function ClipsOf(es: seq<TrackClip>): set<ClipId>
  {
    ClipsBefore(es, |es|)
  }

  /** The clips of entries before k whose destination is `t`. */
  function ArrivingBefore(es: seq<TrackClip>, k: nat, t: TrackId): set<ClipId>
  {
    set i | 0 <= i < k && i < |es| && es[i].clip.Some? && es[i].dstTrack == Some(t) :: es[i].clip.value
  }

  function ArrivingAt(es: seq<TrackClip>, t: TrackId): set<ClipId>
  {
    ArrivingBefore(es, |es|, t)
  }

  lemma ClipsBeforeStep(es: seq<TrackClip>, k: nat)
    requires k < |es|
    ensures ClipsBefore(es, k + 1) == ClipsBefore(es, k) + (if es[k].clip.Some? then {es[k].clip.value} else {})
  {
    if es[k].clip.Some? {
      assert es[k].clip.value in ClipsBefore(es, k + 1);
    }
  }

  lemma ArrivingBeforeStep(es: seq<TrackClip>, k: nat, t: TrackId)
    requires k < |es|
    ensures ArrivingBefore(es, k + 1, t) ==
      ArrivingBefore(es, k, t) + (if es[k].clip.Some? && es[k].dstTrack == Some(t) then {es[k].clip.value} else {})
  {
    if es[k].clip.Some? && es[k].dstTrack == Some(t) {
      assert es[k].clip.value in ArrivingBefore(es, k + 1, t);
    }
  }

  /** With distinct keys, the clip of entry k belongs to no other entry. */
  lemma ClipOnce(es: seq<TrackClip>, k: nat, j: nat)
    requires DistinctKeys(es) && k < |es| && j < |es| && j != k && es[k].clip.Some?
    ensures es[j].clip != es[k].clip
  {
    if j < k {
      assert Key(es[j]) != Key(es[k]);
    } else {
      assert Key(es[k]) != Key(es[j]);
    }
  }

  lemma NotBefore(es: seq<TrackClip>, k: nat)
    requires DistinctKeys(es) && k < |es| && es[k].clip.Some?
    ensures es[k].clip.value !in ClipsBefore(es, k)
  {
    forall i | 0 <= i < k && es[i].clip.Some? ensures es[i].clip.value != es[k].clip.value {
      ClipOnce(es, k, i);
    }
  }

  /** No clip is held by two tracks. */
  predicate Disjoint(held: seq<seq<ClipId>>)
  {
    forall t, u, c :: 0 <= t < |held| && 0 <= u < |held| && t != u && c in held[t] ==> c !in held[u]
  }

  /** Every captured clip is held by the track its entry names. */
  predicate ClipsIn(held: seq<seq<ClipId>>, es: seq<TrackClip>)
  {
    forall i :: 0 <= i < |es| && es[i].clip.Some? ==> es[i].track < |held| && es[i].clip.value in held[es[i].track]
  }

  /** One step of the constructor: taking out the clip of entry k removes it, and only it, from the sets. */
  lemma DetachStep(held0: seq<seq<ClipId>>, es: seq<TrackClip>, k: nat, h: seq<seq<ClipId>>)
    requires k < |es| && |h| == |held0| && DistinctKeys(es) && ClipsIn(held0, es) && Disjoint(held0)
    requires forall t :: 0 <= t < |held0| ==> Distinct(h[t]) && Elems(h[t]) == Elems(held0[t]) - ClipsBefore(es, k)
    ensures es[k].clip.Some? ==> es[k].clip.value in h[es[k].track]
    ensures var h' := if es[k].clip.Some? then h[es[k].track := Remove(h[es[k].track], es[k].clip.value)] else h;
      forall t :: 0 <= t < |held0| ==> Elems(h'[t]) == Elems(held0[t]) - ClipsBefore(es, k + 1)
  {
    ClipsBeforeStep(es, k);
    if es[k].clip.Some? {
      var c := es[k].clip.value;
      NotBefore(es, k);
      assert c in Elems(h[es[k].track]);
      RemoveElems(h[es[k].track], c);
      forall t | 0 <= t < |held0| && t != es[k].track ensures c !in Elems(held0[t]) {
      }
    }
  }

  /** One step of the destructor: putting in the clip of entry k adds it to its destination's set. */
  lemma AttachStep(held0: seq<seq<ClipId>>, es: seq<TrackClip>, k: nat, h: seq<seq<ClipId>>)
    requires k < |es| && |h| == |held0|
    requires es[k].clip.Some? ==> es[k].dstTrack.Some? && es[k].dstTrack.value < |h|
    requires forall t :: 0 <= t < |held0| ==> Elems(h[t]) == Elems(held0[t]) + ArrivingBefore(es, k, t)
    ensures var h' := if es[k].clip.Some? then h[es[k].dstTrack.value := h[es[k].dstTrack.value] + [es[k].clip.value]] else h;
      forall t :: 0 <= t < |held0| ==> Elems(h'[t]) == Elems(held0[t]) + ArrivingBefore(es, k + 1, t)
  {
    forall t | 0 <= t < |held0| {
      ArrivingBeforeStep(es, k, t);
    }
    if es[k].clip.Some? {
      var d := es[k].dstTrack.value;
      assert Elems(h[d] + [es[k].clip.value]) == Elems(h[d]) + {es[k].clip.value};
    }
  }

  // ---------------------------------------------------------------- the entries through the transaction

  function Hold(e: TrackClip): TrackClip
  {
    if e.clip.Some? then e.(holder := e.clip) else e
  }

  function Holders(es: seq<TrackClip>): (r: seq<TrackClip>)
    ensures |r| == |es|
  {
    seq(|es|, i requires 0 <= i < |es| => Hold(es[i]))
  }

  function OwnTrack(e: TrackClip): TrackClip
  {
    e.(dstTrack := Some(e.track))
  }

  function ToOwnTracks(es: seq<TrackClip>): (r: seq<TrackClip>)
    ensures |r| == |es|
  {
    seq(|es|, i requires 0 <= i < |es| => OwnTrack(es[i]))
  }

  function Attach(e: TrackClip): TrackClip
  {
    if e.clip.Some? && e.dstTrack.Some? then e.(track := e.dstTrack.value, holder := None) else e
  }

  function Attached(es: seq<TrackClip>): (r: seq<TrackClip>)
    ensures |r| == |es|
  {
    seq(|es|, i requires 0 <= i < |es| => Attach(es[i]))
  }

  /** The capture set part-way through a loop that rewrites each entry with `f`: the entries before k are done. */
  function Partly(f: TrackClip -> TrackClip, es: seq<TrackClip>, k: nat): (r: seq<TrackClip>)
    ensures |r| == |es|
  {
    seq(|es|, i requires 0 <= i < |es| => if i < k then f(es[i]) else es[i])
  }

  lemma PartlyStep(f: TrackClip -> TrackClip, es: seq<TrackClip>, k: nat)
    requires k < |es|
    ensures Partly(f, es, k)[k := f(es[k])] == Partly(f, es, k + 1)
  {
  }

  lemma PartlyNone(f: TrackClip -> TrackClip, es: seq<TrackClip>)
    ensures Partly(f, es, 0) == es
  {
  }

  /** The clip lists once the clips of the entries before k have been taken out, in order. */
  function DetachedUpTo(held: seq<seq<ClipId>>, es: seq<TrackClip>, k: nat): (r: seq<seq<ClipId>>)
    requires k <= |es|
    ensures |r| == |held|
    decreases k
  {
    if k == 0 then held
    else
      var h := DetachedUpTo(held, es, k - 1);
      var e := es[k - 1];
      if e.clip.Some? && e.track < |h| then h[e.track := Remove(h[e.track], e.clip.value)] else h
  }

  function Detached(held: seq<seq<ClipId>>, es: seq<TrackClip>): (r: seq<seq<ClipId>>)
    ensures |r| == |held|
  {
    DetachedUpTo(held, es, |es|)
  }

  /**
   * Taking the clips out and putting each back into the track it came from gives every track
   * the clips it had (the order within a track is not kept: a returning clip goes last).
   */
  lemma RollbackRestores(held: seq<seq<ClipId>>, es: seq<TrackClip>, fs: seq<TrackClip>)
    requires |fs| == |es|
    requires forall i :: 0 <= i < |es| ==> fs[i].clip == es[i].clip
    requires forall i :: 0 <= i < |es| && es[i].clip.Some? ==>
      fs[i].dstTrack == Some(es[i].track) && es[i].track < |held| && es[i].clip.value in held[es[i].track]
    requires forall t, u, c :: 0 <= t < |held| && 0 <= u < |held| && t != u && c in held[t] ==> c !in held[u]
    ensures forall t :: 0 <= t < |held| ==> (Elems(held[t]) - ClipsOf(es)) + ArrivingAt(fs, t) == Elems(held[t])
  {
    forall t | 0 <= t < |held| ensures (Elems(held[t]) - ClipsOf(es)) + ArrivingAt(fs, t) == Elems(held[t]) {
      forall c | c in ArrivingAt(fs, t) ensures c in Elems(held[t]) {
        var i :| 0 <= i < |fs| && fs[i].clip.Some? && fs[i].dstTrack == Some(t) && fs[i].clip.value == c;
      }
      forall c | c in Elems(held[t]) && c in ClipsOf(es) ensures c in ArrivingAt(fs, t) {
        var i :| 0 <= i < |es| && es[i].clip.Some? && es[i].clip.value == c;
        assert fs[i].clip.Some? && fs[i].dstTrack == Some(t) && fs[i].clip.value == c;
      }
    }
  }

  /** While the transaction is open, a captured clip is in no track and its entry holds it. */
  ghost predicate HeldEntry(p: Project, e: TrackClip)
    reads p`held
  {
    && e.track < |p.tracks| && e.origTrack < |p.tracks| && (e.dstTrack.Some? ==> e.dstTrack.value < |p.tracks|)
    && (e.clip.Some? ==>
          && e.holder == e.clip && e.clip.value in p.lens && p.tracks[e.track].kind == Wave
          && forall t :: 0 <= t < |p.held| ==> e.clip.value !in p.held[t])
  }

  /**
   * TemporaryClipRemover: the constructor takes the captured clips out of their tracks, Fail
   * sends every clip back where it came from, and Finish (the destructor) puts every clip
   * into its destination track, which becomes its track.
   */
  class TemporaryClipRemover {
    const state: ClipMoveState
    const project: Project

    ghost predicate Holding()
      reads this, state, project
    {
      && project.Valid() && DistinctKeys(state.capturedClipArray)
      && forall i :: 0 <= i < |state.capturedClipArray| ==> HeldEntry(project, state.capturedClipArray[i])
    }

    /** Every clip entry knows which wave track it goes to. */
    ghost predicate Ready()
      reads this, state, project
    {
      && Holding()
      && forall i :: 0 <= i < |state.capturedClipArray| && state.capturedClipArray[i].clip.Some? ==>
           && state.capturedClipArray[i].dstTrack.Some?
           && project.tracks[state.capturedClipArray[i].dstTrack.value].kind == Wave
    }

    constructor(clipMoveState: ClipMoveState, p: Project)
      requires p.Valid() && CaptureValid(p.tracks, p.held, clipMoveState.capturedClipArray)
      modifies clipMoveState`capturedClipArray, p`held
      ensures state == clipMoveState && project == p && Holding()
      ensures clipMoveState.capturedClipArray == Holders(old(clipMoveState.capturedClipArray))
      ensures p.held == Detached(old(p.held), old(clipMoveState.capturedClipArray))
      ensures forall t :: 0 <= t < |p.held| ==>
        Elems(p.held[t]) == Elems(old(p.held)[t]) - ClipsOf(old(clipMoveState.capturedClipArray))
    {
      state := clipMoveState;
      project := p;
      new;
      TakeOutClips(clipMoveState, p);
    }

    /** Fail: every entry's destination becomes the track it came from. */
    method Fail()
      requires Holding()
      modifies state`capturedClipArray
      ensures Ready()
      ensures state.capturedClipArray == ToOwnTracks(old(state.capturedClipArray))
    {
      ghost var es0 := state.capturedClipArray;
      for k := 0 to |state.capturedClipArray|
        invariant |state.capturedClipArray| == |es0|
        invariant forall i :: 0 <= i < |es0| ==> state.capturedClipArray[i] == if i < k then OwnTrack(es0[i]) else es0[i]
      {
        state.capturedClipArray := state.capturedClipArray[k := OwnTrack(state.capturedClipArray[k])];
      }
      forall i | 0 <= i < |es0| ensures HeldEntry(project, state.capturedClipArray[i]) {
        assert HeldEntry(project, es0[i]);
      }
      assert DistinctKeys(state.capturedClipArray) by {
        forall i, j | 0 <= i < j < |es0| ensures Key(state.capturedClipArray[i]) != Key(state.capturedClipArray[j]) {
          assert Key(state.capturedClipArray[i]) == Key(es0[i]) && Key(state.capturedClipArray[j]) == Key(es0[j]);
        }
      }
    }

    /** ~TemporaryClipRemover: each clip is added to its destination track, which becomes its track. */
    method Finish()
      requires Ready()
      modifies state`capturedClipArray, project`held
      ensures project.Valid()
      ensures state.capturedClipArray == Attached(old(state.capturedClipArray))
      ensures CaptureValid(project.tracks, project.held, state.capturedClipArray)
      ensures forall t :: 0 <= t < |project.held| ==>
        Elems(project.held[t]) == Elems(old(project.held)[t]) + ArrivingAt(old(state.capturedClipArray), t)
    {
      PutInClips(state, project);
    }
  }

  /** The destructor's loop: each held clip is added to its destination track, which becomes its track. */
  method PutInClips(state: ClipMoveState, p: Project)
    requires p.Valid() && DistinctKeys(state.capturedClipArray)
    requires forall i :: 0 <= i < |state.capturedClipArray| ==> HeldEntry(p, state.capturedClipArray[i])
    requires forall i :: 0 <= i < |state.capturedClipArray| && state.capturedClipArray[i].clip.Some? ==>
      && state.capturedClipArray[i].dstTrack.Some?
      && state.capturedClipArray[i].dstTrack.value < |p.tracks|
      && p.tracks[state.capturedClipArray[i].dstTrack.value].kind == Wave
    modifies state`capturedClipArray, p`held
    ensures p.Valid()
    ensures state.capturedClipArray == Attached(old(state.capturedClipArray))
    ensures CaptureValid(p.tracks, p.held, state.capturedClipArray)
    ensures forall t :: 0 <= t < |p.held| ==>
      Elems(p.held[t]) == Elems(old(p.held)[t]) + ArrivingAt(old(state.capturedClipArray), t)
  {
    ghost var es0 := state.capturedClipArray;
    ghost var H0 := p.held;
    assert ArrivalReady(p.tracks, p.lens, H0, es0);
    PartlyNone(Attach, es0);
    for k := 0 to |state.capturedClipArray|
      invariant p.Valid() && |p.held| == |H0|
      invariant state.capturedClipArray == Partly(Attach, es0, k)
      invariant ArrivedUpTo(p.held, H0, es0, k)
    {
      PutInStep(state, p, k, H0, es0);
    }
    AttachedValid(p, H0, es0, state.capturedClipArray);
  }

  /** What the destructor's loop relies on: every held clip is in no track and has a wave destination. */
  ghost predicate ArrivalReady(tracks: seq<Track>, lens: map<ClipId, nat>, held0: seq<seq<ClipId>>, es: seq<TrackClip>)
  {
    && DistinctKeys(es)
    && (forall i :: 0 <= i < |es| ==>
         && es[i].track < |tracks| && es[i].origTrack < |tracks|
         && (es[i].dstTrack.Some? ==> es[i].dstTrack.value < |tracks|))
    && forall i :: 0 <= i < |es| && es[i].clip.Some? ==>
         && es[i].holder == es[i].clip && es[i].clip.value in lens
         && es[i].dstTrack.Some? && es[i].dstTrack.value < |tracks| && tracks[es[i].dstTrack.value].kind == Wave
         && forall t :: 0 <= t < |held0| ==> es[i].clip.value !in held0[t]
  }

  /** Part-way through the destructor's loop: each track holds what it held plus the clips that arrived. */
  ghost predicate ArrivedUpTo(held: seq<seq<ClipId>>, held0: seq<seq<ClipId>>, es: seq<TrackClip>, k: nat)
  {
    && |held| == |held0| && k <= |es|
    && forall t :: 0 <= t < |held0| ==> Elems(held[t]) == Elems(held0[t]) + ArrivingBefore(es, k, t)
  }

  /** One turn of the destructor's loop, with the loop's invariant before and after. */
  method PutInStep(state: ClipMoveState, p: Project, k: nat, ghost H0: seq<seq<ClipId>>, ghost es0: seq<TrackClip>)
    requires p.Valid() && k < |es0| && ArrivalReady(p.tracks, p.lens, H0, es0)
    requires state.capturedClipArray == Partly(Attach, es0, k) && ArrivedUpTo(p.held, H0, es0, k)
    modifies state`capturedClipArray, p`held
    ensures p.Valid()
    ensures state.capturedClipArray == Partly(Attach, es0, k + 1) && ArrivedUpTo(p.held, H0, es0, k + 1)
  {
    if es0[k].clip.Some? {
      NotYetArrived(H0, es0, k, p.held);
    }
    assert state.capturedClipArray[k] == es0[k];
    ghost var h := p.held;
    PutInClip(state, p, k);
    AttachStep(H0, es0, k, h);
    PartlyStep(Attach, es0, k);
  }

  /** The constructor's loop: each captured clip is removed from its track and handed to its entry. */
  method TakeOutClips(state: ClipMoveState, p: Project)
    requires p.Valid() && CaptureValid(p.tracks, p.held, state.capturedClipArray)
    modifies state`capturedClipArray, p`held
    ensures p.Valid() && DistinctKeys(state.capturedClipArray)
    ensures forall i :: 0 <= i < |state.capturedClipArray| ==> HeldEntry(p, state.capturedClipArray[i])
    ensures state.capturedClipArray == Holders(old(state.capturedClipArray))
    ensures p.held == Detached(old(p.held), old(state.capturedClipArray))
    ensures forall t :: 0 <= t < |p.held| ==>
      Elems(p.held[t]) == Elems(old(p.held)[t]) - ClipsOf(old(state.capturedClipArray))
  {
    ghost var es0 := state.capturedClipArray;
    ghost var H0 := p.held;
    assert ClipsIn(H0, es0) && Disjoint(H0) && DistinctKeys(es0) by {
      forall i | 0 <= i < |es0| && es0[i].clip.Some? ensures es0[i].track < |H0| && es0[i].clip.value in H0[es0[i].track] {
        assert EntryValid(p.tracks, H0, es0[i]);
      }
    }
    DetachAll(state, p, H0, es0);
    HoldingAfterDetach(p, H0, es0);
  }

  /** The constructor's loop itself: every entry gets its clip, which leaves its track. */
  method DetachAll(state: ClipMoveState, p: Project, ghost H0: seq<seq<ClipId>>, ghost es0: seq<TrackClip>)
    requires p.Valid() && state.capturedClipArray == es0 && p.held == H0
    requires DistinctKeys(es0) && ClipsIn(H0, es0) && Disjoint(H0)
    modifies state`capturedClipArray, p`held
    ensures p.Valid() && state.capturedClipArray == Holders(es0)
    ensures p.held == Detached(H0, es0) && DetachedSoFar(p.held, H0, es0, |es0|)
  {
    PartlyNone(Hold, es0);
    for k := 0 to |state.capturedClipArray|
      invariant p.Valid()
      invariant state.capturedClipArray == Partly(Hold, es0, k)
      invariant p.held == DetachedUpTo(H0, es0, k) && DetachedSoFar(p.held, H0, es0, k)
    {
      TakeOutStep(state, p, k, H0, es0);
    }
    assert state.capturedClipArray == Holders(es0) by {
      forall i | 0 <= i < |es0| ensures state.capturedClipArray[i] == Holders(es0)[i] {
      }
    }
  }

  /** Part-way through the constructor's loop: the clips of the entries before k have left their tracks. */
  ghost predicate DetachedSoFar(held: seq<seq<ClipId>>, held0: seq<seq<ClipId>>, es: seq<TrackClip>, k: nat)
  {
    && |held| == |held0| && k <= |es|
    && forall t :: 0 <= t < |held0| ==> Elems(held[t]) == Elems(held0[t]) - ClipsBefore(es, k)
  }

  /** One turn of the constructor's loop, with the loop's invariant before and after. */
  method TakeOutStep(state: ClipMoveState, p: Project, k: nat, ghost H0: seq<seq<ClipId>>, ghost es0: seq<TrackClip>)
    requires p.Valid() && k < |es0| && DistinctKeys(es0) && ClipsIn(H0, es0) && Disjoint(H0)
    requires state.capturedClipArray == Partly(Hold, es0, k)
    requires p.held == DetachedUpTo(H0, es0, k) && DetachedSoFar(p.held, H0, es0, k)
    modifies state`capturedClipArray, p`held
    ensures p.Valid()
    ensures state.capturedClipArray == Partly(Hold, es0, k + 1)
    ensures p.held == DetachedUpTo(H0, es0, k + 1) && DetachedSoFar(p.held, H0, es0, k + 1)
  {
    assert state.capturedClipArray[k] == es0[k];
    DetachStep(H0, es0, k, p.held);
    TakeOutClip(state, p, k);
    PartlyStep(Hold, es0, k);
  }

  /** One turn of the constructor's loop. */
  method TakeOutClip(state: ClipMoveState, p: Project, k: nat)
    requires p.Valid() && k < |state.capturedClipArray|
    requires var e := state.capturedClipArray[k];
      e.clip.Some? ==> e.track < |p.held| && e.clip.value in p.held[e.track]
    modifies state`capturedClipArray, p`held
    ensures p.Valid()
    ensures state.capturedClipArray == old(state.capturedClipArray)[k := Hold(old(state.capturedClipArray)[k])]
    ensures var e := old(state.capturedClipArray)[k];
      p.held == if e.clip.Some? then old(p.held)[e.track := Remove(old(p.held)[e.track], e.clip.value)] else old(p.held)
  {
    var e := state.capturedClipArray[k];
    if e.clip.Some? {
      var holder := p.RemoveAndReturnClip(e.track, e.clip.value);
      state.capturedClipArray := state.capturedClipArray[k := e.(holder := holder)];
    }
  }

  /** During the destructor's loop, the clip of entry k has not arrived anywhere yet. */
  lemma NotYetArrived(held0: seq<seq<ClipId>>, es: seq<TrackClip>, k: nat, h: seq<seq<ClipId>>)
    requires DistinctKeys(es) && k < |es| && es[k].clip.Some? && |h| == |held0|
    requires forall t :: 0 <= t < |held0| ==> es[k].clip.value !in held0[t]
    requires forall t :: 0 <= t < |held0| ==> Elems(h[t]) == Elems(held0[t]) + ArrivingBefore(es, k, t)
    ensures forall u :: 0 <= u < |h| ==> es[k].clip.value !in h[u]
  {
    var c := es[k].clip.value;
    forall u | 0 <= u < |h| ensures c !in h[u] {
      forall i | 0 <= i < k && es[i].clip.Some? && es[i].dstTrack == Some(u) ensures es[i].clip.value != c {
        ClipOnce(es, k, i);
      }
      assert c !in ArrivingBefore(es, k, u);
      assert c !in Elems(h[u]);
    }
  }

  /** One turn of the destructor's loop: the held clip is added to its destination track. */
  method PutInClip(state: ClipMoveState, p: Project, k: nat)
    requires p.Valid() && k < |state.capturedClipArray|
    requires var e := state.capturedClipArray[k];
      e.clip.Some? ==>
        && e.holder == e.clip && e.dstTrack.Some? && e.dstTrack.value < |p.held|
        && p.tracks[e.dstTrack.value].kind == Wave && e.clip.value in p.lens
        && forall u :: 0 <= u < |p.held| ==> e.clip.value !in p.held[u]
    modifies state`capturedClipArray, p`held
    ensures p.Valid()
    ensures state.capturedClipArray == old(state.capturedClipArray)[k := Attach(old(state.capturedClipArray)[k])]
    ensures var e := old(state.capturedClipArray)[k];
      p.held == if e.clip.Some? then old(p.held)[e.dstTrack.value := old(p.held)[e.dstTrack.value] + [e.clip.value]]
                else old(p.held)
  {
    var e := state.capturedClipArray[k];
    if e.clip.Some? {
      var dst := e.dstTrack.value;
      p.AddClip(dst, e.holder.value);
      state.capturedClipArray := state.capturedClipArray[k := e.(track := dst, holder := None)];
    }
  }

  /** After the constructor's loop: every clip is out of every track and held by its entry. */
  lemma HoldingAfterDetach(p: Project, held0: seq<seq<ClipId>>, es: seq<TrackClip>)
    requires p.Valid() && |p.held| == |held0| && ClipsIn(held0, es) && DistinctKeys(es)
    requires CaptureValid(p.tracks, held0, es)
    requires forall t :: 0 <= t < |held0| && p.tracks[t].kind != Wave ==> held0[t] == []
    requires forall t, c :: 0 <= t < |held0| && c in held0[t] ==> c in p.lens
    requires forall t :: 0 <= t < |held0| ==> Elems(p.held[t]) == Elems(held0[t]) - ClipsBefore(es, |es|)
    ensures DistinctKeys(Holders(es))
    ensures forall i :: 0 <= i < |es| ==> HeldEntry(p, Holders(es)[i])
  {
    forall i | 0 <= i < |es| ensures HeldEntry(p, Holders(es)[i]) {
      assert EntryValid(p.tracks, held0, es[i]);
      if es[i].clip.Some? {
        assert es[i].clip.value in ClipsBefore(es, |es|);
      }
    }
    forall i, j | 0 <= i < j < |es| ensures Key(Holders(es)[i]) != Key(Holders(es)[j]) {
      assert Key(Holders(es)[i]) == Key(es[i]) && Key(Holders(es)[j]) == Key(es[j]);
    }
  }

  /** After the destructor's loop: every clip is in the track its entry now names. */
  lemma AttachedValid(p: Project, held0: seq<seq<ClipId>>, es: seq<TrackClip>, fs: seq<TrackClip>)
    requires p.Valid() && |p.held| == |held0| && DistinctKeys(es)
    requires forall i :: 0 <= i < |es| ==>
      && es[i].track < |p.tracks| && es[i].origTrack < |p.tracks|
      && (es[i].dstTrack.Some? ==> es[i].dstTrack.value < |p.tracks|)
      && (es[i].clip.Some? ==> es[i].dstTrack.Some?)
    requires |fs| == |es| && forall i :: 0 <= i < |es| ==> fs[i] == Attach(es[i])
    requires forall t :: 0 <= t < |held0| ==> Elems(p.held[t]) == Elems(held0[t]) + ArrivingBefore(es, |es|, t)
    ensures fs == Attached(es)
    ensures CaptureValid(p.tracks, p.held, fs)
  {
    forall i | 0 <= i < |es| ensures EntryValid(p.tracks, p.held, fs[i]) {
      if es[i].clip.Some? {
        assert es[i].clip.value in ArrivingBefore(es, |es|, es[i].dstTrack.value);
      }
    }
    forall i, j | 0 <= i < j < |es| ensures Key(fs[i]) != Key(fs[j]) {
      assert Key(fs[i]) == Key(es[i]) && Key(fs[j]) == Key(es[j]);
    }
  }

  lemma SameClips(a: seq<TrackClip>, b: seq<TrackClip>)
    requires |a| == |b| && forall i :: 0 <= i < |a| ==> a[i].clip == b[i].clip
    ensures ClipsOf(a) == ClipsOf(b)
  {
    forall c | c in ClipsOf(a) ensures c in ClipsOf(b) {
      var i :| 0 <= i < |a| && a[i].clip.Some? && a[i].clip.value == c;
      assert b[i].clip.Some? && b[i].clip.value == c;
    }
    forall c | c in ClipsOf(b) ensures c in ClipsOf(a) {
      var i :| 0 <= i < |b| && b[i].clip.Some? && b[i].clip.value == c;
      assert a[i].clip.Some? && a[i].clip.value == c;
    }
  }

  lemma SameArrivals(a: seq<TrackClip>, b: seq<TrackClip>)
    requires |a| == |b| && forall i :: 0 <= i < |a| ==> a[i].clip == b[i].clip && a[i].dstTrack == b[i].dstTrack
    ensures forall t :: ArrivingAt(a, t) == ArrivingAt(b, t)
  {
    forall t: TrackId ensures ArrivingAt(a, t) == ArrivingAt(b, t) {
      forall c | c in ArrivingAt(a, t) ensures c in ArrivingAt(b, t) {
        var i :| 0 <= i < |a| && a[i].clip.Some? && a[i].dstTrack == Some(t) && a[i].clip.value == c;
        assert b[i].clip.Some? && b[i].dstTrack == Some(t) && b[i].clip.value == c;
      }
      forall c | c in ArrivingAt(b, t) ensures c in ArrivingAt(a, t) {
        var i :| 0 <= i < |b| && b[i].clip.Some? && b[i].dstTrack == Some(t) && b[i].clip.value == c;
        assert a[i].clip.Some? && a[i].dstTrack == Some(t) && a[i].clip.value == c;
      }
    }
  }

  // ---------------------------------------------------------------- room in the destination tracks

  /** Every clip entry has a destination among the tracks. */
  predicate Routed(held: seq<seq<ClipId>>, es: seq<TrackClip>)
  {
    forall i :: 0 <= i < |es| && es[i].clip.Some? ==> es[i].dstTrack.Some? && es[i].dstTrack.value < |held|
  }

  /**
   * One checking loop of Drag from entry k on: each clip is offered to its destination track,
   * slide and tolerance carried from one answer to the next; the loop stops at the first refusal.
   */
  function InsertPass(held: seq<seq<ClipId>>, starts: map<ClipId, int>, es: seq<TrackClip>, canInsert: InsertQuery,
                      k: nat, q: InsertResult): InsertResult
    requires k <= |es| && Routed(held, es)
    decreases |es| - k
  {
    if k == |es| then q
    else if es[k].clip.None? then InsertPass(held, starts, es, canInsert, k + 1, q)
    else
      var a := canInsert(held[es[k].dstTrack.value], starts, es[k].clip.value, q.slide, q.tolerance);
      if !a.ok then a else InsertPass(held, starts, es, canInsert, k + 1, a)
  }

  /** Clip entry j fits its destination at slide `s` with no tolerance. */
  predicate FitsAt(held: seq<seq<ClipId>>, starts: map<ClipId, int>, es: seq<TrackClip>, canInsert: InsertQuery, j: nat, s: int)
    requires j < |es| && es[j].clip.Some? && Routed(held, es)
  {
    canInsert(held[es[j].dstTrack.value], starts, es[j].clip.value, s, 0).ok
  }

  /** A pass with no tolerance keeps the slide, and succeeds exactly when every clip fits at it. */
  lemma {:induction false} ZeroTolerancePass(held: seq<seq<ClipId>>, starts: map<ClipId, int>, lens: map<ClipId, nat>,
                                             es: seq<TrackClip>, canInsert: InsertQuery, k: nat, s: int)
    requires InsertOracle(canInsert, lens) && k <= |es| && Routed(held, es)
    ensures var r := InsertPass(held, starts, es, canInsert, k, InsertResult(true, s, 0));
      && r.slide == s && r.tolerance == 0
      && (r.ok <==> forall j :: k <= j < |es| && es[j].clip.Some? ==> FitsAt(held, starts, es, canInsert, j, s))
    decreases |es| - k
  {
    if k < |es| {
      ZeroTolerancePass(held, starts, lens, es, canInsert, k + 1, s);
      if es[k].clip.Some? {
        var a := canInsert(held[es[k].dstTrack.value], starts, es[k].clip.value, s, 0);
        assert a.slide == s && a.tolerance == 0;
        if a.ok {
          assert a == InsertResult(true, s, 0);
        }
      }
    }
  }

  lemma {:induction false} MulMono(m: int, a: int, b: int)
    requires m >= 0 && a <= b
    ensures m * a <= m * b
    decreases m
  {
    if m > 0 {
      MulMono(m - 1, a, b);
    }
  }

  /** The tolerance pass moves the slide by at most the tolerance for each entry, and never raises the tolerance. */
  lemma {:induction false} TolerancePassBound(held: seq<seq<ClipId>>, starts: map<ClipId, int>, lens: map<ClipId, nat>,
                                              es: seq<TrackClip>, canInsert: InsertQuery, k: nat, q: InsertResult)
    requires InsertOracle(canInsert, lens) && k <= |es| && Routed(held, es) && q.tolerance >= 0
    ensures var r := InsertPass(held, starts, es, canInsert, k, q);
      && 0 <= r.tolerance <= q.tolerance
      && -((|es| - k) * q.tolerance) <= r.slide - q.slide <= (|es| - k) * q.tolerance
    decreases |es| - k
  {
    var n := |es| - k;
    if k < |es| {
      var whole, rest := n * q.tolerance, (n - 1) * q.tolerance;
      assert whole == rest + q.tolerance;
      MulMono(q.tolerance, 0, n - 1);
      assert 0 <= rest;
      if es[k].clip.None? {
        TolerancePassBound(held, starts, lens, es, canInsert, k + 1, q);
      } else {
        var a := canInsert(held[es[k].dstTrack.value], starts, es[k].clip.value, q.slide, q.tolerance);
        if a.ok {
          TolerancePassBound(held, starts, lens, es, canInsert, k + 1, a);
          MulMono(n - 1, a.tolerance, q.tolerance);
          assert (n - 1) * a.tolerance <= rest;
        }
      }
    }
  }

  /**
   * A pass with no tolerance that succeeds at slide `s` means no captured clip, slid by `s`,
   * overlaps a clip left in its destination track.
   */
  lemma FitMeansNoOverlap(held: seq<seq<ClipId>>, starts: map<ClipId, int>, lens: map<ClipId, nat>,
                          es: seq<TrackClip>, canInsert: InsertQuery, s: int)
    requires InsertOracle(canInsert, lens) && Routed(held, es)
    requires InsertPass(held, starts, es, canInsert, 0, InsertResult(true, s, 0)).ok
    ensures forall j, o :: 0 <= j < |es| && es[j].clip.Some? && o in held[es[j].dstTrack.value]
                           && es[j].clip.value in starts && es[j].clip.value in lens && o in starts && o in lens ==>
      !Clash(starts, lens, es[j].clip.value, s, o)
  {
    ZeroTolerancePass(held, starts, lens, es, canInsert, 0, s);
  }

  /** The checking loop of Drag over the current capture set. */
  method CheckInsertion(state: ClipMoveState, p: Project, canInsert: InsertQuery, slide: int, tolerance: int)
    returns (r: InsertResult)
    requires Routed(p.held, state.capturedClipArray)
    ensures r == InsertPass(p.held, p.starts, state.capturedClipArray, canInsert, 0, InsertResult(true, slide, tolerance))
  {
    r := InsertResult(true, slide, tolerance);
    var es := state.capturedClipArray;
    var k := 0;
    while k < |es|
      invariant 0 <= k <= |es| && r.ok
      invariant InsertPass(p.held, p.starts, es, canInsert, k, r) ==
                InsertPass(p.held, p.starts, es, canInsert, 0, InsertResult(true, slide, tolerance))
    {
      var e := es[k];
      if e.clip.Some? {
        r := canInsert(p.held[e.dstTrack.value], p.starts, e.clip.value, r.slide, r.tolerance);
        if !r.ok {
          break;
        }
      }
      k := k + 1;
    }
  }

  /** Every captured clip fits in the track it is on, moved by `slide`, with no tolerance. */
  predicate FitsInOwnTracks(held: seq<seq<ClipId>>, starts: map<ClipId, int>, es: seq<TrackClip>,
                            canInsert: InsertQuery, slide: int)
  {
    forall i :: 0 <= i < |es| && es[i].clip.Some? && es[i].track < |held| ==>
      canInsert(held[es[i].track], starts, es[i].clip.value, slide, 0).ok
  }

  /** FitsInOwnTracks looks only at each entry's clip and track. */
  lemma FitsSame(held: seq<seq<ClipId>>, starts: map<ClipId, int>, a: seq<TrackClip>, b: seq<TrackClip>,
                 canInsert: InsertQuery, slide: int)
    requires |a| == |b| && forall i :: 0 <= i < |a| ==> a[i].clip == b[i].clip && a[i].track == b[i].track
    ensures FitsInOwnTracks(held, starts, a, canInsert, slide) == FitsInOwnTracks(held, starts, b, canInsert, slide)
  {
    if FitsInOwnTracks(held, starts, a, canInsert, slide) {
      forall i | 0 <= i < |b| && b[i].clip.Some? && b[i].track < |held|
        ensures canInsert(held[b[i].track], starts, b[i].clip.value, slide, 0).ok {
        assert a[i].clip.Some? && a[i].track < |held|;
      }
    }
    if FitsInOwnTracks(held, starts, b, canInsert, slide) {
      forall i | 0 <= i < |a| && a[i].clip.Some? && a[i].track < |held|
        ensures canInsert(held[a[i].track], starts, a[i].clip.value, slide, 0).ok {
        assert b[i].clip.Some? && b[i].track < |held|;
      }
    }
  }

  /**
   * The loop of Drag after a failed move: each clip is pointed back at its own track (which
   * Fail already did) and the slide is accepted only if every clip fits there, with no tolerance.
   */
  method CheckOwnTracks(state: ClipMoveState, p: Project, canInsert: InsertQuery, slide: int) returns (ok: bool)
    requires forall i :: 0 <= i < |state.capturedClipArray| && state.capturedClipArray[i].clip.Some? ==>
      && state.capturedClipArray[i].track < |p.held|
      && state.capturedClipArray[i].dstTrack == Some(state.capturedClipArray[i].track)
    modifies state`capturedClipArray
    ensures state.capturedClipArray == old(state.capturedClipArray)
    ensures ok == FitsInOwnTracks(p.held, p.starts, state.capturedClipArray, canInsert, slide)
  {
    ghost var es0 := state.capturedClipArray;
    ok := true;
    for k := 0 to |state.capturedClipArray|
      invariant state.capturedClipArray == es0
      invariant ok <==> forall i :: 0 <= i < k && es0[i].clip.Some? ==>
        canInsert(p.held[es0[i].track], p.starts, es0[i].clip.value, slide, 0).ok
    {
      var e := state.capturedClipArray[k];
      if e.clip.Some? {
        state.capturedClipArray := state.capturedClipArray[k := OwnTrack(e)];
        ok := ok && canInsert(p.held[e.track], p.starts, e.clip.value, slide, 0).ok;
      }
    }
  }

  /** Clip starts with every clip of `cs` moved by `d`. */
  function ShiftClips(starts: map<ClipId, int>, cs: set<ClipId>, d: int): (r: map<ClipId, int>)
    ensures r.Keys == starts.Keys
  {
    map c | c in starts :: if c in cs then starts[c] + d else starts[c]
  }

  /** The loop of Drag that puts each held clip back shifted: every captured clip moves by `slide`, once. */
  method OffsetHeldClips(state: ClipMoveState, p: Project, slide: int)
    requires p.Valid() && DistinctKeys(state.capturedClipArray)
    requires forall i :: 0 <= i < |state.capturedClipArray| && state.capturedClipArray[i].clip.Some? ==>
      state.capturedClipArray[i].clip.value in p.starts
    modifies p`starts
    ensures p.Valid() && p.starts == ShiftClips(old(p.starts), ClipsOf(state.capturedClipArray), slide)
  {
    var es := state.capturedClipArray;
    ghost var S0 := p.starts;
    for k := 0 to |es|
      invariant p.Valid() && p.starts == ShiftClips(S0, ClipsBefore(es, k), slide)
    {
      ClipsBeforeStep(es, k);
      if es[k].clip.Some? {
        NotBefore(es, k);
        var c := es[k].clip.value;
        p.OffsetClip(c, slide);
        assert p.starts == ShiftClips(S0, ClipsBefore(es, k + 1), slide);
      }
    }
  }

  // ---------------------------------------------------------------- the vertical move as a whole

  /** How the vertical part of a drag ends. */
  datatype VerticalOutcome =
    | NoDestination          // some clip has no matching track: no clip is taken out
    | StayedPut(slid: bool)  // no room: the clips stay on their tracks, shifted by the requested slide if it fits there
    | MovedTo(slide: int)    // the clips are in their destination tracks; `slide` is the horizontal part left to do

  /** The number of audio rows from the captured track to the track under the pointer. */
  function RowDistance(ts: seq<Track>, from: TrackId, to: TrackId): int
    requires from < |ts| && to < |ts|
  {
    TrackPosition(ts, to) - TrackPosition(ts, from)
  }

  /**
   * The decision of the vertical move for capture set `es` and clip lists `held`: no destination,
   * or the two checking passes in the destinations (one with `tolerance`, then one with none at
   * the slide the first settled on), or else the check of the requested slide in the clips' own tracks.
   */
  function Verdict(ts: seq<Track>, held: seq<seq<ClipId>>, starts: map<ClipId, int>, es: seq<TrackClip>, diff: int,
                   desired: int, tolerance: int, canInsert: InsertQuery): VerticalOutcome
    requires TracksIn(ts, es) && |held| == |ts|
  {
    if !AllPlaced(ts, es, diff) then NoDestination
    else
      var esA := Destined(ts, es, diff);
      var h := Detached(held, esA);
      assert Routed(h, esA);
      var r1 := InsertPass(h, starts, esA, canInsert, 0, InsertResult(true, desired, tolerance));
      var r2 := if r1.ok then InsertPass(h, starts, esA, canInsert, 0, InsertResult(true, r1.slide, 0)) else r1;
      if r2.ok then MovedTo(r2.slide)
      else StayedPut(FitsInOwnTracks(h, starts, es, canInsert, desired))
  }

  /**
   * A move that goes through lands within one tolerance per entry of the requested slide, and at
   * the slide it settles on no moved clip overlaps a clip left in its destination track.
   */
  lemma MovedClipsFit(ts: seq<Track>, held: seq<seq<ClipId>>, starts: map<ClipId, int>, lens: map<ClipId, nat>,
                      es: seq<TrackClip>, diff: int, desired: int, tolerance: int, canInsert: InsertQuery)
    requires TracksIn(ts, es) && |held| == |ts| && InsertOracle(canInsert, lens) && tolerance >= 0
    requires Verdict(ts, held, starts, es, diff, desired, tolerance, canInsert).MovedTo?
    ensures var s := Verdict(ts, held, starts, es, diff, desired, tolerance, canInsert).slide;
      && -(|es| * tolerance) <= s - desired <= |es| * tolerance
      && forall j, o :: 0 <= j < |es| && es[j].clip.Some?
                        && o in Detached(held, Destined(ts, es, diff))[Destined(ts, es, diff)[j].dstTrack.value]
                        && es[j].clip.value in starts && es[j].clip.value in lens && o in starts && o in lens ==>
           !Clash(starts, lens, es[j].clip.value, s, o)
  {
    var esA := Destined(ts, es, diff);
    var h := Detached(held, esA);
    assert Routed(h, esA);
    var r1 := InsertPass(h, starts, esA, canInsert, 0, InsertResult(true, desired, tolerance));
    TolerancePassBound(h, starts, lens, esA, canInsert, 0, InsertResult(true, desired, tolerance));
    ZeroTolerancePass(h, starts, lens, esA, canInsert, 0, r1.slide);
    FitMeansNoOverlap(h, starts, lens, esA, canInsert, r1.slide);
  }

  /** With no vertical distance every clip is its own destination, so a move is never refused for want of one. */
  lemma SameRowPlaced(ts: seq<Track>, es: seq<TrackClip>)
    requires WellFormed(ts) && TracksIn(ts, es)
    requires forall i :: 0 <= i < |es| && es[i].clip.Some? ==> ts[es[i].track].kind == Wave
    ensures AllPlaced(ts, es, 0)
    ensures forall i :: 0 <= i < |es| && es[i].clip.Some? ==> Destined(ts, es, 0)[i].dstTrack == Some(es[i].track)
  {
    forall i | 0 <= i < |es| && es[i].clip.Some? ensures Destination(ts, es[i].track, 0) == Some(es[i].track) {
      DestinationStays(ts, es[i].track);
    }
  }

  /** InsertPass looks only at each entry's clip and destination. */
  lemma {:induction false} InsertPassSame(held: seq<seq<ClipId>>, starts: map<ClipId, int>, a: seq<TrackClip>, b: seq<TrackClip>,
                                          canInsert: InsertQuery, k: nat, q: InsertResult)
    requires |a| == |b| && k <= |a| && Routed(held, a)
    requires forall i :: 0 <= i < |a| ==> a[i].clip == b[i].clip && a[i].dstTrack == b[i].dstTrack
    ensures Routed(held, b)
    ensures InsertPass(held, starts, a, canInsert, k, q) == InsertPass(held, starts, b, canInsert, k, q)
    decreases |a| - k
  {
    if k < |a| {
      if a[k].clip.None? {
        InsertPassSame(held, starts, a, b, canInsert, k + 1, q);
      } else {
        var r := canInsert(held[a[k].dstTrack.value], starts, a[k].clip.value, q.slide, q.tolerance);
        InsertPassSame(held, starts, a, b, canInsert, k + 1, r);
      }
    }
  }

  /** Giving entries destinations keeps the capture set valid. */
  lemma DestinedValid(ts: seq<Track>, held: seq<seq<ClipId>>, es: seq<TrackClip>, diff: int)
    requires CaptureValid(ts, held, es)
    ensures TracksIn(ts, es) && CaptureValid(ts, held, Destined(ts, es, diff))
  {
    var r := Destined(ts, es, diff);
    forall i | 0 <= i < |es| ensures EntryValid(ts, held, r[i]) && Key(r[i]) == Key(es[i]) {
      assert EntryValid(ts, held, es[i]);
    }
    forall i, j | 0 <= i < j < |es| ensures Key(r[i]) != Key(r[j]) {
      assert Key(r[i]) == Key(es[i]) && Key(r[j]) == Key(es[j]);
    }
  }

  /** An entry keeps its clip and origin through the move; a whole-track entry also keeps its track. */
  predicate SameEntry(before: TrackClip, after: TrackClip)
  {
    after.clip == before.clip && after.origTrack == before.origTrack && (before.clip.None? ==> after.track == before.track)
  }

  /**
   * The second chance of a failed move, with every clip pointed back at its own track: the
   * requested slide is applied to every captured clip only when each fits in its own track with
   * it, and then becomes the new starting point of the drag.
   */
  method RetryInOwnTracks(state: ClipMoveState, p: Project, canInsert: InsertQuery, slide: int, x: int) returns (ok: bool)
    requires p.Valid() && DistinctKeys(state.capturedClipArray)
    requires forall i :: 0 <= i < |state.capturedClipArray| && state.capturedClipArray[i].clip.Some? ==>
      && state.capturedClipArray[i].track < |p.held|
      && state.capturedClipArray[i].dstTrack == Some(state.capturedClipArray[i].track)
      && state.capturedClipArray[i].clip.value in p.starts
    modifies state`capturedClipArray, state`mouseClickX, state`hSlideAmount, p`starts, p`sel0, p`sel1
    ensures p.Valid() && state.capturedClipArray == old(state.capturedClipArray)
    ensures ok == FitsInOwnTracks(p.held, old(p.starts), state.capturedClipArray, canInsert, slide)
    ensures p.starts == if ok then ShiftClips(old(p.starts), ClipsOf(state.capturedClipArray), slide) else old(p.starts)
    ensures state.mouseClickX == (if ok then x else old(state.mouseClickX))
    ensures state.hSlideAmount == (if ok then 0 else old(state.hSlideAmount))
    ensures var d := if ok && state.capturedClipIsSelection then slide else 0;
      p.sel0 == old(p.sel0) + d && p.sel1 == old(p.sel1) + d
  {
    ok := CheckOwnTracks(state, p, canInsert, slide);
    if ok {
      OffsetHeldClips(state, p, slide);
      state.mouseClickX := x;
      if state.capturedClipIsSelection {
        p.MoveSelection(slide);
      }
      state.hSlideAmount := 0;
    }
  }

  /** Fail, then the second chance in the clips' own tracks, while the clips are still out. */
  method FailAndRetry(remover: TemporaryClipRemover, state: ClipMoveState, p: Project, canInsert: InsertQuery,
                      slide: int, x: int) returns (ok: bool)
    requires remover.state == state && remover.project == p && remover.Holding()
    modifies state`capturedClipArray, state`mouseClickX, state`hSlideAmount, p`starts, p`sel0, p`sel1
    ensures remover.Ready()
    ensures state.capturedClipArray == ToOwnTracks(old(state.capturedClipArray))
    ensures ok == FitsInOwnTracks(p.held, old(p.starts), old(state.capturedClipArray), canInsert, slide)
    ensures p.starts == if ok then ShiftClips(old(p.starts), ClipsOf(old(state.capturedClipArray)), slide) else old(p.starts)
    ensures state.mouseClickX == (if ok then x else old(state.mouseClickX))
    ensures state.hSlideAmount == (if ok then 0 else old(state.hSlideAmount))
    ensures var d := if ok && state.capturedClipIsSelection then slide else 0;
      p.sel0 == old(p.sel0) + d && p.sel1 == old(p.sel1) + d
  {
    ghost var esH := state.capturedClipArray;
    remover.Fail();
    ghost var esF := state.capturedClipArray;
    assert forall i :: 0 <= i < |esF| ==> HeldEntry(p, esF[i]);
    SameClips(esF, esH);
    ok := RetryInOwnTracks(state, p, canInsert, slide, x);
    FitsSame(p.held, old(p.starts), esF, esH, canInsert, slide);
    assert forall i :: 0 <= i < |esF| ==> HeldEntry(p, esF[i]);
  }

  /**
   * The failure path of the vertical move: every clip goes back to its own track, shifted by
   * the requested slide when every clip fits there with it.
   */
  method PutBack(remover: TemporaryClipRemover, state: ClipMoveState, p: Project, canInsert: InsertQuery,
                 slide: int, x: int, ghost held0: seq<seq<ClipId>>, ghost es0: seq<TrackClip>) returns (ok: bool)
    requires remover.state == state && remover.project == p && remover.Holding()
    requires |es0| == |state.capturedClipArray| && |held0| == |p.held|
    requires forall i :: 0 <= i < |es0| ==>
      (state.capturedClipArray[i].clip == es0[i].clip && state.capturedClipArray[i].track == es0[i].track)
    requires ClipsIn(held0, es0) && Disjoint(held0)
    requires forall t :: 0 <= t < |p.held| ==> Elems(p.held[t]) == Elems(held0[t]) - ClipsOf(es0)
    modifies state`capturedClipArray, state`mouseClickX, state`hSlideAmount, p`held, p`starts, p`sel0, p`sel1
    ensures p.Valid() && CaptureValid(p.tracks, p.held, state.capturedClipArray)
    ensures |state.capturedClipArray| == |es0|
    ensures forall i :: 0 <= i < |es0| ==>
      (SameEntry(old(state.capturedClipArray)[i], state.capturedClipArray[i]) && state.capturedClipArray[i].track == es0[i].track)
    ensures Membership(p.held) == Membership(held0)
    ensures ok == FitsInOwnTracks(old(p.held), old(p.starts), es0, canInsert, slide)
    ensures p.starts == if ok then ShiftClips(old(p.starts), ClipsOf(es0), slide) else old(p.starts)
    ensures state.mouseClickX == (if ok then x else old(state.mouseClickX))
    ensures state.hSlideAmount == (if ok then 0 else old(state.hSlideAmount))
    ensures var d := if ok && state.capturedClipIsSelection then slide else 0;
      p.sel0 == old(p.sel0) + d && p.sel1 == old(p.sel1) + d
  {
    ghost var esH := state.capturedClipArray;
    SameClips(esH, es0);
    ok := FailAndRetry(remover, state, p, canInsert, slide, x);
    FitsSame(old(p.held), old(p.starts), esH, es0, canInsert, slide);
    ReturnHome(remover, state, p, held0, es0);
  }

  /** The destructor on the failure path: every clip returns to the track it was taken from. */
  method ReturnHome(remover: TemporaryClipRemover, state: ClipMoveState, p: Project,
                    ghost held0: seq<seq<ClipId>>, ghost es0: seq<TrackClip>)
    requires remover.state == state && remover.project == p && remover.Ready()
    requires |es0| == |state.capturedClipArray| && |held0| == |p.held|
    requires forall i :: 0 <= i < |es0| ==>
      (state.capturedClipArray[i].clip == es0[i].clip && state.capturedClipArray[i].dstTrack == Some(es0[i].track))
    requires ClipsIn(held0, es0) && Disjoint(held0)
    requires forall t :: 0 <= t < |p.held| ==> Elems(p.held[t]) == Elems(held0[t]) - ClipsOf(es0)
    modifies state`capturedClipArray, p`held
    ensures p.Valid() && CaptureValid(p.tracks, p.held, state.capturedClipArray)
    ensures state.capturedClipArray == Attached(old(state.capturedClipArray))
    ensures Membership(p.held) == Membership(held0)
  {
    ghost var esF := state.capturedClipArray;
    ghost var H1 := p.held;
    remover.Finish();
    RollbackRestores(held0, es0, esF);
    assert Membership(p.held) == Membership(held0) by {
      forall t | 0 <= t < |held0| ensures Membership(p.held)[t] == Membership(held0)[t] {
        assert Elems(p.held[t]) == Elems(H1[t]) + ArrivingAt(esF, t);
      }
    }
  }

  /** The two checking passes of Drag in the destination tracks: first with a tolerance, then with none. */
  method TryDestinations(state: ClipMoveState, p: Project, canInsert: InsertQuery, desired: int, tolerance: int,
                         ghost esA: seq<TrackClip>) returns (r: InsertResult)
    requires Routed(p.held, esA) && |esA| == |state.capturedClipArray|
    requires forall i :: 0 <= i < |esA| ==>
      (esA[i].clip == state.capturedClipArray[i].clip && esA[i].dstTrack == state.capturedClipArray[i].dstTrack)
    ensures var r1 := InsertPass(p.held, p.starts, esA, canInsert, 0, InsertResult(true, desired, tolerance));
      r == if r1.ok then InsertPass(p.held, p.starts, esA, canInsert, 0, InsertResult(true, r1.slide, 0)) else r1
  {
    InsertPassSame(p.held, p.starts, esA, state.capturedClipArray, canInsert, 0, InsertResult(true, desired, tolerance));
    r := CheckInsertion(state, p, canInsert, desired, tolerance);
    if r.ok {
      InsertPassSame(p.held, p.starts, esA, state.capturedClipArray, canInsert, 0, InsertResult(true, r.slide, 0));
      r := CheckInsertion(state, p, canInsert, r.slide, 0);
    }
  }

  /** A destination loop that gave up leaves a valid capture set, with every entry on its track. */
  lemma UnplacedStillValid(ts: seq<Track>, held: seq<seq<ClipId>>, es0: seq<TrackClip>, es1: seq<TrackClip>, diff: int)
    requires CaptureValid(ts, held, es0) && |es1| == |es0|
    requires TracksIn(ts, es0) && forall i :: 0 <= i < |es0| ==> es1[i] in {es0[i], Destined(ts, es0, diff)[i]}
    ensures CaptureValid(ts, held, es1)
    ensures forall i :: 0 <= i < |es0| ==> SameEntry(es0[i], es1[i]) && es1[i].track == es0[i].track
  {
    DestinedValid(ts, held, es0, diff);
    var r := Destined(ts, es0, diff);
    forall i | 0 <= i < |es0| ensures EntryValid(ts, held, es1[i]) && Key(es1[i]) == Key(es0[i]) {
      assert EntryValid(ts, held, es0[i]) && EntryValid(ts, held, r[i]);
    }
    forall i, j | 0 <= i < j < |es0| ensures Key(es1[i]) != Key(es1[j]) {
      assert Key(es1[i]) == Key(es0[i]) && Key(es1[j]) == Key(es0[j]);
    }
  }

  /** The success path of the vertical move: the pointer position becomes the drag's origin and every clip arrives. */
  method Arrive(remover: TemporaryClipRemover, state: ClipMoveState, p: Project, x: int, diff: int, ghost es0: seq<TrackClip>)
    requires remover.state == state && remover.project == p && remover.Holding()
    requires TracksIn(p.tracks, es0) && AllPlaced(p.tracks, es0, diff)
    requires state.capturedClipArray == Holders(Destined(p.tracks, es0, diff))
    requires forall i :: 0 <= i < |es0| && es0[i].clip.Some? ==>
      var d := Destined(p.tracks, es0, diff)[i].dstTrack;
      d.Some? && d.value < |p.tracks| && p.tracks[d.value].kind == Wave
    modifies state`capturedClipArray, state`mouseClickX, p`held
    ensures p.Valid() && CaptureValid(p.tracks, p.held, state.capturedClipArray)
    ensures |state.capturedClipArray| == |es0|
    ensures forall i :: 0 <= i < |es0| ==> SameEntry(es0[i], state.capturedClipArray[i])
    ensures forall i :: 0 <= i < |es0| && es0[i].clip.Some? ==>
      Some(state.capturedClipArray[i].track) == Destination(p.tracks, es0[i].track, diff)
    ensures forall t :: 0 <= t < |p.held| ==>
      Elems(p.held[t]) == Elems(old(p.held)[t]) + ArrivingAt(Destined(p.tracks, es0, diff), t)
    ensures state.mouseClickX == x
  {
    ghost var esA := Destined(p.tracks, es0, diff);
    state.mouseClickX := x;
    assert remover.Ready();
    remover.Finish();
    SameArrivals(Holders(esA), esA);
  }

  /** The remover is created once every clip has a destination: each clip leaves its track. */
  method OpenRemover(state: ClipMoveState, p: Project, diff: int, ghost es0: seq<TrackClip>) returns (remover: TemporaryClipRemover)
    requires p.Valid() && CaptureValid(p.tracks, p.held, es0) && TracksIn(p.tracks, es0)
    requires AllPlaced(p.tracks, es0, diff) && state.capturedClipArray == Destined(p.tracks, es0, diff)
    modifies state`capturedClipArray, p`held
    ensures fresh(remover) && remover.state == state && remover.project == p && remover.Holding()
    ensures state.capturedClipArray == Holders(Destined(p.tracks, es0, diff))
    ensures p.held == Detached(old(p.held), Destined(p.tracks, es0, diff))
    ensures forall t :: 0 <= t < |p.held| ==> Elems(p.held[t]) == Elems(old(p.held)[t]) - ClipsOf(es0)
    ensures ClipsIn(old(p.held), es0) && Disjoint(old(p.held))
    ensures Routed(p.held, Destined(p.tracks, es0, diff))
    ensures forall i :: 0 <= i < |es0| && es0[i].clip.Some? ==>
      var d := Destined(p.tracks, es0, diff)[i].dstTrack;
      d.Some? && d.value < |p.tracks| && p.tracks[d.value].kind == Wave
  {
    ghost var H0 := p.held;
    ghost var esA := state.capturedClipArray;
    PlacedRows(p.tracks, es0, diff);
    DestinedValid(p.tracks, H0, es0, diff);
    assert ClipsIn(H0, es0) && Disjoint(H0) by {
      forall i | 0 <= i < |es0| && es0[i].clip.Some? ensures es0[i].track < |H0| && es0[i].clip.value in H0[es0[i].track] {
        assert EntryValid(p.tracks, H0, es0[i]);
      }
    }
    remover := new TemporaryClipRemover(state, p);
    SameClips(esA, es0);
  }

  /**
   * The end of the vertical block, once the checking passes have answered `r`: the clips go into
   * their destinations, or back into their own tracks.
   */
  method Conclude(remover: TemporaryClipRemover, state: ClipMoveState, p: Project, r: InsertResult, diff: int,
                  desired: int, x: int, canInsert: InsertQuery, ghost es0: seq<TrackClip>, ghost H0: seq<seq<ClipId>>)
    returns (outcome: VerticalOutcome)
    requires remover.state == state && remover.project == p && remover.Holding()
    requires TracksIn(p.tracks, es0) && AllPlaced(p.tracks, es0, diff)
    requires state.capturedClipArray == Holders(Destined(p.tracks, es0, diff))
    requires forall i :: 0 <= i < |es0| && es0[i].clip.Some? ==>
      var d := Destined(p.tracks, es0, diff)[i].dstTrack;
      d.Some? && d.value < |p.tracks| && p.tracks[d.value].kind == Wave
    requires |H0| == |p.held| && ClipsIn(H0, es0) && Disjoint(H0)
    requires forall t :: 0 <= t < |p.held| ==> Elems(p.held[t]) == Elems(H0[t]) - ClipsOf(es0)
    modifies state`capturedClipArray, state`mouseClickX, state`hSlideAmount, p`held, p`starts, p`sel0, p`sel1
    ensures p.Valid() && CaptureValid(p.tracks, p.held, state.capturedClipArray)
    ensures |state.capturedClipArray| == |es0|
    ensures forall i :: 0 <= i < |es0| ==> SameEntry(es0[i], state.capturedClipArray[i])
    ensures outcome == if r.ok then MovedTo(r.slide) else
      StayedPut(FitsInOwnTracks(old(p.held), old(p.starts), es0, canInsert, desired))
    ensures outcome.MovedTo? ==>
      && (forall i :: 0 <= i < |es0| && es0[i].clip.Some? ==>
            Some(state.capturedClipArray[i].track) == Destination(p.tracks, es0[i].track, diff))
      && (forall t :: 0 <= t < |p.held| ==>
            Elems(p.held[t]) == (Elems(H0[t]) - ClipsOf(es0)) + ArrivingAt(Destined(p.tracks, es0, diff), t))
      && p.starts == old(p.starts) && p.sel0 == old(p.sel0) && p.sel1 == old(p.sel1)
      && state.mouseClickX == x && state.hSlideAmount == old(state.hSlideAmount)
    ensures outcome.StayedPut? ==>
      && (forall i :: 0 <= i < |es0| ==> state.capturedClipArray[i].track == es0[i].track)
      && Membership(p.held) == Membership(H0)
      && p.starts == (if outcome.slid then ShiftClips(old(p.starts), ClipsOf(es0), desired) else old(p.starts))
      && state.mouseClickX == (if outcome.slid then x else old(state.mouseClickX))
      && state.hSlideAmount == (if outcome.slid then 0 else old(state.hSlideAmount))
      && var d := if outcome.slid && state.capturedClipIsSelection then desired else 0;
         p.sel0 == old(p.sel0) + d && p.sel1 == old(p.sel1) + d
  {
    if !r.ok {
      forall i | 0 <= i < |es0| ensures state.capturedClipArray[i].clip == es0[i].clip && state.capturedClipArray[i].track == es0[i].track {
      }
      var ok := PutBack(remover, state, p, canInsert, desired, x, H0, es0);
      return StayedPut(ok);
    }
    Arrive(remover, state, p, x, diff, es0);
    return MovedTo(r.slide);
  }

  /** The checking passes and their conclusion, with the clips out of their tracks. */
  method Decide(remover: TemporaryClipRemover, state: ClipMoveState, p: Project, diff: int, desired: int, x: int,
                canInsert: InsertQuery, ghost es0: seq<TrackClip>, ghost H0: seq<seq<ClipId>>) returns (outcome: VerticalOutcome)
    requires remover.state == state && remover.project == p && remover.Holding() && InsertOracle(canInsert, p.lens)
    requires TracksIn(p.tracks, es0) && AllPlaced(p.tracks, es0, diff) && |H0| == |p.tracks|
    requires state.capturedClipArray == Holders(Destined(p.tracks, es0, diff))
    requires p.held == Detached(H0, Destined(p.tracks, es0, diff)) && Routed(p.held, Destined(p.tracks, es0, diff))
    requires forall i :: 0 <= i < |es0| && es0[i].clip.Some? ==>
      var d := Destined(p.tracks, es0, diff)[i].dstTrack;
      d.Some? && d.value < |p.tracks| && p.tracks[d.value].kind == Wave
    requires ClipsIn(H0, es0) && Disjoint(H0)
    requires forall t :: 0 <= t < |p.held| ==> Elems(p.held[t]) == Elems(H0[t]) - ClipsOf(es0)
    modifies state`capturedClipArray, state`mouseClickX, state`hSlideAmount, p`held, p`starts, p`sel0, p`sel1
    ensures p.Valid() && CaptureValid(p.tracks, p.held, state.capturedClipArray)
    ensures |state.capturedClipArray| == |es0|
    ensures forall i :: 0 <= i < |es0| ==> SameEntry(es0[i], state.capturedClipArray[i])
    ensures outcome == Verdict(p.tracks, H0, old(p.starts), es0, diff, desired, p.zoom.ticksPerPixel, canInsert)
    ensures outcome.MovedTo? ==>
      && (forall i :: 0 <= i < |es0| && es0[i].clip.Some? ==>
            Some(state.capturedClipArray[i].track) == Destination(p.tracks, es0[i].track, diff))
      && (forall t :: 0 <= t < |p.held| ==>
            Elems(p.held[t]) == (Elems(H0[t]) - ClipsOf(es0)) + ArrivingAt(Destined(p.tracks, es0, diff), t))
      && p.starts == old(p.starts) && p.sel0 == old(p.sel0) && p.sel1 == old(p.sel1)
      && state.mouseClickX == x && state.hSlideAmount == old(state.hSlideAmount)
    ensures outcome.StayedPut? ==>
      && (forall i :: 0 <= i < |es0| ==> state.capturedClipArray[i].track == es0[i].track)
      && Membership(p.held) == Membership(H0)
      && p.starts == (if outcome.slid then ShiftClips(old(p.starts), ClipsOf(es0), desired) else old(p.starts))
      && state.mouseClickX == (if outcome.slid then x else old(state.mouseClickX))
      && state.hSlideAmount == (if outcome.slid then 0 else old(state.hSlideAmount))
      && var d := if outcome.slid && state.capturedClipIsSelection then desired else 0;
         p.sel0 == old(p.sel0) + d && p.sel1 == old(p.sel1) + d
  {
    var tolerance := PositionToTime(p.zoom, x + 1, 0) - PositionToTime(p.zoom, x, 0);
    assert tolerance == p.zoom.ticksPerPixel;
    var r := TryDestinations(state, p, canInsert, desired, tolerance, Destined(p.tracks, es0, diff));
    assert Verdict(p.tracks, H0, p.starts, es0, diff, desired, p.zoom.ticksPerPixel, canInsert)
      == if r.ok then MovedTo(r.slide) else StayedPut(FitsInOwnTracks(p.held, p.starts, es0, canInsert, desired));
    outcome := Conclude(remover, state, p, r, diff, desired, x, canInsert, es0, H0);
  }

  /**
   * The vertical block of Drag once every clip has a destination: the transaction, the two
   * checking passes, and either the move into the destinations or the return to the clips' own tracks.
   */
  method MoveOut(state: ClipMoveState, p: Project, diff: int, desired: int, x: int, canInsert: InsertQuery,
                 ghost es0: seq<TrackClip>) returns (outcome: VerticalOutcome)
    requires p.Valid() && CaptureValid(p.tracks, p.held, es0) && TracksIn(p.tracks, es0)
    requires AllPlaced(p.tracks, es0, diff) && state.capturedClipArray == Destined(p.tracks, es0, diff)
    requires InsertOracle(canInsert, p.lens)
    modifies state`capturedClipArray, state`mouseClickX, state`hSlideAmount, p`held, p`starts, p`sel0, p`sel1
    ensures p.Valid() && CaptureValid(p.tracks, p.held, state.capturedClipArray)
    ensures |state.capturedClipArray| == |es0|
    ensures forall i :: 0 <= i < |es0| ==> SameEntry(es0[i], state.capturedClipArray[i])
    ensures outcome == Verdict(p.tracks, old(p.held), old(p.starts), es0, diff, desired, p.zoom.ticksPerPixel, canInsert)
    ensures outcome.MovedTo? ==>
      && (forall i :: 0 <= i < |es0| && es0[i].clip.Some? ==>
            Some(state.capturedClipArray[i].track) == Destination(p.tracks, es0[i].track, diff))
      && (forall t :: 0 <= t < |p.held| ==>
            Elems(p.held[t]) == (Elems(old(p.held)[t]) - ClipsOf(es0)) + ArrivingAt(Destined(p.tracks, es0, diff), t))
      && p.starts == old(p.starts) && p.sel0 == old(p.sel0) && p.sel1 == old(p.sel1)
      && state.mouseClickX == x && state.hSlideAmount == old(state.hSlideAmount)
    ensures outcome.StayedPut? ==>
      && (forall i :: 0 <= i < |es0| ==> state.capturedClipArray[i].track == es0[i].track)
      && Membership(p.held) == Membership(old(p.held))
      && p.starts == (if outcome.slid then ShiftClips(old(p.starts), ClipsOf(es0), desired) else old(p.starts))
      && state.mouseClickX == (if outcome.slid then x else old(state.mouseClickX))
      && state.hSlideAmount == (if outcome.slid then 0 else old(state.hSlideAmount))
      && var d := if outcome.slid && state.capturedClipIsSelection then desired else 0;
         p.sel0 == old(p.sel0) + d && p.sel1 == old(p.sel1) + d
  {
    ghost var H0 := p.held;
    var remover := OpenRemover(state, p, diff, es0);
    outcome := Decide(remover, state, p, diff, desired, x, canInsert, es0, H0);
  }

  /**
   * Where the vertical move with outcome `v` leaves the clips. Every entry keeps its clip and
   * origin. With no destination every track holds what it held; when the clips stay put every
   * track holds the same clips; after a move each clip's entry names its destination, and each
   * track has lost the captured clips and gained the ones destined for it.
   */
  ghost predicate Relocated(ts: seq<Track>, held0: seq<seq<ClipId>>, es0: seq<TrackClip>,
                            held: seq<seq<ClipId>>, es: seq<TrackClip>, diff: int, v: VerticalOutcome)
    requires TracksIn(ts, es0)
  {
    && |held| == |held0| && |es| == |es0|
    && (forall i :: 0 <= i < |es| ==> SameEntry(es0[i], es[i]))
    && (!v.MovedTo? ==> forall i :: 0 <= i < |es| ==> es[i].track == es0[i].track)
    && (v.NoDestination? ==> held == held0)
    && (v.StayedPut? ==> Membership(held) == Membership(held0))
    && (v.MovedTo? ==>
          && (forall i :: 0 <= i < |es0| && es0[i].clip.Some? ==> Some(es[i].track) == Destination(ts, es0[i].track, diff))
          && forall t :: 0 <= t < |held| ==>
               Elems(held[t]) == (Elems(held0[t]) - ClipsOf(es0)) + ArrivingAt(Destined(ts, es0, diff), t))
  }

  /** The vertical block of Drag: destinations first, then the move. */
  method MoveVertically(state: ClipMoveState, p: Project, capturedTrack: TrackId, pTrack: TrackId, desired: int, x: int,
                        canInsert: InsertQuery) returns (outcome: VerticalOutcome)
    requires p.Valid() && CaptureValid(p.tracks, p.held, state.capturedClipArray)
    requires capturedTrack < |p.tracks| && pTrack < |p.tracks| && InsertOracle(canInsert, p.lens)
    modifies state`capturedClipArray, state`mouseClickX, state`hSlideAmount, p`held, p`starts, p`sel0, p`sel1
    ensures p.Valid() && CaptureValid(p.tracks, p.held, state.capturedClipArray)
    ensures |state.capturedClipArray| == |old(state.capturedClipArray)|
    ensures forall i :: 0 <= i < |state.capturedClipArray| ==>
      SameEntry(old(state.capturedClipArray)[i], state.capturedClipArray[i])
    ensures TracksIn(p.tracks, old(state.capturedClipArray))
    ensures outcome == Verdict(p.tracks, old(p.held), old(p.starts), old(state.capturedClipArray),
                               RowDistance(p.tracks, capturedTrack, pTrack), desired, p.zoom.ticksPerPixel, canInsert)
    ensures Relocated(p.tracks, old(p.held), old(state.capturedClipArray), p.held, state.capturedClipArray,
                      RowDistance(p.tracks, capturedTrack, pTrack), outcome)
    ensures outcome.NoDestination? ==>
      && p.held == old(p.held) && p.starts == old(p.starts) && p.sel0 == old(p.sel0) && p.sel1 == old(p.sel1)
      && state.mouseClickX == old(state.mouseClickX) && state.hSlideAmount == old(state.hSlideAmount)
      && forall i :: 0 <= i < |state.capturedClipArray| ==> state.capturedClipArray[i].track == old(state.capturedClipArray)[i].track
    ensures outcome.MovedTo? ==>
      var diff := RowDistance(p.tracks, capturedTrack, pTrack);
      && (forall i :: 0 <= i < |old(state.capturedClipArray)| && old(state.capturedClipArray)[i].clip.Some? ==>
            Some(state.capturedClipArray[i].track) == Destination(p.tracks, old(state.capturedClipArray)[i].track, diff))
      && (forall t :: 0 <= t < |p.held| ==>
            Elems(p.held[t]) == (Elems(old(p.held)[t]) - ClipsOf(old(state.capturedClipArray)))
                                + ArrivingAt(Destined(p.tracks, old(state.capturedClipArray), diff), t))
      && p.starts == old(p.starts) && p.sel0 == old(p.sel0) && p.sel1 == old(p.sel1)
      && state.mouseClickX == x && state.hSlideAmount == old(state.hSlideAmount)
    ensures outcome.StayedPut? ==>
      && (forall i :: 0 <= i < |state.capturedClipArray| ==> state.capturedClipArray[i].track == old(state.capturedClipArray)[i].track)
      && Membership(p.held) == Membership(old(p.held))
      && p.starts == (if outcome.slid then ShiftClips(old(p.starts), ClipsOf(old(state.capturedClipArray)), desired) else old(p.starts))
      && state.mouseClickX == (if outcome.slid then x else old(state.mouseClickX))
      && state.hSlideAmount == (if outcome.slid then 0 else old(state.hSlideAmount))
      && var d := if outcome.slid && state.capturedClipIsSelection then desired else 0;
         p.sel0 == old(p.sel0) + d && p.sel1 == old(p.sel1) + d
  {
    ghost var es0 := state.capturedClipArray;
    assert TracksIn(p.tracks, es0) by {
      forall i | 0 <= i < |es0| ensures es0[i].track < |p.tracks| {
        assert EntryValid(p.tracks, p.held, es0[i]);
      }
    }
    var diff := RowDistance(p.tracks, capturedTrack, pTrack);
    var placed := AssignDestinations(state, p.tracks, diff);
    if !placed {
      UnplacedStillValid(p.tracks, p.held, es0, state.capturedClipArray, diff);
      return NoDestination;
    }
    outcome := MoveOut(state, p, diff, desired, x, canInsert, es0);
  }
}
