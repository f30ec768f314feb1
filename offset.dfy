/**
 * DoOffset: every captured clip or track moves by the same amount, except one excluded clip;
 * with nothing captured (a shift-click, or a track that is not a wave track) the clicked track
 * moves, both channels of a stereo pair together.
 */
module Offset {
  import opened Wrappers
  import opened Tracks
  import opened Timeline
  import opened Capture

  /** Whether a whole-track entry offsets a wave track's clips (rather than a track's own offset). */
  predicate WaveWhole(ts: seq<Track>, held: seq<seq<ClipId>>, e: TrackClip)
  {
    e.clip.None? && e.track < |ts| && e.track < |held| && ts[e.track].kind == Wave
  }

  /** The move made for one entry: the clip, all clips of a wave track, or another track's offset. */
  function ShiftEntry(ts: seq<Track>, held: seq<seq<ClipId>>, P: Positions, e: TrackClip, d: int,
                      excluded: Option<ClipId>): Positions
  {
    if e.clip.Some? then
      var c := e.clip.value;
      if Some(c) != excluded && c in P.starts then P.(starts := P.starts[c := P.starts[c] + d]) else P
    else if WaveWhole(ts, held, e) then
      P.(starts := map c | c in P.starts :: if c in held[e.track] then P.starts[c] + d else P.starts[c])
    else if e.track < |P.shift| then
      P.(shift := P.shift[e.track := P.shift[e.track] + d])
    else P
  }

  /** The positions after offsetting the entries `es` in order. */
  function Shifted(ts: seq<Track>, held: seq<seq<ClipId>>, P: Positions, es: seq<TrackClip>, d: int,
                   excluded: Option<ClipId>): Positions
    decreases |es|
  {
    if es == [] then P
    else ShiftEntry(ts, held, Shifted(ts, held, P, es[..|es| - 1], d, excluded), es[|es| - 1], d, excluded)
  }

  /** Whether entry `e` moves clip `c`, and whether it moves the own offset of track `t`. */
  predicate MovesClip(ts: seq<Track>, held: seq<seq<ClipId>>, e: TrackClip, c: ClipId, excluded: Option<ClipId>)
  {
    if e.clip.Some? then e.clip.value == c && Some(c) != excluded
    else WaveWhole(ts, held, e) && c in held[e.track]
  }

  predicate MovesTrack(ts: seq<Track>, held: seq<seq<ClipId>>, e: TrackClip, t: TrackId)
  {
    e.clip.None? && !WaveWhole(ts, held, e) && e.track == t
  }

  /** How many of the entries move clip `c`. */
  function Moves(ts: seq<Track>, held: seq<seq<ClipId>>, es: seq<TrackClip>, c: ClipId, excluded: Option<ClipId>): nat
    decreases |es|
  {
    if es == [] then 0
    else Moves(ts, held, es[..|es| - 1], c, excluded) + (if MovesClip(ts, held, es[|es| - 1], c, excluded) then 1 else 0)
  }

  /** How many of the entries move the own offset of track `t`. */
  function TrackMoves(ts: seq<Track>, held: seq<seq<ClipId>>, es: seq<TrackClip>, t: TrackId): nat
    decreases |es|
  {
    if es == [] then 0
    else TrackMoves(ts, held, es[..|es| - 1], t) + (if MovesTrack(ts, held, es[|es| - 1], t) then 1 else 0)
  }

  /** One entry moves by d exactly what it names. */
  lemma ShiftEntryMoves(ts: seq<Track>, held: seq<seq<ClipId>>, R: Positions, e: TrackClip, d: int, excluded: Option<ClipId>)
    ensures var Q := ShiftEntry(ts, held, R, e, d, excluded);
      && Q.starts.Keys == R.starts.Keys && |Q.shift| == |R.shift|
      && (forall c :: c in R.starts ==> Q.starts[c] == R.starts[c] + (if MovesClip(ts, held, e, c, excluded) then d else 0))
      && (forall t :: 0 <= t < |R.shift| ==> Q.shift[t] == R.shift[t] + (if MovesTrack(ts, held, e, t) then d else 0))
  {
  }

  /** Offsetting by d moves every clip and track offset by d times the number of entries that move it. */
  lemma {:induction false} ShiftedCounts(ts: seq<Track>, held: seq<seq<ClipId>>, P: Positions, es: seq<TrackClip>,
                                         d: int, excluded: Option<ClipId>)
    ensures var Q := Shifted(ts, held, P, es, d, excluded);
      && Q.starts.Keys == P.starts.Keys && |Q.shift| == |P.shift|
      && (forall c :: c in P.starts ==> Q.starts[c] == P.starts[c] + d * Moves(ts, held, es, c, excluded))
      && (forall t :: 0 <= t < |P.shift| ==> Q.shift[t] == P.shift[t] + d * TrackMoves(ts, held, es, t))
    decreases |es|
  {
    if es != [] {
      var front := es[..|es| - 1];
      var e := es[|es| - 1];
      ShiftedCounts(ts, held, P, front, d, excluded);
      var R := Shifted(ts, held, P, front, d, excluded);
      ShiftEntryMoves(ts, held, R, e, d, excluded);
      forall c | c in P.starts
        ensures Shifted(ts, held, P, es, d, excluded).starts[c] == P.starts[c] + d * Moves(ts, held, es, c, excluded)
      {
        MulStep(d, Moves(ts, held, front, c, excluded), MovesClip(ts, held, e, c, excluded));
      }
      forall t | 0 <= t < |P.shift|
        ensures Shifted(ts, held, P, es, d, excluded).shift[t] == P.shift[t] + d * TrackMoves(ts, held, es, t)
      {
        MulStep(d, TrackMoves(ts, held, front, t), MovesTrack(ts, held, e, t));
      }
    }
  }

  lemma MulStep(d: int, m: int, b: bool)
    ensures d * (m + (if b then 1 else 0)) == d * m + (if b then d else 0)
  {
  }

  lemma NegMul(d: int, m: int)
    ensures (-d) * m == -(d * m)
  {
  }

  /** Positions are equal when they agree on every clip and every track offset. */
  lemma PositionsEqual(R: Positions, P: Positions)
    requires R.starts.Keys == P.starts.Keys && |R.shift| == |P.shift|
    requires forall c :: c in P.starts ==> R.starts[c] == P.starts[c]
    requires forall t :: 0 <= t < |P.shift| ==> R.shift[t] == P.shift[t]
    ensures R == P
  {
    assert R.starts == P.starts;
    assert R.shift == P.shift;
  }

  /** DoOffset by d and then by -d restores every position. */
  lemma ShiftedRoundTrip(ts: seq<Track>, held: seq<seq<ClipId>>, P: Positions, es: seq<TrackClip>,
                         d: int, excluded: Option<ClipId>)
    ensures Shifted(ts, held, Shifted(ts, held, P, es, d, excluded), es, -d, excluded) == P
  {
    var Q := Shifted(ts, held, P, es, d, excluded);
    var R := Shifted(ts, held, Q, es, -d, excluded);
    ShiftedCounts(ts, held, P, es, d, excluded);
    ShiftedCounts(ts, held, Q, es, -d, excluded);
    forall c | c in P.starts ensures R.starts[c] == P.starts[c] {
      NegMul(d, Moves(ts, held, es, c, excluded));
    }
    forall t | 0 <= t < |P.shift| ensures R.shift[t] == P.shift[t] {
      NegMul(d, TrackMoves(ts, held, es, t));
    }
    PositionsEqual(R, P);
  }

  predicate HasWhole(es: seq<TrackClip>, t: TrackId)
  {
    exists i :: 0 <= i < |es| && es[i].clip.None? && es[i].track == t
  }

  /** Without duplicates, an entry moves a clip or track once, and the excluded clip not at all. */
  lemma {:induction false} MovesExact(ts: seq<Track>, held: seq<seq<ClipId>>, es: seq<TrackClip>, excluded: Option<ClipId>)
    requires DistinctKeys(es) && WholeNotWave(ts, es)
    ensures forall c: ClipId :: Moves(ts, held, es, c, excluded) == if HasClip(es, c) && Some(c) != excluded then 1 else 0
    ensures forall t: TrackId :: TrackMoves(ts, held, es, t) == if HasWhole(es, t) then 1 else 0
    decreases |es|
  {
    if es != [] {
      var n := |es| - 1;
      var front := es[..n];
      var e := es[n];
      assert DistinctKeys(front) by {
        forall i, j | 0 <= i < j < |front| ensures Key(front[i]) != Key(front[j]) {
          assert front[i] == es[i] && front[j] == es[j];
        }
      }
      assert WholeNotWave(ts, front) by {
        forall i | 0 <= i < |front| && front[i].clip.None? ensures front[i].track < |ts| && ts[front[i].track].kind != Wave {
          assert front[i] == es[i];
        }
      }
      MovesExact(ts, held, front, excluded);
      forall c: ClipId ensures Moves(ts, held, es, c, excluded) == if HasClip(es, c) && Some(c) != excluded then 1 else 0 {
        if e.clip == Some(c) {
          assert !HasClip(front, c) by {
            forall i | 0 <= i < |front| ensures front[i].clip != Some(c) {
              assert front[i] == es[i] && Key(es[i]) != Key(es[n]);
            }
          }
          assert HasClip(es, c);
        } else {
          assert HasClip(es, c) == HasClip(front, c) by {
            if HasClip(es, c) {
              var i :| 0 <= i < |es| && es[i].clip == Some(c);
              assert i < n && front[i] == es[i];
            }
            if HasClip(front, c) {
              var i :| 0 <= i < |front| && front[i].clip == Some(c);
              assert es[i] == front[i];
            }
          }
        }
      }
      forall t: TrackId ensures TrackMoves(ts, held, es, t) == if HasWhole(es, t) then 1 else 0 {
        if e.clip.None? && e.track == t {
          assert !HasWhole(front, t) by {
            forall i | 0 <= i < |front| ensures !(front[i].clip.None? && front[i].track == t) {
              assert front[i] == es[i] && Key(es[i]) != Key(es[n]);
            }
          }
          assert HasWhole(es, t);
        } else {
          assert HasWhole(es, t) == HasWhole(front, t) by {
            if HasWhole(es, t) {
              var i :| 0 <= i < |es| && es[i].clip.None? && es[i].track == t;
              assert i < n && front[i] == es[i];
            }
            if HasWhole(front, t) {
              var i :| 0 <= i < |front| && front[i].clip.None? && front[i].track == t;
              assert es[i] == front[i];
            }
          }
        }
      }
    }
  }

  /**
   * For a capture set built by a click, DoOffset moves each captured clip and each captured
   * track by exactly d, except the excluded clip; everything else keeps its position.
   */
  lemma ShiftedCapture(ts: seq<Track>, held: seq<seq<ClipId>>, P: Positions, es: seq<TrackClip>,
                       d: int, excluded: Option<ClipId>)
    requires DistinctKeys(es) && WholeNotWave(ts, es)
    ensures var Q := Shifted(ts, held, P, es, d, excluded);
      && Q.starts.Keys == P.starts.Keys && |Q.shift| == |P.shift|
      && (forall c :: c in P.starts ==>
            Q.starts[c] == P.starts[c] + (if HasClip(es, c) && Some(c) != excluded then d else 0))
      && (forall t :: 0 <= t < |P.shift| ==> Q.shift[t] == P.shift[t] + (if HasWhole(es, t) then d else 0))
  {
    ShiftedCounts(ts, held, P, es, d, excluded);
    MovesExact(ts, held, es, excluded);
  }

  /** The first channel DoOffset moves for an empty capture set: the partner when `t` is a right channel. */
  function FirstChannel(ts: seq<Track>, t: TrackId): TrackId
    requires t < |ts|
  {
    if Link(ts, t).Some? && !ts[t].linked then Link(ts, t).value else t
  }

  /** The channels from `ch` on: `ch`, then its partner when `ch` is a linked left channel. */
  function ChannelsFrom(ts: seq<Track>, ch: Option<TrackId>): seq<TrackClip>
    requires WellFormed(ts) && (ch.Some? ==> ch.value < |ts|)
  {
    if ch.None? then []
    else if ts[ch.value].linked then [NewTrackClip(ch.value, None), NewTrackClip(ch.value + 1, None)]
    else [NewTrackClip(ch.value, None)]
  }

  /** The whole-track moves DoOffset makes for the track `t` when nothing is captured. */
  function ChannelEntries(ts: seq<Track>, t: TrackId): seq<TrackClip>
    requires WellFormed(ts) && t < |ts|
  {
    ChannelsFrom(ts, Some(FirstChannel(ts, t)))
  }

  /** The positions after DoOffset(state, pTrack, d, excluded). */
  function DoOffsetResult(ts: seq<Track>, held: seq<seq<ClipId>>, P: Positions, es: seq<TrackClip>,
                          pTrack: Option<TrackId>, d: int, excluded: Option<ClipId>): Positions
    requires WellFormed(ts) && (pTrack.Some? ==> pTrack.value < |ts|)
  {
    if |es| > 0 then Shifted(ts, held, P, es, d, excluded)
    else if pTrack.Some? then Shifted(ts, held, P, ChannelEntries(ts, pTrack.value), d, None)
    else P
  }

  /** DoOffset by d and then by -d, on the same capture set, restores every position. */
  lemma DoOffsetRoundTrip(ts: seq<Track>, held: seq<seq<ClipId>>, P: Positions, es: seq<TrackClip>,
                          pTrack: Option<TrackId>, d: int, excluded: Option<ClipId>)
    requires WellFormed(ts) && (pTrack.Some? ==> pTrack.value < |ts|)
    ensures DoOffsetResult(ts, held, DoOffsetResult(ts, held, P, es, pTrack, d, excluded), es, pTrack, -d, excluded) == P
  {
    if |es| > 0 {
      ShiftedRoundTrip(ts, held, P, es, d, excluded);
    } else if pTrack.Some? {
      ShiftedRoundTrip(ts, held, P, ChannelEntries(ts, pTrack.value), d, None);
    }
  }

  /** DoOffset by zero moves nothing. */
  lemma OffsetByZero(ts: seq<Track>, held: seq<seq<ClipId>>, P: Positions, es: seq<TrackClip>,
                     pTrack: Option<TrackId>, excluded: Option<ClipId>)
    requires WellFormed(ts) && (pTrack.Some? ==> pTrack.value < |ts|)
    ensures DoOffsetResult(ts, held, P, es, pTrack, 0, excluded) == P
  {
    var fs := if |es| > 0 then es else if pTrack.Some? then ChannelEntries(ts, pTrack.value) else [];
    var ex := if |es| > 0 then excluded else None;
    ShiftedCounts(ts, held, P, fs, 0, ex);
    PositionsEqual(Shifted(ts, held, P, fs, 0, ex), P);
  }

  /** Clip `c` belongs to the wave track `t` or to its partner. */
  predicate InChannels(ts: seq<Track>, held: seq<seq<ClipId>>, t: TrackId, c: ClipId)
    requires t < |ts| && |held| == |ts|
  {
    ts[t].kind == Wave && (c in held[t] || (Link(ts, t).Some? && c in held[Link(ts, t).value]))
  }

  /**
   * With nothing captured, both channels of the clicked track move together: every clip of a
   * wave track and of its partner by d, the own offset of any other track by d, nothing else.
   */
  lemma ChannelsMoveTogether(ts: seq<Track>, held: seq<seq<ClipId>>, P: Positions, t: TrackId, d: int)
    requires WellFormed(ts) && t < |ts| && |held| == |ts|
    requires forall u, v, c :: 0 <= u < |held| && 0 <= v < |held| && u != v && c in held[u] ==> c !in held[v]
    ensures var Q := Shifted(ts, held, P, ChannelEntries(ts, t), d, None);
      && Q.starts.Keys == P.starts.Keys && |Q.shift| == |P.shift|
      && (forall c :: c in P.starts ==>
            Q.starts[c] == P.starts[c] + (if InChannels(ts, held, t, c) then d else 0))
      && (forall u :: 0 <= u < |P.shift| ==> Q.shift[u] == P.shift[u] + (if ts[t].kind != Wave && u == t then d else 0))
  {
    var es := ChannelEntries(ts, t);
    var l := FirstChannel(ts, t);
    ShiftedCounts(ts, held, P, es, d, None);
    if Link(ts, t).Some? {
      LinkSymmetric(ts, t);
    }
    var el := NewTrackClip(l, None);
    if ts[l].linked {
      var er := NewTrackClip(l + 1, None);
      assert es == [el, er];
      assert es[..1] == [el] && es[..1][..0] == [];
      forall c | c in P.starts ensures Moves(ts, held, es, c, None) == if InChannels(ts, held, t, c) then 1 else 0 {
        assert Moves(ts, held, [el], c, None) == if MovesClip(ts, held, el, c, None) then 1 else 0;
        assert Moves(ts, held, es, c, None) ==
          (if MovesClip(ts, held, el, c, None) then 1 else 0) + (if MovesClip(ts, held, er, c, None) then 1 else 0);
        if c in held[l] {
          assert c !in held[l + 1];
        }
      }
      forall u | 0 <= u < |P.shift| ensures TrackMoves(ts, held, es, u) == 0 {
        assert TrackMoves(ts, held, [el], u) == if MovesTrack(ts, held, el, u) then 1 else 0;
        assert TrackMoves(ts, held, es, u) ==
          (if MovesTrack(ts, held, el, u) then 1 else 0) + (if MovesTrack(ts, held, er, u) then 1 else 0);
      }
    } else {
      assert l == t;
      assert es == [el] && es[..0] == [];
      forall c | c in P.starts ensures Moves(ts, held, es, c, None) == if InChannels(ts, held, t, c) then 1 else 0 {
        assert Moves(ts, held, es, c, None) == if MovesClip(ts, held, el, c, None) then 1 else 0;
      }
      forall u | 0 <= u < |P.shift| ensures TrackMoves(ts, held, es, u) == if ts[t].kind != Wave && u == t then 1 else 0 {
        assert TrackMoves(ts, held, es, u) == if MovesTrack(ts, held, el, u) then 1 else 0;
      }
    }
  }

  /** One step of DoOffset: Offset on the entry's clip, or on its track. */
  method OffsetEntry(p: Project, e: TrackClip, offset: int, excluded: Option<ClipId>)
    requires p.Valid() && EntryValid(p.tracks, p.held, e)
    modifies p`starts, p`shift
    ensures p.Valid()
    ensures p.Pos() == ShiftEntry(p.tracks, p.held, old(p.Pos()), e, offset, excluded)
  {
    if e.clip.Some? {
      if e.clip != excluded {
        p.OffsetClip(e.clip.value, offset);
      }
    } else {
      p.OffsetTrack(e.track, offset);
    }
  }

  /** The loop of DoOffset over a non-empty capture set. */
  method OffsetCaptured(state: ClipMoveState, p: Project, offset: int, excluded: Option<ClipId>)
    requires p.Valid() && CaptureValid(p.tracks, p.held, state.capturedClipArray)
    modifies p`starts, p`shift
    ensures p.Valid()
    ensures p.Pos() == Shifted(p.tracks, p.held, old(p.Pos()), state.capturedClipArray, offset, excluded)
  {
    var es := state.capturedClipArray;
    for i := 0 to |es|
      invariant p.Valid()
      invariant p.Pos() == Shifted(p.tracks, p.held, old(p.Pos()), es[..i], offset, excluded)
    {
      assert es[..i + 1][..i] == es[..i];
      assert EntryValid(p.tracks, p.held, es[i]);
      OffsetEntry(p, es[i], offset, excluded);
    }
    assert es[..|es|] == es;
  }

  /** The loop of DoOffset over the channels of the clicked track, for an empty capture set. */
  method OffsetChannels(p: Project, t: TrackId, offset: int)
    requires p.Valid() && t < |p.tracks|
    modifies p`starts, p`shift
    ensures p.Valid()
    ensures p.Pos() == Shifted(p.tracks, p.held, old(p.Pos()), ChannelEntries(p.tracks, t), offset, None)
  {
    var channel := Some(FirstChannel(p.tracks, t));
    ghost var done: seq<TrackClip> := [];
    while channel.Some?
      invariant channel.Some? ==> channel.value < |p.tracks|
      invariant p.Valid()
      invariant done + ChannelsFrom(p.tracks, channel) == ChannelEntries(p.tracks, t)
      invariant p.Pos() == Shifted(p.tracks, p.held, old(p.Pos()), done, offset, None)
      decreases if channel.Some? then |p.tracks| + 1 - channel.value else 0
    {
      var ch := channel.value;
      OffsetEntry(p, NewTrackClip(ch, None), offset, None);
      assert (done + [NewTrackClip(ch, None)])[..|done|] == done;
      done := done + [NewTrackClip(ch, None)];
      channel := if p.tracks[ch].linked then Link(p.tracks, ch) else None;
    }
    assert done == ChannelEntries(p.tracks, t);
  }

  /** DoOffset: the capture set moves rigidly; with nothing captured, the track `pTrack` moves. */
  method DoOffset(state: ClipMoveState, p: Project, pTrack: Option<TrackId>, offset: int, excluded: Option<ClipId>)
    requires p.Valid() && CaptureValid(p.tracks, p.held, state.capturedClipArray)
    requires pTrack.Some? ==> pTrack.value < |p.tracks|
    modifies p`starts, p`shift
    ensures p.Valid()
    ensures p.Pos() == DoOffsetResult(p.tracks, p.held, old(p.Pos()), state.capturedClipArray, pTrack, offset, excluded)
  {
    if |state.capturedClipArray| > 0 {
      OffsetCaptured(state, p, offset, excluded);
    } else if pTrack.Some? {
      OffsetChannels(p, pTrack.value, offset);
    }
  }
}
