/**
 * The capture set of a drag: the clips and whole tracks that move together. It is built once,
 * at the click, from the clicked clip (and the clip of the other stereo channel under the
 * pointer) or from the time selection, and closed under sync-lock groups.
 */
module Capture {
  import opened Wrappers
  import opened Tracks
  import opened Geometry
  import opened Timeline

  /**
   * One captured item: a clip of a wave track, or a whole track when `clip` is None. `origTrack`
   * is the track at the click; `dstTrack` and `holder` are used while a vertical move is tried.
   */
  datatype TrackClip = TrackClip(track: TrackId, clip: Option<ClipId>, origTrack: TrackId,
                                 dstTrack: Option<TrackId>, holder: Option<ClipId>)

  /** The TrackClip(track, clip) constructor: current and original track are the same. */
  function NewTrackClip(t: TrackId, c: Option<ClipId>): TrackClip
  {
    TrackClip(t, c, t, None, None)
  }

  /** What makes an entry a duplicate: the same clip, or for a whole-track entry the same track. */
  datatype EntryKey = ClipKey(clip: ClipId) | TrackKey(track: TrackId)

  function Key(e: TrackClip): EntryKey
  {
    if e.clip.Some? then ClipKey(e.clip.value) else TrackKey(e.track)
  }

  predicate DistinctKeys(es: seq<TrackClip>)
  {
    forall i, j :: 0 <= i < j < |es| ==> Key(es[i]) != Key(es[j])
  }

  predicate HasClip(es: seq<TrackClip>, c: ClipId)
  {
    exists i :: 0 <= i < |es| && es[i].clip == Some(c)
  }

  predicate HasTrack(es: seq<TrackClip>, t: TrackId)
  {
    exists i :: 0 <= i < |es| && es[i].track == t
  }

  /** Every track named exists, and a captured clip is held by the track its entry names. */
  predicate EntryValid(ts: seq<Track>, held: seq<seq<ClipId>>, e: TrackClip)
  {
    && e.track < |ts| && e.track < |held| && e.origTrack < |ts|
    && (e.dstTrack.Some? ==> e.dstTrack.value < |ts|)
    && (e.clip.Some? ==> e.clip.value in held[e.track])
  }

  predicate CaptureValid(ts: seq<Track>, held: seq<seq<ClipId>>, es: seq<TrackClip>)
  {
    DistinctKeys(es) && forall i :: 0 <= i < |es| ==> EntryValid(ts, held, es[i])
  }

  /** Whole-track entries are made only for tracks that are not wave tracks. */
  predicate WholeNotWave(ts: seq<Track>, es: seq<TrackClip>)
  {
    forall i :: 0 <= i < |es| && es[i].clip.None? ==> es[i].track < |ts| && ts[es[i].track].kind != Wave
  }

  /** Entries as built at the click: still on their original track, no move in progress. */
  predicate Fresh(es: seq<TrackClip>)
  {
    forall i :: 0 <= i < |es| ==> es[i] == NewTrackClip(es[i].track, es[i].clip)
  }

  predicate Prefix(a: seq<TrackClip>, b: seq<TrackClip>)
  {
    |a| <= |b| && b[..|a|] == a
  }

  predicate PrefixOf(a: seq<TrackId>, b: seq<TrackId>)
  {
    |a| <= |b| && b[..|a|] == a
  }

  /**
   * Track `g` has nothing left to add for the span [t0, t1]: for a wave track every clip that
   * meets the span is captured, any other track is captured itself.
   */
  ghost predicate Covered(ts: seq<Track>, held: seq<seq<ClipId>>, starts: map<ClipId, int>, lens: map<ClipId, nat>,
                          es: seq<TrackClip>, g: TrackId, t0: int, t1: int)
  {
    g < |ts| && g < |held| &&
    if ts[g].kind == Wave then
      forall c :: c in held[g] && c in starts && c in lens && Overlaps(starts, lens, c, t0, t1) ==> HasClip(es, c)
    else
      HasTrack(es, g)
  }

  /** Sync-lock closure at entry j: every track of a captured clip's group is covered for the clip's span. */
  ghost predicate SyncClosedAt(ts: seq<Track>, held: seq<seq<ClipId>>, starts: map<ClipId, int>, lens: map<ClipId, nat>,
                               es: seq<TrackClip>, j: int)
    requires 0 <= j < |es|
  {
    es[j].clip.Some? && es[j].track < |ts| && es[j].clip.value in starts && es[j].clip.value in lens ==>
      var c := es[j].clip.value;
      forall g :: g in SyncGroup(ts, es[j].track) ==> Covered(ts, held, starts, lens, es, g, starts[c], starts[c] + lens[c])
  }

  /**
   * What AddClipsToCaptured adds for the span [t0, t1]: a clip of the entry's track that meets
   * the span, or, as a whole-track entry, a track that is not a wave track.
   */
  ghost predicate InSpan(ts: seq<Track>, held: seq<seq<ClipId>>, starts: map<ClipId, int>, lens: map<ClipId, nat>,
                         e: TrackClip, t0: int, t1: int)
  {
    e.track < |ts| && e.track < |held| &&
    if e.clip.Some? then
      e.clip.value in held[e.track] && e.clip.value in starts && e.clip.value in lens &&
      Overlaps(starts, lens, e.clip.value, t0, t1)
    else ts[e.track].kind != Wave
  }

  /** Entry `e` is brought in by the clip of entry `src`: it is on a track of that clip's sync-lock group, within the clip's span. */
  ghost predicate BroughtBy(ts: seq<Track>, held: seq<seq<ClipId>>, starts: map<ClipId, int>, lens: map<ClipId, nat>,
                            src: TrackClip, e: TrackClip)
  {
    && src.clip.Some? && src.track < |ts| && src.clip.value in starts && src.clip.value in lens
    && e.track in SyncGroup(ts, src.track)
    && InSpan(ts, held, starts, lens, e, starts[src.clip.value], starts[src.clip.value] + lens[src.clip.value])
  }

  /** Every entry from `from` on is brought in by a clip entry before it: the closure adds nothing else. */
  ghost predicate SyncBrought(ts: seq<Track>, held: seq<seq<ClipId>>, starts: map<ClipId, int>, lens: map<ClipId, nat>,
                              es: seq<TrackClip>, from: nat)
  {
    forall k :: from <= k < |es| ==> exists j :: 0 <= j < k && BroughtBy(ts, held, starts, lens, es[j], es[k])
  }

  lemma PrefixHas(a: seq<TrackClip>, b: seq<TrackClip>)
    requires Prefix(a, b)
    ensures forall c :: HasClip(a, c) ==> HasClip(b, c)
    ensures forall t :: HasTrack(a, t) ==> HasTrack(b, t)
  {
    forall c: ClipId | HasClip(a, c) ensures HasClip(b, c) {
      var i :| 0 <= i < |a| && a[i].clip == Some(c);
      assert b[i] == a[i];
    }
    forall t: TrackId | HasTrack(a, t) ensures HasTrack(b, t) {
      var i :| 0 <= i < |a| && a[i].track == t;
      assert b[i] == a[i];
    }
  }

  /** Once covered, a track stays covered as the capture set grows. */
  lemma CoveredGrows(ts: seq<Track>, held: seq<seq<ClipId>>, starts: map<ClipId, int>, lens: map<ClipId, nat>,
                     a: seq<TrackClip>, b: seq<TrackClip>, g: TrackId, t0: int, t1: int)
    requires Prefix(a, b) && Covered(ts, held, starts, lens, a, g, t0, t1)
    ensures Covered(ts, held, starts, lens, b, g, t0, t1)
  {
    PrefixHas(a, b);
  }

  lemma SyncClosedGrows(ts: seq<Track>, held: seq<seq<ClipId>>, starts: map<ClipId, int>, lens: map<ClipId, nat>,
                        a: seq<TrackClip>, b: seq<TrackClip>, j: int)
    requires Prefix(a, b) && 0 <= j < |a| && SyncClosedAt(ts, held, starts, lens, a, j)
    ensures SyncClosedAt(ts, held, starts, lens, b, j)
  {
    assert b[j] == a[j];
    if a[j].clip.Some? && a[j].track < |ts| && a[j].clip.value in starts && a[j].clip.value in lens {
      var c := a[j].clip.value;
      forall g | g in SyncGroup(ts, a[j].track)
        ensures Covered(ts, held, starts, lens, b, g, starts[c], starts[c] + lens[c])
      {
        CoveredGrows(ts, held, starts, lens, a, b, g, starts[c], starts[c] + lens[c]);
      }
    }
  }

  /** The clip loop of AddClipsToCaptured over the clips `cs` of wave track `t`. */
  function ScanClips(t: TrackId, cs: seq<ClipId>, starts: map<ClipId, int>, lens: map<ClipId, nat>,
                     t0: int, t1: int, acc: seq<TrackClip>): seq<TrackClip>
    requires forall c :: c in cs ==> c in starts && c in lens
    decreases |cs|
  {
    if cs == [] then acc
    else
      var c := cs[0];
      var acc' := if Overlaps(starts, lens, c, t0, t1) && !HasClip(acc, c)
                  then acc + [NewTrackClip(t, Some(c))] else acc;
      ScanClips(t, cs[1..], starts, lens, t0, t1, acc')
  }

  /** What ScanClips appends: fresh entries of `t` for overlapping clips of `cs` not yet captured, all of them. */
  lemma {:induction false} ScanClipsSpec(t: TrackId, cs: seq<ClipId>, starts: map<ClipId, int>, lens: map<ClipId, nat>,
                                         t0: int, t1: int, acc: seq<TrackClip>)
    requires forall c :: c in cs ==> c in starts && c in lens
    ensures var r := ScanClips(t, cs, starts, lens, t0, t1, acc);
      && Prefix(acc, r)
      && (forall k :: |acc| <= k < |r| ==>
            r[k] == NewTrackClip(t, r[k].clip) && r[k].clip.Some? && r[k].clip.value in cs &&
            Overlaps(starts, lens, r[k].clip.value, t0, t1) && !HasClip(acc, r[k].clip.value))
      && (forall c :: c in cs && Overlaps(starts, lens, c, t0, t1) ==> HasClip(r, c))
      && (DistinctKeys(acc) ==> DistinctKeys(r))
    decreases |cs|
  {
    if cs != [] {
      var c := cs[0];
      var add := Overlaps(starts, lens, c, t0, t1) && !HasClip(acc, c);
      var acc' := if add then acc + [NewTrackClip(t, Some(c))] else acc;
      ScanClipsSpec(t, cs[1..], starts, lens, t0, t1, acc');
      var r := ScanClips(t, cs, starts, lens, t0, t1, acc);
      assert r == ScanClips(t, cs[1..], starts, lens, t0, t1, acc');
      assert r[..|acc|] == r[..|acc'|][..|acc|];
      PrefixHas(acc', r);
      if add {
        assert acc'[|acc|].clip == Some(c);
        assert HasClip(acc', c);
        forall k | |acc| < k < |r| ensures !HasClip(acc, r[k].clip.value) {
          assert !HasClip(acc', r[k].clip.value);
          PrefixHas(acc, acc');
        }
        if DistinctKeys(acc) {
          forall i, j | 0 <= i < j < |acc'| ensures Key(acc'[i]) != Key(acc'[j]) {
            if j == |acc| {
              assert acc[i].clip != Some(c);
            }
          }
        }
      }
      forall c' | c' in cs && Overlaps(starts, lens, c', t0, t1) ensures HasClip(r, c') {
        if c' != c {
          assert c' in cs[1..];
        } else if !add {
          PrefixHas(acc, r);
        }
      }
    }
  }

  /** The effect of AddClipsToCaptured(t, t0, t1) on the capture array. */
  function AddToCaptured(ts: seq<Track>, held: seq<seq<ClipId>>, starts: map<ClipId, int>, lens: map<ClipId, nat>,
                         t: TrackId, t0: int, t1: int, es: seq<TrackClip>): (r: seq<TrackClip>)
    requires t < |ts| && t < |held| && forall c :: c in held[t] ==> c in starts && c in lens
    ensures Prefix(es, r)
    ensures forall k :: |es| <= k < |r| ==> r[k] == NewTrackClip(t, r[k].clip)
    ensures forall k :: |es| <= k < |r| && r[k].clip.Some? ==>
      r[k].clip.value in held[t] && Overlaps(starts, lens, r[k].clip.value, t0, t1) && !HasClip(es, r[k].clip.value)
    ensures forall k :: |es| <= k < |r| && r[k].clip.None? ==>
      ts[t].kind != Wave && !HasTrack(es, t) && |r| == |es| + 1
    ensures Covered(ts, held, starts, lens, r, t, t0, t1)
    ensures DistinctKeys(es) ==> DistinctKeys(r)
  {
    ScanClipsSpec(t, held[t], starts, lens, t0, t1, es);
    if ts[t].kind == Wave then ScanClips(t, held[t], starts, lens, t0, t1, es)
    else if HasTrack(es, t) then es
    else
      var r := es + [NewTrackClip(t, None)];
      assert r[|es|].track == t;
      r
  }

  /** AddToCaptured keeps every entry valid for a project whose clips are known. */
  lemma AddToCapturedValid(ts: seq<Track>, held: seq<seq<ClipId>>, starts: map<ClipId, int>, lens: map<ClipId, nat>,
                           t: TrackId, t0: int, t1: int, es: seq<TrackClip>)
    requires t < |ts| && |held| == |ts| && ClipsKnown(held, starts, lens)
    requires CaptureValid(ts, held, es) && Fresh(es)
    ensures var r := AddToCaptured(ts, held, starts, lens, t, t0, t1, es);
      CaptureValid(ts, held, r) && Fresh(r)
  {
    var r := AddToCaptured(ts, held, starts, lens, t, t0, t1, es);
    forall i | 0 <= i < |r| ensures EntryValid(ts, held, r[i]) && r[i] == NewTrackClip(r[i].track, r[i].clip) {
      if i < |es| {
        assert r[i] == es[i];
      }
    }
  }

  /** The set of keys of a capture array; without duplicates it has one key per entry. */
  function KeySet(es: seq<TrackClip>): set<EntryKey>
  {
    set i | 0 <= i < |es| :: Key(es[i])
  }

  lemma {:induction false} KeySetSize(es: seq<TrackClip>)
    requires DistinctKeys(es)
    ensures |KeySet(es)| == |es|
  {
    if es != [] {
      var n := |es| - 1;
      var front := es[..n];
      assert DistinctKeys(front) by {
        forall i, j | 0 <= i < j < |front| ensures Key(front[i]) != Key(front[j]) {
          assert front[i] == es[i] && front[j] == es[j];
        }
      }
      KeySetSize(front);
      assert KeySet(es) == KeySet(front) + {Key(es[n])} by {
        forall k | k in KeySet(es) ensures k in KeySet(front) + {Key(es[n])} {
          var i :| 0 <= i < |es| && k == Key(es[i]);
          if i < n {
            assert front[i] == es[i];
          }
        }
        forall k | k in KeySet(front) ensures k in KeySet(es) {
          var i :| 0 <= i < |front| && k == Key(front[i]);
          assert front[i] == es[i];
        }
      }
      assert Key(es[n]) !in KeySet(front) by {
        forall i | 0 <= i < |front| ensures Key(front[i]) != Key(es[n]) {
          assert front[i] == es[i];
        }
      }
    }
  }

  function ClipKeys(cs: set<ClipId>): set<EntryKey>
  {
    set c | c in cs :: ClipKey(c)
  }

  function TrackKeys(n: nat): set<EntryKey>
  {
    set t: nat | t < n :: TrackKey(t)
  }

  lemma {:induction false} ClipKeysSize(cs: set<ClipId>)
    ensures |ClipKeys(cs)| == |cs|
    decreases |cs|
  {
    if cs != {} {
      var x :| x in cs;
      ClipKeysSize(cs - {x});
      assert ClipKeys(cs) == ClipKeys(cs - {x}) + {ClipKey(x)};
    }
  }

  lemma {:induction false} TrackKeysSize(n: nat)
    ensures |TrackKeys(n)| == n
  {
    if n > 0 {
      TrackKeysSize(n - 1);
      assert TrackKeys(n) == TrackKeys(n - 1) + {TrackKey(n - 1)};
    }
  }

  lemma SubsetSize<T>(a: set<T>, b: set<T>)
    requires a <= b
    ensures |a| <= |b|
  {
    assert b == a + (b - a);
    assert a * (b - a) == {};
  }

  /**
   * The growing array is bounded: without duplicates there is at most one entry per clip of
   * the project and one per track.
   */
  lemma CaptureBound(ts: seq<Track>, held: seq<seq<ClipId>>, lens: map<ClipId, nat>, es: seq<TrackClip>)
    requires CaptureValid(ts, held, es)
    requires forall t, c :: 0 <= t < |held| && c in held[t] ==> c in lens
    ensures |es| <= |lens| + |ts|
  {
    KeySetSize(es);
    ClipKeysSize(lens.Keys);
    TrackKeysSize(|ts|);
    forall k | k in KeySet(es) ensures k in ClipKeys(lens.Keys) + TrackKeys(|ts|) {
      var i :| 0 <= i < |es| && k == Key(es[i]);
      assert EntryValid(ts, held, es[i]);
    }
    SubsetSize(KeySet(es), ClipKeys(lens.Keys) + TrackKeys(|ts|));
  }

  /** The state of a clip drag that Click builds and Drag updates. */
  class ClipMoveState {
    var capturedClip: Option<ClipId>
    var capturedClipIsSelection: bool
    var trackExclusions: seq<TrackId>
    var hSlideAmount: int
    var capturedClipArray: seq<TrackClip>
    var snapLeft: int
    var snapRight: int
    var mouseClickX: int

    /** The state's defaults: nothing captured, no slide, no snap line. */
    predicate Cleared()
      reads this
    {
      && capturedClip == None && !capturedClipIsSelection && trackExclusions == []
      && hSlideAmount == 0 && capturedClipArray == [] && snapLeft == -1 && snapRight == -1
      && mouseClickX == 0
    }

    constructor()
      ensures Cleared()
    {
      capturedClip := None;
      capturedClipIsSelection := false;
      trackExclusions := [];
      hSlideAmount := 0;
      capturedClipArray := [];
      snapLeft, snapRight := -1, -1;
      mouseClickX := 0;
    }

    /** ClipMoveState::clear: back to the defaults. */
    method Clear()
      modifies this
      ensures Cleared()
    {
      capturedClip := None;
      capturedClipIsSelection := false;
      trackExclusions := [];
      hSlideAmount := 0;
      capturedClipArray := [];
      snapLeft, snapRight := -1, -1;
      mouseClickX := 0;
    }
  }

  /** AddClipsToCaptured(state, t, t0, t1). */
  method AddClipsToCaptured(state: ClipMoveState, p: Project, t: TrackId, t0: int, t1: int)
    requires p.Valid() && t < |p.tracks|
    modifies state`capturedClipArray, state`trackExclusions
    ensures state.capturedClipArray == AddToCaptured(p.tracks, p.held, p.starts, p.lens, t, t0, t1, old(state.capturedClipArray))
    ensures state.trackExclusions == old(state.trackExclusions) + (if p.tracks[t].kind == Wave then [] else [t])
  {
    var exclude := true;
    if p.tracks[t].kind == Wave {
      exclude := false;
      var cs := p.held[t];
      for j := 0 to |cs|
        invariant state.trackExclusions == old(state.trackExclusions)
        invariant ScanClips(t, cs[j..], p.starts, p.lens, t0, t1, state.capturedClipArray)
               == ScanClips(t, cs, p.starts, p.lens, t0, t1, old(state.capturedClipArray))
      {
        var c := cs[j];
        assert cs[j..][1..] == cs[j + 1..];
        if !AfterClip(p.starts, p.lens, c, t0) && !BeforeClip(p.starts, c, t1) && !HasClip(state.capturedClipArray, c) {
          state.capturedClipArray := state.capturedClipArray + [NewTrackClip(t, Some(c))];
        }
      }
      assert cs[|cs|..] == [];
    } else if !HasTrack(state.capturedClipArray, t) {
      state.capturedClipArray := state.capturedClipArray + [NewTrackClip(t, None)];
    }
    if exclude {
      state.trackExclusions := state.trackExclusions + [t];
    }
  }

  /** AddClipsToCaptured(state, viewInfo, t, withinSelection): the selection's span, or the track's own. */
  method AddClipsToCapturedWithin(state: ClipMoveState, p: Project, t: TrackId, withinSelection: bool)
    requires p.Valid() && t < |p.tracks|
    modifies state`capturedClipArray, state`trackExclusions
    ensures state.capturedClipArray == AddToCaptured(p.tracks, p.held, p.starts, p.lens, t,
      if withinSelection then p.sel0 else p.TrackStart(t),
      if withinSelection then p.sel1 else p.TrackEnd(t), old(state.capturedClipArray))
    ensures state.trackExclusions == old(state.trackExclusions) + (if p.tracks[t].kind == Wave then [] else [t])
  {
    if withinSelection {
      AddClipsToCaptured(state, p, t, p.sel0, p.sel1);
    } else {
      AddClipsToCaptured(state, p, t, p.TrackStart(t), p.TrackEnd(t));
    }
  }

  /**
   * The clip of the other channel under the click, captured with a clicked clip of a stereo
   * track: the first clip of the partner channel holding the click's sample, if any does.
   */
  function PartnerClip(ts: seq<Track>, held: seq<seq<ClipId>>, starts: map<ClipId, int>, lens: map<ClipId, nat>,
                       capturedTrack: TrackId, capturedClip: Option<ClipId>, clickTime: int): (r: Option<ClipId>)
    requires WellFormed(ts) && capturedTrack < |ts| && |held| == |ts| && ClipsKnown(held, starts, lens)
    ensures r.Some? ==> capturedClip.Some? && Link(ts, capturedTrack).Some? && r.value in held[Link(ts, capturedTrack).value]
    ensures r.Some? ==> var u := Link(ts, capturedTrack).value; var s := SampleAt(clickTime, ts[u].period);
      s >= 0 && FirstHolding(held[u], starts, lens, s * ts[u].period, r.value)
    ensures r.None? ==>
      capturedClip.None? || Link(ts, capturedTrack).None? ||
      (var u := Link(ts, capturedTrack).value; var s := SampleAt(clickTime, ts[u].period);
       s < 0 || forall c :: c in held[u] ==> !Holds(starts, lens, c, s * ts[u].period))
  {
    var partner := Link(ts, capturedTrack);
    if capturedClip.Some? && partner.Some? then FindClipAtTime(ts, held, starts, lens, partner, clickTime) else None
  }

  /** The array CreateListOfCapturedClips starts from when the click is not in the selection. */
  function ClickedEntries(ts: seq<Track>, held: seq<seq<ClipId>>, starts: map<ClipId, int>, lens: map<ClipId, nat>,
                          capturedTrack: TrackId, capturedClip: Option<ClipId>, clickTime: int): seq<TrackClip>
    requires WellFormed(ts) && capturedTrack < |ts| && |held| == |ts| && ClipsKnown(held, starts, lens)
  {
    var pc := PartnerClip(ts, held, starts, lens, capturedTrack, capturedClip, clickTime);
    [NewTrackClip(capturedTrack, capturedClip)] +
    (if pc.Some? then [NewTrackClip(Link(ts, capturedTrack).value, pc)] else [])
  }

  /** Every whole-track entry added through AddClipsToCaptured has its track in the exclusions. */
  predicate WholeExcluded(es: seq<TrackClip>, from: nat, excl: seq<TrackId>)
  {
    forall k :: from <= k < |es| && es[k].clip.None? ==> es[k].track in excl
  }

  /** Every entry is an overlapping clip of a selected track, or a selected track itself that is not a wave track. */
  ghost predicate FromSelection(ts: seq<Track>, starts: map<ClipId, int>, lens: map<ClipId, nat>,
                                es: seq<TrackClip>, t0: int, t1: int)
  {
    forall k :: 0 <= k < |es| ==>
      && es[k].track < |ts| && ts[es[k].track].selected
      && (es[k].clip.Some? ==> es[k].clip.value in starts && es[k].clip.value in lens &&
                               Overlaps(starts, lens, es[k].clip.value, t0, t1))
      && (es[k].clip.None? ==> ts[es[k].track].kind != Wave)
  }

  lemma ClickedEntriesValid(ts: seq<Track>, held: seq<seq<ClipId>>, starts: map<ClipId, int>, lens: map<ClipId, nat>,
                            capturedTrack: TrackId, capturedClip: Option<ClipId>, clickTime: int)
    requires WellFormed(ts) && capturedTrack < |ts| && |held| == |ts| && ClipsKnown(held, starts, lens)
    requires forall t, u, c :: 0 <= t < |held| && 0 <= u < |held| && t != u && c in held[t] ==> c !in held[u]
    requires capturedClip.Some? ==> capturedClip.value in held[capturedTrack]
    ensures var es := ClickedEntries(ts, held, starts, lens, capturedTrack, capturedClip, clickTime);
      CaptureValid(ts, held, es) && Fresh(es)
  {
    var pc := PartnerClip(ts, held, starts, lens, capturedTrack, capturedClip, clickTime);
    if pc.Some? {
      var partner := Link(ts, capturedTrack).value;
      assert capturedClip.value != pc.value;
    }
  }

  /** The selection branch of CreateListOfCapturedClips: the selected tracks' clips within the selection. */
  method CaptureSelected(state: ClipMoveState, p: Project)
    requires p.Valid()
    requires CaptureValid(p.tracks, p.held, state.capturedClipArray) && Fresh(state.capturedClipArray)
    requires FromSelection(p.tracks, p.starts, p.lens, state.capturedClipArray, p.sel0, p.sel1)
    requires WholeExcluded(state.capturedClipArray, 0, state.trackExclusions)
    modifies state`capturedClipArray, state`trackExclusions
    ensures CaptureValid(p.tracks, p.held, state.capturedClipArray) && Fresh(state.capturedClipArray)
    ensures PrefixOf(old(state.trackExclusions), state.trackExclusions)
    ensures WholeExcluded(state.capturedClipArray, 0, state.trackExclusions)
    ensures FromSelection(p.tracks, p.starts, p.lens, state.capturedClipArray, p.sel0, p.sel1)
    ensures forall t :: 0 <= t < |p.tracks| && p.tracks[t].selected ==>
      Covered(p.tracks, p.held, p.starts, p.lens, state.capturedClipArray, t, p.sel0, p.sel1)
  {
    var ts, held, starts, lens := p.tracks, p.held, p.starts, p.lens;
    for t := 0 to |ts|
      invariant CaptureValid(ts, held, state.capturedClipArray) && Fresh(state.capturedClipArray)
      invariant PrefixOf(old(state.trackExclusions), state.trackExclusions)
      invariant WholeExcluded(state.capturedClipArray, 0, state.trackExclusions)
      invariant FromSelection(ts, starts, lens, state.capturedClipArray, p.sel0, p.sel1)
      invariant forall u :: 0 <= u < t && ts[u].selected ==>
        Covered(ts, held, starts, lens, state.capturedClipArray, u, p.sel0, p.sel1)
    {
      if ts[t].selected {
        var before, exBefore := state.capturedClipArray, state.trackExclusions;
        AddClipsToCapturedWithin(state, p, t, true);
        AddToCapturedValid(ts, held, starts, lens, t, p.sel0, p.sel1, before);
        forall u | 0 <= u < t && ts[u].selected
          ensures Covered(ts, held, starts, lens, state.capturedClipArray, u, p.sel0, p.sel1)
        {
          CoveredGrows(ts, held, starts, lens, before, state.capturedClipArray, u, p.sel0, p.sel1);
        }
        forall k | 0 <= k < |state.capturedClipArray| && state.capturedClipArray[k].clip.None?
          ensures state.capturedClipArray[k].track in state.trackExclusions
        {
          if k < |before| {
            assert state.capturedClipArray[k] == before[k];
            assert before[k].track in exBefore;
          } else {
            assert state.trackExclusions[|exBefore|] == t;
          }
        }
        forall k | 0 <= k < |before| ensures state.capturedClipArray[k] == before[k] {
        }
        assert state.trackExclusions[..|old(state.trackExclusions)|] == exBefore[..|old(state.trackExclusions)|];
      }
    }
  }

  /** The inner loop of the sync-lock closure: AddClipsToCaptured over every track of `group`. */
  method CaptureGroup(state: ClipMoveState, p: Project, group: seq<TrackId>, t0: int, t1: int, from: nat)
    requires p.Valid() && forall k :: 0 <= k < |group| ==> group[k] < |p.tracks|
    requires CaptureValid(p.tracks, p.held, state.capturedClipArray) && Fresh(state.capturedClipArray)
    requires WholeExcluded(state.capturedClipArray, from, state.trackExclusions)
    modifies state`capturedClipArray, state`trackExclusions
    ensures CaptureValid(p.tracks, p.held, state.capturedClipArray) && Fresh(state.capturedClipArray)
    ensures Prefix(old(state.capturedClipArray), state.capturedClipArray)
    ensures PrefixOf(old(state.trackExclusions), state.trackExclusions)
    ensures WholeExcluded(state.capturedClipArray, from, state.trackExclusions)
    ensures forall m :: 0 <= m < |group| ==> Covered(p.tracks, p.held, p.starts, p.lens, state.capturedClipArray, group[m], t0, t1)
    ensures forall k :: |old(state.capturedClipArray)| <= k < |state.capturedClipArray| ==>
      state.capturedClipArray[k].track in group &&
      InSpan(p.tracks, p.held, p.starts, p.lens, state.capturedClipArray[k], t0, t1)
  {
    var ts, held, starts, lens := p.tracks, p.held, p.starts, p.lens;
    ghost var n0 := |state.capturedClipArray|;
    for k := 0 to |group|
      invariant CaptureValid(ts, held, state.capturedClipArray) && Fresh(state.capturedClipArray)
      invariant Prefix(old(state.capturedClipArray), state.capturedClipArray)
      invariant PrefixOf(old(state.trackExclusions), state.trackExclusions)
      invariant WholeExcluded(state.capturedClipArray, from, state.trackExclusions)
      invariant forall m :: 0 <= m < k ==> Covered(ts, held, starts, lens, state.capturedClipArray, group[m], t0, t1)
      invariant forall j :: n0 <= j < |state.capturedClipArray| ==>
        state.capturedClipArray[j].track in group[..k] && InSpan(ts, held, starts, lens, state.capturedClipArray[j], t0, t1)
    {
      var before, exBefore := state.capturedClipArray, state.trackExclusions;
      AddClipsToCaptured(state, p, group[k], t0, t1);
      AddToCapturedValid(ts, held, starts, lens, group[k], t0, t1, before);
      forall j | n0 <= j < |state.capturedClipArray|
        ensures state.capturedClipArray[j].track in group[..k + 1]
        ensures InSpan(ts, held, starts, lens, state.capturedClipArray[j], t0, t1)
      {
        if j < |before| {
          assert state.capturedClipArray[j] == before[j];
          assert group[..k + 1] == group[..k] + [group[k]];
        } else {
          assert state.capturedClipArray[j].track == group[k];
        }
      }
      forall m | 0 <= m < k
        ensures Covered(ts, held, starts, lens, state.capturedClipArray, group[m], t0, t1)
      {
        CoveredGrows(ts, held, starts, lens, before, state.capturedClipArray, group[m], t0, t1);
      }
      forall j | from <= j < |state.capturedClipArray| && state.capturedClipArray[j].clip.None?
        ensures state.capturedClipArray[j].track in state.trackExclusions
      {
        if j < |before| {
          assert state.capturedClipArray[j] == before[j];
          assert before[j].track in exBefore;
        } else {
          assert state.trackExclusions[|exBefore|] == group[k];
        }
      }
      assert state.trackExclusions[..|old(state.trackExclusions)|] == exBefore[..|old(state.trackExclusions)|];
      assert state.capturedClipArray[..|old(state.capturedClipArray)|]
          == state.capturedClipArray[..|before|][..|old(state.capturedClipArray)|];
    }
    assert group[..|group|] == group;
  }

  /**
   * The sync-lock loop of CreateListOfCapturedClips: the array grows while it is scanned, and
   * the scan ends because no duplicate is added and the entries are bounded.
   */
  method CloseUnderSyncLock(state: ClipMoveState, p: Project, from: nat, isSel: bool)
    requires p.Valid()
    requires CaptureValid(p.tracks, p.held, state.capturedClipArray) && Fresh(state.capturedClipArray)
    requires WholeExcluded(state.capturedClipArray, from, state.trackExclusions)
    requires isSel ==> forall t :: 0 <= t < |p.tracks| && p.tracks[t].selected ==>
      Covered(p.tracks, p.held, p.starts, p.lens, state.capturedClipArray, t, p.sel0, p.sel1)
    modifies state`capturedClipArray, state`trackExclusions
    ensures CaptureValid(p.tracks, p.held, state.capturedClipArray) && Fresh(state.capturedClipArray)
    ensures |state.capturedClipArray| <= |p.lens| + |p.tracks|
    ensures Prefix(old(state.capturedClipArray), state.capturedClipArray)
    ensures PrefixOf(old(state.trackExclusions), state.trackExclusions)
    ensures WholeExcluded(state.capturedClipArray, from, state.trackExclusions)
    ensures isSel ==> forall t :: 0 <= t < |p.tracks| && p.tracks[t].selected ==>
      Covered(p.tracks, p.held, p.starts, p.lens, state.capturedClipArray, t, p.sel0, p.sel1)
    ensures forall j :: 0 <= j < |state.capturedClipArray| ==>
      SyncClosedAt(p.tracks, p.held, p.starts, p.lens, state.capturedClipArray, j)
    ensures SyncBrought(p.tracks, p.held, p.starts, p.lens, state.capturedClipArray, |old(state.capturedClipArray)|)
  {
    CaptureBound(p.tracks, p.held, p.lens, state.capturedClipArray);
    var i := 0;
    while i < |state.capturedClipArray|
      invariant 0 <= i <= |state.capturedClipArray| <= |p.lens| + |p.tracks|
      invariant CaptureValid(p.tracks, p.held, state.capturedClipArray) && Fresh(state.capturedClipArray)
      invariant Prefix(old(state.capturedClipArray), state.capturedClipArray)
      invariant PrefixOf(old(state.trackExclusions), state.trackExclusions)
      invariant WholeExcluded(state.capturedClipArray, from, state.trackExclusions)
      invariant isSel ==> forall t :: 0 <= t < |p.tracks| && p.tracks[t].selected ==>
        Covered(p.tracks, p.held, p.starts, p.lens, state.capturedClipArray, t, p.sel0, p.sel1)
      invariant forall j :: 0 <= j < i ==> SyncClosedAt(p.tracks, p.held, p.starts, p.lens, state.capturedClipArray, j)
      invariant SyncBrought(p.tracks, p.held, p.starts, p.lens, state.capturedClipArray, |old(state.capturedClipArray)|)
      decreases |p.lens| + |p.tracks| - i
    {
      CloseEntry(state, p, i, from, isSel, old(state.capturedClipArray), old(state.trackExclusions));
      i := i + 1;
    }
  }

  lemma PrefixTrans(a: seq<TrackClip>, b: seq<TrackClip>, c: seq<TrackClip>)
    requires Prefix(a, b) && Prefix(b, c)
    ensures Prefix(a, c)
  {
    assert c[..|a|] == c[..|b|][..|a|];
  }

  lemma PrefixOfTrans(a: seq<TrackId>, b: seq<TrackId>, c: seq<TrackId>)
    requires PrefixOf(a, b) && PrefixOf(b, c)
    ensures PrefixOf(a, c)
  {
    assert c[..|a|] == c[..|b|][..|a|];
  }

  /**
   * Once the sync group of entry i's clip is covered over the clip's span, entry i is closed,
   * and what was closed or covered before stays so.
   */
  lemma ClosedAfterGroup(ts: seq<Track>, held: seq<seq<ClipId>>, starts: map<ClipId, int>, lens: map<ClipId, nat>,
                         a: seq<TrackClip>, b: seq<TrackClip>, i: nat, isSel: bool, sel0: int, sel1: int)
    requires Prefix(a, b) && i < |a| && a[i].track < |ts| && a[i].clip.Some? && a[i].clip.value in starts && a[i].clip.value in lens
    requires var c := a[i].clip.value; var group := SyncGroup(ts, a[i].track);
      forall m :: 0 <= m < |group| ==> Covered(ts, held, starts, lens, b, group[m], starts[c], starts[c] + lens[c])
    requires forall j :: 0 <= j < i ==> SyncClosedAt(ts, held, starts, lens, a, j)
    requires isSel ==> forall t :: 0 <= t < |ts| && ts[t].selected ==> Covered(ts, held, starts, lens, a, t, sel0, sel1)
    ensures forall j :: 0 <= j <= i ==> SyncClosedAt(ts, held, starts, lens, b, j)
    ensures isSel ==> forall t :: 0 <= t < |ts| && ts[t].selected ==> Covered(ts, held, starts, lens, b, t, sel0, sel1)
  {
    var c := a[i].clip.value;
    var group := SyncGroup(ts, a[i].track);
    assert b[i] == a[i];
    assert SyncClosedAt(ts, held, starts, lens, b, i) by {
      forall g | g in group ensures Covered(ts, held, starts, lens, b, g, starts[c], starts[c] + lens[c]) {
        var m :| 0 <= m < |group| && group[m] == g;
      }
    }
    forall j | 0 <= j < i ensures SyncClosedAt(ts, held, starts, lens, b, j) {
      SyncClosedGrows(ts, held, starts, lens, a, b, j);
    }
    if isSel {
      forall t | 0 <= t < |ts| && ts[t].selected ensures Covered(ts, held, starts, lens, b, t, sel0, sel1) {
        CoveredGrows(ts, held, starts, lens, a, b, t, sel0, sel1);
      }
    }
  }

  /** The entries the sync group of entry i's clip adds are brought in by that clip; the older entries keep their reasons. */
  lemma BroughtAfterGroup(ts: seq<Track>, held: seq<seq<ClipId>>, starts: map<ClipId, int>, lens: map<ClipId, nat>,
                          a: seq<TrackClip>, b: seq<TrackClip>, i: nat, n: nat)
    requires Prefix(a, b) && i < |a| && a[i].track < |ts| && a[i].clip.Some? && a[i].clip.value in starts && a[i].clip.value in lens
    requires SyncBrought(ts, held, starts, lens, a, n)
    requires var c := a[i].clip.value;
      forall k :: |a| <= k < |b| ==>
        b[k].track in SyncGroup(ts, a[i].track) && InSpan(ts, held, starts, lens, b[k], starts[c], starts[c] + lens[c])
    ensures SyncBrought(ts, held, starts, lens, b, n)
  {
    forall k | n <= k < |b| ensures exists j :: 0 <= j < k && BroughtBy(ts, held, starts, lens, b[j], b[k]) {
      if k < |a| {
        var j :| 0 <= j < k && BroughtBy(ts, held, starts, lens, a[j], a[k]);
        assert b[j] == a[j] && b[k] == a[k];
      } else {
        assert b[i] == a[i];
        assert BroughtBy(ts, held, starts, lens, b[i], b[k]);
      }
    }
  }

  /** One turn of the sync-lock loop: the clip of entry i brings in the clips of its sync group that it overlaps. */
  method CloseEntry(state: ClipMoveState, p: Project, i: nat, from: nat, isSel: bool,
                    ghost a0: seq<TrackClip>, ghost x0: seq<TrackId>)
    requires p.Valid() && i < |state.capturedClipArray|
    requires CaptureValid(p.tracks, p.held, state.capturedClipArray) && Fresh(state.capturedClipArray)
    requires Prefix(a0, state.capturedClipArray) && PrefixOf(x0, state.trackExclusions)
    requires WholeExcluded(state.capturedClipArray, from, state.trackExclusions)
    requires isSel ==> forall t :: 0 <= t < |p.tracks| && p.tracks[t].selected ==>
      Covered(p.tracks, p.held, p.starts, p.lens, state.capturedClipArray, t, p.sel0, p.sel1)
    requires forall j :: 0 <= j < i ==> SyncClosedAt(p.tracks, p.held, p.starts, p.lens, state.capturedClipArray, j)
    requires SyncBrought(p.tracks, p.held, p.starts, p.lens, state.capturedClipArray, |a0|)
    modifies state`capturedClipArray, state`trackExclusions
    ensures i < |state.capturedClipArray| <= |p.lens| + |p.tracks|
    ensures CaptureValid(p.tracks, p.held, state.capturedClipArray) && Fresh(state.capturedClipArray)
    ensures Prefix(a0, state.capturedClipArray) && PrefixOf(x0, state.trackExclusions)
    ensures WholeExcluded(state.capturedClipArray, from, state.trackExclusions)
    ensures isSel ==> forall t :: 0 <= t < |p.tracks| && p.tracks[t].selected ==>
      Covered(p.tracks, p.held, p.starts, p.lens, state.capturedClipArray, t, p.sel0, p.sel1)
    ensures forall j :: 0 <= j <= i ==> SyncClosedAt(p.tracks, p.held, p.starts, p.lens, state.capturedClipArray, j)
    ensures SyncBrought(p.tracks, p.held, p.starts, p.lens, state.capturedClipArray, |a0|)
  {
    var tc := state.capturedClipArray[i];
    if tc.clip.Some? {
      var c := tc.clip.value;
      var t0, t1 := p.starts[c], p.starts[c] + p.lens[c];
      var group := SyncGroup(p.tracks, tc.track);
      var entering, exEntering := state.capturedClipArray, state.trackExclusions;
      CaptureGroup(state, p, group, t0, t1, from);
      ClosedAfterGroup(p.tracks, p.held, p.starts, p.lens, entering, state.capturedClipArray, i, isSel, p.sel0, p.sel1);
      BroughtAfterGroup(p.tracks, p.held, p.starts, p.lens, entering, state.capturedClipArray, i, |a0|);
      PrefixTrans(a0, entering, state.capturedClipArray);
      PrefixOfTrans(x0, exEntering, state.trackExclusions);
    }
    CaptureBound(p.tracks, p.held, p.lens, state.capturedClipArray);
  }

  /**
   * CreateListOfCapturedClips: the capture array from scratch, then, with sync-lock on, grown
   * while it is scanned until every clip entry's sync-lock group is covered for that clip's span.
   */
  method CreateListOfCapturedClips(state: ClipMoveState, p: Project, capturedTrack: TrackId,
                                   syncLocked: bool, clickTime: int)
    requires p.Valid() && capturedTrack < |p.tracks|
    requires state.capturedClip.Some? ==> state.capturedClip.value in p.held[capturedTrack]
    modifies state`capturedClipArray, state`trackExclusions
    ensures CaptureValid(p.tracks, p.held, state.capturedClipArray) && Fresh(state.capturedClipArray)
    ensures |state.capturedClipArray| <= |p.lens| + |p.tracks|
    ensures PrefixOf(old(state.trackExclusions), state.trackExclusions)
    ensures WholeExcluded(state.capturedClipArray, if state.capturedClipIsSelection then 0 else 1, state.trackExclusions)
    ensures !state.capturedClipIsSelection ==>
      Prefix(ClickedEntries(p.tracks, p.held, p.starts, p.lens, capturedTrack, state.capturedClip, clickTime),
             state.capturedClipArray)
    ensures !state.capturedClipIsSelection && !syncLocked ==>
      state.capturedClipArray == ClickedEntries(p.tracks, p.held, p.starts, p.lens, capturedTrack, state.capturedClip, clickTime)
    ensures state.capturedClipIsSelection ==>
      forall t :: 0 <= t < |p.tracks| && p.tracks[t].selected ==>
        Covered(p.tracks, p.held, p.starts, p.lens, state.capturedClipArray, t, p.sel0, p.sel1)
    ensures state.capturedClipIsSelection && !syncLocked ==>
      FromSelection(p.tracks, p.starts, p.lens, state.capturedClipArray, p.sel0, p.sel1)
    ensures syncLocked ==> forall j :: 0 <= j < |state.capturedClipArray| ==>
      SyncClosedAt(p.tracks, p.held, p.starts, p.lens, state.capturedClipArray, j)
    ensures !state.capturedClipIsSelection && syncLocked ==>
      SyncBrought(p.tracks, p.held, p.starts, p.lens, state.capturedClipArray,
                  |ClickedEntries(p.tracks, p.held, p.starts, p.lens, capturedTrack, state.capturedClip, clickTime)|)
    ensures state.capturedClipIsSelection && syncLocked ==>
      exists n :: 0 <= n <= |state.capturedClipArray| &&
        FromSelection(p.tracks, p.starts, p.lens, state.capturedClipArray[..n], p.sel0, p.sel1) &&
        SyncBrought(p.tracks, p.held, p.starts, p.lens, state.capturedClipArray, n)
  {
    var ts, held, starts, lens := p.tracks, p.held, p.starts, p.lens;
    var isSel := state.capturedClipIsSelection;
    state.capturedClipArray := [];
    if isSel {
      CaptureSelected(state, p);
    } else {
      state.capturedClipArray :=
        ClickedEntries(ts, held, starts, lens, capturedTrack, state.capturedClip, clickTime);
      ClickedEntriesValid(ts, held, starts, lens, capturedTrack, state.capturedClip, clickTime);
    }
    CaptureBound(ts, held, lens, state.capturedClipArray);
    if syncLocked {
      ghost var start := state.capturedClipArray;
      CloseUnderSyncLock(state, p, if isSel then 0 else 1, isSel);
      assert state.capturedClipArray[..|start|] == start;
    }
  }
}

