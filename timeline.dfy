/**
 * The project state a drag works on: which clips each track holds, where clips start, the time
 * offsets of non-wave tracks, the time selection and the undo history. WaveTrack, WaveClip,
 * TrackList, SelectedRegion and UndoManager are not part of this model; the operations below
 * carry the behaviour the drag code relies on, as small methods whose contracts are that
 * behaviour.
 */
module Timeline {
  import opened Wrappers
  import opened Tracks
  import opened Geometry

  function Elems(s: seq<ClipId>): set<ClipId>
  {
    set x | x in s
  }

  predicate Distinct(s: seq<ClipId>)
  {
    forall i, j :: 0 <= i < j < |s| ==> s[i] != s[j]
  }

  /** The clip list after RemoveAndReturnClip: the first occurrence of `c` is taken out. */
  function Remove(s: seq<ClipId>, c: ClipId): (r: seq<ClipId>)
  {
    if s == [] then []
    else if s[0] == c then s[1..]
    else [s[0]] + Remove(s[1..], c)
  }

  lemma {:induction false} RemoveElems(s: seq<ClipId>, c: ClipId)
    requires Distinct(s)
    ensures Distinct(Remove(s, c))
    ensures Elems(Remove(s, c)) == Elems(s) - {c}
  {
    if s != [] && s[0] != c {
      RemoveElems(s[1..], c);
      var r := Remove(s[1..], c);
      assert Elems(s) == {s[0]} + Elems(s[1..]);
      assert Elems([s[0]] + r) == {s[0]} + Elems(r);
      forall i, j | 0 <= i < j < |[s[0]] + r| ensures ([s[0]] + r)[i] != ([s[0]] + r)[j] {
        if i == 0 {
          assert r[j - 1] in Elems(r);
        }
      }
    } else if s != [] {
      assert Elems(s) == {s[0]} + Elems(s[1..]);
      assert s[0] !in Elems(s[1..]);
    }
  }

  /** The clips each track holds, as sets: what "track membership" means. */
  function Membership(held: seq<seq<ClipId>>): (m: seq<set<ClipId>>)
    ensures |m| == |held| && forall t :: 0 <= t < |held| ==> m[t] == Elems(held[t])
  {
    seq(|held|, t requires 0 <= t < |held| => Elems(held[t]))
  }

  /** WaveClip::BeforeClip and AfterClip, on the clip's span [start, start + len). */
  predicate BeforeClip(starts: map<ClipId, int>, c: ClipId, t: int)
    requires c in starts
  {
    t <= starts[c]
  }

  predicate AfterClip(starts: map<ClipId, int>, lens: map<ClipId, nat>, c: ClipId, t: int)
    requires c in starts && c in lens
  {
    t >= starts[c] + lens[c]
  }

  /** Clip `c` slid by `slide` overlaps clip `o`. */
  predicate Clash(starts: map<ClipId, int>, lens: map<ClipId, nat>, c: ClipId, slide: int, o: ClipId)
    requires c in starts && c in lens && o in starts && o in lens
  {
    starts[o] - (starts[c] + lens[c] + slide) < 0 && (starts[c] + slide) - (starts[o] + lens[o]) < 0
  }

  /** Clip `c` holds the instant `x`: x lies in its span [start, start + len). */
  predicate Holds(starts: map<ClipId, int>, lens: map<ClipId, nat>, c: ClipId, x: int)
    requires c in starts && c in lens
  {
    starts[c] <= x < starts[c] + lens[c]
  }

  /** `c` is the first clip of `cs` that holds `x`. */
  ghost predicate FirstHolding(cs: seq<ClipId>, starts: map<ClipId, int>, lens: map<ClipId, nat>, x: int, c: ClipId)
    requires forall c :: c in cs ==> c in starts && c in lens
  {
    exists i :: 0 <= i < |cs| && cs[i] == c && Holds(starts, lens, c, x) &&
      forall j :: 0 <= j < i ==> !Holds(starts, lens, cs[j], x)
  }

  /** The first clip holding `x` is unique. */
  lemma FirstHoldingUnique(cs: seq<ClipId>, starts: map<ClipId, int>, lens: map<ClipId, nat>, x: int, c: ClipId, d: ClipId)
    requires forall c :: c in cs ==> c in starts && c in lens
    requires FirstHolding(cs, starts, lens, x, c) && FirstHolding(cs, starts, lens, x, d)
    ensures c == d
  {
    var i :| 0 <= i < |cs| && cs[i] == c && Holds(starts, lens, c, x) &&
      forall j :: 0 <= j < i ==> !Holds(starts, lens, cs[j], x);
    var k :| 0 <= k < |cs| && cs[k] == d && Holds(starts, lens, d, x) &&
      forall j :: 0 <= j < k ==> !Holds(starts, lens, cs[j], x);
    assert i == k;
  }

  /**
   * The first clip of `cs` holding sample `s` (WaveTrack::GetClipAtSample): found exactly when
   * some clip holds the sample's instant, and then the first such clip of the list.
   */
  function ClipAtSample(cs: seq<ClipId>, starts: map<ClipId, int>, lens: map<ClipId, nat>, s: int, period: int): (r: Option<ClipId>)
    requires forall c :: c in cs ==> c in starts && c in lens
    ensures r.Some? ==> r.value in cs && FirstHolding(cs, starts, lens, s * period, r.value)
    ensures r.None? ==> forall c :: c in cs ==> !Holds(starts, lens, c, s * period)
    decreases |cs|
  {
    if cs == [] then None
    else if starts[cs[0]] <= s * period < starts[cs[0]] + lens[cs[0]] then
      assert cs[0] == cs[0] && Holds(starts, lens, cs[0], s * period);
      Some(cs[0])
    else
      var r := ClipAtSample(cs[1..], starts, lens, s, period);
      FirstHoldingCons(cs, starts, lens, s * period, r);
      r
  }

  /** A first holder in the tail is the first holder of the list when the head does not hold `x`. */
  lemma FirstHoldingCons(cs: seq<ClipId>, starts: map<ClipId, int>, lens: map<ClipId, nat>, x: int, r: Option<ClipId>)
    requires |cs| > 0 && forall c :: c in cs ==> c in starts && c in lens
    requires !Holds(starts, lens, cs[0], x)
    requires r.Some? ==> r.value in cs[1..] && FirstHolding(cs[1..], starts, lens, x, r.value)
    requires r.None? ==> forall c :: c in cs[1..] ==> !Holds(starts, lens, c, x)
    ensures r.Some? ==> r.value in cs && FirstHolding(cs, starts, lens, x, r.value)
    ensures r.None? ==> forall c :: c in cs ==> !Holds(starts, lens, c, x)
  {
    if r.Some? {
      var tl := cs[1..];
      var i :| 0 <= i < |tl| && tl[i] == r.value && Holds(starts, lens, r.value, x) &&
        forall j :: 0 <= j < i ==> !Holds(starts, lens, tl[j], x);
      assert cs[i + 1] == r.value;
      forall j | 0 <= j < i + 1 ensures !Holds(starts, lens, cs[j], x) {
        if j > 0 {
          assert cs[j] == tl[j - 1];
        }
      }
    } else {
      forall c | c in cs ensures !Holds(starts, lens, c, x) {
        if c != cs[0] {
          assert c in cs[1..];
        }
      }
    }
  }

  /** Every clip a track holds has a start time and a length. */
  predicate ClipsKnown(held: seq<seq<ClipId>>, starts: map<ClipId, int>, lens: map<ClipId, nat>)
  {
    forall t, c :: 0 <= t < |held| && c in held[t] ==> c in starts && c in lens
  }

  /** The clip's span meets [t0, t1]: neither AfterClip(t0) nor BeforeClip(t1). */
  predicate Overlaps(starts: map<ClipId, int>, lens: map<ClipId, nat>, c: ClipId, t0: int, t1: int)
    requires c in starts && c in lens
  {
    !AfterClip(starts, lens, c, t0) && !BeforeClip(starts, c, t1)
  }

  datatype HistoryMessage = MovedToAnotherTrack | TimeShifted(rightward: bool, ticks: nat)
  datatype HistoryEvent = Pushed(message: HistoryMessage, consolidate: bool) | RolledBack

  /** Where everything a drag can move is: clip start times and non-wave track offsets. */
  datatype Positions = Positions(starts: map<ClipId, int>, shift: seq<int>)

  function Min(a: int, b: int): int { if a <= b then a else b }
  function Max(a: int, b: int): int { if a >= b then a else b }

  /** WaveTrack::GetStartTime: the earliest clip start, 0 for a track without clips. */
  function EarliestStart(cs: seq<ClipId>, starts: map<ClipId, int>): int
    requires forall c :: c in cs ==> c in starts
  {
    if |cs| == 0 then 0
    else if |cs| == 1 then starts[cs[0]]
    else Min(starts[cs[0]], EarliestStart(cs[1..], starts))
  }

  /** WaveTrack::GetEndTime: the latest clip end, 0 for a track without clips. */
  function LatestEnd(cs: seq<ClipId>, starts: map<ClipId, int>, lens: map<ClipId, nat>): int
    requires forall c :: c in cs ==> c in starts && c in lens
  {
    if |cs| == 0 then 0
    else if |cs| == 1 then starts[cs[0]] + lens[cs[0]]
    else Max(starts[cs[0]] + lens[cs[0]], LatestEnd(cs[1..], starts, lens))
  }

  /** Track::GetStartTime at positions P: a wave track's earliest clip, another track's own extent. */
  function TrackStartAt(ts: seq<Track>, held: seq<seq<ClipId>>, lens: map<ClipId, nat>, P: Positions, t: TrackId): int
    requires t < |ts| && t < |held| && t < |P.shift| && ClipsKnown(held, P.starts, lens)
  {
    if ts[t].kind == Wave then EarliestStart(held[t], P.starts) else P.shift[t] + ts[t].lo
  }

  /** Track::GetEndTime at positions P. */
  function TrackEndAt(ts: seq<Track>, held: seq<seq<ClipId>>, lens: map<ClipId, nat>, P: Positions, t: TrackId): int
    requires t < |ts| && t < |held| && t < |P.shift| && ClipsKnown(held, P.starts, lens)
  {
    if ts[t].kind == Wave then LatestEnd(held[t], P.starts, lens) else P.shift[t] + ts[t].hi
  }

  /** TrackList::GetStartTime at positions P, over the tracks from `i` on. */
  function ListStartAt(ts: seq<Track>, held: seq<seq<ClipId>>, lens: map<ClipId, nat>, P: Positions, i: nat): int
    requires |held| == |ts| && |P.shift| == |ts| && ClipsKnown(held, P.starts, lens)
    decreases |ts| - i
  {
    if i >= |ts| then 0
    else if i + 1 == |ts| then TrackStartAt(ts, held, lens, P, i)
    else Min(TrackStartAt(ts, held, lens, P, i), ListStartAt(ts, held, lens, P, i + 1))
  }

  /** TrackList::GetEndTime at positions P, over the tracks from `i` on. */
  function ListEndAt(ts: seq<Track>, held: seq<seq<ClipId>>, lens: map<ClipId, nat>, P: Positions, i: nat): int
    requires |held| == |ts| && |P.shift| == |ts| && ClipsKnown(held, P.starts, lens)
    decreases |ts| - i
  {
    if i >= |ts| then 0
    else if i + 1 == |ts| then TrackEndAt(ts, held, lens, P, i)
    else Max(TrackEndAt(ts, held, lens, P, i), ListEndAt(ts, held, lens, P, i + 1))
  }

  class Project {
    const tracks: seq<Track>
    const lens: map<ClipId, nat>
    const zoom: Zoom
    var held: seq<seq<ClipId>>
    var starts: map<ClipId, int>
    var shift: seq<int>
    var clipPeriod: map<ClipId, int>
    var changed: set<ClipId>
    var sel0: int
    var sel1: int
    var history: seq<HistoryEvent>

    /** Every clip belongs to at most one track, once; only wave tracks hold clips. */
    ghost predicate Valid()
      reads this`held, this`starts, this`shift
    {
      && WellFormed(tracks) && zoom.ticksPerPixel > 0
      && |held| == |tracks| && |shift| == |tracks|
      && starts.Keys == lens.Keys
      && (forall t :: 0 <= t < |held| ==> Distinct(held[t]))
      && ClipsKnown(held, starts, lens)
      && (forall t :: 0 <= t < |held| && tracks[t].kind != Wave ==> held[t] == [])
      && (forall t, u, c :: 0 <= t < |held| && 0 <= u < |held| && t != u && c in held[t] ==> c !in held[u])
    }

    /** Every clip has a sample period. */
    ghost predicate Rated()
      reads this`clipPeriod
    {
      clipPeriod.Keys == lens.Keys
    }

    function Pos(): Positions
      reads this`starts, this`shift
    {
      Positions(starts, shift)
    }

    /** Track::GetStartTime and GetEndTime. */
    function TrackStart(t: TrackId): int
      reads this
      requires Valid() && t < |tracks|
    {
      TrackStartAt(tracks, held, lens, Pos(), t)
    }

    function TrackEnd(t: TrackId): int
      reads this
      requires Valid() && t < |tracks|
    {
      TrackEndAt(tracks, held, lens, Pos(), t)
    }

    /** WaveClip::Offset. */
    method OffsetClip(c: ClipId, d: int)
      requires Valid() && c in starts
      modifies this`starts
      ensures Valid()
      ensures starts == old(starts)[c := old(starts)[c] + d]
    {
      starts := starts[c := starts[c] + d];
    }

    /** Track::Offset: a wave track moves all the clips it holds, any other track its own offset. */
    method OffsetTrack(t: TrackId, d: int)
      requires Valid() && t < |tracks|
      modifies this`starts, this`shift
      ensures Valid()
      ensures tracks[t].kind == Wave ==>
        starts == (map c | c in old(starts) :: if c in held[t] then old(starts)[c] + d else old(starts)[c]) &&
        shift == old(shift)
      ensures tracks[t].kind != Wave ==> shift == old(shift)[t := old(shift)[t] + d] && starts == old(starts)
    {
      if tracks[t].kind == Wave {
        starts := map c | c in starts :: if c in held[t] then starts[c] + d else starts[c];
      } else {
        shift := shift[t := shift[t] + d];
      }
    }

    /** WaveTrack::RemoveAndReturnClip: detach the clip, handing it to the caller. */
    method RemoveAndReturnClip(t: TrackId, c: ClipId) returns (holder: Option<ClipId>)
      requires Valid() && t < |held|
      modifies this`held
      ensures Valid()
      ensures held == old(held)[t := Remove(old(held)[t], c)]
      ensures Elems(held[t]) == Elems(old(held)[t]) - {c}
      ensures holder == if c in old(held)[t] then Some(c) else None
    {
      holder := if c in held[t] then Some(c) else None;
      RemoveElems(held[t], c);
      ghost var before := held;
      held := held[t := Remove(held[t], c)];
      forall u, x | 0 <= u < |held| && x in held[u] ensures x in before[u] {
        assert x in Elems(held[u]);
      }
    }

    /** WaveTrack::AddClip: the track takes ownership of a detached clip, at the end of its list. */
    method AddClip(t: TrackId, c: ClipId)
      requires Valid() && t < |held| && tracks[t].kind == Wave && c in lens
      requires forall u :: 0 <= u < |held| ==> c !in held[u]
      modifies this`held
      ensures Valid()
      ensures held == old(held)[t := old(held)[t] + [c]]
      ensures Elems(held[t]) == Elems(old(held)[t]) + {c}
    {
      held := held[t := held[t] + [c]];
    }

    /** WaveClip::Resample: the clip takes the sample period of its new track. */
    method Resample(c: ClipId, period: int)
      requires c in clipPeriod
      modifies this`clipPeriod
      ensures clipPeriod == old(clipPeriod)[c := period]
    {
      clipPeriod := clipPeriod[c := period];
    }

    /** WaveClip::MarkChanged. */
    method MarkChanged(c: ClipId)
      modifies this`changed
      ensures changed == old(changed) + {c}
    {
      changed := changed + {c};
    }

    /** SelectedRegion::move. */
    method MoveSelection(d: int)
      modifies this`sel0, this`sel1
      ensures sel0 == old(sel0) + d && sel1 == old(sel1) + d
    {
      sel0, sel1 := sel0 + d, sel1 + d;
    }

    /** AudacityProject::PushState and RollbackState, recorded as history events. */
    method PushState(message: HistoryMessage, consolidate: bool)
      modifies this`history
      ensures history == old(history) + [Pushed(message, consolidate)]
    {
      history := history + [Pushed(message, consolidate)];
    }

    method RollbackState()
      modifies this`history
      ensures history == old(history) + [RolledBack]
    {
      history := history + [RolledBack];
    }
  }

  /**
   * FindClipAtTime: the clip of `t` under `time`, rounding the time to the nearest sample; none
   * for no track or a time before the first sample, otherwise the first clip of the track that
   * holds the sample, if any does.
   */
  function FindClipAtTime(ts: seq<Track>, held: seq<seq<ClipId>>, starts: map<ClipId, int>, lens: map<ClipId, nat>,
                          t: Option<TrackId>, time: int): (r: Option<ClipId>)
    requires t.Some? ==> t.value < |ts| && t.value < |held| && ts[t.value].period > 0
    requires t.Some? ==> forall c :: c in held[t.value] ==> c in starts && c in lens
    ensures r.Some? ==> t.Some? && r.value in held[t.value]
    ensures r.Some? ==> var period := ts[t.value].period; var s := SampleAt(time, period);
      s >= 0 && FirstHolding(held[t.value], starts, lens, s * period, r.value)
    ensures r.None? ==>
      t.None? ||
      (var period := ts[t.value].period; var s := SampleAt(time, period);
       s < 0 || forall c :: c in held[t.value] ==> !Holds(starts, lens, c, s * period))
  {
    match t
    case None => None
    case Some(tr) =>
      var s0 := SampleAt(time, ts[tr].period);
      if s0 >= 0 then ClipAtSample(held[tr], starts, lens, s0, ts[tr].period) else None
  }

  /** FindClipAtTime names a clip exactly when it is the first clip of the track holding the rounded sample. */
  lemma FindClipAtTimeExact(ts: seq<Track>, held: seq<seq<ClipId>>, starts: map<ClipId, int>, lens: map<ClipId, nat>,
                            t: TrackId, time: int, c: ClipId)
    requires t < |ts| && t < |held| && ts[t].period > 0
    requires forall c :: c in held[t] ==> c in starts && c in lens
    ensures var period := ts[t].period; var s := SampleAt(time, period);
      FindClipAtTime(ts, held, starts, lens, Some(t), time) == Some(c) <==>
        s >= 0 && c in held[t] && FirstHolding(held[t], starts, lens, s * period, c)
  {
    var period := ts[t].period;
    var s := SampleAt(time, period);
    var r := FindClipAtTime(ts, held, starts, lens, Some(t), time);
    if s >= 0 && c in held[t] && FirstHolding(held[t], starts, lens, s * period, c) {
      var i :| 0 <= i < |held[t]| && held[t][i] == c && Holds(starts, lens, c, s * period) &&
        forall j :: 0 <= j < i ==> !Holds(starts, lens, held[t][j], s * period);
      assert r.Some?;
      FirstHoldingUnique(held[t], starts, lens, s * period, r.value, c);
    }
  }
}
