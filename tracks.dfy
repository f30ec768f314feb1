/**
 * The track list as the time-shift code sees it: an ordered list of tracks, stereo pairs
 * made of a "linked" left channel and the track right after it, sync-lock groups, and the
 * dense numbering of audio rows by which vertical drags are measured.
 */
module Tracks {
  import opened Wrappers

  /** A track is named by its index in the track list; the list does not change during a drag. */
  type TrackId = nat
  type ClipId = nat

  datatype Kind = Wave | Label | Note | Time

  /**
   * The attributes of a track that a drag reads. `period` is the sample period of a wave track
   * in ticks, `group` its sync-lock group, and `lo`/`hi` the extent of a non-wave track
   * relative to that track's own time offset.
   */
  datatype Track = Track(kind: Kind, linked: bool, selected: bool, period: int, group: nat, lo: int, hi: int)

  /** Only a wave track is linked, its partner is the next track, a wave track that is not linked itself. */
  ghost predicate WellFormed(ts: seq<Track>)
  {
    && (forall i :: 0 <= i < |ts| ==> ts[i].period > 0 && ts[i].lo <= ts[i].hi)
    && (forall i :: 0 <= i < |ts| && ts[i].linked ==>
          i + 1 < |ts| && ts[i].kind == Wave && ts[i + 1].kind == Wave && !ts[i + 1].linked)
  }

  /** Track::GetLink: the other channel of a stereo pair, if any. */
  function Link(ts: seq<Track>, t: TrackId): (r: Option<TrackId>)
    requires t < |ts|
    ensures r.Some? ==> r.value < |ts| && r.value != t
  {
    if ts[t].linked && t + 1 < |ts| then Some(t + 1)
    else if 0 < t && ts[t - 1].linked then Some(t - 1)
    else None
  }

  predicate IsStereo(ts: seq<Track>, t: TrackId)
    requires t < |ts|
  {
    Link(ts, t).Some?
  }

  /** A row of the audio-track numbering: a wave track that is not the right channel of a pair. */
  predicate IsAudioRow(ts: seq<Track>, i: TrackId)
    requires i < |ts|
  {
    ts[i].kind == Wave && !(0 < i && ts[i - 1].linked)
  }

  /** The row that represents a track: the track itself, or the left channel for a right channel. */
  function LeftOf(ts: seq<Track>, t: TrackId): TrackId
    requires t < |ts|
  {
    if 0 < t && ts[t - 1].linked then t - 1 else t
  }

  lemma LinkSymmetric(ts: seq<Track>, t: TrackId)
    requires WellFormed(ts) && t < |ts| && Link(ts, t).Some?
    ensures Link(ts, Link(ts, t).value) == Some(t)
    ensures ts[Link(ts, t).value].kind == Wave && ts[t].kind == Wave
  {
  }

  /**
   * TrackPosition: the number of audio rows before the row of `find` (found either as the
   * track itself or as its partner), or -1 when no row is that track or its partner.
   */
  function TrackPosition(ts: seq<Track>, find: TrackId): (r: int)
    requires find < |ts|
    ensures r >= -1
  {
    PositionFrom(ts, find, Link(ts, find), 0, 0)
  }

  /** The loop of TrackPosition from track index `i` on, with `nn` rows counted so far. */
  function PositionFrom(ts: seq<Track>, find: TrackId, partner: Option<TrackId>, i: nat, nn: nat): (r: int)
    decreases |ts| - i
    ensures r == -1 || r >= nn
  {
    if i >= |ts| then -1
    else if !IsAudioRow(ts, i) then PositionFrom(ts, find, partner, i + 1, nn)
    else if i == find || partner == Some(i) then nn
    else PositionFrom(ts, find, partner, i + 1, nn + 1)
  }

  /** NthAudioTrack: the `nn`-th audio row, counting from 0; none for a negative or too large index. */
  function NthAudioTrack(ts: seq<Track>, nn: int): (r: Option<TrackId>)
    ensures nn < 0 ==> r == None
    ensures r.Some? ==> r.value < |ts| && IsAudioRow(ts, r.value)
  {
    if nn >= 0 then NthFrom(ts, 0, nn) else None
  }

  /** The loop of NthAudioTrack from track index `i` on, with `nn` more rows to skip. */
  function NthFrom(ts: seq<Track>, i: nat, nn: nat): (r: Option<TrackId>)
    decreases |ts| - i
    ensures r.Some? ==> i <= r.value < |ts| && IsAudioRow(ts, r.value)
  {
    if i >= |ts| then None
    else if !IsAudioRow(ts, i) then NthFrom(ts, i + 1, nn)
    else if nn == 0 then Some(i)
    else NthFrom(ts, i + 1, nn - 1)
  }

  /** What PositionFrom finds is the row NthFrom reaches with the same count. */
  lemma {:induction false} PositionFromFound(ts: seq<Track>, find: TrackId, partner: Option<TrackId>, i: nat, nn: nat)
    ensures var r := PositionFrom(ts, find, partner, i, nn);
      r != -1 ==> NthFrom(ts, i, r - nn).Some? &&
                  (NthFrom(ts, i, r - nn).value == find || partner == NthFrom(ts, i, r - nn))
    decreases |ts| - i
  {
    if i < |ts| {
      if !IsAudioRow(ts, i) {
        PositionFromFound(ts, find, partner, i + 1, nn);
      } else if !(i == find || partner == Some(i)) {
        PositionFromFound(ts, find, partner, i + 1, nn + 1);
      }
    }
  }

  /** PositionFrom finds something whenever a matching row lies ahead. */
  lemma {:induction false} PositionFromReaches(ts: seq<Track>, find: TrackId, partner: Option<TrackId>, i: nat, nn: nat, j: TrackId)
    requires i <= j < |ts| && IsAudioRow(ts, j) && (j == find || partner == Some(j))
    ensures PositionFrom(ts, find, partner, i, nn) != -1
    decreases |ts| - i
  {
    if i < j && !(IsAudioRow(ts, i) && (i == find || partner == Some(i))) {
      PositionFromReaches(ts, find, partner, i + 1, if IsAudioRow(ts, i) then nn + 1 else nn, j);
    }
  }

  /** Counting the rows up to the n-th one gives n back. */
  lemma {:induction false} NthFromPosition(ts: seq<Track>, i: nat, n: nat, nn: nat)
    requires NthFrom(ts, i, n).Some?
    ensures var j := NthFrom(ts, i, n).value; PositionFrom(ts, j, Link(ts, j), i, nn) == nn + n
    decreases |ts| - i
  {
    var j := NthFrom(ts, i, n).value;
    if !IsAudioRow(ts, i) {
      NthFromPosition(ts, i + 1, n, nn);
    } else if n != 0 {
      assert Link(ts, j) != Some(i);
      NthFromPosition(ts, i + 1, n - 1, nn + 1);
    }
  }

  /** Swapping a track and its partner does not change what PositionFrom finds. */
  lemma {:induction false} PositionFromSwap(ts: seq<Track>, a: TrackId, b: TrackId, i: nat, nn: nat)
    ensures PositionFrom(ts, a, Some(b), i, nn) == PositionFrom(ts, b, Some(a), i, nn)
    decreases |ts| - i
  {
    if i < |ts| {
      PositionFromSwap(ts, a, b, i + 1, nn);
      PositionFromSwap(ts, a, b, i + 1, nn + 1);
    }
  }

  /** A wave track has a row; the row is the track itself or its left partner; other tracks have none. */
  lemma PositionOfTrack(ts: seq<Track>, t: TrackId)
    requires WellFormed(ts) && t < |ts|
    ensures TrackPosition(ts, t) != -1 <==> ts[t].kind == Wave
    ensures ts[t].kind == Wave ==> NthAudioTrack(ts, TrackPosition(ts, t)) == Some(LeftOf(ts, t))
  {
    var r := TrackPosition(ts, t);
    PositionFromFound(ts, t, Link(ts, t), 0, 0);
    if ts[t].kind == Wave {
      PositionFromReaches(ts, t, Link(ts, t), 0, 0, LeftOf(ts, t));
    }
    if r != -1 {
      var j := NthFrom(ts, 0, r).value;
      assert j == t || Link(ts, t) == Some(j);
      if j != t {
        LinkSymmetric(ts, t);
      }
    }
  }

  /** Both channels of a stereo pair share one row. */
  lemma PartnerSamePosition(ts: seq<Track>, t: TrackId)
    requires WellFormed(ts) && t < |ts| && Link(ts, t).Some?
    ensures TrackPosition(ts, t) == TrackPosition(ts, Link(ts, t).value)
  {
    LinkSymmetric(ts, t);
    PositionFromSwap(ts, t, Link(ts, t).value, 0, 0);
  }

  /** The row NthAudioTrack returns is numbered n by TrackPosition. */
  lemma PositionOfNth(ts: seq<Track>, n: int)
    requires NthAudioTrack(ts, n).Some?
    ensures TrackPosition(ts, NthAudioTrack(ts, n).value) == n
  {
    NthFromPosition(ts, 0, n, 0);
  }

  /**
   * The destination of a clip on `src` when the pointer is `diff` rows away: the track `diff`
   * rows down (the right channel of that row for a right-channel source), accepted only when
   * both are mono or both stereo with the same left/right role.
   */
  function Destination(ts: seq<Track>, src: TrackId, diff: int): (r: Option<TrackId>)
    requires src < |ts|
    ensures r.Some? ==> r.value < |ts|
    ensures r.Some? ==> (IsStereo(ts, src) <==> IsStereo(ts, r.value))
    ensures r.Some? && IsStereo(ts, src) ==> ts[src].linked == ts[r.value].linked
  {
    var stereo := Link(ts, src).Some?;
    var dst0 := NthAudioTrack(ts, diff + TrackPosition(ts, src));
    var dst := if dst0.Some? && stereo && !ts[src].linked then Link(ts, dst0.value) else dst0;
    if dst.Some? && stereo == Link(ts, dst.value).Some? && (!stereo || ts[src].linked == ts[dst.value].linked)
    then dst else None
  }

  /** A destination exists exactly when the target row exists and has as many channels as the source. */
  lemma DestinationAccepted(ts: seq<Track>, src: TrackId, diff: int)
    requires WellFormed(ts) && src < |ts| && ts[src].kind == Wave
    ensures var row := NthAudioTrack(ts, diff + TrackPosition(ts, src));
      Destination(ts, src, diff).Some? <==> row.Some? && (IsStereo(ts, src) <==> IsStereo(ts, row.value))
  {
    var row := NthAudioTrack(ts, diff + TrackPosition(ts, src));
    if row.Some? && IsStereo(ts, row.value) {
      LinkSymmetric(ts, row.value);
    }
    if IsStereo(ts, src) {
      LinkSymmetric(ts, src);
    }
  }

  /** The destination lies exactly `diff` rows from the source row, and is a wave track. */
  lemma DestinationRow(ts: seq<Track>, src: TrackId, diff: int)
    requires WellFormed(ts) && src < |ts| && Destination(ts, src, diff).Some?
    ensures var d := Destination(ts, src, diff).value;
      ts[d].kind == Wave && TrackPosition(ts, d) == TrackPosition(ts, src) + diff
  {
    var n := diff + TrackPosition(ts, src);
    var row := NthAudioTrack(ts, n).value;
    PositionOfNth(ts, n);
    if Link(ts, src).Some? && !ts[src].linked {
      PartnerSamePosition(ts, row);
    }
  }

  /** With no vertical distance, every wave track is its own destination. */
  lemma DestinationStays(ts: seq<Track>, src: TrackId)
    requires WellFormed(ts) && src < |ts| && ts[src].kind == Wave
    ensures Destination(ts, src, 0) == Some(src)
  {
    PositionOfTrack(ts, src);
    if IsStereo(ts, src) {
      LinkSymmetric(ts, src);
    }
  }

  /** SyncLockedTracksIterator: the tracks of `t`'s sync-lock group, in list order. */
  function SyncGroup(ts: seq<Track>, t: TrackId): (r: seq<TrackId>)
    requires t < |ts|
    ensures forall k :: 0 <= k < |r| ==> r[k] < |ts| && ts[r[k]].group == ts[t].group
    ensures t in r
  {
    GroupFrom(ts, ts[t].group, 0)
  }

  function GroupFrom(ts: seq<Track>, g: nat, i: nat): (r: seq<TrackId>)
    decreases |ts| - i
    ensures forall k :: 0 <= k < |r| ==> i <= r[k] < |ts| && ts[r[k]].group == g
    ensures forall j :: i <= j < |ts| && ts[j].group == g ==> j in r
  {
    if i >= |ts| then []
    else if ts[i].group == g then [i] + GroupFrom(ts, g, i + 1)
    else GroupFrom(ts, g, i + 1)
  }
}
