# Time-shift drag of tracks and clips

This project models Audacity's time-shift tool as implemented in
`src/tracks/ui/TimeShiftHandle.cpp`: the handle that is grabbed on a track
(or on the grip bands at its edges) and dragged to move audio clips in time,
and across tracks. The model covers:

- the grip hit test;
- how the set of things that move together (the *capture set*) is built at the
  click: the clicked clip and the clip of the other stereo channel under the
  pointer, or everything overlapping the time selection, closed under
  sync-lock groups;
- the dense numbering of audio rows that vertical moves are measured in;
- the rigid offset of the capture set (`DoOffset`);
- the horizontal slide resolver that cuts the slide back toward zero until
  the track of every captured clip accepts it, so that after a slide that is
  not zero no captured clip overlaps a clip of its track that stays
  (`DoSlideHorizontal`);
- snapping of one clip edge (`FindDesiredSlideAmount`);
- the vertical move: destination tracks with the stereo rule, the
  take-out/put-back transaction (`TemporaryClipRemover`), the check with one
  pixel of tolerance then with none, and the fall-back to a horizontal move
  in the clips' own tracks;
- the session operations `Click`, `Drag`, `Release` and `Cancel`.

Time is counted in integer ticks, 705,600,000 to the second. Every common
sample rate then has a whole number of ticks per sample (the track's *sample
period*). Rounding to a sample point becomes rounding to a multiple of that
period, and an offset by d followed by an offset by −d is exact.

The project is a list of tracks (indices into a fixed sequence) and clips
(numbers). `Timeline.Project` is a class whose fields the operations update
in place: the clips each track holds, where each clip starts, the offset of
each track that is not a wave track, the clips' sample periods, the selection
and the undo history. `Capture.ClipMoveState` and `Handle.TimeShiftHandle` are
classes with the fields of the C++ objects of the same names.

Code whose source is not part of this model is taken as a parameter, with
what the model assumes of it stated as a predicate on the parameter:

- `WaveTrack::CanOffsetClip` (`Slide.OffsetQuery`): the amount it allows is
  never beyond the amount asked for (`Slide.OffsetOracle`), and the clip slid
  by the amount it allows overlaps no other clip of the track
  (`Slide.OffsetFits`);
- `WaveTrack::CanInsertClip` (`Vertical.InsertQuery`): with zero tolerance it
  keeps the slide, and it answers yes only when the clip overlaps nothing in
  the track; with a tolerance it moves the slide by at most the tolerance and
  never raises the tolerance (`Vertical.InsertOracle`);
- `SnapManager::Snap` (`Snap.SnapQuery`) and `WaveTrack::GetClipAtX` (an
  optional clip passed to `Click`).

`WaveClip::Offset`, `Track::Offset`, `WaveTrack::RemoveAndReturnClip`,
`WaveTrack::AddClip`, `WaveClip::Resample`, `WaveClip::MarkChanged`,
`SelectedRegion::move`, `PushState` and `RollbackState` are small
`Timeline.Project` methods whose contracts are the behaviour the handle
relies on.

Where the two descriptions differ, the model follows the code:

- When some clip has no destination track, `Drag` returns at once
  (src/tracks/ui/TimeShiftHandle.cpp:624-625). The slide that was undone at
  the start of the event is not redone, so the clips stay at the drag's
  origin for that event.
- When the clips fit in no destination, they go back to their own tracks.
  Every captured clip is offset by the requested slide, but only when each of
  them fits there with it. Whole-track entries are not offset on this path
  (src/tracks/ui/TimeShiftHandle.cpp:685-694). The pointer position then
  becomes the new origin.
- `CanInsertClip` is queried for each clip of the capture set in order. The
  slide it settles on for one clip is passed on to the next, and a failure
  stops the pass.

## Model

| member | source | states |
|---|---|---|
| Geometry.HitTest | src/tracks/ui/TimeShiftHandle.cpp:69-92 | the pointer hits the grip exactly when it is less than 9 pixels from the left edge of the track area or at most 19 pixels from its right edge (14-pixel band, hotspot 5 pixels right of the pointer) |
| Geometry.TimeToPositionInverse | src/tracks/ui/TimeShiftHandle.cpp:369-370 | converting a pixel to a time and back gives the same pixel, so the click position and snap lines are consistent with the time map |
| Geometry.Quantise | src/tracks/ui/TimeShiftHandle.cpp:441-444 | setting a slide to a sample point gives a whole number of sample periods within half a period of the slide |
| Geometry.QuantiseIdempotent | src/tracks/ui/TimeShiftHandle.cpp:441-444 | setting a slide that is already on a sample point to a sample point leaves it as it is |
| Tracks.Link | src/tracks/ui/TimeShiftHandle.cpp:168 | the other channel of a stereo track is another track of the list |
| Tracks.LinkSymmetric | src/tracks/ui/TimeShiftHandle.cpp:211-215 | the partner's partner is the track itself, and both channels are wave tracks |
| Tracks.TrackPosition | src/tracks/ui/TimeShiftHandle.cpp:167-178 | the row number is -1 (not found) or a non-negative row |
| Tracks.NthAudioTrack | src/tracks/ui/TimeShiftHandle.cpp:153-164 | a negative row number finds no track; a track found is a wave track that is not a right channel |
| Tracks.PositionOfTrack | src/tracks/ui/TimeShiftHandle.cpp:153-178 | a track has a row exactly when it is a wave track, and the track at that row is the track itself or, for a right channel, its left channel |
| Tracks.PartnerSamePosition | src/tracks/ui/TimeShiftHandle.cpp:167-178 | both channels of a stereo pair have the same row number |
| Tracks.PositionOfNth | src/tracks/ui/TimeShiftHandle.cpp:153-178 | the row number of the track found at row n is n |
| Tracks.Destination | src/tracks/ui/TimeShiftHandle.cpp:610-621 | an accepted destination keeps a mono clip mono and a stereo clip stereo, on the same channel (left to left, right to right) |
| Tracks.DestinationAccepted | src/tracks/ui/TimeShiftHandle.cpp:610-625 | a destination exists exactly when the row diff rows away exists and has as many channels as the source |
| Tracks.DestinationRow | src/tracks/ui/TimeShiftHandle.cpp:604-621 | the destination is a wave track lying exactly diff rows from the source |
| Tracks.DestinationStays | src/tracks/ui/TimeShiftHandle.cpp:604-621 | at a distance of zero rows, every wave track is its own destination |
| Tracks.SyncGroup | src/tracks/ui/TimeShiftHandle.cpp:270-272 | the sync-lock group of a track holds only tracks of its group, the track itself among them |
| Tracks.GroupFrom | src/tracks/ui/TimeShiftHandle.cpp:270-272 | the group walk from a position lists every track of the group from there on, and no other track |
| Timeline.RemoveElems | src/tracks/ui/TimeShiftHandle.cpp:506-507 | removing a clip from a track's list removes exactly that clip and keeps the list free of repeats |
| Timeline.ClipAtSample | src/tracks/ui/TimeShiftHandle.cpp:189-190 | a clip is found exactly when some clip of the track covers the sample, and it is the first such clip in the track's list |
| Timeline.FirstHoldingUnique | src/tracks/ui/TimeShiftHandle.cpp:189-190 | at most one clip is the first in a track's list to cover a given time |
| Timeline.FindClipAtTime | src/tracks/ui/TimeShiftHandle.cpp:180-193 | with a track given and the time rounded to a sample not before zero, the result is the first clip in the track's list that covers that sample, and none exactly when no clip covers it; with no track or a time before zero, nothing is found |
| Timeline.FindClipAtTimeExact | src/tracks/ui/TimeShiftHandle.cpp:180-193 | a clip is found at a time exactly when the time rounds to a sample not before zero and the clip is the first in the track's list to cover it |
| Timeline.Project.OffsetClip | src/tracks/ui/TimeShiftHandle.cpp:202-203 | offsetting a clip moves its start by the offset and nothing else |
| Timeline.Project.OffsetTrack | src/tracks/ui/TimeShiftHandle.cpp:205-206 | offsetting a wave track moves each of its clips; offsetting another track moves that track's own offset and nothing else |
| Timeline.Project.RemoveAndReturnClip | src/tracks/ui/TimeShiftHandle.cpp:503-507 | the clip leaves the track's list and is handed back when the track held it |
| Timeline.Project.AddClip | src/tracks/ui/TimeShiftHandle.cpp:526-528 | the clip is appended to the destination track's list |
| Timeline.Project.Resample | src/tracks/ui/TimeShiftHandle.cpp:781-782 | the clip takes the new sample period; other clips keep theirs |
| Timeline.Project.MarkChanged | src/tracks/ui/TimeShiftHandle.cpp:783 | the clip is added to the changed clips |
| Timeline.Project.MoveSelection | src/tracks/ui/TimeShiftHandle.cpp:582-585 | both ends of the time selection move by the amount |
| Timeline.Project.PushState | src/tracks/ui/TimeShiftHandle.cpp:801-802 | one history entry with the message and the consolidate flag is appended |
| Timeline.Project.RollbackState | src/tracks/ui/TimeShiftHandle.cpp:807-811 | one roll-back event is appended to the history |
| Capture.ScanClipsSpec | src/tracks/ui/TimeShiftHandle.cpp:109-115 | the scan of a wave track's clips appends, after the existing entries, exactly the clips of the track that overlap the span and were not yet captured |
| Capture.AddToCaptured | src/tracks/ui/TimeShiftHandle.cpp:101-137 | only appends; a new clip entry is an overlapping clip of the track not yet captured; a whole-track entry is added only for a track that is not a wave track and is not yet captured; afterwards the track has nothing left to add for the span; no repeats are introduced |
| Capture.AddToCapturedValid | src/tracks/ui/TimeShiftHandle.cpp:101-137 | adding a track's clips keeps the capture set free of repeats, with every clip in the track its entry names |
| Capture.CaptureBound | src/tracks/ui/TimeShiftHandle.cpp:259-263 | a capture set without repeats has at most as many entries as there are clips plus tracks, which bounds the growing-array loop |
| Capture.ClipMoveState.constructor | src/tracks/ui/TimeShiftHandle.cpp:26-31 | the handle's `mClipMoveState` member, default-constructed with the handle (its header is not part of this model), has nothing captured, no slide and no snap line |
| Capture.ClipMoveState.Clear | src/tracks/ui/TimeShiftHandle.cpp:363 | clearing the drag state restores those defaults |
| Capture.AddClipsToCaptured | src/tracks/ui/TimeShiftHandle.cpp:101-137 | the loop builds exactly `AddToCaptured`, and the track goes into the exclusions exactly when it is not a wave track, even when no entry was added |
| Capture.AddClipsToCapturedWithin | src/tracks/ui/TimeShiftHandle.cpp:141-150 | the span is the time selection when within the selection, and otherwise the track's own extent |
| Capture.PartnerClip | src/tracks/ui/TimeShiftHandle.cpp:243-253 | a partner clip is found exactly when a clip was clicked, the track has a partner, and some clip of the partner covers the click time rounded to the partner's sample; it is the first such clip in the partner's list |
| Capture.ClickedEntriesValid | src/tracks/ui/TimeShiftHandle.cpp:240-253 | the clicked clip and its partner's clip form a valid capture set without repeats |
| Capture.CaptureSelected | src/tracks/ui/TimeShiftHandle.cpp:232-238 | after the selection loop every selected track is covered for the selection span, and every entry is a selected track or an overlapping clip of one |
| Capture.CaptureGroup | src/tracks/ui/TimeShiftHandle.cpp:270-275 | after the group loop every track of the group is covered for the clip's span, the capture set only grew, and every new entry is an overlapping clip of a group track or a whole-track entry for a group track that is not a wave track |
| Capture.CloseUnderSyncLock | src/tracks/ui/TimeShiftHandle.cpp:258-289 | the growing-array loop stops, with the array bounded by clips plus tracks, and leaves every entry closed under its sync-lock group; every entry it adds was brought in by an earlier clip entry, from that clip's sync-lock group and overlapping that clip's span (or a whole track that is not a wave track) |
| Capture.ClosedAfterGroup | src/tracks/ui/TimeShiftHandle.cpp:263-275 | once entry i's group is covered, entries 0..i are sync-lock closed in the grown array, and selection coverage is kept |
| Capture.BroughtAfterGroup | src/tracks/ui/TimeShiftHandle.cpp:263-275 | when every entry a group walk adds comes from the walked clip's group and span, every entry after the starting ones still has an earlier clip entry that brought it in |
| Capture.CreateListOfCapturedClips | src/tracks/ui/TimeShiftHandle.cpp:221-290 | outside the selection the array starts with the clicked clip and then its partner's clip (and is exactly that without sync-lock); in the selection every selected track is covered; with sync-lock every entry's group is covered, and every entry past the clicked clips (or past the selection's entries) was brought in by an earlier clip entry of the same sync-lock group overlapping it; the array has no repeats and is bounded by clips plus tracks |
| Offset.ShiftedCounts | src/tracks/ui/TimeShiftHandle.cpp:199-207 | offsetting entries by d moves each clip and each track offset by d times the number of entries that move it |
| Offset.ShiftedRoundTrip | src/tracks/ui/TimeShiftHandle.cpp:195-218 | offsetting the entries by d and then by -d restores every position |
| Offset.MovesExact | src/tracks/ui/TimeShiftHandle.cpp:199-207 | in a capture set without repeats each clip or track is moved once, and the excluded clip not at all |
| Offset.ShiftedCapture | src/tracks/ui/TimeShiftHandle.cpp:199-207 | each captured clip and captured track moves by exactly d, except the excluded clip; everything outside the capture set stays where it was |
| Offset.DoOffsetRoundTrip | src/tracks/ui/TimeShiftHandle.cpp:195-218 | DoOffset by d then by -d, on the same capture set and track, restores every position |
| Offset.OffsetByZero | src/tracks/ui/TimeShiftHandle.cpp:195-218 | DoOffset by zero moves nothing |
| Offset.ChannelsMoveTogether | src/tracks/ui/TimeShiftHandle.cpp:209-217 | with nothing captured both channels of a stereo track move by the same amount, whichever channel was clicked, and nothing else moves |
| Offset.OffsetCaptured | src/tracks/ui/TimeShiftHandle.cpp:199-207 | the loop over a non-empty capture set gives the positions of offsetting its entries in order |
| Offset.OffsetChannels | src/tracks/ui/TimeShiftHandle.cpp:209-217 | the channel loop starts at the left channel and moves each channel of the clicked track once |
| Offset.DoOffset | src/tracks/ui/TimeShiftHandle.cpp:195-218 | the capture set moves rigidly, or with an empty capture set the clicked track's channels move; the project stays well formed |
| Slide.PassFrom | src/tracks/ui/TimeShiftHandle.cpp:308-332 | a pass never takes the slide beyond the amount it started from (or past zero), and any change drops both snap lines |
| Slide.Resolve | src/tracks/ui/TimeShiftHandle.cpp:305-333 | the do-while ends, with the slide between zero and the requested slide, and the result is either the request unchanged or has both snap lines dropped |
| Slide.ResolveAccepted | src/tracks/ui/TimeShiftHandle.cpp:305-333 | the amount the loop settles on is accepted unchanged for every captured clip, with the other moving clips pushed out of the way, unless it is zero |
| Slide.ResolveClear | src/tracks/ui/TimeShiftHandle.cpp:295-333 | when the loop settles on a slide that is not zero, every captured clip, offset by it, overlaps no clip of its own track that is not captured (no wave track captured whole) |
| Slide.AcceptedClear | src/tracks/ui/TimeShiftHandle.cpp:309-331 | a captured clip whose track accepts the slide unchanged lands clear of each clip of its track that does not move |
| Slide.ResolveZero | src/tracks/ui/TimeShiftHandle.cpp:305-333 | a requested slide of zero stays zero |
| Slide.TestEntry | src/tracks/ui/TimeShiftHandle.cpp:309-331 | testing one clip leaves every clip where it was (the push-away is undone), and takes the allowed amount, or zero when the clip cannot move |
| Slide.Accept | src/tracks/ui/TimeShiftHandle.cpp:321-330 | a different allowed amount replaces the slide and drops the snap lines; a clip that cannot move sets the slide to zero |
| Slide.SlidePass | src/tracks/ui/TimeShiftHandle.cpp:306-332 | one pass leaves every position unchanged and gives the slide state of one pass over the capture set |
| Slide.DoSlideHorizontal | src/tracks/ui/TimeShiftHandle.cpp:292-343 | with clips captured the slide becomes the loop's fixed point, and the capture set is offset once by it and only if it is not zero; with nothing captured the clicked track moves by the slide; after a slide that is not zero, when no wave track is captured whole, no captured clip overlaps a clip of its own track that is not captured |
| Snap.SnappedEdge | src/tracks/ui/TimeShiftHandle.cpp:465-474 | only one edge snaps; when both would, the edge the click was nearer to wins; no edge snaps exactly when neither moved |
| Snap.PointerSlide | src/tracks/ui/TimeShiftHandle.cpp:435-445 | the pointer's travel as a time, over a wave track set to a whole number of sample periods within half a period of the travel |
| Snap.FindDesiredSlideAmount | src/tracks/ui/TimeShiftHandle.cpp:425-494 | zero when moving only up and down; without a snap manager the pointer's travel; otherwise the snapped edge lands exactly on its snap point with its snap line drawn there and the other line cleared, and with no snap the travel is kept and both lines are cleared |
| Snap.UnsnappedSlideOnSample | src/tracks/ui/TimeShiftHandle.cpp:441-490 | when no snap point is near either edge the amount stays on a sample point and no snap line is drawn |
| Snap.OneSnapLine | src/tracks/ui/TimeShiftHandle.cpp:476-489 | at most one snap line is drawn |
| Vertical.AssignDestinations | src/tracks/ui/TimeShiftHandle.cpp:607-627 | the loop succeeds exactly when every captured clip has a destination, and then every clip entry names it; each entry is either unchanged or given its destination |
| Vertical.PlacedRows | src/tracks/ui/TimeShiftHandle.cpp:607-627 | every destination is a wave track exactly diff rows away, with the stereo rule |
| Vertical.RollbackRestores | src/tracks/ui/TimeShiftHandle.cpp:511-531 | taking the clips out and putting each back into its own track restores every track's clips |
| Vertical.TemporaryClipRemover.constructor | src/tracks/ui/TimeShiftHandle.cpp:497-509 | every captured clip leaves its track and is held by its entry; nothing else leaves a track |
| Vertical.TemporaryClipRemover.Fail | src/tracks/ui/TimeShiftHandle.cpp:511-516 | every entry's destination becomes its own track |
| Vertical.TemporaryClipRemover.Finish | src/tracks/ui/TimeShiftHandle.cpp:518-531 | every held clip is added to its destination, which becomes its track; whole-track entries are untouched |
| Vertical.TakeOutClips | src/tracks/ui/TimeShiftHandle.cpp:501-508 | the take-out loop removes exactly the captured clips from the tracks |
| Vertical.PutInClips | src/tracks/ui/TimeShiftHandle.cpp:523-530 | the put-in loop adds to each track exactly the clips whose destination it is |
| Vertical.ZeroTolerancePass | src/tracks/ui/TimeShiftHandle.cpp:656-665 | the pass with no tolerance keeps the slide, and succeeds exactly when every clip fits its destination at that slide |
| Vertical.TolerancePassBound | src/tracks/ui/TimeShiftHandle.cpp:640-651 | the pass with tolerance moves the slide by at most one tolerance per entry, and never raises the tolerance |
| Vertical.FitMeansNoOverlap | src/tracks/ui/TimeShiftHandle.cpp:653-666 | after a successful zero-tolerance pass, no moved clip overlaps a clip left in its destination track |
| Vertical.CheckInsertion | src/tracks/ui/TimeShiftHandle.cpp:643-651 | the checking loop gives the answer of the insertion pass over the capture set, stopping at the first failure |
| Vertical.CheckOwnTracks | src/tracks/ui/TimeShiftHandle.cpp:677-684 | the fall-back check answers whether every clip fits in its own track at the requested slide |
| Vertical.OffsetHeldClips | src/tracks/ui/TimeShiftHandle.cpp:685-694 | each held clip moves by the slide exactly once; nothing else moves |
| Vertical.MovedClipsFit | src/tracks/ui/TimeShiftHandle.cpp:634-666 | a move that goes through lands within one tolerance per entry of the requested slide, and no moved clip overlaps a clip left in its destination |
| Vertical.SameRowPlaced | src/tracks/ui/TimeShiftHandle.cpp:604-627 | with no vertical distance every clip is its own destination, so no move is refused for want of one |
| Vertical.RetryInOwnTracks | src/tracks/ui/TimeShiftHandle.cpp:674-703 | the clips shift by the requested slide exactly when each fits in its own track; then the pointer becomes the origin, the slide is reset and a captured selection moves too |
| Vertical.PutBack | src/tracks/ui/TimeShiftHandle.cpp:668-706 | on failure every track holds again exactly the clips it held before the attempt, each entry is back on its own track, and the clips are shifted only when all fit |
| Vertical.Arrive | src/tracks/ui/TimeShiftHandle.cpp:707-713 | on success every clip is in its destination track, which its entry now names, and the pointer becomes the origin |
| Vertical.MoveVertically | src/tracks/ui/TimeShiftHandle.cpp:599-713 | the outcome is the decision of `Vertical.Verdict`; with no destination nothing is taken out or changed; on success every clip is in its destination and nothing else moves; on failure every track holds what it held, shifted only when all clips fit at the requested slide |
| Handle.PointerTrack | src/tracks/ui/TimeShiftHandle.cpp:557-568 | over no track the captured track is used only while the pointer is within the track area; otherwise the drag does nothing |
| Handle.ReleaseMessage | src/tracks/ui/TimeShiftHandle.cpp:787-800 | a vertical move is recorded as a move to another track; otherwise as a time shift right or left by the size of the slide |
| Handle.MovedBeforeMembers | src/tracks/ui/TimeShiftHandle.cpp:768-785 | the clips marked changed are exactly the captured clips now on another track than at the click |
| Handle.ResampledRates | src/tracks/ui/TimeShiftHandle.cpp:768-785 | each clip now on another track takes that track's sample period; every other clip keeps its own |
| Handle.ResampleMoved | src/tracks/ui/TimeShiftHandle.cpp:768-785 | the loop resamples and marks exactly the clips that changed track |
| Handle.CaptureForClick | src/tracks/ui/TimeShiftHandle.cpp:371-404 | the click is in the selection exactly when the track is selected and the click time is in the half-open selection; over a wave track without shift a clip must be under the pointer, and the capture set is built from it, with sync-lock additions only from earlier clip entries' groups and spans; otherwise nothing is captured |
| Handle.SlideFor | src/tracks/ui/TimeShiftHandle.cpp:719-729 | the slide a drag settles on lies between zero and the request, and is the request unchanged or has both snap lines dropped |
| Handle.SlideForClear | src/tracks/ui/TimeShiftHandle.cpp:295-333 | with clips captured, the positions a settled slide that is not zero leads to keep every captured clip clear of the clips of its track that stay |
| Handle.SlideForAccepted | src/tracks/ui/TimeShiftHandle.cpp:305-333 | with clips captured, a settled slide that is not zero is accepted unchanged by every captured clip |
| Handle.TimeShiftHandle.constructor | src/tracks/ui/TimeShiftHandle.cpp:26-31 | a new handle holds the track and the grip flag, with a cleared drag state |
| Handle.GrabbedWholeNotWave | src/tracks/ui/TimeShiftHandle.cpp:222-253 | a capture set built at a click holds a whole-track entry only for a track that is not a wave track |
| Handle.TimeShiftHandle.Click | src/tracks/ui/TimeShiftHandle.cpp:345-422 | cancelled while audio is active, off a track, or over a wave track with no clip under the pointer (without shift); otherwise the capture set is built (sync-lock additions only from earlier clip entries' groups and spans), the slide is zero, the rectangle and click position are kept, both snap lines are cleared, and the nearer clip edge is preferred for snapping |
| Handle.TimeShiftHandle.Cancel | src/tracks/ui/TimeShiftHandle.cpp:807-811 | the project is rolled back and everything is redrawn |
| Handle.TimeShiftHandle.UndoSlide | src/tracks/ui/TimeShiftHandle.cpp:576-586 | undoing the current slide puts every clip, track and the selection back at the drag's origin |
| Handle.TimeShiftHandle.Slide | src/tracks/ui/TimeShiftHandle.cpp:719-729 | the slide applied from the drag's origin is `SlideFor` of the desired amount: cut back by the resolver until every captured clip accepts it; the selection moves with it; after a slide that is not zero no captured clip overlaps a clip of its track that stays |
| Handle.TimeShiftHandle.SlideAfterMove | src/tracks/ui/TimeShiftHandle.cpp:719-734 | after a move to another track the slide applied is `SlideFor` of what is left of the request, the clips are offset by it from the origin, the selection moves with it, and the new positions become the origin |
| Handle.TimeShiftHandle.Aim | src/tracks/ui/TimeShiftHandle.cpp:588-591 | the desired amount and the snap lines are those of `FindDesiredSlideAmount` from the drag's origin |
| Handle.RelocatedWhole | src/tracks/ui/TimeShiftHandle.cpp:497-531 | moving the clips to their destination tracks keeps whole-track entries on tracks that are not wave tracks |
| Handle.TimeShiftHandle.VerticalStep | src/tracks/ui/TimeShiftHandle.cpp:599-717 | the outcome is the verdict for the row distance to the pointer's track; the clips are relocated as it says; after a move nothing has slid yet, the track is the captured one and the move counts as vertical; with no destination nothing changes; when put back, the clips and the selection are shifted by the request exactly when it fit |
| Handle.TimeShiftHandle.MoveAcross | src/tracks/ui/TimeShiftHandle.cpp:599-736 | the vertical move's verdict and relocation, and after a move to the pointer's track the rest of the slide applied from the origin as `SlideFor` settles it, with the selection following |
| Handle.TimeShiftHandle.Move | src/tracks/ui/TimeShiftHandle.cpp:595-736 | a vertical move is tried exactly when a clip is captured and the pointer is over another wave track, with the result `MoveAcross` states; otherwise the clips are offset from the origin by `SlideFor` of the desired amount (nothing moves when it is zero) and the selection follows |
| Handle.TimeShiftHandle.DragOver | src/tracks/ui/TimeShiftHandle.cpp:571-736 | each drag event starts again from the origin: the desired amount and snap lines are those `FindDesiredSlideAmount` gives there, and the clips, tracks and selection end where `Move` puts them for that amount |
| Handle.TimeShiftHandle.Drag | src/tracks/ui/TimeShiftHandle.cpp:537-737 | while audio is active the project is rolled back and the drag cancelled; over nothing usable nothing changes; otherwise the clips, tracks and selection end where `DragOver` puts them for the track under the pointer, and everything is redrawn |
| Handle.TimeShiftHandle.ClearSnapLines | src/tracks/ui/TimeShiftHandle.cpp:759-763 | both snap lines are cleared, with a redraw exactly when one was drawn |
| Handle.TimeShiftHandle.Commit | src/tracks/ui/TimeShiftHandle.cpp:768-802 | the clips that changed track are resampled and marked, and one history entry is pushed, consolidated exactly when the move was not vertical |
| Handle.TimeShiftHandle.Release | src/tracks/ui/TimeShiftHandle.cpp:748-805 | while audio is active the project is rolled back; otherwise the snap lines are cleared, and only when something moved are the moved clips resampled, a history entry pushed and the scroll bars fixed |

## Left out

- Slide.DoSlideHorizontal: the non-overlap clause is stated for capture sets with no whole-track entry on a wave track, which every capture built at a click satisfies (`Handle.GrabbedWholeNotWave`); `Handle.TimeShiftHandle.Slide` states it outright. Overlap among the captured clips themselves is not stated, since they move rigidly together.
- Cursor and status-message preview (`HitPreview`, `Preview`), `Enter` and `DrawExtras`: screen drawing only.
- `HitAnywhere` and the shared-pointer lifetime of the handle: framework plumbing. `Geometry.HitTest` returns whether the grip was hit rather than a handle.
- The `USE_MIDI` note-track branches: they are compiled conditionally. Note tracks are treated like the other tracks that are not wave tracks.
- Floating point: times are integer ticks. `rint(d * rate) / rate` becomes rounding to the nearest multiple of the sample period, ties to even. `(sampleCount)(time * rate + 0.5)` becomes a division that truncates toward zero.
- The one-pixel tolerance is the ticks per pixel of the linear time map; a fish-eye view is not modelled.
- The `%.02f` formatting of the history message and the undo manager behind `PushState` and `RollbackState`. Each is recorded as a history event: the kind of message with the slide in ticks, and the consolidate flag. `Cancel` records the rollback but does not restore positions.
- The internals of `CanOffsetClip`, `CanInsertClip`, `SnapManager::Snap` and `GetClipAtX`. These are parameters whose assumed contracts are stated.
- The sync-lock group iterator: a group is the tracks with the same group number, in list order.
- The order of a track's clips after a vertical move is rolled back. The model proves that each track holds the same clips, not that they are in the same order.
- `ClipMoveState::clear` and `trackExclusions`: the header is not part of this model. Clearing is assumed to reset every field. The exclusions list is only recorded, because it is used by the snap manager, which is a parameter here.
- `IsAudioActive`, the shift and command keys, the multi-tool mode and `IsSyncLocked` are boolean inputs.
- Handle.TimeShiftHandle.Click: the cell under the pointer is the handle's own captured track, or no track.
- Handle.TimeShiftHandle.Drag: the vertical outcome is a ghost result, used only to state what happened.
- Capture.CloseEntry: the clip's span is read once, before the walk over its sync-lock group. The C++ loop keeps a reference into the capture array (src/tracks/ui/TimeShiftHandle.cpp:264) and reads the clip and its span through it on every turn of the walk (272-274), while the appends at 115 and 132 may reallocate that array and leave the reference dangling. The model follows the evident intent.
