# go-librespot in Dafny

A model of the hard core of go-librespot, a Spotify Connect daemon, with proofs
about all its inputs and all its runs. Each component that the daemon updates in
place is a class whose methods are proved against functions on values; the laws
are lemmas about those functions and about whole runs of them.

- `Crossfade.dfy`, `SwitchingSource.dfy`, `CrossfadeRuns.dfy`, `QueueRuns.dfy`: the audio
  source that keeps the end of a track in a lookahead ring and fades it into the next track.
  Samples are reals, gain curves are any function of frame and fade length, and a
  decoder is a sequence handed out in chunks of any size, which may fail.
- `PagedTracks.dfy`, `Shuffling.dfy`, `TrackListModel.dfy`, `TrackListProofs.dfy`,
  `TrackList.dfy`: the track list, paged lazily, with a cursor, a queue, injected
  tracks and a shuffle undone by replaying its seed. A context is any function from
  page numbers to pages, the random source any function of the seed and of the
  bounds asked for so far. Whether a fetch fails, or a walk runs out of time, is
  chosen freely, except that requests for an online list do not fail.
- `LoaderModel.dfy`, `LoaderAnswers.dfy`, `LoaderLane.dfy`, `SkipBursts.dfy`,
  `SkipTracks.dfy`: the loader lane with its four classes of jobs, and the player loop's
  generations on top of it. A run is any sequence of submissions, steps of the worker,
  results received and closing.
- `StatePush.dfy`: the queue of connect-state pushes.
- `ChunkCache.dfy`, `ChunkedReader.dfy`, `Decryptor.dfy`: the chunk cache under every
  interleaving of its threads, reading by byte ranges (inclusive, section 14.1.2 of
  RFC 9110), and counter mode (section 6.5 of NIST SP 800-38A) over any block cipher.
- `PlaylistEdits.dfy`: reading and changing a playlist that others change at the same
  time. A server accepts a change only on top of its current revision.
- `ListingCache.dfy`: the cache of context listings and its invalidation.
- `Hashcash.dfy`, `SpotifyIds.dfy`, `CacheLimiter.dfy`, `BigEndian.dfy`, `Numbers.dfy`: the
  login challenge, ids and uris, the cache size limit, and the numbers behind them.

## Where the code and what is said of it differ

The model follows the code. These promises do not hold of it as stated; each has a
lemma with the exact condition under which it holds, and where that is not plain from
the condition another with an input that breaks it.

- A shuffle is undone by its seed only if the seed, a random number plus one in 64
  bits, has not wrapped to zero, which marks a list never shuffled. Otherwise the list
  is loaded again, up to the current track only (`WrappedSeed`).
- A full push queue drops the push just submitted when that is a player state and
  the rest are transitions (`SubmitKeepsNewest`).
- A playlist is read completely only if no page is empty and says there is more
  (`ReadsOneRevision`).
- The listing cache tells generations apart only up to 2^64 (`StepFresh`).
- A job's reply is written once, except that of a job whose result is still in the
  channel when the lane closes, which is never written (`ClosedLane`, `LeftUnanswered`).
- Walking the cache directory again counts its files again (`Init`).
- A uri parses back only if its type is a word; that of the unknown type does not
  (`UriRoundTrip`).

Three more things follow from the code that its comments do not mention: a skip turned
away by a full lane still cancels the load in flight (`TurningAway`), a decoder that
fails during a fade loses the samples it returned with the error (`ReadFade`), and a
transition submitted to a closed push lane is dropped (`TransitionsKeptIff`).

## Model

| member | source | states |
|---|---|---|
| `CrossfadeRuns.PlayPair` | player/source.go:188-391 | For a track with the next one waiting and any read sizes of at least a frame, everything served is a prefix of the crossfaded pair (A without its tail, the clamped mix of A's tail with B's start and silence past B's end, then the rest of B), and exactly that once the end is reported; given the fade length nothing depends on how reads or decoders chunk; the end is reached after enough reads; the failures reported are those of the decoders, one each; each cuts at most one stretch out of what is heard of B, and decoders that do not fail lose nothing |
| `CrossfadeRuns.CrossfadedSample` | player/source.go:307-337 | The crossfaded pair sample by sample, in plain arithmetic: A up to the fade; in it A's sample times the fade-out gain of its frame plus B's, while it lasts, times the fade-in gain, brought within -1 and 32767/32768; then the rest of B |
| `CrossfadeRuns.BuildReserve` | player/source.go:198-236 | With buffers shorter than 16384 samples, the reserve of crossfadeSamples is complete after any number of reads whose gains of 16384 less the buffer length add up to it; it stops short of that only if the track has been read to its end or its decoder has failed |
| `CrossfadeRuns.PlayIntoFade` | player/source.go:225-263 | Once the reserve is complete it stays so at every later read; with the next track waiting a hand-over has a fade of exactly crossfadeSamples, and comes once there were more reads than samples left, unless the decoder fails or had failed before |
| `CrossfadeRuns.PairRead` | player/source.go:120-129 | One read of such a run extends what was served by what it returned and makes progress unless it reports the end or a failure; what is heard of the second track changes only with a failure during a fade, by exactly the samples that came with it; every decoder failure is reported or pending, once |
| `CrossfadeRuns.DecodingRead` | player/source.go:198-236 | One read while a track decodes never lets a complete reserve shrink below crossfadeSamples, and otherwise gains at least 16384 less the buffer length; decoding stops only at the end of the track or with a failure of its decoder |
| `CrossfadeRuns.ReservedRead` | player/source.go:198-263 | One read with the reserve complete and the next track waiting: it goes on so, or hands over with the full fade, or the decoder has failed |
| `QueueRuns.PlayQueue` | player/source.go:109-344 | Any sequence of reads and of SetSecondary calls, over any number of tracks, queued early, late, during a fade or after the end: what was served is a prefix of what the tracks played make up, each overlapping the next by its fade of at most crossfadeSamples, and all of it once the end is reported; each track played was waiting at the start or queued since; without failures, and no source twice, each is heard in full; decoders that do not fail cause none; every read without an error serves something or hands over; a track that declines to be crossfaded hands over without a fade, once it began at a clean boundary |
| `QueueRuns.ReadStep` | player/source.go:120-129 | One read of such a run goes on with the track playing or hands over to the one waiting, and touches no other source |
| `QueueRuns.RunServed` | player/source.go:188-344 | In every state what was served is a prefix of the run's output, and all of it when neither ring nor decoder has anything left |
| `QueueRuns.OutputSample` | player/source.go:284-344 | The same for the output of any number of tracks |
| `Mixing.OutputOfTwo` | player/source.go:284-344 | The output of a run of two tracks, defined leg by leg without reads, is the overlap of the two |
| `Mixing.OverlapSample` | player/source.go:311-335 | A sample of a fade in plain arithmetic |
| `Accounting.ServeFade` | player/source.go:307-337 | Serving mixed samples moves the account of a fade on: tail, incoming track and what was served stay consistent with the run's output |
| `Accounting.HandOver` | player/source.go:257-262 | Promoting the next track turns what is buffered into the tail of a fade without losing or repeating a sample |
| `Accounting.EndFade` | player/source.go:339-341 | When the tail is used up the account is that of plain playback from where the incoming track's share of the fade ended |
| `Accounting.ServedIsPrefix` | player/source.go:188-344 | In every state of a run, fading or not, what was served is the beginning of the run's output |
| `SwitchingSource.SwitchingAudioSource.Read` | player/source.go:120-129 | One read serves the next samples of the run and nothing else, after failures too; the track changes only at its end, with a fade of all that was buffered then (none on the direct path); the end is reported once; every decoder failure is reported or pending, once; a failure during a fade cuts exactly the samples that came with it out of the incoming track; a track that declines crossfading is heard to its end alone |
| `SwitchingSource.SwitchingAudioSource.ReadCrossfade` | player/source.go:188-282 | The buffered path, with the same account after every outcome; the reserve survives every read of a decoding track |
| `SwitchingSource.SwitchingAudioSource.ReadAhead` | player/source.go:204-281 | Outside a fade: refills the lookahead and serves from it, with the same account |
| `SwitchingSource.SwitchingAudioSource.ReadFade` | player/source.go:286-344 | One read of a fade serves the next whole frames of the mix; a decoder failure serves nothing, and the fade goes on as if the incoming track had never had the samples that came with it; the fade ends when its tail is used up |
| `SwitchingSource.SwitchingAudioSource.FadeChunk` | player/source.go:295-337 | One chunk of a fade, either mixed and served or failed |
| `Accounting.CutFade` | player/source.go:300-305 | Throwing samples of the incoming track away during a fade keeps the account for the track without them |
| `SwitchingSource.SwitchingAudioSource.ReadDirect` | player/source.go:154-180 | Without lookahead every sample of the decoder is served at once and the switch at the end of a track has no fade |
| `SwitchingSource.SwitchingAudioSource.EndDirect` | player/source.go:161-174 | The end of a track without lookahead is reported, and lets the end through or goes on to the one waiting |
| `SwitchingSource.SwitchingAudioSource.ServeLookahead` | player/source.go:225-281 | Each case of serving from the lookahead: above the reserve while decoding, all of it before a pending error, what exceeds the fade before one, the fade, the last track's tail |
| `SwitchingSource.SwitchingAudioSource.Fill` | player/source.go:204-223 | Refilling takes samples off the decoder in order, stops at the ring's end, the budget, the end of the track or an error, and leaves something to serve otherwise |
| `SwitchingSource.SwitchingAudioSource.StartFade` | player/source.go:254-263 | Ending a track with the next one waiting reports it done once, promotes the next one, fades all that is buffered and serves the first of the fade |
| `SwitchingSource.SwitchingAudioSource.DrainTail` | player/source.go:266-280 | The last track's tail is played out in order and the end reported exactly when nothing is left |
| `SwitchingSource.SwitchingAudioSource.SetPrimary` | player/source.go:83-107 | Setting the source already playing leaves any fade in progress alone; any other cuts the run; a source is never in both slots |
| `SwitchingSource.SwitchingAudioSource.SetSecondary` | player/source.go:109-114 | The next track is installed without disturbing the run |
| `SwitchingSource.SwitchingAudioSource.ReportDone` | player/source.go:393-404 | Signals once until re-armed |
| `SwitchingSource.SwitchingAudioSource.constructor` | player/source.go:60-81 | The crossfade length is rounded down to whole frames, negative ones to none |
| `LookaheadRing.Lookahead.Pop` | player/source.go:378-391 | Takes the oldest samples out of the ring in order, a whole number of frames, however the ring wraps |
| `LookaheadRing.Lookahead.ReadFrom` | player/source.go:207-216 | A bounded read lands behind what the ring holds and leaves that untouched |
| `LookaheadRing.Lookahead.FreeChunk` | player/source.go:369-373 | The free part of the ring that can be written at once |
| `TrackListRuns.ShuffleOnOff` | tracks/tracks.go:440-494 | Shuffle on, any steps that load nothing new, shuffle off: the fully loaded list comes back exactly, with the cursor on the track it was on, for every random source, length and position, unless the seed wrapped to zero |
| `TrackListRuns.WrappedSeed` | tracks/tracks.go:464-516 | When the seed does wrap to zero the list is loaded again instead, whatever was done in between: it is what was loaded if and only if nothing had been injected and the track current by then is on the last loaded page only, and the cursor is on that track's first occurrence |
| `TrackListRuns.RefetchRestores` | tracks/tracks.go:495-516 | The same for every list that cannot be replayed, because its seed wrapped or because it grew while shuffled |
| `TrackListRuns.SeekLastPage` | tracks/tracks.go:143-165 | A seek that has to fetch finds its match on the last page it fetched |
| `TrackListRuns.WrappedSeedLosesPages` | tracks/tracks.go:464-516 | A list of two pages that loses the second through a wrapped seed |
| `TrackListRuns.ShuffleOnRestores` | tracks/tracks.go:445-481 | Shuffling permutes what loads, brings the current track to the front, and replaying the seed gives the loaded list and cursor back |
| `TrackListRuns.ShuffleOnEveryOrder` | tracks/tracks.go:445-481 | Turning shuffle on can give every order of what loads that has the current track first |
| `TrackListRuns.ReachableInv` | tracks/tracks.go:71-516 | In every run of operations: an unshuffled list is injected tracks and then the context's first pages in order, the playing-queue flag is only set over a queue, the cursor once on a track stays on one, a shuffled list can be replayed unless it grew |
| `TrackListRuns.ShuffleOffKeepsInv` | tracks/tracks.go:482-516 | Turning shuffle off leaves a list in order, and if it fails the whole state is as it was |
| `TrackListRuns.SeekInOrder` | tracks/tracks.go:143-165 | A seek of an unshuffled list lands on the first match in the order of injected tracks and context pages, or leaves the cursor alone |
| `TrackListRuns.SeekEnds` | tracks/tracks.go:143-165 | A seek ends by itself even in a context without end, within one page more than the limit |
| `TrackListRuns.SeekComplete` | tracks/tracks.go:143-165 | Without failing fetches a seek finds the first match, unless the whole context has none or none comes before the page limit |
| `Walking.SeekFinds` | tracks/tracks.go:147-157 | A walk appends whole pages only, and what it finds is the first match; it reports nothing found only at the end of the context |
| `Walking.GrownInOrder` | tracks/paged-list.go:185-207 | A fetched page is the next one of the context and keeps the loaded list in order |
| `UpNext.PublishedIsPlayed` | tracks/tracks.go:249-301 | The k-th published upcoming track is the one playing after k + 1 presses, through the queue, into the context and across pages; if fewer than 32 are published the press after the last finds nothing |
| `UpNext.SnapshotPredicts` | tracks/tracks.go:218-301 | Publishing loads pages, and the list published still predicts the presses that follow it |
| `UpNext.PeekIsFirst` | tracks/tracks.go:341-354 | The track peeked at is the first published one, or there is none |
| `TrackListMoves.PrevUndoesNext` | tracks/tracks.go:356-397 | Outside the queue going back after going on returns to the same track |
| `TrackListMoves.PrevPlays` | tracks/tracks.go:381-397 | Going back, from the queue too, plays the track before the cursor or the first one, all of the queue is to come again, and the result says whether the cursor moved |
| `TrackListMoves.NextPlays` | tracks/tracks.go:356-379 | Going on plays the first queued track still to come, or else the track after the cursor, loading its page if need be; it fails only without one and then uses up the queue |
| `TrackListMoves.StartPlays` | tracks/tracks.go:332-339 | Going to the start puts the cursor on the first track and changes nothing else; it fails only if there is none |
| `TrackListMoves.TrySeekPlays` | tracks/tracks.go:71-82 | A seek that finds nothing leaves the cursor on the first track, unless there is none |
| `TrackListMoves.JumpPlays` | tracks/tracks.go:86-141 | A jump always ends on the track asked for, and the tracks queued behind it still follow |
| `TrackListMoves.JumpInQueue` | tracks/tracks.go:86-114 | A jump meant for queued tracks plays the first such, keeps those behind it and leaves the context where it is |
| `TrackListMoves.JumpInContext` | tracks/tracks.go:120-141 | Any other jump goes to the first match in the context or puts the track ahead of it, with the queue, less the entry playing, to follow |
| `TrackListMoves.QueueMatchIs` | tracks/tracks.go:95-104 | The entry meant is the first that matches, by uid if the jump names one |
| `TrackListMoves.SameMeans` | tracks/utils.go:8-26 | Which names make two tracks the same |
| `TrackListMoves.SetQueuePublished` | tracks/tracks.go:408-425 | Setting the queue from the published list leaves the state as it is, when all of the queue was published and only its tracks are marked as queued |
| `TrackListMoves.SetQueueTakes` | tracks/tracks.go:408-425 | From any list the queue takes the leading tracks marked as queued, and what plays goes on |
| `TrackListMoves.AddedLast` | tracks/tracks.go:399-406 | An added track plays after those already queued, marked as queued |
| `TrackListMoves.PlayingQueueSet` | tracks/tracks.go:436-438 | The queue plays when told to and not empty, and only then |
| `Shuffling.ShuffleRoundTrip` | tracks/paged-list.go:144-183 | Undoing a shuffle with the same draws gives back list and cursor exactly |
| `Shuffling.ShuffleKeeps` | tracks/paged-list.go:144-160 | A shuffle permutes the list and keeps the cursor on its item |
| `Shuffling.EveryOrder` | tracks/paged-list.go:144-160 | Every order of the items can come out of a shuffle |
| `Shuffling.ShuffledLast` | tracks/paged-list.go:150-152 | The item that comes last is the one at the first number drawn |
| `Shuffling.UnshuffleKeeps` | tracks/paged-list.go:162-183 | Unshuffling keeps the cursor on its item and restores the same list wherever the cursor is |
| `Shuffling.SwapKeeps` | tracks/paged-list.go:131-142 | Exchanging two items moves the cursor with its item and loses none |
| `PagedLists.PagedList.FetchNextPage` | tracks/paged-list.go:185-207 | Appends the page after the last item's, tagged; the end of the context, an empty page and a failure leave the list as it was; unless requests fail an empty page is the only failure |
| `PagedLists.PagedList.Next` | tracks/paged-list.go:40-54 | Moves on by one item, loading a page when at the end; tells the end from a failure, which without failing requests is an empty page |
| `PagedLists.PagedList.ShuffleItems` | tracks/paged-list.go:144-160 | The in-place loop is the shuffle of the list and cursor as values |
| `PagedLists.PagedList.UnshuffleItems` | tracks/paged-list.go:162-183 | The draws are replayed and undone in reverse: list and cursor are those of the unshuffle as a value |
| `PagedLists.PagedList.SwapItems` | tracks/paged-list.go:131-142 | Exchanges two items in place, the cursor following |
| `PagedLists.PagedList.MoveInjected` | tracks/paged-list.go:109-112 | Puts a track of no page at the head and the cursor on it |
| `PagedLists.PagedList.Walk` | tracks/tracks.go:147-157 | The loop is the walk as a function of how many of its fetches go through; it terminates, and unless requests fail it fails only at an empty page |
| `TrackLists.List.Seek` | tracks/tracks.go:143-165 | Moves to the first match or leaves the cursor alone, as the walk specifies; unless requests fail or a page is empty it ends by itself |
| `TrackLists.List.TrySeek` | tracks/tracks.go:71-82 | Seeks, or else goes to the start |
| `TrackLists.List.SeekQueue` | tracks/tracks.go:86-114 | Makes the first queue entry meant the one playing, dropping those before it; without one nothing changes |
| `TrackLists.List.TrySeekTo` | tracks/tracks.go:120-141 | Looks in the queue, then in the context, then plays the track ahead of the context |
| `TrackLists.List.GoNext` | tracks/tracks.go:356-379 | The queue first, then the next track of the context, fetching if needed; it fails only if a request does or a page is empty |
| `TrackLists.List.GoPrev` | tracks/tracks.go:381-397 | Leaves the queue and goes back one track if there is one |
| `TrackLists.List.GoStart` | tracks/tracks.go:332-339 | Goes to the first track, fetching if nothing is loaded; it fails only if a request does or a page is empty |
| `TrackLists.List.PeekNext` | tracks/tracks.go:341-354 | The next track without moving; nothing if its page fails to load, which it does only if a request fails or a page is empty; the list grows by at most that page |
| `TrackLists.List.NextTracks` | tracks/tracks.go:249-301 | The loops publish the queue and then the context, at most 32 in all; a failing fetch cuts the list short and a later attempt still publishes the same; nothing is cut short unless a request fails or a page is empty; the list grows by whole pages only |
| `TrackLists.List.SetQueue` | tracks/tracks.go:408-425 | Keeps the entry playing and takes the leading queued tracks |
| `TrackLists.List.AddToQueue` | tracks/tracks.go:399-406 | Appends a track marked as queued |
| `TrackLists.List.SetPlayingQueue` | tracks/tracks.go:436-438 | The flag is set only over a queue |
| `TrackLists.List.ToggleShuffle` | tracks/tracks.go:440-516 | On: loads, shuffles, brings the current track to the front. Off: replays the seed, or loads again and rolls back if that fails. Already so: nothing |
| `LoaderRuns.JobsConserved` | daemon/loader.go:327-574 | In every run each submitted job is in exactly one of queue, worker, results and answered, once: none is lost and none answered twice |
| `LoaderRuns.ClosedLane` | daemon/loader.go:501-574 | Once the lane has closed and its worker stopped, each submitted job has been answered exactly once or, if and only if its result was left in the channel, not at all |
| `LoaderRuns.LeftUnanswered` | daemon/loader.go:536-574 | Any job whose result is handed over just before the lane closes goes unanswered |
| `LoaderAnswers.AnswersMean` | daemon/loader.go:327-574 | In every run and for every kind of job: applied means it was run; superseded that it was run or was a load or prefetch taken out of the queue; busy that it was never queued; not needed that it was a prefetch never queued; no session that the lane is closed |
| `LoaderAnswers.Displaced` | daemon/loader.go:327-388 | Exactly the queued jobs a submission displaces leave the queue and are answered as superseded; a running one is cancelled exactly if displaced |
| `LoaderAnswers.PrefetchTaken` | daemon/loader.go:342-346 | With room a prefetch is queued exactly when no load or navigation is queued or running, and else answered as not needed |
| `LoaderAnswers.LoadsDropped` | daemon/loader.go:403-413 | Dropping loads takes every load and prefetch out of the queue, answers them and cancels a running one; the rest stays |
| `LoaderAnswers.Closes` | daemon/loader.go:555-574 | Closing answers every queued job and cancels the one running |
| `LoaderAnswers.ResultsInOrder` | daemon/loader.go:501-548 | In every run results are taken in the order the jobs were run, none passed over |
| `ResultAnswers.SupersededMeans` | daemon/loader.go:49-90 | In every run of the player loop a job that was run is superseded only if it is no mutation and its generation has passed |
| `ResultAnswers.ResultJudged` | daemon/loader.go:49-90 | A result taken is applied exactly if it is of a mutation or of the current generation of its class |
| `LoaderRuns.QueueShape` | daemon/loader.go:327-481 | In every run at most 32 jobs, one load and one prefetch are queued, a load stands behind all navigation, and a queued prefetch means no load or navigation is queued or running |
| `LoaderRuns.MovesStartInOrder` | daemon/loader.go:327-481 | In every run navigation and mutations start in the order they were accepted, even when mutations overtake a held load |
| `LoaderRuns.HeldHead` | daemon/loader.go:460-475 | Behind a held job only mutations stand, and the first of them is taken next |
| `LoaderRuns.NextRuns` | daemon/loader.go:452-481 | The job run next is the head if its time has come, or else the mutation behind it, or none |
| `LoaderRuns.TurningAway` | daemon/loader.go:327-371 | A submission is turned away exactly when the queue is full and holds nothing it would replace; then nothing queued is dropped, but a media fetch that is running is cancelled all the same |
| `LoaderRuns.StepKeepsInv` | daemon/loader.go:327-574 | Every step keeps conservation, the queue's shape and the order |
| `LoaderLanes.LoaderLane.Submit` | daemon/loader.go:327-371 | Answers, drops, cancels and queues as the model's step says, for each class, a full queue and a closed lane |
| `LoaderLanes.LoaderLane.DropLoads` | daemon/loader.go:377-413 | Drops queued loads and prefetches and cancels a running one |
| `LoaderLanes.LoaderLane.HasPendingLoad` | daemon/loader.go:417-428 | Whether a load or navigation is queued or running |
| `LoaderLanes.PartitionQueue` | daemon/loader.go:438-447 | Splits the jobs in two, each in order |
| `LoaderLanes.LoaderLane.Next` | daemon/loader.go:452-481 | Takes the head, or the first ready mutation when the head is held |
| `LoaderLanes.LoaderLane.Deliver` | daemon/loader.go:538-548 | The result is handed over if there is room, or answered when the lane has closed |
| `LoaderLanes.LoaderLane.Close` | daemon/loader.go:555-574 | Answers everything queued, cancels what runs, and happens once |
| `SkipBursts.BurstPublishes` | daemon/controls.go:1339-1379 | A burst from rest, whatever else is loaded or prefetched: when the last press's result is committed, what is published is the list changed in turn by the jobs run since, whose moves are exactly the accepted ones in order; if the loads and prefetches among them left the list alone it is the list moved by every press |
| `SkipBursts.CommitPublishesAll` | daemon/loader.go:49-137 | A result of navigation that is committed publishes the list after the jobs run up to it, whose moves are all those accepted up to it, in order |
| `SkipBursts.PressCommitsIff` | daemon/controls.go:1451-1501 | The result of a press is current if and only if no event since has moved the load generation |
| `SkipBursts.PressFate` | daemon/loader.go:49-78 | An accepted press, split at the first later event that moves the load generation: whatever follows, it has been committed if and only if it was by then, and on an open lane it was if and only if it had been answered, as it has when nothing is left to work off |
| `SkipBursts.AnsweredIsCommitted` | daemon/loader.go:49-78 | In every reachable state, navigation answered by an open lane while its generation is current has been committed |
| `SkipBursts.QuietList` | daemon/loader.go:100-137 | When all is worked off, the list is the one after the jobs run, whose moves are all those ever accepted |
| `SkipTracks.BurstOnList` | daemon/controls.go:1339-1501 | A burst of presses of next and previous in any order on a track list, with peeks and loads in between that at most load pages: what is published is the list moved by every press in turn, with more of it loaded |
| `SkipTracks.BurstPlaysPublished` | daemon/controls.go:1451-1501 | A burst of n presses of next on a track list, from rest, ends on the track that was n-th in the list published before it, through queue, context and pages, although superseded results are thrown away |
| `SkipTracks.BurstGoesBack` | daemon/controls.go:1339-1371 | A burst of n presses of previous, from a playing queue or not, ends on the track n before the cursor or the first one, with all of the queue to come after it |
| `SkipTracks.AdvanceWraps` | daemon/controls.go:1471-1479 | A press of next at the very end goes to the first track |
| `SkipTracks.TrackWalkSkips` | daemon/controls.go:51-65 | The daemon's presses, peeks and media loads are such jobs |
| `SkipTracks.FoldSkips` | daemon/controls.go:1471-1491 | Working off the jobs of a burst, each press loading what it is to publish and each peek loading pages, leads where its presses alone lead |
| `PlayerLoops.PlayerLoop.Skip` | daemon/controls.go:1352-1360 | A press moves the load generation and submits one stamped step |
| `PlayerLoops.PlayerLoop.ApplyLoaderResult` | daemon/loader.go:49-78 | A result out of date is answered as superseded, mutations never; a current one is committed, and a press goes on to load the current track |
| `PlayerLoops.PlayerLoop.LoadCurrentTrack` | daemon/controls.go:829-872 | Both generations move and a load stamped with the new one is submitted, held or not |
| `PlayerLoops.PlayerLoop.RunListJob` | daemon/loader.go:110-122 | The list is walked by the running job before its result is handed over |
| `StatePushRuns.QueueInvariant` | daemon/statepush.go:100-148 | In every run at most four pushes are queued, never two player states in a row, and what is sent and queued has strictly increasing numbers |
| `StatePushRuns.TransitionsKeptIff` | daemon/statepush.go:100-216 | All transitions submitted are taken to be sent or queued, in order, if and only if none was submitted to a closed lane or to a queue full of them and none given up on when closing |
| `StatePushRuns.SubmitTransitions` | daemon/statepush.go:100-128 | A submission loses a transition only if it is one and finds the queue full of them, and then the oldest |
| `StatePushRuns.SubmitKeepsNewest` | daemon/statepush.go:107-128 | The push just submitted is the last queued, except a player state that finds the queue full of transitions, which is dropped at once |
| `StatePushRuns.SubmitIs` | daemon/statepush.go:100-128 | Exactly what a submission makes of the queue: which push it replaces, or which makes room for it |
| `StatePushRuns.NewestPlayerStateDropped` | daemon/statepush.go:113-128 | Such a queue and push, although the queue is said to drop the oldest rather than the newest |
| `StatePushes.StatePushLane.Submit` | daemon/statepush.go:100-135 | The loops merge and trim as specified; a closed lane takes nothing |
| `StatePushes.StatePushLane.Next` | daemon/statepush.go:137-148 | Takes the oldest push |
| `ChunkCache.OneDownloader` | audio/chunked-reader.go:203-251 | In every interleaving a chunk has at most one downloader and its data is set at most once |
| `ChunkCache.CompletedCount` | audio/chunked-reader.go:203-251 | The completion count and the threads between storing and counting add up to the chunks with data |
| `ChunkCache.CallbackOnce` | audio/chunked-reader.go:393-419 | The completion callback starts at most once, and only with every chunk there |
| `ChunkCache.CallbackFires` | audio/chunked-reader.go:393-419 | And it cannot be missed: registered, complete and all counted, it has been started |
| `ChunkCache.StepInv` | audio/chunked-reader.go:203-251 | Every step of every thread keeps the invariant behind these |
| `ChunkCache.Enters` | audio/chunked-reader.go:206-224 | A thread at the lock is done on a closed cache or with the chunk there, becomes the downloader of one nobody fetches, and waits otherwise |
| `ChunkCache.WaitsForDownload` | audio/chunked-reader.go:206-243 | In every run a thread that waits does so for another that is downloading the chunk; when that stores it the wait is over, and when it fails the one waiting takes over |
| `ChunkCache.StaysClosed` | audio/chunked-reader.go:209-212 | Once closed the cache stays so and no download begins |
| `ChunkRanges.RangesDisjoint` | audio/chunked-reader.go:157-166 | Every byte of the file is in the range of exactly one chunk |
| `ChunkRanges.ChunksAreFile` | audio/chunked-reader.go:118-124 | The chunks served for the requested ranges, put together, are the file |
| `ChunkRanges.FirstChunk` | audio/chunked-reader.go:104-126 | The first request, made before the length is known, gets the same first chunk |
| `ChunkedReaders.HttpChunkedReader.ReadAt` | audio/chunked-reader.go:288-331 | Reads exactly that slice of the file as far as it goes; the end is reported if and only if more was asked for than is left or the position is past all chunks; a failure leaves a correct shorter read; it fails only if a download does, and never with the chunks touched already there; it reports a closed reader exactly when it is closed |
| `ChunkedReaders.HttpChunkedReader.FetchChunk` | audio/chunked-reader.go:203-251 | What is returned, cached or downloaded, is that chunk of the file; a chunk already there is always returned, a download fails only if requests do, and a closed reader is reported exactly when it is closed |
| `ChunkedReaders.HttpChunkedReader.Read` | audio/chunked-reader.go:282-286 | Reads on from the position and advances it by what was read; it fails only if a download does |
| `ChunkedReaders.HttpChunkedReader.Seek` | audio/chunked-reader.go:333-359 | Succeeds exactly when the target is inside the file, in spite of 64-bit overflow, and otherwise leaves the position |
| `Decryptors.Decryptor.ReadAt` | audio/decryptor.go:27-54 | For every position of a 64-bit signed number and any buffer, what is read is that slice of the whole file's decryption; it fails only if a download does, and never with the chunks touched already there |
| `CounterMode.NoOverflow` | audio/decryptor.go:31-38 | The 64-bit counter addition overflows for no such position, and the vector is the base vector advanced by the block number |
| `CounterMode.NewIvValue` | audio/decryptor.go:35-38 | Advancing the low half advances the 128-bit counter if and only if it does not overflow |
| `CounterMode.KeyStreamShifts` | audio/decryptor.go:28-46 | Starting at the block and throwing away the offset gives the key stream of the whole file from that position |
| `Decryptors.CtrStream.XorKeyStream` | audio/decryptor.go:40-52 | The buffer is combined in place with the next bytes of the key stream |
| `Playlists.ReadsOneRevision` | spclient/library_write.go:189-217 | Whatever pages honest answers bring, the contents returned are those of the one revision named from the start, and all of them if and only if reading did not end on an empty page that said there was more |
| `Playlists.StalledContents` | spclient/library_write.go:212-214 | An honest server with such a page, and contents that are not all there is |
| `PlaylistEdits.PlaylistContents` | spclient/library_write.go:189-217 | Against a server changing between any two requests: the contents of the named revision, a conflict, or a failure; at most 50000 entries; with a server that answers everything a conflict means others made changes meanwhile, a failure that some revision is longer than that |
| `PlaylistEdits.RemoveFromPlaylist` | daemon/library.go:218-237 | One call removes at most one entry: the uri asked for, at the position asked for or its first occurrence, in the revision replaced; success means one was removed, a conflict or a moved or missing item that none was; with a server that answers everything it succeeds, or the entry is not where it was said to be in some revision, unless others got in between twice or the playlist is too long |
| `PlaylistEdits.AppendToPlaylist` | daemon/library.go:159-176 | One call appends at most once, at the end of the revision replaced, even if an answer is lost; with a server that answers everything it succeeds unless others got in between twice |
| `PlaylistEdits.ItemPosition` | daemon/library.go:200-213 | The entry at the position if it is still the uri, or the first occurrence; each error exactly when there is none |
| `PlaylistEdits.Server.Post` | spclient/library_write.go:276-308 | A change is made only on top of the current revision; a conflict means it was not made, a lost answer leaves it open |
| `ListingRuns.NothingStale` | daemon/track_meta_cache.go:144-210 | What is served is a listing of the context asked for, and after an invalidation none whose enumeration began before it, in every interleaving where listings are put before their enumeration ends and none outlasts 2^64 invalidations |
| `ListingRuns.PutWhenUnmissed` | daemon/track_meta_cache.go:158-166 | A listing is cached exactly when the number of invalidations its enumeration missed is a multiple of 2^64 |
| `ListingRuns.StepFresh` | daemon/track_meta_cache.go:144-210 | A step leaves the cache free of stale listings if and only if it is not such a put |
| `ListingRuns.ServedUntilOld` | daemon/track_meta_cache.go:144-171 | A listing put without a missed invalidation is served for 300 seconds and no longer, whatever happens to other contexts |
| `ListingRuns.InFlightIff` | daemon/track_meta_cache.go:171-210 | In every run a context is marked as being enumerated exactly while an enumeration of it is under way |
| `ListingRuns.StaleAfterWrap` | daemon/track_meta_cache.go:178-182 | After 2^64 invalidations a stale listing is cached and served |
| `ListingRuns.StaleIfPutAfterEnd` | daemon/track_meta_cache.go:158-166 | A listing put after its enumeration ended would be stale; the enumeration in use never does that |
| `ListingCaches.ContextListCache.GetListing` | daemon/track_meta_cache.go:144-154 | The cached listing, unless it is too old |
| `ListingCaches.ContextListCache.BeginFetch` | daemon/track_meta_cache.go:188-204 | Begins an enumeration only if nothing is cached and none is under way |
| `ListingCaches.ContextListCache.PutListing` | daemon/track_meta_cache.go:158-166 | Caches a listing unless its generation is not the current one |
| `ListingCaches.ContextListCache.InvalidateListing` | daemon/track_meta_cache.go:171-183 | Drops the listing and moves the generation of an enumeration under way |
| `ListingCaches.ContextListCache.EndFetch` | daemon/track_meta_cache.go:206-210 | The enumeration is over |
| `Hashcash.CheckHashcash` | login5/hashcash.go:12-27 | For every length: true if and only if the hash is not empty and, for a positive length, has that many bits and is a multiple of that power of two |
| `HashcashModel.DividesMeans` | login5/hashcash.go:12-27 | What being a multiple of a power of two means here |
| `HashcashModel.SolvedByLast` | login5/hashcash.go:14-24 | The last byte decides, or leaves eight bits fewer for the bytes before it |
| `Hashcash.IncrementHashcash` | login5/hashcash.go:29-34 | Adds one in place to a big-endian number of any length, wrapping to zero, and touches nothing else |
| `Hashcash.SolveHashcash` | login5/hashcash.go:36-64 | Returns the first suffix of the sequence that solves the challenge; it finds none if and only if no round ever would, for the suffixes begin again after 2^64 rounds |
| `Hashcash.NeverSolved` | login5/hashcash.go:44-63 | If none of the first 2^64 rounds solves the challenge no later one does |
| `Hashcash.SuffixWords` | login5/hashcash.go:61-62 | In round k the halves of the suffix are the context word plus k and k, each modulo 2^64 |
| `Hashcash.NextSuffix` | login5/hashcash.go:61-62 | Incrementing both halves turns the suffix of one round into that of the next |
| `SpotifyIds.UriRoundTrip` | ids.go:164-202 | A uri parses back to its id, type and bytes, if and only if the type is a word of small letters |
| `SpotifyIds.UriPrints` | ids.go:195-202 | A uri that parses prints as itself with its digits padded with zeros to 22 |
| `SpotifyIds.GidRoundTrip` | ids.go:172-193 | Every gid of 16 bytes prints to exactly 22 digits that parse back to it |
| `SpotifyIds.Base62RoundTrip` | ids.go:185-193 | Text of any length parses if and only if it is digits after an optional sign and their number fits in 16 bytes, where it panics otherwise, and then to the gid that prints as the digits padded or cut to 22 |
| `SpotifyIds.GidPrints` | ids.go:172-175 | The padded shortest text is the 22 digits of the number, and padding never has a negative length |
| `Base62.EnoughDigits` | ids.go:172-175 | 22 digits of base 62 hold every 16-byte number |
| `Base62.DigitsAre` | ids.go:172-187 | The digits are 0-9, a-z, A-Z, each in its place |
| `Base62.OnlyDigits` | ids.go:185-190 | And no other character is one |
| `CacheLimiter.SizeLimiter.Prune` | cache/limiter.go:86-114 | Keeps the figure's difference from the sum of sizes, right or not; without a removal failure ends within the limit or with nothing left; what is gone is no more recent than any survivor; stopping one file earlier would have exceeded the limit; within the limit nothing goes |
| `CacheLimiter.SizeLimiter.Init` | cache/limiter.go:40-59 | Registers what is met except temporary files; the figure gains the sizes already counted, so it stays the sum of the tracked sizes if and only if nothing met with a size was tracked already |
| `CacheLimiter.CountedTwice` | cache/limiter.go:53-56 | A file met that is tracked already is counted twice |
| `CacheLimiter.SizeLimiter.Add` | cache/limiter.go:63-72 | Adds or replaces a file and keeps the figure's difference from the sum of sizes |
| `CacheLimiter.SizeLimiter.Touch` | cache/limiter.go:75-82 | Changes only the access time of a tracked file |
| `CacheLimiter.SizeLimiter.Oldest` | cache/limiter.go:92-101 | Finds a file no more recent than any other |
| `Sizes.TotalWithout` | cache/limiter.go:103-105 | The sum of sizes does not depend on the order files are taken out in |

## Left out

- Networking and sessions: access point, dealer, mercury, login, zeroconf, D-Bus and the REST handlers are plumbing over unseen libraries.
- Cryptography: Shannon, Diffie-Hellman, RSA, HMAC, SHA-1 and AES stand as arbitrary functions where they are needed at all.
- Decoders and outputs: a decoder is a sequence of samples in whole frames that makes progress unless it is at its end; the code's own trimming of torn frames is then without effect.
- Floating point: samples and gains are reals, so nothing is said about float32 rounding or the exact equal-power curve.
- Waiting: reads of the switching source are modelled from the point where a source is there; blocking until one is set is not.
- Positions of the switching source: seeking in it and reporting its position in milliseconds.
- Hints: the upcoming order a set_queue command supplies for one snapshot, and the previous tracks, index and metadata of a snapshot.
- Names of tracks: comparing tracks uses uri, uid and the uri of the gid as given; how a gid becomes a uri is in `SpotifyIds.dfy` alone.
- Time: a hold is a number compared with a clock, a timeout a fetch that fails; waking, timers and the drain timeouts have no duration.
- Contexts replaced while a walk is queued: the burst laws are about one list. Walks for skips report no error, as in the source; the laws about tracks published further suppose that no page fetch fails.
- Jumps within a burst: `SkipTracks.BurstOnList` is about bursts of relative presses; with a jump to a chosen track among them only the general law of `SkipBursts.BurstPublishes` applies.
- Generations of the player loop are unbounded numbers; that 2^64 presses wrap around is not modelled.
- Player events held back while a load is in flight.
- 32-bit platforms: positions, chunk numbers and indices are those of 64-bit integers, and a file is short of 2^63 bytes by at least a chunk.
- Server errors of byte ranges: a response is the range asked for; a server answering other bytes with status 206 is not detected by the code either.
- Hashcash.SolveHashcash: gives up when the suffixes begin again, where the code goes round for ever; either way no solution is returned.
- Sending: a push is followed until the lane takes it; whether its request then succeeds, is retried or is cancelled by closing is not modelled.
- LRU order of the listing cache: which entries make room is chosen freely.
- CacheLimiter.SizeLimiter.Init: sizes are natural numbers, so 64-bit overflow of the figure in use is not modelled.
