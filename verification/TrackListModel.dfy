/** The track list as a value: what each operation does to it. */
module TrackListModel {
  import opened Extremes
  import opened Paging
  import opened Walking
  import opened Shuffling
  import opened Words

  const MAX_TRACKS_IN_CONTEXT: nat := 32

  datatype State = State(
    list: seq<Item>, pos: int,
    queue: seq<Track>, playingQueue: bool,
    shuffled: bool, seed: nat, shuffleLen: nat, shuffleKeep: int)

  const EMPTY: State := State([], -1, [], false, false, 0, 0, 0)

  /** Whether a context track is the target: by uid, by uri, or by the uri its
      gid stands for. */
  predicate Same(target: Track, track: Track) {
    var uri := if target.uri == "" then target.gidUri else target.uri;
    || (track.uid != "" && track.uid == target.uid)
    || (track.uri != "" && track.uri == uri)
    || (track.gidUri != "" && track.gidUri == uri)
  }

  function SameAs(target: Track): Track -> bool {
    (track: Track) => Same(target, track)
  }

  function NoTrack(): Track -> bool {
    (track: Track) => false
  }

  /** The cursor is on an item, so that the operations starting there are safe. */
  predicate Positioned(s: State) {
    0 <= s.pos < |s.list|
  }

  predicate QueueSafe(s: State) {
    s.playingQueue ==> s.queue != []
  }

  function Current(s: State): Track
    requires QueueSafe(s) && (s.playingQueue || Positioned(s))
  {
    if s.playingQueue then s.queue[0] else s.list[s.pos].track
  }

  /** The queued tracks still to play. */
  function Upcoming(s: State): seq<Track>
    requires QueueSafe(s)
  {
    if s.playingQueue then s.queue[1..] else s.queue
  }

  /** `fail` is whether a page that has to be fetched fails to load. */
  function GoNext(ctx: Context, s: State, fail: bool): (State, bool)
    requires QueueSafe(s) && Positioned(s)
  {
    var queue := Upcoming(s);
    if queue != [] then (s.(queue := queue, playingQueue := true), true)
    else
      var s := s.(queue := [], playingQueue := false);
      if s.pos + 1 < |s.list| then (s.(pos := s.pos + 1), true)
      else if CanGrow(ctx, s.list) && !fail then (s.(list := Grown(ctx, s.list), pos := s.pos + 1), true)
      else (s, false)
  }

  function GoPrev(s: State): (State, bool)
    requires Positioned(s)
  {
    if s.pos == 0 then (s.(playingQueue := false), false)
    else (s.(playingQueue := false, pos := s.pos - 1), true)
  }

  function GoStart(ctx: Context, s: State, fail: bool): (State, bool) {
    if s.list != [] then (s.(pos := 0), true)
    else if CanGrow(ctx, s.list) && !fail then (s.(list := Grown(ctx, s.list), pos := 0), true)
    else (s, false)
  }

  function Seek(ctx: Context, s: State, f: Track -> bool, budget: nat): (State, bool) {
    var w := SeekFrom(ctx, s.list, 0, f, budget);
    if w.outcome.Found? then (s.(list := w.list, pos := w.outcome.at), true) else (s.(list := w.list), false)
  }

  /** Seeks, or else goes to the start. */
  function TrySeek(ctx: Context, s: State, f: Track -> bool, budget: nat, fail: bool): (State, bool) {
    var (s', ok) := Seek(ctx, s, f, budget);
    if ok then (s', true) else GoStart(ctx, s', fail)
  }

  /** The queue entry a jump to `track` is meant for, from index i on. */
  function QueueMatch(queue: seq<Track>, i: nat, track: Track): (at: nat)
    requires i <= |queue|
    ensures i <= at <= |queue|
    decreases |queue| - i
  {
    if i == |queue| then i
    else if (if track.uid != "" then queue[i].uid == track.uid else Same(track, queue[i])) then i
    else QueueMatch(queue, i + 1, track)
  }

  function TrySeekTo(ctx: Context, s: State, track: Track, budget: nat): State
    requires QueueSafe(s)
  {
    var at := QueueMatch(s.queue, if s.playingQueue then 1 else 0, track);
    if at < |s.queue| then s.(queue := s.queue[at..], playingQueue := true)
    else
      var s := s.(queue := Upcoming(s), playingQueue := false);
      var (s', ok) := Seek(ctx, s, SameAs(track), budget);
      if ok then s' else s'.(list := [Item(track, INJECTED_PAGE, -1)] + s'.list, pos := 0)
  }

  function LeadingQueued(next: seq<Track>): seq<Track> {
    if next == [] || !next[0].queued then [] else [next[0]] + LeadingQueued(next[1..])
  }

  function SetQueue(s: State, next: seq<Track>): State
    requires QueueSafe(s)
  {
    s.(queue := (if s.playingQueue then s.queue[..1] else []) + LeadingQueued(next))
  }

  function AddToQueue(s: State, track: Track): State {
    s.(queue := s.queue + [track.(queued := true)])
  }

  function SetPlayingQueue(s: State, val: bool): State {
    s.(playingQueue := s.queue != [] && val)
  }

  /** Shuffles everything that loads, then brings the current track to the front.
      The seed is one more than a random 64-bit number, and wraps. */
  function ShuffleOn(ctx: Context, rng: Rng, s: State, random: nat, budget: nat): State
    requires Placed(Deck(s.list, s.pos))
  {
    var seed := (random + 1) % TWO_64;
    var d := Shuffle(rng, seed, Deck(SeekFrom(ctx, s.list, 0, NoTrack(), budget).list, s.pos));
    var front := if 0 < d.pos < |d.list| then Swap(d, 0, d.pos) else d;
    s.(list := front.list, pos := front.pos, shuffled := true,
       seed := seed, shuffleLen := |front.list|, shuffleKeep := if d.pos > 0 then d.pos else -1)
  }

  /** The list can be put back by replaying the seed. */
  predicate Replayable(s: State) {
    s.seed != 0 && |s.list| == s.shuffleLen
  }

  /** The deck before the current track was brought to the front and before that
      was shuffled. */
  function Restored(rng: Rng, s: State): Deck {
    var d := Deck(s.list, s.pos);
    Unshuffle(rng, s.seed, if 0 < s.shuffleKeep < |s.list| then Swap(d, 0, s.shuffleKeep) else d)
  }

  /** Replays the seed, or else loads the context again up to the current track;
      if that fails nothing changes. */
  function ShuffleOff(ctx: Context, rng: Rng, s: State, budget: nat): (State, bool)
    requires QueueSafe(s) && (Replayable(s) || s.playingQueue || Positioned(s))
  {
    if Replayable(s) then
      var d := Restored(rng, s);
      (s.(list := d.list, pos := d.pos, shuffled := false), true)
    else
      var w := SeekFrom(ctx, [], 0, SameAs(Current(s)), budget);
      if w.outcome.Found? then (s.(list := w.list, pos := w.outcome.at, shuffled := false), true)
      else (s, false)
  }

  function TracksOf(items: seq<Item>): (tracks: seq<Track>)
    ensures |tracks| == |items|
    ensures forall i :: 0 <= i < |items| ==> tracks[i] == items[i].track
  {
    if items == [] then [] else TracksOf(items[..|items|-1]) + [items[|items|-1].track]
  }

  /** How many context tracks are published after the queued ones. */
  function Room(s: State): nat
    requires QueueSafe(s)
  {
    MAX_TRACKS_IN_CONTEXT - Min(MAX_TRACKS_IN_CONTEXT, |Upcoming(s)|)
  }

  /** The state after publishing: the published tracks have been loaded. */
  function Published(ctx: Context, s: State): State
    requires QueueSafe(s) && Positioned(s)
  {
    s.(list := LoadedTo(ctx, s.list, s.pos + 1 + Room(s)))
  }

  /** The upcoming tracks as published: the queue, then the context, at most
      MAX_TRACKS_IN_CONTEXT in all. */
  function NextTracks(ctx: Context, s: State): seq<Track>
    requires QueueSafe(s) && Positioned(s)
  {
    var queued := Upcoming(s)[..Min(MAX_TRACKS_IN_CONTEXT, |Upcoming(s)|)];
    var list := Published(ctx, s).list;
    queued + TracksOf(list[s.pos + 1..Min(|list|, s.pos + 1 + Room(s))])
  }

  datatype Peeked = NoNext | Next(track: Track)

  /** The next track to play, if any, with no fetch failing. */
  function PeekNext(ctx: Context, s: State): Peeked
    requires QueueSafe(s) && Positioned(s)
  {
    if Upcoming(s) != [] then Next(Upcoming(s)[0])
    else
      var list := LoadedTo(ctx, s.list, s.pos + 2);
      if s.pos + 1 < |list| then Next(list[s.pos + 1].track) else NoNext
  }
}
