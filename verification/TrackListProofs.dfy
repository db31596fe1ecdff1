/** The published up-next list predicts what successive skips play. */
module UpNext {
  import opened Paging
  import opened Walking
  import opened TrackListModel

  lemma {:induction false} LoadedToAgain(ctx: Context, list: seq<Item>, a: nat, b: nat)
    ensures LoadedTo(ctx, LoadedTo(ctx, list, a), b) == LoadedTo(ctx, list, if a < b then b else a)
    decreases a - |list|
  {
    hide CanGrow, Grown;
    if |list| < a && CanGrow(ctx, list) {
      LoadedToAgain(ctx, Grown(ctx, list), a, b);
    }
  }

  /** One fetch is enough to get past the end of the list. */
  lemma LoadedOne(ctx: Context, list: seq<Item>)
    ensures LoadedTo(ctx, list, |list| + 1) == if CanGrow(ctx, list) then Grown(ctx, list) else list
  {
    hide CanGrow, Grown;
    if CanGrow(ctx, list) {
      assert LoadedTo(ctx, Grown(ctx, list), |list| + 1) == Grown(ctx, list);
    }
  }

  /** An index below n holds the same item however much more is loaded. */
  lemma LoadedPrefix(ctx: Context, list: seq<Item>, a: nat, b: nat)
    requires a <= b
    ensures LoadedTo(ctx, list, a) <= LoadedTo(ctx, list, b)
  {
    LoadedToAgain(ctx, list, a, b);
  }

  /** The state after n presses of next, with no fetch failing. */
  function Skips(ctx: Context, s: State, n: nat): (s': State)
    requires QueueSafe(s) && Positioned(s)
    ensures QueueSafe(s') && Positioned(s')
  {
    if n == 0 then s else GoNext(ctx, Skips(ctx, s, n - 1), false).0
  }

  /** Where n presses lead: through the queue first, then on through the context,
      which is loaded just far enough. */
  function Ahead(ctx: Context, s: State, n: nat): State
    requires QueueSafe(s) && Positioned(s) && n > 0
  {
    var queue := Upcoming(s);
    if n <= |queue| then s.(queue := queue[n - 1..], playingQueue := true)
    else
      var pos := s.pos + (n - |queue|);
      s.(queue := [], playingQueue := false, pos := pos, list := LoadedTo(ctx, s.list, pos + 1))
  }

  /** The context reaches far enough for n presses. */
  predicate Reaches(ctx: Context, s: State, n: nat)
    requires QueueSafe(s) && Positioned(s) && n > 0
  {
    n <= |Upcoming(s)| || Ahead(ctx, s, n).pos < |Ahead(ctx, s, n).list|
  }

  lemma NextStep(ctx: Context, s: State)
    requires QueueSafe(s) && Positioned(s)
    ensures Reaches(ctx, s, 1) ==> GoNext(ctx, s, false) == (Ahead(ctx, s, 1), true)
    ensures !Reaches(ctx, s, 1) ==> !GoNext(ctx, s, false).1
  {
    LoadedOne(ctx, s.list);
  }

  /** Taking n presses and then one more is taking n + 1. */
  lemma AheadStep(ctx: Context, s: State, n: nat)
    requires QueueSafe(s) && Positioned(s) && n > 0 && Reaches(ctx, s, n)
    ensures var s' := Ahead(ctx, s, n);
      && QueueSafe(s') && Positioned(s')
      && (Reaches(ctx, s', 1) <==> Reaches(ctx, s, n + 1))
      && (Reaches(ctx, s, n + 1) ==> Ahead(ctx, s', 1) == Ahead(ctx, s, n + 1))
  {
    hide CanGrow, Grown;
    if n > |Upcoming(s)| {
      var pos := s.pos + (n - |Upcoming(s)|);
      LoadedToAgain(ctx, s.list, pos + 1, pos + 2);
    }
  }

  lemma {:induction false} SkipsLead(ctx: Context, s: State, n: nat)
    requires QueueSafe(s) && Positioned(s) && n > 0 && Reaches(ctx, s, n)
    ensures Skips(ctx, s, n) == Ahead(ctx, s, n)
    ensures GoNext(ctx, Skips(ctx, s, n - 1), false).1
  {
    hide LoadedTo;
    if n == 1 {
      NextStep(ctx, s);
    } else {
      ReachesFewer(ctx, s, n - 1);
      SkipsLead(ctx, s, n - 1);
      AheadStep(ctx, s, n - 1);
      NextStep(ctx, Ahead(ctx, s, n - 1));
    }
  }

  lemma ReachesFewer(ctx: Context, s: State, n: nat)
    requires QueueSafe(s) && Positioned(s) && n > 0 && Reaches(ctx, s, n + 1)
    ensures Reaches(ctx, s, n)
  {
    hide CanGrow, Grown, LoadedTo;
    if n > |Upcoming(s)| {
      var pos := s.pos + (n - |Upcoming(s)|);
      Loaded(ctx, s.list, pos + 1, pos + 2);
    }
  }

  /** Whether an item is there does not depend on loading further. */
  lemma Loaded(ctx: Context, list: seq<Item>, a: nat, b: nat)
    requires a <= b && a <= |LoadedTo(ctx, list, b)|
    ensures a <= |LoadedTo(ctx, list, a)|
  {
    hide CanGrow, Grown;
    LoadedToAgain(ctx, list, a, b);
  }

  /** What plays after n presses, as published n tracks ahead. */
  lemma PublishedTrack(ctx: Context, s: State, k: nat)
    requires QueueSafe(s) && Positioned(s) && k < |NextTracks(ctx, s)|
    ensures Reaches(ctx, s, k + 1)
    ensures var s' := Ahead(ctx, s, k + 1);
            QueueSafe(s') && Positioned(s') && Current(s') == NextTracks(ctx, s)[k]
  {
    hide CanGrow, Grown, LoadedTo;
    var queue, room := Upcoming(s), Room(s);
    if k >= |queue| {
      var pos := s.pos + (k + 1 - |queue|);
      Loaded(ctx, s.list, pos + 1, s.pos + 1 + room);
      LoadedPrefix(ctx, s.list, pos + 1, s.pos + 1 + room);
    }
  }

  /** With room left in the list, nothing follows the last published track. */
  lemma NothingPublished(ctx: Context, s: State, n: nat)
    requires QueueSafe(s) && Positioned(s) && n == |NextTracks(ctx, s)| < MAX_TRACKS_IN_CONTEXT
    ensures !Reaches(ctx, s, n + 1)
  {
    hide CanGrow, Grown, LoadedTo;
    var queue, room := Upcoming(s), Room(s);
    if Reaches(ctx, s, n + 1) {
      var pos := s.pos + (n + 1 - |queue|);
      LoadedPrefix(ctx, s.list, pos + 1, s.pos + 1 + room);
    }
  }

  /** The k-th published track is what plays after k + 1 presses, and if fewer
      than the maximum are published the press after the last one finds nothing. */
  lemma PublishedIsPlayed(ctx: Context, s: State, k: nat)
    requires QueueSafe(s) && Positioned(s)
    ensures k < |NextTracks(ctx, s)| ==> Current(Skips(ctx, s, k + 1)) == NextTracks(ctx, s)[k]
    ensures k == |NextTracks(ctx, s)| < MAX_TRACKS_IN_CONTEXT ==> !GoNext(ctx, Skips(ctx, s, k), false).1
  {
    hide CanGrow, Grown, LoadedTo, NextTracks, Skips, GoNext, Ahead, Reaches;
    if k < |NextTracks(ctx, s)| {
      PublishedTrack(ctx, s, k);
      SkipsLead(ctx, s, k + 1);
    } else if k == |NextTracks(ctx, s)| < MAX_TRACKS_IN_CONTEXT {
      NothingPublished(ctx, s, k);
      LastPress(ctx, s, k);
    }
  }

  lemma LastPress(ctx: Context, s: State, n: nat)
    requires QueueSafe(s) && Positioned(s) && !Reaches(ctx, s, n + 1)
    requires n == |NextTracks(ctx, s)|
    ensures !GoNext(ctx, Skips(ctx, s, n), false).1
  {
    hide CanGrow, Grown, LoadedTo, NextTracks, GoNext, Ahead, Reaches;
    if n == 0 {
      NextStep(ctx, s);
    } else {
      PublishedTrack(ctx, s, n - 1);
      SkipsLead(ctx, s, n);
      AheadStep(ctx, s, n);
      NextStep(ctx, Ahead(ctx, s, n));
    }
  }

  /** Publishing loads pages, which changes neither what is published nor what
      plays. */
  lemma PublishingIsStable(ctx: Context, s: State)
    requires QueueSafe(s) && Positioned(s)
    ensures Published(ctx, Published(ctx, s)) == Published(ctx, s)
    ensures NextTracks(ctx, Published(ctx, s)) == NextTracks(ctx, s)
  {
    hide CanGrow, Grown, LoadedTo, TracksOf;
    LoadedToAgain(ctx, s.list, s.pos + 1 + Room(s), s.pos + 1 + Room(s));
  }

  /** So the list published with a snapshot predicts the presses after it. */
  lemma SnapshotPredicts(ctx: Context, s: State, k: nat)
    requires QueueSafe(s) && Positioned(s) && k < |NextTracks(ctx, s)|
    ensures Current(Skips(ctx, Published(ctx, s), k + 1)) == NextTracks(ctx, s)[k]
  {
    hide CanGrow, Grown, LoadedTo, NextTracks;
    PublishingIsStable(ctx, s);
    PublishedIsPlayed(ctx, Published(ctx, s), k);
  }

  /** The track peeked at for prefetching is the first published one. */
  lemma PeekIsFirst(ctx: Context, s: State)
    requires QueueSafe(s) && Positioned(s)
    ensures PeekNext(ctx, s) == if NextTracks(ctx, s) == [] then NoNext else Next(NextTracks(ctx, s)[0])
  {
    hide CanGrow, Grown, LoadedTo;
    if Upcoming(s) == [] {
      LoadedPrefix(ctx, s.list, s.pos + 2, s.pos + 1 + Room(s));
      if |LoadedTo(ctx, s.list, s.pos + 1 + Room(s))| > s.pos + 1 {
        Loaded(ctx, s.list, s.pos + 2, s.pos + 1 + Room(s));
      }
    }
  }
}

/** What every run of operations keeps, and what turning shuffle on and off does. */
module TrackListRuns {
  import opened Words
  import opened Paging
  import opened Walking
  import opened Shuffling
  import opened TrackListModel

  /** An operation, with what happens to the page fetches it makes. Publishing
      and peeking ahead do nothing but load some number of pages. */
  datatype Op =
    | Next(fail: bool)
    | Prev
    | Start(fail: bool)
    | SeekTo(f: Track -> bool, budget: nat)
    | SeekOrStart(f: Track -> bool, budget: nat, fail: bool)
    | JumpTo(track: Track, budget: nat)
    | ReplaceQueue(next: seq<Track>)
    | Enqueue(track: Track)
    | PlayQueue(val: bool)
    | LookAhead(pages: nat)
    | SetShuffle(on: bool, random: nat, budget: nat)

  /** The playing-queue flag is only set over a non-empty queue, and the cursor is
      on the list or nowhere yet. */
  predicate Safe(s: State) {
    QueueSafe(s) && Placed(Deck(s.list, s.pos))
  }

  /** Operations that start from the current track do not return, in the source,
      before there is one. */
  predicate Applies(op: Op, s: State) {
    match op
    case Next(_) => Positioned(s)
    case Prev => Positioned(s)
    case LookAhead(_) => Positioned(s)
    case SetShuffle(on, _, _) => on || !s.shuffled || Replayable(s) || s.playingQueue || Positioned(s)
    case _ => true
  }

  function Apply(ctx: Context, rng: Rng, op: Op, s: State): State
    requires Safe(s) && Applies(op, s)
  {
    match op
    case Next(fail) => GoNext(ctx, s, fail).0
    case Prev => GoPrev(s).0
    case Start(fail) => GoStart(ctx, s, fail).0
    case SeekTo(f, budget) => Seek(ctx, s, f, budget).0
    case SeekOrStart(f, budget, fail) => TrySeek(ctx, s, f, budget, fail).0
    case JumpTo(track, budget) => TrySeekTo(ctx, s, track, budget)
    case ReplaceQueue(next) => SetQueue(s, next)
    case Enqueue(track) => AddToQueue(s, track)
    case PlayQueue(val) => SetPlayingQueue(s, val)
    case LookAhead(pages) => s.(list := GrownBy(ctx, s.list, pages))
    case SetShuffle(on, random, budget) =>
      if on == s.shuffled then s
      else if on then ShuffleOn(ctx, rng, s, random, budget)
      else ShuffleOff(ctx, rng, s, budget).0
  }

  /** Unshuffled, the list is the context's first pages in order, after whatever
      was injected ahead of them. Shuffled, it has only grown since, and if it has
      not then replaying the seed gives such a list. */
  ghost predicate Inv(ctx: Context, rng: Rng, s: State) {
    && Safe(s)
    && (!s.shuffled ==> InOrder(ctx, s.list))
    && (s.shuffled ==>
          && s.shuffleLen <= |s.list| && (s.shuffleKeep < s.shuffleLen || s.shuffleKeep <= 0)
          && (Replayable(s) ==> InOrder(ctx, Restored(rng, s).list)))
  }

  /** The list with the shuffle it is under, apart from cursor and queue. */
  predicate SameShuffle(s: State, s': State) {
    s'.shuffled == s.shuffled && s'.seed == s.seed && s'.shuffleLen == s.shuffleLen && s'.shuffleKeep == s.shuffleKeep
  }

  /** The list only gained items, at either end. */
  predicate Gained(s: State, s': State) {
    SameShuffle(s, s') && (s'.list == s.list || |s'.list| > |s.list|)
  }

  lemma GrownByGains(ctx: Context, list: seq<Item>, n: nat)
    ensures GrownBy(ctx, list, n) == list || |GrownBy(ctx, list, n)| > |list|
  {
    hide CanGrow, Grown;
  }

  /** A seek grows the list by whole pages and ends on it. */
  lemma SeekGrows(ctx: Context, list: seq<Item>, f: Track -> bool, budget: nat) returns (pages: nat)
    ensures var w := SeekFrom(ctx, list, 0, f, budget);
      w.list == GrownBy(ctx, list, pages) && (w.outcome.Found? ==> w.outcome.at < |w.list|)
  {
    pages := SeekFinds(ctx, list, 0, f, budget);
  }

  /** Everything but turning shuffle on or off only adds to the list, and adds to
      an unshuffled one in the order of the context. */
  lemma StepGains(ctx: Context, rng: Rng, op: Op, s: State)
    requires Safe(s) && Applies(op, s) && !op.SetShuffle?
    ensures var s' := Apply(ctx, rng, op, s);
      Safe(s') && Gained(s, s') && (Positioned(s) ==> Positioned(s'))
  {
    hide CanGrow, Grown, GrownBy, SeekFrom;
    match op {
      case SeekTo(f, budget) =>
        var n := SeekGrows(ctx, s.list, f, budget);
        GrownByGains(ctx, s.list, n);
      case SeekOrStart(f, budget, _) =>
        var n := SeekGrows(ctx, s.list, f, budget);
        GrownByGains(ctx, s.list, n);
      case JumpTo(track, budget) =>
        var n := SeekGrows(ctx, s.list, SameAs(track), budget);
        GrownByGains(ctx, s.list, n);
      case LookAhead(pages) => GrownByGains(ctx, s.list, pages);
      case _ =>
    }
  }

  lemma GrownByKeepsOrder(ctx: Context, list: seq<Item>, n: nat)
    requires InOrder(ctx, list)
    ensures InOrder(ctx, GrownBy(ctx, list, n))
  {
    hide Shaped, GrownBy;
    var m: nat, k: nat :| Shaped(ctx, list, m, k);
    var k' := GrownByInOrder(ctx, list, n, m, k);
  }

  lemma GrownKeepsOrder(ctx: Context, list: seq<Item>)
    requires InOrder(ctx, list) && CanGrow(ctx, list)
    ensures InOrder(ctx, Grown(ctx, list))
  {
    hide Shaped, Grown, CanGrow;
    var m: nat, k: nat :| Shaped(ctx, list, m, k);
    GrownInOrder(ctx, list, m, k);
  }

  lemma InjectKeepsOrder(ctx: Context, list: seq<Item>, track: Track)
    requires InOrder(ctx, list)
    ensures InOrder(ctx, [Item(track, INJECTED_PAGE, -1)] + list)
  {
    var m: nat, k: nat :| Shaped(ctx, list, m, k);
    var injected := [Item(track, INJECTED_PAGE, -1)] + list;
    assert injected[m + 1..] == list[m..];
    assert Shaped(ctx, injected, m + 1, k);
  }

  lemma StepInOrder(ctx: Context, rng: Rng, op: Op, s: State)
    requires Safe(s) && Applies(op, s) && !op.SetShuffle? && InOrder(ctx, s.list)
    ensures InOrder(ctx, Apply(ctx, rng, op, s).list)
  {
    hide CanGrow, Grown, GrownBy, SeekFrom, InOrder;
    match op {
      case Next(_) => if CanGrow(ctx, s.list) { GrownKeepsOrder(ctx, s.list); }
      case Start(_) => if CanGrow(ctx, s.list) { GrownKeepsOrder(ctx, s.list); }
      case SeekTo(f, budget) =>
        var n := SeekGrows(ctx, s.list, f, budget);
        GrownByKeepsOrder(ctx, s.list, n);
      case SeekOrStart(f, budget, _) =>
        var n := SeekGrows(ctx, s.list, f, budget);
        GrownByKeepsOrder(ctx, s.list, n);
        var list := SeekFrom(ctx, s.list, 0, f, budget).list;
        if CanGrow(ctx, list) { GrownKeepsOrder(ctx, list); }
      case JumpTo(track, budget) =>
        var n := SeekGrows(ctx, s.list, SameAs(track), budget);
        GrownByKeepsOrder(ctx, s.list, n);
        InjectKeepsOrder(ctx, SeekFrom(ctx, s.list, 0, SameAs(track), budget).list, track);
      case LookAhead(pages) => GrownByKeepsOrder(ctx, s.list, pages);
      case _ =>
    }
  }

  /** What replaying the seed gives back: the same list wherever the cursor went,
      with the cursor on the item it was on. */
  lemma RestoredKeeps(rng: Rng, s: State)
    requires Placed(Deck(s.list, s.pos))
    ensures var d := Restored(rng, s);
      && Placed(d) && (d.pos < 0 <==> s.pos < 0) && (s.pos >= 0 ==> d.list[d.pos] == s.list[s.pos])
      && |d.list| == |s.list| && d.list == Restored(rng, s.(pos := -1)).list
  {
    hide Unshuffle;
    var d := Deck(s.list, s.pos);
    if 0 < s.shuffleKeep < |s.list| {
      SwapKeeps(d, 0, s.shuffleKeep);
      var swapped := Swap(d, 0, s.shuffleKeep);
      UnshuffleKeeps(rng, s.seed, swapped);
      UnshuffleKeeps(rng, s.seed, Swap(Deck(s.list, -1), 0, s.shuffleKeep));
      assert Swap(Deck(s.list, -1), 0, s.shuffleKeep).list == swapped.list;
    } else {
      UnshuffleKeeps(rng, s.seed, d);
    }
  }

  /** Turning shuffle on loads what there is to load, permutes it, and brings the
      current track to the front; replaying the seed undoes exactly that. */
  lemma ShuffleOnRestores(ctx: Context, rng: Rng, s: State, random: nat, budget: nat)
    requires Safe(s)
    ensures var s' := ShuffleOn(ctx, rng, s, random, budget);
      var loaded := SeekFrom(ctx, s.list, 0, NoTrack(), budget).list;
      && Safe(s') && s'.shuffled && s'.shuffleLen == |s'.list| == |loaded|
      && (s'.shuffleKeep < |loaded| || s'.shuffleKeep <= 0)
      && multiset(s'.list) == multiset(loaded)
      && (s.pos >= 0 ==> s'.pos == 0 && s'.list[0] == s.list[s.pos])
      && Restored(rng, s') == Deck(loaded, s.pos)
  {
    var pages := SeekGrows(ctx, s.list, NoTrack(), budget);
    hide SeekFrom, GrownBy, Shuffle, Unshuffle;
    var loaded := SeekFrom(ctx, s.list, 0, NoTrack(), budget).list;
    assert s.list <= loaded;
    var seed := (random + 1) % TWO_64;
    var d0 := Deck(loaded, s.pos);
    ShuffleKeeps(rng, seed, d0);
    ShuffleRoundTrip(rng, seed, d0);
    var d := Shuffle(rng, seed, d0);
    if d.pos > 0 {
      SwapKeeps(d, 0, d.pos);
      SwapTwice(d, 0, d.pos);
    }
  }

  /** Every order of what loads can come out, with the current track first. */
  lemma ShuffleOnEveryOrder(ctx: Context, s: State, random: nat, budget: nat, perm: seq<Item>) returns (rng: Rng)
    requires Safe(s) && multiset(perm) == multiset(SeekFrom(ctx, s.list, 0, NoTrack(), budget).list)
    requires s.pos >= 0 ==> perm != [] && perm[0] == s.list[s.pos]
    ensures ShuffleOn(ctx, rng, s, random, budget).list == perm
  {
    var pages := SeekGrows(ctx, s.list, NoTrack(), budget);
    hide SeekFrom, GrownBy, Shuffle;
    var d := Deck(SeekFrom(ctx, s.list, 0, NoTrack(), budget).list, s.pos);
    var seed := (random + 1) % TWO_64;
    rng := EveryOrder(seed, d, perm);
    ShuffleKeeps(rng, seed, d);
    var d' := Shuffle(rng, seed, d);
    assert d'.pos > 0 ==> perm[0 := perm[d'.pos]][d'.pos := perm[0]] == perm;
  }

  lemma ShuffleOnKeepsInv(ctx: Context, rng: Rng, s: State, random: nat, budget: nat)
    requires Inv(ctx, rng, s) && !s.shuffled
    ensures Inv(ctx, rng, ShuffleOn(ctx, rng, s, random, budget))
    ensures Positioned(s) ==> Positioned(ShuffleOn(ctx, rng, s, random, budget))
  {
    ShuffleOnRestores(ctx, rng, s, random, budget);
    var pages := SeekGrows(ctx, s.list, NoTrack(), budget);
    GrownByKeepsOrder(ctx, s.list, pages);
    hide SeekFrom, GrownBy, Shuffle, Unshuffle, InOrder, ShuffleOn, Restored;
  }

  lemma EmptyInOrder(ctx: Context)
    ensures InOrder(ctx, [])
  {
    assert Shaped(ctx, [], 0, 0);
  }

  /** Turning shuffle off leaves a list in order; if it fails, everything is as
      it was. */
  lemma ShuffleOffKeepsInv(ctx: Context, rng: Rng, s: State, budget: nat)
    requires Inv(ctx, rng, s) && s.shuffled && (Replayable(s) || s.playingQueue || Positioned(s))
    ensures Inv(ctx, rng, ShuffleOff(ctx, rng, s, budget).0)
    ensures Positioned(s) ==> Positioned(ShuffleOff(ctx, rng, s, budget).0)
    ensures !ShuffleOff(ctx, rng, s, budget).1 ==> ShuffleOff(ctx, rng, s, budget).0 == s
  {
    hide InOrder, GrownBy, SeekFrom, Restored;
    if Replayable(s) {
      RestoredKeeps(rng, s);
    } else {
      EmptyInOrder(ctx);
      var pages := SeekGrows(ctx, [], SameAs(Current(s)), budget);
      GrownByKeepsOrder(ctx, [], pages);
    }
  }

  lemma StepKeepsInv(ctx: Context, rng: Rng, op: Op, s: State)
    requires Inv(ctx, rng, s) && Applies(op, s)
    ensures Inv(ctx, rng, Apply(ctx, rng, op, s))
    ensures Positioned(s) ==> Positioned(Apply(ctx, rng, op, s))
  {
    hide InOrder, GrownBy, SeekFrom, Restored, ShuffleOn, ShuffleOff, Apply;
    if op.SetShuffle? {
      SetShuffleKeepsInv(ctx, rng, op, s);
    } else {
      StepGains(ctx, rng, op, s);
      if !s.shuffled {
        StepInOrder(ctx, rng, op, s);
      } else {
        var s' := Apply(ctx, rng, op, s);
        if Replayable(s') {
          SameListRestored(rng, s, s');
        }
      }
    }
  }

  lemma SetShuffleKeepsInv(ctx: Context, rng: Rng, op: Op, s: State)
    requires Inv(ctx, rng, s) && Applies(op, s) && op.SetShuffle?
    ensures Inv(ctx, rng, Apply(ctx, rng, op, s))
    ensures Positioned(s) ==> Positioned(Apply(ctx, rng, op, s))
  {
    hide InOrder, GrownBy, SeekFrom, Restored, ShuffleOn, ShuffleOff, Inv;
    if op.on != s.shuffled {
      if op.on {
        ShuffleOnKeepsInv(ctx, rng, s, op.random, op.budget);
      } else {
        ShuffleOffKeepsInv(ctx, rng, s, op.budget);
      }
    }
  }

  lemma SameListRestored(rng: Rng, s: State, s': State)
    requires SameShuffle(s, s') && s'.list == s.list
    requires Placed(Deck(s.list, s.pos)) && Placed(Deck(s'.list, s'.pos))
    ensures Restored(rng, s').list == Restored(rng, s).list
  {
    RestoredKeeps(rng, s);
    RestoredKeeps(rng, s');
    hide Unshuffle;
  }

  /** A run of operations. */
  ghost predicate Steps(ctx: Context, rng: Rng, ops: seq<Op>, s: State, t: State) {
    if ops == [] then t == s
    else exists mid: State ::
      && Steps(ctx, rng, ops[..|ops|-1], s, mid) && Safe(mid) && Applies(ops[|ops|-1], mid)
      && t == Apply(ctx, rng, ops[|ops|-1], mid)
  }

  /** Every list reachable from a new one satisfies the invariant, and once it is
      positioned it stays positioned. */
  lemma {:induction false} ReachableInv(ctx: Context, rng: Rng, ops: seq<Op>, s: State, t: State)
    requires Steps(ctx, rng, ops, s, t) && Inv(ctx, rng, s)
    ensures Inv(ctx, rng, t) && (Positioned(s) ==> Positioned(t))
  {
    hide Inv, Apply;
    if ops != [] {
      var op := ops[|ops|-1];
      var mid: State :| Steps(ctx, rng, ops[..|ops|-1], s, mid) && Safe(mid) && Applies(op, mid)
        && t == Apply(ctx, rng, op, mid);
      ReachableInv(ctx, rng, ops[..|ops|-1], s, mid);
      StepKeepsInv(ctx, rng, op, mid);
    }
  }

  lemma EmptyInv(ctx: Context, rng: Rng)
    ensures Inv(ctx, rng, EMPTY)
  {
    EmptyInOrder(ctx);
  }

  lemma {:induction false} StepsGain(ctx: Context, rng: Rng, ops: seq<Op>, s: State, t: State)
    requires Steps(ctx, rng, ops, s, t) && Safe(s) && forall op :: op in ops ==> !op.SetShuffle?
    ensures Safe(t) && Gained(s, t)
  {
    hide Apply;
    if ops != [] {
      var op := ops[|ops|-1];
      var mid: State :| Steps(ctx, rng, ops[..|ops|-1], s, mid) && Safe(mid) && Applies(op, mid)
        && t == Apply(ctx, rng, op, mid);
      StepsGain(ctx, rng, ops[..|ops|-1], s, mid);
      StepGains(ctx, rng, op, mid);
    }
  }

  /** Shuffle on, any steps that load nothing new, shuffle off: the fully loaded
      list is restored exactly, with the cursor on the track it was on, and with
      no steps between just where it was. This needs the seed not to have wrapped
      to zero, which marks a list that was never shuffled. */
  lemma ShuffleOnOff(ctx: Context, rng: Rng, s: State, random: nat, budget: nat, ops: seq<Op>, t: State, budget': nat)
    requires Safe(s) && !s.shuffled && (random + 1) % TWO_64 != 0
    requires Steps(ctx, rng, ops, ShuffleOn(ctx, rng, s, random, budget), t)
    requires forall op :: op in ops ==> !op.SetShuffle?
    requires |t.list| == |ShuffleOn(ctx, rng, s, random, budget).list|
    ensures Safe(t) && Replayable(t)
    ensures var (u, ok) := ShuffleOff(ctx, rng, t, budget');
      && ok && !u.shuffled && u.list == SeekFrom(ctx, s.list, 0, NoTrack(), budget).list
      && Safe(u) && (t.pos >= 0 ==> Positioned(u) && u.list[u.pos] == t.list[t.pos])
      && u.queue == t.queue && u.playingQueue == t.playingQueue
      && (ops == [] ==> u.pos == s.pos)
  {
    var on := ShuffleOn(ctx, rng, s, random, budget);
    ShuffleOnRestores(ctx, rng, s, random, budget);
    StepsGain(ctx, rng, ops, on, t);
    RestoredKeeps(rng, t);
    SameListRestored(rng, on, t);
    hide Restored, SeekFrom, Steps;
  }

  /** A seek that has to fetch finds its match on the last page it fetched. */
  lemma {:induction false} SeekLastPage(ctx: Context, list: seq<Item>, i: nat, f: Track -> bool, budget: nat)
    requires i <= |list|
    ensures var w := SeekFrom(ctx, list, i, f, budget);
      w.outcome.Found? ==>
        && i <= w.outcome.at < |w.list|
        && (w.list == list || w.list[w.outcome.at].page == NextPage(w.list) - 1)
    decreases budget, |list| - i
  {
    hide AtEnd;
    if i < |list| {
      if !f(list[i].track) && list[i].page < SEEK_MAX_PAGES {
        SeekLastPage(ctx, list, i + 1, f, budget);
      }
    } else if CanGrow(ctx, list) && !AtEnd(ctx, list) && budget > 0 {
      SeekLastPage(ctx, Grown(ctx, list), i, f, budget - 1);
      GrownPages(ctx, list);
    }
  }

  lemma GrownPages(ctx: Context, list: seq<Item>)
    requires CanGrow(ctx, list)
    ensures NextPage(Grown(ctx, list)) == NextPage(list) + 1
    ensures forall j :: |list| <= j < |Grown(ctx, list)| ==> Grown(ctx, list)[j].page == NextPage(list)
  {}

  /** The track is in this list, and on its last page only. */
  ghost predicate OnLastPageOnly(list: seq<Item>, track: Track) {
    && (exists j :: 0 <= j < |list| && Same(track, list[j].track))
    && (forall j :: 0 <= j < |list| && Same(track, list[j].track) ==> list[j].page == NextPage(list) - 1)
  }

  /** Shuffle turned off without replaying the seed, because it wrapped to zero or
      the list has grown: if the context loads again, the cursor is on the first
      track that is the current one, and the list is a given one in order exactly if
      nothing was injected there and the current track is on its last page only. */
  lemma RefetchRestores(ctx: Context, rng: Rng, s: State, loaded: seq<Item>, budget: nat)
    requires QueueSafe(s) && (s.playingQueue || Positioned(s)) && !Replayable(s)
    requires InOrder(ctx, loaded) && loaded != []
    ensures var (u, ok) := ShuffleOff(ctx, rng, s, budget);
      ok ==>
        && Positioned(u) && Same(Current(s), u.list[u.pos].track)
        && (forall j :: 0 <= j < u.pos ==> !Same(Current(s), u.list[j].track))
        && (u.list == loaded <==> loaded[0].page != INJECTED_PAGE && OnLastPageOnly(loaded, Current(s)))
  {
    hide SeekFrom, GrownBy, Shaped, InOrder, OnLastPageOnly, Same;
    var cur := Current(s);
    var pages := SeekFinds(ctx, [], 0, SameAs(cur), budget);
    var w := SeekFrom(ctx, [], 0, SameAs(cur), budget);
    if w.outcome.Found? {
      SeekLastPage(ctx, [], 0, SameAs(cur), budget);
      EmptyShaped(ctx);
      var k := GrownByInOrder(ctx, [], pages, 0, 0);
      FirstOnLastPage(ctx, w.list, w.outcome.at, loaded, cur, k);
    }
  }

  lemma EmptyShaped(ctx: Context)
    ensures Shaped(ctx, [], 0, 0)
  {}

  /** Two lists in order, one of them up to the page of the first match. */
  lemma FirstOnLastPage(ctx: Context, list: seq<Item>, at: nat, loaded: seq<Item>, cur: Track, k: nat)
    requires Shaped(ctx, list, 0, k) && InOrder(ctx, loaded) && loaded != []
    requires at < |list| && list[at].page == NextPage(list) - 1 && Same(cur, list[at].track)
    requires forall j :: 0 <= j < at ==> !Same(cur, list[j].track)
    ensures list == loaded <==> loaded[0].page != INJECTED_PAGE && OnLastPageOnly(loaded, cur)
  {
    hide Shaped, Same, OnLastPageOnly;
    OnlyLast(ctx, list, at, cur, k);
    InOrderParts(ctx, list, 0, k);
    if list == loaded {
    } else if loaded[0].page != INJECTED_PAGE && OnLastPageOnly(loaded, cur) {
      var k' := NotInjected(ctx, loaded);
      LastPages(ctx, list, loaded, at, cur, k, k');
    }
  }

  lemma InOrderParts(ctx: Context, list: seq<Item>, m: nat, k: nat)
    requires Shaped(ctx, list, m, k) && m == 0
    ensures list == FirstPages(ctx, k) && NextPage(list) == k
    ensures forall j :: 0 <= j < |list| ==> 0 <= list[j].page < k
  {
    assert list[0..] == list;
    ShapedNextPage(ctx, list, 0, k);
    FirstPageNumbers(ctx, k);
  }

  lemma NotInjected(ctx: Context, loaded: seq<Item>) returns (k: nat)
    requires InOrder(ctx, loaded) && loaded != [] && loaded[0].page != INJECTED_PAGE
    ensures Shaped(ctx, loaded, 0, k)
  {
    var m: nat, n: nat :| Shaped(ctx, loaded, m, n);
    k := n;
  }

  /** Nothing before the last page of a list in order comes after anything on it. */
  lemma {:induction false} PagesInOrder(ctx: Context, k: nat, i: nat, j: nat)
    requires HasPages(ctx, k) && i < j < |FirstPages(ctx, k)|
    ensures FirstPages(ctx, k)[i].page <= FirstPages(ctx, k)[j].page
  {
    hide Tagged;
    if k > 0 {
      FirstPageNumbers(ctx, k - 1);
      if j < |FirstPages(ctx, k - 1)| {
        PagesInOrder(ctx, k - 1, i, j);
      }
    }
  }

  lemma OnlyLast(ctx: Context, list: seq<Item>, at: nat, cur: Track, k: nat)
    requires Shaped(ctx, list, 0, k) && at < |list| && list[at].page == NextPage(list) - 1
    requires Same(cur, list[at].track) && forall j :: 0 <= j < at ==> !Same(cur, list[j].track)
    ensures OnLastPageOnly(list, cur)
  {
    hide Same, FirstPages;
    InOrderParts(ctx, list, 0, k);
    forall j | 0 <= j < |list| && Same(cur, list[j].track) ensures list[j].page == NextPage(list) - 1 {
      if at < j {
        PagesInOrder(ctx, k, at, j);
      }
    }
  }

  lemma {:induction false} PagesPrefix(ctx: Context, k: nat, n: nat)
    requires k <= n && HasPages(ctx, n)
    ensures HasPages(ctx, k) && FirstPages(ctx, k) <= FirstPages(ctx, n)
    decreases n
  {
    hide Tagged;
    if k < n {
      PagesPrefix(ctx, k, n - 1);
    }
  }

  /** The page a track is first on is the same in both. */
  lemma LastPages(ctx: Context, list: seq<Item>, loaded: seq<Item>, at: nat, cur: Track, k: nat, k': nat)
    requires Shaped(ctx, list, 0, k) && Shaped(ctx, loaded, 0, k')
    requires at < |list| && list[at].page == NextPage(list) - 1 && Same(cur, list[at].track)
    requires OnLastPageOnly(list, cur) && OnLastPageOnly(loaded, cur)
    ensures list == loaded
  {
    hide Same, FirstPages;
    InOrderParts(ctx, list, 0, k);
    InOrderParts(ctx, loaded, 0, k');
    if k < k' {
      PagesPrefix(ctx, k, k');
      assert false;
    } else {
      PagesPrefix(ctx, k', k);
      var j :| 0 <= j < |loaded| && Same(cur, loaded[j].track);
      assert list[j] == loaded[j];
    }
  }

  /** When the random number is the largest of 64 bits the seed is zero and the list
      cannot be replayed. It is loaded again instead, and then is what it was exactly
      if nothing had been injected and the track current by then is on the last
      loaded page only; the cursor is on that track's first occurrence. */
  lemma WrappedSeed(
    ctx: Context, rng: Rng, s: State, random: nat, budget: nat, ops: seq<Op>, t: State, budget': nat)
    requires Inv(ctx, rng, s) && !s.shuffled && Positioned(s) && (random + 1) % TWO_64 == 0
    requires Steps(ctx, rng, ops, ShuffleOn(ctx, rng, s, random, budget), t)
    requires forall op :: op in ops ==> !op.SetShuffle?
    ensures Safe(t) && Positioned(t) && !Replayable(t)
    ensures var loaded := SeekFrom(ctx, s.list, 0, NoTrack(), budget).list;
      var (u, ok) := ShuffleOff(ctx, rng, t, budget');
      && loaded != []
      && (ok ==>
            && Positioned(u) && Same(Current(t), u.list[u.pos].track)
            && (forall j :: 0 <= j < u.pos ==> !Same(Current(t), u.list[j].track))
            && (u.list == loaded <==> loaded[0].page != INJECTED_PAGE && OnLastPageOnly(loaded, Current(t))))
  {
    hide SeekFrom, GrownBy, Shaped, ShuffleOn, ShuffleOff, Restored, InOrder, Steps, OnLastPageOnly, Same;
    var on := ShuffleOn(ctx, rng, s, random, budget);
    ShuffleOnRestores(ctx, rng, s, random, budget);
    ShuffleOnSeed(ctx, rng, s, random, budget);
    ShuffleOnKeepsInv(ctx, rng, s, random, budget);
    StepsGain(ctx, rng, ops, on, t);
    ReachableInv(ctx, rng, ops, on, t);
    var pages := SeekGrows(ctx, s.list, NoTrack(), budget);
    GrownByKeepsOrder(ctx, s.list, pages);
    RefetchRestores(ctx, rng, t, SeekFrom(ctx, s.list, 0, NoTrack(), budget).list, budget');
  }

  lemma ShuffleOnSeed(ctx: Context, rng: Rng, s: State, random: nat, budget: nat)
    requires Safe(s)
    ensures ShuffleOn(ctx, rng, s, random, budget).seed == (random + 1) % TWO_64
    ensures ShuffleOn(ctx, rng, s, random, budget).playingQueue == s.playingQueue
    ensures s.list <= SeekFrom(ctx, s.list, 0, NoTrack(), budget).list
  {
    var pages := SeekGrows(ctx, s.list, NoTrack(), budget);
    hide SeekFrom, Shuffle;
  }

  lemma {:induction false} FirstPageNumbers(ctx: Context, k: nat)
    requires HasPages(ctx, k)
    ensures forall i :: 0 <= i < |FirstPages(ctx, k)| ==> 0 <= FirstPages(ctx, k)[i].page < k
  {
    if k > 0 {
      FirstPageNumbers(ctx, k - 1);
    }
  }

  /** In an unshuffled list a seek lands on the first match in the order of the
      context, injected tracks first. */
  lemma SeekInOrder(ctx: Context, rng: Rng, s: State, f: Track -> bool, budget: nat)
    requires Inv(ctx, rng, s) && !s.shuffled
    ensures var (t, ok) := Seek(ctx, s, f, budget);
      && InOrder(ctx, t.list) && s.list <= t.list
      && (ok ==> Positioned(t) && f(t.list[t.pos].track) && forall j :: 0 <= j < t.pos ==> !f(t.list[j].track))
      && (!ok ==> t.pos == s.pos)
  {
    var n := SeekFinds(ctx, s.list, 0, f, budget);
    GrownByKeepsOrder(ctx, s.list, n);
  }

  /** A seek with no failing fetch comes to an end of its own: it fetches at most
      one page more than the page limit, even from a context without end. */
  lemma {:induction false} SeekEnds(ctx: Context, list: seq<Item>, i: nat, f: Track -> bool, budget: nat)
    requires i <= |list| && Numbered(list) && WellFormed(ctx)
    requires forall j :: 0 <= j < i ==> list[j].page < SEEK_MAX_PAGES
    requires budget > SEEK_MAX_PAGES + 1 - NextPage(list)
    requires i == |list| ==> budget > 0
    ensures !SeekFrom(ctx, list, i, f, budget).outcome.Failed?
    decreases budget, |list| - i
  {
    hide Tagged;
    if i < |list| {
      if !f(list[i].track) && list[i].page < SEEK_MAX_PAGES {
        SeekEnds(ctx, list, i + 1, f, budget);
      }
    } else if CanGrow(ctx, list) && !AtEnd(ctx, list) {
      SeekEnds(ctx, Grown(ctx, list), i, f, budget - 1);
    }
  }

  /** With no failing fetch a seek moves to the first match, unless there is none in the
      whole context or none up to the page limit. */
  lemma SeekComplete(ctx: Context, s: State, f: Track -> bool, budget: nat)
    requires Numbered(s.list) && WellFormed(ctx) && budget > SEEK_MAX_PAGES + 1
    ensures var (t, ok) := Seek(ctx, s, f, budget);
      if ok then Positioned(t) && f(t.list[t.pos].track) && forall j :: 0 <= j < t.pos ==> !f(t.list[j].track)
      else
        && t == s.(list := t.list)
        && (|| (AtEnd(ctx, t.list) && forall j :: 0 <= j < |t.list| ==> !f(t.list[j].track))
            || exists j :: 0 <= j < |t.list| && t.list[j].page >= SEEK_MAX_PAGES
                 && forall i :: 0 <= i <= j ==> !f(t.list[i].track))
  {
    SeekEnds(ctx, s.list, 0, f, budget);
    var pages := SeekFinds(ctx, s.list, 0, f, budget);
    hide SeekFrom;
  }

  /** Two pages of one track each, the first one current, both loaded. */
  function TwoPages(i: nat): Page {
    if i == 0 then Tracks([Track("a", "", "", false)])
    else if i == 1 then Tracks([Track("b", "", "", false)])
    else EndOfContext
  }

  const TRACK_A := Track("a", "", "", false)
  const TRACK_B := Track("b", "", "", false)
  const BOTH := [Item(TRACK_A, 0, 0), Item(TRACK_B, 1, 0)]

  lemma BothLoaded()
    ensures SeekFrom(TwoPages, BOTH, 0, NoTrack(), 1) == Walk(BOTH, Missing)
  {
    assert SeekFrom(TwoPages, BOTH, 2, NoTrack(), 1) == Walk(BOTH, Missing);
    assert SeekFrom(TwoPages, BOTH, 1, NoTrack(), 1) == Walk(BOTH, Missing);
  }

  lemma FirstPageFetched()
    ensures SeekFrom(TwoPages, [], 0, SameAs(TRACK_A), 1) == Walk([Item(TRACK_A, 0, 0)], Found(0))
  {
    assert Grown(TwoPages, []) == [Item(TRACK_A, 0, 0)];
    assert SeekFrom(TwoPages, [Item(TRACK_A, 0, 0)], 0, SameAs(TRACK_A), 0) == Walk([Item(TRACK_A, 0, 0)], Found(0));
  }

  /** A wrapped seed does lose what was loaded: here the second page. */
  lemma WrappedSeedLosesPages(rng: Rng)
    ensures var s := EMPTY.(list := BOTH, pos := 0);
      var on := ShuffleOn(TwoPages, rng, s, TWO_64 - 1, 1);
      && Safe(s) && SeekFrom(TwoPages, s.list, 0, NoTrack(), 1).list == s.list
      && Safe(on) && Positioned(on)
      && ShuffleOff(TwoPages, rng, on, 1).0.list == [Item(TRACK_A, 0, 0)]
  {
    hide Shuffle, Unshuffle, ShuffleOn, Restored, SeekFrom, TwoPages, SameAs;
    var s := EMPTY.(list := BOTH, pos := 0);
    BothLoaded();
    ShuffleOnRestores(TwoPages, rng, s, TWO_64 - 1, 1);
    ShuffleOnSeed(TwoPages, rng, s, TWO_64 - 1, 1);
    FirstPageFetched();
  }
}

/** What single moves of the list mean for what plays. */
module TrackListMoves {
  import opened Extremes
  import opened Paging
  import opened Walking
  import opened TrackListModel

  /** Going back undoes going on, except for the pages loaded. */
  lemma PrevUndoesNext(ctx: Context, s: State, fail: bool)
    requires QueueSafe(s) && Positioned(s) && Upcoming(s) == [] && GoNext(ctx, s, fail).1
    ensures var t := GoNext(ctx, s, fail).0;
      && Positioned(t) && s.list <= t.list
      && GoPrev(t) == (t.(pos := s.pos), true) && Current(GoPrev(t).0) == s.list[s.pos].track
  {
    hide CanGrow;
  }

  /** Going back leaves the queue, all of which is to come again, for the track before
      the cursor, or for the first one if the cursor is on it. */
  lemma PrevPlays(s: State)
    requires QueueSafe(s) && Positioned(s)
    ensures var (t, ok) := GoPrev(s);
      && QueueSafe(t) && Positioned(t) && t.list == s.list
      && Current(t) == s.list[if s.pos == 0 then 0 else s.pos - 1].track && Upcoming(t) == s.queue
      && (ok <==> s.pos > 0)
  {}

  /** Going on plays the first of the queued tracks still to come and leaves the
      others, or else the track after the cursor. Without one playback stays where the
      cursor is, and the queue is used up. */
  lemma NextPlays(ctx: Context, s: State, fail: bool)
    requires QueueSafe(s) && Positioned(s)
    ensures var (t, ok) := GoNext(ctx, s, fail);
      && QueueSafe(t) && Positioned(t) && s.list <= t.list
      && if Upcoming(s) != [] then
           ok && t.list == s.list && Current(t) == Upcoming(s)[0] && Upcoming(t) == Upcoming(s)[1..] && t.pos == s.pos
         else
           && (ok <==> s.pos + 1 < |s.list| || (CanGrow(ctx, s.list) && !fail))
           && t.pos == (if ok then s.pos + 1 else s.pos) && Current(t) == t.list[t.pos].track && t.queue == []
           && t.list == if s.pos + 1 == |s.list| && ok then Grown(ctx, s.list) else s.list
  {
    hide CanGrow;
  }

  /** Going to the start puts the cursor on the first track, of the first page if
      nothing was loaded, and fails only if there is none. */
  lemma StartPlays(ctx: Context, s: State, fail: bool)
    ensures var (t, ok) := GoStart(ctx, s, fail);
      && (ok <==> s.list != [] || (CanGrow(ctx, s.list) && !fail))
      && t == s.(list := t.list, pos := if ok then 0 else s.pos)
      && t.list == (if s.list == [] && ok then Grown(ctx, []) else s.list) && (ok ==> Positioned(t))
  {}

  /** A seek that finds nothing goes to the first track instead, if there is one. */
  lemma TrySeekPlays(ctx: Context, s: State, f: Track -> bool, budget: nat, fail: bool)
    ensures var (t, ok) := TrySeek(ctx, s, f, budget, fail); var w := SeekFrom(ctx, s.list, 0, f, budget);
      && t == s.(list := t.list, pos := t.pos) && w.list <= t.list
      && (ok ==> t.pos == (if w.outcome.Found? then w.outcome.at else 0) && Positioned(t))
      && (!ok ==> t.pos == s.pos && t.list == [] && (fail || !CanGrow(ctx, [])))
  {
    var pages := SeekFinds(ctx, s.list, 0, f, budget);
    hide SeekFrom;
  }

  /** Tracks are the same if they have the same uid, or if what the target goes by, its
      uri or else the uri of its gid, is one of the names of the other. */
  lemma SameMeans(target: Track, track: Track)
    ensures var name := if target.uri != "" then target.uri else target.gidUri;
      Same(target, track) <==>
        (target.uid != "" && track.uid == target.uid) || (name != "" && name in {track.uri, track.gidUri})
    ensures target.uid != "" || target.uri != "" || target.gidUri != "" <==> Same(target, target)
  {}

  /** Whether a jump to `track` is meant for this queue entry: by uid if the jump
      names one. */
  predicate Meant(track: Track, entry: Track) {
    if track.uid != "" then entry.uid == track.uid else Same(track, entry)
  }

  /** The entry a jump is meant for is the first that matches, if one does. */
  lemma {:induction false} QueueMatchIs(queue: seq<Track>, i: nat, track: Track)
    requires i <= |queue|
    ensures var at := QueueMatch(queue, i, track);
      && (at < |queue| ==> Meant(track, queue[at]) && Same(track, queue[at]))
      && (forall k :: i <= k < at ==> !Meant(track, queue[k]))
    decreases |queue| - i
  {
    if i < |queue| && !Meant(track, queue[i]) {
      QueueMatchIs(queue, i + 1, track);
    }
  }

  /** A jump meant for a track still queued plays the first such and leaves what is
      queued behind it; the context stays where it is. */
  lemma JumpInQueue(ctx: Context, s: State, track: Track, budget: nat, k: nat)
    requires QueueSafe(s) && k < |Upcoming(s)| && Meant(track, Upcoming(s)[k])
    requires forall i :: 0 <= i < k ==> !Meant(track, Upcoming(s)[i])
    ensures var t := TrySeekTo(ctx, s, track, budget);
      && QueueSafe(t) && t.playingQueue && Current(t) == Upcoming(s)[k] && Upcoming(t) == Upcoming(s)[k + 1..]
      && t.list == s.list && t.pos == s.pos
  {
    hide SeekFrom, Meant, QueueMatch;
    var start := if s.playingQueue then 1 else 0;
    assert forall i :: 0 <= i < |Upcoming(s)| ==> Upcoming(s)[i] == s.queue[start + i];
    MatchesFirst(s.queue, start, track, start + k);
    assert s.queue[start + k..][1..] == Upcoming(s)[k + 1..];
  }

  lemma {:induction false} MatchesFirst(queue: seq<Track>, i: nat, track: Track, at: nat)
    requires i <= at < |queue| && Meant(track, queue[at]) && forall k :: i <= k < at ==> !Meant(track, queue[k])
    ensures QueueMatch(queue, i, track) == at
    decreases at - i
  {
    hide Same;
    if i < at {
      MatchesFirst(queue, i + 1, track, at);
    }
  }

  /** Any other jump leaves the queue, less the entry playing, to follow: it goes to the
      first match in the context, or puts the track ahead of the context. */
  lemma JumpInContext(ctx: Context, s: State, track: Track, budget: nat)
    requires QueueSafe(s) && forall i :: 0 <= i < |Upcoming(s)| ==> !Meant(track, Upcoming(s)[i])
    ensures var t := TrySeekTo(ctx, s, track, budget); var w := SeekFrom(ctx, s.list, 0, SameAs(track), budget);
      && QueueSafe(t) && !t.playingQueue && t.queue == Upcoming(s)
      && if w.outcome.Found? then t.list == w.list && t.pos == w.outcome.at
         else t.list == [Item(track, -1, -1)] + w.list && t.pos == 0
  {
    hide SeekFrom, Meant;
    var start := if s.playingQueue then 1 else 0;
    QueueMatchIs(s.queue, start, track);
    assert forall i :: start <= i < |s.queue| ==> s.queue[i] == Upcoming(s)[i - start];
  }

  /** Jumping to a track always plays it: queued, found in the context, or put ahead
      of it; what was queued behind it still follows. */
  lemma JumpPlays(ctx: Context, s: State, track: Track, budget: nat)
    requires QueueSafe(s)
    ensures var t := TrySeekTo(ctx, s, track, budget);
      && QueueSafe(t) && (t.playingQueue || Positioned(t))
      && (Same(track, Current(t)) || Current(t) == track)
      && |Upcoming(t)| <= |Upcoming(s)|
      && Upcoming(t) == Upcoming(s)[|Upcoming(s)| - |Upcoming(t)|..]
  {
    hide SeekFrom, Same, QueueMatch, Meant;
    var start := if s.playingQueue then 1 else 0;
    QueueMatchIs(s.queue, start, track);
    var at := QueueMatch(s.queue, start, track);
    if at < |s.queue| {
      assert s.queue[at..][1..] == s.queue[at + 1..];
    } else {
      var pages := SeekFinds(ctx, s.list, 0, SameAs(track), budget);
    }
  }

  lemma {:induction false} LeadingOf(queued: seq<Track>, rest: seq<Track>)
    requires forall i :: 0 <= i < |queued| ==> queued[i].queued
    requires rest != [] ==> !rest[0].queued
    ensures LeadingQueued(queued + rest) == queued
  {
    if queued == [] {
      assert queued + rest == rest;
    } else {
      assert (queued + rest)[1..] == queued[1..] + rest;
      LeadingOf(queued[1..], rest);
    }
  }

  lemma {:induction false} LeadingIs(next: seq<Track>) returns (n: nat)
    ensures n <= |next| && LeadingQueued(next) == next[..n]
    ensures (forall i :: 0 <= i < n ==> next[i].queued) && (n < |next| ==> !next[n].queued)
  {
    n := 0;
    if next != [] && next[0].queued {
      var m := LeadingIs(next[1..]);
      n := m + 1;
      assert next[..n] == [next[0]] + next[1..][..m];
    }
  }

  /** Setting the queue keeps what plays and takes the tracks marked as queued, up to
      the first one that is not. */
  lemma SetQueueTakes(s: State, next: seq<Track>) returns (n: nat)
    requires QueueSafe(s)
    ensures var t := SetQueue(s, next);
      && n <= |next| && (forall i :: 0 <= i < n ==> next[i].queued) && (n < |next| ==> !next[n].queued)
      && QueueSafe(t) && Upcoming(t) == next[..n] && t == s.(queue := t.queue)
      && (s.playingQueue ==> t.queue[0] == s.queue[0])
  {
    n := LeadingIs(next);
  }

  /** Setting the queue from what was published changes nothing, as long as all of
      the queue was published and only queued tracks are marked so. */
  lemma SetQueuePublished(ctx: Context, s: State)
    requires QueueSafe(s) && Positioned(s) && |Upcoming(s)| <= MAX_TRACKS_IN_CONTEXT
    requires forall i :: 0 <= i < |Upcoming(s)| ==> Upcoming(s)[i].queued
    requires forall i :: 0 <= i < |Published(ctx, s).list| ==> !Published(ctx, s).list[i].track.queued
    ensures SetQueue(s, NextTracks(ctx, s)) == s
  {
    hide LoadedTo, LeadingQueued;
    var list := Published(ctx, s).list;
    var rest := TracksOf(list[s.pos + 1..Min(|list|, s.pos + 1 + Room(s))]);
    LeadingOf(Upcoming(s), rest);
    assert NextTracks(ctx, s) == Upcoming(s) + rest;
    assert s.playingQueue ==> s.queue == s.queue[..1] + s.queue[1..];
  }

  /** Tracks added to the queue play in the order they were added, after those
      already queued. */
  lemma AddedLast(s: State, track: Track)
    requires QueueSafe(s)
    ensures var t := AddToQueue(s, track);
      && QueueSafe(t) && Upcoming(t) == Upcoming(s) + [track.(queued := true)] && t == s.(queue := t.queue)
      && (s.playingQueue ==> t.queue[0] == s.queue[0])
  {}

  /** The queue plays when it is told to and there is one, and only then. */
  lemma PlayingQueueSet(s: State, val: bool)
    ensures var t := SetPlayingQueue(s, val);
      && QueueSafe(t) && t == s.(playingQueue := t.playingQueue)
      && (Positioned(s) ==> Current(t) == if val && s.queue != [] then s.queue[0] else s.list[s.pos].track)
  {}
}
