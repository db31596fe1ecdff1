/** The paged list and the track list as the objects the daemon updates. */
module PagedLists {
  import opened Quotients
  import opened Paging
  import opened Walking
  import opened Shuffling

  datatype Fetch = Fetched | Eof | FetchError

  /** A walk of `first` that has spent so many fetches goes on as a walk of `list`
      from index i. */
  ghost predicate GoesOn(ctx: Context, first: seq<Item>, f: Track -> bool, spent: nat, list: seq<Item>, i: nat)
    requires i <= |list|
  {
    forall b: nat :: SeekFrom(ctx, list, i, f, b) == SeekFrom(ctx, first, 0, f, spent + b)
  }

  /** A fetch a walk needed has gone through. */
  lemma WalkFetched(ctx: Context, first: seq<Item>, f: Track -> bool, spent: nat, was: seq<Item>)
    requires GoesOn(ctx, first, f, spent, was, |was|) && CanGrow(ctx, was) && !AtEnd(ctx, was)
    ensures GoesOn(ctx, first, f, spent + 1, Grown(ctx, was), |was|)
    ensures NextPage(Grown(ctx, was)) == NextPage(was) + 1 && Grown(ctx, was)[|was|].page == NextPage(was)
  {
    var list := Grown(ctx, was);
    forall b: nat ensures SeekFrom(ctx, list, |was|, f, b) == SeekFrom(ctx, first, 0, f, spent + 1 + b) {
      assert SeekFrom(ctx, was, |was|, f, 1 + b) == SeekFrom(ctx, first, 0, f, spent + (1 + b));
    }
  }

  /** The item a walk looks at ends it or not. */
  lemma WalkLooks(ctx: Context, first: seq<Item>, f: Track -> bool, spent: nat, list: seq<Item>, i: nat)
    requires i < |list| && GoesOn(ctx, first, f, spent, list, i)
    ensures if f(list[i].track) then SeekFrom(ctx, first, 0, f, spent) == Walk(list, Found(i))
            else if list[i].page >= SEEK_MAX_PAGES then SeekFrom(ctx, first, 0, f, spent) == Walk(list, GaveUp)
            else GoesOn(ctx, first, f, spent, list, i + 1)
  {
    assert SeekFrom(ctx, list, i, f, 0) == SeekFrom(ctx, first, 0, f, spent + 0);
    if !f(list[i].track) && list[i].page < SEEK_MAX_PAGES {
      var next := i + 1;
      forall b: nat ensures SeekFrom(ctx, list, next, f, b) == SeekFrom(ctx, first, 0, f, spent + b) {
        assert SeekFrom(ctx, list, i, f, b) == SeekFrom(ctx, list, next, f, b);
      }
    }
  }

  /** One step of a walk, its item being there already or having been fetched. */
  lemma WalkOn(ctx: Context, first: seq<Item>, f: Track -> bool, spent: nat, was: seq<Item>, list: seq<Item>, i: nat)
    requires i <= |was| && GoesOn(ctx, first, f, spent, was, i)
    requires if i < |was| then list == was
             else CanGrow(ctx, was) && !AtEnd(ctx, was) && list == Grown(ctx, was)
    ensures list != was ==> NextPage(list) == NextPage(was) + 1 && list[i].page == NextPage(was)
    ensures var spent' := if i < |was| then spent else spent + 1;
      if f(list[i].track) then SeekFrom(ctx, first, 0, f, spent') == Walk(list, Found(i))
      else if list[i].page >= SEEK_MAX_PAGES then SeekFrom(ctx, first, 0, f, spent') == Walk(list, GaveUp)
      else GoesOn(ctx, first, f, spent', list, i + 1)
  {
    hide GoesOn, SeekFrom, CanGrow, AtEnd, Grown, NextPage;
    if i == |was| {
      WalkFetched(ctx, first, f, spent, was);
      WalkLooks(ctx, first, f, spent + 1, list, i);
    } else {
      WalkLooks(ctx, first, f, spent, list, i);
    }
  }

  /** The end of a walk that ran out of items, by failing or for good. */
  lemma WalkEnds(ctx: Context, first: seq<Item>, f: Track -> bool, spent: nat, list: seq<Item>)
    requires GoesOn(ctx, first, f, spent, list, |list|)
    ensures SeekFrom(ctx, first, 0, f, spent) == Walk(list, Failed)
    ensures AtEnd(ctx, list) ==> SeekFrom(ctx, first, 0, f, spent + 1) == Walk(list, Missing)
  {
    assert SeekFrom(ctx, list, |list|, f, 0) == SeekFrom(ctx, first, 0, f, spent + 0);
    assert SeekFrom(ctx, list, |list|, f, 1) == SeekFrom(ctx, first, 0, f, spent + 1);
  }

  lemma GoesOnFromStart(ctx: Context, list: seq<Item>, f: Track -> bool)
    ensures GoesOn(ctx, list, f, 0, list, 0)
  {}

  lemma LastPage(list: seq<Item>)
    ensures NextPage(list) == if list == [] then 0 else list[|list| - 1].page + 1
  {}

  /** A context without empty pages can always be read on, or is at its end. */
  lemma ReadsOn(ctx: Context, list: seq<Item>)
    requires Numbered(list) && WellFormed(ctx)
    ensures CanGrow(ctx, list) || AtEnd(ctx, list)
  {}

  class PagedList {
    const ctx: Context
    const online: bool  // no request for a page fails
    var list: seq<Item>
    var pos: int

    constructor (ctx: Context, online: bool)
      ensures Valid() && this.ctx == ctx && this.online == online && list == [] && pos == -1
    {
      this.ctx, this.online, list, pos := ctx, online, [], -1;
    }

    ghost predicate Valid()
      reads this
    {
      Numbered(list) && Placed(Deck(list, pos))
    }

    /** Loads the page after that of the last item. The request may fail at any time
        unless the list is online; an empty page is a failure too. */
    method FetchNextPage() returns (r: Fetch)
      requires Valid()
      modifies `list
      ensures Valid()
      ensures r.Fetched? ==> CanGrow(ctx, old(list)) && !AtEnd(ctx, old(list)) && list == Grown(ctx, old(list))
      ensures r.Eof? ==> AtEnd(ctx, list)
      ensures r.FetchError? && online ==> !CanGrow(ctx, list) && !AtEnd(ctx, list)
      ensures !r.Fetched? ==> list == old(list)
    {
      var page := NextPage(list);
      var refused := *;
      if refused && !online {
        return FetchError;
      }
      match ctx(page) {
        case EndOfContext => r := Eof;
        case Tracks(tracks) =>
          if |tracks| == 0 {
            return FetchError;
          }
          var i := 0;
          ghost var was := list;
          while i < |tracks|
            invariant i <= |tracks|
            invariant list == was + Tagged(tracks, page)[..i] && Valid()
          {
            list := list + [Item(tracks[i], page, i)];
            i := i + 1;
          }
          r := Fetched;
      }
    }

    /** Moves an iterator on by one, loading a page if it is at the end. */
    method Next(at: int) returns (at': int, ok: bool, failed: bool)
      requires Valid() && -1 <= at < |list|
      modifies `list
      ensures Valid() && !(ok && failed)
      ensures if ok then at' == at + 1 < |list| else at' == at && list == old(list)
      ensures ok ==> list == if at + 1 < |old(list)| then old(list) else Grown(ctx, old(list))
      ensures ok && at + 1 == |old(list)| ==> CanGrow(ctx, old(list)) && !AtEnd(ctx, old(list))
      ensures !ok ==> at + 1 == |old(list)| && (!failed ==> AtEnd(ctx, old(list)))
      ensures failed && online ==> !CanGrow(ctx, list) && !AtEnd(ctx, list)
    {
      while at + 1 >= |list|
        invariant Valid() && at < |list|
        invariant list == old(list) ||
          (at + 1 == |old(list)| < |list| && list == Grown(ctx, old(list)) &&
           CanGrow(ctx, old(list)) && !AtEnd(ctx, old(list)))
        decreases at + 1 - |list|
      {
        var r := FetchNextPage();
        if r.Eof? {
          return at, false, false;
        } else if r.FetchError? {
          return at, false, true;
        }
      }
      at', ok, failed := at + 1, true, false;
    }

    /** Puts a track belonging to no page at the head and makes it current. */
    method MoveInjected(track: Track)
      requires Valid()
      modifies this
      ensures Valid() && list == [Item(track, INJECTED_PAGE, -1)] + old(list) && pos == 0
    {
      list := [Item(track, INJECTED_PAGE, -1)] + list;
      pos := 0;
    }

    method SwapItems(i: nat, j: nat)
      requires Valid() && i < |list| && j < |list|
      modifies this
      ensures Valid() && Deck(list, pos) == Swap(old(Deck(list, pos)), i, j)
    {
      SwapKeeps(Deck(list, pos), i, j);
      list := list[i := list[j]][j := list[i]];
      if i == pos {
        pos := j;
      } else if j == pos {
        pos := i;
      }
    }

    /** Shuffles in place with a fresh generator, following the cursor. */
    method ShuffleItems(rnd: Rand)
      requires Valid() && rnd.asked == []
      modifies this, rnd
      ensures Valid() && Deck(list, pos) == Shuffle(rnd.rng, rnd.seed, old(Deck(list, pos)))
    {
      hide Numbered, Placed, Swap, ShuffleFrom, Draw, Rest, Bounds;
      if |list| <= 1 {
        return;
      }
      ghost var d := Deck(list, pos);
      var n := |list|;
      var i := n - 1;
      while i > 0
        invariant 0 <= i < n == |list| && Valid()
        invariant rnd.asked == if i == n - 1 then [] else Bounds(n, i + 1)
        invariant ShuffleFrom(rnd.rng, rnd.seed, Deck(list, pos), i) == ShuffleFrom(rnd.rng, rnd.seed, d, n - 1)
      {
        ShuffleStep(rnd.rng, rnd.seed, Deck(list, pos), i);
        BoundsStep(n, i);
        var j := rnd.Intn(i + 1);
        SwapItems(i, j);
        i := i - 1;
      }
      ShuffleDone(rnd.rng, rnd.seed, Deck(list, pos));
    }

    /** The exchanges a shuffle of n items made, in the order it made them. */
    method Exchanges(rnd: Rand, n: nat) returns (exchanges: array<nat>)
      requires n > 1 && rnd.asked == []
      modifies rnd
      ensures fresh(exchanges) && exchanges.Length == n - 1
      ensures forall l :: 0 <= l < n - 1 ==> exchanges[l] == Draw(rnd.rng, rnd.seed, n, n - 1 - l)
    {
      hide Rest;
      exchanges := new nat[n - 1];
      var k := 0;
      while k < n - 1
        invariant k <= n - 1
        invariant rnd.asked == if k == 0 then [] else Bounds(n, n - k)
        invariant forall l :: 0 <= l < k ==> exchanges[l] == Draw(rnd.rng, rnd.seed, n, n - 1 - l)
      {
        exchanges[k] := rnd.Intn(n - k);
        k := k + 1;
      }
    }

    /** Undoes a shuffle of this many items by the same seed. */
    method UnshuffleItems(rnd: Rand)
      requires Valid() && rnd.asked == []
      modifies this, rnd
      ensures Valid() && Deck(list, pos) == Unshuffle(rnd.rng, rnd.seed, old(Deck(list, pos)))
    {
      hide Bounds, Draw, Numbered, Placed, Swap, UnshuffleTo, Rest;
      if |list| <= 1 {
        return;
      }
      var n := |list|;
      var exchanges := Exchanges(rnd, n);
      ghost var d := Deck(list, pos);
      UnshuffleStart(rnd.rng, rnd.seed, d);
      var i := 1;
      while i < n
        invariant 1 <= i <= n == |list| && Valid()
        invariant Deck(list, pos) == UnshuffleTo(rnd.rng, rnd.seed, d, i - 1)
        invariant forall l :: 0 <= l < n - 1 ==> exchanges[l] == Draw(rnd.rng, rnd.seed, n, n - 1 - l)
      {
        UnshuffleStep(rnd.rng, rnd.seed, d, i);
        SwapItems(i, exchanges[n - i - 1]);
        i := i + 1;
      }
    }

    /** Walks from the first item until one matches, giving up past the page
        limit. It is the walk that spends `budget` fetches. */
    method Walk(f: Track -> bool) returns (outcome: Outcome, ghost budget: nat)
      requires Valid()
      modifies `list
      ensures Valid() && SeekFrom(ctx, old(list), 0, f, budget) == Walking.Walk(list, outcome)
      ensures outcome.Found? ==> outcome.at < |list|
      ensures outcome.Failed? && online ==> !CanGrow(ctx, list) && !AtEnd(ctx, list)
    {
      hide Numbered, Placed, GoesOn, SeekFrom, CanGrow, AtEnd, Grown, NextPage;
      var at := -1;
      budget := 0;
      GoesOnFromStart(ctx, list, f);
      while true
        invariant Valid() && -1 <= at < |list|
        invariant at == |list| - 1 && at >= 0 ==> NextPage(list) <= SEEK_MAX_PAGES
        invariant GoesOn(ctx, old(list), f, budget, list, at + 1)
        decreases SEEK_MAX_PAGES + 1 - NextPage(list), |list| - at
      {
        ghost var was := list;
        var ok, failed;
        at, ok, failed := Next(at);
        if !ok {
          WalkEnds(ctx, old(list), f, budget, list);
          budget := if failed then budget else budget + 1;
          return if failed then Failed else Missing, budget;
        }
        WalkOn(ctx, old(list), f, budget, was, list, at);
        budget := if at < |was| then budget else budget + 1;
        if f(list[at].track) {
          return Found(at), budget;
        }
        if list[at].page >= SEEK_MAX_PAGES {
          return GaveUp, budget;
        }
        LastPage(list);
      }
    }
  }
}

/** The track list the daemon moves through. */
module TrackLists {
  import opened Extremes
  import opened Paging
  import opened Walking
  import opened Shuffling
  import opened PagedLists
  import opened Words
  import M = TrackListModel

  /** Growing one page further. */
  lemma {:induction false} GrownByMore(ctx: Context, list: seq<Item>, n: nat)
    requires CanGrow(ctx, GrownBy(ctx, list, n))
    ensures GrownBy(ctx, list, n + 1) == Grown(ctx, GrownBy(ctx, list, n))
    decreases n
  {
    hide CanGrow, Grown;
    if n > 0 && CanGrow(ctx, list) {
      GrownByMore(ctx, Grown(ctx, list), n - 1);
    }
  }

  /** The tracks published once the context has been walked up to `at`. */
  ghost function WalkedTo(s: M.State, at: int): seq<Track>
    requires M.QueueSafe(s) && M.Positioned(s) && s.pos <= at < |s.list|
  {
    M.Upcoming(s)[..Min(M.MAX_TRACKS_IN_CONTEXT, |M.Upcoming(s)|)] + M.TracksOf(s.list[s.pos + 1..at + 1])
  }

  /** One step of the walk, its item being there already or having been fetched. */
  lemma PublishOn(ctx: Context, s: M.State, list: seq<Item>, at: int)
    requires M.QueueSafe(s) && M.Positioned(s) && s.pos <= at < |s.list| && at < s.pos + M.Room(s)
    requires list == if at + 1 < |s.list| then s.list else Grown(ctx, s.list)
    requires at + 1 == |s.list| ==> CanGrow(ctx, s.list)
    ensures M.Published(ctx, s.(list := list)) == M.Published(ctx, s)
    ensures at + 1 < |list| && WalkedTo(s.(list := list), at + 1) == WalkedTo(s, at) + [list[at + 1].track]
  {
    hide CanGrow, Grown, M.Published, WalkedTo;
    PublishNoLess(ctx, s, list);
    WalkedMore(s, list, at);
  }

  /** Loading a page that is to be published does not change what is. */
  lemma PublishNoLess(ctx: Context, s: M.State, list: seq<Item>)
    requires M.QueueSafe(s) && M.Positioned(s)
    requires list == s.list || (CanGrow(ctx, s.list) && list == Grown(ctx, s.list) && |s.list| <= s.pos + M.Room(s))
    ensures M.Positioned(s.(list := list)) && M.Published(ctx, s.(list := list)) == M.Published(ctx, s)
  {
    hide CanGrow, Grown;
    assert M.Room(s.(list := list)) == M.Room(s);
  }

  lemma WalkedMore(s: M.State, list: seq<Item>, at: int)
    requires M.QueueSafe(s) && M.Positioned(s) && s.pos <= at < |s.list| && s.list <= list && at + 1 < |list|
    ensures WalkedTo(s.(list := list), at + 1) == WalkedTo(s, at) + [list[at + 1].track]
  {
    hide M.TracksOf;
    var walked := s.list[s.pos + 1..at + 1];
    TracksOfMore(walked, list[at + 1]);
    assert list[s.pos + 1..at + 2] == walked + [list[at + 1]];
  }

  lemma TracksOfMore(items: seq<Item>, item: Item)
    ensures M.TracksOf(items + [item]) == M.TracksOf(items) + [item.track]
  {}

  /** What has been walked is a prefix of what is published, and all of it when
      nothing more fits or there is nothing more. */
  lemma PublishEnds(ctx: Context, s: M.State, at: int)
    requires M.QueueSafe(s) && M.Positioned(s) && s.pos <= at < |s.list| && at <= s.pos + M.Room(s)
    ensures WalkedTo(s, at) <= M.NextTracks(ctx, s)
    ensures at == s.pos + M.Room(s) || (at + 1 == |s.list| && AtEnd(ctx, s.list)) ==>
      M.Published(ctx, s) == s && WalkedTo(s, at) == M.NextTracks(ctx, s)
  {
    hide M.Room, M.TracksOf, LoadedTo, Grown, AtEnd, CanGrow, M.Upcoming;
    var n := s.pos + 1 + M.Room(s);
    var list := LoadedTo(ctx, s.list, n);
    LoadedEnds(ctx, s.list, n);
    var all := list[s.pos + 1..Min(|list|, n)];
    assert s.list[s.pos + 1..at + 1] == all[..at - s.pos];
    TracksOfTake(all, at - s.pos);
  }

  lemma LoadedEnds(ctx: Context, list: seq<Item>, n: nat)
    ensures n <= |list| || AtEnd(ctx, list) ==> LoadedTo(ctx, list, n) == list
  {}

  lemma TracksOfTake(items: seq<Item>, n: nat)
    requires n <= |items|
    ensures M.TracksOf(items[..n]) == M.TracksOf(items)[..n]
    ensures n == |items| ==> items[..n] == items
  {}

  lemma NotGrown(ctx: Context, list: seq<Item>)
    ensures GrownBy(ctx, list, 0) == list
  {}

  lemma WalkStarts(s: M.State)
    requires M.QueueSafe(s) && M.Positioned(s)
    ensures WalkedTo(s, s.pos) == M.Upcoming(s)[..Min(M.MAX_TRACKS_IN_CONTEXT, |M.Upcoming(s)|)]
  {}

  lemma PublishSame(ctx: Context, s: M.State, t: M.State)
    requires M.QueueSafe(s) && M.Positioned(s) && M.QueueSafe(t) && M.Positioned(t)
    requires M.Published(ctx, s) == M.Published(ctx, t)
    ensures M.NextTracks(ctx, s) == M.NextTracks(ctx, t)
  {
    hide M.TracksOf, LoadedTo;
    assert s.queue == t.queue && s.playingQueue == t.playingQueue && s.pos == t.pos;
    hide M.Published;
    assert M.Room(s) == M.Room(t);
  }

  class List {
    const rng: Rng
    const tracks: PagedList
    var shuffled: bool
    var seed: nat
    var shuffleLen: nat
    var shuffleKeep: int
    var playingQueue: bool
    var queue: seq<Track>

    constructor (ctx: Context, rng: Rng, online: bool)
      ensures Valid() && fresh(tracks) && View() == M.EMPTY && tracks.ctx == ctx && tracks.online == online
      ensures this.rng == rng
    {
      this.rng := rng;
      tracks := new PagedList(ctx, online);
      shuffled, seed, shuffleLen, shuffleKeep, playingQueue, queue := false, 0, 0, 0, false, [];
    }

    ghost function View(): M.State
      reads this, tracks
    {
      M.State(tracks.list, tracks.pos, queue, playingQueue, shuffled, seed, shuffleLen, shuffleKeep)
    }

    /** No fetch fails, and no page is empty. */
    ghost predicate Sound() {
      tracks.online && WellFormed(tracks.ctx)
    }

    ghost predicate Valid()
      reads this, tracks
    {
      && tracks.Valid() && M.QueueSafe(View())
      && (shuffled ==> shuffleKeep < shuffleLen)
    }

    method CurrentTrack() returns (track: Track)
      requires Valid() && (playingQueue || M.Positioned(View()))
      ensures track == M.Current(View())
    {
      if playingQueue {
        return queue[0];
      }
      track := tracks.list[tracks.pos].track;
    }

    method GoNext() returns (ok: bool, ghost fail: bool)
      requires Valid() && M.Positioned(View())
      modifies this, tracks
      ensures Valid() && M.GoNext(tracks.ctx, old(View()), fail) == (View(), ok)
      ensures Sound() ==> !fail
    {
      fail := false;
      if playingQueue {
        queue := queue[1..];
      }
      if |queue| > 0 {
        playingQueue := true;
        return true, false;
      }
      playingQueue := false;
      var at, failed;
      at, ok, failed := tracks.Next(tracks.pos);
      if ok {
        tracks.pos := at;
      }
      fail := failed;
      Unfailing();
    }

    /** A list that nothing fails for can be read on or is at its end. */
    lemma Unfailing()
      requires Valid()
      ensures Sound() ==> CanGrow(tracks.ctx, tracks.list) || AtEnd(tracks.ctx, tracks.list)
    {
      if Sound() {
        ReadsOn(tracks.ctx, tracks.list);
      }
    }

    method GoPrev() returns (ok: bool)
      requires Valid() && M.Positioned(View())
      modifies this, tracks
      ensures Valid() && M.GoPrev(old(View())) == (View(), ok)
    {
      if playingQueue {
        playingQueue := false;
      }
      if tracks.pos > 0 {
        tracks.pos := tracks.pos - 1;
        return true;
      }
      ok := false;
    }

    method GoStart() returns (ok: bool, ghost fail: bool)
      requires Valid()
      modifies tracks
      ensures Valid() && M.GoStart(tracks.ctx, old(View()), fail) == (View(), ok)
      ensures Sound() ==> !fail
    {
      var at, failed;
      at, ok, failed := tracks.Next(-1);
      if ok {
        tracks.pos := at;
      }
      fail := failed;
      Unfailing();
    }

    /** Moves to the first match; without failures it ends by finding none, or past
        the page limit. */
    method Seek(f: Track -> bool) returns (ok: bool, ghost budget: nat)
      requires Valid()
      modifies tracks
      ensures Valid() && M.Seek(tracks.ctx, old(View()), f, budget) == (View(), ok)
      ensures Sound() ==> !SeekFrom(tracks.ctx, old(tracks.list), 0, f, budget).outcome.Failed?
    {
      hide SeekFrom, Numbered, CanGrow, AtEnd;
      var outcome;
      outcome, budget := tracks.Walk(f);
      Unfailing();
      if outcome.Found? {
        tracks.pos := outcome.at;
      }
      ok := outcome.Found?;
    }

    method TrySeek(f: Track -> bool) returns (ok: bool, ghost budget: nat, ghost fail: bool)
      requires Valid()
      modifies tracks
      ensures Valid() && M.TrySeek(tracks.ctx, old(View()), f, budget, fail) == (View(), ok)
      ensures Sound() ==> !fail
    {
      hide M.Seek, M.GoStart, Numbered;
      fail := false;
      ok, budget := Seek(f);
      if !ok {
        ok, fail := GoStart();
      }
    }

    /** Makes the queue entry meant by `track` the one playing, if there is one. */
    method SeekQueue(track: Track) returns (found: bool)
      requires Valid()
      modifies this
      ensures Valid()
      ensures var at := M.QueueMatch(old(queue), if old(playingQueue) then 1 else 0, track);
        && found == (at < |old(queue)|)
        && View() == if found then old(View()).(queue := old(queue)[at..], playingQueue := true) else old(View())
    {
      hide M.Same;
      var start := if playingQueue then 1 else 0;
      var i := start;
      while i < |queue|
        invariant start <= i <= |queue| && View() == old(View())
        invariant M.QueueMatch(queue, start, track) == M.QueueMatch(queue, i, track)
      {
        var match' := if track.uid != "" then queue[i].uid == track.uid else M.Same(track, queue[i]);
        if match' {
          queue := queue[i..];
          playingQueue := true;
          return true;
        }
        i := i + 1;
      }
      found := false;
    }

    method TrySeekTo(track: Track) returns (ghost budget: nat)
      requires Valid()
      modifies this, tracks
      ensures Valid() && View() == M.TrySeekTo(tracks.ctx, old(View()), track, budget)
    {
      hide M.QueueMatch, M.Seek, M.SameAs;
      budget := 0;
      var found := SeekQueue(track);
      if found {
        return;
      }
      if playingQueue {
        queue := queue[1..];
        playingQueue := false;
      }
      var ok;
      ok, budget := Seek(M.SameAs(track));
      if !ok {
        tracks.MoveInjected(track);
      }
    }

    method SetQueue(next: seq<Track>)
      requires Valid()
      modifies `queue
      ensures Valid() && View() == M.SetQueue(old(View()), next)
    {
      if playingQueue {
        queue := queue[..1];
      } else {
        queue := [];
      }
      ghost var kept := queue;
      var i := 0;
      while i < |next|
        invariant i <= |next| && kept + M.LeadingQueued(next) == queue + M.LeadingQueued(next[i..])
        invariant playingQueue ==> queue != []
      {
        if !next[i].queued {
          return;
        }
        queue := queue + [next[i]];
        i := i + 1;
      }
    }

    method AddToQueue(track: Track)
      requires Valid()
      modifies `queue
      ensures Valid() && View() == M.AddToQueue(old(View()), track)
    {
      queue := queue + [track.(queued := true)];
    }

    method SetPlayingQueue(val: bool)
      requires Valid()
      modifies `playingQueue
      ensures Valid() && View() == M.SetPlayingQueue(old(View()), val)
    {
      playingQueue := |queue| > 0 && val;
    }

    /** `random` is the 64-bit number the new seed is made from. */
    method ShuffleOn(random: nat) returns (ghost budget: nat)
      requires Valid() && !shuffled
      modifies this, tracks
      ensures Valid() && View() == M.ShuffleOn(tracks.ctx, rng, old(View()), random, budget)
      ensures Sound() ==> !SeekFrom(tracks.ctx, old(tracks.list), 0, M.NoTrack(), budget).outcome.Failed?
    {
      var outcome;
      outcome, budget := tracks.Walk(M.NoTrack());
      Unfailing();
      seed := (random + 1) % TWO_64;
      var rnd := new Rand(rng, seed);
      tracks.ShuffleItems(rnd);
      if tracks.pos > 0 {
        shuffleKeep := tracks.pos;
        tracks.SwapItems(0, tracks.pos);
      } else {
        shuffleKeep := -1;
      }
      shuffleLen := |tracks.list|;
      shuffled := true;
    }

    method Unshuffle()
      requires Valid() && shuffled && M.Replayable(View())
      modifies this, tracks
      ensures Valid()
      ensures var d := M.Restored(rng, old(View()));
              View() == old(View()).(list := d.list, pos := d.pos, shuffled := false)
    {
      if shuffleKeep > 0 {
        tracks.SwapItems(0, shuffleKeep);
      }
      var rnd := new Rand(rng, seed);
      tracks.UnshuffleItems(rnd);
      shuffled := false;
    }

    /** Loads the context again, up to the current track. */
    method Refetch() returns (ok: bool, ghost budget: nat)
      requires Valid() && (playingQueue || M.Positioned(View()))
      modifies this, tracks
      ensures Valid()
      ensures var w := SeekFrom(tracks.ctx, [], 0, M.SameAs(M.Current(old(View()))), budget);
        && ok == w.outcome.Found? && (Sound() ==> !w.outcome.Failed?)
        && View() == if ok then old(View()).(list := w.list, pos := w.outcome.at, shuffled := false) else old(View())
    {
      var current := CurrentTrack();
      var savedList, savedPos := tracks.list, tracks.pos;
      tracks.list, tracks.pos := [], -1;
      ok, budget := Seek(M.SameAs(current));
      if !ok {
        tracks.list, tracks.pos := savedList, savedPos;
        return;
      }
      shuffled := false;
    }

    method ToggleShuffle(shuffle: bool, random: nat) returns (ok: bool, ghost budget: nat)
      requires Valid()
      requires shuffled && !shuffle ==> M.Replayable(View()) || playingQueue || M.Positioned(View())
      modifies this, tracks
      ensures Valid()
      ensures (View(), ok) ==
        if shuffle == old(shuffled) then (old(View()), true)
        else if shuffle then (M.ShuffleOn(tracks.ctx, rng, old(View()), random, budget), true)
        else M.ShuffleOff(tracks.ctx, rng, old(View()), budget)
    {
      hide M.ShuffleOn, M.Restored, SeekFrom, Numbered, Placed;
      ok, budget := true, 0;
      if shuffle == shuffled {
        return;
      }
      if shuffle {
        budget := ShuffleOn(random);
      } else if seed != 0 && |tracks.list| == shuffleLen {
        Unshuffle();
      } else {
        ok, budget := Refetch();
      }
    }

    /** The next track to play; nothing when the page holding it fails to load. */
    method PeekNext() returns (next: M.Peeked, failed: bool, ghost pages: nat)
      requires Valid() && M.Positioned(View())
      modifies tracks
      ensures Valid() && next == if failed then M.NoNext else M.PeekNext(tracks.ctx, old(View()))
      ensures View() == old(View()).(list := GrownBy(tracks.ctx, old(tracks.list), pages)) && pages <= 1
      ensures Sound() ==> !failed
    {
      hide Numbered, Placed;
      pages := 0;
      if playingQueue && |queue| > 1 {
        return M.Next(queue[1]), false, 0;
      } else if !playingQueue && |queue| > 0 {
        return M.Next(queue[0]), false, 0;
      }
      var at, ok;
      ghost var was := tracks.list;
      at, ok, failed := tracks.Next(tracks.pos);
      pages := if tracks.list == was then 0 else 1;
      assert pages == 1 ==> GrownBy(tracks.ctx, tracks.list, 0) == tracks.list;
      next := if ok then M.Next(tracks.list[at].track) else M.NoNext;
      Unfailing();
    }

    /** Appends the queued tracks still to play, as far as they fit. */
    method QueuedNext() returns (next: seq<Track>)
      requires Valid()
      ensures next == M.Upcoming(View())[..Min(M.MAX_TRACKS_IN_CONTEXT, |M.Upcoming(View())|)]
    {
      next := [];
      if |queue| > 0 {
        var upcoming := if playingQueue then queue[1..] else queue;
        var i := 0;
        while i < |upcoming| && |next| < M.MAX_TRACKS_IN_CONTEXT
          invariant i <= |upcoming| && i <= M.MAX_TRACKS_IN_CONTEXT && next == upcoming[..i]
        {
          next := next + [upcoming[i]];
          i := i + 1;
        }
      }
    }

    /** The upcoming tracks, walked out of the queue and the context. A fetch that
        fails cuts them short. */
    method NextTracks() returns (next: seq<Track>, failed: bool, ghost pages: nat)
      requires Valid() && M.Positioned(View())
      modifies tracks
      ensures Valid() && next <= M.NextTracks(tracks.ctx, old(View()))
      ensures View() == old(View()).(list := GrownBy(tracks.ctx, old(tracks.list), pages))
      ensures M.Published(tracks.ctx, View()) == M.Published(tracks.ctx, old(View()))
      ensures !failed ==>
        next == M.NextTracks(tracks.ctx, old(View())) && View() == M.Published(tracks.ctx, old(View()))
      ensures Sound() ==> !failed
    {
      hide Numbered, Placed, CanGrow, AtEnd, M.Published, LoadedTo, Grown, WalkedTo, M.NextTracks, GrownBy;
      next := QueuedNext();
      pages := 0;
      NotGrown(tracks.ctx, tracks.list);
      failed := false;
      var at, ok := tracks.pos, true;
      WalkStarts(View());
      while |next| < M.MAX_TRACKS_IN_CONTEXT && ok
        invariant Valid() && View() == old(View()).(list := GrownBy(tracks.ctx, old(tracks.list), pages))
        invariant tracks.pos <= at < |tracks.list|
        invariant |next| == M.MAX_TRACKS_IN_CONTEXT - M.Room(View()) + (at - tracks.pos)
        invariant at <= tracks.pos + M.Room(View())
        invariant M.Published(tracks.ctx, View()) == M.Published(tracks.ctx, old(View()))
        invariant next == WalkedTo(View(), at)
        invariant !ok && !failed ==> at + 1 == |tracks.list| && AtEnd(tracks.ctx, tracks.list)
        invariant failed ==> !ok && !Sound()
        decreases ok, M.MAX_TRACKS_IN_CONTEXT - |next|
      {
        ghost var s, was := View(), at;
        at, ok, failed := tracks.Next(at);
        Unfailing();
        if ok {
          PublishOn(tracks.ctx, s, tracks.list, was);
          if was + 1 == |s.list| {
            GrownByMore(tracks.ctx, old(tracks.list), pages);
            pages := pages + 1;
          }
          next := next + [tracks.list[at].track];
        }
      }
      PublishEnds(tracks.ctx, View(), at);
      PublishSame(tracks.ctx, View(), old(View()));
    }
  }
}
