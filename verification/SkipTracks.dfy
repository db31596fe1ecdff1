/** Bursts of skips on the track list: what was published as coming up is what a
    burst ends on. */
module SkipTracks {
  import opened Paging
  import opened Walking
  import TL = TrackListModel
  import opened UpNext
  import opened TrackListMoves
  import opened LoaderModel
  import opened SkipModel
  import opened SkipBursts

  type State = TL.State

  datatype Direction = Forward | Backward

  /** Which way each press goes. */
  type Plan = Job -> Direction

  predicate Ready(s: State) {
    TL.QueueSafe(s) && TL.Positioned(s)
  }

  /** A press of next: the next track, or the first one when there is none. */
  function Advance(ctx: Context, s: State): State
    requires Ready(s)
  {
    var (t, ok) := TL.GoNext(ctx, s, false);
    if ok then t else TL.GoStart(ctx, t, false).0
  }

  function PressOnce(ctx: Context, way: Direction, s: State): (t: State)
    requires Ready(s)
    ensures Ready(t)
  {
    if way.Forward? then Advance(ctx, s) else TL.GoPrev(s).0
  }

  /** The list after presses in turn, with nothing loaded but what they need. */
  function Pressed(ctx: Context, plan: Plan, s: State, jobs: seq<Job>): (t: State)
    requires Ready(s)
    ensures Ready(t)
  {
    if jobs == [] then s
    else PressOnce(ctx, plan(jobs[|jobs|-1]), Pressed(ctx, plan, s, jobs[..|jobs|-1]))
  }

  /** The same list with more of it loaded. */
  ghost predicate Like(ctx: Context, a: State, b: State) {
    b == a.(list := b.list) && exists n: nat :: b.list == LoadedTo(ctx, a.list, n)
  }

  /** Presses walk the list and then load what is to be published; any other of these
      jobs is a load or prefetch that at most loads pages. */
  ghost predicate OnlySkips(ctx: Context, walk: SkipModel.Walk<State>, plan: Plan, jobs: seq<Job>) {
    forall i, s :: 0 <= i < |jobs| && Ready(s) ==> Skips1(ctx, walk, plan, jobs[i], s)
  }

  ghost predicate Skips1(ctx: Context, walk: SkipModel.Walk<State>, plan: Plan, job: Job, s: State)
    requires Ready(s)
  {
    if job.kind.Nav? then walk(job, s) == TL.Published(ctx, PressOnce(ctx, plan(job), s))
    else !job.kind.Mutate? && Like(ctx, s, walk(job, s))
  }

  /** What the daemon's own jobs do: a press moves, a peek for the next track to
      prefetch loads what is to be published, and media is loaded without the list. */
  function TrackWalk(ctx: Context, plan: Plan): SkipModel.Walk<State> {
    (job: Job, s: State) =>
      if !Ready(s) then s
      else if job.kind.Nav? then TL.Published(ctx, PressOnce(ctx, plan(job), s))
      else if job.kind.Prefetch? then TL.Published(ctx, s)
      else s
  }

  lemma TrackWalkSkips(ctx: Context, plan: Plan, jobs: seq<Job>)
    requires forall i :: 0 <= i < |jobs| ==> !jobs[i].kind.Mutate?
    ensures OnlySkips(ctx, TrackWalk(ctx, plan), plan, jobs)
  {
    hide TL.Published, PressOnce, Like;
    forall i, s | 0 <= i < |jobs| && Ready(s) ensures Skips1(ctx, TrackWalk(ctx, plan), plan, jobs[i], s) {
      LikeItself(ctx, s);
      PublishedLike(ctx, s, s);
    }
  }

  lemma LikeItself(ctx: Context, s: State)
    ensures Like(ctx, s, s)
  {
    assert s.list == LoadedTo(ctx, s.list, 0);
  }

  lemma LikeReady(ctx: Context, a: State, b: State)
    requires Ready(a) && Like(ctx, a, b)
    ensures Ready(b) && a.list <= b.list && TL.Current(b) == TL.Current(a)
  {
    hide CanGrow, Grown;
  }

  lemma LikeTwice(ctx: Context, a: State, b: State, c: State)
    requires Like(ctx, a, b) && Like(ctx, b, c)
    ensures Like(ctx, a, c)
  {
    hide LoadedTo;
    var n: nat :| b.list == LoadedTo(ctx, a.list, n);
    var m: nat :| c.list == LoadedTo(ctx, b.list, m);
    LoadedToAgain(ctx, a.list, n, m);
  }

  lemma PublishedLike(ctx: Context, a: State, b: State)
    requires Ready(b) && Like(ctx, a, b)
    ensures Like(ctx, a, TL.Published(ctx, b))
  {
    hide CanGrow, Grown, LoadedTo, TL.Room;
    var n: nat :| b.list == LoadedTo(ctx, a.list, n);
    LoadedToAgain(ctx, a.list, n, b.pos + 1 + TL.Room(b));
  }

  /** Going on in a list with more loaded gives a list with more loaded. */
  lemma AheadLike(ctx: Context, a: State, b: State)
    requires Ready(a) && Like(ctx, a, b) && Reaches(ctx, a, 1)
    ensures Ready(b) && Reaches(ctx, b, 1) && Ready(Ahead(ctx, a, 1)) && Ready(Ahead(ctx, b, 1))
    ensures Like(ctx, Ahead(ctx, a, 1), Ahead(ctx, b, 1))
  {
    hide CanGrow, Grown, LoadedTo;
    var n: nat :| b.list == LoadedTo(ctx, a.list, n);
    LikeReady(ctx, a, b);
    var a', b' := Ahead(ctx, a, 1), Ahead(ctx, b, 1);
    if TL.Upcoming(a) == [] {
      var m := a.pos + 2;
      LoadedToAgain(ctx, a.list, n, m);
      LoadedToAgain(ctx, a.list, m, n);
      LoadedPrefix(ctx, a.list, m, if n < m then m else n);
    }
    assert b'.list == LoadedTo(ctx, a'.list, n);
  }

  /** At the end of the context there is nothing more to load. */
  lemma EndLike(ctx: Context, a: State, b: State)
    requires Ready(a) && Like(ctx, a, b) && !Reaches(ctx, a, 1)
    ensures b == a
  {
    hide Grown;
    var n: nat :| b.list == LoadedTo(ctx, a.list, n);
    LoadedOne(ctx, a.list);
  }

  lemma AdvanceLike(ctx: Context, a: State, b: State)
    requires Ready(a) && Ready(b) && Like(ctx, a, b)
    ensures Like(ctx, Advance(ctx, a), Advance(ctx, b))
  {
    hide CanGrow, Grown, LoadedTo, TL.GoNext, Ahead, Reaches, Like;
    if Reaches(ctx, a, 1) {
      AheadLike(ctx, a, b);
      NextStep(ctx, a);
      NextStep(ctx, b);
    } else {
      EndLike(ctx, a, b);
      LikeItself(ctx, Advance(ctx, a));
    }
  }

  lemma PressLike(ctx: Context, way: Direction, a: State, b: State)
    requires Ready(a) && Ready(b) && Like(ctx, a, b)
    ensures Like(ctx, PressOnce(ctx, way, a), PressOnce(ctx, way, b))
  {
    hide LoadedTo, Advance;
    if way.Forward? {
      AdvanceLike(ctx, a, b);
    }
  }

  /** Working off the jobs of a burst leads where its presses alone lead, whatever
      pages are loaded on the way. */
  lemma {:induction false} FoldSkips(ctx: Context, walk: SkipModel.Walk<State>, plan: Plan, s: State, jobs: seq<Job>)
    requires Ready(s) && OnlySkips(ctx, walk, plan, jobs)
    ensures Like(ctx, Pressed(ctx, plan, s, Filter(jobs, Moves(), true)), Fold(walk, s, jobs))
  {
    hide PressOnce, Like, TL.Published, OnlySkips;
    if jobs == [] {
      LikeItself(ctx, s);
    } else {
      var n := |jobs| - 1;
      var moves := Filter(jobs[..n], Moves(), true);
      FewerSkips(ctx, walk, plan, jobs, n);
      FoldSkips(ctx, walk, plan, s, jobs[..n]);
      var a, b := Pressed(ctx, plan, s, moves), Fold(walk, s, jobs[..n]);
      LikeReady(ctx, a, b);
      SkipsAt(ctx, walk, plan, jobs, n, b);
      if jobs[n].kind.Nav? {
        assert (moves + [jobs[n]])[..|moves|] == moves;
        PressLike(ctx, plan(jobs[n]), a, b);
        PublishedLike(ctx, PressOnce(ctx, plan(jobs[n]), a), PressOnce(ctx, plan(jobs[n]), b));
      } else {
        assert moves + [] == moves;
        LikeTwice(ctx, a, b, walk(jobs[n], b));
      }
    }
  }

  lemma FewerSkips(ctx: Context, walk: SkipModel.Walk<State>, plan: Plan, jobs: seq<Job>, n: nat)
    requires n <= |jobs| && OnlySkips(ctx, walk, plan, jobs)
    ensures OnlySkips(ctx, walk, plan, jobs[..n])
  {
    hide Skips1;
    forall i, s | 0 <= i < n && Ready(s) ensures Skips1(ctx, walk, plan, jobs[..n][i], s) {
      assert Skips1(ctx, walk, plan, jobs[i], s);
    }
  }

  lemma SkipsAt(ctx: Context, walk: SkipModel.Walk<State>, plan: Plan, jobs: seq<Job>, i: nat, s: State)
    requires i < |jobs| && Ready(s) && OnlySkips(ctx, walk, plan, jobs)
    ensures Skips1(ctx, walk, plan, jobs[i], s)
  {
    hide Skips1;
  }

  /** A burst of presses from rest, next and previous in any order, on a list with a
      current track: once the last result is committed, what is published is the list
      as it was moved by every press in turn, with pages loaded, and on the same
      track. */
  lemma BurstOnList(
    ctx: Context, walk: SkipModel.Walk<State>, plan: Plan, list: State, before: seq<Event>, burst: seq<Event>)
    requires Possible(walk, Initial(list), before)
    requires Possible(walk, Run(walk, Initial(list), before), burst)
    requires var p := Run(walk, Initial(list), before); var q := Run(walk, p, burst);
      BurstBetween(p, q) && Ready(p.list) && OnlySkips(ctx, walk, plan, StartedSince(p, q))
    ensures var p := Run(walk, Initial(list), before); var q := Run(walk, p, burst);
      && Enabled(q, Received(true))
      && var published := Do(walk, q, Received(true)).published;
         var moved := Pressed(ctx, plan, p.list, MovesSince(p, q));
         Like(ctx, moved, published) && Ready(published) && TL.Current(published) == TL.Current(moved)
  {
    hide Possible, Run, Fold, Filter, MovesSince, Pressed, Like, Do, Enabled, OnlySkips, Still;
    var p := Run(walk, Initial(list), before);
    var q := Run(walk, p, burst);
    var ran := BurstPublishes(walk, list, before, burst);
    var since := StartedSince(p, q);
    assert ran == since[..|ran|];
    FewerSkips(ctx, walk, plan, since, |ran|);
    FoldSkips(ctx, walk, plan, p.list, ran);
    LikeReady(ctx, Pressed(ctx, plan, p.list, MovesSince(p, q)), Fold(walk, p.list, ran));
  }

  lemma ReachesNext(ctx: Context, s: State, n: nat)
    requires Ready(s) && Reaches(ctx, s, n + 1)
    ensures Reaches(ctx, Skips(ctx, s, n), 1)
  {
    hide CanGrow, Grown, LoadedTo, TL.GoNext, Ahead, Reaches;
    if n > 0 {
      ReachesFewer(ctx, s, n);
      SkipsLead(ctx, s, n);
      AheadStep(ctx, s, n);
    }
  }

  lemma {:induction false} PressedNext(ctx: Context, plan: Plan, s: State, jobs: seq<Job>)
    requires Ready(s) && (jobs != [] ==> Reaches(ctx, s, |jobs|))
    requires forall i :: 0 <= i < |jobs| ==> plan(jobs[i]) == Forward
    ensures Pressed(ctx, plan, s, jobs) == Skips(ctx, s, |jobs|)
  {
    hide CanGrow, Grown, LoadedTo, TL.GoNext, Ahead, Reaches;
    if jobs != [] {
      var n := |jobs| - 1;
      if n > 0 {
        ReachesFewer(ctx, s, n);
      }
      PressedNext(ctx, plan, s, jobs[..n]);
      ReachesNext(ctx, s, n);
      NextStep(ctx, Skips(ctx, s, n));
    }
  }

  /** A burst of n presses of next ends on the track that was published n-th before
      it. */
  lemma BurstPlaysPublished(
    ctx: Context, walk: SkipModel.Walk<State>, plan: Plan, list: State, before: seq<Event>, burst: seq<Event>)
    requires Possible(walk, Initial(list), before)
    requires Possible(walk, Run(walk, Initial(list), before), burst)
    requires var p := Run(walk, Initial(list), before); var q := Run(walk, p, burst);
      && BurstBetween(p, q) && Ready(p.list) && OnlySkips(ctx, walk, plan, StartedSince(p, q))
      && |MovesSince(p, q)| <= |TL.NextTracks(ctx, p.list)|
      && (forall i :: 0 <= i < |MovesSince(p, q)| ==> plan(MovesSince(p, q)[i]) == Forward)
    ensures var p := Run(walk, Initial(list), before); var q := Run(walk, p, burst);
      && Enabled(q, Received(true))
      && var published := Do(walk, q, Received(true)).published;
         Ready(published) && TL.Current(published) == TL.NextTracks(ctx, p.list)[|MovesSince(p, q)| - 1]
  {
    hide Possible, Run, TL.NextTracks, MovesSince, Pressed, Skips, Reaches, Ahead, Like, Do, Enabled, OnlySkips;
    var p := Run(walk, Initial(list), before);
    var moves := MovesSince(p, Run(walk, p, burst));
    BurstOnList(ctx, walk, plan, list, before, burst);
    PublishedTrack(ctx, p.list, |moves| - 1);
    PressedNext(ctx, plan, p.list, moves);
    PublishedIsPlayed(ctx, p.list, |moves| - 1);
  }

  /** A press of next at the very end goes to the first track. */
  lemma AdvanceWraps(ctx: Context, s: State)
    requires Ready(s) && TL.Upcoming(s) == [] && s.pos + 1 == |s.list| && !CanGrow(ctx, s.list)
    ensures var t := Advance(ctx, s);
      t.list == s.list && TL.Current(t) == s.list[0].track && TL.Upcoming(t) == []
  {}

  /** Presses of previous leave the queue, all of it waiting again, for the track that
      many before the cursor, or the first one. */
  lemma {:induction false} PressedBack(ctx: Context, plan: Plan, s: State, jobs: seq<Job>)
    requires Ready(s) && jobs != [] && forall i :: 0 <= i < |jobs| ==> plan(jobs[i]) == Backward
    ensures var t := Pressed(ctx, plan, s, jobs);
      && t.list == s.list && t.pos == (if s.pos < |jobs| then 0 else s.pos - |jobs|) && !t.playingQueue
      && TL.Current(t) == s.list[t.pos].track && TL.Upcoming(t) == s.queue
  {
    var n := |jobs| - 1;
    if n > 0 {
      PressedBack(ctx, plan, s, jobs[..n]);
    } else {
      assert jobs[..0] == [];
    }
    PrevPlays(Pressed(ctx, plan, s, jobs[..n]));
  }

  /** A burst of n presses of previous, from the queue or not, ends on the track n
      before the cursor, or the first one, and what is queued is to come after it. */
  lemma BurstGoesBack(
    ctx: Context, walk: SkipModel.Walk<State>, plan: Plan, list: State, before: seq<Event>, burst: seq<Event>)
    requires Possible(walk, Initial(list), before)
    requires Possible(walk, Run(walk, Initial(list), before), burst)
    requires var p := Run(walk, Initial(list), before); var q := Run(walk, p, burst);
      && BurstBetween(p, q) && Ready(p.list) && OnlySkips(ctx, walk, plan, StartedSince(p, q))
      && (forall i :: 0 <= i < |MovesSince(p, q)| ==> plan(MovesSince(p, q)[i]) == Backward)
    ensures var p := Run(walk, Initial(list), before); var q := Run(walk, p, burst);
      && Enabled(q, Received(true))
      && var published, n := Do(walk, q, Received(true)).published, |MovesSince(p, q)|;
         && Ready(published) && !published.playingQueue && TL.Upcoming(published) == p.list.queue
         && TL.Current(published) == p.list.list[if p.list.pos < n then 0 else p.list.pos - n].track
  {
    hide Possible, Run, MovesSince, Pressed, Do, Enabled, OnlySkips;
    var p := Run(walk, Initial(list), before);
    BurstOnList(ctx, walk, plan, list, before, burst);
    PressedBack(ctx, plan, p.list, MovesSince(p, Run(walk, p, burst)));
  }
}
