/** The loader lane as the object shared by the player loop and its worker. Each
    method is one critical section, or one hand-over between the two. */
module LoaderLanes {
  import opened LoaderModel

  /** Splits jobs into those to drop and those to keep, in order. */
  method PartitionQueue(jobs: seq<Job>, drop: Job -> bool) returns (dropped: seq<Job>, kept: seq<Job>)
    ensures dropped == Filter(jobs, drop, true) && kept == Filter(jobs, drop, false)
  {
    dropped, kept := [], [];
    var i := 0;
    while i < |jobs|
      invariant i <= |jobs|
      invariant dropped == Filter(jobs[..i], drop, true) && kept == Filter(jobs[..i], drop, false)
    {
      assert jobs[..i + 1][..i] == jobs[..i];
      if drop(jobs[i]) {
        dropped := dropped + [jobs[i]];
      } else {
        kept := kept + [jobs[i]];
      }
      i := i + 1;
    }
    assert jobs[..i] == jobs;
  }

  class LoaderLane {
    var queue: seq<Job>
    var worker: Worker
    var closed: bool
    var results: seq<Job>
    var replies: seq<Reply>
    ghost var submitted: seq<Job>
    ghost var accepted: seq<Job>
    ghost var started: seq<Job>

    constructor ()
      ensures View() == EMPTY
    {
      queue, worker, closed, results, replies := [], Idle, false, [], [];
      submitted, accepted, started := [], [], [];
    }

    ghost function View(): Lane
      reads this
    {
      Lane(queue, worker, closed, results, submitted, accepted, started, replies)
    }

    method ReplyAll(jobs: seq<Job>, answer: Answer)
      modifies `replies
      ensures replies == old(replies) + Replies(jobs, answer)
    {
      var i := 0;
      while i < |jobs|
        invariant i <= |jobs| && replies == old(replies) + Replies(jobs[..i], answer)
      {
        assert jobs[..i + 1][..i] == jobs[..i];
        replies := replies + [Reply(jobs[i], answer)];
        i := i + 1;
      }
      assert jobs[..i] == jobs;
    }

    method HasPendingLoad() returns (pending: bool)
      ensures pending == PendingLoad(View())
    {
      if worker.Running? && Loads(worker.job) {
        return true;
      }
      var i := 0;
      while i < |queue|
        invariant i <= |queue| && forall k :: 0 <= k < i ==> !Loads(queue[k])
      {
        if Loads(queue[i]) {
          return true;
        }
        i := i + 1;
      }
      pending := false;
    }

    /** Takes out of the queue what `drop` holds of and cancels it if it runs. */
    method Drop(drop: Job -> bool) returns (dropped: seq<Job>)
      modifies `queue, `worker
      ensures dropped == Filter(old(queue), drop, true) && View() == Without(old(View()), drop)
    {
      dropped, queue := PartitionQueue(queue, drop);
      if worker.Running? && drop(worker.job) {
        worker := worker.(cancelled := true);
      }
    }

    method Submit(job: Job)
      modifies this
      ensures View() == LoaderModel.Submit(old(View()), job)
    {
      hide Filter, Replies;
      submitted := submitted + [job];
      if closed {
        replies := replies + [Reply(job, NoSession)];
        return;
      }
      var dropped := [];
      match job.kind {
        case Load | Nav =>
          dropped := Drop(Fetches());
        case Prefetch =>
          var pending := HasPendingLoad();
          if pending {
            replies := replies + [Reply(job, NotNeeded)];
            return;
          }
          dropped := Drop(Prefetches());
        case Mutate =>
          NoReplies();
      }
      if |queue| >= QUEUE_SIZE {
        replies := replies + [Reply(job, Busy)];
        ReplyAll(dropped, Superseded);
        return;
      }
      queue := queue + [job];
      accepted := accepted + [job];
      ReplyAll(dropped, Superseded);
    }

    lemma NoReplies()
      ensures Replies([], Superseded) == []
    {}

    method DropLoads()
      modifies this
      ensures View() == LoaderModel.DropLoads(old(View()))
    {
      hide Filter, Replies;
      if closed {
        return;
      }
      var dropped := Drop(Fetches());
      ReplyAll(dropped, Superseded);
    }

    /** Takes the job to run now, if there is one. */
    method Next(now: nat) returns (ok: bool)
      requires worker.Idle?
      modifies this
      ensures View() == LoaderModel.Next(old(View()), now) && ok == worker.Running?
    {
      if closed || |queue| == 0 {
        return false;
      }
      var idx := 0;
      if queue[0].notBefore > now {
        while idx < |queue| && !(queue[idx].kind.Mutate? && queue[idx].notBefore <= now)
          invariant idx <= |queue| && ReadyMutation(queue, now, 0) == ReadyMutation(queue, now, idx)
        {
          idx := idx + 1;
        }
        if idx == |queue| {
          return false;
        }
      }
      started := started + [queue[idx]];
      worker := Running(queue[idx], false);
      queue := queue[..idx] + queue[idx + 1..];
      ok := true;
    }

    /** The job has run. */
    method Finish()
      requires worker.Running?
      modifies `worker
      ensures View() == LoaderModel.Finish(old(View()))
    {
      worker := Sending(worker.job);
    }

    /** Hands the result over, or answers it when the lane has closed; which of
        the two, when both can be done, is not determined. */
    method Deliver() returns (sent: bool)
      requires worker.Sending? && (|results| < RESULTS_SIZE || closed)
      modifies this
      ensures if sent then |old(results)| < RESULTS_SIZE && View() == Send(old(View()))
              else closed && View() == Abandon(old(View()))
    {
      var send := *;
      if !closed || (|results| < RESULTS_SIZE && send) {
        results := results + [worker.job];
        worker := Idle;
        return true;
      }
      replies := replies + [Reply(worker.job, NoSession)];
      worker := Stopped;
      sent := false;
    }

    method Close()
      modifies this
      ensures View() == LoaderModel.Close(old(View()))
    {
      hide Replies;
      if closed {
        return;
      }
      closed := true;
      var queued := queue;
      queue := [];
      if worker.Running? {
        worker := worker.(cancelled := true);
      }
      ReplyAll(queued, NoSession);
    }
  }
}

/** The part of the player loop that submits skips and folds results back in. */
module PlayerLoops {
  import opened LoaderModel
  import opened LoaderLanes
  import opened SkipModel
  import opened SkipBursts

  class PlayerLoop<L> {
    const walk: Walk<L>
    const loader: LoaderLane
    var list: L
    var snaps: seq<L>
    var published: L
    var loadGen: nat
    var prefetchGen: nat

    constructor (walk: Walk<L>, list: L)
      ensures View() == Initial(list) && this.walk == walk && fresh(loader)
    {
      this.walk, this.list, published := walk, list, list;
      loader := new LoaderLane();
      snaps, loadGen, prefetchGen := [], 0, 0;
    }

    ghost function View(): Player<L>
      reads this, loader
    {
      Player(loader.View(), list, snaps, published, loadGen, prefetchGen)
    }

    /** A press: supersedes what is being loaded and queues one step. */
    method Skip(id: nat)
      requires Enabled(View(), Press(id))
      modifies this, loader
      ensures View() == Do(walk, old(View()), Press(id))
    {
      hide Submit;
      loadGen := loadGen + 1;
      loader.Submit(Job(id, Nav, loadGen, 0));
    }

    /** On the worker: walks the list for the running job. */
    method RunListJob()
      requires Enabled(View(), Walked)
      modifies this, loader
      ensures View() == Do(walk, old(View()), Walked)
    {
      list := walk(loader.worker.job, list);
      loader.Finish();
    }

    /** Supersedes what is being loaded and prefetched and submits the load of the
        current track, held back for a while if another skip may follow. */
    method LoadCurrentTrack(id: nat, notBefore: nat)
      requires Job(id, Load, loadGen + 1, notBefore) !in loader.submitted
      modifies this, loader
      ensures Possible(walk, old(View()), LoadEvents(old(loadGen), id, notBefore))
      ensures View() == Run(walk, old(View()), LoadEvents(old(loadGen), id, notBefore))
    {
      hide Submit;
      LoadRun(walk, View(), id, notBefore);
      loadGen := loadGen + 1;
      prefetchGen := prefetchGen + 1;
      loader.Submit(Job(id, Load, loadGen, notBefore));
    }

    /** Takes the oldest result and commits it, unless it is out of date. A committed
        press publishes the list and may go on to load the current track. */
    method ApplyLoaderResult(publishes: bool, loads: bool, id: nat, notBefore: nat) returns (committed: bool)
      requires Enabled(View(), Received(publishes))
      requires Job(id, Load, loadGen + 1, notBefore) !in loader.submitted
      modifies this, loader
      ensures committed == Current(old(View()), old(loader.results)[0])
      ensures var evs := [Received(publishes)] +
          if committed && loads && old(loader.results)[0].kind.Nav? then LoadEvents(old(loadGen), id, notBefore)
          else [];
        Possible(walk, old(View()), evs) && View() == Run(walk, old(View()), evs)
    {
      hide Possible, Run;
      ghost var was := View();
      var job := loader.results[0];
      committed := TakeResult(publishes);
      OneEvent(walk, was, Received(publishes));
      assert [Received(publishes)] + [] == [Received(publishes)];
      if committed && loads && job.kind.Nav? {
        LoadCurrentTrack(id, notBefore);
        RunJoins(walk, was, [Received(publishes)], LoadEvents(was.loadGen, id, notBefore));
      }
    }

    method TakeResult(publishes: bool) returns (committed: bool)
      requires Enabled(View(), Received(publishes))
      modifies this, loader
      ensures View() == Do(walk, old(View()), Received(publishes))
      ensures committed == Current(old(View()), old(loader.results)[0])
    {
      var job, snap := loader.results[0], snaps[0];
      loader.results, snaps := loader.results[1..], snaps[1..];
      var generation := if job.kind.Prefetch? then prefetchGen else loadGen;
      if !job.kind.Mutate? && job.gen != generation {
        loader.replies := loader.replies + [Reply(job, Superseded)];
        return false;
      }
      if publishes {
        published := snap;
      }
      loader.replies := loader.replies + [Reply(job, Applied)];
      committed := true;
    }
  }

  /** What loading the current track does: both generations move, then a load stamped
      with the new one is submitted. */
  function LoadEvents(loadGen: nat, id: nat, notBefore: nat): seq<Event> {
    [Bump(true), Bump(false), Other(Job(id, Load, loadGen + 1, notBefore))]
  }

  lemma OneEvent<L>(walk: Walk<L>, p: Player<L>, ev: Event)
    requires Enabled(p, ev)
    ensures Possible(walk, p, [ev]) && Run(walk, p, [ev]) == Do(walk, p, ev)
  {
    assert [ev][1..] == [];
  }

  lemma LoadRun<L>(walk: Walk<L>, p: Player<L>, id: nat, notBefore: nat)
    requires Job(id, Load, p.loadGen + 1, notBefore) !in p.lane.submitted
    ensures Possible(walk, p, LoadEvents(p.loadGen, id, notBefore))
    ensures Run(walk, p, LoadEvents(p.loadGen, id, notBefore)) ==
      p.(lane := Submit(p.lane, Job(id, Load, p.loadGen + 1, notBefore)),
         loadGen := p.loadGen + 1, prefetchGen := p.prefetchGen + 1)
  {
    hide Submit;
    var load := Other(Job(id, Load, p.loadGen + 1, notBefore));
    var p1 := Do(walk, p, Bump(true));
    var p2 := Do(walk, p1, Bump(false));
    OneEvent(walk, p2, load);
    assert LoadEvents(p.loadGen, id, notBefore)[1..] == [Bump(false), load];
    assert [Bump(false), load][1..] == [load];
  }
}
