/** What the answers to jobs mean, in every run of the loader lane. */
module LoaderAnswers {
  import opened LoaderModel
  import opened LoaderRuns

  /** Only what was accepted is queued and run, and only what was run has a result. */
  ghost predicate Traced(l: Lane) {
    && (forall i :: 0 <= i < |l.accepted| ==> l.accepted[i] in l.submitted)
    && (forall i :: 0 <= i < |l.queue| ==> l.queue[i] in l.accepted)
    && (forall i :: 0 <= i < |l.started| ==> l.started[i] in l.accepted)
    && (forall i :: 0 <= i < |l.results| ==> l.results[i] in l.started)
    && (l.worker.Running? || l.worker.Sending? ==> l.worker.job in l.started)
  }

  /** What an answer says of its job. */
  predicate Due(l: Lane, reply: Reply) {
    && reply.job in l.submitted
    && match reply.answer
       case Applied => reply.job in l.started
       case Superseded => reply.job in l.started || (reply.job in l.accepted && Fetches()(reply.job))
       case Busy => reply.job !in l.accepted
       case NotNeeded => reply.job !in l.accepted && reply.job.kind.Prefetch?
       case NoSession => l.closed
  }

  ghost predicate AllDue(l: Lane, replies: seq<Reply>) {
    forall i :: 0 <= i < |replies| ==> Due(l, replies[i])
  }

  lemma RepliesDue(l: Lane, jobs: seq<Job>, answer: Answer)
    requires forall i :: 0 <= i < |jobs| ==> Due(l, Reply(jobs[i], answer))
    ensures AllDue(l, Replies(jobs, answer))
  {
    hide Due, Replies;
    forall i | 0 <= i < |jobs| ensures Due(l, Replies(jobs, answer)[i]) {
      RepliesAt(jobs, answer, i);
    }
  }

  /** Answers once due stay so while jobs are run, submitted and accepted. */
  lemma StillDue(l: Lane, l': Lane, replies: seq<Reply>)
    requires AllDue(l, replies) && l.submitted <= l'.submitted && l.started <= l'.started
    requires l.accepted <= l'.accepted && (l.closed ==> l'.closed)
    requires forall i :: |l.accepted| <= i < |l'.accepted| ==> l'.accepted[i] !in l.submitted
    ensures AllDue(l', replies)
  {}

  lemma AllDueJoin(l: Lane, a: seq<Reply>, b: seq<Reply>)
    requires AllDue(l, a) && AllDue(l, b)
    ensures AllDue(l, a + b)
  {
    hide Due;
  }

  /** The jobs taken out of the queue are superseded fetches. */
  lemma DroppedDue(l: Lane, l': Lane, p: Job -> bool)
    requires Traced(l) && (p == Fetches() || p == Prefetches())
    requires l.submitted <= l'.submitted && l.accepted <= l'.accepted
    ensures AllDue(l', Replies(Filter(l.queue, p, true), Superseded))
  {
    hide Filter;
    var dropped := Filter(l.queue, p, true);
    forall i | 0 <= i < |dropped| ensures Due(l', Reply(dropped[i], Superseded)) {
      FilterHolds(l.queue, p, true, i);
    }
    RepliesDue(l', dropped, Superseded);
  }

  lemma FilteredTraced(l: Lane, p: Job -> bool)
    requires Traced(l)
    ensures Traced(Without(l, p))
  {
    hide Filter;
    var queue := Filter(l.queue, p, false);
    forall i | 0 <= i < |queue| ensures queue[i] in l.accepted {
      FilterHolds(l.queue, p, false, i);
    }
  }

  lemma EnqueueDue(l: Lane, job: Job, p: Job -> bool, dropped: seq<Job>)
    requires Traced(l) && AllDue(l, l.replies) && job !in l.submitted
    requires (p == Fetches() || p == Prefetches()) && dropped == Filter(l.queue, p, true)
    ensures var l' := Enqueue(Without(l.(submitted := l.submitted + [job]), p), job, dropped);
      Traced(l') && AllDue(l', l'.replies)
  {
    hide Filter, Replies, Due;
    var s := l.(submitted := l.submitted + [job]);
    var l' := Enqueue(Without(s, p), job, dropped);
    FilteredTraced(s, p);
    StillDue(l, l', l.replies);
    DroppedDue(l, l', p);
    if l'.accepted == l.accepted {
      NewBusy(l, l', job);
      AllDueJoin(l', l.replies, [Reply(job, Busy)]);
      AllDueJoin(l', l.replies + [Reply(job, Busy)], Replies(dropped, Superseded));
    } else {
      AllDueJoin(l', l.replies, Replies(dropped, Superseded));
    }
  }

  lemma NewBusy(l: Lane, l': Lane, job: Job)
    requires Traced(l) && job !in l.submitted && job in l'.submitted && l'.accepted == l.accepted
    ensures Due(l', Reply(job, Busy)) && (job.kind.Prefetch? ==> Due(l', Reply(job, NotNeeded)))
  {}

  lemma PlainDue(l: Lane, job: Job)
    requires Traced(l) && AllDue(l, l.replies) && job !in l.submitted
    requires l.closed || job.kind.Mutate? || (PendingLoad(l) && !Loads(job))
    ensures Traced(Submit(l, job)) && AllDue(Submit(l, job), Submit(l, job).replies)
  {
    hide Filter, Due, PendingLoad;
    var l' := Submit(l, job);
    assert Replies([], Superseded) == [];
    StillDue(l, l', l.replies);
    if l.closed {
      AllDueJoin(l', l.replies, []);
      assert Due(l', Reply(job, NoSession)) by { ClosedDue(l', job); }
    } else if l'.accepted == l.accepted {
      NewBusy(l, l', job);
    }
  }

  lemma ClosedDue(l: Lane, job: Job)
    requires l.closed && job in l.submitted
    ensures Due(l, Reply(job, NoSession))
  {}

  lemma SubmitDue(l: Lane, job: Job)
    requires Traced(l) && AllDue(l, l.replies) && job !in l.submitted
    ensures Traced(Submit(l, job)) && AllDue(Submit(l, job), Submit(l, job).replies)
  {
    hide Traced, AllDue, Filter, Replies, Enqueue, Without, PendingLoad;
    if l.closed || job.kind.Mutate? || (PendingLoad(l) && !Loads(job)) {
      PlainDue(l, job);
    } else if Loads(job) {
      EnqueueDue(l, job, Fetches(), Filter(l.queue, Fetches(), true));
    } else {
      EnqueueDue(l, job, Prefetches(), Filter(l.queue, Prefetches(), true));
    }
  }

  lemma CloseDue(l: Lane)
    requires Traced(l) && AllDue(l, l.replies)
    ensures Traced(Close(l)) && AllDue(Close(l), Close(l).replies)
  {
    hide Replies;
    var l' := Close(l);
    if !l.closed {
      StillDue(l, l', l.replies);
      RepliesDue(l', l.queue, NoSession);
      AllDueJoin(l', l.replies, Replies(l.queue, NoSession));
    }
  }

  lemma DropDue(l: Lane)
    requires Traced(l) && AllDue(l, l.replies)
    ensures Traced(DropLoads(l)) && AllDue(DropLoads(l), DropLoads(l).replies)
  {
    hide Replies, Filter, Due;
    if !l.closed {
      var l' := DropLoads(l);
      FilteredTraced(l, Fetches());
      StillDue(l, l', l.replies);
      DroppedDue(l, l', Fetches());
      AllDueJoin(l', l.replies, Replies(Filter(l.queue, Fetches(), true), Superseded));
    }
  }

  lemma NextDue(l: Lane, now: nat)
    requires Traced(l) && AllDue(l, l.replies)
    ensures Traced(Next(l, now)) && AllDue(Next(l, now), Next(l, now).replies)
  {
    hide NextIndex;
    var l' := Next(l, now);
    StillDue(l, l', l.replies);
  }

  lemma ResultDue(l: Lane, op: Op)
    requires Traced(l) && AllDue(l, l.replies) && Conserved(l) && Enabled(l, op)
    requires op.OpReceive? || op.OpAbandon? || op.OpFinish? || op.OpSend? || op.OpStop?
    ensures Traced(Do(l, op)) && AllDue(Do(l, op), Do(l, op).replies)
  {
    hide Answered;
    StillDue(l, Do(l, op), l.replies);
    if op.OpReceive? {
      assert l.results[0] in multiset(l.results) && l.results[0] in multiset(l.submitted);
    } else if op.OpAbandon? {
      assert l.worker.job in multiset(InHand(l.worker)) && l.worker.job in multiset(l.submitted);
    }
  }

  lemma StepDue(l: Lane, op: Op)
    requires Traced(l) && AllDue(l, l.replies) && Conserved(l) && Enabled(l, op)
    ensures Traced(Do(l, op)) && AllDue(Do(l, op), Do(l, op).replies)
  {
    hide Traced, AllDue, Conserved, Submit, Next, Close, DropLoads;
    match op {
      case OpSubmit(job) => SubmitDue(l, job);
      case OpNext(now) => NextDue(l, now);
      case OpDropLoads => DropDue(l);
      case OpClose => CloseDue(l);
      case _ => ResultDue(l, op);
    }
  }

  lemma {:induction false} RunDue(l: Lane, ops: seq<Op>)
    requires Inv(l) && Traced(l) && AllDue(l, l.replies) && Possible(l, ops)
    ensures Traced(Run(l, ops)) && AllDue(Run(l, ops), Run(l, ops).replies)
    decreases |ops|
  {
    hide Conserved, Shape, Ordered, Traced, AllDue, Enabled, Do;
    if ops != [] {
      StepKeepsInv(l, ops[0]);
      StepDue(l, ops[0]);
      RunDue(Do(l, ops[0]), ops[1..]);
    }
  }

  /** In every run and for every kind of job: one answered as applied was run; one
      answered as superseded was run, or is a load or prefetch taken out of the queue;
      one turned away as too many, or a prefetch as not needed, never was in it; and
      that there is no session is answered on a closed lane only. */
  lemma AnswersMean(ops: seq<Op>, reply: Reply)
    requires Possible(EMPTY, ops) && reply in Run(EMPTY, ops).replies
    ensures var l := Run(EMPTY, ops);
      && (reply.answer.Applied? ==> reply.job in l.started)
      && (reply.answer.Superseded? ==>
            reply.job in l.started || (reply.job in l.accepted && (reply.job.kind.Load? || reply.job.kind.Prefetch?)))
      && (reply.answer.Busy? ==> reply.job in l.submitted && reply.job !in l.accepted)
      && (reply.answer.NotNeeded? ==> reply.job.kind.Prefetch? && reply.job !in l.accepted)
      && (reply.answer.NoSession? ==> l.closed)
  {
    hide Possible, Run;
    EmptyInv();
    RunDue(EMPTY, ops);
    var l := Run(EMPTY, ops);
    var i :| 0 <= i < |l.replies| && l.replies[i] == reply;
    assert Due(l, l.replies[i]);
  }

  /** The results not taken yet, and then the job with the worker. */
  function Unreceived(l: Lane): seq<Job> {
    l.results + InHand(l.worker)
  }

  /** They are the last jobs run, in that order; a worker that has stopped may have
      answered its last job itself. */
  ghost predicate LastRun(l: Lane) {
    LastOf(l.started, Unreceived(l), 0) || (l.worker.Stopped? && LastOf(l.started, Unreceived(l), 1))
  }

  /** rest is the last part of jobs but for d of them. */
  predicate LastOf(jobs: seq<Job>, rest: seq<Job>, d: nat) {
    |rest| + d <= |jobs| && rest == jobs[|jobs| - d - |rest|..|jobs| - d]
  }

  lemma OneMoreLast(jobs: seq<Job>, rest: seq<Job>, job: Job)
    requires LastOf(jobs, rest, 0)
    ensures LastOf(jobs + [job], rest + [job], 0)
  {}

  lemma FewerLast(jobs: seq<Job>, rest: seq<Job>, d: nat)
    requires LastOf(jobs, rest, d) && rest != []
    ensures LastOf(jobs, rest[1..], d) && (d == 0 ==> LastOf(jobs, rest[..|rest|-1], 1))
  {}

  /** Submitting, dropping and closing, and what the worker does with a job at hand,
      leave them. */
  lemma SameUnreceived(l: Lane, op: Op)
    requires Enabled(l, op) && !op.OpNext? && !op.OpReceive? && !op.OpAbandon?
    ensures var l' := Do(l, op);
      Unreceived(l') == Unreceived(l) && l'.started == l.started && (l.worker.Stopped? ==> l'.worker.Stopped?)
  {
    hide Filter, Replies, PendingLoad;
  }

  lemma NextUnreceived(l: Lane, now: nat)
    requires l.worker.Idle?
    ensures var l' := Next(l, now);
      l' == l || (l'.worker.Running? && l'.started == l.started + [l'.worker.job] &&
                  Unreceived(l') == Unreceived(l) + [l'.worker.job])
  {
    hide NextIndex;
  }

  lemma TakenUnreceived(l: Lane, answer: Answer)
    ensures l.results != [] ==>
      Unreceived(l) != [] && Unreceived(Receive(l, answer)) == Unreceived(l)[1..]
    ensures l.worker.Sending? ==>
      Unreceived(l) != [] && Unreceived(Abandon(l)) == Unreceived(l)[..|Unreceived(l)|-1]
  {}

  lemma StepLastRun(l: Lane, op: Op)
    requires LastRun(l) && Enabled(l, op)
    ensures LastRun(Do(l, op))
  {
    hide LastOf, Unreceived, Next;
    match op {
      case OpNext(now) =>
        NextUnreceived(l, now);
        if Next(l, now) != l {
          OneMoreLast(l.started, Unreceived(l), Next(l, now).worker.job);
        }
      case OpReceive(current) =>
        TakenUnreceived(l, if current then Applied else Superseded);
        FewerLast(l.started, Unreceived(l), if LastOf(l.started, Unreceived(l), 0) then 0 else 1);
      case OpAbandon =>
        TakenUnreceived(l, Superseded);
        FewerLast(l.started, Unreceived(l), 0);
      case _ =>
        SameUnreceived(l, op);
    }
  }

  lemma {:induction false} RunLastRun(l: Lane, ops: seq<Op>)
    requires LastRun(l) && Possible(l, ops)
    ensures LastRun(Run(l, ops))
    decreases |ops|
  {
    hide LastRun, Enabled, Do;
    if ops != [] {
      StepLastRun(l, ops[0]);
      RunLastRun(Do(l, ops[0]), ops[1..]);
    }
  }

  /** In every run the results are taken in the order the jobs were run, and none is
      passed over: those not taken yet, with the job at hand, are the last jobs run, but
      for one that a stopped worker answered itself. */
  lemma ResultsInOrder(ops: seq<Op>)
    requires Possible(EMPTY, ops)
    ensures var l := Run(EMPTY, ops); var rest, n := l.results + InHand(l.worker), |l.started|;
      || (|rest| <= n && rest == l.started[n - |rest|..])
      || (l.worker.Stopped? && |rest| < n && rest == l.started[n - 1 - |rest|..n - 1])
  {
    hide Possible, Run;
    RunLastRun(EMPTY, ops);
  }

  lemma {:induction false} Filtered(jobs: seq<Job>, p: Job -> bool, holds: bool, q: Job)
    ensures q in Filter(jobs, p, holds) <==> q in jobs && p(q) == holds
  {
    if jobs != [] {
      var n := |jobs| - 1;
      Filtered(jobs[..n], p, holds, q);
      assert jobs == jobs[..n] + [jobs[n]];
    }
  }

  lemma Answers(jobs: seq<Job>, answer: Answer, q: Job)
    requires q in jobs
    ensures Reply(q, answer) in Replies(jobs, answer)
  {
    hide Replies;
    var i :| 0 <= i < |jobs| && jobs[i] == q;
    RepliesAt(jobs, answer, i);
  }

  /** What a job displaces: loads and navigation any load or prefetch, a prefetch that
      is needed another prefetch. */
  predicate Displaces(l: Lane, job: Job, q: Job) {
    if job.kind.Load? || job.kind.Nav? then q.kind.Load? || q.kind.Prefetch?
    else job.kind.Prefetch? && q.kind.Prefetch? && !PendingLoad(l)
  }

  /** Each queued job that a submission displaces leaves the queue and is answered as
      superseded, every other one stays, and a running one is cancelled exactly if it is
      displaced. */
  lemma Displaced(l: Lane, job: Job, q: Job)
    requires !l.closed && q in l.queue && job !in l.queue
    ensures var l' := Submit(l, job);
      && (Displaces(l, job, q) ==> Reply(q, Superseded) in l'.replies && q !in l'.queue)
      && (!Displaces(l, job, q) ==> q in l'.queue)
      && (l.worker.Running? ==>
            l'.worker == if Displaces(l, job, l.worker.job) then l.worker.(cancelled := true) else l.worker)
  {
    hide Filter, Replies, PendingLoad;
    var p := if Loads(job) then Fetches() else Prefetches();
    Filtered(l.queue, p, true, q);
    Filtered(l.queue, p, false, q);
    if p(q) {
      Answers(Filter(l.queue, p, true), Superseded, q);
    }
  }

  /** A prefetch is taken, if there is room, exactly when no load or navigation is queued
      or running; otherwise it is not needed. */
  lemma PrefetchTaken(l: Lane, job: Job)
    requires !l.closed && |l.queue| < QUEUE_SIZE && job.kind.Prefetch?
    ensures var l' := Submit(l, job);
      var busy := (l.worker.Running? && (l.worker.job.kind.Load? || l.worker.job.kind.Nav?)) ||
        exists i :: 0 <= i < |l.queue| && (l.queue[i].kind.Load? || l.queue[i].kind.Nav?);
      if busy then l'.replies == l.replies + [Reply(job, NotNeeded)] && l'.queue == l.queue && l'.accepted == l.accepted
      else l'.accepted == l.accepted + [job] && job in l'.queue
  {
    hide Filter;
    assert forall i :: 0 <= i < |l.queue| ==> (Loads(l.queue[i]) <==> l.queue[i].kind.Load? || l.queue[i].kind.Nav?);
  }

  /** Dropping loads does the same to every load and prefetch. */
  lemma LoadsDropped(l: Lane, q: Job)
    requires !l.closed && q in l.queue
    ensures var l' := DropLoads(l);
      && (q.kind.Load? || q.kind.Prefetch? ==> Reply(q, Superseded) in l'.replies && q !in l'.queue)
      && (q.kind.Nav? || q.kind.Mutate? ==> q in l'.queue)
      && (l.worker.Running? ==>
            l'.worker == l.worker.(cancelled := l.worker.cancelled || Fetches()(l.worker.job)))
  {
    hide Filter, Replies;
    Filtered(l.queue, Fetches(), true, q);
    Filtered(l.queue, Fetches(), false, q);
    if Fetches()(q) {
      Answers(Filter(l.queue, Fetches(), true), Superseded, q);
    }
  }

  /** Closing answers every queued job and cancels the one running. */
  lemma Closes(l: Lane, q: Job)
    requires !l.closed && q in l.queue
    ensures var l' := Close(l);
      && l'.closed && l'.queue == [] && Reply(q, NoSession) in l'.replies
      && (l.worker.Running? ==> l'.worker == l.worker.(cancelled := true))
  {
    hide Replies;
    Answers(l.queue, NoSession, q);
  }
}

/** The answers of the player loop, which go by the generations. */
module ResultAnswers {
  import opened LoaderModel
  import LR = LoaderRuns
  import LA = LoaderAnswers
  import opened SkipModel

  /** Jobs are stamped with a generation not past the current one. */
  ghost predicate Stamped<L>(p: Player<L>) {
    forall i :: 0 <= i < |p.lane.submitted| ==> Stamp(p, p.lane.submitted[i])
  }

  predicate Stamp<L>(p: Player<L>, job: Job) {
    job.kind.Mutate? || job.gen <= Generation(p, job.kind)
  }

  ghost predicate Unrun(l: Lane) {
    forall i :: 0 <= i < |l.queue| ==> l.queue[i] !in l.started
  }

  /** A job that was run is superseded only if its generation has passed. */
  predicate Passed<L>(p: Player<L>, reply: Reply) {
    reply.answer.Superseded? && reply.job in p.lane.started ==>
      !reply.job.kind.Mutate? && reply.job.gen < Generation(p, reply.job.kind)
  }

  ghost predicate AllPassed<L>(p: Player<L>, replies: seq<Reply>) {
    forall i :: 0 <= i < |replies| ==> Passed(p, replies[i])
  }

  ghost predicate Good<L>(p: Player<L>) {
    Stamped(p) && Unrun(p.lane) && LA.Traced(p.lane) && AllPassed(p, p.lane.replies)
  }

  /** Taking jobs out of the queue supersedes only queued ones. */
  lemma DroppedQueued(l: Lane, was: seq<Reply>, dropped: seq<Job>, p: Job -> bool, i: nat)
    requires dropped == Filter(l.queue, p, true) && |was| <= i < |was| + |dropped|
    ensures (was + Replies(dropped, Superseded))[i].job in l.queue
  {
    hide Filter, Replies;
    LR.RepliesAt(dropped, Superseded, i - |was|);
    LR.FilterHolds(l.queue, p, true, i - |was|);
  }

  lemma SubmitSupersedes(l: Lane, job: Job, i: nat)
    ensures var l' := Submit(l, job);
      && l.replies <= l'.replies && l'.started == l.started
      && (|l.replies| <= i < |l'.replies| && l'.replies[i].answer.Superseded? ==> l'.replies[i].job in l.queue)
  {
    hide Filter, Replies, PendingLoad;
    assert Replies([], Superseded) == [] by { NoReplies(); }
    var p := if Loads(job) then Fetches() else Prefetches();
    var dropped := Filter(l.queue, p, true);
    if |l.replies| <= i < |l.replies| + |dropped| {
      DroppedQueued(l, l.replies, dropped, p, i);
    }
    if |l.replies| < i < |l.replies| + 1 + |dropped| {
      DroppedQueued(l, l.replies + [Reply(job, Busy)], dropped, p, i);
    }
  }

  lemma NoReplies()
    ensures Replies([], Superseded) == []
  {}

  lemma SubmitQueue(l: Lane, job: Job, q: Job)
    requires q in Submit(l, job).queue
    ensures q in l.queue || q == job
  {
    hide Filter, PendingLoad;
    var p := if Loads(job) then Fetches() else Prefetches();
    LA.Filtered(l.queue, p, false, q);
  }

  lemma SubmitGood<L>(p: Player<L>, job: Job, loadGen: nat)
    requires Good(p) && LR.Inv(p.lane) && LR.Enabled(p.lane, LR.OpSubmit(job)) && p.loadGen <= loadGen
    requires LA.Traced(Submit(p.lane, job)) && Stamp(p.(loadGen := loadGen), job)
    ensures Good(p.(lane := Submit(p.lane, job), loadGen := loadGen))
  {
    hide Submit, LR.Inv;
    var l, l', p' := p.lane, Submit(p.lane, job), p.(lane := Submit(p.lane, job), loadGen := loadGen);
    SubmitSupersedes(l, job, 0);
    assert l'.submitted == l.submitted + [job] by { LR.SubmittedStays(l, LR.OpSubmit(job)); }
    forall i | 0 <= i < |l'.submitted| ensures Stamp(p', l'.submitted[i]) {
      assert i < |l.submitted| ==> Stamp(p, l.submitted[i]);
    }
    forall i | 0 <= i < |l'.queue| ensures l'.queue[i] !in l'.started {
      SubmitQueue(l, job, l'.queue[i]);
    }
    forall i | 0 <= i < |l'.replies| ensures Passed(p', l'.replies[i]) {
      SubmitSupersedes(l, job, i);
      assert i < |l.replies| ==> Passed(p, l.replies[i]);
    }
  }

  lemma NextGood<L>(p: Player<L>, now: nat)
    requires Good(p) && LR.Inv(p.lane) && LA.Traced(Next(p.lane, now))
    ensures Good(p.(lane := Next(p.lane, now)))
  {
    hide NextIndex, LR.Shape, LR.Ordered;
    var l, l', p' := p.lane, Next(p.lane, now), p.(lane := Next(p.lane, now));
    var k := NextIndex(l.queue, now);
    if !l.closed && k < |l.queue| {
      forall i | 0 <= i < |l'.queue| ensures l'.queue[i] !in l'.started {
        QueuedOnce(l, k, if i < k then i else i + 1);
      }
      forall i | 0 <= i < |l'.replies| ensures Passed(p', l'.replies[i]) {
        assert Passed(p, l.replies[i]);
        NotAnswered(l, k, i);
      }
      assert forall i :: 0 <= i < |l'.submitted| && Stamp(p, l.submitted[i]) ==> Stamp(p', l'.submitted[i]);
    }
  }

  lemma QueuedOnce(l: Lane, i: nat, j: nat)
    requires LR.Conserved(l) && i < |l.queue| && j < |l.queue| && i != j
    ensures l.queue[i] != l.queue[j]
  {
    hide Answered;
    var a, b := if i < j then i else j, if i < j then j else i;
    assert l.queue == l.queue[..a] + [l.queue[a]] + l.queue[a + 1..b] + [l.queue[b]] + l.queue[b + 1..];
    assert multiset(l.queue)[l.queue[a]] <= multiset(l.submitted)[l.queue[a]];
  }

  lemma NotAnswered(l: Lane, k: nat, i: nat)
    requires LR.Conserved(l) && k < |l.queue| && i < |l.replies|
    ensures l.replies[i].job != l.queue[k]
  {
    hide Answered;
    LR.AnsweredAt(l.replies, i);
    var queued, answered := multiset(l.queue), multiset(Answered(l.replies));
    assert l.queue[k] in queued && l.replies[i].job in answered;
    assert queued[l.queue[k]] + answered[l.queue[k]] <= multiset(l.submitted)[l.queue[k]];
  }

  /** The lane's other steps supersede only what is queued. */
  lemma LaneGood<L>(p: Player<L>, op: LR.Op)
    requires Good(p) && LR.Enabled(p.lane, op) && LA.Traced(LR.Do(p.lane, op))
    requires op.OpDropLoads? || op.OpAbandon? || op.OpStop? || op.OpClose? || op.OpFinish? || op.OpSend?
    ensures Good(p.(lane := LR.Do(p.lane, op)))
  {
    hide Filter, Replies;
    var l, l', p' := p.lane, LR.Do(p.lane, op), p.(lane := LR.Do(p.lane, op));
    forall i | 0 <= i < |l'.queue| ensures l'.queue[i] !in l'.started {
      LA.Filtered(l.queue, Fetches(), false, l'.queue[i]);
    }
    forall i | 0 <= i < |l'.replies| ensures Passed(p', l'.replies[i]) {
      if i < |l.replies| {
        assert Passed(p, l.replies[i]);
      } else if op.OpDropLoads? {
        DroppedQueued(l, l.replies, Filter(l.queue, Fetches(), true), Fetches(), i);
      } else if op.OpClose? {
        LR.RepliesAt(l.queue, NoSession, i - |l.replies|);
      }
    }
    assert forall i :: 0 <= i < |l'.submitted| && Stamp(p, l.submitted[i]) ==> Stamp(p', l'.submitted[i]);
  }

  lemma ReceiveGood<L>(p: Player<L>, publishes: bool)
    requires Good(p) && LR.Inv(p.lane) && Enabled(p, Received(publishes))
    requires LA.Traced(SkipModel.Receive(p, publishes).lane)
    ensures Good(SkipModel.Receive(p, publishes))
  {
    hide LR.Shape, LR.Ordered, Answered;
    var l, p' := p.lane, SkipModel.Receive(p, publishes);
    var job := l.results[0];
    assert job in multiset(l.results) && job in multiset(l.submitted);
    assert Stamp(p, job);
    assert forall i :: 0 <= i < |l.replies| && Passed(p, l.replies[i]) ==> Passed(p', l.replies[i]);
    assert forall i :: 0 <= i < |l.submitted| && Stamp(p, l.submitted[i]) ==> Stamp(p', l.submitted[i]);
  }

  lemma BumpGood<L>(p: Player<L>, loadGen: nat, prefetchGen: nat)
    requires Good(p) && p.loadGen <= loadGen && p.prefetchGen <= prefetchGen
    ensures Good(p.(loadGen := loadGen, prefetchGen := prefetchGen))
  {
    var p' := p.(loadGen := loadGen, prefetchGen := prefetchGen);
    assert forall i :: 0 <= i < |p.lane.replies| && Passed(p, p.lane.replies[i]) ==> Passed(p', p.lane.replies[i]);
    assert forall i :: 0 <= i < |p.lane.submitted| && Stamp(p, p.lane.submitted[i]) ==> Stamp(p', p.lane.submitted[i]);
  }

  /** Only the lane and the generations matter. */
  lemma SameGood<L>(p: Player<L>, q: Player<L>)
    requires Good(p) && q.lane == p.lane && q.loadGen == p.loadGen && q.prefetchGen == p.prefetchGen
    ensures Good(q)
  {
    assert forall i :: 0 <= i < |p.lane.replies| && Passed(p, p.lane.replies[i]) ==> Passed(q, q.lane.replies[i]);
    assert forall i :: 0 <= i < |p.lane.submitted| && Stamp(p, p.lane.submitted[i]) ==> Stamp(q, q.lane.submitted[i]);
  }

  /** The part of an event that is a step of the lane. */
  lemma LaneDue<L>(walk: Walk<L>, p: Player<L>, ev: Event)
    requires Good(p) && LR.Inv(p.lane) && LA.AllDue(p.lane, p.lane.replies) && Enabled(p, ev)
    ensures var l := Do(walk, p, ev).lane; LA.Traced(l) && LA.AllDue(l, l.replies) && LR.Inv(l)
  {
    hide LR.Shape, LR.Ordered, LR.Conserved, LA.AllDue, LA.Traced, LR.Do, LR.Enabled, Do, Enabled, LaneOp;
    DoOnLane(walk, p, ev);
    if LaneOp(p, ev) != [] {
      LA.StepDue(p.lane, LaneOp(p, ev)[0]);
      LR.StepKeepsInv(p.lane, LaneOp(p, ev)[0]);
    }
  }

  lemma StepGood<L>(walk: Walk<L>, p: Player<L>, ev: Event)
    requires Good(p) && LR.Inv(p.lane) && LA.AllDue(p.lane, p.lane.replies) && Enabled(p, ev)
    ensures Good(Do(walk, p, ev))
  {
    hide Submit, Next, LR.Conserved, LR.Shape, LR.Ordered, LA.AllDue, LA.Traced, Stamped, Unrun, AllPassed;
    LaneDue(walk, p, ev);
    match ev {
      case Press(id) => SubmitGood(p, PressJob(p, id), p.loadGen + 1);
      case Other(job) =>
        SubmitGood(p, job, p.loadGen);
        SameGood(p.(lane := Submit(p.lane, job), loadGen := p.loadGen), Do(walk, p, ev));
      case LaneStep(op) => if op.OpNext? { NextGood(p, op.now); } else { LaneGood(p, op); }
      case Walked =>
        LaneGood(p, LR.OpFinish);
        SameGood(p.(lane := Finish(p.lane)), Do(walk, p, ev));
      case Delivered =>
        LaneGood(p, LR.OpSend);
        SameGood(p.(lane := Send(p.lane)), Do(walk, p, ev));
      case Received(publishes) => ReceiveGood(p, publishes);
      case Bump(loads) =>
        BumpGood(p, if loads then p.loadGen + 1 else p.loadGen, if loads then p.prefetchGen else p.prefetchGen + 1);
    }
  }

  lemma {:induction false} RunGood<L>(walk: Walk<L>, p: Player<L>, evs: seq<Event>)
    requires Good(p) && LR.Inv(p.lane) && LA.AllDue(p.lane, p.lane.replies) && Possible(walk, p, evs)
    ensures var q := Run(walk, p, evs); Good(q) && LA.AllDue(q.lane, q.lane.replies)
    decreases |evs|
  {
    hide Good, LR.Inv, LA.AllDue, Do, Enabled;
    if evs != [] {
      StepGood(walk, p, evs[0]);
      StepDue(walk, p, evs[0]);
      RunGood(walk, Do(walk, p, evs[0]), evs[1..]);
    }
  }

  lemma StepDue<L>(walk: Walk<L>, p: Player<L>, ev: Event)
    requires Good(p) && LR.Inv(p.lane) && LA.AllDue(p.lane, p.lane.replies) && Enabled(p, ev)
    ensures var l := Do(walk, p, ev).lane; LR.Inv(l) && LA.AllDue(l, l.replies)
  {
    hide Good, LR.Inv, LA.AllDue, Do, Enabled;
    LaneDue(walk, p, ev);
  }

  /** In every run of the player loop a job that was run and is answered as superseded
      was a load, navigation or prefetch of a generation that has passed; one that was
      not run was a load or prefetch. */
  lemma SupersededMeans<L>(walk: Walk<L>, list: L, evs: seq<Event>, job: Job)
    requires Possible(walk, Initial(list), evs)
    requires Reply(job, Superseded) in Run(walk, Initial(list), evs).lane.replies
    ensures var p := Run(walk, Initial(list), evs);
      if job in p.lane.started then !job.kind.Mutate? && job.gen < Generation(p, job.kind)
      else job.kind.Load? || job.kind.Prefetch?
  {
    hide Possible, Run;
    LR.EmptyInv();
    RunGood(walk, Initial(list), evs);
    var p := Run(walk, Initial(list), evs);
    var i :| 0 <= i < |p.lane.replies| && p.lane.replies[i] == Reply(job, Superseded);
    assert Passed(p, p.lane.replies[i]) && LA.Due(p.lane, p.lane.replies[i]);
  }

  /** The result taken is answered as applied exactly if it is of a mutation or of the
      current generation. */
  lemma ResultJudged<L>(walk: Walk<L>, p: Player<L>, publishes: bool)
    requires Enabled(p, Received(publishes))
    ensures var job := p.lane.results[0]; var l := Do(walk, p, Received(publishes)).lane;
      && l.replies == l.replies[..|p.lane.replies|] + [Reply(job, l.replies[|p.lane.replies|].answer)]
      && l.replies[..|p.lane.replies|] == p.lane.replies && l.results == p.lane.results[1..]
      && l.replies[|p.lane.replies|].answer in {Applied, Superseded}
      && (l.replies[|p.lane.replies|].answer.Applied? <==>
            job.kind.Mutate? || job.gen == if job.kind.Prefetch? then p.prefetchGen else p.loadGen)
  {}
}
