/** The player loop and the loader lane together: generations, walks of the track
    list, and what of them is published. L is whatever describes a track list. */
module SkipModel {
  import opened LoaderModel
  import LR = LoaderRuns

  /** How running a job changes the list. */
  type Walk<!L> = (Job, L) -> L

  /** snaps are the lists the pending results describe. */
  datatype Player<L> = Player(
    lane: Lane, list: L, snaps: seq<L>, published: L, loadGen: nat, prefetchGen: nat)

  datatype Event =
    | Press(id: nat)
    | Other(job: Job)
    | Bump(loads: bool)
    | LaneStep(op: LR.Op)
    | Walked
    | Delivered
    | Received(publishes: bool)

  function Generation<L>(p: Player<L>, kind: Kind): nat {
    if kind.Prefetch? then p.prefetchGen else p.loadGen
  }

  /** The job a press submits: one step from wherever the cursor is by then. */
  function PressJob<L>(p: Player<L>, id: nat): Job {
    Job(id, Nav, p.loadGen + 1, 0)
  }

  /** Whether the result still describes what the player is trying to do. */
  predicate Current<L>(p: Player<L>, job: Job) {
    job.kind.Mutate? || job.gen == Generation(p, job.kind)
  }

  predicate Enabled<L>(p: Player<L>, ev: Event) {
    match ev
    case Press(id) => LR.Enabled(p.lane, LR.OpSubmit(PressJob(p, id)))
    case Other(job) => !job.kind.Nav? && job.gen == Generation(p, job.kind) && LR.Enabled(p.lane, LR.OpSubmit(job))
    case Bump(_) => true
    case LaneStep(op) =>
      && (op.OpDropLoads? || op.OpNext? || op.OpAbandon? || op.OpStop? || op.OpClose?)
      && LR.Enabled(p.lane, op)
    case Walked => LR.Enabled(p.lane, LR.OpFinish)
    case Delivered => LR.Enabled(p.lane, LR.OpSend)
    case Received(publishes) =>
      p.lane.results != [] && |p.snaps| == |p.lane.results| && (p.lane.results[0].kind.Nav? ==> publishes)
  }

  /** The player loop takes the oldest result: if it is current it is committed,
      which for navigation always publishes the list as it was then. */
  function Receive<L>(p: Player<L>, publishes: bool): Player<L>
    requires p.lane.results != [] && |p.snaps| == |p.lane.results|
  {
    var current := Current(p, p.lane.results[0]);
    p.(lane := LoaderModel.Receive(p.lane, if current then Applied else Superseded),
       snaps := p.snaps[1..],
       published := if current && publishes then p.snaps[0] else p.published)
  }

  function Do<L>(walk: Walk<L>, p: Player<L>, ev: Event): Player<L>
    requires Enabled(p, ev)
  {
    match ev
    case Press(id) => p.(lane := Submit(p.lane, PressJob(p, id)), loadGen := p.loadGen + 1)
    case Other(job) => p.(lane := Submit(p.lane, job))
    case Bump(loads) => if loads then p.(loadGen := p.loadGen + 1) else p.(prefetchGen := p.prefetchGen + 1)
    case LaneStep(op) => p.(lane := LR.Do(p.lane, op))
    case Walked => p.(lane := Finish(p.lane), list := walk(p.lane.worker.job, p.list))
    case Delivered => p.(lane := Send(p.lane), snaps := p.snaps + [p.list])
    case Received(publishes) => Receive(p, publishes)
  }

  /** The lane step an event takes, if any. */
  function LaneOp<L>(p: Player<L>, ev: Event): seq<LR.Op>
    requires Enabled(p, ev)
  {
    match ev
    case Press(id) => [LR.OpSubmit(PressJob(p, id))]
    case Other(job) => [LR.OpSubmit(job)]
    case Bump(_) => []
    case LaneStep(op) => [op]
    case Walked => [LR.OpFinish]
    case Delivered => [LR.OpSend]
    case Received(_) => [LR.OpReceive(Current(p, p.lane.results[0]))]
  }

  lemma DoOnLane<L>(walk: Walk<L>, p: Player<L>, ev: Event)
    requires Enabled(p, ev)
    ensures LaneOp(p, ev) == [] ==> Do(walk, p, ev).lane == p.lane
    ensures LaneOp(p, ev) != [] ==>
      LR.Enabled(p.lane, LaneOp(p, ev)[0]) && Do(walk, p, ev).lane == LR.Do(p.lane, LaneOp(p, ev)[0])
  {}

  predicate Possible<L>(walk: Walk<L>, p: Player<L>, evs: seq<Event>)
    decreases |evs|
  {
    evs == [] || (Enabled(p, evs[0]) && Possible(walk, Do(walk, p, evs[0]), evs[1..]))
  }

  function Run<L>(walk: Walk<L>, p: Player<L>, evs: seq<Event>): Player<L>
    requires Possible(walk, p, evs)
    decreases |evs|
  {
    if evs == [] then p else Run(walk, Do(walk, p, evs[0]), evs[1..])
  }

  function Initial<L>(list: L): Player<L> {
    Player(EMPTY, list, [], list, 0, 0)
  }

  /** The list after running jobs one after the other. */
  function Fold<L>(walk: Walk<L>, list: L, jobs: seq<Job>): L {
    if jobs == [] then list else walk(jobs[|jobs|-1], Fold(walk, list, jobs[..|jobs|-1]))
  }
}

/** A burst of skips publishes the list after all of them. */
module SkipBursts {
  import opened LoaderModel
  import opened SkipModel
  import LR = LoaderRuns

  /** The jobs whose walk of the list is over. */
  function Done(l: Lane): seq<Job> {
    if l.worker.Running? && l.started != [] then l.started[..|l.started|-1] else l.started
  }

  ghost predicate Describes<L>(walk: Walk<L>, list: L, started: seq<Job>, job: Job, snap: L) {
    exists k: nat :: k < |started| && started[k] == job && snap == Fold(walk, list, started[..k + 1])
  }

  /** The job with the worker is the last started, the list is what the finished
      walks made of it, and each result describes it as its job left it. */
  ghost predicate Walks<L>(walk: Walk<L>, list: L, p: Player<L>) {
    && (p.lane.worker.Running? || p.lane.worker.Sending? ==>
          p.lane.started != [] && p.lane.started[|p.lane.started|-1] == p.lane.worker.job)
    && p.list == Fold(walk, list, Done(p.lane))
    && |p.snaps| == |p.lane.results|
    && forall i :: 0 <= i < |p.snaps| ==> Describes(walk, list, p.lane.started, p.lane.results[i], p.snaps[i])
  }

  predicate SameWorker(w: Worker, w': Worker) {
    w' == w || (w.Running? && w' == w.(cancelled := true))
  }

  /** What the steps other than taking, finishing and handing over a job leave. */
  lemma Leaves(l: Lane, op: LR.Op)
    requires LR.Enabled(l, op) && !op.OpNext? && !op.OpFinish? && !op.OpSend?
    ensures LR.Do(l, op).started == l.started
    ensures op.OpAbandon? || op.OpStop? || SameWorker(l.worker, LR.Do(l, op).worker)
    ensures LR.Do(l, op).results == if op.OpReceive? then l.results[1..] else l.results
  {
    hide Filter, Replies, PendingLoad;
  }

  lemma NextWalks<L>(walk: Walk<L>, list: L, p: Player<L>, now: nat)
    requires Walks(walk, list, p) && p.lane.worker.Idle?
    ensures Walks(walk, list, p.(lane := Next(p.lane, now)))
  {
    hide NextIndex, Fold;
    var l := Next(p.lane, now);
    if l != p.lane {
      assert l.started[..|l.started|-1] == p.lane.started;
      DescribesMore(walk, list, p, l.started);
    }
  }

  lemma DescribesMore<L>(walk: Walk<L>, list: L, p: Player<L>, started: seq<Job>)
    requires Walks(walk, list, p) && p.lane.started <= started
    ensures forall i :: 0 <= i < |p.snaps| ==> Describes(walk, list, started, p.lane.results[i], p.snaps[i])
  {
    hide Fold;
    forall i | 0 <= i < |p.snaps| ensures Describes(walk, list, started, p.lane.results[i], p.snaps[i]) {
      var k: nat :| k < |p.lane.started| && p.lane.started[k] == p.lane.results[i]
        && p.snaps[i] == Fold(walk, list, p.lane.started[..k + 1]);
      assert started[..k + 1] == p.lane.started[..k + 1];
    }
  }

  lemma FinishWalks<L>(walk: Walk<L>, list: L, p: Player<L>)
    requires Walks(walk, list, p) && p.lane.worker.Running?
    ensures Walks(walk, list, Do(walk, p, Walked))
  {}

  lemma SendWalks<L>(walk: Walk<L>, list: L, p: Player<L>)
    requires Walks(walk, list, p) && Enabled(p, Delivered)
    ensures Walks(walk, list, Do(walk, p, Delivered))
  {
    hide Fold;
    var n := |p.lane.started| - 1;
    assert p.lane.started[..n + 1] == p.lane.started;
    assert Describes(walk, list, p.lane.started, p.lane.worker.job, p.list);
  }

  lemma StepWalks<L>(walk: Walk<L>, list: L, p: Player<L>, ev: Event)
    requires Walks(walk, list, p) && Enabled(p, ev)
    ensures Walks(walk, list, Do(walk, p, ev))
  {
    hide Fold, Describes, Submit, Next, Finish, Send;
    match ev {
      case Walked => FinishWalks(walk, list, p);
      case Delivered => SendWalks(walk, list, p);
      case LaneStep(op) => if op.OpNext? { NextWalks(walk, list, p, op.now); } else { Leaves(p.lane, op); }
      case Press(_) => Leaves(p.lane, LaneOp(p, ev)[0]);
      case Other(_) => Leaves(p.lane, LaneOp(p, ev)[0]);
      case Received(_) => Leaves(p.lane, LaneOp(p, ev)[0]);
      case Bump(_) =>
    }
  }

  /** What an answer to navigation says. */
  predicate NavReply(l: Lane, loadGen: nat, reply: Reply) {
    match reply.answer
    case Applied => true
    case Superseded => reply.job.gen < loadGen
    case Busy => reply.job !in l.accepted
    case NoSession => l.closed
    case NotNeeded => false
  }

  ghost predicate NavReplies(l: Lane, loadGen: nat, replies: seq<Reply>) {
    forall i :: 0 <= i < |replies| && replies[i].job.kind.Nav? ==> NavReply(l, loadGen, replies[i])
  }

  /** Jobs are accepted once, navigation is stamped with a generation not past the
      current one, and answered accordingly. */
  ghost predicate Stamps<L>(p: Player<L>) {
    && (forall i :: 0 <= i < |p.lane.accepted| ==> p.lane.accepted[i] in p.lane.submitted)
    && (forall i, j :: 0 <= i < j < |p.lane.accepted| ==> p.lane.accepted[i] != p.lane.accepted[j])
    && (forall i :: 0 <= i < |p.lane.submitted| && p.lane.submitted[i].kind.Nav? ==>
          p.lane.submitted[i].gen <= p.loadGen)
    && NavReplies(p.lane, p.loadGen, p.lane.replies)
  }

  predicate NoNav(jobs: seq<Job>) {
    forall i :: 0 <= i < |jobs| ==> !jobs[i].kind.Nav?
  }

  /** No navigation is ever dropped. */
  lemma DroppedKinds(queue: seq<Job>, p: Job -> bool)
    requires p == Fetches() || p == Prefetches()
    ensures NoNav(Filter(queue, p, true))
  {
    hide Filter;
    var dropped := Filter(queue, p, true);
    forall i | 0 <= i < |dropped| ensures !dropped[i].kind.Nav? {
      LR.FilterHolds(queue, p, true, i);
    }
  }

  /** The i-th answer, if it is to navigation and is new, is to the job submitted. */
  ghost predicate AnswersOnly(was: seq<Reply>, replies: seq<Reply>, i: nat, reply: Reply) {
    was <= replies && (|was| <= i < |replies| && replies[i].job.kind.Nav? ==> replies[i] == reply)
  }

  ghost predicate AnswersNone(was: seq<Reply>, replies: seq<Reply>, i: nat) {
    was <= replies && (|was| <= i < |replies| ==> !replies[i].job.kind.Nav?)
  }

  lemma DroppedAnswers(was: seq<Reply>, dropped: seq<Job>, i: nat)
    requires NoNav(dropped)
    ensures AnswersNone(was, was + Replies(dropped, Superseded), i)
  {
    hide Replies;
    if |was| <= i < |was| + |dropped| {
      LR.RepliesAt(dropped, Superseded, i - |was|);
    }
  }

  lemma EnqueueAnswers(l: Lane, job: Job, dropped: seq<Job>, i: nat)
    requires NoNav(dropped)
    ensures var l' := Enqueue(l, job, dropped);
      if |l.queue| >= QUEUE_SIZE then
        AnswersOnly(l.replies, l'.replies, i, Reply(job, Busy)) && l'.accepted == l.accepted
      else AnswersNone(l.replies, l'.replies, i) && l'.accepted == l.accepted + [job]
  {
    hide Replies;
    if |l.queue| >= QUEUE_SIZE {
      DroppedAnswers(l.replies + [Reply(job, Busy)], dropped, i);
    } else {
      DroppedAnswers(l.replies, dropped, i);
    }
  }

  /** How submitting a job is answered, and what is accepted. */
  lemma SubmitAnswers(l: Lane, job: Job, i: nat)
    ensures var l' := Submit(l, job);
      && l.replies <= l'.replies && l'.closed == l.closed && l'.submitted == l.submitted + [job]
      && (l'.accepted == l.accepted || l'.accepted == l.accepted + [job])
      && (|l.replies| <= i < |l'.replies| && l'.replies[i].job.kind.Nav? ==>
            l'.replies[i].job == job && if l.closed then l'.replies[i].answer.NoSession?
                                        else l'.replies[i].answer.Busy? && l'.accepted == l.accepted)
  {
    hide Filter, Replies, PendingLoad;
    var s := l.(submitted := l.submitted + [job]);
    if !l.closed {
      if Loads(job) {
        DroppedKinds(l.queue, Fetches());
        EnqueueAnswers(Without(s, Fetches()), job, Filter(l.queue, Fetches(), true), i);
      } else if job.kind.Mutate? {
        EnqueueAnswers(s, job, [], i);
      } else if !PendingLoad(l) {
        DroppedKinds(l.queue, Prefetches());
        EnqueueAnswers(Without(s, Prefetches()), job, Filter(l.queue, Prefetches(), true), i);
      }
    }
  }

  lemma SubmitStamps<L>(p: Player<L>, job: Job, loadGen: nat)
    requires Stamps(p) && LR.Conserved(p.lane) && job !in p.lane.submitted && p.loadGen <= loadGen
    requires job.kind.Nav? ==> job.gen <= loadGen
    ensures Stamps(p.(lane := Submit(p.lane, job), loadGen := loadGen))
  {
    hide Submit;
    var l, l' := p.lane, Submit(p.lane, job);
    SubmitAnswers(l, job, 0);
    forall i | 0 <= i < |l'.replies| && l'.replies[i].job.kind.Nav?
      ensures NavReply(l', loadGen, l'.replies[i])
    {
      SubmitAnswers(l, job, i);
      if i < |l.replies| {
        LR.AnsweredSubmitted(l, i);
        assert NavReply(l, p.loadGen, l.replies[i]);
      } else {
        AcceptedOnce(p, job);
      }
    }
  }

  lemma AcceptedOnce<L>(p: Player<L>, job: Job)
    requires Stamps(p) && job !in p.lane.submitted
    ensures job !in p.lane.accepted
  {}

  /** The lane's own steps answer navigation only by closing. */
  lemma LaneAnswers(l: Lane, op: LR.Op, i: nat)
    requires op.OpDropLoads? || op.OpNext? || op.OpAbandon? || op.OpStop? || op.OpClose? || op.OpFinish? || op.OpSend?
    requires LR.Enabled(l, op)
    ensures var l' := LR.Do(l, op);
      && l.replies <= l'.replies && (l.closed ==> l'.closed) && l'.submitted == l.submitted && l'.accepted == l.accepted
      && (|l.replies| <= i < |l'.replies| && l'.replies[i].job.kind.Nav? ==>
            l'.replies[i].answer.NoSession? && l'.closed)
  {
    hide Filter, Replies, NextIndex;
    if op.OpDropLoads? {
      DroppedKinds(l.queue, Fetches());
      DroppedAnswers(l.replies, Filter(l.queue, Fetches(), true), i);
    } else if op.OpClose? && !l.closed && |l.replies| <= i < |l.replies| + |l.queue| {
      LR.RepliesAt(l.queue, NoSession, i - |l.replies|);
    }
  }

  lemma LaneStamps<L>(p: Player<L>, op: LR.Op)
    requires Stamps(p)
    requires op.OpDropLoads? || op.OpNext? || op.OpAbandon? || op.OpStop? || op.OpClose? || op.OpFinish? || op.OpSend?
    requires LR.Enabled(p.lane, op)
    ensures Stamps(p.(lane := LR.Do(p.lane, op)))
  {
    hide LR.Do;
    var l, l' := p.lane, LR.Do(p.lane, op);
    LaneAnswers(l, op, 0);
    forall i | 0 <= i < |l'.replies| && l'.replies[i].job.kind.Nav?
      ensures NavReply(l', p.loadGen, l'.replies[i])
    {
      LaneAnswers(l, op, i);
      if i < |l.replies| {
        assert NavReply(l, p.loadGen, l.replies[i]);
      }
    }
  }

  lemma ReceiveStamps<L>(p: Player<L>, publishes: bool)
    requires Stamps(p) && LR.Conserved(p.lane) && Enabled(p, Received(publishes))
    ensures Stamps(SkipModel.Receive(p, publishes))
  {
    var l := p.lane;
    assert l.results[0] in multiset(l.results);
    assert l.results[0] in multiset(l.submitted);
    assert NavReplies(l, p.loadGen, l.replies);
  }

  lemma StepStamps<L>(walk: Walk<L>, p: Player<L>, ev: Event)
    requires Stamps(p) && LR.Conserved(p.lane) && Enabled(p, ev)
    ensures Stamps(Do(walk, p, ev))
  {
    hide Submit, LR.Conserved;
    match ev {
      case Press(id) => SubmitStamps(p, PressJob(p, id), p.loadGen + 1);
      case Other(job) => SubmitStamps(p, job, p.loadGen);
      case LaneStep(op) => LaneStamps(p, op);
      case Walked => LaneStamps(p, LR.OpFinish);
      case Delivered => LaneStamps(p, LR.OpSend);
      case Received(publishes) => ReceiveStamps(p, publishes);
      case Bump(_) =>
    }
  }

  ghost predicate Inv<L>(walk: Walk<L>, list: L, p: Player<L>) {
    LR.Inv(p.lane) && Walks(walk, list, p) && Stamps(p)
  }

  lemma StepInv<L>(walk: Walk<L>, list: L, p: Player<L>, ev: Event)
    requires Inv(walk, list, p) && Enabled(p, ev)
    ensures Inv(walk, list, Do(walk, p, ev))
  {
    hide Walks, Stamps, LR.Conserved, LR.Shape, LR.Ordered, LR.Do, LR.Enabled, Do, Enabled, LaneOp;
    StepWalks(walk, list, p, ev);
    StepStamps(walk, p, ev);
    DoOnLane(walk, p, ev);
    if LaneOp(p, ev) != [] {
      LR.StepKeepsInv(p.lane, LaneOp(p, ev)[0]);
    }
  }

  lemma {:induction false} RunInv<L>(walk: Walk<L>, list: L, p: Player<L>, evs: seq<Event>)
    requires Inv(walk, list, p) && Possible(walk, p, evs)
    ensures Inv(walk, list, Run(walk, p, evs))
    decreases |evs|
  {
    hide Inv, Do, Enabled;
    if evs != [] {
      StepInv(walk, list, p, evs[0]);
      RunInv(walk, list, Do(walk, p, evs[0]), evs[1..]);
    }
  }

  lemma InitialInv<L>(walk: Walk<L>, list: L)
    ensures Inv(walk, list, Initial(list))
  {
    LR.EmptyInv();
  }

  /** The jobs up to and including this one. */
  function UpTo(jobs: seq<Job>, job: Job): seq<Job> {
    if jobs == [] || jobs[|jobs|-1] == job then jobs else UpTo(jobs[..|jobs|-1], job)
  }

  ghost predicate Distinct(jobs: seq<Job>) {
    forall i, j :: 0 <= i < j < |jobs| ==> jobs[i] != jobs[j]
  }

  lemma {:induction false} UpToIs(jobs: seq<Job>, n: nat)
    requires Distinct(jobs) && n < |jobs|
    ensures UpTo(jobs, jobs[n]) == jobs[..n + 1]
  {
    if n < |jobs| - 1 {
      UpToIs(jobs[..|jobs|-1], n);
      assert jobs[..|jobs|-1][..n + 1] == jobs[..n + 1];
    } else {
      assert jobs[..n + 1] == jobs;
    }
  }

  lemma {:induction false} FilterDistinct(jobs: seq<Job>, p: Job -> bool, holds: bool)
    requires Distinct(jobs)
    ensures Distinct(Filter(jobs, p, holds))
  {
    if jobs != [] {
      var n := |jobs| - 1;
      FilterDistinct(jobs[..n], p, holds);
      var before := Filter(jobs[..n], p, holds);
      forall i | 0 <= i < |before| ensures before[i] != jobs[n] {
        LR.FilterHolds(jobs[..n], p, holds, i);
      }
    }
  }

  /** A move's place among the moves started. */
  lemma MovesUpTo(started: seq<Job>, k: nat)
    requires k < |started| && Moves()(started[k])
    ensures var all := Filter(started, Moves(), true);
            var upTo := Filter(started[..k + 1], Moves(), true);
      upTo <= all && upTo != [] && upTo[|upTo|-1] == started[k]
  {
    hide Filter;
    LR.FilterJoins(started[..k + 1], started[k + 1..], Moves(), true);
    assert started == started[..k + 1] + started[k + 1..];
    LR.FilterJoins(started[..k], [started[k]], Moves(), true);
    assert started[..k + 1] == started[..k] + [started[k]];
    LR.FilterOne(started[k], Moves(), true);
  }

  /** What a result describes: the list after the jobs started up to its own, whose
      moves are all those accepted up to it, in order. */
  lemma DescribesUpTo<L>(walk: Walk<L>, list: L, p: Player<L>, i: nat) returns (k: nat)
    requires Inv(walk, list, p) && i < |p.lane.results| && Moves()(p.lane.results[i])
    ensures k < |p.lane.started| && p.lane.started[k] == p.lane.results[i]
    ensures p.snaps[i] == Fold(walk, list, p.lane.started[..k + 1])
    ensures Filter(p.lane.started[..k + 1], Moves(), true)
         == UpTo(Filter(p.lane.accepted, Moves(), true), p.lane.results[i])
  {
    hide Filter, Fold, UpTo, LR.Conserved, LR.Shape, NavReplies;
    var l, job := p.lane, p.lane.results[i];
    assert Describes(walk, list, l.started, job, p.snaps[i]);
    k :| k < |l.started| && l.started[k] == job && p.snaps[i] == Fold(walk, list, l.started[..k + 1]);
    MovesUpTo(l.started, k);
    var moves, upTo := Filter(l.accepted, Moves(), true), Filter(l.started[..k + 1], Moves(), true);
    assert upTo <= moves;
    FilterDistinct(l.accepted, Moves(), true);
    UpToIs(moves, |upTo| - 1);
    assert upTo == moves[..|upTo|];
  }

  /** When the result of a press is applied and nothing has moved the load
      generation since, the list published is the one after the jobs run up to it,
      whose moves are all those accepted up to that press, one after the other in
      the order of the presses, whatever became of the results of the others. */
  lemma CommitPublishesAll<L>(walk: Walk<L>, list: L, evs: seq<Event>) returns (k: nat)
    requires Possible(walk, Initial(list), evs)
    requires var p := Run(walk, Initial(list), evs);
      p.lane.results != [] && p.lane.results[0].kind.Nav? && p.lane.results[0].gen == p.loadGen
    ensures var p := Run(walk, Initial(list), evs);
      && Enabled(p, Received(true)) && k < |p.lane.started| && p.lane.started[k] == p.lane.results[0]
      && Do(walk, p, Received(true)).published == Fold(walk, list, p.lane.started[..k + 1])
      && Filter(p.lane.started[..k + 1], Moves(), true)
         == UpTo(Filter(p.lane.accepted, Moves(), true), p.lane.results[0])
  {
    hide Possible, Run, Filter, Fold, UpTo;
    InitialInv(walk, list);
    RunInv(walk, list, Initial(list), evs);
    k := DescribesUpTo(walk, list, Run(walk, Initial(list), evs), 0);
  }

  /** Events that move the load generation. */
  predicate MovesLoadGen(ev: Event) {
    ev.Press? || (ev.Bump? && ev.loads)
  }

  lemma {:induction false} LoadGenGrows<L>(walk: Walk<L>, p: Player<L>, evs: seq<Event>)
    requires Possible(walk, p, evs)
    ensures p.loadGen <= Run(walk, p, evs).loadGen
    ensures p.loadGen == Run(walk, p, evs).loadGen <==> forall i :: 0 <= i < |evs| ==> !MovesLoadGen(evs[i])
    decreases |evs|
  {
    if evs != [] {
      LoadGenGrows(walk, Do(walk, p, evs[0]), evs[1..]);
      assert forall i :: 0 < i < |evs| ==> evs[i] == evs[1..][i - 1];
    }
  }

  /** The result of a press is committed if and only if no event since the press
      has moved the load generation. */
  lemma PressCommitsIff<L>(walk: Walk<L>, p: Player<L>, id: nat, evs: seq<Event>)
    requires Enabled(p, Press(id)) && Possible(walk, Do(walk, p, Press(id)), evs)
    ensures Current(Run(walk, Do(walk, p, Press(id)), evs), PressJob(p, id))
      <==> forall i :: 0 <= i < |evs| ==> !MovesLoadGen(evs[i])
  {
    LoadGenGrows(walk, Do(walk, p, Press(id)), evs);
  }

  predicate Quiet<L>(p: Player<L>) {
    !p.lane.closed && p.lane.queue == [] && p.lane.worker.Idle? && p.lane.results == []
  }

  lemma {:induction false} FoldJoins<L>(walk: Walk<L>, list: L, a: seq<Job>, b: seq<Job>)
    ensures Fold(walk, list, a + b) == Fold(walk, Fold(walk, list, a), b)
  {
    if b == [] {
      assert a + b == a;
    } else {
      assert (a + b)[..|a + b| - 1] == a + b[..|b|-1];
      FoldJoins(walk, list, a, b[..|b|-1]);
    }
  }

  /** When everything has been worked off, the list is the one after all the jobs
      run, whose moves are all those ever accepted. */
  lemma QuietList<L>(walk: Walk<L>, list: L, evs: seq<Event>)
    requires Possible(walk, Initial(list), evs) && Quiet(Run(walk, Initial(list), evs))
    ensures var p := Run(walk, Initial(list), evs);
      && p.list == Fold(walk, list, p.lane.started)
      && Filter(p.lane.started, Moves(), true) == Filter(p.lane.accepted, Moves(), true)
  {
    hide Possible, Run, Filter;
    InitialInv(walk, list);
    RunInv(walk, list, Initial(list), evs);
    var p := Run(walk, Initial(list), evs);
    LR.FilterNone(p.lane.queue, Moves());
    assert Filter(p.lane.started, Moves(), true) == Filter(p.lane.accepted, Moves(), true);
  }

  /** Navigation answered by an open lane while its generation is still the current
      one has been committed. */
  lemma AnsweredIsCommitted<L>(walk: Walk<L>, list: L, p: Player<L>, job: Job)
    requires Inv(walk, list, p) && !p.lane.closed && job in p.lane.accepted && job.kind.Nav? && job.gen == p.loadGen
    requires job in Answered(p.lane.replies)
    ensures Reply(job, Applied) in p.lane.replies
  {
    hide LR.Inv, Walks, Answered;
    var l := p.lane;
    var i: nat :| i < |Answered(l.replies)| && Answered(l.replies)[i] == job;
    LR.AnsweredAt(l.replies, i);
    assert NavReply(l, job.gen, l.replies[i]);
    assert l.replies[i] == Reply(job, Applied);
  }

  /** With nothing left to work off, every job submitted has been answered. */
  lemma QuietAnswered(l: Lane, job: Job)
    requires LR.Inv(l) && l.queue == [] && l.worker.Idle? && l.results == [] && job in l.submitted
    ensures job in Answered(l.replies)
  {
    hide LR.Shape, LR.Ordered, Answered;
    assert job in multiset(l.submitted);
    assert multiset(Answered(l.replies)) == multiset(l.submitted);
  }

  /** Answers stay given, and navigation whose generation has passed is committed by
      no later step. */
  lemma StepCommits<L>(walk: Walk<L>, p: Player<L>, ev: Event, job: Job)
    requires Enabled(p, ev)
    ensures p.lane.replies <= Do(walk, p, ev).lane.replies && p.loadGen <= Do(walk, p, ev).loadGen
    ensures job.kind.Nav? && job.gen < p.loadGen && Reply(job, Applied) !in p.lane.replies ==>
      Reply(job, Applied) !in Do(walk, p, ev).lane.replies
  {
    hide Submit, LR.Enabled;
    var l, l' := p.lane, Do(walk, p, ev).lane;
    if ev.Press? || ev.Other? {
      var submitted := if ev.Press? then PressJob(p, ev.id) else ev.job;
      SubmitAnswers(l, submitted, 0);
      forall i | |l.replies| <= i < |l'.replies| && l'.replies[i].job.kind.Nav?
        ensures l'.replies[i].answer != Applied
      {
        SubmitAnswers(l, submitted, i);
      }
    } else if ev.LaneStep? || ev.Walked? || ev.Delivered? {
      var op := LaneOp(p, ev)[0];
      LaneAnswers(l, op, 0);
      forall i | |l.replies| <= i < |l'.replies| && l'.replies[i].job.kind.Nav?
        ensures l'.replies[i].answer != Applied
      {
        LaneAnswers(l, op, i);
      }
    }
  }

  lemma {:induction false} RunCommits<L>(walk: Walk<L>, p: Player<L>, evs: seq<Event>, job: Job)
    requires Possible(walk, p, evs)
    ensures p.lane.replies <= Run(walk, p, evs).lane.replies
    ensures job.kind.Nav? && job.gen < p.loadGen && Reply(job, Applied) !in p.lane.replies ==>
      Reply(job, Applied) !in Run(walk, p, evs).lane.replies
    decreases |evs|
  {
    hide Do, Enabled;
    if evs != [] {
      StepCommits(walk, p, evs[0], job);
      RunCommits(walk, Do(walk, p, evs[0]), evs[1..], job);
    }
  }

  /** The run up to the first event after a press that moves the load generation. */
  ghost predicate StillCurrent<L>(walk: Walk<L>, p: Player<L>, id: nat, during: seq<Event>) {
    && Enabled(p, Press(id)) && Possible(walk, Do(walk, p, Press(id)), during)
    && forall i :: 0 <= i < |during| ==> !MovesLoadGen(during[i])
  }

  /** What becomes of an accepted press, split at the first later event that moves
      the load generation, such as the load its own commit goes on to: whatever
      happens afterwards, it has been committed if and only if it was by then. If
      the lane was open it was if and only if it had been answered, as it has when
      nothing is left to work off. */
  lemma PressFate<L>(walk: Walk<L>, list: L, before: seq<Event>, id: nat, during: seq<Event>, after: seq<Event>)
    requires Possible(walk, Initial(list), before)
    requires StillCurrent(walk, Run(walk, Initial(list), before), id, during)
    requires var p := Run(walk, Initial(list), before); var q := Run(walk, Do(walk, p, Press(id)), during);
      && PressJob(p, id) in q.lane.accepted && Possible(walk, q, after)
      && (after != [] ==> MovesLoadGen(after[0]))
    ensures var p := Run(walk, Initial(list), before); var q := Run(walk, Do(walk, p, Press(id)), during);
      var committed := Reply(PressJob(p, id), Applied);
      && (committed in Run(walk, q, after).lane.replies <==> committed in q.lane.replies)
      && (!q.lane.closed ==> (committed in q.lane.replies <==> PressJob(p, id) in Answered(q.lane.replies)))
      && (Quiet(q) ==> committed in q.lane.replies)
  {
    hide Possible, Run, Inv, Answered, Do;
    var p := Run(walk, Initial(list), before);
    var p', job := Do(walk, p, Press(id)), PressJob(p, id);
    var q := Run(walk, p', during);
    InitialInv(walk, list);
    RunInv(walk, list, Initial(list), before);
    StepInv(walk, list, p, Press(id));
    RunInv(walk, list, p', during);
    LoadGenGrows(walk, p', during);
    PressStamps(walk, p, id);
    LaterCommits(walk, q, after, job);
    InvParts(walk, list, q, job);
    if !q.lane.closed && job in Answered(q.lane.replies) {
      AnsweredIsCommitted(walk, list, q, job);
    }
    if Reply(job, Applied) in q.lane.replies {
      ReplyAnswers(q.lane.replies, Reply(job, Applied));
    }
    if Quiet(q) {
      QuietAnswered(q.lane, job);
    }
  }

  lemma PressStamps<L>(walk: Walk<L>, p: Player<L>, id: nat)
    requires Enabled(p, Press(id))
    ensures Do(walk, p, Press(id)).loadGen == PressJob(p, id).gen
  {}

  lemma LaterCommits<L>(walk: Walk<L>, q: Player<L>, after: seq<Event>, job: Job)
    requires Possible(walk, q, after) && (after != [] ==> MovesLoadGen(after[0]))
    requires job.kind.Nav? && job.gen == q.loadGen
    ensures Reply(job, Applied) in Run(walk, q, after).lane.replies <==> Reply(job, Applied) in q.lane.replies
  {
    if after != [] {
      var r := Do(walk, q, after[0]);
      StepCommits(walk, q, after[0], job);
      if Reply(job, Applied) !in q.lane.replies {
        MovingCommits(walk, q, after[0], job);
      }
      RunCommits(walk, r, after[1..], job);
    }
  }

  /** Moving the load generation commits nothing. */
  lemma MovingCommits<L>(walk: Walk<L>, q: Player<L>, ev: Event, job: Job)
    requires Enabled(q, ev) && MovesLoadGen(ev) && job.kind.Nav? && Reply(job, Applied) !in q.lane.replies
    ensures Reply(job, Applied) !in Do(walk, q, ev).lane.replies && Do(walk, q, ev).loadGen == q.loadGen + 1
  {
    hide Submit;
    if ev.Press? {
      var l, l', submitted := q.lane, Do(walk, q, ev).lane, PressJob(q, ev.id);
      SubmitAnswers(l, submitted, 0);
      forall i | |l.replies| <= i < |l'.replies| && l'.replies[i].job.kind.Nav?
        ensures l'.replies[i].answer != Applied
      {
        SubmitAnswers(l, submitted, i);
      }
    }
  }

  lemma InvParts<L>(walk: Walk<L>, list: L, p: Player<L>, job: Job)
    requires Inv(walk, list, p)
    ensures LR.Inv(p.lane) && (job in p.lane.accepted ==> job in p.lane.submitted)
  {}

  lemma ReplyAnswers(replies: seq<Reply>, reply: Reply)
    requires reply in replies
    ensures reply.job in Answered(replies)
  {
    var i: nat :| i < |replies| && replies[i] == reply;
    LR.AnsweredAt(replies, i);
  }

  lemma {:induction false} RunJoins<L>(walk: Walk<L>, p: Player<L>, a: seq<Event>, b: seq<Event>)
    requires Possible(walk, p, a) && Possible(walk, Run(walk, p, a), b)
    ensures Possible(walk, p, a + b) && Run(walk, p, a + b) == Run(walk, Run(walk, p, a), b)
    decreases |a|
  {
    if a == [] {
      assert a + b == b;
    } else {
      RunJoins(walk, Do(walk, p, a[0]), a[1..], b);
      assert (a + b)[1..] == a[1..] + b;
    }
  }

  lemma {:induction false} AcceptedGrows<L>(walk: Walk<L>, p: Player<L>, evs: seq<Event>)
    requires Possible(walk, p, evs)
    ensures p.lane.accepted <= Run(walk, p, evs).lane.accepted
    decreases |evs|
  {
    hide Do, Enabled;
    if evs != [] {
      StepAccepts(walk, p, evs[0]);
      AcceptedGrows(walk, Do(walk, p, evs[0]), evs[1..]);
    }
  }

  lemma StepAccepts<L>(walk: Walk<L>, p: Player<L>, ev: Event)
    requires Enabled(p, ev)
    ensures p.lane.accepted <= Do(walk, p, ev).lane.accepted
  {
    hide Filter, Replies, PendingLoad, NextIndex;
  }

  lemma UpToJoins(a: seq<Job>, b: seq<Job>, job: Job)
    requires Distinct(a + b) && job in b
    ensures UpTo(a + b, job) == a + UpTo(b, job)
  {
    var n: nat :| n < |b| && b[n] == job;
    assert (a + b)[|a| + n] == job;
    UpToIs(a + b, |a| + n);
    assert Distinct(b) by {
      forall i, j | 0 <= i < j < |b| ensures b[i] != b[j] {
        assert (a + b)[|a| + i] != (a + b)[|a| + j];
      }
    }
    UpToIs(b, n);
    assert (a + b)[..|a| + n + 1] == a + b[..n + 1];
  }

  /** The moves accepted between p and the later q, in order. */
  function MovesSince<L>(p: Player<L>, q: Player<L>): seq<Job> {
    if |p.lane.accepted| <= |q.lane.accepted| then Filter(q.lane.accepted[|p.lane.accepted|..], Moves(), true) else []
  }

  /** The jobs started between p and the later q, in order. */
  function StartedSince<L>(p: Player<L>, q: Player<L>): seq<Job> {
    if |p.lane.started| <= |q.lane.started| then q.lane.started[|p.lane.started|..] else []
  }

  lemma {:induction false} StartedGrows<L>(walk: Walk<L>, p: Player<L>, evs: seq<Event>)
    requires Possible(walk, p, evs)
    ensures p.lane.started <= Run(walk, p, evs).lane.started
    decreases |evs|
  {
    hide Do, Enabled;
    if evs != [] {
      StepStarts(walk, p, evs[0]);
      StartedGrows(walk, Do(walk, p, evs[0]), evs[1..]);
    }
  }

  lemma StepStarts<L>(walk: Walk<L>, p: Player<L>, ev: Event)
    requires Enabled(p, ev)
    ensures p.lane.started <= Do(walk, p, ev).lane.started
  {
    hide Filter, Replies, PendingLoad, NextIndex;
  }

  /** From rest, a run has accepted moves, the last of them a press whose result is
      next to be received and still current. */
  ghost predicate BurstBetween<L>(p: Player<L>, q: Player<L>) {
    && Quiet(p) && MovesSince(p, q) != [] && q.lane.results != []
    && q.lane.results[0] == MovesSince(p, q)[|MovesSince(p, q)|-1]
    && q.lane.results[0].kind.Nav? && q.lane.results[0].gen == q.loadGen
  }

  /** These loads and prefetches leave the list as it is. */
  ghost predicate Still<L(!new)>(walk: Walk<L>, jobs: seq<Job>) {
    forall i, list :: 0 <= i < |jobs| && !Moves()(jobs[i]) ==> walk(jobs[i], list) == list
  }

  lemma {:induction false} FoldStill<L(!new)>(walk: Walk<L>, list: L, jobs: seq<Job>)
    requires Still(walk, jobs)
    ensures Fold(walk, list, Filter(jobs, Moves(), true)) == Fold(walk, list, jobs)
  {
    if jobs != [] {
      var n := |jobs| - 1;
      FoldStill(walk, list, jobs[..n]);
      var before := Filter(jobs[..n], Moves(), true);
      assert (before + [jobs[n]])[..|before|] == before == before + [];
    }
  }

  lemma FilterLonger(a: seq<Job>, b: seq<Job>)
    requires a <= b
    ensures |Filter(a, Moves(), true)| <= |Filter(b, Moves(), true)|
  {
    hide Filter;
    assert b == a + b[|a|..];
    LR.FilterJoins(a, b[|a|..], Moves(), true);
  }

  lemma Comparable(p: seq<Job>, upTo: seq<Job>, q: seq<Job>)
    requires p <= q && upTo <= q
    ensures if |upTo| < |p| then upTo <= p else p <= upTo && upTo == p + upTo[|p|..]
  {}

  /** Where the jobs of a burst begin and end among those started. */
  lemma BurstStarted(p: seq<Job>, upTo: seq<Job>, q: seq<Job>, moves: seq<Job>)
    requires p <= q && upTo <= q && moves != []
    requires Filter(upTo, Moves(), true) == Filter(p, Moves(), true) + moves
    ensures p <= upTo && upTo == p + upTo[|p|..] && Filter(upTo[|p|..], Moves(), true) == moves
  {
    hide Filter;
    Comparable(p, upTo, q);
    if |upTo| < |p| {
      FilterLonger(upTo, p);
      assert false;
    } else {
      LR.FilterJoins(p, upTo[|p|..], Moves(), true);
      SameRest(Filter(p, Moves(), true), moves, Filter(upTo[|p|..], Moves(), true));
    }
  }

  lemma SameRest(a: seq<Job>, b: seq<Job>, c: seq<Job>)
    requires a + b == a + c
    ensures b == c
  {
    assert (a + b)[|a|..] == b && (a + c)[|a|..] == c;
  }

  /** A burst from rest: once the result of its last press is committed, what is
      published is the list as it was, changed by the jobs run since in turn, whose
      moves are exactly the accepted ones in order. If the loads and prefetches run
      among them left the list alone, it is the list moved by every press in turn. */
  lemma BurstPublishes<L(!new)>(walk: Walk<L>, list: L, before: seq<Event>, burst: seq<Event>) returns (ran: seq<Job>)
    requires Possible(walk, Initial(list), before)
    requires Possible(walk, Run(walk, Initial(list), before), burst)
    requires BurstBetween(Run(walk, Initial(list), before), Run(walk, Run(walk, Initial(list), before), burst))
    ensures var p := Run(walk, Initial(list), before); var q := Run(walk, p, burst);
      && Enabled(q, Received(true)) && p.lane.started + ran <= q.lane.started
      && Filter(ran, Moves(), true) == MovesSince(p, q)
      && Do(walk, q, Received(true)).published == Fold(walk, p.list, ran)
      && (Still(walk, ran) ==> Do(walk, q, Received(true)).published == Fold(walk, p.list, MovesSince(p, q)))
  {
    hide Possible, Run, Filter, Fold, Still, UpTo, Do;
    var p := Run(walk, Initial(list), before);
    var q := Run(walk, p, burst);
    RunJoins(walk, Initial(list), before, burst);
    var k := CommitPublishesAll(walk, list, before + burst);
    QuietList(walk, list, before);
    AcceptedGrows(walk, p, burst);
    StartedGrows(walk, p, burst);
    AcceptedDistinct(walk, list, before + burst);
    BurstMoves(p.lane.accepted, q.lane.accepted, q.lane.results[0]);
    var upTo := q.lane.started[..k + 1];
    BurstStarted(p.lane.started, upTo, q.lane.started, MovesSince(p, q));
    ran := upTo[|p.lane.started|..];
    FoldJoins(walk, list, p.lane.started, ran);
    if Still(walk, ran) {
      FoldStill(walk, p.list, ran);
    }
  }

  lemma BurstMoves(first: seq<Job>, all: seq<Job>, job: Job)
    requires first <= all && Distinct(Filter(all, Moves(), true))
    requires var moves := Filter(all[|first|..], Moves(), true); moves != [] && moves[|moves|-1] == job
    ensures UpTo(Filter(all, Moves(), true), job)
         == Filter(first, Moves(), true) + Filter(all[|first|..], Moves(), true)
  {
    hide Filter, UpTo;
    assert all == first + all[|first|..];
    LR.FilterJoins(first, all[|first|..], Moves(), true);
    var a, b := Filter(first, Moves(), true), Filter(all[|first|..], Moves(), true);
    UpToJoins(a, b, job);
    UpToLast(b, job);
  }

  lemma UpToLast(jobs: seq<Job>, job: Job)
    requires jobs != [] && jobs[|jobs|-1] == job
    ensures UpTo(jobs, job) == jobs
  {}

  lemma AcceptedDistinct<L>(walk: Walk<L>, list: L, evs: seq<Event>)
    requires Possible(walk, Initial(list), evs)
    ensures Distinct(Filter(Run(walk, Initial(list), evs).lane.accepted, Moves(), true))
  {
    hide Possible, Run, Filter;
    InitialInv(walk, list);
    RunInv(walk, list, Initial(list), evs);
    FilterDistinct(Run(walk, Initial(list), evs).lane.accepted, Moves(), true);
  }
}
