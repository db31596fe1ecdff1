/** The loader lane as a value: what each of its steps does. The lane runs one
    job at a time for the player loop, which submits jobs and receives results. */
module LoaderModel {
  const QUEUE_SIZE: nat := 32
  const RESULTS_SIZE: nat := 4

  /** Loads and prefetches fetch media; loads and navigation decide what plays. */
  datatype Kind = Load | Nav | Mutate | Prefetch

  /** A job is stamped with the generation it was submitted in, and may be held
      back until a time. */
  datatype Job = Job(id: nat, kind: Kind, gen: nat, notBefore: nat)

  datatype Worker = Idle | Running(job: Job, cancelled: bool) | Sending(job: Job) | Stopped

  datatype Answer = Applied | Superseded | Busy | NoSession | NotNeeded

  datatype Reply = Reply(job: Job, answer: Answer)

  /** The lane, and after `results` its history: every job submitted, those put
      in the queue, those run, and every answer given. */
  datatype Lane = Lane(
    queue: seq<Job>, worker: Worker, closed: bool, results: seq<Job>,
    submitted: seq<Job>, accepted: seq<Job>, started: seq<Job>, replies: seq<Reply>)

  const EMPTY := Lane([], Idle, false, [], [], [], [], [])

  function Fetches(): Job -> bool {
    (job: Job) => job.kind.Load? || job.kind.Prefetch?
  }

  function Prefetches(): Job -> bool {
    (job: Job) => job.kind.Prefetch?
  }

  /** Jobs that move the track list and are never dropped. */
  function Moves(): Job -> bool {
    (job: Job) => job.kind.Nav? || job.kind.Mutate?
  }

  predicate Loads(job: Job) {
    job.kind.Load? || job.kind.Nav?
  }

  /** The jobs p holds of, or does not, in order. */
  function Filter(jobs: seq<Job>, p: Job -> bool, holds: bool): (r: seq<Job>)
    ensures |r| <= |jobs|
  {
    if jobs == [] then []
    else
      var last := jobs[|jobs|-1];
      Filter(jobs[..|jobs|-1], p, holds) + if p(last) == holds then [last] else []
  }

  function Replies(jobs: seq<Job>, answer: Answer): (r: seq<Reply>)
    ensures |r| == |jobs|
  {
    if jobs == [] then [] else Replies(jobs[..|jobs|-1], answer) + [Reply(jobs[|jobs|-1], answer)]
  }

  function Answered(replies: seq<Reply>): (r: seq<Job>)
    ensures |r| == |replies|
  {
    if replies == [] then [] else Answered(replies[..|replies|-1]) + [replies[|replies|-1].job]
  }

  predicate PendingLoad(l: Lane) {
    || (l.worker.Running? && Loads(l.worker.job))
    || exists i :: 0 <= i < |l.queue| && Loads(l.queue[i])
  }

  /** Removes the jobs p holds of from the queue and cancels a running one. */
  function Without(l: Lane, p: Job -> bool): Lane {
    l.(queue := Filter(l.queue, p, false),
       worker := if l.worker.Running? && p(l.worker.job) then l.worker.(cancelled := true) else l.worker)
  }

  function Enqueue(l: Lane, job: Job, dropped: seq<Job>): Lane {
    if |l.queue| >= QUEUE_SIZE then
      l.(replies := l.replies + [Reply(job, Busy)] + Replies(dropped, Superseded))
    else
      l.(queue := l.queue + [job], accepted := l.accepted + [job], replies := l.replies + Replies(dropped, Superseded))
  }

  function Submit(l: Lane, job: Job): Lane {
    var s := l.(submitted := l.submitted + [job]);
    if l.closed then s.(replies := s.replies + [Reply(job, NoSession)])
    else if Loads(job) then Enqueue(Without(s, Fetches()), job, Filter(l.queue, Fetches(), true))
    else if job.kind.Mutate? then Enqueue(s, job, [])
    else if PendingLoad(l) then s.(replies := s.replies + [Reply(job, NotNeeded)])
    else Enqueue(Without(s, Prefetches()), job, Filter(l.queue, Prefetches(), true))
  }

  function DropLoads(l: Lane): Lane {
    if l.closed then l
    else Without(l, Fetches()).(replies := l.replies + Replies(Filter(l.queue, Fetches(), true), Superseded))
  }

  /** The first mutation whose time has come, from index i on. */
  function ReadyMutation(queue: seq<Job>, now: nat, i: nat): (at: nat)
    requires i <= |queue|
    ensures i <= at <= |queue|
    decreases |queue| - i
  {
    if i == |queue| || (queue[i].kind.Mutate? && queue[i].notBefore <= now) then i
    else ReadyMutation(queue, now, i + 1)
  }

  /** Which job is next: the head, or a mutation overtaking a head that is held. */
  function NextIndex(queue: seq<Job>, now: nat): (at: nat)
    ensures at <= |queue|
  {
    if queue == [] || queue[0].notBefore <= now then 0 else ReadyMutation(queue, now, 0)
  }

  function Without1(queue: seq<Job>, i: nat): seq<Job>
    requires i < |queue|
  {
    queue[..i] + queue[i + 1..]
  }

  function Next(l: Lane, now: nat): Lane {
    var i := NextIndex(l.queue, now);
    if l.closed || i == |l.queue| then l
    else l.(queue := Without1(l.queue, i), worker := Running(l.queue[i], false), started := l.started + [l.queue[i]])
  }

  function Finish(l: Lane): Lane
    requires l.worker.Running?
  {
    l.(worker := Sending(l.worker.job))
  }

  /** Hands the result over, if there is room and the worker does not notice that
      the lane has closed. */
  function Send(l: Lane): Lane
    requires l.worker.Sending?
  {
    l.(worker := Idle, results := l.results + [l.worker.job])
  }

  function Abandon(l: Lane): Lane
    requires l.worker.Sending?
  {
    l.(worker := Stopped, replies := l.replies + [Reply(l.worker.job, NoSession)])
  }

  /** The player loop takes the oldest result and answers it. */
  function Receive(l: Lane, answer: Answer): Lane
    requires l.results != []
  {
    l.(results := l.results[1..], replies := l.replies + [Reply(l.results[0], answer)])
  }

  function Close(l: Lane): Lane {
    if l.closed then l
    else l.(closed := true, queue := [], replies := l.replies + Replies(l.queue, NoSession),
            worker := if l.worker.Running? then l.worker.(cancelled := true) else l.worker)
  }
}

/** What every run of the lane keeps. */
module LoaderRuns {
  import opened LoaderModel

  datatype Op =
    | OpSubmit(job: Job) | OpDropLoads | OpNext(now: nat) | OpFinish | OpSend
    | OpAbandon | OpStop | OpReceive(current: bool) | OpClose

  /** When a step can happen. Jobs are all different, and only loads are held. */
  predicate Enabled(l: Lane, op: Op) {
    match op
    case OpSubmit(job) => job !in l.submitted && (job.notBefore > 0 ==> job.kind.Load?)
    case OpNext(_) => l.worker.Idle?
    case OpFinish => l.worker.Running?
    case OpSend => l.worker.Sending? && |l.results| < RESULTS_SIZE
    case OpAbandon => l.worker.Sending? && l.closed
    case OpStop => l.worker.Idle? && l.closed
    case OpReceive(_) => l.results != []
    case OpDropLoads | OpClose => true
  }

  function Do(l: Lane, op: Op): Lane
    requires Enabled(l, op)
  {
    match op
    case OpSubmit(job) => Submit(l, job)
    case OpDropLoads => DropLoads(l)
    case OpNext(now) => Next(l, now)
    case OpFinish => Finish(l)
    case OpSend => Send(l)
    case OpAbandon => Abandon(l)
    case OpStop => l.(worker := Stopped)
    case OpReceive(current) => Receive(l, if current then Applied else Superseded)
    case OpClose => Close(l)
  }

  function InHand(worker: Worker): seq<Job> {
    if worker.Running? || worker.Sending? then [worker.job] else []
  }

  /** Every submitted job is in one place: queued, with the worker, awaiting the
      player loop, or answered. */
  ghost predicate Conserved(l: Lane) {
    && multiset(l.queue) + multiset(InHand(l.worker)) + multiset(l.results) + multiset(Answered(l.replies))
       == multiset(l.submitted)
    && forall job :: multiset(l.submitted)[job] <= 1
  }

  /** What may stand behind what in the queue. */
  predicate Follows(a: Kind, b: Kind) {
    match a
    case Load | Prefetch => b.Mutate?
    case Nav => !b.Prefetch?
    case Mutate => true
  }

  ghost predicate Shape(l: Lane) {
    && |l.queue| <= QUEUE_SIZE && |l.results| <= RESULTS_SIZE && (l.closed ==> l.queue == [])
    && (forall i, j :: 0 <= i < j < |l.queue| ==> Follows(l.queue[i].kind, l.queue[j].kind))
    && (forall i :: 0 <= i < |l.queue| && l.queue[i].notBefore > 0 ==> l.queue[i].kind.Load?)
    && (l.worker.Running? && Loads(l.worker.job) ==> forall i :: 0 <= i < |l.queue| ==> !l.queue[i].kind.Prefetch?)
    && (l.worker.Running? && l.worker.cancelled ==> l.closed || Fetches()(l.worker.job))
  }

  /** Navigation and mutations are run in the order they were accepted, and until
      the lane closes none is missed. */
  ghost predicate Ordered(l: Lane) {
    var ran, accepted := Filter(l.started, Moves(), true), Filter(l.accepted, Moves(), true);
    if l.closed then ran <= accepted else ran + Filter(l.queue, Moves(), true) == accepted
  }

  lemma {:induction false} FilterSplits(jobs: seq<Job>, p: Job -> bool)
    ensures multiset(Filter(jobs, p, true)) + multiset(Filter(jobs, p, false)) == multiset(jobs)
  {
    if jobs != [] {
      var n := |jobs| - 1;
      FilterSplits(jobs[..n], p);
      assert jobs == jobs[..n] + [jobs[n]];
    }
  }

  lemma {:induction false} FilterHolds(jobs: seq<Job>, p: Job -> bool, holds: bool, i: nat)
    requires i < |Filter(jobs, p, holds)|
    ensures var job := Filter(jobs, p, holds)[i]; p(job) == holds && job in jobs
  {
    var n := |jobs| - 1;
    if i < |Filter(jobs[..n], p, holds)| {
      FilterHolds(jobs[..n], p, holds, i);
    }
  }

  lemma {:induction false} FilterJoins(a: seq<Job>, b: seq<Job>, p: Job -> bool, holds: bool)
    ensures Filter(a + b, p, holds) == Filter(a, p, holds) + Filter(b, p, holds)
  {
    if b == [] {
      assert a + b == a;
    } else {
      var n := |b| - 1;
      assert (a + b)[..|a + b| - 1] == a + b[..n];
      FilterJoins(a, b[..n], p, holds);
    }
  }

  lemma FilterOne(job: Job, p: Job -> bool, holds: bool)
    ensures Filter([job], p, holds) == if p(job) == holds then [job] else []
  {
    assert [job][..0] == [];
  }

  /** Dropping jobs that are not moves loses no move. */
  lemma {:induction false} FilterKeepsMoves(jobs: seq<Job>, p: Job -> bool)
    requires forall job :: p(job) ==> !Moves()(job)
    ensures Filter(Filter(jobs, p, false), Moves(), true) == Filter(jobs, Moves(), true)
  {
    if jobs != [] {
      var n := |jobs| - 1;
      FilterKeepsMoves(jobs[..n], p);
      FilterJoins(Filter(jobs[..n], p, false), if p(jobs[n]) then [] else [jobs[n]], Moves(), true);
      FilterOne(jobs[n], Moves(), true);
    }
  }

  lemma AnsweredOne(replies: seq<Reply>, reply: Reply)
    ensures Answered(replies + [reply]) == Answered(replies) + [reply.job]
  {}

  lemma {:induction false} AnsweredAll(replies: seq<Reply>, jobs: seq<Job>, answer: Answer)
    ensures Answered(replies + Replies(jobs, answer)) == Answered(replies) + jobs
  {
    if jobs == [] {
      assert replies + Replies(jobs, answer) == replies;
    } else {
      var n := |jobs| - 1;
      AnsweredAll(replies, jobs[..n], answer);
      AnsweredOne(replies + Replies(jobs[..n], answer), Reply(jobs[n], answer));
      assert replies + Replies(jobs, answer) == replies + Replies(jobs[..n], answer) + [Reply(jobs[n], answer)];
    }
  }

  lemma {:induction false} RepliesAt(jobs: seq<Job>, answer: Answer, i: nat)
    requires i < |jobs|
    ensures Replies(jobs, answer)[i] == Reply(jobs[i], answer)
  {
    if i < |jobs| - 1 {
      RepliesAt(jobs[..|jobs|-1], answer, i);
    }
  }

  lemma AnsweredSubmitted(l: Lane, i: nat)
    requires Conserved(l) && i < |l.replies|
    ensures l.replies[i].job in l.submitted
  {
    AnsweredAt(l.replies, i);
    assert l.replies[i].job in multiset(Answered(l.replies));
    assert l.replies[i].job in multiset(l.submitted);
  }

  lemma {:induction false} AnsweredAt(replies: seq<Reply>, i: nat)
    requires i < |replies|
    ensures Answered(replies)[i] == replies[i].job
  {
    if i < |replies| - 1 {
      AnsweredAt(replies[..|replies|-1], i);
    }
  }

  /** Everything the lane holds or has answered. */
  ghost function Places(l: Lane): multiset<Job> {
    multiset(l.queue) + multiset(InHand(l.worker)) + multiset(l.results) + multiset(Answered(l.replies))
  }

  lemma WithoutPlaces(l: Lane, p: Job -> bool)
    ensures Places(Without(l, p)) + multiset(Filter(l.queue, p, true)) == Places(l)
  {
    FilterSplits(l.queue, p);
  }

  lemma EnqueuePlaces(l: Lane, job: Job, dropped: seq<Job>)
    ensures Places(Enqueue(l, job, dropped)) == Places(l) + multiset{job} + multiset(dropped)
  {
    hide Answered, Replies;
    AnsweredAll(l.replies, dropped, Superseded);
    AnsweredOne(l.replies, Reply(job, Busy));
    AnsweredAll(l.replies + [Reply(job, Busy)], dropped, Superseded);
  }

  lemma SubmitPlaces(l: Lane, job: Job)
    ensures Places(Submit(l, job)) == Places(l) + multiset{job}
  {
    hide Answered, Replies, Filter, Places;
    var s := l.(submitted := l.submitted + [job]);
    assert Places(s) == Places(l) by { PlacesSame(s, l); }
    PlacesReply(s, job, NoSession);
    PlacesReply(s, job, NotNeeded);
    WithoutPlaces(s, Fetches());
    WithoutPlaces(s, Prefetches());
    EnqueuePlaces(s, job, []);
    EnqueuePlaces(Without(s, Fetches()), job, Filter(l.queue, Fetches(), true));
    EnqueuePlaces(Without(s, Prefetches()), job, Filter(l.queue, Prefetches(), true));
  }

  lemma PlacesSame(s: Lane, l: Lane)
    requires s.queue == l.queue && s.worker == l.worker && s.results == l.results && s.replies == l.replies
    ensures Places(s) == Places(l)
  {}

  lemma PlacesReply(l: Lane, job: Job, answer: Answer)
    ensures Places(l.(replies := l.replies + [Reply(job, answer)])) == Places(l) + multiset{job}
  {
    hide Answered;
    AnsweredOne(l.replies, Reply(job, answer));
  }

  lemma NextPlaces(l: Lane, now: nat)
    requires l.worker.Idle?
    ensures Places(Next(l, now)) == Places(l)
  {
    hide Answered, NextIndex;
    var i := NextIndex(l.queue, now);
    if i < |l.queue| {
      assert l.queue == l.queue[..i] + [l.queue[i]] + l.queue[i + 1..];
    }
  }

  lemma ClosePlaces(l: Lane)
    ensures Places(Close(l)) == Places(l)
  {
    hide Answered, Replies;
    AnsweredAll(l.replies, l.queue, NoSession);
  }

  lemma DropPlaces(l: Lane)
    ensures Places(DropLoads(l)) == Places(l)
  {
    hide Answered, Replies, Filter;
    var dropped := Filter(l.queue, Fetches(), true);
    AnsweredAll(l.replies, dropped, Superseded);
    WithoutPlaces(l, Fetches());
  }

  lemma AbandonPlaces(l: Lane)
    requires l.worker.Sending?
    ensures Places(Abandon(l)) == Places(l)
  {
    hide Answered;
    AnsweredOne(l.replies, Reply(l.worker.job, NoSession));
  }

  lemma ReceivePlaces(l: Lane, answer: Answer)
    requires l.results != []
    ensures Places(Receive(l, answer)) == Places(l)
  {
    hide Answered;
    assert l.results == [l.results[0]] + l.results[1..];
    AnsweredOne(l.replies, Reply(l.results[0], answer));
  }

  lemma WorkerPlaces(l: Lane, op: Op)
    requires Enabled(l, op) && (op.OpFinish? || op.OpSend? || op.OpStop?)
    ensures Places(Do(l, op)) == Places(l)
  {
    hide Answered;
  }

  /** No step loses a job, repeats one, or answers one twice. */
  lemma StepConserves(l: Lane, op: Op)
    requires Conserved(l) && Enabled(l, op)
    ensures Conserved(Do(l, op))
  {
    hide Places, Submit, DropLoads, Next, Close;
    assert Places(l) == multiset(l.submitted) by { PlacesAre(l); }
    SubmittedStays(l, op);
    match op {
      case OpSubmit(job) => SubmitPlaces(l, job);
      case OpNext(now) => NextPlaces(l, now);
      case OpDropLoads => DropPlaces(l);
      case OpAbandon => AbandonPlaces(l);
      case OpReceive(current) => ReceivePlaces(l, if current then Applied else Superseded);
      case OpClose => ClosePlaces(l);
      case _ => WorkerPlaces(l, op);
    }
    PlacesAre(Do(l, op));
  }

  lemma PlacesAre(l: Lane)
    ensures Conserved(l) <==> Places(l) == multiset(l.submitted) && forall job :: multiset(l.submitted)[job] <= 1
  {}

  lemma SubmittedStays(l: Lane, op: Op)
    requires Enabled(l, op)
    ensures Do(l, op).submitted == l.submitted + if op.OpSubmit? then [op.job] else []
  {
    hide Filter, Replies, PendingLoad, NextIndex;
  }

  /** A queue without the jobs a load or navigation supersedes, or a prefetch. */
  lemma UnfetchedShape(l: Lane, loads: bool)
    requires Shape(l) && !l.closed && (loads || !PendingLoad(l))
    ensures var l' := Without(l, if loads then Fetches() else Prefetches());
      Shape(l') && forall i :: 0 <= i < |l'.queue| ==> l'.queue[i].kind.Mutate? || (loads && l'.queue[i].kind.Nav?)
  {
    hide Filter;
    var p := if loads then Fetches() else Prefetches();
    var queue := Filter(l.queue, p, false);
    forall i | 0 <= i < |queue|
      ensures queue[i] in l.queue && (queue[i].kind.Mutate? || (loads && queue[i].kind.Nav?))
    {
      FilterHolds(l.queue, p, false, i);
    }
  }

  lemma SubmitShape(l: Lane, job: Job)
    requires Shape(l) && (job.notBefore > 0 ==> job.kind.Load?)
    ensures Shape(Submit(l, job))
  {
    hide Filter, Replies;
    if !l.closed {
      var s := l.(submitted := l.submitted + [job]);
      if Loads(job) {
        UnfetchedShape(s, true);
      } else if job.kind.Prefetch? && !PendingLoad(l) {
        UnfetchedShape(s, false);
      }
    }
  }

  lemma NextShape(l: Lane, now: nat)
    requires Shape(l) && l.worker.Idle?
    ensures Shape(Next(l, now))
  {
    hide NextIndex, Follows;
    var i := NextIndex(l.queue, now);
    if !l.closed && i < |l.queue| {
      var queue := Without1(l.queue, i);
      assert forall k :: 0 <= k < |queue| ==> queue[k] == l.queue[if k < i then k else k + 1];
      if Loads(l.queue[i]) {
        forall k | 0 <= k < |l.queue| && k != i ensures !l.queue[k].kind.Prefetch? {
          PairShape(l, if k < i then k else i, if k < i then i else k);
        }
      }
    }
  }

  lemma PairShape(l: Lane, i: nat, j: nat)
    requires Shape(l) && i < j < |l.queue|
    ensures Loads(l.queue[i]) ==> !l.queue[j].kind.Prefetch?
    ensures Loads(l.queue[j]) ==> !l.queue[i].kind.Prefetch?
  {
    assert Follows(l.queue[i].kind, l.queue[j].kind);
  }

  lemma StepShape(l: Lane, op: Op)
    requires Shape(l) && Enabled(l, op)
    ensures Shape(Do(l, op))
  {
    hide Filter, Replies, Follows, Next, Submit;
    match op {
      case OpSubmit(job) => SubmitShape(l, job);
      case OpNext(now) => NextShape(l, now);
      case OpDropLoads => if !l.closed { UnfetchedShape(l, true); }
      case _ =>
    }
  }

  lemma SubmitOrdered(l: Lane, job: Job)
    requires Ordered(l)
    ensures Ordered(Submit(l, job))
  {
    hide Filter, Replies, PendingLoad;
    FilterKeepsMoves(l.queue, Fetches());
    FilterKeepsMoves(l.queue, Prefetches());
    FilterJoins(l.accepted, [job], Moves(), true);
    FilterJoins(l.queue, [job], Moves(), true);
    FilterJoins(Filter(l.queue, Fetches(), false), [job], Moves(), true);
    FilterJoins(Filter(l.queue, Prefetches(), false), [job], Moves(), true);
    var s := Submit(l, job);
    if s.accepted != l.accepted {
      assert Filter(s.queue, Moves(), true) == Filter(l.queue, Moves(), true) + Filter([job], Moves(), true);
    }
  }

  /** Only mutations stand behind a held job, and the first of them is next. */
  lemma HeldHead(l: Lane, now: nat)
    requires Shape(l) && l.queue != [] && l.queue[0].notBefore > now
    ensures NextIndex(l.queue, now) == 1
    ensures |l.queue| > 1 ==> l.queue[1].kind.Mutate?
    ensures !Moves()(l.queue[0])
  {
    assert l.queue[0].kind.Load?;
    if |l.queue| > 1 {
      assert Follows(l.queue[0].kind, l.queue[1].kind);
      assert l.queue[1].notBefore == 0;
      assert ReadyMutation(l.queue, now, 1) == 1;
    }
  }

  /** The job run next is the head of the queue if its time has come, or else the
      mutation behind it; with neither nothing is run. */
  lemma NextRuns(l: Lane, now: nat)
    requires Shape(l) && !l.closed && l.worker.Idle?
    ensures var l' := Next(l, now);
      if l.queue != [] && l.queue[0].notBefore <= now then
        l'.worker == Running(l.queue[0], false) && l'.queue == l.queue[1..] && l'.started == l.started + [l.queue[0]]
      else if |l.queue| > 1 then
        && l.queue[1].kind.Mutate? && l'.worker == Running(l.queue[1], false)
        && l'.queue == [l.queue[0]] + l.queue[2..] && l'.started == l.started + [l.queue[1]]
      else l' == l
  {
    if l.queue != [] && l.queue[0].notBefore > now {
      HeldHead(l, now);
    }
    hide ReadyMutation, Shape;
  }

  /** The move taken from the queue is the first one queued. */
  lemma NextMove(l: Lane, now: nat)
    requires Shape(l) && NextIndex(l.queue, now) < |l.queue|
    ensures var i := NextIndex(l.queue, now);
      Filter(l.queue, Moves(), true) ==
        Filter([l.queue[i]], Moves(), true) + Filter(Without1(l.queue, i), Moves(), true)
  {
    hide Filter;
    var i, q := NextIndex(l.queue, now), l.queue;
    if q[0].notBefore > now {
      HeldHead(l, now);
      FilterJoins([q[0]] + [q[1]], q[2..], Moves(), true);
      FilterJoins([q[0]], [q[1]], Moves(), true);
      FilterJoins([q[0]], q[2..], Moves(), true);
      FilterOne(q[0], Moves(), true);
      assert q == [q[0]] + [q[1]] + q[2..] && Without1(q, 1) == [q[0]] + q[2..];
    } else {
      FilterJoins([q[0]], q[1..], Moves(), true);
      assert q == [q[0]] + q[1..] && Without1(q, 0) == q[1..];
    }
  }

  lemma NextOrdered(l: Lane, now: nat)
    requires Shape(l) && Ordered(l)
    ensures Ordered(Next(l, now))
  {
    hide Filter, NextIndex;
    var i := NextIndex(l.queue, now);
    if !l.closed && i < |l.queue| {
      NextMove(l, now);
      FilterJoins(l.started, [l.queue[i]], Moves(), true);
    }
  }

  lemma StepOrdered(l: Lane, op: Op)
    requires Shape(l) && Ordered(l) && Enabled(l, op)
    ensures Ordered(Do(l, op))
  {
    hide Filter, Replies, Submit, Next, Shape;
    match op {
      case OpSubmit(job) => SubmitOrdered(l, job);
      case OpNext(now) => NextOrdered(l, now);
      case OpDropLoads => FilterKeepsMoves(l.queue, Fetches());
      case _ =>
    }
  }

  ghost predicate Inv(l: Lane) {
    Conserved(l) && Shape(l) && Ordered(l)
  }

  predicate Possible(l: Lane, ops: seq<Op>)
    decreases |ops|
  {
    ops == [] || (Enabled(l, ops[0]) && Possible(Do(l, ops[0]), ops[1..]))
  }

  function Run(l: Lane, ops: seq<Op>): Lane
    requires Possible(l, ops)
    decreases |ops|
  {
    if ops == [] then l else Run(Do(l, ops[0]), ops[1..])
  }

  lemma EmptyInv()
    ensures Inv(EMPTY)
  {}

  lemma StepKeepsInv(l: Lane, op: Op)
    requires Inv(l) && Enabled(l, op)
    ensures Inv(Do(l, op))
  {
    hide Conserved, Shape, Ordered, Enabled, Do;
    StepConserves(l, op);
    StepShape(l, op);
    StepOrdered(l, op);
  }

  lemma {:induction false} RunKeepsInv(l: Lane, ops: seq<Op>)
    requires Inv(l) && Possible(l, ops)
    ensures Inv(Run(l, ops))
    decreases |ops|
  {
    hide Inv, Enabled, Do;
    if ops != [] {
      StepKeepsInv(l, ops[0]);
      RunKeepsInv(Do(l, ops[0]), ops[1..]);
    }
  }

  /** In every run each submitted job is in exactly one place, once. */
  lemma JobsConserved(ops: seq<Op>, job: Job)
    requires Possible(EMPTY, ops)
    ensures var l := Run(EMPTY, ops);
      multiset(l.queue)[job] + multiset(InHand(l.worker))[job] +
      multiset(l.results)[job] + multiset(Answered(l.replies))[job]
      == if job in l.submitted then 1 else 0
  {
    hide Possible, Run, Answered, InHand, Shape, Ordered;
    EmptyInv();
    RunKeepsInv(EMPTY, ops);
    var l := Run(EMPTY, ops);
    var queued, held, ready, answered :=
      multiset(l.queue), multiset(InHand(l.worker)), multiset(l.results), multiset(Answered(l.replies));
    assert multiset(l.submitted)[job] == (queued + held + ready + answered)[job];
    assert job in l.submitted <==> job in multiset(l.submitted);
  }

  /** Once the lane has closed and its worker has stopped, the jobs without an
      answer are exactly the results nobody took: each submitted job has been
      answered once, or is among them and never will be. */
  lemma ClosedLane(ops: seq<Op>)
    requires Possible(EMPTY, ops) && Run(EMPTY, ops).closed && Run(EMPTY, ops).worker.Stopped?
    ensures var l := Run(EMPTY, ops);
      && multiset(l.submitted) == multiset(l.results) + multiset(Answered(l.replies))
      && (forall job :: job in l.submitted ==>
            multiset(Answered(l.replies))[job] == if job in l.results then 0 else 1)
  {
    hide Possible, Run, Answered, Ordered;
    EmptyInv();
    RunKeepsInv(EMPTY, ops);
    var l := Run(EMPTY, ops);
    forall job | job in l.submitted
      ensures multiset(Answered(l.replies))[job] == if job in l.results then 0 else 1
    {
      OnePlace(l, job);
    }
  }

  lemma OnePlace(l: Lane, job: Job)
    requires Conserved(l) && l.queue == [] && l.worker.Stopped? && job in l.submitted
    ensures multiset(Answered(l.replies))[job] == if job in l.results then 0 else 1
  {
    hide Answered;
    var ready, answered := multiset(l.results), multiset(Answered(l.replies));
    assert multiset(l.submitted) == ready + answered;
    assert job in multiset(l.submitted) && (job in l.results <==> job in ready);
  }

  /** The close of a lane that has just handed over a result. */
  function LateClose(job: Job): seq<Op> {
    [OpSubmit(job), OpNext(0), OpFinish, OpSend, OpClose, OpStop]
  }

  /** So a job that was run to its end can go without an answer. */
  lemma LeftUnanswered(job: Job)
    requires job.notBefore == 0
    ensures Possible(EMPTY, LateClose(job))
    ensures var l := Run(EMPTY, LateClose(job));
      l.closed && l.worker.Stopped? && l.submitted == l.started == l.results == [job] && l.replies == []
  {
    hide Possible, Run, Submit, Next;
    FirstJob(job);
    var submitted := EMPTY.(queue := [job], submitted := [job], accepted := [job]);
    var running := submitted.(queue := [], worker := Running(job, false), started := [job]);
    var sending := running.(worker := Sending(job));
    var ready := running.(worker := Idle, results := [job]);
    var closed := ready.(closed := true);
    var ops := LateClose(job);
    GoesOn(closed, ops[5..], closed.(worker := Stopped));
    GoesOn(ready, ops[4..], closed);
    GoesOn(sending, ops[3..], ready);
    GoesOn(running, ops[2..], sending);
    GoesOn(submitted, ops[1..], running);
    GoesOn(EMPTY, ops, submitted);
  }

  lemma FirstJob(job: Job)
    requires job.notBefore == 0
    ensures var l := EMPTY.(queue := [job], submitted := [job], accepted := [job]);
      && Submit(EMPTY, job) == l
      && Next(l, 0) == l.(queue := [], worker := Running(job, false), started := [job])
  {}

  lemma GoesOn(l: Lane, ops: seq<Op>, l': Lane)
    requires ops != [] && Enabled(l, ops[0]) && Do(l, ops[0]) == l' && (|ops| == 1 || Possible(l', ops[1..]))
    ensures Possible(l, ops) && Possible(l', ops[1..]) && Run(l, ops) == Run(l', ops[1..])
    ensures |ops| == 1 ==> Run(l, ops) == l'
  {}

  /** The shape of the queue in every run: never more than 32 jobs, a prefetch only
      with no load or navigation running or queued, at most one load and one
      prefetch, and a load behind all navigation. */
  lemma QueueShape(ops: seq<Op>)
    requires Possible(EMPTY, ops)
    ensures var l := Run(EMPTY, ops);
      && |l.queue| <= QUEUE_SIZE && |l.results| <= RESULTS_SIZE
      && (forall i :: 0 <= i < |l.queue| && l.queue[i].kind.Prefetch? ==> !PendingLoad(l))
      && (forall i, j :: 0 <= i < j < |l.queue| ==>
            && !(l.queue[i].kind.Load? && l.queue[j].kind.Load?)
            && !(l.queue[i].kind.Prefetch? && l.queue[j].kind.Prefetch?)
            && !(l.queue[i].kind.Load? && l.queue[j].kind.Nav?))
  {
    hide Possible, Run, Conserved, Ordered;
    EmptyInv();
    RunKeepsInv(EMPTY, ops);
    var l := Run(EMPTY, ops);
    forall i | 0 <= i < |l.queue| && l.queue[i].kind.Prefetch? ensures !PendingLoad(l) {
      forall k | 0 <= k < |l.queue| ensures !Loads(l.queue[k]) {
        if k < i {
          PairShape(l, k, i);
        } else if i < k {
          PairShape(l, i, k);
        }
      }
    }
  }

  /** Moves are started in the order they were accepted, whatever is held. */
  lemma MovesStartInOrder(ops: seq<Op>)
    requires Possible(EMPTY, ops)
    ensures var l := Run(EMPTY, ops);
      Filter(l.started, Moves(), true) <= Filter(l.accepted, Moves(), true)
  {
    hide Possible, Run, Conserved, Shape, Filter;
    EmptyInv();
    RunKeepsInv(EMPTY, ops);
  }

  /** A submission is turned away exactly when the queue is full and holds
      nothing it would replace. */
  predicate TurnedAway(l: Lane, job: Job) {
    && !l.closed && |l.queue| == QUEUE_SIZE
    && (Loads(job) ==> forall i :: 0 <= i < |l.queue| ==> !Fetches()(l.queue[i]))
    && (job.kind.Prefetch? ==> !PendingLoad(l) && forall i :: 0 <= i < |l.queue| ==> !l.queue[i].kind.Prefetch?)
  }

  lemma {:induction false} FilterNone(jobs: seq<Job>, p: Job -> bool)
    ensures |Filter(jobs, p, false)| + |Filter(jobs, p, true)| == |jobs|
    ensures Filter(jobs, p, true) == [] <==> forall i :: 0 <= i < |jobs| ==> !p(jobs[i])
    ensures Filter(jobs, p, true) == [] ==> Filter(jobs, p, false) == jobs
  {
    if jobs != [] {
      var n := |jobs| - 1;
      FilterNone(jobs[..n], p);
      assert jobs == jobs[..n] + [jobs[n]];
      if p(jobs[n]) {
        assert Filter(jobs, p, true) != [];
      } else if forall i :: 0 <= i < n ==> !p(jobs[..n][i]) {
        assert forall i :: 0 <= i < |jobs| ==> !p(jobs[i]);
      }
    }
  }

  /** A job turned away replaces nothing queued, yet the media being fetched is
      cancelled all the same. Any other job is accepted, but for a prefetch that
      is not needed. */
  lemma TurningAway(l: Lane, job: Job)
    requires Shape(l) && !l.closed
    ensures if TurnedAway(l, job) then
        && Submit(l, job).replies == l.replies + [Reply(job, Busy)]
        && Submit(l, job).queue == l.queue && Submit(l, job).accepted == l.accepted
        && (Loads(job) && l.worker.Running? && Fetches()(l.worker.job) ==> Submit(l, job).worker.cancelled)
      else if job.kind.Prefetch? && PendingLoad(l) then Submit(l, job).replies == l.replies + [Reply(job, NotNeeded)]
      else Submit(l, job).accepted == l.accepted + [job]
  {
    hide Filter, Shape;
    assert |l.queue| <= QUEUE_SIZE by { BoundedQueue(l); }
    FilterNone(l.queue, Fetches());
    FilterNone(l.queue, Prefetches());
    if Loads(job) {
      assert TurnedAway(l, job) <==> |Filter(l.queue, Fetches(), false)| >= QUEUE_SIZE;
    } else if job.kind.Prefetch? && !PendingLoad(l) {
      assert TurnedAway(l, job) <==> |Filter(l.queue, Prefetches(), false)| >= QUEUE_SIZE;
    }
  }

  lemma BoundedQueue(l: Lane)
    requires Shape(l)
    ensures |l.queue| <= QUEUE_SIZE
  {}
}
