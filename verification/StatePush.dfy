/** The queue of connect-state pushes. */
module StatePushModel {
  const QUEUE_SIZE: nat := 4

  datatype Reason = PlayerStateChanged | Transition(reason: nat)

  datatype Push = Push(number: nat, reason: Reason)

  /** Only ordinary player-state pushes may be dropped for a later one. */
  predicate Coalesces(push: Push) {
    push.reason.PlayerStateChanged?
  }

  /** The push put behind the queue, or in place of a last one it supersedes. */
  function Merge(queue: seq<Push>, push: Push): seq<Push> {
    if queue != [] && Coalesces(queue[|queue|-1]) && Coalesces(push) then queue[..|queue|-1] + [push]
    else queue + [push]
  }

  function FirstCoalescing(queue: seq<Push>, i: nat): (at: nat)
    requires i <= |queue|
    ensures i <= at <= |queue|
    decreases |queue| - i
  {
    if i == |queue| || Coalesces(queue[i]) then i else FirstCoalescing(queue, i + 1)
  }

  function Dropped(queue: seq<Push>): nat {
    var i := FirstCoalescing(queue, 0);
    if i == |queue| then 0 else i
  }

  function Trim(queue: seq<Push>): seq<Push>
    decreases |queue|
  {
    if |queue| <= QUEUE_SIZE then queue
    else
      var i := Dropped(queue);
      Trim(queue[..i] + queue[i + 1..])
  }

  function Submit(queue: seq<Push>, push: Push): seq<Push> {
    Trim(Merge(queue, push))
  }
}

/** The lane that sends them, one at a time. */
module StatePushes {
  import opened StatePushModel

  class StatePushLane {
    var queue: seq<Push>
    var closed: bool

    constructor ()
      ensures queue == [] && !closed
    {
      queue, closed := [], false;
    }

    method DropOne()
      requires queue != []
      modifies `queue
      ensures var i := Dropped(old(queue)); queue == old(queue)[..i] + old(queue)[i + 1..]
    {
      var i := 0;
      while i < |queue| && !Coalesces(queue[i])
        invariant i <= |queue| && FirstCoalescing(queue, 0) == FirstCoalescing(queue, i)
      {
        i := i + 1;
      }
      if i == |queue| {
        i := 0;
      }
      queue := queue[..i] + queue[i + 1..];
    }

    method Submit(push: Push)
      modifies `queue
      ensures queue == if closed then old(queue) else StatePushModel.Submit(old(queue), push)
    {
      if closed {
        return;
      }
      var n := |queue|;
      if n > 0 && Coalesces(queue[n - 1]) && Coalesces(push) {
        queue := queue[n - 1 := push];
      } else {
        queue := queue + [push];
      }
      assert queue == Merge(old(queue), push);
      while |queue| > QUEUE_SIZE
        invariant Trim(queue) == StatePushModel.Submit(old(queue), push)
      {
        DropOne();
      }
    }

    method Next() returns (ok: bool, push: Push)
      modifies `queue
      ensures ok == (old(queue) != [])
      ensures if ok then old(queue) == [push] + queue else queue == old(queue)
    {
      if |queue| == 0 {
        return false, Push(0, PlayerStateChanged);
      }
      push := queue[0];
      queue := queue[1..];
      ok := true;
    }
  }
}

/** What every run of the lane keeps. */
module StatePushRuns {
  import opened StatePushModel

  /** The lane with every push it has been given and those it has taken to send. */
  datatype Lane = Lane(queue: seq<Push>, closed: bool, submitted: seq<Push>, sent: seq<Push>)

  const EMPTY := Lane([], false, [], [])

  /** Giving up draws the line when a closed lane does not drain in time. */
  datatype Op = OpSubmit(push: Push) | OpNext | OpClose | OpGiveUp

  ghost predicate Enabled(l: Lane, op: Op) {
    match op
    case OpSubmit(push) => forall i :: 0 <= i < |l.submitted| ==> l.submitted[i].number < push.number
    case OpNext => l.queue != []
    case OpClose => true
    case OpGiveUp => l.closed
  }

  function Do(l: Lane, op: Op): Lane
    requires op.OpNext? ==> l.queue != []
  {
    match op
    case OpSubmit(push) =>
      l.(queue := if l.closed then l.queue else Submit(l.queue, push), submitted := l.submitted + [push])
    case OpNext => l.(queue := l.queue[1..], sent := l.sent + [l.queue[0]])
    case OpClose => l.(closed := true)
    case OpGiveUp => l.(queue := [])
  }

  function Transitions(pushes: seq<Push>): seq<Push> {
    if pushes == [] then []
    else
      var n := |pushes| - 1;
      Transitions(pushes[..n]) + if Coalesces(pushes[n]) then [] else [pushes[n]]
  }

  ghost predicate Increasing(pushes: seq<Push>) {
    forall i, j :: 0 <= i < j < |pushes| ==> pushes[i].number < pushes[j].number
  }

  ghost predicate NoneAdjacent(queue: seq<Push>) {
    forall i :: 0 < i < |queue| ==> !(Coalesces(queue[i - 1]) && Coalesces(queue[i]))
  }

  ghost predicate AllTransitions(queue: seq<Push>) {
    forall i :: 0 <= i < |queue| ==> !Coalesces(queue[i])
  }

  /** The queue cannot take a push without losing one that must be seen. */
  ghost predicate Stuck(queue: seq<Push>) {
    |queue| == QUEUE_SIZE && AllTransitions(queue)
  }

  lemma {:induction false} TransitionsJoin(a: seq<Push>, b: seq<Push>)
    ensures Transitions(a + b) == Transitions(a) + Transitions(b)
  {
    if b == [] {
      assert a + b == a;
    } else {
      var n := |b| - 1;
      assert (a + b)[..|a| + n] == a + b[..n];
      TransitionsJoin(a, b[..n]);
    }
  }

  lemma {:induction false} FirstCoalescingIs(queue: seq<Push>, i: nat)
    requires i <= |queue| && forall k :: 0 <= k < i ==> !Coalesces(queue[k])
    ensures var at := FirstCoalescing(queue, i);
      && (forall k :: 0 <= k < at ==> !Coalesces(queue[k]))
      && (at < |queue| ==> Coalesces(queue[at]))
    decreases |queue| - i
  {
    if i < |queue| && !Coalesces(queue[i]) {
      FirstCoalescingIs(queue, i + 1);
    }
  }

  /** One push too many: what is left, and which transition is lost, if any. */
  lemma TrimOne(queue: seq<Push>)
    requires |queue| == QUEUE_SIZE + 1 && NoneAdjacent(queue)
    ensures var i := Dropped(queue);
      && i < |queue| && Trim(queue) == queue[..i] + queue[i + 1..] && NoneAdjacent(Trim(queue))
      && (if AllTransitions(queue) then i == 0
          else Coalesces(queue[i]) && forall k :: 0 <= k < i ==> !Coalesces(queue[k]))
  {
    FirstCoalescingIs(queue, 0);
    var i := Dropped(queue);
    var rest := queue[..i] + queue[i + 1..];
    assert Trim(rest) == rest;
    forall k | 0 < k < |rest| ensures !(Coalesces(rest[k - 1]) && Coalesces(rest[k])) {
      if k < i {
        assert rest[k - 1] == queue[k - 1] && rest[k] == queue[k];
      } else if k == i {
        assert rest[k - 1] == queue[i - 1];
      } else {
        assert rest[k - 1] == queue[k] && rest[k] == queue[k + 1];
      }
    }
  }

  lemma MergeFacts(queue: seq<Push>, push: Push)
    requires NoneAdjacent(queue)
    ensures NoneAdjacent(Merge(queue, push)) && |queue| <= |Merge(queue, push)| <= |queue| + 1
    ensures Transitions(Merge(queue, push)) == Transitions(queue) + Transitions([push])
  {
    hide Transitions;
    TransitionsOne(push);
    if queue != [] && Coalesces(queue[|queue|-1]) && Coalesces(push) {
      var n := |queue| - 1;
      TransitionsJoin(queue[..n], [push]);
      TransitionsJoin(queue[..n], [queue[n]]);
      TransitionsOne(queue[n]);
      assert queue == queue[..n] + [queue[n]];
    } else {
      TransitionsJoin(queue, [push]);
    }
  }

  lemma TransitionsOne(push: Push)
    ensures Transitions([push]) == if Coalesces(push) then [] else [push]
  {
    assert [push][..0] == [];
  }

  lemma {:induction false} TransitionsAll(pushes: seq<Push>)
    requires AllTransitions(pushes)
    ensures Transitions(pushes) == pushes
  {
    if pushes != [] {
      var n := |pushes| - 1;
      TransitionsAll(pushes[..n]);
      assert pushes == pushes[..n] + [pushes[n]];
    }
  }

  lemma TrimTransitions(queue: seq<Push>)
    requires |queue| == QUEUE_SIZE + 1 && NoneAdjacent(queue)
    ensures Transitions(Trim(queue)) == if AllTransitions(queue) then queue[1..] else Transitions(queue)
  {
    hide Transitions, Trim, Dropped;
    TrimOne(queue);
    var i := Dropped(queue);
    if AllTransitions(queue) {
      TransitionsAll(queue[1..]);
      assert queue[..0] + queue[1..] == queue[1..];
    } else {
      TransitionsJoin(queue[..i], queue[i + 1..]);
      TransitionsJoin(queue[..i], [queue[i]]);
      TransitionsJoin(queue[..i] + [queue[i]], queue[i + 1..]);
      TransitionsOne(queue[i]);
      assert queue == queue[..i] + [queue[i]] + queue[i + 1..];
    }
  }

  /** A submission loses a transition only when it finds the queue full of them
      and is one itself, and then the oldest. */
  lemma SubmitTransitions(queue: seq<Push>, push: Push)
    requires |queue| <= QUEUE_SIZE && NoneAdjacent(queue)
    ensures Transitions(Submit(queue, push)) ==
      if Stuck(queue) && !Coalesces(push) then queue[1..] + [push] else Transitions(queue) + Transitions([push])
    ensures |Submit(queue, push)| <= QUEUE_SIZE && NoneAdjacent(Submit(queue, push))
  {
    hide Transitions, Dropped;
    var merged := Merge(queue, push);
    MergeFacts(queue, push);
    if |merged| > QUEUE_SIZE {
      TrimTransitions(merged);
      TrimOne(merged);
      assert Trim(merged[..Dropped(merged)] + merged[Dropped(merged) + 1..]) == Trim(merged);
      assert merged == queue + [push];
      assert AllTransitions(merged) <==> AllTransitions(queue) && !Coalesces(push) by {
        assert merged[|queue|] == push && forall i :: 0 <= i < |queue| ==> merged[i] == queue[i];
      }
    }
  }

  /** The push just submitted is the last queued, except for a player state that
      finds the queue full of transitions: that one is dropped at once. */
  lemma SubmitKeepsNewest(queue: seq<Push>, push: Push)
    requires |queue| <= QUEUE_SIZE && NoneAdjacent(queue)
    ensures if Coalesces(push) && Stuck(queue) then Submit(queue, push) == queue
            else Submit(queue, push) != [] && Submit(queue, push)[|Submit(queue, push)|-1] == push
  {
    hide Dropped;
    var merged := Merge(queue, push);
    MergeFacts(queue, push);
    if |merged| > QUEUE_SIZE {
      TrimOne(merged);
      assert merged == queue + [push];
      if Coalesces(push) && Stuck(queue) {
        assert Dropped(merged) == |queue|;
        assert merged[..|queue|] + merged[|queue| + 1..] == queue;
      } else {
        assert merged[|queue|] == push;
      }
    }
  }

  /** Exactly what a submission makes of the queue: a player state takes the place of
      one that is last; any other push goes last, and with one too many the first player
      state makes room, or the first transition if there is none. */
  lemma SubmitIs(queue: seq<Push>, push: Push) returns (i: nat)
    requires |queue| <= QUEUE_SIZE && NoneAdjacent(queue)
    ensures var n, q := |queue|, queue + [push];
      if n > 0 && push.reason.PlayerStateChanged? && queue[n - 1].reason.PlayerStateChanged? then
        Submit(queue, push) == queue[..n - 1] + [push]
      else if n < 4 then Submit(queue, push) == q
      else
        && i <= n && Submit(queue, push) == q[..i] + q[i + 1..]
        && (forall k :: 0 <= k < i ==> !q[k].reason.PlayerStateChanged?)
        && (q[i].reason.PlayerStateChanged? || (i == 0 && forall k :: 0 <= k <= n ==> !q[k].reason.PlayerStateChanged?))
  {
    hide Dropped;
    i := 0;
    MergeFacts(queue, push);
    var merged := Merge(queue, push);
    if |merged| > QUEUE_SIZE {
      TrimOne(merged);
      i := Dropped(merged);
    }
  }

  lemma NewestPlayerStateDropped()
    ensures exists queue: seq<Push>, push: Push ::
      |queue| <= QUEUE_SIZE && NoneAdjacent(queue) && Coalesces(push) && push !in Submit(queue, push)
  {
    var queue := [Push(0, Transition(0)), Push(1, Transition(0)), Push(2, Transition(0)), Push(3, Transition(0))];
    SubmitKeepsNewest(queue, Push(4, PlayerStateChanged));
  }

  lemma IncreasingWithout(pushes: seq<Push>, i: nat)
    requires Increasing(pushes) && i < |pushes|
    ensures Increasing(pushes[..i] + pushes[i + 1..])
  {
    var rest := pushes[..i] + pushes[i + 1..];
    forall a, b | 0 <= a < b < |rest| ensures rest[a].number < rest[b].number {
      assert rest[a] == pushes[if a < i then a else a + 1] && rest[b] == pushes[if b < i then b else b + 1];
    }
  }

  ghost predicate Known(submitted: seq<Push>, pushes: seq<Push>) {
    forall i :: 0 <= i < |pushes| ==> pushes[i] in submitted
  }

  /** At most four pushes, never two player states in a row, and what has been
      sent and is still queued is in the order of submission. */
  ghost predicate Inv(l: Lane) {
    && |l.queue| <= QUEUE_SIZE && NoneAdjacent(l.queue)
    && Increasing(l.sent + l.queue) && Increasing(l.submitted) && Known(l.submitted, l.sent + l.queue)
  }

  lemma MergeInv(l: Lane, push: Push)
    requires Inv(l) && Enabled(l, OpSubmit(push))
    ensures var l' := l.(submitted := l.submitted + [push]);
      var merged := l.sent + Merge(l.queue, push);
      Increasing(merged) && Known(l'.submitted, merged) && Increasing(l'.submitted)
  {
    var all, merged := l.sent + l.queue, l.sent + Merge(l.queue, push);
    var n := |merged| - 1;
    assert merged[n] == push && forall i :: 0 <= i < n ==> merged[i] == all[i];
    forall i | 0 <= i < n ensures merged[i].number < push.number {
      assert all[i] in l.submitted;
    }
  }

  lemma SubmitInv(l: Lane, push: Push)
    requires Inv(l) && Enabled(l, OpSubmit(push))
    ensures Inv(Do(l, OpSubmit(push)))
  {
    hide Increasing, NoneAdjacent, Transitions, Dropped, Merge, Known;
    SubmittedInv(l, push);
    if !l.closed {
      MergeInv(l, push);
      SubmitTransitions(l.queue, push);
      var merged := Merge(l.queue, push);
      if |merged| > QUEUE_SIZE {
        MergeFacts(l.queue, push);
        TrimOne(merged);
        TrimmedInv(l.submitted + [push], l.sent, merged, Dropped(merged));
      }
    }
  }

  lemma SubmittedInv(l: Lane, push: Push)
    requires Inv(l) && Enabled(l, OpSubmit(push))
    ensures Increasing(l.submitted + [push]) && Known(l.submitted + [push], l.sent + l.queue)
  {}

  lemma TrimmedInv(submitted: seq<Push>, sent: seq<Push>, queue: seq<Push>, i: nat)
    requires i < |queue| && Increasing(sent + queue) && Known(submitted, sent + queue)
    ensures Increasing(sent + (queue[..i] + queue[i + 1..])) && Known(submitted, sent + (queue[..i] + queue[i + 1..]))
  {
    hide Increasing;
    var all, rest := sent + queue, sent + (queue[..i] + queue[i + 1..]);
    IncreasingWithout(all, |sent| + i);
    assert rest == all[..|sent| + i] + all[|sent| + i + 1..];
    forall k | 0 <= k < |rest| ensures rest[k] in submitted {
      assert rest[k] == all[if k < |sent| + i then k else k + 1];
    }
  }

  lemma StepInv(l: Lane, op: Op)
    requires Inv(l) && Enabled(l, op)
    ensures Inv(Do(l, op))
  {
    hide Submit;
    match op {
      case OpSubmit(push) => SubmitInv(l, push);
      case OpNext =>
        var l' := Do(l, op);
        assert l'.sent + l'.queue == l.sent + l.queue;
        assert forall i :: 0 < i < |l'.queue| ==> l'.queue[i - 1] == l.queue[i] && l'.queue[i] == l.queue[i + 1];
      case OpClose =>
      case OpGiveUp =>
        assert forall i :: 0 <= i < |l.sent| ==> l.sent[i] == (l.sent + l.queue)[i];
    }
  }

  ghost predicate Possible(l: Lane, ops: seq<Op>)
    decreases |ops|
  {
    ops == [] || (Enabled(l, ops[0]) && Possible(Do(l, ops[0]), ops[1..]))
  }

  ghost function Run(l: Lane, ops: seq<Op>): Lane
    requires Possible(l, ops)
    decreases |ops|
  {
    if ops == [] then l else Run(Do(l, ops[0]), ops[1..])
  }

  lemma {:induction false} RunInv(l: Lane, ops: seq<Op>)
    requires Inv(l) && Possible(l, ops)
    ensures Inv(Run(l, ops))
    decreases |ops|
  {
    hide Inv, Do;
    if ops != [] {
      StepInv(l, ops[0]);
      RunInv(Do(l, ops[0]), ops[1..]);
    }
  }

  /** In every run the queue is bounded, its pushes and those sent are in the order
      they were submitted, and no two player states are adjacent. */
  lemma QueueInvariant(ops: seq<Op>)
    requires Possible(EMPTY, ops)
    ensures Inv(Run(EMPTY, ops))
  {
    hide Possible, Run;
    RunInv(EMPTY, ops);
  }

  /** The steps that lose a transition: submitting one to a closed lane or to a queue
      full of them, and giving up on some. */
  predicate Loses(l: Lane, op: Op) {
    match op
    case OpSubmit(push) =>
      !Coalesces(push) && (l.closed || (|l.queue| == QUEUE_SIZE && Transitions(l.queue) == l.queue))
    case OpGiveUp => Transitions(l.queue) != []
    case _ => false
  }

  ghost predicate NeverLoses(l: Lane, ops: seq<Op>)
    requires Possible(l, ops)
    decreases |ops|
  {
    ops == [] || (!Loses(l, ops[0]) && NeverLoses(Do(l, ops[0]), ops[1..]))
  }

  ghost predicate AllThere(l: Lane) {
    Transitions(l.sent + l.queue) == Transitions(l.submitted)
  }

  /** How many transitions have been lost. */
  ghost function Missing(l: Lane): int {
    |Transitions(l.submitted)| - |Transitions(l.sent + l.queue)|
  }

  lemma {:induction false} TransitionsFewer(pushes: seq<Push>)
    ensures |Transitions(pushes)| <= |pushes|
    ensures Transitions(pushes) == pushes <==> AllTransitions(pushes)
  {
    if pushes != [] {
      var n := |pushes| - 1;
      TransitionsFewer(pushes[..n]);
      assert pushes == pushes[..n] + [pushes[n]];
      if Coalesces(pushes[n]) {
        assert |Transitions(pushes)| <= n;
      } else if Transitions(pushes) == pushes {
        assert Transitions(pushes[..n]) == Transitions(pushes)[..n] == pushes[..n];
        assert forall i :: 0 <= i < n ==> pushes[i] == pushes[..n][i];
      } else if AllTransitions(pushes) {
        TransitionsAll(pushes);
      }
    }
  }

  lemma SubmitMissing(l: Lane, push: Push)
    requires Inv(l) && !l.closed
    ensures var l' := l.(queue := Submit(l.queue, push), submitted := l.submitted + [push]);
      if Loses(l, OpSubmit(push)) then Missing(l') == Missing(l) + 1
      else Missing(l') == Missing(l) && (AllThere(l) ==> AllThere(l'))
  {
    hide Submit, Transitions, NoneAdjacent, Increasing, Known;
    SubmitTransitions(l.queue, push);
    TransitionsFewer(l.queue);
    TransitionsOne(push);
    TransitionsJoin(l.sent, Submit(l.queue, push));
    TransitionsJoin(l.sent, l.queue);
    TransitionsJoin(l.submitted, [push]);
  }

  lemma StepMissing(l: Lane, op: Op)
    requires Inv(l) && Enabled(l, op)
    ensures if Loses(l, op) then Missing(Do(l, op)) > Missing(l)
            else Missing(Do(l, op)) == Missing(l) && (AllThere(l) ==> AllThere(Do(l, op)))
  {
    hide Submit, Transitions, NoneAdjacent, Increasing, Known;
    match op {
      case OpSubmit(push) =>
        if l.closed {
          TransitionsJoin(l.submitted, [push]);
          TransitionsOne(push);
          assert Transitions(l.submitted) + [] == Transitions(l.submitted);
        } else {
          SubmitMissing(l, push);
        }
      case OpNext => assert l.sent + [l.queue[0]] + l.queue[1..] == l.sent + l.queue;
      case OpClose =>
      case OpGiveUp =>
        TransitionsJoin(l.sent, l.queue);
        assert l.sent + [] == l.sent;
        if Transitions(l.queue) == [] {
          assert Transitions(l.sent) + [] == Transitions(l.sent);
        }
    }
  }

  lemma {:induction false} RunMissing(l: Lane, ops: seq<Op>)
    requires Inv(l) && Possible(l, ops)
    ensures Missing(Run(l, ops)) >= Missing(l)
    ensures NeverLoses(l, ops) && AllThere(l) ==> AllThere(Run(l, ops))
    ensures !NeverLoses(l, ops) ==> Missing(Run(l, ops)) > Missing(l)
    decreases |ops|
  {
    hide Inv, AllThere, Missing, Do, Loses;
    if ops != [] {
      StepInv(l, ops[0]);
      StepMissing(l, ops[0]);
      RunMissing(Do(l, ops[0]), ops[1..]);
    }
  }

  /** The transitions sent and queued are exactly those submitted, in order, if
      and only if the run never submits one to a closed lane or to a queue already
      full of them, and does not give up on any. */
  lemma TransitionsKeptIff(ops: seq<Op>)
    requires Possible(EMPTY, ops)
    ensures AllThere(Run(EMPTY, ops)) <==> NeverLoses(EMPTY, ops)
  {
    hide Possible, Run, NeverLoses;
    RunMissing(EMPTY, ops);
    assert EMPTY.sent + EMPTY.queue == EMPTY.submitted;
  }
}
