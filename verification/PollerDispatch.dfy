/**
 How tasks are dispatched, over whole runs: order, at-most-once, priorities and batch size.
 */
module PollerDispatch {
  import opened LockFreeQueue
  import opened Poller
  import opened PollerQueues
  import opened PollerWakeup
  import opened PollerTasks

  /** The judgement the program counter stands for. */
  predicate RoundOk(round: Round, pc: Pc) {
    if pc.Drain? || pc.Execute? then
      if pc.prio.Urgent? then round == UrgentRound else round == LowRound(pc.i) && pc.i < MAX_ASYNC_TASKS
    else if pc.Recycle? then
      if pc.prio.Urgent? then round == UrgentRound else round == LowRound(pc.i + 1)
    else round != OutOfOrder
  }

  lemma AnswerKeepsRound(s: State, p: Priority, i: nat, r: Result, s': State)
    requires RoundOk(s.round, s.pc) && s.pc == Drain(p, i, Returned(r)) && s' == AfterDequeue(s, p, i, r)
    ensures RoundOk(s'.round, s'.pc)
  {
  }

  lemma RunKeepsRound(s: State, p: Priority, i: nat, task: Task, s': State)
    requires RoundOk(s.round, s.pc) && s.pc == Execute(p, i, task)
    requires s'.round == Judge(s.round, Ran(p)) && (s'.pc.Exited? || s'.pc == Recycle(p, i, task))
    ensures RoundOk(s'.round, s'.pc)
  {
  }

  lemma OtherKeepsRound(s: State, c: Choice, pc: Pc, s': State)
    requires RoundOk(s.round, pc) && pc == s.pc && s' == PollerStep(s, c) && !pc.Drain? && !pc.Execute?
    ensures RoundOk(s'.round, s'.pc)
  {
  }

  lemma PollerKeepsRound(s: State, c: Choice, pc: Pc, s': State)
    requires RoundOk(s.round, s.pc) && pc == s.pc && s' == PollerStep(s, c)
    ensures RoundOk(s'.round, s'.pc)
  {
    if pc.Drain? && !pc.op.Returned? {
      var q := Q(s, pc.prio);
      var (q', op') := Exec(q, POLLER, pc.op, DrainMove(pc.op));
      DequeueFrame(s, c, pc.prio, pc.i, pc.op, q, q', op', s');
    } else if pc.Drain? {
      AnswerKeepsRound(s, pc.prio, pc.i, pc.op.result, s');
    } else if pc.Execute? {
      RunKeepsRound(s, pc.prio, pc.i, pc.task, s');
    } else {
      OtherKeepsRound(s, c, pc, s');
    }
  }

  lemma ProducerKeepsRound(s: State, t: Tid, c: Choice, s': State)
    requires t in s.producers && s' == ProducerStep(s, t, c)
    ensures s'.round == s.round && s'.pc == s.pc
  {
  }

  ghost predicate Everything(s: State) {
    Protocol(s) && LedgerOk(s) && RoundOk(s.round, s.pc)
  }

  lemma NextKeepsRound(s: State, a: Action)
    requires RoundOk(s.round, s.pc)
    ensures RoundOk(Next(s, a).round, Next(s, a).pc)
  {
    match a
    case Produce(t, c) => if t in s.producers { ProducerKeepsRound(s, t, c, ProducerStep(s, t, c)); }
    case Poll(c) => PollerKeepsRound(s, c, s.pc, PollerStep(s, c));
    case Collect(task) =>
  }

  lemma NextKeepsEverything(s: State, a: Action)
    requires Everything(s)
    ensures Everything(Next(s, a))
  {
    NextKeepsProtocol(s, a);
    NextKeepsLedger(s, a);
    NextKeepsRound(s, a);
  }

  lemma {:induction false} RunKeepsEverything(s: State, actions: seq<Action>)
    requires Everything(s)
    ensures Everything(Run(s, actions))
    decreases |actions|
  {
    if actions != [] {
      NextKeepsEverything(s, actions[0]);
      RunKeepsEverything(Next(s, actions[0]), actions[1..]);
    }
  }

  lemma InitLedger(s: State)
    requires Init(s)
    ensures LedgerOk(s)
  {
    assert forall i :: SlotOk(s.ledger, Urgent, s.urgent, i);
    assert forall i :: SlotOk(s.ledger, Low, s.low, i);
  }

  lemma InitEverything(s: State)
    requires Init(s)
    ensures Everything(s)
  {
    InitProtocol(s);
    InitLedger(s);
  }

  lemma Reachable(start: State, actions: seq<Action>)
    requires Init(start)
    ensures Everything(Run(start, actions))
  {
    InitEverything(start);
    RunKeepsEverything(start, actions);
  }

  /**
   Per queue, the jobs that ran are a prefix of the jobs submitted in link order: first in first
   out, none twice, none replaced although Task objects are recycled. All that were taken ran,
   except the one the poller has in hand.
   */
  lemma JobsRunInOrder(start: State, actions: seq<Action>, p: Priority)
    requires Init(start)
    ensures var s := Run(start, actions);
      && TrailOf(s.ledger, p).ran <= TrailOf(s.ledger, p).submitted
      && |TrailOf(s.ledger, p).submitted| == |Q(s, p).chain| - 1
      && Q(s, p).taken - 1 <= |TrailOf(s.ledger, p).ran| <= Q(s, p).taken
  {
    Reachable(start, actions);
  }

  /** Low-priority jobs run only after the urgent queue was seen empty in the same round, at most 256 per round. */
  lemma RoundsAreOrdered(start: State, actions: seq<Action>)
    requires Init(start)
    ensures Run(start, actions).round != OutOfOrder
  {
    Reachable(start, actions);
  }

  /** The producer is about to link the object, inside Enqueue or before the call. */
  predicate InHand(s: State, pr: Producer, x: Task) {
    || (pr.Prepared? && pr.task == x)
    || (pr.Calling? && IsLinking(pr.op) && ValueIn(Q(s, pr.prio).heap, pr.op.n) == x)
  }

  /** The poller took the object and has not given it back to the pool. */
  predicate InPollersHand(pc: Pc, x: Task) {
    ((Taken(pc, Urgent) || Taken(pc, Low)) && TakenTask(pc) == x) || (pc.Recycle? && pc.task == x)
  }

  /** A queued Task object is in no pool, in no other slot and in nobody's hands. */
  lemma PendingTasksAreExclusive(start: State, actions: seq<Action>, p: Priority, i: int, p': Priority, j: int)
    requires Init(start)
    requires var s := Run(start, actions); Q(s, p).taken < i < |Q(s, p).chain|
    ensures var s := Run(start, actions); var x := RankTask(Q(s, p), i);
      && x !in s.ledger.pool
      && (forall t :: t in s.producers ==> !InHand(s, s.producers[t], x))
      && !InPollersHand(s.pc, x)
      && (Q(s, p').taken < j < |Q(s, p').chain| && (p', j) != (p, i) ==> RankTask(Q(s, p'), j) != x)
  {
    Reachable(start, actions);
    SlotIsExclusive(Run(start, actions), p, i, p', j);
  }

  /** An object in the pool has been cleared: it holds on to no function and no argument. */
  lemma PooledTasksAreCleared(start: State, actions: seq<Action>)
    requires Init(start)
    ensures var l := Run(start, actions).ledger; forall x :: x in l.pool ==> x !in l.jobs
  {
    Reachable(start, actions);
  }

  lemma SlotIsExclusive(s: State, p: Priority, i: int, p': Priority, j: int)
    requires LedgerOk(s) && Q(s, p).taken < i < |Q(s, p).chain|
    ensures var x := RankTask(Q(s, p), i);
      && x !in s.ledger.pool
      && (forall t :: t in s.producers ==> !InHand(s, s.producers[t], x))
      && !InPollersHand(s.pc, x)
      && (Q(s, p').taken < j < |Q(s, p').chain| && (p', j) != (p, i) ==> RankTask(Q(s, p'), j) != x)
  {
    assert SlotOk(s.ledger, p, Q(s, p), i);
    assert SlotOk(s.ledger, p', Q(s, p'), j);
    forall t | t in s.producers ensures !InHand(s, s.producers[t], RankTask(Q(s, p), i)) {
      assert HandOk(s.ledger, t, s.producers[t], s.urgent, s.low);
    }
  }
}
