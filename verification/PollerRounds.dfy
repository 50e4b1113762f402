/**
 A round of chores is not over before its work is done: when the poller is about to clear the
 flag, Dequeue has answered nil on the urgent queue since the round began, and on the
 low-priority queue too unless 256 of its jobs ran.
 */
module PollerRounds {
  import opened LockFreeQueue
  import opened Poller
  import opened PollerQueues
  import opened PollerWakeup
  import opened PollerTasks
  import opened PollerDispatch

  /** The poller's Dequeue has answered nil since the history had from events. */
  ghost predicate NilSince(events: seq<Event>, from: nat) {
    exists k :: from <= k < |events| && events[k] == Return(POLLER, Nothing)
  }

  function MarkOf(begun: Mark, p: Priority): nat {
    if p.Urgent? then begun.urgentEvents else begun.lowEvents
  }

  /** The poller has got through with queue p in this round. */
  predicate Past(pc: Pc, p: Priority) {
    match pc
    case Drain(on, _, op) => (p.Urgent? && on.Low?) || (on == p && op == Returned(Nothing))
    case Execute(on, _, _) => p.Urgent? && on.Low?
    case Recycle(on, _, _) => p.Urgent? && on.Low?
    case _ => false
  }

  /** How many low-priority jobs have run in this round. */
  predicate CountedLow(pc: Pc, ran: nat) {
    match pc
    case Drain(on, i, _) => if on.Low? then ran == i < MAX_ASYNC_TASKS else ran == 0
    case Execute(on, i, _) => if on.Low? then ran == i < MAX_ASYNC_TASKS else ran == 0
    case Recycle(on, i, _) => if on.Low? then ran == i + 1 <= MAX_ASYNC_TASKS else ran == 0
    case _ => true
  }

  /** What is known at the end of a round. */
  ghost predicate WorkDone(urgent: seq<Event>, low: seq<Event>, begun: Mark, lowRan: nat) {
    && NilSince(urgent, begun.urgentEvents)
    && (NilSince(low, begun.lowEvents) || lowRan == begun.lowRan + MAX_ASYNC_TASKS)
  }

  ghost predicate Thorough(pc: Pc, urgent: seq<Event>, low: seq<Event>, begun: Mark, lowRan: nat) {
    && begun.urgentEvents <= |urgent| && begun.lowEvents <= |low| && begun.lowRan <= lowRan
    && (Past(pc, Urgent) ==> NilSince(urgent, begun.urgentEvents))
    && (Past(pc, Low) ==> NilSince(low, begun.lowEvents))
    && CountedLow(pc, lowRan - begun.lowRan)
    && (pc.Store? ==> WorkDone(urgent, low, begun, lowRan))
  }

  ghost predicate RoundSeen(s: State) {
    Thorough(s.pc, s.urgent.events, s.low.events, s.begun, |s.ledger.low.ran|)
  }

  lemma NilStays(events: seq<Event>, events': seq<Event>, from: nat)
    requires events <= events' && NilSince(events, from)
    ensures NilSince(events', from)
  {
    var k :| from <= k < |events| && events[k] == Return(POLLER, Nothing);
    assert events'[k] == Return(POLLER, Nothing);
  }

  /** The history only grows. */
  lemma EventsGrow(q: Queue, t: Tid, op: Op, c: Move, q': Queue, op': Op)
    requires (q', op') == Exec(q, t, op, c)
    ensures q.events <= q'.events
    ensures op.DCheckHead? && op' == Returned(Nothing) ==> q'.events == q.events + [Return(t, Nothing)]
    ensures op' == Returned(Nothing) && IsDequeueing(op) ==> op.DCheckHead?
  {
  }

  lemma GrownIsThorough(pc: Pc, urgent: seq<Event>, low: seq<Event>, urgent': seq<Event>, low': seq<Event>, begun: Mark, ran: nat)
    requires Thorough(pc, urgent, low, begun, ran) && urgent <= urgent' && low <= low'
    ensures Thorough(pc, urgent', low', begun, ran)
  {
    if NilSince(urgent, begun.urgentEvents) {
      NilStays(urgent, urgent', begun.urgentEvents);
    }
    if NilSince(low, begun.lowEvents) {
      NilStays(low, low', begun.lowEvents);
    }
  }

  lemma ProducerGrows(s: State, t: Tid, c: Choice, pr: Producer, s': State)
    requires t in s.producers && pr == s.producers[t] && s' == ProducerStep(s, t, c)
    ensures s.urgent.events <= s'.urgent.events && s.low.events <= s'.low.events
    ensures s'.begun == s.begun && s'.pc == s.pc && s'.ledger.low.ran == s.ledger.low.ran
  {
    if pr.Prepared? {
      var q := Q(s, pr.prio);
      var (q', op') := Exec(q, t, Idle, Begin(Enqueue(pr.task)));
      BeginFrame(s, t, c, pr.prio, pr.task, q, q', op', s');
      EventsGrow(q, t, Idle, Begin(Enqueue(pr.task)), q', op');
    } else if pr.Calling? && !pr.op.Returned? {
      var q := Q(s, pr.prio);
      var (q', op') := Exec(q, t, pr.op, Proceed);
      ProceedFrame(s, t, c, pr.prio, pr.op, q, q', op', s');
      EventsGrow(q, t, pr.op, Proceed, q', op');
    } else {
      BetweenCallsFrame(s, t, c, pr, s');
      SignalFrame(s, t, c, pr, s');
    }
  }

  lemma ProducerKeepsSeen(s: State, t: Tid, c: Choice, pr: Producer, s': State)
    requires RoundSeen(s) && t in s.producers && pr == s.producers[t] && s' == ProducerStep(s, t, c)
    ensures RoundSeen(s')
  {
    ProducerGrows(s, t, c, pr, s');
    GrownIsThorough(s.pc, s.urgent.events, s.low.events, s'.urgent.events, s'.low.events, s.begun, |s.ledger.low.ran|);
  }

  /** A Dequeue step of the poller; an answer nil is in the history. */
  lemma DequeueKeepsSeen(s: State, c: Choice, p: Priority, i: nat, op: Op, q: Queue, q': Queue, op': Op, s': State)
    requires RoundSeen(s) && CallsOk(s.producers, s.pc) && s.pc == Drain(p, i, op) && !op.Returned? && q == Q(s, p)
    requires (q', op') == Exec(q, POLLER, op, DrainMove(op)) && s' == PollerStep(s, c)
    ensures RoundSeen(s')
  {
    DequeueFrame(s, c, p, i, op, q, q', op', s');
    EventsGrow(q, POLLER, op, DrainMove(op), q', op');
    GrownIsThorough(s.pc, s.urgent.events, s.low.events, s'.urgent.events, s'.low.events, s.begun, |s.ledger.low.ran|);
    if op' == Returned(Nothing) {
      var k := |q.events|;
      assert q'.events[k] == Return(POLLER, Nothing);
      assert MarkOf(s.begun, p) <= k < |q'.events|;
    }
  }

  lemma AnswerKeepsSeen(s: State, p: Priority, i: nat, r: Result, s': State)
    requires RoundSeen(s) && CallsOk(s.producers, s.pc) && s.pc == Drain(p, i, Returned(r)) && s' == AfterDequeue(s, p, i, r)
    ensures RoundSeen(s')
  {
  }

  lemma RunKeepsSeen(s: State, p: Priority, i: nat, task: Task, s': State)
    requires RoundSeen(s) && s.pc == Execute(p, i, task) && s'.begun == s.begun
    requires s'.urgent == s.urgent && s'.low == s.low && s'.ledger == RunJob(s.ledger, p, task)
    requires s'.pc.Exited? || s'.pc == Recycle(p, i, task)
    ensures RoundSeen(s')
  {
  }

  lemma RecycleKeepsSeen(s: State, p: Priority, i: nat, task: Task, s': State)
    requires RoundSeen(s) && s.pc == Recycle(p, i, task) && s'.begun == s.begun
    requires s'.urgent == s.urgent && s'.low == s.low && s'.ledger == PutTask(s.ledger, task) && s'.pc == AfterRecycle(p, i)
    ensures RoundSeen(s')
  {
  }

  lemma ProcKeepsSeen(s: State, c: Choice, s': State)
    requires s.pc.Proc? && RoundSeen(s) && s' == PollerStep(s, c)
    ensures RoundSeen(s')
  {
  }

  lemma OtherKeepsSeen(s: State, c: Choice, pc: Pc, s': State)
    requires RoundSeen(s) && pc == s.pc && s' == PollerStep(s, c)
    requires !pc.Drain? && !pc.Execute? && !pc.Recycle? && !pc.Proc?
    ensures RoundSeen(s')
  {
    OtherFrame(s, c, pc, s');
  }

  lemma OtherFrame(s: State, c: Choice, pc: Pc, s': State)
    requires pc == s.pc && s' == PollerStep(s, c) && !pc.Drain? && !pc.Execute? && !pc.Recycle? && !pc.Proc?
    ensures s'.urgent == s.urgent && s'.low == s.low && s'.ledger == s.ledger && s'.begun == s.begun
    ensures !s'.pc.Drain? && !s'.pc.Execute? && !s'.pc.Recycle? && !s'.pc.Store?
  {
  }

  lemma PollerKeepsSeen(s: State, c: Choice, pc: Pc, s': State)
    requires RoundSeen(s) && CallsOk(s.producers, s.pc) && pc == s.pc && s' == PollerStep(s, c)
    ensures RoundSeen(s')
  {
    if pc.Drain? && !pc.op.Returned? {
      var q := Q(s, pc.prio);
      var (q', op') := Exec(q, POLLER, pc.op, DrainMove(pc.op));
      DequeueKeepsSeen(s, c, pc.prio, pc.i, pc.op, q, q', op', s');
    } else if pc.Drain? {
      AnswerKeepsSeen(s, pc.prio, pc.i, pc.op.result, s');
    } else if pc.Execute? {
      RunKeepsSeen(s, pc.prio, pc.i, pc.task, s');
    } else if pc.Recycle? {
      RecycleKeepsSeen(s, pc.prio, pc.i, pc.task, s');
    } else if pc.Proc? {
      ProcKeepsSeen(s, c, s');
    } else {
      OtherKeepsSeen(s, c, pc, s');
    }
  }

  lemma NextKeepsSeen(s: State, a: Action)
    requires RoundSeen(s) && CallsOk(s.producers, s.pc)
    ensures RoundSeen(Next(s, a))
  {
    match a
    case Produce(t, c) => if t in s.producers { ProducerKeepsSeen(s, t, c, s.producers[t], ProducerStep(s, t, c)); }
    case Poll(c) => PollerKeepsSeen(s, c, s.pc, PollerStep(s, c));
    case Collect(task) =>
  }

  lemma {:induction false} SeenInEveryRun(s: State, actions: seq<Action>)
    requires RoundSeen(s) && Everything(s)
    ensures RoundSeen(Run(s, actions))
    decreases |actions|
  {
    if actions != [] {
      NextKeepsSeen(s, actions[0]);
      NextKeepsEverything(s, actions[0]);
      SeenInEveryRun(Next(s, actions[0]), actions[1..]);
    }
  }

  /**
   In every run: before the poller clears the flag, in this round of chores its Dequeue answered
   nil on the urgent queue, and on the low-priority queue it answered nil or 256 of its jobs ran.
   */
  lemma RoundsAreComplete(start: State, actions: seq<Action>)
    requires Init(start)
    ensures var s := Run(start, actions);
      s.pc.Store? ==> WorkDone(s.urgent.events, s.low.events, s.begun, |s.ledger.low.ran|)
  {
    InitEverything(start);
    SeenInEveryRun(start, actions);
  }
}
