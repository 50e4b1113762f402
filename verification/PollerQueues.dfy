/**
 The two queues inside the poller protocol: every action keeps both queues' invariants and what
 every producer and the poller know about them.
 */
module PollerQueues {
  import opened LockFreeQueue
  import opened Poller

  /** The queue call a producer is in on queue p. */
  function ProducerOp(pr: Producer, p: Priority): Op {
    if pr.Calling? && pr.prio == p then pr.op else Idle
  }

  function PollerOp(pc: Pc, p: Priority): Op {
    if pc.Drain? && pc.prio == p then pc.op else Idle
  }

  ghost predicate QueueOk(q: Queue, p: Priority, producers: map<Tid, Producer>, pc: Pc) {
    && Inv(q)
    && (forall t :: t in producers ==> ThreadInv(q, t, ProducerOp(producers[t], p)))
    && ThreadInv(q, POLLER, PollerOp(pc, p))
    && (forall t :: t in q.entering ==> t in producers)
    && (forall t :: t in q.leaving ==> t == POLLER)
  }

  predicate CallsOk(producers: map<Tid, Producer>, pc: Pc) {
    && POLLER !in producers
    && (forall t :: t in producers && producers[t].Calling? ==> IsEnqueueing(producers[t].op))
    && (pc.Drain? ==> IsDequeueing(pc.op))
  }

  ghost predicate QueuesOk(s: State) {
    && CallsOk(s.producers, s.pc)
    && QueueOk(s.urgent, Urgent, s.producers, s.pc)
    && QueueOk(s.low, Low, s.producers, s.pc)
  }

  /** Nobody took a step on queue p; a thread may have left a call that had returned. */
  lemma QueueUntouched(q: Queue, p: Priority, producers: map<Tid, Producer>, pc: Pc,
                       producers': map<Tid, Producer>, pc': Pc)
    requires QueueOk(q, p, producers, pc) && producers'.Keys == producers.Keys
    requires forall t :: t in producers ==>
      var op, op' := ProducerOp(producers[t], p), ProducerOp(producers'[t], p);
      op' == op || (op.Returned? && op'.Idle?)
    requires PollerOp(pc', p) == PollerOp(pc, p) || (PollerOp(pc, p).Returned? && PollerOp(pc', p).Idle?)
    ensures QueueOk(q, p, producers', pc')
  {
    forall t | t in producers' ensures ThreadInv(q, t, ProducerOp(producers'[t], p)) {
      assert ThreadInv(q, t, ProducerOp(producers[t], p));
    }
  }

  lemma ProducerTouched(q: Queue, p: Priority, producers: map<Tid, Producer>, pc: Pc, t: Tid, q': Queue, op': Op)
    requires QueueOk(q, p, producers, pc) && CallsOk(producers, pc) && t in producers
    requires Kept(q, t, q', op') && IsEnqueueing(op')
    ensures QueueOk(q', p, producers[t := Calling(p, op', JobIn(producers[t]))], pc)
  {
    var producers' := producers[t := Calling(p, op', JobIn(producers[t]))];
    forall u | u in producers' ensures ThreadInv(q', u, ProducerOp(producers'[u], p)) {
      if u != t {
        StableUnderOthers(q, q', t, u, ProducerOp(producers[u], p));
      }
    }
    StableUnderOthers(q, q', t, POLLER, PollerOp(pc, p));
    forall u | u in q'.leaving ensures u == POLLER {
      assert u != t ==> u in q.leaving;
    }
  }

  lemma PollerTouched(q: Queue, p: Priority, producers: map<Tid, Producer>, pc: Pc, i: nat, q': Queue, op': Op)
    requires QueueOk(q, p, producers, pc) && CallsOk(producers, pc)
    requires Kept(q, POLLER, q', op') && IsDequeueing(op')
    ensures QueueOk(q', p, producers, Drain(p, i, op'))
  {
    forall u | u in producers ensures ThreadInv(q', u, ProducerOp(producers[u], p)) {
      StableUnderOthers(q, q', POLLER, u, ProducerOp(producers[u], p));
    }
    forall u | u in q'.entering ensures u in producers {
      assert u != POLLER ==> u in q.entering;
    }
    forall u | u in q'.leaving ensures u == POLLER {
      assert u != POLLER ==> u in q.leaving;
    }
  }

  lemma CallsStay(producers: map<Tid, Producer>, pc: Pc, t: Tid, p: Priority, op': Op)
    requires CallsOk(producers, pc) && t in producers && IsEnqueueing(op')
    ensures CallsOk(producers[t := Calling(p, op', JobIn(producers[t]))], pc)
  {
  }

  lemma OtherQueueStays(q: Queue, p: Priority, producers: map<Tid, Producer>, pc: Pc, t: Tid, on: Priority, op': Op)
    requires QueueOk(q, p, producers, pc) && t in producers && on != p && ProducerOp(producers[t], p).Idle?
    ensures QueueOk(q, p, producers[t := Calling(on, op', JobIn(producers[t]))], pc)
  {
    QueueUntouched(q, p, producers, pc, producers[t := Calling(on, op', JobIn(producers[t]))], pc);
  }

  /** A queue step of a producer, given only what the step did. */
  lemma ProducerCallKeeps(s: State, s': State, t: Tid, p: Priority, q: Queue, q': Queue, op': Op)
    requires QueuesOk(s) && t in s.producers
    requires ProducerOp(s.producers[t], Other(p)).Idle?
    requires q == Q(s, p) && q' == Q(s', p) && Kept(q, t, q', op') && IsEnqueueing(op')
    requires Q(s', Other(p)) == Q(s, Other(p)) && s'.pc == s.pc && s'.producers == s.producers[t := Calling(p, op', JobIn(s.producers[t]))]
    ensures QueuesOk(s')
  {
    CallsStay(s.producers, s.pc, t, p, op');
    if p.Urgent? {
      ProducerTouched(s.urgent, Urgent, s.producers, s.pc, t, s'.urgent, op');
      OtherQueueStays(s.low, Low, s.producers, s.pc, t, Urgent, op');
    } else {
      ProducerTouched(s.low, Low, s.producers, s.pc, t, s'.low, op');
      OtherQueueStays(s.urgent, Urgent, s.producers, s.pc, t, Low, op');
    }
  }

  lemma PollerCallKeeps(s: State, s': State, p: Priority, i: nat, q: Queue, q': Queue, op': Op)
    requires QueuesOk(s) && PollerOp(s.pc, Other(p)).Idle?
    requires q == Q(s, p) && q' == Q(s', p) && Kept(q, POLLER, q', op') && IsDequeueing(op')
    requires Q(s', Other(p)) == Q(s, Other(p)) && s'.pc == Drain(p, i, op') && s'.producers == s.producers
    ensures QueuesOk(s')
  {
    PollerTouched(q, p, s.producers, s.pc, i, q', op');
    QueueUntouched(Q(s, Other(p)), Other(p), s.producers, s.pc, s'.producers, s'.pc);
  }

  /** Neither queue was touched. */
  lemma NoCallKeeps(s: State, s': State)
    requires QueuesOk(s) && CallsOk(s'.producers, s'.pc)
    requires s'.urgent == s.urgent && s'.low == s.low && s'.producers.Keys == s.producers.Keys
    requires forall t, p :: t in s.producers ==>
      var op, op' := ProducerOp(s.producers[t], p), ProducerOp(s'.producers[t], p);
      op' == op || (op.Returned? && op'.Idle?)
    requires forall p :: PollerOp(s'.pc, p) == PollerOp(s.pc, p) || (PollerOp(s.pc, p).Returned? && PollerOp(s'.pc, p).Idle?)
    ensures QueuesOk(s')
  {
    QueueUntouched(s.urgent, Urgent, s.producers, s.pc, s'.producers, s'.pc);
    QueueUntouched(s.low, Low, s.producers, s.pc, s'.producers, s'.pc);
  }

  /** The flag, the eventfd and the round of chores are as before. */
  predicate SameSignals(s: State, s': State) {
    s'.doChores == s.doChores && s'.wakeupCall == s.wakeupCall && s'.efd == s.efd && s'.failed == s.failed && s'.round == s.round && s'.begun == s.begun
  }

  lemma BeginFrame(s: State, t: Tid, c: Choice, p: Priority, task: Task, q: Queue, q': Queue, op': Op, s': State)
    requires t in s.producers && s.producers[t] == Prepared(p, task, JobIn(s.producers[t])) && q == Q(s, p)
    requires (q', op') == Exec(q, t, Idle, Begin(Enqueue(task))) && s' == ProducerStep(s, t, c)
    ensures q' == Q(s', p) && Q(s', Other(p)) == Q(s, Other(p)) && s'.pc == s.pc
    ensures s'.producers == s.producers[t := Calling(p, op', JobIn(s.producers[t]))]
    ensures SameSignals(s, s') && s'.ledger == s.ledger
  {
  }

  lemma BeginKeepsQueues(s: State, t: Tid, c: Choice, p: Priority, task: Task, q: Queue, q': Queue, op': Op, s': State)
    requires QueuesOk(s) && t in s.producers && s.producers[t] == Prepared(p, task, JobIn(s.producers[t])) && q == Q(s, p)
    requires (q', op') == Exec(q, t, Idle, Begin(Enqueue(task))) && s' == ProducerStep(s, t, c)
    ensures QueuesOk(s')
  {
    BeginFrame(s, t, c, p, task, q, q', op', s');
    BeginEnqueueEffect(q, t, task);
    ProducerCallKeeps(s, s', t, p, q, q', op');
  }

  lemma ProceedFrame(s: State, t: Tid, c: Choice, p: Priority, op: Op, q: Queue, q': Queue, op': Op, s': State)
    requires t in s.producers && s.producers[t] == Calling(p, op, JobIn(s.producers[t])) && !op.Returned? && q == Q(s, p)
    requires (q', op') == Exec(q, t, op, Proceed) && s' == ProducerStep(s, t, c)
    ensures q' == Q(s', p) && Q(s', Other(p)) == Q(s, Other(p)) && s'.pc == s.pc
    ensures s'.producers == s.producers[t := Calling(p, op', JobIn(s.producers[t]))]
    ensures SameSignals(s, s') && s'.ledger == Track(s.ledger, p, t, q, op, op', JobIn(s.producers[t]))
  {
  }

  lemma ProceedKeepsQueues(s: State, t: Tid, c: Choice, p: Priority, op: Op, q: Queue, q': Queue, op': Op, s': State)
    requires QueuesOk(s) && t in s.producers && s.producers[t] == Calling(p, op, JobIn(s.producers[t])) && !op.Returned? && q == Q(s, p)
    requires (q', op') == Exec(q, t, op, Proceed) && s' == ProducerStep(s, t, c)
    ensures QueuesOk(s')
  {
    ProceedFrame(s, t, c, p, op, q, q', op', s');
    EnqueueEffect(q, t, op);
    ProducerCallKeeps(s, s', t, p, q, q', op');
  }

  /** Producer steps between queue calls. */
  lemma BetweenCallsFrame(s: State, t: Tid, c: Choice, pr: Producer, s': State)
    requires t in s.producers && pr == s.producers[t] && !pr.Prepared? && (pr.Calling? ==> pr.op.Returned?)
    requires s' == ProducerStep(s, t, c)
    ensures s'.urgent == s.urgent && s'.low == s.low && s'.pc == s.pc
    ensures s'.producers == s.producers || (s'.producers.Keys == s.producers.Keys && !s'.producers[t].Calling?
      && forall u :: u in s.producers && u != t ==> s'.producers[u] == s.producers[u])
  {
  }

  lemma ProducerKeepsQueues(s: State, t: Tid, c: Choice, pr: Producer, s': State)
    requires QueuesOk(s) && t in s.producers && pr == s.producers[t]
    requires s' == ProducerStep(s, t, c)
    ensures QueuesOk(s')
  {
    if pr.Prepared? {
      var q := Q(s, pr.prio);
      var (q', op') := Exec(q, t, Idle, Begin(Enqueue(pr.task)));
      BeginKeepsQueues(s, t, c, pr.prio, pr.task, q, q', op', s');
    } else if pr.Calling? && !pr.op.Returned? {
      var q := Q(s, pr.prio);
      var (q', op') := Exec(q, t, pr.op, Proceed);
      ProceedKeepsQueues(s, t, c, pr.prio, pr.op, q, q', op', s');
    } else {
      BetweenCallsFrame(s, t, c, pr, s');
      NoCallKeeps(s, s');
    }
  }

  lemma DequeueFrame(s: State, c: Choice, p: Priority, i: nat, op: Op, q: Queue, q': Queue, op': Op, s': State)
    requires s.pc == Drain(p, i, op) && !op.Returned? && q == Q(s, p)
    requires (q', op') == Exec(q, POLLER, op, DrainMove(op)) && s' == PollerStep(s, c)
    ensures q' == Q(s', p) && Q(s', Other(p)) == Q(s, Other(p)) && s'.pc == Drain(p, i, op')
    ensures s'.producers == s.producers
    ensures SameSignals(s, s') && s'.ledger == Track(s.ledger, p, POLLER, q, op, op', 0)
  {
  }

  lemma DrainEffect(q: Queue, op: Op, q': Queue, op': Op)
    requires Inv(q) && ThreadInv(q, POLLER, op) && IsDequeueing(op) && !op.Returned?
    requires (q', op') == Exec(q, POLLER, op, DrainMove(op))
    ensures Effect(q, POLLER, op, q', op')
    ensures op.DDecrement? ==> op'.Returned? && op'.result.Got?
  {
    if op.Idle? {
      BeginDequeueEffect(q, POLLER);
    } else {
      DequeueEffect(q, POLLER, op);
    }
  }

  lemma DequeueKeepsQueues(s: State, c: Choice, p: Priority, i: nat, op: Op, q: Queue, q': Queue, op': Op, s': State)
    requires QueuesOk(s) && s.pc == Drain(p, i, op) && !op.Returned? && q == Q(s, p)
    requires (q', op') == Exec(q, POLLER, op, DrainMove(op)) && s' == PollerStep(s, c)
    ensures QueuesOk(s')
  {
    DequeueFrame(s, c, p, i, op, q, q', op', s');
    DrainEffect(q, op, q', op');
    PollerCallKeeps(s, s', p, i, q, q', op');
  }

  lemma NoDequeueFrame(s: State, c: Choice, pc: Pc, s': State)
    requires pc == s.pc && (pc.Drain? ==> pc.op.Returned?) && s' == PollerStep(s, c)
    ensures s'.urgent == s.urgent && s'.low == s.low && s'.producers == s.producers
    ensures s'.pc.Drain? ==> s'.pc.op.Idle?
    ensures pc.Drain? ==> !s'.pc.Drain? || pc.prio != s'.pc.prio
  {
    if pc.Drain? {
      assert s' == AfterDequeue(s, pc.prio, pc.i, pc.op.result);
    }
  }

  lemma PollerKeepsQueues(s: State, c: Choice, pc: Pc, s': State)
    requires QueuesOk(s) && pc == s.pc && s' == PollerStep(s, c)
    ensures QueuesOk(s')
  {
    if pc.Drain? && !pc.op.Returned? {
      var q := Q(s, pc.prio);
      var (q', op') := Exec(q, POLLER, pc.op, DrainMove(pc.op));
      DequeueKeepsQueues(s, c, pc.prio, pc.i, pc.op, q, q', op', s');
    } else {
      NoDequeueFrame(s, c, pc, s');
      NoCallKeeps(s, s');
    }
  }

  lemma NextKeepsQueues(s: State, a: Action)
    requires QueuesOk(s)
    ensures QueuesOk(Next(s, a))
  {
    match a
    case Produce(t, c) => if t in s.producers { ProducerKeepsQueues(s, t, c, s.producers[t], ProducerStep(s, t, c)); }
    case Poll(c) => PollerKeepsQueues(s, c, s.pc, PollerStep(s, c));
    case Collect(task) =>
  }

  lemma FreshInv(q: Queue)
    requires FreshQueue(q)
    ensures Inv(q) && forall t :: ThreadInv(q, t, Idle)
  {
    assert Values(q.heap, q.chain, 1) == [];
    assert forall i :: NodeOk(q.heap, q.chain, i);
    assert forall a :: RankOk(q.heap, q.chain, a);
  }

  lemma InitQueues(s: State)
    requires Init(s)
    ensures QueuesOk(s)
  {
    FreshInv(s.urgent);
    FreshInv(s.low);
  }
}
