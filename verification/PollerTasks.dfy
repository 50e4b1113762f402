/**
 Task objects and jobs. Task objects are pooled and recycled while other threads still move
 theirs through the queues; every object is in exactly one place, so the jobs that run on a
 queue are the jobs submitted to it, in link order, each at most once.
 */
module PollerTasks {
  import opened LockFreeQueue
  import opened Poller
  import opened PollerQueues
  import opened PollerWakeup

  predicate Owned(l: Ledger, task: Task, t: Tid) {
    task in l.place && l.place[task] == Held(t) && task in l.jobs
  }

  /** Thread t owns the object, which carries the job. */
  predicate Brings(l: Ledger, task: Task, t: Tid, job: Job) {
    Owned(l, task, t) && l.jobs[task] == job
  }

  predicate PoolOk(l: Ledger) {
    && (forall x :: x in l.pool ==> x in l.place && l.place[x] == Pooled && x !in l.jobs)
    && (forall x :: x in l.place ==> x < l.next && (l.place[x] == Pooled ==> x in l.pool))
  }

  /** What a producer has in its hands before the link. */
  predicate HandOk(l: Ledger, t: Tid, pr: Producer, urgent: Queue, low: Queue) {
    match pr
    case Prepared(_, task, job) => Brings(l, task, t, job)
    case Calling(p, op, job) => IsLinking(op) ==> Brings(l, ValueIn(if p.Urgent? then urgent.heap else low.heap, op.n), t, job)
    case _ => true
  }

  predicate HandsOk(l: Ledger, producers: map<Tid, Producer>, urgent: Queue, low: Queue) {
    forall t :: t in producers ==> HandOk(l, t, producers[t], urgent, low)
  }

  /** The queued task of rank i still carries the job it was submitted with. */
  predicate SlotOk(l: Ledger, p: Priority, q: Queue, i: int) {
    var x := RankTask(q, i);
    q.taken < i < |q.chain| ==>
      && x in l.place && l.place[x] == Queued(p, i)
      && x in l.jobs && 0 < i <= |TrailOf(l, p).submitted| && l.jobs[x] == TrailOf(l, p).submitted[i - 1]
  }

  ghost predicate QueuedOk(l: Ledger, p: Priority, q: Queue) {
    && |TrailOf(l, p).submitted| == |q.chain| - 1
    && (forall i :: SlotOk(l, p, q, i))
  }

  /** The poller has taken a task from queue p and not yet run it. */
  predicate Taken(pc: Pc, p: Priority) {
    || (pc.Execute? && pc.prio == p)
    || (pc.Drain? && pc.prio == p && (pc.op.DDecrement? || (pc.op.Returned? && pc.op.result.Got?)))
  }

  function TakenTask(pc: Pc): Task {
    match pc
    case Execute(_, _, task) => task
    case Drain(_, _, DDecrement(task)) => task
    case Drain(_, _, Returned(Got(task))) => task
    case _ => 0
  }

  predicate TrailOk(l: Ledger, p: Priority, pc: Pc, taken: nat) {
    var trail := TrailOf(l, p);
    && taken <= |trail.submitted|
    && |trail.ran| == taken - Bit(Taken(pc, p))
    && trail.ran <= trail.submitted
    && (Taken(pc, p) ==> Owned(l, TakenTask(pc), POLLER) && taken > 0 && l.jobs[TakenTask(pc)] == trail.submitted[taken - 1])
  }

  predicate RecycleOk(l: Ledger, pc: Pc) {
    pc.Recycle? ==> pc.task in l.place && l.place[pc.task] == Held(POLLER)
  }

  ghost predicate LedgerOk(s: State) {
    && PoolOk(s.ledger)
    && HandsOk(s.ledger, s.producers, s.urgent, s.low)
    && QueuedOk(s.ledger, Urgent, s.urgent) && QueuedOk(s.ledger, Low, s.low)
    && TrailOk(s.ledger, Urgent, s.pc, s.urgent.taken) && TrailOk(s.ledger, Low, s.pc, s.low.taken)
    && RecycleOk(s.ledger, s.pc)
  }

  // ---------------------------------------------------------------------------------------
  // Moving one object at a time
  // ---------------------------------------------------------------------------------------

  /** Only object x was moved or refilled. */
  ghost predicate Moved(l: Ledger, l': Ledger, x: Task) {
    forall y :: y != x ==>
      && (y in l'.place <==> y in l.place) && (y in l.place ==> l'.place[y] == l.place[y])
      && (y in l'.jobs <==> y in l.jobs) && (y in l.jobs ==> l'.jobs[y] == l.jobs[y])
  }

  /** x is not in queue p. */
  predicate Outside(l: Ledger, x: Task, p: Priority) {
    x in l.place ==> !(l.place[x].Queued? && l.place[x].prio == p)
  }

  lemma QueuedStays(l: Ledger, l': Ledger, p: Priority, q: Queue, x: Task)
    requires QueuedOk(l, p, q) && Moved(l, l', x) && Outside(l, x, p)
    requires TrailOf(l', p).submitted == TrailOf(l, p).submitted
    ensures QueuedOk(l', p, q)
  {
    forall i ensures SlotOk(l', p, q, i) {
      assert SlotOk(l, p, q, i);
    }
  }

  lemma HandsStay(l: Ledger, l': Ledger, producers: map<Tid, Producer>, urgent: Queue, low: Queue, x: Task, t: Tid)
    requires HandsOk(l, producers, urgent, low) && Moved(l, l', x) && t !in producers
    requires x in l.place ==> l.place[x] == Pooled || l.place[x].Queued? || l.place[x] == Held(t)
    ensures HandsOk(l', producers, urgent, low)
  {
    forall u | u in producers ensures HandOk(l', u, producers[u], urgent, low) {
      assert HandOk(l, u, producers[u], urgent, low);
    }
  }

  lemma TrailStays(l: Ledger, l': Ledger, p: Priority, pc: Pc, taken: nat, x: Task)
    requires TrailOk(l, p, pc, taken) && Moved(l, l', x) && TrailOf(l', p) == TrailOf(l, p)
    requires Taken(pc, p) ==> x != TakenTask(pc)
    ensures TrailOk(l', p, pc, taken)
  {
  }

  /** Queue values never change, so a queue that only grew still holds the same tasks. */
  predicate ValuesKept(q: Queue, q': Queue) {
    && |q.chain| <= |q'.chain| && |q.heap| <= |q'.heap|
    && (forall i :: 0 <= i < |q.chain| ==> RankTask(q', i) == RankTask(q, i))
    && (forall a :: 0 <= a < |q.heap| ==> ValueIn(q'.heap, a) == ValueIn(q.heap, a))
  }

  lemma EffectKeepsValues(q: Queue, t: Tid, q': Queue, op': Op)
    requires Inv(q) && Kept(q, t, q', op') && q.chain <= q'.chain
    ensures ValuesKept(q, q')
  {
    assert NodeOk(q.heap, q.chain, 0) && NodeEvolves(q.heap, q'.heap, t, |q.heap| - 1);
    forall a | 0 <= a < |q.heap| ensures ValueIn(q'.heap, a) == ValueIn(q.heap, a) {
      assert NodeEvolves(q.heap, q'.heap, t, a);
    }
    forall i | 0 <= i < |q.chain| ensures RankTask(q', i) == RankTask(q, i) {
      assert NodeOk(q.heap, q.chain, i);
      assert NodeEvolves(q.heap, q'.heap, t, q.chain[i]);
    }
  }

  // ---------------------------------------------------------------------------------------
  // Producer steps
  // ---------------------------------------------------------------------------------------

  lemma FillMoves(l: Ledger, t: Tid, job: Job, reuse: Task, l': Ledger, x: Task)
    requires PoolOk(l) && (l', x) == Fill(l, t, job, reuse)
    ensures Moved(l, l', x) && (x in l.place ==> l.place[x] == Pooled)
    ensures Brings(l', x, t, job) && PoolOk(l') && l'.urgent == l.urgent && l'.low == l.low
  {
  }

  lemma FillKeeps(s: State, s': State, t: Tid, p: Priority, job: Job, reuse: Task, x: Task)
    requires LedgerOk(s) && t in s.producers && POLLER !in s.producers && s.producers[t].Off?
    requires (s'.ledger, x) == Fill(s.ledger, t, job, reuse)
    requires s'.urgent == s.urgent && s'.low == s.low && s'.pc == s.pc && s'.producers == s.producers[t := Prepared(p, x, job)]
    ensures LedgerOk(s')
  {
    FillMoves(s.ledger, t, job, reuse, s'.ledger, x);
    QueuedStays(s.ledger, s'.ledger, Urgent, s.urgent, x);
    QueuedStays(s.ledger, s'.ledger, Low, s.low, x);
    TrailStays(s.ledger, s'.ledger, Urgent, s.pc, s.urgent.taken, x);
    TrailStays(s.ledger, s'.ledger, Low, s.pc, s.low.taken, x);
    HandsStay(s.ledger, s'.ledger, s.producers, s.urgent, s.low, x, POLLER);
  }

  /** A queue grew without linking anything for thread t. */
  lemma HandsSurvive(l: Ledger, producers: map<Tid, Producer>, urgent: Queue, low: Queue, urgent': Queue, low': Queue)
    requires HandsOk(l, producers, urgent, low) && ValuesKept(urgent, urgent') && ValuesKept(low, low')
    requires NodesOk(producers, urgent, low)
    ensures HandsOk(l, producers, urgent', low')
  {
    forall u | u in producers ensures HandOk(l, u, producers[u], urgent', low') {
      assert HandOk(l, u, producers[u], urgent, low);
    }
  }

  lemma QueuedSurvives(l: Ledger, p: Priority, q: Queue, q': Queue)
    requires QueuedOk(l, p, q) && ValuesKept(q, q') && |q'.chain| == |q.chain| && q'.taken == q.taken
    ensures QueuedOk(l, p, q')
  {
    forall i ensures SlotOk(l, p, q', i) {
      assert SlotOk(l, p, q, i);
    }
  }

  /** Nodes in producers' hands are allocated. */
  predicate NodesOk(producers: map<Tid, Producer>, urgent: Queue, low: Queue) {
    forall t :: t in producers && producers[t].Calling? && IsLinking(producers[t].op) ==>
      0 <= producers[t].op.n < |(if producers[t].prio.Urgent? then urgent else low).heap|
  }

  lemma NodesMapped(s: State)
    requires QueuesOk(s)
    ensures NodesOk(s.producers, s.urgent, s.low)
  {
    forall t | t in s.producers && s.producers[t].Calling? && IsLinking(s.producers[t].op)
      ensures 0 <= s.producers[t].op.n < |Q(s, s.producers[t].prio).heap|
    {
      assert ThreadInv(Q(s, s.producers[t].prio), t, ProducerOp(s.producers[t], s.producers[t].prio));
    }
  }

  /** A queue step of a producer that links nothing: the ledger stays, its hand stays. */
  lemma QuietCallKeeps(s: State, s': State, t: Tid, p: Priority, q: Queue, q': Queue, op': Op)
    requires LedgerOk(s) && NodesOk(s.producers, s.urgent, s.low) && t in s.producers && q == Q(s, p) && q' == Q(s', p)
    requires ValuesKept(q, q') && |q'.chain| == |q.chain| && q'.taken == q.taken
    requires Q(s', Other(p)) == Q(s, Other(p)) && s'.pc == s.pc && s'.producers == s.producers[t := Calling(p, op', JobIn(s.producers[t]))]
    requires s'.ledger == s.ledger
    requires IsLinking(op') ==> Brings(s.ledger, ValueIn(q'.heap, op'.n), t, JobIn(s.producers[t]))
    ensures LedgerOk(s')
  {
    QueuedSurvives(s.ledger, p, q, q');
    HandsSurvive(s.ledger, s.producers, s.urgent, s.low, s'.urgent, s'.low);
  }

  lemma TrackLink(l: Ledger, p: Priority, t: Tid, q: Queue, op: Op, op': Op, job: Job, l': Ledger, x: Task)
    requires PoolOk(l) && op.ELink? && op'.ESwing? && x == ValueIn(q.heap, op.n) && Brings(l, x, t, job)
    requires l' == Track(l, p, t, q, op, op', job)
    ensures Moved(l, l', x) && PoolOk(l') && x in l'.place && l'.place[x] == Queued(p, |q.chain|) && x in l'.jobs
    ensures TrailOf(l', p) == Trail(TrailOf(l, p).submitted + [l'.jobs[x]], TrailOf(l, p).ran)
    ensures TrailOf(l', Other(p)) == TrailOf(l, Other(p))
  {
  }

  lemma LinkedSlots(l: Ledger, l': Ledger, p: Priority, q: Queue, q': Queue, x: Task, t: Tid)
    requires QueuedOk(l, p, q) && ValuesKept(q, q') && q'.taken == q.taken && |q'.chain| == |q.chain| + 1
    requires Moved(l, l', x) && Owned(l, x, t) && RankTask(q', |q.chain|) == x
    requires x in l'.place && l'.place[x] == Queued(p, |q.chain|) && x in l'.jobs
    requires TrailOf(l', p).submitted == TrailOf(l, p).submitted + [l'.jobs[x]]
    ensures QueuedOk(l', p, q')
  {
    forall i ensures SlotOk(l', p, q', i) {
      assert SlotOk(l, p, q, i);
    }
  }

  lemma GrownTrail(l: Ledger, l': Ledger, p: Priority, pc: Pc, taken: nat, x: Task, job: Job)
    requires TrailOk(l, p, pc, taken) && Moved(l, l', x) && (Taken(pc, p) ==> x != TakenTask(pc))
    requires TrailOf(l', p) == Trail(TrailOf(l, p).submitted + [job], TrailOf(l, p).ran)
    ensures TrailOk(l', p, pc, taken)
  {
  }

  lemma LinkHands(l: Ledger, l': Ledger, producers: map<Tid, Producer>, t: Tid, pr: Producer, urgent: Queue, low: Queue, x: Task)
    requires HandsOk(l, producers, urgent, low) && t in producers && Moved(l, l', x) && Owned(l, x, t)
    requires HandOk(l', t, pr, urgent, low)
    ensures HandsOk(l', producers[t := pr], urgent, low)
  {
    forall u | u in producers && u != t ensures HandOk(l', u, producers[u], urgent, low) {
      assert HandOk(l, u, producers[u], urgent, low);
    }
  }

  lemma LinkCallKeeps(s: State, s': State, t: Tid, p: Priority, q: Queue, q': Queue, op: Op, op': Op, x: Task)
    requires LedgerOk(s) && NodesOk(s.producers, s.urgent, s.low) && POLLER !in s.producers
    requires t in s.producers && s.producers[t] == Calling(p, op, JobIn(s.producers[t]))
    requires q == Q(s, p) && q' == Q(s', p) && op.ELink? && op'.ESwing? && x == ValueIn(q.heap, op.n)
    requires ValuesKept(q, q') && q'.taken == q.taken && q'.chain == q.chain + [op.n] && 0 <= op.n < |q.heap|
    requires Q(s', Other(p)) == Q(s, Other(p)) && s'.pc == s.pc && s'.producers == s.producers[t := Calling(p, op', JobIn(s.producers[t]))]
    requires s'.ledger == Track(s.ledger, p, t, q, op, op', JobIn(s.producers[t]))
    ensures LedgerOk(s')
  {
    var l, l' := s.ledger, s'.ledger;
    assert HandOk(l, t, s.producers[t], s.urgent, s.low);
    TrackLink(l, p, t, q, op, op', JobIn(s.producers[t]), l', x);
    LinkedSlots(l, l', p, q, q', x, t);
    QueuedStays(l, l', Other(p), Q(s, Other(p)), x);
    GrownTrail(l, l', p, s.pc, q.taken, x, l'.jobs[x]);
    TrailStays(l, l', Other(p), s.pc, Q(s, Other(p)).taken, x);
    HandsSurvive(l, s.producers, s.urgent, s.low, s'.urgent, s'.low);
    LinkHands(l, l', s.producers, t, s'.producers[t], s'.urgent, s'.low, x);
  }

  lemma BeginKeepsLedger(s: State, s': State, t: Tid, c: Choice, p: Priority, task: Task, q: Queue, q': Queue, op': Op)
    requires LedgerOk(s) && QueuesOk(s) && t in s.producers && s.producers[t] == Prepared(p, task, JobIn(s.producers[t])) && q == Q(s, p)
    requires (q', op') == Exec(q, t, Idle, Begin(Enqueue(task))) && s' == ProducerStep(s, t, c)
    ensures LedgerOk(s')
  {
    BeginFrame(s, t, c, p, task, q, q', op', s');
    BeginEnqueueEffect(q, t, task);
    EffectKeepsValues(q, t, q', op');
    assert HandOk(s.ledger, t, s.producers[t], s.urgent, s.low);
    NodesMapped(s);
    QuietCallKeeps(s, s', t, p, q, q', op');
  }

  lemma ProceedKeepsLedger(s: State, s': State, t: Tid, c: Choice, p: Priority, op: Op, q: Queue, q': Queue, op': Op)
    requires LedgerOk(s) && QueuesOk(s) && t in s.producers && s.producers[t] == Calling(p, op, JobIn(s.producers[t])) && !op.Returned?
    requires q == Q(s, p) && (q', op') == Exec(q, t, op, Proceed) && s' == ProducerStep(s, t, c)
    ensures LedgerOk(s')
  {
    ProceedFrame(s, t, c, p, op, q, q', op', s');
    EnqueueEffect(q, t, op);
    EffectKeepsValues(q, t, q', op');
    ProceedLedger(s, s', t, p, q, q', op, op');
  }

  lemma ProceedLedger(s: State, s': State, t: Tid, p: Priority, q: Queue, q': Queue, op: Op, op': Op)
    requires LedgerOk(s) && QueuesOk(s) && t in s.producers && s.producers[t] == Calling(p, op, JobIn(s.producers[t]))
    requires q == Q(s, p) && q' == Q(s', p) && ValuesKept(q, q') && Effect(q, t, op, q', op') && IsEnqueueing(op)
    requires Q(s', Other(p)) == Q(s, Other(p)) && s'.pc == s.pc && s'.producers == s.producers[t := Calling(p, op', JobIn(s.producers[t]))]
    requires s'.ledger == Track(s.ledger, p, t, q, op, op', JobIn(s.producers[t]))
    ensures LedgerOk(s')
  {
    NodesMapped(s);
    if op.ELink? && op'.ESwing? {
      LinkCallKeeps(s, s', t, p, q, q', op, op', ValueIn(q.heap, op.n));
    } else {
      assert HandOk(s.ledger, t, s.producers[t], s.urgent, s.low);
      QuietCallKeeps(s, s', t, p, q, q', op');
    }
  }

  lemma SignalKeepsLedger(s: State, t: Tid, c: Choice, pr: Producer, s': State)
    requires LedgerOk(s) && QueuesOk(s) && t in s.producers && pr == s.producers[t] && s' == ProducerStep(s, t, c)
    requires !pr.Prepared? && (pr.Calling? ==> pr.op.Returned?)
    ensures LedgerOk(s')
  {
    BetweenCallsFrame(s, t, c, pr, s');
    SignalFrame(s, t, c, pr, s');
    if pr.Off? && c.Submit? && s'.producers != s.producers {
      var (l', x) := Fill(s.ledger, t, c.job, c.reuse);
      FillKeeps(s, s', t, c.prio, c.job, c.reuse, x);
    } else {
      OffKeeps(s, t, c, pr, s');
    }
  }

  lemma OffKeeps(s: State, t: Tid, c: Choice, pr: Producer, s': State)
    requires LedgerOk(s) && t in s.producers && pr == s.producers[t] && s' == ProducerStep(s, t, c)
    requires !pr.Prepared? && (pr.Calling? ==> pr.op.Returned?) && !(pr.Off? && c.Submit?)
    ensures LedgerOk(s')
  {
    BetweenCallsFrame(s, t, c, pr, s');
    SignalFrame(s, t, c, pr, s');
    forall u | u in s'.producers ensures HandOk(s'.ledger, u, s'.producers[u], s'.urgent, s'.low) {
      assert HandOk(s.ledger, u, s.producers[u], s.urgent, s.low);
    }
  }

  lemma ProducerKeepsLedger(s: State, t: Tid, c: Choice, pr: Producer, s': State)
    requires LedgerOk(s) && QueuesOk(s) && t in s.producers && pr == s.producers[t] && s' == ProducerStep(s, t, c)
    ensures LedgerOk(s')
  {
    if pr.Prepared? {
      var q := Q(s, pr.prio);
      var (q', op') := Exec(q, t, Idle, Begin(Enqueue(pr.task)));
      BeginKeepsLedger(s, s', t, c, pr.prio, pr.task, q, q', op');
    } else if pr.Calling? && !pr.op.Returned? {
      var q := Q(s, pr.prio);
      var (q', op') := Exec(q, t, pr.op, Proceed);
      ProceedKeepsLedger(s, s', t, c, pr.prio, pr.op, q, q', op');
    } else {
      SignalKeepsLedger(s, t, c, pr, s');
    }
  }

  // ---------------------------------------------------------------------------------------
  // Poller steps
  // ---------------------------------------------------------------------------------------

  lemma TakenSlots(l: Ledger, l': Ledger, p: Priority, q: Queue, q': Queue, x: Task)
    requires QueuedOk(l, p, q) && ValuesKept(q, q') && |q'.chain| == |q.chain| && q'.taken == q.taken + 1 < |q.chain|
    requires Moved(l, l', x) && x == RankTask(q, q.taken + 1) && TrailOf(l', p) == TrailOf(l, p)
    ensures QueuedOk(l', p, q')
  {
    assert SlotOk(l, p, q, q.taken + 1);
    forall i ensures SlotOk(l', p, q', i) {
      assert SlotOk(l, p, q, i);
    }
  }

  lemma TrackTake(l: Ledger, p: Priority, q: Queue, op: Op, op': Op, l': Ledger)
    requires PoolOk(l) && op.DSwing? && op'.DDecrement? && l' == Track(l, p, POLLER, q, op, op', 0)
    requires op.task in l.place && l.place[op.task].Queued? && op.task in l.jobs
    ensures Moved(l, l', op.task) && PoolOk(l') && Owned(l', op.task, POLLER) && l'.jobs == l.jobs
    ensures l'.urgent == l.urgent && l'.low == l.low
  {
  }

  lemma TakeCallKeeps(s: State, s': State, p: Priority, i: nat, q: Queue, q': Queue, op: Op, op': Op)
    requires LedgerOk(s) && NodesOk(s.producers, s.urgent, s.low) && POLLER !in s.producers && s.pc == Drain(p, i, op)
    requires q == Q(s, p) && q' == Q(s', p) && op.DSwing? && op' == DDecrement(op.task) && op.task == RankTask(q, q.taken + 1)
    requires ValuesKept(q, q') && q'.taken == q.taken + 1 < |q.chain| && q'.chain == q.chain
    requires Q(s', Other(p)) == Q(s, Other(p)) && s'.pc == Drain(p, i, op') && s'.producers == s.producers
    requires s'.ledger == Track(s.ledger, p, POLLER, q, op, op', 0)
    ensures LedgerOk(s')
  {
    var l, l', x := s.ledger, s'.ledger, op.task;
    assert SlotOk(l, p, q, q.taken + 1);
    TrackTake(l, p, q, op, op', l');
    TakenSlots(l, l', p, q, q', x);
    QueuedStays(l, l', Other(p), Q(s, Other(p)), x);
    HandsSurvive(l, s.producers, s.urgent, s.low, s'.urgent, s'.low);
    HandsStay(l, l', s.producers, s'.urgent, s'.low, x, POLLER);
  }

  /** A Dequeue step that takes nothing. */
  lemma QuietDequeueKeeps(s: State, s': State, p: Priority, i: nat, q: Queue, q': Queue, op: Op, op': Op)
    requires LedgerOk(s) && NodesOk(s.producers, s.urgent, s.low) && s.pc == Drain(p, i, op)
    requires q == Q(s, p) && q' == Q(s', p) && ValuesKept(q, q') && q'.taken == q.taken && q'.chain == q.chain
    requires Q(s', Other(p)) == Q(s, Other(p)) && s'.pc == Drain(p, i, op') && s'.producers == s.producers
    requires s'.ledger == s.ledger && !op'.DDecrement? && !op.Returned?
    requires if op'.Returned? && op'.result.Got? then op == DDecrement(op'.result.task) else !op.DDecrement?
    ensures LedgerOk(s')
  {
    QueuedSurvives(s.ledger, p, q, q');
    HandsSurvive(s.ledger, s.producers, s.urgent, s.low, s'.urgent, s'.low);
  }

  lemma DequeueLedger(s: State, s': State, p: Priority, i: nat, q: Queue, q': Queue, op: Op, op': Op)
    requires LedgerOk(s) && QueuesOk(s) && s.pc == Drain(p, i, op) && !op.Returned? && IsDequeueing(op)
    requires q == Q(s, p) && q' == Q(s', p) && ValuesKept(q, q') && Effect(q, POLLER, op, q', op')
    requires op.DDecrement? ==> op'.Returned? && op'.result.Got?
    requires Q(s', Other(p)) == Q(s, Other(p)) && s'.pc == Drain(p, i, op') && s'.producers == s.producers
    requires s'.ledger == Track(s.ledger, p, POLLER, q, op, op', 0)
    ensures LedgerOk(s')
  {
    NodesMapped(s);
    if op.DSwing? && op'.DDecrement? {
      TakeCallKeeps(s, s', p, i, q, q', op, op');
    } else {
      QuietDequeueKeeps(s, s', p, i, q, q', op, op');
    }
  }

  lemma DequeueKeepsLedger(s: State, c: Choice, p: Priority, i: nat, op: Op, q: Queue, q': Queue, op': Op, s': State)
    requires LedgerOk(s) && QueuesOk(s) && s.pc == Drain(p, i, op) && !op.Returned? && q == Q(s, p)
    requires (q', op') == Exec(q, POLLER, op, DrainMove(op)) && s' == PollerStep(s, c)
    ensures LedgerOk(s')
  {
    DequeueFrame(s, c, p, i, op, q, q', op', s');
    DrainEffect(q, op, q', op');
    EffectKeepsValues(q, POLLER, q', op');
    DequeueLedger(s, s', p, i, q, q', op, op');
  }

  lemma RunKeepsLedger(s: State, s': State, p: Priority, i: nat, task: Task)
    requires LedgerOk(s) && s.pc == Execute(p, i, task)
    requires s'.urgent == s.urgent && s'.low == s.low && s'.producers == s.producers
    requires s'.ledger == RunJob(s.ledger, p, task)
    requires s'.pc.Exited? || s'.pc == Recycle(p, i, task)
    ensures LedgerOk(s')
  {
    var trail := TrailOf(s.ledger, p);
    assert trail.ran + [trail.submitted[|trail.ran|]] <= trail.submitted;
    forall u | u in s.producers ensures HandOk(s'.ledger, u, s.producers[u], s.urgent, s.low) {
      assert HandOk(s.ledger, u, s.producers[u], s.urgent, s.low);
    }
    RanSlots(s.ledger, s'.ledger, Urgent, s.urgent);
    RanSlots(s.ledger, s'.ledger, Low, s.low);
  }

  lemma RanSlots(l: Ledger, l': Ledger, p: Priority, q: Queue)
    requires QueuedOk(l, p, q) && l'.place == l.place && l'.jobs == l.jobs && TrailOf(l', p).submitted == TrailOf(l, p).submitted
    ensures QueuedOk(l', p, q)
  {
    forall i ensures SlotOk(l', p, q, i) {
      assert SlotOk(l, p, q, i);
    }
  }

  lemma PutMoves(l: Ledger, task: Task, l': Ledger)
    requires PoolOk(l) && l' == PutTask(l, task) && task in l.place
    ensures Moved(l, l', task) && PoolOk(l') && l'.urgent == l.urgent && l'.low == l.low
  {
  }

  lemma RecycleKeepsLedger(s: State, s': State, p: Priority, i: nat, task: Task)
    requires LedgerOk(s) && POLLER !in s.producers && s.pc == Recycle(p, i, task)
    requires s'.urgent == s.urgent && s'.low == s.low && s'.producers == s.producers
    requires s'.ledger == PutTask(s.ledger, task) && s'.pc == AfterRecycle(p, i)
    ensures LedgerOk(s')
  {
    var l, l' := s.ledger, s'.ledger;
    PutMoves(l, task, l');
    QueuedStays(l, l', Urgent, s.urgent, task);
    QueuedStays(l, l', Low, s.low, task);
    HandsStay(l, l', s.producers, s.urgent, s.low, task, POLLER);
  }

  /** Poller steps that touch neither queues nor tasks. */
  lemma OtherPollerStep(s: State, c: Choice, pc: Pc, s': State)
    requires pc == s.pc && s' == PollerStep(s, c) && !pc.Execute? && !pc.Recycle? && !pc.Drain?
    ensures s'.ledger == s.ledger && !s'.pc.Recycle?
    ensures !Taken(s'.pc, Urgent) && !Taken(s'.pc, Low)
  {
  }

  lemma AnswerKeepsLedger(s: State, s': State, p: Priority, i: nat, r: Result)
    requires LedgerOk(s) && s.pc == Drain(p, i, Returned(r)) && s' == AfterDequeue(s, p, i, r)
    ensures LedgerOk(s')
  {
  }

  lemma PollerKeepsLedger(s: State, c: Choice, pc: Pc, s': State)
    requires LedgerOk(s) && QueuesOk(s) && pc == s.pc && s' == PollerStep(s, c)
    ensures LedgerOk(s')
  {
    if pc.Drain? && !pc.op.Returned? {
      var q := Q(s, pc.prio);
      var (q', op') := Exec(q, POLLER, pc.op, DrainMove(pc.op));
      DequeueKeepsLedger(s, c, pc.prio, pc.i, pc.op, q, q', op', s');
    } else {
      NoDequeueFrame(s, c, pc, s');
      if pc.Execute? {
        RunKeepsLedger(s, s', pc.prio, pc.i, pc.task);
      } else if pc.Recycle? {
        RecycleKeepsLedger(s, s', pc.prio, pc.i, pc.task);
      } else if pc.Drain? {
        AnswerKeepsLedger(s, s', pc.prio, pc.i, pc.op.result);
      } else {
        OtherPollerStep(s, c, pc, s');
      }
    }
  }

  lemma CollectKeepsLedger(s: State, s': State, task: Task)
    requires LedgerOk(s) && POLLER !in s.producers && s' == s.(ledger := CollectStep(s.ledger, task))
    ensures LedgerOk(s')
  {
    if task in s.ledger.pool {
      var l, l' := s.ledger, s'.ledger;
      assert Moved(l, l', task);
      QueuedStays(l, l', Urgent, s.urgent, task);
      QueuedStays(l, l', Low, s.low, task);
      HandsStay(l, l', s.producers, s.urgent, s.low, task, POLLER);
    }
  }

  lemma NextKeepsLedger(s: State, a: Action)
    requires LedgerOk(s) && QueuesOk(s)
    ensures LedgerOk(Next(s, a))
  {
    match a
    case Produce(t, c) => if t in s.producers { ProducerKeepsLedger(s, t, c, s.producers[t], ProducerStep(s, t, c)); }
    case Poll(c) => PollerKeepsLedger(s, c, s.pc, PollerStep(s, c));
    case Collect(task) => CollectKeepsLedger(s, Step(s, a), task);
  }
}
