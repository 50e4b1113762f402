/**
 What the poller does when nobody else moves: it gets through a round of chores in a number of
 steps bounded by the jobs at hand, runs every urgent job and up to 256 others, and goes back to
 waiting, signalled again exactly if jobs are left.
 */
module PollerAlone {
  import opened LockFreeQueue
  import opened Poller
  import opened PollerQueues
  import opened PollerWakeup
  import opened PollerTasks
  import opened PollerDispatch
  import QueueAlone

  predicate Comes(start: State, actions: seq<Action>, s: State) {
    Init(start) && s == Run(start, actions)
  }

  /** Some run gets to s. */
  ghost predicate Reach(s: State) {
    exists start, actions :: Comes(start, actions, s)
  }

  lemma ReachIsSound(s: State)
    requires Reach(s)
    ensures Everything(s)
  {
    var start, actions :| Comes(start, actions, s);
    Reachable(start, actions);
  }

  lemma {:induction false} RunOneMore(s: State, actions: seq<Action>, a: Action)
    ensures Run(s, actions + [a]) == Next(Run(s, actions), a)
    decreases |actions|
  {
    if actions == [] {
      assert actions + [a] == [a] + [];
      RunFirst(s, a, []);
    } else {
      assert (actions + [a])[0] == actions[0] && (actions + [a])[1..] == actions[1..] + [a];
      RunOneMore(Next(s, actions[0]), actions[1..], a);
    }
  }

  lemma ReachOneMore(s: State, a: Action, s': State)
    requires Reach(s) && s' == Next(s, a)
    ensures Reach(s')
  {
    var start, actions :| Comes(start, actions, s);
    RunOneMore(start, actions, a);
    assert Comes(start, actions + [a], s');
  }

  /** One step of the poller, without an error. */
  predicate Goes(s: State, s': State) {
    s' == Next(s, Poll(Go))
  }

  predicate GoesAt(trace: seq<State>, i: int) {
    0 <= i < |trace| - 1 ==> Goes(trace[i], trace[i + 1])
  }

  ghost predicate Path(trace: seq<State>) {
    forall i :: GoesAt(trace, i)
  }

  ghost predicate Leads(trace: seq<State>, s: State, n: nat, s': State) {
    |trace| == n + 1 && trace[0] == s && trace[n] == s' && Path(trace)
  }

  /** The poller gets from s to s' alone in n steps. */
  ghost predicate Gets(s: State, n: nat, s': State) {
    exists trace :: Leads(trace, s, n, s')
  }

  lemma GetsOne(s: State, s': State)
    requires Goes(s, s')
    ensures Gets(s, 1, s')
  {
    assert Leads([s, s'], s, 1, s');
  }

  lemma GetsOn(s: State, m: nat, s1: State, n: nat, s2: State, all: nat)
    requires Gets(s, m, s1) && Gets(s1, n, s2) && all == m + n
    ensures Gets(s, all, s2)
  {
    var a :| Leads(a, s, m, s1);
    var b :| Leads(b, s1, n, s2);
    var c := a[..m] + b;
    forall i ensures GoesAt(c, i) {
      if i < m {
        assert GoesAt(a, i);
      } else {
        assert GoesAt(b, i - m);
      }
    }
    assert Leads(c, s, all, s2);
  }

  /** The poller alone for n steps, as a schedule. */
  function Polls(n: nat): seq<Action> {
    if n == 0 then [] else [Poll(Go)] + Polls(n - 1)
  }

  lemma {:induction false} PathIsRun(trace: seq<State>, s: State, n: nat, s': State)
    requires Leads(trace, s, n, s')
    ensures Run(s, Polls(n)) == s'
    decreases n
  {
    if n > 0 {
      assert GoesAt(trace, 0);
      forall i ensures GoesAt(trace[1..], i) {
        assert GoesAt(trace, i + 1);
      }
      RunFirst(s, Poll(Go), Polls(n - 1));
      PathIsRun(trace[1..], trace[1], n - 1, s');
    }
  }

  lemma GetsIsRun(s: State, n: nat, s': State)
    requires Gets(s, n, s')
    ensures Run(s, Polls(n)) == s'
  {
    var trace :| Leads(trace, s, n, s');
    PathIsRun(trace, s, n, s');
  }

  /** What the poller's work on the queues leaves alone. */
  predicate Same(s: State, s': State) {
    && s'.producers == s.producers && s'.wakeupCall == s.wakeupCall && s'.efd == s.efd && s'.doChores == s.doChores
    && s'.ledger.urgent.submitted == s.ledger.urgent.submitted && s'.ledger.low.submitted == s.ledger.low.submitted
    && (!s.flooded ==> !s'.flooded)
  }

  // ---------------------------------------------------------------------------------------
  // One Dequeue
  // ---------------------------------------------------------------------------------------

  /** A step inside Dequeue. */
  lemma DrainGo(s: State, p: Priority, i: nat, op: Op, q: Queue, q': Queue, op': Op, s': State)
    requires Everything(s) && s.pc == Drain(p, i, op) && !op.Returned? && q == Q(s, p)
    requires (q', op') == Exec(q, POLLER, op, DrainMove(op)) && s' == Next(s, Poll(Go))
    ensures s'.pc == Drain(p, i, op') && Q(s', p) == q' && Q(s', Other(p)) == Q(s, Other(p)) && Same(s, s')
  {
    DequeueFrame(s, Go, p, i, op, q, q', op', PollerStep(s, Go));
    TrackTakes(s.ledger, p, q, op, op');
    DrainShrinks(s, p, i, op, q, q', op');
  }

  lemma DrainShrinks(s: State, p: Priority, i: nat, op: Op, q: Queue, q': Queue, op': Op)
    requires Everything(s) && s.pc == Drain(p, i, op) && !op.Returned? && q == Q(s, p)
    requires (q', op') == Exec(q, POLLER, op, DrainMove(op))
    ensures Size(q') <= Size(q) && (!s.flooded ==> Size(s.urgent) < TWO32 && Size(s.low) < TWO32)
  {
    DrainEffect(q, op, q', op');
  }

  lemma TrackTakes(l: Ledger, p: Priority, q: Queue, op: Op, op': Op)
    requires !op.ELink?
    ensures var l' := Track(l, p, POLLER, q, op, op', 0); l'.urgent == l.urgent && l'.low == l.low
  {
  }

  /** Before and after a part of a Dequeue on queue p. */
  ghost predicate Dequeued(s: State, p: Priority, n: nat, s': State) {
    Gets(s, n, s') && Reach(s') && Q(s', Other(p)) == Q(s, Other(p)) && Same(s, s')
  }

  lemma DequeuedOn(s: State, p: Priority, m: nat, s1: State, n: nat, s2: State, all: nat)
    requires Dequeued(s, p, m, s1) && Dequeued(s1, p, n, s2) && all == m + n
    ensures Dequeued(s, p, all, s2)
  {
    GetsOn(s, m, s1, n, s2, all);
  }

  lemma OneGo(s: State, p: Priority, i: nat, op: Op, q: Queue, q': Queue, op': Op) returns (s': State)
    requires Reach(s) && s.pc == Drain(p, i, op) && !op.Returned? && q == Q(s, p)
    requires (q', op') == Exec(q, POLLER, op, DrainMove(op))
    ensures Dequeued(s, p, 1, s') && s'.pc == Drain(p, i, op') && Q(s', p) == q'
  {
    s' := Next(s, Poll(Go));
    ReachIsSound(s);
    DrainGo(s, p, i, op, q, q', op', s');
    ReachOneMore(s, Poll(Go), s');
    GetsOne(s, s');
  }

  /** The call has n steps to go and will be answered as f tells. */
  ghost predicate Due(q: Queue, op: Op, n: nat, f: QueueAlone.Outcome) {
    (QueueAlone.InCall(op) || op.Returned?) && n == QueueAlone.Left(q, op) && f == QueueAlone.Future(q, op)
  }

  lemma Answered(q: Queue, op: Op, f: QueueAlone.Outcome)
    requires Inv(q) && ThreadInv(q, POLLER, op) && Due(q, op, 0, f)
    ensures op == Returned(f.result) && Pending(q) == f.pending
  {
    QueueAlone.LeftIsExact(q, POLLER, op);
  }

  lemma NearerGo(s: State, p: Priority, i: nat, op: Op, n: nat, f: QueueAlone.Outcome) returns (s': State, op': Op)
    requires Reach(s) && s.pc == Drain(p, i, op) && n > 0 && Due(Q(s, p), op, n, f)
    ensures Dequeued(s, p, 1, s') && s'.pc == Drain(p, i, op') && Due(Q(s', p), op', n - 1, f)
  {
    var q := Q(s, p);
    ReachIsSound(s);
    NearerStep(q, op, n, f);
    var (q', op1) := Exec(q, POLLER, op, Proceed);
    op' := op1;
    s' := OneGo(s, p, i, op, q, q', op');
  }

  lemma NearerStep(q: Queue, op: Op, n: nat, f: QueueAlone.Outcome)
    requires Inv(q) && ThreadInv(q, POLLER, op) && n > 0 && Due(q, op, n, f)
    ensures !op.Returned? && DrainMove(op) == Proceed
    ensures var (q', op') := Exec(q, POLLER, op, Proceed); Due(q', op', n - 1, f)
  {
    QueueAlone.LeftIsExact(q, POLLER, op);
    QueueAlone.StepIsProgress(q, POLLER, op);
    var (q', op') := Exec(q, POLLER, op, Proceed);
    QueueAlone.LeftIsExact(q', POLLER, op');
    QueueAlone.NeverIdles(q, POLLER, op);
  }

  /** The Dequeue has been answered as f tells. */
  predicate Ends(s: State, p: Priority, i: nat, f: QueueAlone.Outcome) {
    s.pc == Drain(p, i, Returned(f.result)) && Pending(Q(s, p)) == f.pending
  }

  /** The Dequeue has n steps to go. */
  ghost predicate Nears(s: State, p: Priority, i: nat, n: nat, f: QueueAlone.Outcome) {
    Reach(s) && exists op :: s.pc == Drain(p, i, op) && Due(Q(s, p), op, n, f)
  }

  lemma DrainEnds(s: State, p: Priority, i: nat, f: QueueAlone.Outcome)
    requires Nears(s, p, i, 0, f)
    ensures Dequeued(s, p, 0, s) && Ends(s, p, i, f)
  {
    ReachIsSound(s);
    var op :| s.pc == Drain(p, i, op) && Due(Q(s, p), op, 0, f);
    Answered(Q(s, p), op, f);
    assert Leads([s], s, 0, s);
  }

  lemma DrainNears(s: State, p: Priority, i: nat, n: nat, f: QueueAlone.Outcome) returns (s': State)
    requires n > 0 && Nears(s, p, i, n, f)
    ensures Dequeued(s, p, 1, s') && Nears(s', p, i, n - 1, f)
  {
    var op :| s.pc == Drain(p, i, op) && Due(Q(s, p), op, n, f);
    var op';
    s', op' := NearerGo(s, p, i, op, n, f);
  }

  lemma {:induction false} DrainAlone(s: State, p: Priority, i: nat, n: nat, f: QueueAlone.Outcome) returns (s': State)
    requires Nears(s, p, i, n, f)
    ensures Dequeued(s, p, n, s') && Ends(s', p, i, f)
    decreases n
  {
    if n == 0 {
      DrainEnds(s, p, i, f);
      return s;
    }
    var s1 := DrainNears(s, p, i, n, f);
    s' := DrainAlone(s1, p, i, n - 1, f);
    DequeuedOn(s, p, 1, s1, n - 1, s', n);
  }

  lemma BeginDue(s: State, p: Priority, i: nat, q: Queue)
    requires Reach(s) && s.pc == Drain(p, i, Idle) && q == Q(s, p)
    ensures var (q', op') := Exec(q, POLLER, Idle, Begin(Dequeue));
      Due(q', op', QueueAlone.DequeueTurns(q), QueueAlone.DequeueOutcome(Pending(q)))
  {
    ReachIsSound(s);
    QueueAlone.Begins(q, POLLER, Dequeue);
  }

  lemma BeginGo(s: State, p: Priority, i: nat, f: QueueAlone.Outcome) returns (s': State, m: nat)
    requires Reach(s) && s.pc == Drain(p, i, Idle) && f == QueueAlone.DequeueOutcome(Pending(Q(s, p)))
    ensures m <= 12 && Dequeued(s, p, 1, s') && Nears(s', p, i, m, f)
  {
    var q := Q(s, p);
    BeginDue(s, p, i, q);
    var (q', op') := Exec(q, POLLER, Idle, Begin(Dequeue));
    s' := OneGo(s, p, i, Idle, q, q', op');
    m := QueueAlone.DequeueTurns(q);
  }

  /** A whole Dequeue: the first task, or nil if there is none. */
  lemma DequeueAlone(s: State, p: Priority, i: nat, f: QueueAlone.Outcome) returns (n: nat, s': State)
    requires Reach(s) && s.pc == Drain(p, i, Idle) && f == QueueAlone.DequeueOutcome(Pending(Q(s, p)))
    ensures n <= 13 && Dequeued(s, p, n, s') && Ends(s', p, i, f)
  {
    var s1, m := BeginGo(s, p, i, f);
    s' := DrainAlone(s1, p, i, m, f);
    n := 1 + m;
    DequeuedOn(s, p, 1, s1, m, s', n);
  }

  // ---------------------------------------------------------------------------------------
  // One round of chores
  // ---------------------------------------------------------------------------------------

  ghost predicate Works(s: State, n: nat, s': State) {
    Gets(s, n, s') && Reach(s') && Same(s, s')
  }

  lemma WorksOn(s: State, m: nat, s1: State, n: nat, s2: State, all: nat)
    requires Works(s, m, s1) && Works(s1, n, s2) && all == m + n
    ensures Works(s, all, s2)
  {
    GetsOn(s, m, s1, n, s2, all);
  }

  /** A step that leaves both queues alone. */
  lemma PlainGo(s: State, s': State)
    requires s' == Next(s, Poll(Go))
    requires s.pc.Execute? || s.pc.Recycle? || (s.pc.Drain? && s.pc.op.Returned?)
    ensures s'.urgent == s.urgent && s'.low == s.low && s'.producers == s.producers
    ensures s'.wakeupCall == s.wakeupCall && s'.efd == s.efd && s'.doChores == s.doChores
    ensures s'.ledger.urgent.submitted == s.ledger.urgent.submitted && s'.ledger.low.submitted == s.ledger.low.submitted
    ensures s'.flooded == (s.flooded || Flooded(s))
    ensures s.pc.Execute? ==> s'.pc == Recycle(s.pc.prio, s.pc.i, s.pc.task)
    ensures s.pc.Recycle? ==> s'.pc == AfterRecycle(s.pc.prio, s.pc.i)
    ensures s.pc.Drain? ==> s'.pc == AfterDequeue(s, s.pc.prio, s.pc.i, s.pc.op.result).pc
  {
  }

  lemma PlainWorks(s: State) returns (s': State)
    requires Reach(s) && (s.pc.Execute? || s.pc.Recycle? || (s.pc.Drain? && s.pc.op.Returned?))
    ensures Works(s, 1, s') && s'.urgent == s.urgent && s'.low == s.low
    ensures s.pc.Execute? ==> s'.pc == Recycle(s.pc.prio, s.pc.i, s.pc.task)
    ensures s.pc.Recycle? ==> s'.pc == AfterRecycle(s.pc.prio, s.pc.i)
    ensures s.pc.Drain? ==> s'.pc == AfterDequeue(s, s.pc.prio, s.pc.i, s.pc.op.result).pc
  {
    s' := Next(s, Poll(Go));
    PlainGo(s, s');
    ReachFlood(s);
    ReachOneMore(s, Poll(Go), s');
    GetsOne(s, s');
  }

  lemma ReachFlood(s: State)
    requires Reach(s)
    ensures FloodOk(s)
  {
    ReachIsSound(s);
  }

  /** The task at hand is run and recycled. */
  lemma ServeAlone(s: State, p: Priority, i: nat, task: Task) returns (s': State)
    requires Reach(s) && s.pc == Drain(p, i, Returned(Got(task)))
    ensures Works(s, 3, s') && s'.pc == AfterRecycle(p, i) && s'.urgent == s.urgent && s'.low == s.low
  {
    var s1 := PlainWorks(s);
    var s2 := PlainWorks(s1);
    s' := PlainWorks(s2);
    WorksOn(s, 1, s1, 1, s2, 2);
    WorksOn(s, 2, s2, 1, s', 3);
  }

  /** The first task of a queue is taken, run and recycled. */
  lemma JobAlone(s: State, p: Priority, i: nat, tasks: seq<Task>) returns (n: nat, s': State)
    requires Reach(s) && s.pc == Drain(p, i, Idle) && tasks == Pending(Q(s, p)) && tasks != []
    ensures n <= 16 && Works(s, n, s') && s'.pc == AfterRecycle(p, i)
    ensures Pending(Q(s', p)) == tasks[1..] && Q(s', Other(p)) == Q(s, Other(p))
  {
    var m, s1 := DequeueAlone(s, p, i, QueueAlone.DequeueOutcome(tasks));
    s' := ServeAlone(s1, p, i, tasks[0]);
    n := m + 3;
    WorksOn(s, m, s1, 3, s', n);
  }

  /** An empty queue ends its part of the round. */
  lemma NoJobAlone(s: State, p: Priority, i: nat) returns (n: nat, s': State)
    requires Reach(s) && s.pc == Drain(p, i, Idle) && Pending(Q(s, p)) == []
    ensures n <= 14 && Works(s, n, s') && s'.pc == if p.Urgent? then Drain(Low, 0, Idle) else Store
    ensures Pending(Q(s', p)) == [] && Q(s', Other(p)) == Q(s, Other(p))
  {
    var m, s1 := DequeueAlone(s, p, i, QueueAlone.DequeueOutcome([]));
    s' := PlainWorks(s1);
    n := m + 1;
    WorksOn(s, m, s1, 1, s', n);
  }

  /** The urgent half of a round: all jobs. */
  lemma {:induction false} UrgentAlone(s: State, tasks: seq<Task>) returns (n: nat, s': State)
    requires Reach(s) && s.pc == Drain(Urgent, 0, Idle) && tasks == Pending(s.urgent)
    ensures n <= 16 * |tasks| + 14 && Works(s, n, s') && s'.pc == Drain(Low, 0, Idle)
    ensures Pending(s'.urgent) == [] && s'.low == s.low
    decreases |tasks|
  {
    if tasks == [] {
      n, s' := NoJobAlone(s, Urgent, 0);
    } else {
      var m, s1 := JobAlone(s, Urgent, 0, tasks);
      var k;
      k, s' := UrgentAlone(s1, tasks[1..]);
      n := m + k;
      WorksOn(s, m, s1, k, s', n);
    }
  }

  /** How many low-priority jobs a round still runs after i of them. */
  function Batch(i: nat, queued: nat): nat {
    if i >= MAX_ASYNC_TASKS then 0 else if queued < MAX_ASYNC_TASKS - i then queued else MAX_ASYNC_TASKS - i
  }

  /** The low-priority half of a round: at most 256 jobs. */
  lemma {:induction false} LowAlone(s: State, i: nat, tasks: seq<Task>) returns (n: nat, s': State)
    requires Reach(s) && s.pc == Drain(Low, i, Idle) && i < MAX_ASYNC_TASKS && tasks == Pending(s.low)
    ensures n <= 16 * Batch(i, |tasks|) + 14 && Works(s, n, s') && s'.pc == Store
    ensures Pending(s'.low) == tasks[Batch(i, |tasks|)..] && s'.urgent == s.urgent
    decreases |tasks|
  {
    if tasks == [] {
      n, s' := NoJobAlone(s, Low, i);
    } else {
      n, s' := JobAlone(s, Low, i, tasks);
      if i + 1 < MAX_ASYNC_TASKS {
        var m, s1 := n, s';
        var k;
        k, s' := LowAlone(s1, i + 1, tasks[1..]);
        n := m + k;
        WorksOn(s, m, s1, k, s', n);
      }
    }
  }

  /** From the start of the chores to the store that ends them. */
  lemma ChoresAlone(s: State) returns (n: nat, s': State)
    requires Reach(s) && s.pc == Drain(Urgent, 0, Idle)
    ensures n <= 16 * (|Pending(s.urgent)| + Batch(0, |Pending(s.low)|)) + 28 && Works(s, n, s') && s'.pc == Store
    ensures Pending(s'.urgent) == [] && Pending(s'.low) == Pending(s.low)[Batch(0, |Pending(s.low)|)..]
  {
    var m, s1 := UrgentAlone(s, Pending(s.urgent));
    var k;
    k, s' := LowAlone(s1, 0, Pending(s.low));
    n := m + k;
    WorksOn(s, m, s1, k, s', n);
  }

  // ---------------------------------------------------------------------------------------
  // One wake-up, from wait to wait
  // ---------------------------------------------------------------------------------------

  /** Nobody is inside Trigger. */
  predicate Quiet(producers: map<Tid, Producer>) {
    forall t :: t in producers ==> producers[t].Off?
  }

  /** With nobody inside the queue, its length tells whether it is empty. */
  lemma LengthTells(q: Queue, p: Priority, producers: map<Tid, Producer>, pc: Pc)
    requires QueueOk(q, p, producers, pc) && Quiet(producers) && !pc.Drain? && Size(q) < TWO32
    ensures q.length == 0 <==> Pending(q) == []
  {
    forall t ensures t !in q.entering {
      assert t in producers ==> ThreadInv(q, t, ProducerOp(producers[t], p));
    }
    assert q.entering == {};
    assert POLLER !in q.leaving;
    assert q.leaving == {};
  }

  /** While the poller holds no task, the jobs that ran are those submitted and not queued. */
  lemma RanTells(s: State, p: Priority)
    requires Reach(s) && !s.pc.Drain? && !s.pc.Execute?
    ensures var trail := TrailOf(s.ledger, p);
      |Pending(Q(s, p))| <= |trail.submitted| && trail.ran == trail.submitted[..|trail.submitted| - |Pending(Q(s, p))|]
  {
    ReachIsSound(s);
  }

  predicate Signals(s: State, doChores: bool, wakeupCall: int, efd: nat) {
    s.doChores == doChores && s.wakeupCall == wakeupCall && s.efd == efd
  }

  /** What stays the same outside the chores. */
  predicate Kin(s: State, s': State) {
    && s'.urgent == s.urgent && s'.low == s.low && s'.producers == s.producers && s'.ledger == s.ledger
    && (!s.flooded ==> !s'.flooded)
  }

  predicate Outside(pc: Pc) {
    pc.Wait? || pc.Events? || pc.Proc? || pc.Store? || pc.CheckLow? || pc.CheckUrgent? || pc.Cas? || pc.Write?
  }

  /** A step outside the chores: where it goes. */
  function NextPc(s: State, ready: bool): Pc {
    match s.pc
    case Wait => Events(ready && s.efd > 0)
    case Events(r) => if r then Events(false) else Proc
    case Proc => if s.doChores then Drain(Urgent, 0, Idle) else Wait
    case Store => CheckLow
    case CheckLow => if s.low.length != 0 then Cas else CheckUrgent
    case CheckUrgent => if s.urgent.length != 0 then Cas else Wait
    case Cas => if s.wakeupCall == 0 then Poller.Write else Wait
    case _ => Wait
  }

  /** ... and what it does to the signals. */
  predicate NextSignals(s: State, s': State) {
    match s.pc
    case Events(r) => if r then Signals(s', true, s.wakeupCall, 0) else Signals(s', s.doChores, s.wakeupCall, s.efd)
    case Proc => Signals(s', false, s.wakeupCall, s.efd)
    case Store => Signals(s', s.doChores, 0, s.efd)
    case Cas => Signals(s', s.doChores, 1, s.efd) || s.wakeupCall != 0
    case Write => Signals(s', s.doChores, s.wakeupCall, Signal(s.efd))
    case _ => Signals(s', s.doChores, s.wakeupCall, s.efd)
  }

  lemma OuterStep(s: State, c: Choice, pc: Pc, s': State)
    requires pc == s.pc && s' == PollerStep(s, c) && Outside(pc) && (c == Go || (c == Ready && pc.Wait?))
    ensures s'.urgent == s.urgent && s'.low == s.low && s'.producers == s.producers && s'.ledger == s.ledger
    ensures s'.flooded == s.flooded && s'.pc == NextPc(s, c == Ready) && NextSignals(s, s')
  {
  }

  lemma OuterGo(s: State, c: Choice) returns (s': State)
    requires Reach(s) && Outside(s.pc) && (c == Go || (c == Ready && s.pc.Wait?))
    ensures s' == Next(s, Poll(c)) && Reach(s') && Kin(s, s') && s'.pc == NextPc(s, c == Ready) && NextSignals(s, s')
  {
    s' := Next(s, Poll(c));
    OuterStep(s, c, s.pc, PollerStep(s, c));
    ReachFlood(s);
    ReachOneMore(s, Poll(c), s');
  }

  lemma OuterWorks(s: State) returns (s': State)
    requires Reach(s) && Outside(s.pc)
    ensures Gets(s, 1, s') && Reach(s') && Kin(s, s') && s'.pc == NextPc(s, false) && NextSignals(s, s')
  {
    s' := OuterGo(s, Go);
    GetsOne(s, s');
  }

  lemma OuterWorks2(s: State) returns (s1: State, s': State)
    requires Reach(s) && Outside(s.pc) && Outside(NextPc(s, false))
    ensures Reach(s1) && Kin(s, s1) && s1.pc == NextPc(s, false) && NextSignals(s, s1)
    ensures Gets(s, 2, s') && Reach(s') && Kin(s1, s') && s'.pc == NextPc(s1, false) && NextSignals(s1, s')
  {
    s1 := OuterWorks(s);
    s' := OuterWorks(s1);
    GetsOn(s, 1, s1, 1, s', 2);
  }

  /** The eventfd is read and the chores begin. */
  lemma StartAlone(s: State) returns (s': State)
    requires Reach(s) && s.pc == Events(true) && !s.flooded
    ensures Gets(s, 3, s') && Reach(s') && s'.pc == Drain(Urgent, 0, Idle) && Signals(s', false, s.wakeupCall, 0) && Kin(s, s')
  {
    var s1, s2 := OuterWorks2(s);
    s' := OuterWorks(s2);
    GetsOn(s, 2, s2, 1, s', 3);
  }

  lemma LengthTellsAlone(s: State, p: Priority)
    requires Reach(s) && Quiet(s.producers) && !s.pc.Drain? && !s.flooded
    ensures Q(s, p).length == 0 <==> Pending(Q(s, p)) == []
  {
    ReachIsSound(s);
    LengthTells(Q(s, p), p, s.producers, s.pc);
  }

  /** The poller waits again, signalled exactly if low-priority jobs are left. */
  predicate Waits(s: State, s': State) {
    && s'.pc == Wait && s'.urgent == s.urgent && s'.low == s.low && s'.producers == s.producers && s'.ledger == s.ledger
    && if Pending(s.low) == [] then Signals(s', false, 0, 0) else Signals(s', false, 1, 1)
  }

  /** The flag is cleared, the queues are checked, and the poller signals itself if jobs are left. */
  lemma RearmAlone(s: State) returns (n: nat, s': State)
    requires Reach(s) && s.pc == Store && !s.flooded && Quiet(s.producers) && Pending(s.urgent) == []
    requires !s.doChores && s.efd == 0
    ensures n <= 4 && Gets(s, n, s') && Reach(s') && Waits(s, s')
  {
    LengthTellsAlone(s, Low);
    LengthTellsAlone(s, Urgent);
    n, s' := RearmFrom(s, s.low.length == 0);
  }

  lemma RearmFrom(s: State, done: bool) returns (n: nat, s': State)
    requires Reach(s) && s.pc == Store && !s.flooded && !s.doChores && s.efd == 0
    requires s.urgent.length == 0 && (done <==> s.low.length == 0)
    ensures n <= 4 && Gets(s, n, s') && Reach(s') && s'.pc == Wait && Kin(s, s')
    ensures if done then Signals(s', false, 0, 0) else Signals(s', false, 1, 1)
  {
    var s1, s2 := OuterWorks2(s);
    n, s' := WaitAlone(s2);
    GetsOn(s, 2, s2, n, s', 2 + n);
    n := 2 + n;
  }

  lemma WaitAlone(s: State) returns (n: nat, s': State)
    requires Reach(s) && !s.flooded && Signals(s, false, 0, 0)
    requires if s.low.length == 0 then s.pc == CheckUrgent && s.urgent.length == 0 else s.pc == Cas
    ensures n <= 2 && Gets(s, n, s') && Reach(s') && s'.pc == Wait && Kin(s, s')
    ensures if s.low.length == 0 then Signals(s', false, 0, 0) else Signals(s', false, 1, 1)
  {
    if s.low.length == 0 {
      s' := OuterWorks(s);
      n := 1;
    } else {
      var s1;
      s1, s' := OuterWorks2(s);
      n := 2;
    }
  }

  lemma CycleAlone(s: State) returns (n: nat, s': State)
    requires Reach(s) && s.pc == Events(true) && !s.doChores && !s.flooded && Quiet(s.producers)
    ensures n <= 16 * (|Pending(s.urgent)| + Batch(0, |Pending(s.low)|)) + 35 && Gets(s, n, s') && Reach(s')
    ensures s'.pc == Wait && Pending(s'.urgent) == [] && Pending(s'.low) == Pending(s.low)[Batch(0, |Pending(s.low)|)..]
    ensures SameSubmitted(s, s') && if Pending(s'.low) == [] then Signals(s', false, 0, 0) else Signals(s', false, 1, 1)
  {
    var s1 := StartAlone(s);
    var m, s2 := ChoresAlone(s1);
    var k;
    k, s' := RearmAlone(s2);
    GetsOn(s, 3, s1, m, s2, 3 + m);
    n := 3 + m + k;
    GetsOn(s, 3 + m, s2, k, s', n);
  }

  predicate SameSubmitted(s: State, s': State) {
    s'.ledger.urgent.submitted == s.ledger.urgent.submitted && s'.ledger.low.submitted == s.ledger.low.submitted
  }

  /** What one wake-up brings about: every urgent job and up to 256 others ran, and the poller waits again. */
  predicate Served(s: State, s': State) {
    && s'.pc == Wait && !s'.doChores
    && s'.ledger.urgent.ran == s.ledger.urgent.submitted
    && |s.ledger.low.ran| + Batch(0, |Pending(s.low)|) <= |s.ledger.low.submitted|
    && s'.ledger.low.ran == s.ledger.low.submitted[..|s.ledger.low.ran| + Batch(0, |Pending(s.low)|)]
    && s'.wakeupCall == s'.efd == if s'.ledger.low.ran == s.ledger.low.submitted then 0 else 1
  }

  lemma CycleServes(s: State, s': State)
    requires Reach(s) && Reach(s') && !s.pc.Drain? && !s.pc.Execute? && s'.pc == Wait && SameSubmitted(s, s')
    requires Pending(s'.urgent) == [] && Pending(s'.low) == Pending(s.low)[Batch(0, |Pending(s.low)|)..]
    requires if Pending(s'.low) == [] then Signals(s', false, 0, 0) else Signals(s', false, 1, 1)
    ensures Served(s, s')
  {
    RanTells(s, Low);
    RanTells(s', Urgent);
    RanTells(s', Low);
  }

  lemma ServedFrom(s: State, s1: State) returns (n: nat, s': State)
    requires Reach(s) && s.pc.Wait? && s.efd > 0 && !s.flooded && Quiet(s.producers) && s1 == Next(s, Poll(Ready))
    ensures n <= 16 * (|Pending(s.urgent)| + Batch(0, |Pending(s.low)|)) + 35 && Gets(s1, n, s') && Served(s, s')
  {
    ReachIsSound(s);
    var s2 := OuterGo(s, Ready);
    n, s' := CycleAlone(s1);
    CycleServes(s, s');
  }

  /**
   One wake-up serves. From every reachable state in which the poller waits, the eventfd is
   readable and nobody is inside Trigger: the poller alone runs every urgent job and up to 256
   low-priority jobs and waits again, in a number of steps bounded by the jobs it runs. It is
   signalled again, flag and eventfd both 1, exactly if jobs are left; otherwise both are 0.
   */
  lemma WakeUpServes(start: State, actions: seq<Action>, s: State) returns (n: nat)
    requires Init(start) && s == Run(start, actions)
    requires s.pc.Wait? && s.efd > 0 && !s.flooded && Quiet(s.producers)
    ensures n <= 16 * (|Pending(s.urgent)| + Batch(0, |Pending(s.low)|)) + 35
    ensures Served(s, Run(Next(s, Poll(Ready)), Polls(n)))
  {
    assert Comes(start, actions, s);
    var s1 := Next(s, Poll(Ready));
    var s';
    n, s' := ServedFrom(s, s1);
    GetsIsRun(s1, n, s');
  }

  // ---------------------------------------------------------------------------------------
  // One call of Trigger, served
  // ---------------------------------------------------------------------------------------

  /** The write succeeded: one job is queued and the poller is signalled. */
  predicate OneJob(s: State, p: Priority, job: Job) {
    && s.pc == Wait && s.efd == 1 && !s.flooded && Quiet(s.producers)
    && TrailOf(s.ledger, p) == Trail([job], []) && TrailOf(s.ledger, Other(p)) == Trail([], [])
    && |Pending(Q(s, p))| == 1 && Pending(Q(s, Other(p))) == []
  }

  lemma WriteAnnounces(s: State, t: Tid, p: Priority, job: Job, s': State)
    requires AboutToWrite(s, t, p, job) && s' == Next(s, Produce(t, Go))
    ensures OneJob(s', p, job)
  {
  }

  /**
   From every start: one undisturbed Trigger or UrgentTrigger whose write succeeds, and the poller
   alone runs exactly that job within 52 steps and waits again, with the flag and the eventfd 0.
   */
  lemma TriggerIsServed(start: State, t: Tid, p: Priority, job: Job, call: seq<Action>) returns (n: nat)
    requires Init(start) && t in start.producers && call == Trigger(t, p, job) + [Produce(t, Go)]
    ensures var s' := Run(Next(Run(start, call), Poll(Ready)), Polls(n));
      && n + 1 <= 52 && s'.pc == Wait && s'.wakeupCall == 0 && s'.efd == 0
      && TrailOf(s'.ledger, p).ran == [job] && TrailOf(s'.ledger, Other(p)).ran == []
  {
    CallReachesWrite(start, t, p, job);
    var s := Run(start, Trigger(t, p, job));
    RunOneMore(start, Trigger(t, p, job), Produce(t, Go));
    var s1 := Next(s, Produce(t, Go));
    WriteAnnounces(s, t, p, job, s1);
    n := WakeUpServes(start, call, s1);
  }
}
