/**
 Wake-up permits. Setting wakeupCall from 0 to 1 creates one permit; it travels from the winner
 of the compare-and-swap through the eventfd to the poller's chores, whose store of 0 ends it.
 From this follows that no wake-up is lost, and what a failed eventfd write costs.
 */
module PollerWakeup {
  import opened LockFreeQueue
  import opened Poller
  import opened PollerQueues

  /** Producers that won the flag and have not written the eventfd yet. */
  function Writers(producers: map<Tid, Producer>): set<Tid> {
    set t | t in producers && producers[t].AtWrite?
  }

  /** The poller has the permit: it will run its chores, is running them, or is about to write. */
  predicate Holding(pc: Pc, doChores: bool) {
    doChores || pc.Drain? || pc.Execute? || pc.Recycle? || pc.Store? || pc.Write? || (pc.Exited? && pc.holding)
  }

  function Bit(b: bool): int {
    if b then 1 else 0
  }

  predicate Permits(s: State) {
    && 0 <= s.wakeupCall <= 1
    && |Writers(s.producers)| + s.efd + Bit(Holding(s.pc, s.doChores)) + Bit(s.failed) == s.wakeupCall
    && (s.doChores ==> s.pc.Wait? || s.pc.Events? || s.pc.Proc? || s.pc.Exited?)
    && (s.pc.Events? && s.pc.ready ==> s.efd > 0)
  }

  lemma WritersAfter(producers: map<Tid, Producer>, t: Tid, pr: Producer)
    requires t in producers
    ensures |Writers(producers[t := pr])| ==
            |Writers(producers)| + Bit(pr.AtWrite?) - Bit(producers[t].AtWrite?)
  {
    var w, w' := Writers(producers), Writers(producers[t := pr]);
    if pr.AtWrite? {
      assert w' == w + {t};
    } else {
      assert w' == w - {t};
    }
  }

  /** What a producer does between queue calls. */
  lemma SignalFrame(s: State, t: Tid, c: Choice, pr: Producer, s': State)
    requires t in s.producers && pr == s.producers[t] && !pr.Prepared? && (pr.Calling? ==> pr.op.Returned?)
    requires s' == ProducerStep(s, t, c)
    ensures s'.doChores == s.doChores && s'.round == s.round && s'.begun == s.begun
    ensures pr.Off? ==> SameSignals(s, s') && (s'.producers == s.producers || (c.Submit? && s'.producers == s.producers[t := Prepared(c.prio, Fill(s.ledger, t, c.job, c.reuse).1, c.job)]))
    ensures pr.Calling? ==> SameSignals(s, s') && s'.producers == s.producers[t := AtCas]
    ensures pr.AtCas? && s.wakeupCall != 0 ==> SameSignals(s, s') && s'.producers == s.producers[t := Off]
    ensures pr.AtCas? && s.wakeupCall == 0 ==>
      s'.wakeupCall == 1 && s'.efd == s.efd && s'.failed == s.failed && s'.producers == s.producers[t := AtWrite]
    ensures pr.AtWrite? ==>
      && s'.wakeupCall == s.wakeupCall && s'.producers == s.producers[t := Off]
      && (if c.WriteError? then s'.failed && s'.efd == s.efd else s'.efd == Signal(s.efd) && s'.failed == s.failed)
    ensures s'.ledger == if pr.Off? && c.Submit? then Fill(s.ledger, t, c.job, c.reuse).0 else s.ledger
  {
  }

  lemma ProducerKeepsPermits(s: State, t: Tid, c: Choice, pr: Producer, s': State)
    requires Permits(s) && t in s.producers && pr == s.producers[t]
    requires s' == ProducerStep(s, t, c)
    ensures Permits(s')
  {
    var pr' := s'.producers[t];
    if pr.Prepared? {
      var q := Q(s, pr.prio);
      var (q', op') := Exec(q, t, Idle, Begin(Enqueue(pr.task)));
      BeginFrame(s, t, c, pr.prio, pr.task, q, q', op', s');
    } else if pr.Calling? && !pr.op.Returned? {
      var q := Q(s, pr.prio);
      var (q', op') := Exec(q, t, pr.op, Proceed);
      ProceedFrame(s, t, c, pr.prio, pr.op, q, q', op', s');
    } else {
      BetweenCallsFrame(s, t, c, pr, s');
      SignalFrame(s, t, c, pr, s');
      if pr.AtWrite? {
        assert t in Writers(s.producers);
      }
    }
    WritersAfter(s.producers, t, pr');
    assert s'.producers == s.producers[t := pr'];
  }

  lemma PollerKeepsPermits(s: State, c: Choice, pc: Pc, s': State)
    requires Permits(s) && pc == s.pc && s' == PollerStep(s, c)
    ensures Permits(s')
  {
    if pc.Drain? && !pc.op.Returned? {
      var q := Q(s, pc.prio);
      var (q', op') := Exec(q, POLLER, pc.op, DrainMove(pc.op));
      DequeueFrame(s, c, pc.prio, pc.i, pc.op, q, q', op', s');
    } else {
      NoDequeueFrame(s, c, pc, s');
    }
  }

  lemma NextKeepsPermits(s: State, a: Action)
    requires Permits(s)
    ensures Permits(Next(s, a))
  {
    match a
    case Produce(t, c) => if t in s.producers { ProducerKeepsPermits(s, t, c, s.producers[t], ProducerStep(s, t, c)); }
    case Poll(c) => PollerKeepsPermits(s, c, s.pc, PollerStep(s, c));
    case Collect(task) =>
  }

  // ---------------------------------------------------------------------------------------
  // Queued tasks are announced
  // ---------------------------------------------------------------------------------------

  /** The poller has seen queue p empty since it last cleared the flag. */
  predicate Checked(pc: Pc, p: Priority) {
    pc.Wait? || pc.Events? || pc.Proc? || (p.Low? && pc.CheckUrgent?)
  }

  /** A producer that linked its task and has yet to try to set the flag. */
  predicate WillSignal(pr: Producer) {
    pr.AtCas? || (pr.Calling? && (pr.op.ESwing? || pr.op.EIncrement? || pr.op.Returned?))
  }

  ghost predicate SomeoneWillSignal(producers: map<Tid, Producer>) {
    exists t :: t in producers && WillSignal(producers[t])
  }

  ghost predicate Announced(s: State, p: Priority) {
    !s.flooded && s.wakeupCall == 0 && Checked(s.pc, p) && Size(Q(s, p)) > 0 ==> SomeoneWillSignal(s.producers)
  }

  predicate FloodOk(s: State) {
    Flooded(s) ==> s.flooded
  }

  /** An empty answer for a queue with tasks: some producer has linked and not counted its task. */
  lemma EmptyAnswerIsAnnounced(q: Queue, p: Priority, producers: map<Tid, Producer>, pc: Pc)
    requires QueueOk(q, p, producers, pc) && CallsOk(producers, pc) && PollerOp(pc, p).Idle?
    requires q.length == 0 && 0 < Size(q) < TWO32
    ensures SomeoneWillSignal(producers)
  {
    assert POLLER !in q.leaving;
    assert q.leaving == {};
    assert q.entering != {};
    var t :| t in q.entering;
    assert ThreadInv(q, t, ProducerOp(producers[t], p));
    assert WillSignal(producers[t]);
  }

  lemma ProducerKeepsAnnounced(s: State, t: Tid, c: Choice, pr: Producer, s': State, p: Priority)
    requires QueuesOk(s) && Permits(s) && t in s.producers && pr == s.producers[t] && s' == ProducerStep(s, t, c)
    requires Announced(s, p)
    ensures Announced(s'.(flooded := s.flooded), p)
  {
    if pr.Prepared? {
      var q := Q(s, pr.prio);
      var (q', op') := Exec(q, t, Idle, Begin(Enqueue(pr.task)));
      BeginFrame(s, t, c, pr.prio, pr.task, q, q', op', s');
      BeginSize(q, t, pr.task, q', op');
      CallAnnounces(s, s', t, p, pr.prio, q, q', op');
    } else if pr.Calling? && !pr.op.Returned? {
      var q := Q(s, pr.prio);
      var (q', op') := Exec(q, t, pr.op, Proceed);
      ProceedFrame(s, t, c, pr.prio, pr.op, q, q', op', s');
      ProceedSize(q, t, pr.op, q', op');
      CallAnnounces(s, s', t, p, pr.prio, q, q', op');
    } else {
      SignalAnnounces(s, t, c, pr, s', p);
    }
  }

  lemma SignalAnnounces(s: State, t: Tid, c: Choice, pr: Producer, s': State, p: Priority)
    requires Permits(s) && t in s.producers && pr == s.producers[t] && s' == ProducerStep(s, t, c)
    requires !pr.Prepared? && (pr.Calling? ==> pr.op.Returned?)
    requires Announced(s, p)
    ensures Announced(s'.(flooded := s.flooded), p)
  {
    BetweenCallsFrame(s, t, c, pr, s');
    SignalFrame(s, t, c, pr, s');
    if !pr.AtCas? {
      WitnessStays(s.producers, s'.producers, t);
    }
  }

  lemma BeginSize(q: Queue, t: Tid, task: Task, q': Queue, op': Op)
    requires Inv(q) && ThreadInv(q, t, Idle) && (q', op') == Exec(q, t, Idle, Begin(Enqueue(task)))
    ensures Size(q') == Size(q) && op'.ELoadTail?
  {
  }

  lemma ProceedSize(q: Queue, t: Tid, op: Op, q': Queue, op': Op)
    requires Inv(q) && ThreadInv(q, t, op) && IsEnqueueing(op) && !op.Returned? && (q', op') == Exec(q, t, op, Proceed)
    ensures Size(q') == Size(q) || op'.ESwing?
    ensures op.ESwing? || op.EIncrement? ==> op'.EIncrement? || op'.Returned?
  {
    EnqueueEffect(q, t, op);
  }

  lemma WitnessStays(producers: map<Tid, Producer>, producers': map<Tid, Producer>, t: Tid)
    requires producers'.Keys == producers.Keys && t in producers
    requires forall u :: u in producers && u != t ==> producers'[u] == producers[u]
    requires WillSignal(producers[t]) ==> WillSignal(producers'[t])
    ensures SomeoneWillSignal(producers) ==> SomeoneWillSignal(producers')
  {
    if SomeoneWillSignal(producers) {
      var u :| u in producers && WillSignal(producers[u]);
      assert u in producers' && WillSignal(producers'[u]);
    }
  }

  /** Linking a task makes its producer the one who will signal. */
  lemma CallAnnounces(s: State, s': State, t: Tid, p: Priority, on: Priority, q: Queue, q': Queue, op': Op)
    requires t in s.producers && q == Q(s, on) && q' == Q(s', on) && (Size(q') == Size(q) || op'.ESwing?)
    requires WillSignal(s.producers[t]) ==> op'.EIncrement? || op'.Returned?
    requires Q(s', Other(on)) == Q(s, Other(on)) && s'.pc == s.pc && SameSignals(s, s')
    requires s'.producers == s.producers[t := Calling(on, op', JobIn(s.producers[t]))]
    requires Announced(s, p)
    ensures Announced(s'.(flooded := s.flooded), p)
  {
    if op'.ESwing? {
      assert t in s'.producers && WillSignal(s'.producers[t]);
    } else {
      WitnessStays(s.producers, s'.producers, t);
    }
  }

  lemma PollerKeepsAnnounced(s: State, c: Choice, pc: Pc, s': State, p: Priority)
    requires QueuesOk(s) && Permits(s) && FloodOk(s) && pc == s.pc && s' == PollerStep(s, c)
    requires Announced(s, p)
    ensures Announced(s'.(flooded := s.flooded), p)
  {
    if pc.Drain? && !pc.op.Returned? {
      var q := Q(s, pc.prio);
      var (q', op') := Exec(q, POLLER, pc.op, DrainMove(pc.op));
      DequeueFrame(s, c, pc.prio, pc.i, pc.op, q, q', op', s');
    } else {
      NoDequeueFrame(s, c, pc, s');
      if (pc.CheckLow? && p.Low?) || (pc.CheckUrgent? && p.Urgent?) {
        if Q(s, p).length == 0 && 0 < Size(Q(s, p)) < TWO32 {
          EmptyAnswerIsAnnounced(Q(s, p), p, s.producers, pc);
        }
      }
    }
  }

  /** The protocol's whole invariant. */
  ghost predicate Protocol(s: State) {
    QueuesOk(s) && Permits(s) && FloodOk(s) && Announced(s, Urgent) && Announced(s, Low)
  }

  lemma NextKeepsAnnounced(s: State, a: Action)
    requires Protocol(s)
    ensures Announced(Next(s, a), Urgent) && Announced(Next(s, a), Low) && FloodOk(Next(s, a))
  {
    match a
    case Produce(t, c) =>
      if t in s.producers {
        ProducerKeepsAnnounced(s, t, c, s.producers[t], ProducerStep(s, t, c), Urgent);
        ProducerKeepsAnnounced(s, t, c, s.producers[t], ProducerStep(s, t, c), Low);
      }
    case Poll(c) =>
      PollerKeepsAnnounced(s, c, s.pc, PollerStep(s, c), Urgent);
      PollerKeepsAnnounced(s, c, s.pc, PollerStep(s, c), Low);
    case Collect(task) =>
  }

  lemma NextKeepsProtocol(s: State, a: Action)
    requires Protocol(s)
    ensures Protocol(Next(s, a))
  {
    NextKeepsQueues(s, a);
    NextKeepsPermits(s, a);
    NextKeepsAnnounced(s, a);
  }

  lemma {:induction false} RunKeepsProtocol(s: State, actions: seq<Action>)
    requires Protocol(s)
    ensures Protocol(Run(s, actions))
    decreases |actions|
  {
    if actions != [] {
      NextKeepsProtocol(s, actions[0]);
      RunKeepsProtocol(Next(s, actions[0]), actions[1..]);
    }
  }

  lemma InitProtocol(s: State)
    requires Init(s)
    ensures Protocol(s)
  {
    InitQueues(s);
    assert Writers(s.producers) == {};
  }

  /**
   Permit conservation, in every run: the flag is 1 exactly when one permit exists, and it is
   held by a producer about to write, by the eventfd, by the poller, or was lost in a failed
   write. So the eventfd counter never exceeds 1 and write(efd) never answers EAGAIN.
   */
  lemma PermitConservation(start: State, actions: seq<Action>)
    requires Init(start)
    ensures var s := Run(start, actions);
      && s.wakeupCall == |Writers(s.producers)| + s.efd + Bit(Holding(s.pc, s.doChores)) + Bit(s.failed)
      && 0 <= s.wakeupCall <= 1
      && s.efd <= 1
  {
    InitProtocol(start);
    RunKeepsProtocol(start, actions);
  }

  /**
   No lost wake-up, in every run in which no producer's eventfd write failed: when the poller
   is about to wait without chores to do and a task is queued, the eventfd is readable, or some
   producer has yet to try the flag, or has set it and not yet written.
   */
  lemma NoLostWakeup(start: State, actions: seq<Action>)
    requires Init(start)
    ensures var s := Run(start, actions);
      s.pc.Wait? && !s.doChores && Size(s.urgent) + Size(s.low) > 0 && !s.failed && !s.flooded ==>
        s.efd > 0 || SomeoneWillSignal(s.producers) || Writers(s.producers) != {}
  {
    InitProtocol(start);
    RunKeepsProtocol(start, actions);
    var s := Run(start, actions);
    assert Inv(s.urgent) && Inv(s.low);
  }

  // ---------------------------------------------------------------------------------------
  // A failed eventfd write stops all chores
  // ---------------------------------------------------------------------------------------

  lemma StalledStaysStalled(s: State, a: Action)
    requires Protocol(s) && s.failed
    ensures Next(s, a).failed
    ensures Next(s, a).ledger.urgent.ran == s.ledger.urgent.ran && Next(s, a).ledger.low.ran == s.ledger.low.ran
  {
    assert !Holding(s.pc, s.doChores);
    match a
    case Produce(t, c) => if t in s.producers { ProducerRunsNothing(s, t, c, s.producers[t], ProducerStep(s, t, c)); }
    case Poll(c) => assert !s.pc.Execute? && !s.pc.Recycle? && !s.pc.Drain?;
    case Collect(task) =>
  }

  lemma ProducerRunsNothing(s: State, t: Tid, c: Choice, pr: Producer, s': State)
    requires t in s.producers && pr == s.producers[t] && s' == ProducerStep(s, t, c)
    ensures s'.ledger.urgent.ran == s.ledger.urgent.ran && s'.ledger.low.ran == s.ledger.low.ran
    ensures s.failed ==> s'.failed
  {
  }

  /**
   The converse: once a producer's eventfd write has failed, the flag stays at 1 with no permit
   behind it, so no later action of anyone makes the poller run another job.
   */
  lemma {:induction false} FailedWriteStallsForever(s: State, actions: seq<Action>)
    requires Protocol(s) && s.failed
    ensures var s' := Run(s, actions);
      && s'.failed && s'.wakeupCall == 1 && s'.efd == 0
      && s'.ledger.urgent.ran == s.ledger.urgent.ran && s'.ledger.low.ran == s.ledger.low.ran
    decreases |actions|
  {
    if actions != [] {
      NextKeepsProtocol(s, actions[0]);
      StalledStaysStalled(s, actions[0]);
      FailedWriteStallsForever(Next(s, actions[0]), actions[1..]);
    }
  }

  /**
   In every run: if the eventfd write of a producer that has just set the flag fails, then no
   job runs from there on, whoever triggers whatever.
   */
  lemma WriteErrorIsFatal(start: State, before: seq<Action>, t: Tid, after: seq<Action>)
    requires Init(start)
    ensures var s := Run(start, before); var s' := Run(Next(s, Produce(t, WriteError)), after);
      t in s.producers && s.producers[t].AtWrite? ==>
        && s'.wakeupCall == 1 && s'.efd == 0
        && s'.ledger.urgent.ran == s.ledger.urgent.ran && s'.ledger.low.ran == s.ledger.low.ran
  {
    InitProtocol(start);
    RunKeepsProtocol(start, before);
    var s := Run(start, before);
    if t in s.producers && s.producers[t].AtWrite? {
      WriteFails(s, t, Next(s, Produce(t, WriteError)));
      NextKeepsProtocol(s, Produce(t, WriteError));
      FailedWriteStallsForever(Next(s, Produce(t, WriteError)), after);
    }
  }

  lemma WriteFails(s: State, t: Tid, s': State)
    requires t in s.producers && s.producers[t].AtWrite? && s' == Next(s, Produce(t, WriteError))
    ensures s'.failed && s'.ledger == s.ledger
  {
  }

  // ---------------------------------------------------------------------------------------
  // It happens
  // ---------------------------------------------------------------------------------------

  function Gos(t: Tid, n: nat): seq<Action> {
    if n == 0 then [] else [Produce(t, Go)] + Gos(t, n - 1)
  }

  lemma RunFirst(s: State, a: Action, rest: seq<Action>)
    ensures Run(s, [a] + rest) == Run(Next(s, a), rest)
  {
    assert ([a] + rest)[0] == a && ([a] + rest)[1..] == rest;
  }

  lemma RunGo(s: State, t: Tid, n: nat)
    requires n > 0
    ensures Run(s, Gos(t, n)) == Run(Next(s, Produce(t, Go)), Gos(t, n - 1))
  {
    RunFirst(s, Produce(t, Go), Gos(t, n - 1));
  }

  /** A producer alone with its node 1, before or after the link. */
  predicate Alone(s: State, t: Tid, p: Priority, job: Job, pr: Producer, linked: bool) {
    var q, trail := Q(s, p), TrailOf(s.ledger, p);
    && t in s.producers && s.producers[t] == pr && s.wakeupCall == 0 && Rest(s, t, p)
    && |q.heap| == 2 && q.heap[0].next == (if linked then 1 else NIL) && |q.chain| == (if linked then 2 else 1)
    && q.taken == 0 && q.tail == 0 && trail == Trail(if linked then [job] else [], [])
  }

  /** Everything else is as at the start. */
  predicate Rest(s: State, t: Tid, p: Priority) {
    && s.pc == Wait && s.efd == 0 && !s.failed && !s.flooded && TrailOf(s.ledger, Other(p)) == Trail([], [])
    && |Q(s, Other(p)).chain| == 1 && Q(s, Other(p)).taken == 0
    && (forall u :: u in s.producers && u != t ==> s.producers[u].Off?)
  }

  lemma Submitted(s: State, t: Tid, p: Priority, job: Job, s': State)
    requires Init(s) && t in s.producers && s' == Next(Next(s, Produce(t, Submit(p, job, 0))), Produce(t, Go))
    ensures Alone(s', t, p, job, Calling(p, ELoadTail(1), job), false)
  {
  }

  lemma Loaded(s: State, t: Tid, p: Priority, job: Job, s': State)
    requires Alone(s, t, p, job, Calling(p, ELoadTail(1), job), false)
    requires s' == Next(Next(Next(s, Produce(t, Go)), Produce(t, Go)), Produce(t, Go))
    ensures Alone(s', t, p, job, Calling(p, ELink(1, 0), job), false)
  {
  }

  lemma Linked(s: State, t: Tid, p: Priority, job: Job, s': State)
    requires Alone(s, t, p, job, Calling(p, ELink(1, 0), job), false) && s' == Next(s, Produce(t, Go))
    ensures Alone(s', t, p, job, Calling(p, ESwing(1, 0), job), true)
  {
  }

  /** The flag is set and the eventfd not yet written; one job is queued and none ran. */
  predicate AboutToWrite(s: State, t: Tid, p: Priority, job: Job) {
    && t in s.producers && s.producers[t] == AtWrite && Rest(s, t, p) && s.wakeupCall == 1
    && |Q(s, p).chain| == 2 && Q(s, p).taken == 0 && TrailOf(s.ledger, p) == Trail([job], [])
  }

  lemma Flagged(s: State, t: Tid, p: Priority, job: Job, s': State)
    requires Alone(s, t, p, job, Calling(p, ESwing(1, 0), job), true)
    requires s' == Next(Next(Next(Next(s, Produce(t, Go)), Produce(t, Go)), Produce(t, Go)), Produce(t, Go))
    ensures AboutToWrite(s', t, p, job)
  {
  }

  /** One undisturbed call of Trigger or UrgentTrigger, up to the write. */
  function Trigger(t: Tid, p: Priority, job: Job): seq<Action> {
    [Produce(t, Submit(p, job, 0))] + Gos(t, 9)
  }

  lemma CallReachesWrite(s: State, t: Tid, p: Priority, job: Job)
    requires Init(s) && t in s.producers
    ensures AboutToWrite(Run(s, Trigger(t, p, job)), t, p, job)
  {
    var submit := Produce(t, Submit(p, job, 0));
    var s0 := Next(s, submit);
    RunFirst(s, submit, Gos(t, 9));
    var s1 := Next(s0, Produce(t, Go));
    RunGo(s0, t, 9);
    Submitted(s, t, p, job, s1);
    var s4 := Go3(s1, t, 8);
    Loaded(s1, t, p, job, s4);
    var s5 := Next(s4, Produce(t, Go));
    RunGo(s4, t, 5);
    Linked(s4, t, p, job, s5);
    var s8 := Go3(s5, t, 4);
    RunGo(s8, t, 1);
    Flagged(s5, t, p, job, Next(s8, Produce(t, Go)));
  }

  lemma Go3(s: State, t: Tid, n: nat) returns (s': State)
    requires n >= 3
    ensures s' == Next(Next(Next(s, Produce(t, Go)), Produce(t, Go)), Produce(t, Go))
    ensures Run(s, Gos(t, n)) == Run(s', Gos(t, n - 3))
  {
    var s1 := Next(s, Produce(t, Go));
    RunGo(s, t, n);
    RunGo(s1, t, n - 1);
    s' := Next(Next(s1, Produce(t, Go)), Produce(t, Go));
    RunGo(Next(s1, Produce(t, Go)), t, n - 2);
  }

  /**
   The stall does happen, from every start: one producer, one queued job, one failed write, and
   the job never runs, whatever anyone does afterwards.
   */
  lemma StallHappens(start: State, t: Tid, p: Priority, job: Job, call: seq<Action>, after: seq<Action>)
    requires Init(start) && t in start.producers && call == Trigger(t, p, job)
    ensures Size(Q(Run(start, call), p)) == 1
    ensures var s' := Run(Next(Run(start, call), Produce(t, WriteError)), after);
      s'.wakeupCall == 1 && s'.efd == 0 && |s'.ledger.low.ran| == 0 && |s'.ledger.urgent.ran| == 0
  {
    CallReachesWrite(start, t, p, job);
    NothingRuns(start, call, t, after);
  }

  lemma NothingRuns(start: State, before: seq<Action>, t: Tid, after: seq<Action>)
    requires Init(start)
    requires var s := Run(start, before);
      t in s.producers && s.producers[t] == AtWrite && |s.ledger.low.ran| == 0 && |s.ledger.urgent.ran| == 0
    ensures var s' := Run(Next(Run(start, before), Produce(t, WriteError)), after);
      s'.wakeupCall == 1 && s'.efd == 0 && |s'.ledger.low.ran| == 0 && |s'.ledger.urgent.ran| == 0
  {
    WriteErrorIsFatal(start, before, t, after);
  }
}
