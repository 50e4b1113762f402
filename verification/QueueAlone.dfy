/**
 What a thread of the lock-free queue does when it moves alone: from every reachable state, and
 from wherever it is in its call, it returns after a number of steps that the state tells in
 advance, with the answer that the state tells in advance. So no call ever hangs by itself, an
 idle Dequeue answers with the first task or, exactly if there is none, with nil, and the steps
 that help a slower thread do help.
 */
module QueueAlone {
  import opened LockFreeQueue
  import opened QueueRuns

  /** The tail lags behind the last node. */
  predicate Lags(q: Queue) {
    q.swung + 1 < |q.chain|
  }

  // ---------------------------------------------------------------------------------------
  // How many steps are left
  // ---------------------------------------------------------------------------------------

  /** From the load of the tail: link, swing, increment; one more round first if the tail lags. */
  function EnqueueTurns(q: Queue): nat {
    if Lags(q) then 10 else 6
  }

  /** From the load of the head: a look, and a take if there is a task, after a round of help if needed. */
  function DequeueTurns(q: Queue): nat {
    if q.taken + 1 >= |q.chain| then 4 else if q.taken < q.swung then 7 else 12
  }

  function LinkTurns(q: Queue, tail: Addr): nat {
    if Mapped(q, tail) && q.heap[tail].next == NIL then 3 else 1 + EnqueueTurns(q)
  }

  function EnqueueHelpTurns(q: Queue, tail: Addr): nat {
    if q.tail == tail then 7 else 1 + EnqueueTurns(q)
  }

  function CheckTailTurns(q: Queue, tail: Addr, next: Addr): nat {
    1 + if tail != q.tail then EnqueueTurns(q) else if next == NIL then LinkTurns(q, tail) else EnqueueHelpTurns(q, tail)
  }

  function DequeueHelpTurns(q: Queue, tail: Addr): nat {
    if q.tail == tail then 8 else 1 + DequeueTurns(q)
  }

  function SwingTurns(q: Queue, head: Addr): nat {
    if q.head == head then 2 else 1 + DequeueTurns(q)
  }

  function CheckHeadTurns(q: Queue, head: Addr, tail: Addr, next: Addr): nat {
    1 + if head != q.head then DequeueTurns(q) else if head != tail then 3 else if next == NIL then 0 else DequeueHelpTurns(q, tail)
  }

  /** Steps until the call returns, if nobody else moves. */
  function Left(q: Queue, op: Op): nat {
    match op
    case ELoadTail(_) => EnqueueTurns(q)
    case ELoadNext(_, tail) => 1 + CheckTailTurns(q, tail, if Mapped(q, tail) then q.heap[tail].next else NIL)
    case ECheckTail(_, tail, next) => CheckTailTurns(q, tail, next)
    case ELink(_, tail) => LinkTurns(q, tail)
    case EHelp(_, tail, _) => EnqueueHelpTurns(q, tail)
    case ESwing(_, _) => 2
    case EIncrement(_) => 1
    case DLoadHead => DequeueTurns(q)
    case DLoadTail(head) => if head == q.head then DequeueTurns(q) - 1 else 3 + DequeueTurns(q)
    case DLoadNext(head, tail) => 1 + CheckHeadTurns(q, head, tail, if Mapped(q, head) then q.heap[head].next else NIL)
    case DCheckHead(head, tail, next) => CheckHeadTurns(q, head, tail, next)
    case DHelp(tail, _) => DequeueHelpTurns(q, tail)
    case DReadValue(head, _) => 1 + SwingTurns(q, head)
    case DSwing(head, _, _) => SwingTurns(q, head)
    case DDecrement(_) => 1
    case _ => 0
  }

  // ---------------------------------------------------------------------------------------
  // What the answer will be
  // ---------------------------------------------------------------------------------------

  /** An answer, and the tasks queued once it is given. */
  datatype Outcome = Outcome(result: Result, pending: seq<Task>)

  function EnqueueOutcome(pending: seq<Task>, task: Task): Outcome {
    Outcome(Done, pending + [task])
  }

  /** The first task, or nil if there is none. */
  function DequeueOutcome(pending: seq<Task>): Outcome {
    if pending == [] then Outcome(Nothing, []) else Outcome(Got(pending[0]), pending[1..])
  }

  /**
   The answer of the call, if nobody else moves. The only Dequeue that is bound to answer nil
   although tasks are queued by now is one that has already seen the queue empty.
   */
  function Future(q: Queue, op: Op): Outcome {
    var pending := Pending(q);
    match op
    case ELoadTail(n) => EnqueueOutcome(pending, ValueIn(q.heap, n))
    case ELoadNext(n, _) => EnqueueOutcome(pending, ValueIn(q.heap, n))
    case ECheckTail(n, _, _) => EnqueueOutcome(pending, ValueIn(q.heap, n))
    case ELink(n, _) => EnqueueOutcome(pending, ValueIn(q.heap, n))
    case EHelp(n, _, _) => EnqueueOutcome(pending, ValueIn(q.heap, n))
    case ESwing(_, _) => Outcome(Done, pending)
    case EIncrement(_) => Outcome(Done, pending)
    case DCheckHead(head, tail, next) =>
      if head == q.head && head == tail && next == NIL then Outcome(Nothing, pending) else DequeueOutcome(pending)
    case DDecrement(task) => Outcome(Got(task), pending)
    case Returned(r) => Outcome(r, pending)
    case _ => DequeueOutcome(pending)
  }

  predicate InCall(op: Op) {
    !op.Idle? && !op.Returned? && !op.Crashed?
  }

  // ---------------------------------------------------------------------------------------
  // One step
  // ---------------------------------------------------------------------------------------

  ghost predicate Progress(q: Queue, op: Op, q': Queue, op': Op) {
    Left(q', op') == Left(q, op) - 1 && Future(q', op') == Future(q, op)
  }

  /** The two ends, as nodes. */
  lemma Ends(q: Queue)
    requires Inv(q)
    ensures LinkedNode(q.heap, q.head) && LinkedNode(q.heap, q.tail)
    ensures q.heap[q.head].pos == q.taken && q.heap[q.tail].pos == q.swung
    ensures q.heap[q.tail].next == NIL <==> !Lags(q)
    ensures q.heap[q.head].next == NIL <==> q.taken + 1 == |q.chain|
  {
    assert NodeOk(q.heap, q.chain, q.taken) && NodeOk(q.heap, q.chain, q.swung);
    assert NodeOk(q.heap, q.chain, q.taken + 1) && NodeOk(q.heap, q.chain, q.swung + 1);
  }

  /** A linked node is told from the ends by its rank. */
  lemma Rank(q: Queue, a: Addr)
    requires Inv(q) && LinkedNode(q.heap, a)
    ensures q.heap[a].pos < |q.chain|
    ensures a == q.head <==> q.heap[a].pos == q.taken
    ensures a == q.tail <==> q.heap[a].pos == q.swung
    ensures q.heap[a].next == NIL <==> q.heap[a].pos == |q.chain| - 1
  {
    Ends(q);
    NextInChain(q.heap, q.chain, a);
    assert RankOk(q.heap, q.chain, a);
  }

  lemma EnqueueLoads(q: Queue, t: Tid, op: Op, op': Op)
    requires Inv(q) && ThreadInv(q, t, op) && (op.ELoadTail? || op.ELoadNext? || op.ECheckTail?)
    requires (q, op') == Exec(q, t, op, Proceed)
    ensures Progress(q, op, q, op')
  {
    Ends(q);
    if !op.ELoadTail? {
      Rank(q, op.tail);
    }
    if op.ECheckTail? && op.next != NIL {
      Rank(q, op.next);
    }
  }

  lemma Linked(q: Queue, t: Tid, n: Addr, tail: Addr)
    requires Inv(q) && ThreadInv(q, t, ELink(n, tail))
    ensures var (q', op') := Exec(q, t, ELink(n, tail), Proceed); Progress(q, ELink(n, tail), q', op')
  {
    if q.heap[tail].next == NIL {
      var q' := DoLink(q, t, n, tail);
      LinkKeepsChain(q, t, n, tail);
      SameValues(q.heap, q'.heap, q.chain, q.taken + 1);
      LinkedValues(q'.heap, q.chain, n, q.taken + 1);
    }
  }

  lemma Helped(q: Queue, q': Queue, tail: Addr, next: Addr)
    requires Inv(q) && Follows(q.heap, tail, next) && q' == CasTail(q, tail, next)
    ensures Pending(q') == Pending(q) && q'.head == q.head && q'.heap == q.heap
    ensures if q.tail == tail then !Lags(q') && q'.taken < q'.swung < |q'.chain| else q' == q
  {
    Rank(q, tail);
    Rank(q, next);
  }

  lemma HelpedEnqueue(q: Queue, t: Tid, n: Addr, tail: Addr, next: Addr)
    requires Inv(q) && ThreadInv(q, t, EHelp(n, tail, next))
    ensures var (q', op') := Exec(q, t, EHelp(n, tail, next), Proceed); Progress(q, EHelp(n, tail, next), q', op')
  {
    Helped(q, CasTail(q, tail, next), tail, next);
  }

  lemma Counts(q: Queue, t: Tid, op: Op)
    requires Inv(q) && ThreadInv(q, t, op) && (op.ESwing? || op.EIncrement?)
    ensures var (q', op') := Exec(q, t, op, Proceed); Progress(q, op, q', op')
  {
    if op.ESwing? {
      Helped(q, CasTail(q, op.tail, op.n), op.tail, op.n);
    }
  }

  lemma HelpedDequeue(q: Queue, t: Tid, tail: Addr, next: Addr)
    requires Inv(q) && ThreadInv(q, t, DHelp(tail, next))
    ensures var (q', op') := Exec(q, t, DHelp(tail, next), Proceed); Progress(q, DHelp(tail, next), q', op')
  {
    Helped(q, CasTail(q, tail, next), tail, next);
  }

  lemma EnqueueProgress(q: Queue, t: Tid, op: Op)
    requires Inv(q) && ThreadInv(q, t, op) && InCall(op) && IsEnqueueing(op)
    ensures var (q', op') := Exec(q, t, op, Proceed); Progress(q, op, q', op')
  {
    match op
    case ELink(n, tail) => Linked(q, t, n, tail);
    case EHelp(n, tail, next) => HelpedEnqueue(q, t, n, tail, next);
    case ESwing(_, _) => Counts(q, t, op);
    case EIncrement(_) => Counts(q, t, op);
    case _ => EnqueueLoads(q, t, op, Exec(q, t, op, Proceed).1);
  }

  lemma DequeueLoads(q: Queue, t: Tid, op: Op, op': Op)
    requires Inv(q) && ThreadInv(q, t, op) && (op.DLoadHead? || op.DLoadTail? || op.DReadValue?)
    requires (q, op') == Exec(q, t, op, Proceed)
    ensures Progress(q, op, q, op')
  {
    Ends(q);
    Rank(q, q.head);
    if !op.DLoadHead? {
      Rank(q, op.head);
    }
  }

  lemma LoadedNext(q: Queue, t: Tid, op: Op)
    requires Inv(q) && ThreadInv(q, t, op) && op.DLoadNext?
    ensures var (q', op') := Exec(q, t, op, Proceed); Progress(q, op, q', op')
  {
    Ends(q);
    Rank(q, op.head);
    Rank(q, op.tail);
  }

  lemma CheckedHead(q: Queue, t: Tid, op: Op)
    requires Inv(q) && ThreadInv(q, t, op) && op.DCheckHead?
    ensures var (q', op') := Exec(q, t, op, Proceed); Progress(q, op, q', op')
  {
    Ends(q);
    Rank(q, op.head);
    Rank(q, op.tail);
  }

  lemma Swung(q: Queue, t: Tid, op: Op)
    requires Inv(q) && ThreadInv(q, t, op) && op.DSwing?
    ensures var (q', op') := Exec(q, t, op, Proceed); Progress(q, op, q', op')
  {
    if q.head == op.head {
      TakeKeeps(q, t, op.head, op.next, op.task);
    }
  }

  lemma DequeueProgress(q: Queue, t: Tid, op: Op)
    requires Inv(q) && ThreadInv(q, t, op) && InCall(op) && IsDequeueing(op)
    ensures var (q', op') := Exec(q, t, op, Proceed); Progress(q, op, q', op')
  {
    match op
    case DLoadNext(_, _) => LoadedNext(q, t, op);
    case DCheckHead(_, _, _) => CheckedHead(q, t, op);
    case DHelp(tail, next) => HelpedDequeue(q, t, tail, next);
    case DSwing(_, _, _) => Swung(q, t, op);
    case DDecrement(_) =>
    case _ => DequeueLoads(q, t, op, Exec(q, t, op, Proceed).1);
  }

  /** Each step of a call is one step less, and does not change what the answer will be. */
  lemma StepIsProgress(q: Queue, t: Tid, op: Op)
    requires Inv(q) && ThreadInv(q, t, op) && InCall(op)
    ensures var (q', op') := Exec(q, t, op, Proceed); Kept(q, t, q', op') && Progress(q, op, q', op')
  {
    StepKeeps(q, t, op, Proceed);
    if IsEnqueueing(op) {
      EnqueueProgress(q, t, op);
    } else {
      DequeueProgress(q, t, op);
    }
  }

  /** A call that has no steps left has returned, and no call has more than 15. */
  lemma LeftIsExact(q: Queue, t: Tid, op: Op)
    requires Inv(q) && ThreadInv(q, t, op)
    ensures Left(q, op) <= 15 && (Left(q, op) > 0 <==> InCall(op))
  {
  }

  /** An Enqueue that nobody disturbs since its link leaves the tail at the last node. */
  predicate Tidy(q: Queue, op: Op) {
    && (op.ESwing? ==> q.tail == op.tail)
    && (op.EIncrement? || op == Returned(Done) ==> !Lags(q))
  }

  lemma StepIsTidy(q: Queue, t: Tid, op: Op)
    requires Inv(q) && ThreadInv(q, t, op) && InCall(op)
    ensures var (q', op') := Exec(q, t, op, Proceed); Tidy(q, op) ==> Tidy(q', op')
  {
    match op
    case ELink(n, tail) =>
      if q.heap[tail].next == NIL {
        LinkKeepsChain(q, t, n, tail);
      }
    case ESwing(n, tail) => Helped(q, CasTail(q, tail, n), tail, n);
    case _ =>
  }

  /** A call ends by returning. */
  lemma NeverIdles(q: Queue, t: Tid, op: Op)
    requires Inv(q) && ThreadInv(q, t, op) && InCall(op)
    ensures var op' := Exec(q, t, op, Proceed).1; InCall(op') || op'.Returned?
  {
    StepKeeps(q, t, op, Proceed);
  }

  // ---------------------------------------------------------------------------------------
  // Whole calls
  // ---------------------------------------------------------------------------------------

  /** Thread t alone for n turns. */
  function Alone(t: Tid, n: nat): seq<Turn> {
    if n == 0 then [] else [Turn(t, Proceed)] + Alone(t, n - 1)
  }

  lemma RunFirst(s: System, turn: Turn, rest: seq<Turn>)
    ensures Run(s, [turn] + rest) == Run(TakeTurn(s, turn), rest)
  {
    assert ([turn] + rest)[0] == turn && ([turn] + rest)[1..] == rest;
  }

  lemma {:induction false} FinishesAlone(s: System, t: Tid, n: nat)
    requires SystemInv(s) && t in s.threads && (InCall(s.threads[t]) || s.threads[t].Returned?)
    requires n == Left(s.queue, s.threads[t])
    ensures var s' := Run(s, Alone(t, n)); var f := Future(s.queue, s.threads[t]);
      t in s'.threads && s'.threads[t] == Returned(f.result) && Pending(s'.queue) == f.pending
    ensures Tidy(s.queue, s.threads[t]) ==> Tidy(Run(s, Alone(t, n)).queue, Returned(Future(s.queue, s.threads[t]).result))
    decreases n
  {
    LeftIsExact(s.queue, t, s.threads[t]);
    if n > 0 {
      var turn := Turn(t, Proceed);
      StepIsProgress(s.queue, t, s.threads[t]);
      StepIsTidy(s.queue, t, s.threads[t]);
      TurnKeepsInv(s, turn);
      RunFirst(s, turn, Alone(t, n - 1));
      var s1 := TakeTurn(s, turn);
      LeftIsExact(s1.queue, t, s1.threads[t]);
      FinishesAlone(s1, t, n - 1);
    }
  }

  /**
   From every reachable state, a thread that is inside a call and moves alone returns in exactly
   as many turns as the state tells, at most 15, with the answer the state tells.
   */
  lemma EveryCallReturns(tids: set<Tid>, schedule: seq<Turn>, t: Tid)
    requires t in tids
    ensures var s := Run(Start(tids), schedule);
      t in s.threads && (InCall(s.threads[t]) ==>
        var n, f := Left(s.queue, s.threads[t]), Future(s.queue, s.threads[t]);
        var s' := Run(s, Alone(t, n));
        && 0 < n <= 15
        && t in s'.threads && s'.threads[t] == Returned(f.result) && Pending(s'.queue) == f.pending)
  {
    StartInv(tids);
    RunKeepsInv(Start(tids), schedule);
    RunKeepsThreads(Start(tids), schedule);
    var s := Run(Start(tids), schedule);
    LeftIsExact(s.queue, t, s.threads[t]);
    if InCall(s.threads[t]) {
      FinishesAlone(s, t, Left(s.queue, s.threads[t]));
    }
  }

  lemma {:induction false} RunKeepsThreads(s: System, schedule: seq<Turn>)
    ensures Run(s, schedule).threads.Keys == s.threads.Keys
    decreases |schedule|
  {
    if schedule != [] {
      RunKeepsThreads(TakeTurn(s, schedule[0]), schedule[1..]);
    }
  }

  function Turns(q: Queue, request: Request): nat {
    if request.Dequeue? then DequeueTurns(q) else EnqueueTurns(q)
  }

  /** What a call does to the queue, as a sequential queue does it. */
  function OutcomeOf(pending: seq<Task>, request: Request): Outcome {
    if request.Dequeue? then DequeueOutcome(pending) else EnqueueOutcome(pending, request.task)
  }

  lemma Begins(q: Queue, t: Tid, request: Request)
    requires Inv(q) && ThreadInv(q, t, Idle)
    ensures var (q', op') := Exec(q, t, Idle, Begin(request));
      InCall(op') && Tidy(q', op') && Left(q', op') == Turns(q, request) && Future(q', op') == OutcomeOf(Pending(q), request)
  {
    if request.Enqueue? {
      var q' := Exec(q, t, Idle, Begin(request)).0;
      SameValues(q.heap, q'.heap, q.chain, q.taken + 1);
    }
  }

  /** The turns of one whole call in state q, its beginning included. */
  function CallAlone(q: Queue, t: Tid, request: Request): seq<Turn> {
    [Turn(t, Begin(request))] + Alone(t, Turns(q, request))
  }

  /**
   From every reachable state, whatever the other threads are in the middle of: an idle thread
   that calls Dequeue and moves alone gets the first task, and exactly if there is none nil, and
   one that calls Enqueue adds its task at the end, in at most 13 turns. An Enqueue leaves the tail
   at the last node, so whoever comes next need not help.
   */
  lemma IdleCallAlone(tids: set<Tid>, schedule: seq<Turn>, t: Tid, request: Request)
    requires t in tids
    ensures var s := Run(Start(tids), schedule);
      t in s.threads && (s.threads[t].Idle? ==>
        var s' := Run(s, CallAlone(s.queue, t, request));
        var f := OutcomeOf(Pending(s.queue), request);
        && |CallAlone(s.queue, t, request)| <= 13
        && t in s'.threads && s'.threads[t] == Returned(f.result) && Pending(s'.queue) == f.pending
        && (request.Enqueue? ==> !Lags(s'.queue)))
  {
    StartInv(tids);
    RunKeepsInv(Start(tids), schedule);
    RunKeepsThreads(Start(tids), schedule);
    var s := Run(Start(tids), schedule);
    if s.threads[t].Idle? {
      IdleCallFinishes(s, t, request);
      AloneLength(t, Turns(s.queue, request));
    }
  }

  lemma IdleCallFinishes(s: System, t: Tid, request: Request)
    requires SystemInv(s) && t in s.threads && s.threads[t].Idle?
    ensures var s' := Run(s, CallAlone(s.queue, t, request)); var f := OutcomeOf(Pending(s.queue), request);
      && t in s'.threads && s'.threads[t] == Returned(f.result) && Pending(s'.queue) == f.pending
      && (request.Enqueue? ==> !Lags(s'.queue))
  {
    var turn := Turn(t, Begin(request));
    Begins(s.queue, t, request);
    TurnKeepsInv(s, turn);
    RunFirst(s, turn, Alone(t, Turns(s.queue, request)));
    FinishesAlone(TakeTurn(s, turn), t, Turns(s.queue, request));
  }

  lemma AloneLength(t: Tid, n: nat)
    ensures |Alone(t, n)| == n
  {
  }
}
