/**
 The lock-free task queue of internal/queue/lock_free_queue.go (Michael and Scott's
 non-blocking queue plus a separately updated length counter), as a transition system.

 One call of Exec is one atomic step of one thread: a load, a compare-and-swap, an atomic
 add, or a private computation between two of these. A schedule is any list of threads and
 choices, so a statement about every schedule is a statement about every interleaving of
 any number of Enqueue and Dequeue calls.

 Fields marked "history" record what happened; no step reads them to decide what to do.
 */
module LockFreeQueue {

  type Tid = nat
  type Task = int   // identity of a *Task

  // Addresses index the node heap. The garbage collector never reuses a node that a thread
  // still references, so addresses are never recycled.
  type Addr = int
  const NIL: Addr := -1

  datatype Node = Node(
    value: Task,
    next: Addr,
    owner: Tid,   // history: the thread that allocated the node
    pos: int)     // history: rank of the node in link order, -1 while it is not linked

  datatype Request = Enqueue(task: Task) | Dequeue

  datatype Event =
    | Call(tid: Tid, request: Request)
    | Link(tid: Tid, task: Task)      // the link compare-and-swap succeeded
    | Empty(tid: Tid)                 // a Dequeue loaded a nil head.next
    | Take(tid: Tid, task: Task)      // the head compare-and-swap succeeded
    | Return(tid: Tid, result: Result)

  datatype Result = Done | Nothing | Got(task: Task)

  datatype Queue = Queue(
    heap: seq<Node>,
    head: Addr,
    tail: Addr,
    length: int,
    chain: seq<Addr>,        // history: linked nodes in link order, the first dummy included
    taken: nat,              // history: successful head swings
    swung: nat,              // history: rank of the node that tail points to
    entering: set<Tid>,      // history: threads between their link and their length increment
    leaving: set<Tid>,       // history: threads between their head swing and their decrement
    events: seq<Event>)      // history: what happened, in order

  /** Where a thread is inside Enqueue (E) or Dequeue (D), with its local variables. */
  datatype Op =
    | Idle
    | ELoadTail(n: Addr)
    | ELoadNext(n: Addr, tail: Addr)
    | ECheckTail(n: Addr, tail: Addr, next: Addr)
    | ELink(n: Addr, tail: Addr)
    | EHelp(n: Addr, tail: Addr, next: Addr)
    | ESwing(n: Addr, tail: Addr)
    | EIncrement(n: Addr)
    | DLoadHead
    | DLoadTail(head: Addr)
    | DLoadNext(head: Addr, tail: Addr)
    | DCheckHead(head: Addr, tail: Addr, next: Addr)
    | DHelp(tail: Addr, next: Addr)
    | DReadValue(head: Addr, next: Addr)
    | DSwing(head: Addr, next: Addr, task: Task)
    | DDecrement(task: Task)
    | Returned(result: Result)
    | Crashed                        // a nil pointer was dereferenced

  datatype Move = Proceed | Begin(request: Request)

  const TWO31 := 0x8000_0000
  const TWO32 := 0x1_0000_0000

  /** Two's complement 32-bit value of x, as atomic.AddInt32 leaves it. */
  function Wrap32(x: int): int {
    (x + TWO31) % TWO32 - TWO31
  }

  predicate Mapped(q: Queue, a: Addr) {
    0 <= a < |q.heap|
  }

  function Log(q: Queue, e: Event): Queue {
    q.(events := q.events + [e])
  }

  function Fresh(): Queue {
    Queue([Node(0, NIL, 0, 0)], 0, 0, 0, [0], 0, 0, {}, {}, [])
  }

  /** cas(&q.tail, old, new) */
  function CasTail(q: Queue, was: Addr, next: Addr): Queue {
    if q.tail == was then q.(tail := next, swung := q.swung + 1) else q
  }

  /** One atomic step of thread t, whose local state is op. */
  function Exec(q: Queue, t: Tid, op: Op, c: Move): (Queue, Op) {
    match op
    case Idle =>
      (match c
       case Begin(Enqueue(task)) =>
         (Log(q.(heap := q.heap + [Node(task, NIL, t, -1)]), Call(t, Enqueue(task))), ELoadTail(|q.heap|))
       case Begin(Dequeue) => (Log(q, Call(t, Dequeue)), DLoadHead)
       case Proceed => (q, op))
    case ELoadTail(n) => (q, ELoadNext(n, q.tail))
    case ELoadNext(n, tail) =>
      if Mapped(q, tail) then (q, ECheckTail(n, tail, q.heap[tail].next)) else (q, Crashed)
    case ECheckTail(n, tail, next) =>
      if tail == q.tail then
        if next == NIL then (q, ELink(n, tail)) else (q, EHelp(n, tail, next))
      else (q, ELoadTail(n))
    case ELink(n, tail) =>
      if !Mapped(q, tail) || !Mapped(q, n) then (q, Crashed)
      else if q.heap[tail].next == NIL then (DoLink(q, t, n, tail), ESwing(n, tail))
      else (q, ELoadTail(n))
    case EHelp(n, tail, next) => (CasTail(q, tail, next), ELoadTail(n))
    case ESwing(n, tail) => (CasTail(q, tail, n), EIncrement(n))
    case EIncrement(n) =>
      (Log(q.(length := Wrap32(q.length + 1), entering := q.entering - {t}), Return(t, Done)), Returned(Done))
    case DLoadHead => (q, DLoadTail(q.head))
    case DLoadTail(head) => (q, DLoadNext(head, q.tail))
    case DLoadNext(head, tail) =>
      if !Mapped(q, head) then (q, Crashed)
      else
        var next := q.heap[head].next;
        (if next == NIL then Log(q, Empty(t)) else q, DCheckHead(head, tail, next))
    case DCheckHead(head, tail, next) =>
      if head != q.head then (q, DLoadHead)
      else if head != tail then (q, DReadValue(head, next))
      else if next == NIL then (Log(q, Return(t, Nothing)), Returned(Nothing))
      else (q, DHelp(tail, next))
    case DHelp(tail, next) => (CasTail(q, tail, next), DLoadHead)
    case DReadValue(head, next) =>
      if Mapped(q, next) then (q, DSwing(head, next, q.heap[next].value)) else (q, Crashed)
    case DSwing(head, next, task) =>
      if q.head == head then
        (Log(q.(head := next, taken := q.taken + 1, leaving := q.leaving + {t}), Take(t, task)), DDecrement(task))
      else (q, DLoadHead)
    case DDecrement(task) =>
      (Log(q.(length := Wrap32(q.length - 1), leaving := q.leaving - {t}), Return(t, Got(task))), Returned(Got(task)))
    case Returned(_) => (q, Idle)
    case Crashed => (q, op)
  }

  /** The successful link of node n after node tail. */
  function DoLink(q: Queue, t: Tid, n: Addr, tail: Addr): Queue
    requires Mapped(q, tail) && Mapped(q, n)
  {
    var heap1 := q.heap[tail := q.heap[tail].(next := n)];
    var heap2 := heap1[n := heap1[n].(pos := |q.chain|)];
    Log(q.(heap := heap2, chain := q.chain + [n], entering := q.entering + {t}), Link(t, q.heap[n].value))
  }

  // ---------------------------------------------------------------------------------------
  // What a history means: a sequential FIFO queue and the calls of each thread
  // ---------------------------------------------------------------------------------------

  datatype Replayed = Illegal | Holds(tasks: seq<Task>)

  /** The linearization events of a history, applied to a sequential FIFO queue. */
  function Replay(events: seq<Event>): Replayed {
    if events == [] then Holds([]) else
    var before := Replay(events[..|events| - 1]);
    if before.Illegal? then Illegal else
    match events[|events| - 1]
    case Link(_, task) => Holds(before.tasks + [task])
    case Take(_, task) =>
      if before.tasks != [] && before.tasks[0] == task then Holds(before.tasks[1..]) else Illegal
    case Empty(_) => if before.tasks == [] then before else Illegal
    case _ => before
  }

  datatype Status =
    | Resting
    | Enqueueing(task: Task)
    | Enqueued
    | Dequeueing(sawEmpty: bool)
    | Dequeued(task: Task)
    | IllFormed

  /**
   The call thread t is in, read off the history. A call is answered only after its effect:
   Enqueue after exactly one Link of its own task, Dequeue with a task after exactly one Take
   of that task, Dequeue with nil after it saw the queue empty. Anything else is IllFormed.
   */
  function View(events: seq<Event>, t: Tid): Status {
    if events == [] then Resting
    else Advance(View(events[..|events| - 1], t), events[|events| - 1], t)
  }

  function Advance(s: Status, e: Event, t: Tid): Status {
    if e.tid != t then s else
    match (s, e)
    case (Resting, Call(_, Enqueue(task))) => Enqueueing(task)
    case (Enqueueing(task), Link(_, linked)) => if task == linked then Enqueued else IllFormed
    case (Enqueued, Return(_, Done)) => Resting
    case (Resting, Call(_, Dequeue)) => Dequeueing(false)
    case (Dequeueing(_), Empty(_)) => Dequeueing(true)
    case (Dequeueing(_), Take(_, task)) => Dequeued(task)
    case (Dequeueing(true), Return(_, Nothing)) => Resting
    case (Dequeued(task), Return(_, Got(got))) => if task == got then Resting else IllFormed
    case _ => IllFormed
  }

  function Links(events: seq<Event>): seq<Task> {
    if events == [] then [] else
    var last := events[|events| - 1];
    Links(events[..|events| - 1]) + if last.Link? then [last.task] else []
  }

  function Takes(events: seq<Event>): seq<Task> {
    if events == [] then [] else
    var last := events[|events| - 1];
    Takes(events[..|events| - 1]) + if last.Take? then [last.task] else []
  }

  /** In a legal history the tasks taken are a prefix of the tasks linked; the rest is the queue. */
  lemma {:induction false} ReplayIsFifo(events: seq<Event>)
    requires Replay(events).Holds?
    ensures Links(events) == Takes(events) + Replay(events).tasks
  {
    if events != [] {
      var before := events[..|events| - 1];
      ReplayIsFifo(before);
      var queue := Replay(before).tasks;
      if events[|events| - 1].Take? {
        assert queue == [queue[0]] + queue[1..];
      }
    }
  }

  // ---------------------------------------------------------------------------------------
  // Invariants
  // ---------------------------------------------------------------------------------------

  /** Linked tasks that no head swing has removed yet. */
  function Pending(q: Queue): seq<Task> {
    Values(q.heap, q.chain, q.taken + 1)
  }

  function Values(heap: seq<Node>, chain: seq<Addr>, from: nat): (r: seq<Task>)
    ensures |r| == if from < |chain| then |chain| - from else 0
    decreases |chain| - from
  {
    if from >= |chain| then [] else [ValueIn(heap, chain[from])] + Values(heap, chain, from + 1)
  }

  function ValueIn(heap: seq<Node>, a: Addr): Task {
    if 0 <= a < |heap| then heap[a].value else 0
  }

  /** The node of rank i points to the node of rank i + 1; the last one to nil. */
  predicate NodeOk(heap: seq<Node>, chain: seq<Addr>, i: int) {
    0 <= i < |chain| ==>
      && 0 <= chain[i] < |heap|
      && heap[chain[i]].pos == i
      && heap[chain[i]].next == if i + 1 < |chain| then chain[i + 1] else NIL
  }

  predicate RankOk(heap: seq<Node>, chain: seq<Addr>, a: Addr) {
    0 <= a < |heap| ==>
      heap[a].pos < |chain| && (heap[a].pos >= 0 ==> chain[heap[a].pos] == a)
  }

  /** The linked nodes form one acyclic chain. */
  ghost predicate ChainOk(heap: seq<Node>, chain: seq<Addr>) {
    && (forall i :: NodeOk(heap, chain, i))
    && (forall a :: RankOk(heap, chain, a))
  }

  /** Head never passes tail and tail lags behind the last node by at most one. */
  predicate EndsOk(q: Queue) {
    && q.taken <= q.swung < |q.chain| <= q.swung + 2
    && q.head == q.chain[q.taken]
    && q.tail == q.chain[q.swung]
  }

  predicate Counted(q: Queue) {
    q.length == Wrap32(|q.chain| - 1 - q.taken - |q.entering| + |q.leaving|)
  }

  ghost predicate Inv(q: Queue) {
    && ChainOk(q.heap, q.chain)
    && EndsOk(q)
    && Counted(q)
    && Replay(q.events) == Holds(Pending(q))
  }

  predicate LinkedNode(heap: seq<Node>, a: Addr) {
    0 <= a < |heap| && heap[a].pos >= 0
  }

  /** a is linked and its rank is at most i. */
  predicate Upto(heap: seq<Node>, a: Addr, i: int) {
    LinkedNode(heap, a) && heap[a].pos <= i
  }

  /** b is the successor of a in the chain. */
  predicate Follows(heap: seq<Node>, a: Addr, b: Addr) {
    LinkedNode(heap, a) && LinkedNode(heap, b) && heap[b].pos == heap[a].pos + 1
  }

  /** n is thread t's own node, not linked yet. */
  predicate Private(heap: seq<Node>, t: Tid, n: Addr) {
    0 <= n < |heap| && heap[n].pos < 0 && heap[n].owner == t && heap[n].next == NIL
  }

  /** What a thread knows about the nodes its local variables point to. */
  predicate Locals(heap: seq<Node>, taken: nat, swung: nat, t: Tid, op: Op) {
    match op
    case ELoadTail(n) => Private(heap, t, n)
    case ELoadNext(n, tail) => Private(heap, t, n) && Upto(heap, tail, swung)
    case ECheckTail(n, tail, next) =>
      Private(heap, t, n) && Upto(heap, tail, swung) && (next != NIL ==> Follows(heap, tail, next))
    case ELink(n, tail) => Private(heap, t, n) && Upto(heap, tail, swung)
    case EHelp(n, tail, next) => Private(heap, t, n) && Follows(heap, tail, next)
    case ESwing(n, tail) => Follows(heap, tail, n)
    case DLoadTail(head) => Upto(heap, head, taken)
    case DLoadNext(head, tail) => Upto(heap, head, taken) && Upto(heap, tail, swung) && heap[head].pos <= heap[tail].pos
    case DCheckHead(head, tail, next) =>
      && LinkedNode(heap, head) && Upto(heap, tail, swung) && heap[head].pos <= heap[tail].pos
      && (if next == NIL then heap[head].pos == heap[tail].pos else Follows(heap, head, next))
    case DHelp(tail, next) => Follows(heap, tail, next)
    case DReadValue(head, next) => Follows(heap, head, next) && Upto(heap, next, swung)
    case DSwing(head, next, task) =>
      Follows(heap, head, next) && Upto(heap, next, swung) && heap[next].value == task
    case Crashed => false
    case _ => true
  }

  /** The history must show a thread in exactly the call its program counter is in. */
  predicate Answers(heap: seq<Node>, s: Status, op: Op) {
    match op
    case ELoadTail(n) => s == Enqueueing(ValueIn(heap, n))
    case ELoadNext(n, _) => s == Enqueueing(ValueIn(heap, n))
    case ECheckTail(n, _, _) => s == Enqueueing(ValueIn(heap, n))
    case ELink(n, _) => s == Enqueueing(ValueIn(heap, n))
    case EHelp(n, _, _) => s == Enqueueing(ValueIn(heap, n))
    case ESwing(_, _) => s == Enqueued
    case EIncrement(_) => s == Enqueued
    case DCheckHead(_, _, next) => s.Dequeueing? && (next == NIL ==> s.sawEmpty)
    case DDecrement(task) => s == Dequeued(task)
    case Idle => s == Resting
    case Returned(_) => s == Resting
    case Crashed => false
    case _ => s.Dequeueing?
  }

  predicate InFlight(q: Queue, t: Tid, op: Op) {
    && (t in q.entering <==> op.ESwing? || op.EIncrement?)
    && (t in q.leaving <==> op.DDecrement?)
  }

  predicate ThreadInv(q: Queue, t: Tid, op: Op) {
    && Locals(q.heap, q.taken, q.swung, t, op)
    && Answers(q.heap, View(q.events, t), op)
    && InFlight(q, t, op)
  }

  // ---------------------------------------------------------------------------------------
  // Every step keeps the invariants
  // ---------------------------------------------------------------------------------------

  predicate NodeEvolves(heap: seq<Node>, heap': seq<Node>, t: Tid, a: Addr) {
    0 <= a < |heap| ==>
      && a < |heap'|
      && heap'[a].value == heap[a].value && heap'[a].owner == heap[a].owner
      && (heap'[a].pos != heap[a].pos ==> heap[a].pos < 0 && heap[a].owner == t)
      && (heap[a].pos < 0 ==> heap'[a].next == heap[a].next)
  }

  /** What a step of thread t may do to the shared state, as every other thread sees it. */
  ghost predicate Evolves(q: Queue, q': Queue, t: Tid) {
    && q.taken <= q'.taken && q.swung <= q'.swung
    && (forall a :: NodeEvolves(q.heap, q'.heap, t, a))
    && (forall u :: u != t ==> (u in q.entering <==> u in q'.entering) && (u in q.leaving <==> u in q'.leaving))
    && (forall u :: u != t ==> View(q.events, u) == View(q'.events, u))
  }

  lemma LocalsStable(heap: seq<Node>, heap': seq<Node>, q: Queue, q': Queue, t: Tid, u: Tid, op: Op)
    requires u != t && q.taken <= q'.taken && q.swung <= q'.swung
    requires heap == q.heap && heap' == q'.heap
    requires forall a :: NodeEvolves(heap, heap', t, a)
    requires Locals(heap, q.taken, q.swung, u, op)
    ensures Locals(heap', q'.taken, q'.swung, u, op)
  {
    forall a ensures LinkedNode(heap, a) ==> LinkedNode(heap', a) && heap'[a].pos == heap[a].pos && heap'[a].value == heap[a].value {
      assert NodeEvolves(heap, heap', t, a);
    }
    forall a ensures Private(heap, u, a) ==> Private(heap', u, a) {
      assert NodeEvolves(heap, heap', t, a);
    }
  }

  /** A thread's knowledge survives any step of another thread. */
  lemma StableUnderOthers(q: Queue, q': Queue, t: Tid, u: Tid, op: Op)
    requires ThreadInv(q, u, op) && Evolves(q, q', t) && u != t
    ensures ThreadInv(q', u, op)
  {
    LocalsStable(q.heap, q'.heap, q, q', t, u, op);
    if op.ELoadTail? || op.ELoadNext? || op.ECheckTail? || op.ELink? || op.EHelp? {
      assert NodeEvolves(q.heap, q'.heap, t, op.n);
    }
  }

  /** Logging an event of thread t is invisible to the others. */
  lemma LogViews(events: seq<Event>, e: Event)
    ensures View(events + [e], e.tid) == Advance(View(events, e.tid), e, e.tid)
    ensures forall u :: u != e.tid ==> View(events + [e], u) == View(events, u)
  {
    assert (events + [e])[..|events|] == events;
  }

  lemma LogReplay(events: seq<Event>, e: Event)
    requires Replay(events).Holds?
    ensures e.Call? || e.Return? ==> Replay(events + [e]) == Replay(events)
    ensures e.Empty? && Replay(events) == Holds([]) ==> Replay(events + [e]) == Holds([])
    ensures e.Link? ==> Replay(events + [e]) == Holds(Replay(events).tasks + [e.task])
    ensures e.Take? && Replay(events).tasks != [] && Replay(events).tasks[0] == e.task
            ==> Replay(events + [e]) == Holds(Replay(events).tasks[1..])
  {
    assert (events + [e])[..|events|] == events;
  }

  ghost predicate Kept(q: Queue, t: Tid, q': Queue, op': Op) {
    Inv(q') && ThreadInv(q', t, op') && Evolves(q, q', t)
  }

  /** The next pointer of a linked node is its successor in link order, nil for the last node only. */
  lemma NextInChain(heap: seq<Node>, chain: seq<Addr>, a: Addr)
    requires ChainOk(heap, chain) && LinkedNode(heap, a)
    ensures heap[a].pos < |chain| && chain[heap[a].pos] == a
    ensures heap[a].next == NIL <==> heap[a].pos == |chain| - 1
    ensures heap[a].next != NIL ==> Follows(heap, a, heap[a].next) && heap[a].next == chain[heap[a].pos + 1]
  {
    assert RankOk(heap, chain, a);
    assert NodeOk(heap, chain, heap[a].pos);
    assert NodeOk(heap, chain, heap[a].pos + 1);
  }

  lemma AllocateKeeps(q: Queue, t: Tid, task: Task)
    requires Inv(q) && ThreadInv(q, t, Idle)
    ensures var (q', op') := Exec(q, t, Idle, Begin(Enqueue(task))); Kept(q, t, q', op')
  {
    var e := Call(t, Enqueue(task));
    var (q', op') := Exec(q, t, Idle, Begin(Enqueue(task)));
    LogViews(q.events, e);
    LogReplay(q.events, e);
    forall i ensures NodeOk(q'.heap, q'.chain, i) {
      assert NodeOk(q.heap, q.chain, i);
    }
    forall a ensures RankOk(q'.heap, q'.chain, a) {
      assert RankOk(q.heap, q.chain, a);
    }
    SameValues(q.heap, q'.heap, q.chain, q.taken + 1);
  }

  lemma {:induction false} SameValues(heap: seq<Node>, heap': seq<Node>, chain: seq<Addr>, from: nat)
    requires forall i :: NodeOk(heap, chain, i)
    requires |heap| <= |heap'| && forall a :: 0 <= a < |heap| ==> heap'[a].value == heap[a].value
    ensures Values(heap, chain, from) == Values(heap', chain, from)
    decreases |chain| - from
  {
    if from < |chain| {
      assert NodeOk(heap, chain, from);
      SameValues(heap, heap', chain, from + 1);
    }
  }

  lemma {:induction false} LinkedValues(heap: seq<Node>, chain: seq<Addr>, n: Addr, from: nat)
    requires from <= |chain|
    ensures Values(heap, chain + [n], from) == Values(heap, chain, from) + [ValueIn(heap, n)]
    decreases |chain| - from
  {
    if from < |chain| {
      LinkedValues(heap, chain, n, from + 1);
    }
  }

  lemma LinkKeepsChain(q: Queue, t: Tid, n: Addr, tail: Addr)
    requires ChainOk(q.heap, q.chain) && EndsOk(q)
    requires Private(q.heap, t, n) && Upto(q.heap, tail, q.swung) && q.heap[tail].next == NIL
    ensures q.tail == tail && q.swung == |q.chain| - 1
    ensures var q' := DoLink(q, t, n, tail); ChainOk(q'.heap, q'.chain) && EndsOk(q') && Follows(q'.heap, tail, n)
  {
    var q' := DoLink(q, t, n, tail);
    NextInChain(q.heap, q.chain, tail);
    forall i ensures NodeOk(q'.heap, q'.chain, i) {
      assert NodeOk(q.heap, q.chain, i);
    }
    forall a ensures RankOk(q'.heap, q'.chain, a) {
      assert RankOk(q.heap, q.chain, a);
    }
  }

  lemma LinkKeeps(q: Queue, t: Tid, n: Addr, tail: Addr)
    requires Inv(q) && ThreadInv(q, t, ELink(n, tail)) && q.heap[tail].next == NIL
    ensures Kept(q, t, DoLink(q, t, n, tail), ESwing(n, tail))
  {
    var e := Link(t, q.heap[n].value);
    var q' := DoLink(q, t, n, tail);
    LinkKeepsChain(q, t, n, tail);
    LogViews(q.events, e);
    LogReplay(q.events, e);
    SameValues(q.heap, q'.heap, q.chain, q.taken + 1);
    LinkedValues(q'.heap, q.chain, n, q.taken + 1);
  }

  lemma CasTailKeeps(q: Queue, t: Tid, was: Addr, next: Addr)
    requires Inv(q) && Follows(q.heap, was, next)
    ensures Inv(CasTail(q, was, next)) && Evolves(q, CasTail(q, was, next), t)
  {
    assert RankOk(q.heap, q.chain, was) && RankOk(q.heap, q.chain, next);
    assert NodeOk(q.heap, q.chain, q.swung);
  }

  lemma TakeKeeps(q: Queue, t: Tid, head: Addr, next: Addr, task: Task)
    requires Inv(q) && ThreadInv(q, t, DSwing(head, next, task)) && q.head == head
    ensures var (q', op') := Exec(q, t, DSwing(head, next, task), Proceed); Kept(q, t, q', op')
    ensures Pending(q) == [task] + Pending(Exec(q, t, DSwing(head, next, task), Proceed).0)
  {
    var e := Take(t, task);
    var q' := Exec(q, t, DSwing(head, next, task), Proceed).0;
    assert NodeOk(q.heap, q.chain, q.taken);
    assert RankOk(q.heap, q.chain, next);
    assert Pending(q)[1..] == Pending(q');
    LogViews(q.events, e);
    LogReplay(q.events, e);
  }

  lemma WrapStep(x: int, d: int)
    ensures Wrap32(Wrap32(x) + d) == Wrap32(x + d)
  {
    var a := x + TWO31;
    assert a == TWO32 * (a / TWO32) + a % TWO32;
    var b := a % TWO32 + d;
    assert a + d == TWO32 * (a / TWO32) + b;
    assert (TWO32 * (a / TWO32) + b) % TWO32 == b % TWO32;
  }

  lemma IncrementKeeps(q: Queue, t: Tid, n: Addr)
    requires Inv(q) && ThreadInv(q, t, EIncrement(n))
    ensures var (q', op') := Exec(q, t, EIncrement(n), Proceed); Kept(q, t, q', op')
  {
    WrapStep(|q.chain| - 1 - q.taken - |q.entering| + |q.leaving|, 1);
    LogViews(q.events, Return(t, Done));
    LogReplay(q.events, Return(t, Done));
  }

  lemma DecrementKeeps(q: Queue, t: Tid, task: Task)
    requires Inv(q) && ThreadInv(q, t, DDecrement(task))
    ensures var (q', op') := Exec(q, t, DDecrement(task), Proceed); Kept(q, t, q', op')
  {
    WrapStep(|q.chain| - 1 - q.taken - |q.entering| + |q.leaving|, -1);
    LogViews(q.events, Return(t, Got(task)));
    LogReplay(q.events, Return(t, Got(task)));
  }

  lemma LoadNextKeeps(q: Queue, t: Tid, head: Addr, tail: Addr)
    requires Inv(q) && ThreadInv(q, t, DLoadNext(head, tail))
    ensures var (q', op') := Exec(q, t, DLoadNext(head, tail), Proceed); Kept(q, t, q', op')
  {
    NextInChain(q.heap, q.chain, head);
    NextInChain(q.heap, q.chain, tail);
    LogViews(q.events, Empty(t));
    LogReplay(q.events, Empty(t));
  }

  lemma LogKeeps(q: Queue, t: Tid, e: Event, op': Op)
    requires Inv(q) && e.tid == t && (e.Call? || e.Return?)
    requires Locals(q.heap, q.taken, q.swung, t, op') && InFlight(q, t, op')
    requires Answers(q.heap, Advance(View(q.events, t), e, t), op')
    ensures Kept(q, t, Log(q, e), op')
  {
    LogViews(q.events, e);
    LogReplay(q.events, e);
  }

  lemma CheckHeadKeeps(q: Queue, t: Tid, head: Addr, tail: Addr, next: Addr)
    requires Inv(q) && ThreadInv(q, t, DCheckHead(head, tail, next))
    ensures var (q', op') := Exec(q, t, DCheckHead(head, tail, next), Proceed); Kept(q, t, q', op')
  {
    assert RankOk(q.heap, q.chain, head) && RankOk(q.heap, q.chain, tail);
    if head == q.head && head == tail && next == NIL {
      LogKeeps(q, t, Return(t, Nothing), Returned(Nothing));
    }
  }

  lemma EnqueueStepKeeps(q: Queue, t: Tid, op: Op)
    requires Inv(q) && ThreadInv(q, t, op) && (op.ELink? || op.EHelp? || op.ESwing? || op.EIncrement?)
    ensures var (q', op') := Exec(q, t, op, Proceed); Kept(q, t, q', op')
  {
    match op
    case ELink(n, tail) =>
      if q.heap[tail].next == NIL {
        LinkKeeps(q, t, n, tail);
      }
    case EHelp(n, tail, next) => CasTailKeeps(q, t, tail, next);
    case ESwing(n, tail) => CasTailKeeps(q, t, tail, n);
    case EIncrement(n) => IncrementKeeps(q, t, n);
  }

  /** Steps that only load: the shared state stays and the thread learns what it may rely on. */
  lemma LoadKeeps(q: Queue, t: Tid, op: Op)
    requires Inv(q) && ThreadInv(q, t, op)
    requires op.ELoadTail? || op.ELoadNext? || op.ECheckTail? || op.DLoadHead? || op.DLoadTail? || op.DReadValue? || op.Returned?
    ensures var (q', op') := Exec(q, t, op, Proceed); Kept(q, t, q', op')
  {
    var (q', op') := Exec(q, t, op, Proceed);
    assert NodeOk(q.heap, q.chain, q.swung);
    assert NodeOk(q.heap, q.chain, q.taken);
    if op.ELoadNext? {
      NextInChain(q.heap, q.chain, op.tail);
    }
    assert q' == q;
    assert Locals(q.heap, q.taken, q.swung, t, op');
  }

  lemma DequeueStepKeeps(q: Queue, t: Tid, op: Op)
    requires Inv(q) && ThreadInv(q, t, op)
    requires op.DLoadNext? || op.DCheckHead? || op.DHelp? || op.DSwing? || op.DDecrement?
    ensures var (q', op') := Exec(q, t, op, Proceed); Kept(q, t, q', op')
  {
    match op
    case DLoadNext(head, tail) => LoadNextKeeps(q, t, head, tail);
    case DCheckHead(head, tail, next) => CheckHeadKeeps(q, t, head, tail, next);
    case DHelp(tail, next) => CasTailKeeps(q, t, tail, next);
    case DSwing(head, next, task) =>
      if q.head == head {
        TakeKeeps(q, t, head, next, task);
      }
    case DDecrement(task) => DecrementKeeps(q, t, task);
  }

  /** No step of any thread breaks the queue, whatever the other threads are doing. */
  lemma StepKeeps(q: Queue, t: Tid, op: Op, c: Move)
    requires Inv(q) && ThreadInv(q, t, op)
    ensures var (q', op') := Exec(q, t, op, c); Kept(q, t, q', op')
  {
    if op.Idle? {
      match c {
        case Begin(Enqueue(task)) => AllocateKeeps(q, t, task);
        case Begin(Dequeue) => LogKeeps(q, t, Call(t, Dequeue), DLoadHead);
        case Proceed =>
      }
    } else {
      assert Exec(q, t, op, c) == Exec(q, t, op, Proceed);
      if op.ELink? || op.EHelp? || op.ESwing? || op.EIncrement? {
        EnqueueStepKeeps(q, t, op);
      } else if op.DLoadNext? || op.DCheckHead? || op.DHelp? || op.DSwing? || op.DDecrement? {
        DequeueStepKeeps(q, t, op);
      } else {
        LoadKeeps(q, t, op);
      }
    }
  }

  // ---------------------------------------------------------------------------------------
  // What a step does, for clients that embed the queue in a larger system
  // ---------------------------------------------------------------------------------------

  predicate IsEnqueueing(op: Op) {
    op.ELoadTail? || op.ELoadNext? || op.ECheckTail? || op.ELink? || op.EHelp? || op.ESwing? || op.EIncrement? ||
    op == Returned(Done)
  }

  /** Inside Enqueue, before the link. */
  predicate IsLinking(op: Op) {
    op.ELoadTail? || op.ELoadNext? || op.ECheckTail? || op.ELink? || op.EHelp?
  }

  predicate IsDequeueing(op: Op) {
    op.Idle? || op.DLoadHead? || op.DLoadTail? || op.DLoadNext? || op.DCheckHead? || op.DHelp? || op.DReadValue? ||
    op.DSwing? || op.DDecrement? || (op.Returned? && !op.result.Done?)
  }

  /** Rank i in link order. */
  function RankTask(q: Queue, i: int): Task {
    if 0 <= i < |q.chain| then ValueIn(q.heap, q.chain[i]) else 0
  }

  ghost predicate Effect(q: Queue, t: Tid, op: Op, q': Queue, op': Op) {
    && Kept(q, t, q', op')
    && (if op.ELink? && op'.ESwing? then q'.chain == q.chain + [op.n] else q'.chain == q.chain)
    && (if op.DSwing? && op'.DDecrement?
        then q'.taken == q.taken + 1 < |q.chain| && op'.task == op.task == RankTask(q, q.taken + 1)
        else q'.taken == q.taken)
    && (IsEnqueueing(op) ==> IsEnqueueing(op') && (IsLinking(op') ==> IsLinking(op) && op'.n == op.n))
    && (IsLinking(op) ==> IsLinking(op') || op.ELink?)
    && (IsDequeueing(op) ==> IsDequeueing(op'))
    && (op'.DDecrement? ==> op.DSwing?)
    && (op'.Returned? && op'.result.Got? ==> op == DDecrement(op'.result.task))
  }

  /** The shape of an Enqueue step, whatever the queue looks like. */
  lemma EnqueueShape(q: Queue, t: Tid, op: Op, q': Queue, op': Op)
    requires IsEnqueueing(op) && !op.Returned? && (q', op') == Exec(q, t, op, Proceed) && !op'.Crashed?
    ensures if op.ELink? && op'.ESwing? then q'.chain == q.chain + [op.n] else q'.chain == q.chain
    ensures q'.taken == q.taken && IsEnqueueing(op')
    ensures IsLinking(op') ==> IsLinking(op) && op'.n == op.n
    ensures IsLinking(op) ==> IsLinking(op') || op.ELink?
  {
  }

  lemma EnqueueEffect(q: Queue, t: Tid, op: Op)
    requires Inv(q) && ThreadInv(q, t, op) && IsEnqueueing(op) && !op.Returned?
    ensures var (q', op') := Exec(q, t, op, Proceed); Effect(q, t, op, q', op')
  {
    StepKeeps(q, t, op, Proceed);
    var (q', op') := Exec(q, t, op, Proceed);
    assert !op'.Crashed?;
    EnqueueShape(q, t, op, q', op');
    EnqueueJoin(q, t, op, q', op');
  }

  lemma EnqueueJoin(q: Queue, t: Tid, op: Op, q': Queue, op': Op)
    requires Kept(q, t, q', op') && IsEnqueueing(op)
    requires if op.ELink? && op'.ESwing? then q'.chain == q.chain + [op.n] else q'.chain == q.chain
    requires q'.taken == q.taken && IsEnqueueing(op')
    requires IsLinking(op') ==> IsLinking(op) && op'.n == op.n
    requires IsLinking(op) ==> IsLinking(op') || op.ELink?
    ensures Effect(q, t, op, q', op')
  {
  }

  /** The shape of a Dequeue step, whatever the queue looks like. */
  lemma DequeueShape(q: Queue, t: Tid, op: Op, q': Queue, op': Op)
    requires IsDequeueing(op) && !op.Idle? && !op.Returned? && (q', op') == Exec(q, t, op, Proceed) && !op'.Crashed?
    ensures q'.chain == q.chain && IsDequeueing(op')
    ensures if op.DSwing? && op'.DDecrement? then q'.taken == q.taken + 1 && op'.task == op.task && q.head == op.head
            else q'.taken == q.taken
    ensures op'.DDecrement? ==> op.DSwing?
    ensures op'.Returned? && op'.result.Got? ==> op == DDecrement(op'.result.task)
  {
  }

  lemma DequeueEffect(q: Queue, t: Tid, op: Op)
    requires Inv(q) && ThreadInv(q, t, op) && IsDequeueing(op) && !op.Idle? && !op.Returned?
    ensures var (q', op') := Exec(q, t, op, Proceed); Effect(q, t, op, q', op')
  {
    StepKeeps(q, t, op, Proceed);
    var (q', op') := Exec(q, t, op, Proceed);
    assert !op'.Crashed?;
    DequeueShape(q, t, op, q', op');
    if op.DSwing? && op'.DDecrement? {
      TakenValue(q, t, op.head, op.next, op.task);
    }
    DequeueJoin(q, t, op, q', op');
  }

  lemma TakenValue(q: Queue, t: Tid, head: Addr, next: Addr, task: Task)
    requires Inv(q) && Locals(q.heap, q.taken, q.swung, t, DSwing(head, next, task)) && q.head == head
    ensures q.taken + 1 < |q.chain| && RankTask(q, q.taken + 1) == task
  {
    assert NodeOk(q.heap, q.chain, q.taken);
    assert RankOk(q.heap, q.chain, next);
  }

  lemma DequeueJoin(q: Queue, t: Tid, op: Op, q': Queue, op': Op)
    requires Kept(q, t, q', op') && IsDequeueing(op) && q'.chain == q.chain && IsDequeueing(op')
    requires if op.DSwing? && op'.DDecrement?
             then q'.taken == q.taken + 1 < |q.chain| && op'.task == op.task == RankTask(q, q.taken + 1)
             else q'.taken == q.taken
    requires op'.DDecrement? ==> op.DSwing?
    requires op'.Returned? && op'.result.Got? ==> op == DDecrement(op'.result.task)
    ensures Effect(q, t, op, q', op')
  {
  }

  lemma BeginEnqueueEffect(q: Queue, t: Tid, task: Task)
    requires Inv(q) && ThreadInv(q, t, Idle)
    ensures var (q', op') := Exec(q, t, Idle, Begin(Enqueue(task)));
      Kept(q, t, q', op') && q'.chain == q.chain && q'.taken == q.taken && op'.ELoadTail? && ValueIn(q'.heap, op'.n) == task
  {
    AllocateKeeps(q, t, task);
  }

  lemma BeginDequeueEffect(q: Queue, t: Tid)
    requires Inv(q) && ThreadInv(q, t, Idle)
    ensures var (q', op') := Exec(q, t, Idle, Begin(Dequeue)); Effect(q, t, Idle, q', op')
  {
    StepKeeps(q, t, Idle, Begin(Dequeue));
  }
}
