/**
 The wake-up protocol of internal/netpoll/epoll_default_poller.go: any number of producers in
 Trigger or UrgentTrigger, one poller in Polling, two lock-free queues, the wakeupCall flag and
 the eventfd counter. Queue calls are the atomic steps of LockFreeQueue, so producers and the
 poller interleave inside Enqueue and Dequeue as well.

 A callback or task that calls Trigger on the poller's goroutine is a producer that happens to
 move only while the poller stands still; the model lets it move at any time.
 */
module Poller {
  import opened LockFreeQueue

  datatype Priority = Urgent | Low

  type Job = int   // a function and its argument

  const POLLER: Tid := 0
  const MAX_ASYNC_TASKS := 256
  const EVENTFD_MAX := 0xFFFF_FFFF_FFFF_FFFE

  /** Where a producer is in Trigger or UrgentTrigger. */
  datatype Producer =
    | Off
    | Prepared(prio: Priority, task: Task, job: Job)   // history: job is the argument of Trigger
    | Calling(prio: Priority, op: Op, job: Job)
    | AtCas
    | AtWrite

  /** Where the poller is in Polling. */
  datatype Pc =
    | Wait
    | Events(ready: bool)
    | Proc
    | Drain(prio: Priority, i: nat, op: Op)
    | Execute(prio: Priority, i: nat, task: Task)
    | Recycle(prio: Priority, i: nat, task: Task)
    | Store
    | CheckLow
    | CheckUrgent
    | Cas
    | Write
    | Exited(holding: bool)   // history: whether Polling returned in the middle of its chores

  /** history: where a Task object is */
  datatype Place = Pooled | Held(tid: Tid) | Queued(prio: Priority, rank: int)

  datatype RoundEvent = Ran(prio: Priority) | UrgentEmpty

  /** history: a round of chores, judged by the events it went through */
  datatype Round = UrgentRound | LowRound(count: nat) | OutOfOrder

  /**
   Urgent jobs first; low-priority jobs only after the urgent queue answered nil in this round,
   and at most MAX_ASYNC_TASKS of them. Anything else is out of order.
   */
  function Judge(round: Round, e: RoundEvent): Round {
    match round
    case UrgentRound =>
      if e == Ran(Urgent) then UrgentRound else if e == UrgentEmpty then LowRound(0) else OutOfOrder
    case LowRound(n) => if e == Ran(Low) && n < MAX_ASYNC_TASKS then LowRound(n + 1) else OutOfOrder
    case OutOfOrder => OutOfOrder
  }

  /** The Task objects and what became of the jobs they carry. */
  datatype Ledger = Ledger(
    pool: set<Task>,           // taskPool
    next: Task,                // the object that new(Task) returns next
    jobs: map<Task, Job>,      // Run and Arg of the objects that have them set
    place: map<Task, Place>,   // history
    urgent: Trail,             // history
    low: Trail)                // history

  /** history: how many events each queue had logged and how many low-priority jobs had run */
  datatype Mark = Mark(urgentEvents: nat, lowEvents: nat, lowRan: nat)

  /** history: jobs of one queue in link order, and in the order in which they ran */
  datatype Trail = Trail(submitted: seq<Job>, ran: seq<Job>)

  datatype State = State(
    urgent: Queue,
    low: Queue,
    producers: map<Tid, Producer>,
    pc: Pc,
    doChores: bool,
    wakeupCall: int,
    efd: nat,
    ledger: Ledger,
    round: Round,             // history: the current round of chores
    begun: Mark,              // history: where things stood when it began
    failed: bool,             // history: a producer's eventfd write failed
    flooded: bool)            // history: a queue once held 2^32 tasks

  datatype Choice =
    | Go
    | Submit(prio: Priority, job: Job, reuse: Task)   // call Trigger; GetTask may find reuse in the pool
    | WriteError                                      // write(efd) fails with something else than EAGAIN
    | Ready                                           // epoll_wait reports the eventfd
    | Stop                                            // an error or a shutdown request ends Polling

  datatype Action =
    | Produce(tid: Tid, choice: Choice)
    | Poll(choice: Choice)
    | Collect(task: Task)                             // sync.Pool drops an object

  function Q(s: State, p: Priority): Queue {
    if p.Urgent? then s.urgent else s.low
  }

  function WithQ(s: State, p: Priority, q: Queue): State {
    if p.Urgent? then s.(urgent := q) else s.(low := q)
  }

  function TrailOf(l: Ledger, p: Priority): Trail {
    if p.Urgent? then l.urgent else l.low
  }

  function WithTrail(l: Ledger, p: Priority, t: Trail): Ledger {
    if p.Urgent? then l.(urgent := t) else l.(low := t)
  }

  function JobOf(l: Ledger, task: Task): Job {
    if task in l.jobs then l.jobs[task] else 0
  }

  function Other(p: Priority): Priority {
    if p.Urgent? then Low else Urgent
  }

  /** Tasks linked and not yet removed. */
  function Size(q: Queue): int {
    |q.chain| - 1 - q.taken
  }

  function Boot(tids: set<Tid>): State {
    State(Fresh(), Fresh(), map t | t in tids && t != POLLER :: Off, Wait, false, 0, 0,
          Ledger({}, 0, map[], map[], Trail([], []), Trail([], [])), UrgentRound, Mark(0, 0, 0), false, false)
  }

  predicate FreshQueue(q: Queue) {
    && |q.heap| == 1 && q.heap[0].next == NIL && q.heap[0].pos == 0
    && |q.chain| == 1 && q.chain[0] == 0 && q.head == 0 && q.tail == 0 && q.length == 0
    && q.taken == 0 && q.swung == 0 && q.entering == {} && q.leaving == {} && |q.events| == 0
  }

  /** OpenPoller has returned, Polling is about to wait, and no producer is inside Trigger. */
  predicate Init(s: State) {
    && FreshQueue(s.urgent) && FreshQueue(s.low)
    && POLLER !in s.producers && (forall t :: t in s.producers ==> s.producers[t] == Off)
    && s.pc == Wait && !s.doChores && s.wakeupCall == 0 && s.efd == 0
    && s.ledger.pool == {} && |s.ledger.place| == 0
    && s.begun == Mark(0, 0, 0)
    && |s.ledger.urgent.submitted| == |s.ledger.urgent.ran| == |s.ledger.low.submitted| == |s.ledger.low.ran| == 0
    && s.round == UrgentRound && !s.failed && !s.flooded
  }

  lemma BootIsInit(tids: set<Tid>)
    ensures Init(Boot(tids))
  {
  }

  /** write(efd, 1): a full counter answers EAGAIN and stays readable. */
  function Signal(efd: nat): nat {
    if efd < EVENTFD_MAX then efd + 1 else efd
  }

  function GetTask(l: Ledger, reuse: Task): (Ledger, Task) {
    if reuse in l.pool then (l.(pool := l.pool - {reuse}), reuse) else (l.(next := l.next + 1), l.next)
  }

  /** task := GetTask(); task.Run, task.Arg = fn, arg */
  function Fill(l: Ledger, t: Tid, job: Job, reuse: Task): (Ledger, Task) {
    var (l1, task) := GetTask(l, reuse);
    (l1.(jobs := l1.jobs[task := job], place := l1.place[task := Held(t)]), task)
  }

  function PutTask(l: Ledger, task: Task): Ledger {
    l.(jobs := l.jobs - {task}, pool := l.pool + {task}, place := l.place[task := Pooled])
  }

  function RunJob(l: Ledger, p: Priority, task: Task): Ledger {
    var trail := TrailOf(l, p);
    WithTrail(l, p, trail.(ran := trail.ran + [JobOf(l, task)]))
  }

  /** history: a queue step of thread t, called with job, moved a task into or out of queue p */
  function Track(l: Ledger, p: Priority, t: Tid, q: Queue, op: Op, op': Op, job: Job): Ledger {
    if op.ELink? && op'.ESwing? then
      var task := ValueIn(q.heap, op.n);
      var trail := TrailOf(l, p);
      WithTrail(l.(place := l.place[task := Queued(p, |q.chain|)]), p,
                trail.(submitted := trail.submitted + [job]))
    else if op.DSwing? && op'.DDecrement? then l.(place := l.place[op.task := Held(t)])
    else l
  }

  function AfterCall(s: State, p: Priority, t: Tid, op: Op, q': Queue, op': Op, job: Job): State {
    WithQ(s, p, q').(ledger := Track(s.ledger, p, t, Q(s, p), op, op', job))
  }

  function SetProducer(s: State, t: Tid, pr: Producer): State {
    s.(producers := s.producers[t := pr])
  }

  /** The job a producer is submitting. */
  function JobIn(pr: Producer): Job {
    if pr.Prepared? || pr.Calling? then pr.job else 0
  }

  function ProducerStep(s: State, t: Tid, c: Choice): State
    requires t in s.producers
  {
    match s.producers[t]
    case Off =>
      if c.Submit? then
        var (l, task) := Fill(s.ledger, t, c.job, c.reuse);
        SetProducer(s.(ledger := l), t, Prepared(c.prio, task, c.job))
      else s
    case Prepared(p, task, job) =>
      var (q', op') := Exec(Q(s, p), t, Idle, Begin(Enqueue(task)));
      SetProducer(WithQ(s, p, q'), t, Calling(p, op', job))
    case Calling(p, op, job) =>
      if op.Returned? then SetProducer(s, t, AtCas) else
      var (q', op') := Exec(Q(s, p), t, op, Proceed);
      SetProducer(AfterCall(s, p, t, op, q', op', job), t, Calling(p, op', job))
    case AtCas =>
      if s.wakeupCall == 0 then SetProducer(s.(wakeupCall := 1), t, AtWrite) else SetProducer(s, t, Off)
    case AtWrite =>
      if c.WriteError? then SetProducer(s.(failed := true), t, Off)
      else SetProducer(s.(efd := Signal(s.efd)), t, Off)
  }

  function DrainMove(op: Op): Move {
    if op.Idle? then Begin(Dequeue) else Proceed
  }

  /** The poller's next Dequeue step on queue p. */
  function DrainStep(s: State, p: Priority, i: nat, op: Op): State {
    var (q', op') := Exec(Q(s, p), POLLER, op, DrainMove(op));
    AfterCall(s, p, POLLER, op, q', op', 0).(pc := Drain(p, i, op'))
  }

  /** What the poller does with the answer of Dequeue. */
  function AfterDequeue(s: State, p: Priority, i: nat, r: Result): State {
    if r.Got? then s.(pc := Execute(p, i, r.task))
    else if p.Urgent? then s.(pc := Drain(Low, 0, Idle), round := Judge(s.round, UrgentEmpty))
    else s.(pc := Store)
  }

  function AfterRecycle(p: Priority, i: nat): Pc {
    if p.Urgent? then Drain(Urgent, 0, Idle) else if i + 1 < MAX_ASYNC_TASKS then Drain(Low, i + 1, Idle) else Store
  }

  /** history: a new round of chores */
  function BeginRound(s: State): State {
    s.(round := UrgentRound, begun := Mark(|s.urgent.events|, |s.low.events|, |s.ledger.low.ran|))
  }

  function PollerStep(s: State, c: Choice): State {
    match s.pc
    case Wait => if c.Stop? then s.(pc := Exited(false)) else s.(pc := Events(c.Ready? && s.efd > 0))
    case Events(ready) =>
      if c.Stop? then s.(pc := Exited(false))
      else if ready then s.(doChores := true, efd := 0, pc := Events(false))
      else s.(pc := Proc)
    case Proc =>
      if c.Stop? then s.(pc := Exited(false))
      else if s.doChores then BeginRound(s.(doChores := false, pc := Drain(Urgent, 0, Idle)))
      else s.(pc := Wait)
    case Drain(p, i, op) => if op.Returned? then AfterDequeue(s, p, i, op.result) else DrainStep(s, p, i, op)
    case Execute(p, i, task) =>
      s.(ledger := RunJob(s.ledger, p, task), round := Judge(s.round, Ran(p)),
         pc := if c.Stop? then Exited(true) else Recycle(p, i, task))
    case Recycle(p, i, task) => s.(ledger := PutTask(s.ledger, task), pc := AfterRecycle(p, i))
    case Store => s.(wakeupCall := 0, pc := CheckLow)
    case CheckLow => s.(pc := if s.low.length != 0 then Cas else CheckUrgent)
    case CheckUrgent => s.(pc := if s.urgent.length != 0 then Cas else Wait)
    case Cas => if s.wakeupCall == 0 then s.(wakeupCall := 1, pc := Write) else s.(pc := Wait)
    case Write =>
      if c.WriteError? then s.(doChores := true, pc := Wait) else s.(efd := Signal(s.efd), pc := Wait)
    case Exited(_) => s
  }

  function CollectStep(l: Ledger, task: Task): Ledger {
    if task in l.pool then l.(pool := l.pool - {task}, place := l.place - {task}) else l
  }

  function Step(s: State, a: Action): State {
    match a
    case Produce(t, c) => if t in s.producers then ProducerStep(s, t, c) else s
    case Poll(c) => PollerStep(s, c)
    case Collect(task) => s.(ledger := CollectStep(s.ledger, task))
  }

  predicate Flooded(s: State) {
    Size(s.urgent) >= TWO32 || Size(s.low) >= TWO32
  }

  function Next(s: State, a: Action): State {
    var s' := Step(s, a);
    s'.(flooded := s.flooded || Flooded(s'))
  }

  function Run(s: State, actions: seq<Action>): State
    decreases |actions|
  {
    if actions == [] then s else Run(Next(s, actions[0]), actions[1..])
  }
}
