/**
 Whole runs of the lock-free queue: any set of threads, any schedule, any mix of calls.
 */
module QueueRuns {
  import opened LockFreeQueue

  datatype System = System(queue: Queue, threads: map<Tid, Op>)

  datatype Turn = Turn(tid: Tid, move: Move)

  function Start(tids: set<Tid>): System {
    System(Fresh(), map t | t in tids :: Idle)
  }

  function TakeTurn(s: System, turn: Turn): System {
    if turn.tid !in s.threads then s else
    var (q, op) := Exec(s.queue, turn.tid, s.threads[turn.tid], turn.move);
    System(q, s.threads[turn.tid := op])
  }

  function Run(s: System, schedule: seq<Turn>): System
    decreases |schedule|
  {
    if schedule == [] then s else Run(TakeTurn(s, schedule[0]), schedule[1..])
  }

  /** Threads between their link and their increment of length. */
  function Linking(s: System): set<Tid> {
    set t | t in s.threads && (s.threads[t].ESwing? || s.threads[t].EIncrement?)
  }

  /** Threads between their head swing and their decrement of length. */
  function Unlinking(s: System): set<Tid> {
    set t | t in s.threads && s.threads[t].DDecrement?
  }

  ghost predicate SystemInv(s: System) {
    && Inv(s.queue)
    && (forall t :: t in s.threads ==> ThreadInv(s.queue, t, s.threads[t]))
    && (forall t :: t !in s.threads ==> View(s.queue.events, t) == Resting)
    && s.queue.entering == Linking(s)
    && s.queue.leaving == Unlinking(s)
  }

  lemma StartInv(tids: set<Tid>)
    ensures SystemInv(Start(tids))
  {
    var q := Fresh();
    assert Values(q.heap, q.chain, 1) == [];
    assert forall i :: NodeOk(q.heap, q.chain, i);
    assert forall a :: RankOk(q.heap, q.chain, a);
  }

  lemma TurnKeepsInv(s: System, turn: Turn)
    requires SystemInv(s)
    ensures SystemInv(TakeTurn(s, turn))
  {
    var t := turn.tid;
    if t in s.threads {
      var s' := TakeTurn(s, turn);
      StepKeeps(s.queue, t, s.threads[t], turn.move);
      forall u | u in s'.threads && u != t ensures ThreadInv(s'.queue, u, s'.threads[u]) {
        StableUnderOthers(s.queue, s'.queue, t, u, s.threads[u]);
      }
      assert ThreadInv(s'.queue, t, s'.threads[t]);
      forall u ensures u in s'.queue.entering <==> u in Linking(s') {
        assert u != t ==> (u in s.queue.entering <==> u in s'.queue.entering);
      }
      forall u ensures u in s'.queue.leaving <==> u in Unlinking(s') {
        assert u != t ==> (u in s.queue.leaving <==> u in s'.queue.leaving);
      }
    }
  }

  lemma {:induction false} RunKeepsInv(s: System, schedule: seq<Turn>)
    requires SystemInv(s)
    ensures SystemInv(Run(s, schedule))
    decreases |schedule|
  {
    if schedule != [] {
      TurnKeepsInv(s, schedule[0]);
      RunKeepsInv(TakeTurn(s, schedule[0]), schedule[1..]);
    }
  }

  /**
   Linearizability. In every interleaving the linearization events form a legal history of a
   sequential FIFO queue, and every thread's calls are answered exactly by their own events:
   an Enqueue by one Link, a Dequeue that returns a task by one Take of that task, a Dequeue
   that returns nil by a moment inside the call at which the queue was empty.
   */
  lemma Linearizable(tids: set<Tid>, schedule: seq<Turn>)
    ensures var q := Run(Start(tids), schedule).queue;
      && Replay(q.events) == Holds(Pending(q))
      && forall t :: View(q.events, t) != IllFormed
  {
    StartInv(tids);
    RunKeepsInv(Start(tids), schedule);
  }

  /** Tasks leave in exactly the order in which they were linked, each link at most once. */
  lemma DequeuedIsPrefixOfLinked(tids: set<Tid>, schedule: seq<Turn>)
    ensures var q := Run(Start(tids), schedule).queue;
      && Links(q.events) == Takes(q.events) + Pending(q)
      && Takes(q.events) <= Links(q.events)
  {
    Linearizable(tids, schedule);
    ReplayIsFifo(Run(Start(tids), schedule).queue.events);
  }

  /** No thread ever dereferences nil; head never passes tail; tail lags by at most one node. */
  lemma MemorySafe(tids: set<Tid>, schedule: seq<Turn>)
    ensures var s := Run(Start(tids), schedule);
      && (forall t :: t in s.threads ==> !s.threads[t].Crashed?)
      && s.queue.taken <= s.queue.swung < |s.queue.chain| <= s.queue.swung + 2
      && s.queue.head == s.queue.chain[s.queue.taken]
      && s.queue.tail == s.queue.chain[s.queue.swung]
  {
    StartInv(tids);
    RunKeepsInv(Start(tids), schedule);
  }

  /** The 32-bit counter is the queue's size, off by exactly the calls that are in flight. */
  lemma LengthAccounting(tids: set<Tid>, schedule: seq<Turn>)
    ensures var s := Run(Start(tids), schedule);
      s.queue.length == Wrap32(|Pending(s.queue)| - |Linking(s)| + |Unlinking(s)|)
  {
    StartInv(tids);
    RunKeepsInv(Start(tids), schedule);
  }

  predicate IsEmpty(q: Queue) {
    q.length == 0
  }

  /**
   IsEmpty may answer true while tasks are queued, but only while some Enqueue has linked its
   task and not yet counted it, or a Dequeue is in flight, or 2^32 tasks are queued.
   */
  lemma WrongEmptyNeedsCallInFlight(tids: set<Tid>, schedule: seq<Turn>)
    ensures var s := Run(Start(tids), schedule);
      IsEmpty(s.queue) && 0 < |Pending(s.queue)| < TWO32 && Unlinking(s) == {} ==> Linking(s) != {}
  {
    LengthAccounting(tids, schedule);
  }

  /** The counter does lag: one Enqueue between its link and its increment makes IsEmpty wrong. */
  lemma EmptyCanBeWrong()
    ensures var s := Run(Start({7}), [Turn(7, Begin(Enqueue(5)))] + seq(4, _ => Turn(7, Proceed)));
      IsEmpty(s.queue) && Pending(s.queue) == [5]
  {
    var p := Turn(7, Proceed);
    assert [Turn(7, Begin(Enqueue(5)))] + seq(4, _ => p) == [Turn(7, Begin(Enqueue(5))), p, p, p, p];
    var s0 := Start({7});
    var s1 := TakeTurn(s0, Turn(7, Begin(Enqueue(5))));
    var s2 := TakeTurn(s1, p);
    var s3 := TakeTurn(s2, p);
    var s4 := TakeTurn(s3, p);
    var s5 := TakeTurn(s4, p);
    assert Run(s4, [p]) == s5;
    assert Run(s3, [p, p]) == s5;
    assert Run(s2, [p, p, p]) == s5;
    assert Run(s1, [p, p, p, p]) == s5;
    assert s5.queue.chain == [0, 1];
    assert Values(s5.queue.heap, s5.queue.chain, 2) == [];
  }
}
