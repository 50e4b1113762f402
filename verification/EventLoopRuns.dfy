/**
 Whole runs of the event loop: any list of registrations, tasks queued by other goroutines and
 I/O events, in any order. A run is summed up by its trace, which shows every connection before
 and after every task; conservation, close and the fate of stale tasks are proved of all traces.
 */
module EventLoopRuns {
  import opened Bytes
  import opened EventLoop
  import Inbound
  import Traffic

  /** What the loop is asked to do; the handlers' answers come with it. */
  datatype Task =
    | Enlist(c: Conn, reply: Reply, action: Action)   // a descriptor fresh from accept
    | QueuedWrite(c: Conn, data: seq<byte>)
    | QueuedWritev(c: Conn, bs: seq<seq<byte>>)
    | QueuedWake(c: Conn, deeds: seq<Deed>, action: Action)
    | QueuedClose(c: Conn)
    | WriteReady(fd: nat)
    | ReadReady(fd: nat, input: Input, deeds: seq<Deed>, action: Action)

  /** An event names a descriptor, everything else a connection. */
  predicate IsEvent(task: Task) {
    task.WriteReady? || task.ReadReady?
  }

  /** The task names c; an event names whoever has the descriptor. */
  predicate Names(task: Task, c: Conn) {
    if IsEvent(task) then task.fd == c.fd else task.c == c
  }

  /** The bytes a task hands to an open connection. */
  function Offered(task: Task): seq<byte> {
    match task
    case QueuedWrite(_, data) => data
    case QueuedWritev(_, bs) => Flatten(bs)
    case QueuedWake(_, deeds, _) => GivenAll(deeds)
    case ReadReady(_, input, deeds, _) => if input.Again? || Lost(input) then [] else GivenAll(deeds)
    case _ => []
  }

  predicate AsksClose(task: Task) {
    match task
    case QueuedWake(_, _, action) => action == Close
    case QueuedClose(_) => true
    case ReadReady(_, input, _, action) => Lost(input) || (!input.Again? && action == Close)
    case _ => false
  }

  /** The inbound side after a task for an open connection. */
  function BoxAfter(task: Task, box: Inbound.Inbox): Inbound.Inbox {
    match task
    case QueuedWake(_, deeds, _) => Took(box, Calls(deeds))
    case ReadReady(_, input, deeds, action) =>
      if input.Again? || Lost(input) then box else ReadBox(box, input.bytes, Calls(deeds), action)
    case _ => box
  }

  /** ... and after many. */
  function BoxAll(c: Conn, tasks: seq<Task>, box: Inbound.Inbox): Inbound.Inbox {
    if tasks == [] then box else
    var before := BoxAll(c, tasks[..|tasks| - 1], box);
    var last := tasks[|tasks| - 1];
    if Names(last, c) then BoxAfter(last, before) else before
  }

  /** All bytes that tasks hand to c. */
  function OfferedTo(c: Conn, tasks: seq<Task>): seq<byte> {
    if tasks == [] then [] else
    var last := tasks[|tasks| - 1];
    OfferedTo(c, tasks[..|tasks| - 1]) + if Names(last, c) then Offered(last) else []
  }

  // ---------------------------------------------------------------------------------------
  // Traces
  // ---------------------------------------------------------------------------------------

  type Scene = map<Conn, Snap>

  /** No open connection has the descriptor. */
  ghost predicate Free(m: Scene, fd: nat) {
    forall d :: d in m && d.fd == fd ==> !m[d].isOpen
  }

  /** What a task may make of the connection it names. */
  predicate Moves(task: Task, free: bool, s: Snap, t: Snap) {
    if task.Enlist? then
      if s.Untouched() && free then Enlisted(s, ReplyBytes(task.reply), task.action, t) else t == s
    else if s.isOpen then
      Accounted(s, Offered(task), BoxAfter(task, s.inbox), AsksClose(task), t)
    else
      t == s
  }

  ghost predicate Step(task: Task, m: Scene, m': Scene) {
    && m'.Keys == m.Keys
    && forall c :: c in m ==>
      if Names(task, c) then Moves(task, Free(m, c.fd), m[c], m'[c]) else m'[c] == m[c]
  }

  ghost predicate StepAt(tasks: seq<Task>, trace: seq<Scene>, i: nat)
    requires i < |tasks| && |trace| == |tasks| + 1
  {
    Step(tasks[i], trace[i], trace[i + 1])
  }

  ghost predicate Trace(tasks: seq<Task>, trace: seq<Scene>) {
    |trace| == |tasks| + 1 && forall i :: 0 <= i < |tasks| ==> StepAt(tasks, trace, i)
  }

  lemma {:induction false} SameConns(tasks: seq<Task>, trace: seq<Scene>, c: Conn, i: nat)
    requires Trace(tasks, trace) && c in trace[0] && i < |trace|
    ensures c in trace[i]
  {
    if i > 0 {
      SameConns(tasks, trace, c, i - 1);
      assert StepAt(tasks, trace, i - 1);
    }
  }

  /** What happens to one connection in one step. */
  lemma OneStep(tasks: seq<Task>, trace: seq<Scene>, c: Conn, i: nat)
    requires Trace(tasks, trace) && c in trace[0] && i < |tasks|
    ensures c in trace[i] && c in trace[i + 1]
    ensures if Names(tasks[i], c) then Moves(tasks[i], Free(trace[i], c.fd), trace[i][c], trace[i + 1][c])
            else trace[i + 1][c] == trace[i][c]
  {
    SameConns(tasks, trace, c, i);
    assert StepAt(tasks, trace, i);
  }

  /**
   A closed connection stays as it is, whatever is still queued for it: no byte is sent, nothing
   is armed and no system call of any kind is made, so whoever owns its descriptor by now is not
   affected.
   */
  lemma {:induction false} StaleTasksDoNothing(tasks: seq<Task>, trace: seq<Scene>, c: Conn, i: nat, j: nat)
    requires Trace(tasks, trace) && c in trace[0] && i <= j < |trace|
    requires c in trace[i] && trace[i][c].Dead()
    ensures c in trace[j] && trace[j][c] == trace[i][c]
    decreases j - i
  {
    if i < j {
      OneStep(tasks, trace, c, i);
      StaleTasksDoNothing(tasks, trace, c, i + 1, j);
    }
  }

  lemma OneMoreTask(c: Conn, tasks: seq<Task>, i: nat, j: nat, box: Inbound.Inbox)
    requires i <= j < |tasks|
    ensures OfferedTo(c, tasks[i..j + 1]) == OfferedTo(c, tasks[i..j]) + if Names(tasks[j], c) then Offered(tasks[j]) else []
    ensures var before := BoxAll(c, tasks[i..j], box);
      BoxAll(c, tasks[i..j + 1], box) == if Names(tasks[j], c) then BoxAfter(tasks[j], before) else before
  {
    assert tasks[i..j + 1][..j - i] == tasks[i..j];
  }

  /** A connection that is open before and after: its output grew by data, its inbound side is box. */
  predicate Carried(s: Snap, data: seq<byte>, box: Inbound.Inbox, t: Snap) {
    t.isOpen && Traffic.Accepted(s.out, data, false, t.out) && t.inbox == box
  }

  lemma CarriedOn(s: Snap, data: seq<byte>, box: Inbound.Inbox, t: Snap, more: seq<byte>, box': Inbound.Inbox, asked: bool, u: Snap)
    requires Carried(s, data, box, t) && u.isOpen
    requires (u == t && more == [] && box' == box) || Accounted(t, more, box', asked, u)
    ensures Carried(s, data + more, box', u)
  {
    if u == t && more == [] && box' == box {
      assert data + [] == data;
    } else {
      Traffic.AcceptedOn(s.out, data, t.out, more, false, u.out);
    }
  }

  /** Closed in the step from t to u, having been open since s. */
  predicate Finished(s: Snap, data: seq<byte>, t: Snap, asked: bool, u: Snap) {
    && u.Dead() && s.Sent() <= u.Sent() <= s.Stream() + data
    && (asked || u.Log().fatals > t.Log().fatals)
    && (u.Log().failures == t.Log().failures ==> u.Sent() == s.Stream() + data)
  }

  lemma FinishedNow(s: Snap, data: seq<byte>, box: Inbound.Inbox, t: Snap, more: seq<byte>, box': Inbound.Inbox, asked: bool, u: Snap)
    requires Carried(s, data, box, t) && !u.isOpen && Accounted(t, more, box', asked, u)
    ensures Finished(s, data + more, t, asked, u)
  {
    Assoc(s.Stream(), data, more);
  }

  /** c, open at moment i, was closed by task k and is the same ever since, up to moment j. */
  ghost predicate ClosedBy(tasks: seq<Task>, trace: seq<Scene>, c: Conn, i: nat, k: nat, j: nat)
    requires i <= j < |trace| == |tasks| + 1 && c in trace[i] && c in trace[j]
  {
    && i <= k < j && Names(tasks[k], c)
    && c in trace[k] && Carried(trace[i][c], OfferedTo(c, tasks[i..k]), BoxAll(c, tasks[i..k], trace[i][c].inbox), trace[k][c])
    && c in trace[k + 1] && trace[j][c] == trace[k + 1][c]
    && Finished(trace[i][c], OfferedTo(c, tasks[i..k + 1]), trace[k][c], AsksClose(tasks[k]), trace[k + 1][c])
  }

  ghost predicate Conserved(tasks: seq<Task>, trace: seq<Scene>, c: Conn, i: nat, j: nat)
    requires i <= j < |trace| == |tasks| + 1 && c in trace[i] && c in trace[j]
  {
    if trace[j][c].isOpen then Carried(trace[i][c], OfferedTo(c, tasks[i..j]), BoxAll(c, tasks[i..j], trace[i][c].inbox), trace[j][c])
    else exists k :: ClosedBy(tasks, trace, c, i, k, j)
  }

  /**
   Conservation for every connection over every run. From an open connection on, as long as it
   is open, sent followed by buffered grows by exactly the bytes handed to it, and it is attended
   unless the poller refused. Otherwise there is one step in which it was closed, because it was
   asked to or because a write failed for good; then sent is a prefix of the bytes handed over up
   to that step, all of them if no write failed in it, and nothing changes afterwards.
   */
  lemma {:induction false} Conservation(tasks: seq<Task>, trace: seq<Scene>, c: Conn, i: nat, j: nat)
    requires Trace(tasks, trace) && c in trace[0] && i <= j < |trace|
    requires c in trace[i] && trace[i][c].isOpen
    ensures c in trace[j] && Conserved(tasks, trace, c, i, j)
    decreases j - i
  {
    if i == j {
      ConservedNow(tasks, trace, c, i);
    } else {
      Conservation(tasks, trace, c, i, j - 1);
      ConservationStep(tasks, trace, c, i, j - 1, j);
    }
  }

  lemma ConservedNow(tasks: seq<Task>, trace: seq<Scene>, c: Conn, i: nat)
    requires i < |trace| == |tasks| + 1 && c in trace[i] && trace[i][c].isOpen
    ensures Conserved(tasks, trace, c, i, i)
  {
    var s := trace[i][c];
    assert tasks[i..i] == [];
    Traffic.AcceptedNothing(s.out);
  }

  lemma ConservationStep(tasks: seq<Task>, trace: seq<Scene>, c: Conn, i: nat, j: nat, j': nat)
    requires Trace(tasks, trace) && c in trace[0] && i <= j < |tasks| && j' == j + 1
    requires c in trace[i] && trace[i][c].isOpen && c in trace[j] && Conserved(tasks, trace, c, i, j)
    ensures c in trace[j'] && Conserved(tasks, trace, c, i, j')
  {
    OneStep(tasks, trace, c, j);
    OneMoreTask(c, tasks, i, j, trace[i][c].inbox);
    var s, t, u := trace[i][c], trace[j][c], trace[j'][c];
    var data, more := OfferedTo(c, tasks[i..j]), if Names(tasks[j], c) then Offered(tasks[j]) else [];
    var box, box' := BoxAll(c, tasks[i..j], s.inbox), BoxAll(c, tasks[i..j + 1], s.inbox);
    if !t.isOpen {
      var k :| ClosedBy(tasks, trace, c, i, k, j);
      assert ClosedBy(tasks, trace, c, i, k, j');
    } else if u.isOpen {
      CarriedOn(s, data, box, t, more, box', AsksClose(tasks[j]), u);
    } else {
      FinishedNow(s, data, box, t, more, box', AsksClose(tasks[j]), u);
      assert ClosedBy(tasks, trace, c, i, j, j');
    }
  }

  /** Task i registered the connection, which nothing had changed before. */
  ghost predicate EnlistedBy(tasks: seq<Task>, trace: seq<Scene>, c: Conn, i: nat, j: nat)
    requires j < |trace| == |tasks| + 1 && c in trace[0]
  {
    && i < j && tasks[i].Enlist? && tasks[i].c == c && c in trace[i] && c in trace[i + 1]
    && trace[i][c] == trace[0][c] && Free(trace[i], c.fd)
    && Enlisted(trace[0][c], ReplyBytes(tasks[i].reply), tasks[i].action, trace[i + 1][c])
  }

  /** A new connection stays untouched until it is registered, under a descriptor not in use. */
  lemma {:induction false} Birth(tasks: seq<Task>, trace: seq<Scene>, c: Conn, j: nat)
    requires Trace(tasks, trace) && c in trace[0] && j < |trace| && trace[0][c].Untouched()
    ensures c in trace[j]
    ensures trace[j][c] == trace[0][c] || exists i :: EnlistedBy(tasks, trace, c, i, j)
  {
    if j > 0 {
      Birth(tasks, trace, c, j - 1);
      OneStep(tasks, trace, c, j - 1);
      if trace[j - 1][c] == trace[0][c] {
        if trace[j][c] != trace[0][c] {
          assert EnlistedBy(tasks, trace, c, j - 1, j);
        }
      } else {
        var i :| EnlistedBy(tasks, trace, c, i, j - 1);
        assert EnlistedBy(tasks, trace, c, i, j);
      }
    }
  }

  // ---------------------------------------------------------------------------------------
  // Inbound conservation
  // ---------------------------------------------------------------------------------------

  /** The bytes a task brings in. */
  function Incoming(task: Task): seq<byte> {
    if task.ReadReady? && task.input.Arrived? then task.input.bytes else []
  }

  /** All bytes that arrive for c. */
  function Received(c: Conn, tasks: seq<Task>): seq<byte> {
    if tasks == [] then [] else
    var last := tasks[|tasks| - 1];
    Received(c, tasks[..|tasks| - 1]) + if Names(last, c) then Incoming(last) else []
  }

  /**
   The bytes a task consumes of those that wait and arrive. A wake may also consume what it sees
   a second time in buffer; that is not counted here, and it does not touch what waits.
   */
  function Eaten(task: Task, box: Inbound.Inbox): seq<byte> {
    match task
    case QueuedWake(_, deeds, _) =>
      box.waiting[..Min(|Traffic.Handle(box.All(), Calls(deeds)).consumed|, |box.waiting|)]
    case ReadReady(_, input, deeds, _) =>
      if input.Again? || Lost(input) then [] else Traffic.Handle(box.waiting + input.bytes, Calls(deeds)).consumed
    case _ => []
  }

  /** All bytes that the handlers of c consume, from the inbound side box on. */
  function EatenAll(c: Conn, tasks: seq<Task>, box: Inbound.Inbox): seq<byte> {
    if tasks == [] then [] else
    var before, last := tasks[..|tasks| - 1], tasks[|tasks| - 1];
    EatenAll(c, before, box) + if Names(last, c) then Eaten(last, BoxAll(c, before, box)) else []
  }

  /** What the handler of a read event leaves goes to inboundBuffer. */
  predicate Stows(task: Task) {
    task.ReadReady? && task.input.Arrived? && !Lost(task.input) ==> task.action == None
  }

  /** A handler that asks for a shutdown leaves the new bytes of its read event behind. */
  predicate AsksShutdown(task: Task) {
    task.ReadReady? && task.action == Shutdown
  }

  /** Who is open afterwards was not asked to close. */
  lemma NotAsked(tasks: seq<Task>, trace: seq<Scene>, c: Conn, i: nat, j: nat, k: nat)
    requires Trace(tasks, trace) && c in trace[0] && i <= k < j < |trace|
    requires c in trace[i] && trace[i][c].isOpen && c in trace[j] && trace[j][c].isOpen
    ensures Names(tasks[k], c) ==> !AsksClose(tasks[k])
  {
    Conservation(tasks, trace, c, i, k + 1);
    OneStep(tasks, trace, c, k);
    if !trace[k + 1][c].isOpen {
      StaleTasksDoNothing(tasks, trace, c, k + 1, j);
    }
  }

  lemma EatenOnce(task: Task, box: Inbound.Inbox)
    requires Stows(task)
    ensures Eaten(task, box) + BoxAfter(task, box).waiting == box.waiting + Incoming(task)
  {
    if task.ReadReady? && task.input.Arrived? && !Lost(task.input) {
      var h := Traffic.Handle(box.waiting + task.input.bytes, Calls(task.deeds));
      assert Took(Inbound.Inbox(box.waiting, task.input.bytes), Calls(task.deeds)).All() == h.rest;
    } else if task.QueuedWake? {
      var k := |Traffic.Handle(box.All(), Calls(task.deeds)).consumed|;
      assert BoxAfter(task, box).waiting == box.waiting[Min(k, |box.waiting|)..];
    }
  }

  /** What waits is what arrived and was not consumed, whatever wakes come in between. */
  lemma {:induction false} InboundLedger(c: Conn, tasks: seq<Task>, box: Inbound.Inbox)
    requires forall t :: t in tasks && Names(t, c) ==> Stows(t)
    ensures EatenAll(c, tasks, box) + BoxAll(c, tasks, box).waiting == box.waiting + Received(c, tasks)
    decreases |tasks|
  {
    if tasks != [] {
      var before, last := tasks[..|tasks| - 1], tasks[|tasks| - 1];
      InboundLedger(c, before, box);
      var mid := BoxAll(c, before, box);
      if Names(last, c) {
        EatenOnce(last, mid);
        Rejoined(EatenAll(c, before, box), Eaten(last, mid), BoxAfter(last, mid).waiting, mid.waiting,
                 box.waiting, Received(c, before), Incoming(last));
      } else {
        assert EatenAll(c, before, box) + [] == EatenAll(c, before, box) && Received(c, before) + [] == Received(c, before);
      }
    }
  }

  lemma Rejoined(eaten: seq<byte>, e: seq<byte>, after: seq<byte>, mid: seq<byte>, first: seq<byte>, received: seq<byte>, incoming: seq<byte>)
    requires eaten + mid == first + received && e + after == mid + incoming
    ensures eaten + e + after == first + (received + incoming)
  {
    assert eaten + e + after == eaten + (e + after) == eaten + mid + incoming;
  }

  /**
   Inbound conservation for every connection over every run, with queued writes and wakes between
   the read events: as long as it is open and no handler asked for a shutdown, the bytes consumed
   followed by inboundBuffer are the bytes that waited at first followed by those that arrived.
   */
  lemma InboundConservation(tasks: seq<Task>, trace: seq<Scene>, c: Conn, i: nat, j: nat)
    requires Trace(tasks, trace) && c in trace[0] && i <= j < |trace|
    requires c in trace[i] && trace[i][c].isOpen
    requires forall k :: i <= k < j && Names(tasks[k], c) ==> !AsksShutdown(tasks[k])
    ensures c in trace[j]
    ensures trace[j][c].isOpen ==>
      EatenAll(c, tasks[i..j], trace[i][c].inbox) + trace[j][c].inbox.waiting ==
        trace[i][c].inbox.waiting + Received(c, tasks[i..j])
  {
    Conservation(tasks, trace, c, i, j);
    if trace[j][c].isOpen {
      forall t | t in tasks[i..j] && Names(t, c) ensures Stows(t) {
        var k :| 0 <= k < j - i && tasks[i..j][k] == t;
        assert tasks[i + k] == t;
        NotAsked(tasks, trace, c, i, j, i + k);
      }
      InboundLedger(c, tasks[i..j], trace[i][c].inbox);
    }
  }

  // ---------------------------------------------------------------------------------------
  // The loop
  // ---------------------------------------------------------------------------------------

  /** One task for one connection. A queued task for a closed connection changes nothing at all. */
  method RunOn(loop: Loop, c: Conn, task: Task)
    requires loop.Ready(c) && Names(task, c) && (IsEvent(task) ==> c.isOpen)
    modifies loop, c.Repr
    ensures loop.Ready(c) && fresh(c.Repr - old(c.Repr))
    ensures Moves(task, c.fd !in old(loop.connections), old(c.Look()), c.Look())
    ensures !task.Enlist? && !old(c.isOpen) ==> unchanged(loop) && unchanged(old(c.Repr))
    ensures task.Enlist? || loop.connections == loop.Without(old(loop.connections), c, old(c.isOpen))
  {
    match task {
      case Enlist(_, reply, action) => RunEnlist(loop, c, reply, action);
      case QueuedWrite(_, data) => loop.AsyncWrite(c, data);
      case QueuedWritev(_, bs) => loop.AsyncWritev(c, bs);
      case QueuedWake(_, deeds, action) => var _ := loop.Wake(c, deeds, action);
      case QueuedClose(_) => var _ := loop.CloseConn(c);
      case _ => RunEvent(loop, c, task);
    }
  }

  /** The callback of the poller for an I/O event */
  method RunEvent(loop: Loop, c: Conn, task: Task)
    requires loop.Ready(c) && IsEvent(task) && c.isOpen
    modifies loop, c.Repr
    ensures loop.Ready(c) && fresh(c.Repr - old(c.Repr))
    ensures Accounted(old(c.Look()), Offered(task), BoxAfter(task, old(c.Look()).inbox), AsksClose(task), c.Look())
    ensures loop.connections == loop.Without(old(loop.connections), c, true)
  {
    if task.WriteReady? {
      loop.Writable(c);
    } else {
      NothingHappened(c.Look());
      var _ := loop.Read(c, task.input, task.deeds, task.action);
    }
  }

  /** The kernel hands out descriptors that are not in use, each connection once. */
  method RunEnlist(loop: Loop, c: Conn, reply: Reply, action: Action)
    requires loop.Ready(c)
    modifies loop, c.Repr
    ensures loop.Ready(c) && fresh(c.Repr - old(c.Repr))
    ensures if old(c.Look()).Untouched() && c.fd !in old(loop.connections)
            then Enlisted(old(c.Look()), ReplyBytes(reply), action, c.Look()) else c.Look() == old(c.Look())
  {
    var sock := c.out.sock;
    if !c.isOpen && c.fd !in loop.connections && c.out.IsEmpty() && !sock.registered && !sock.armed && !sock.closed {
      var _ := loop.Register(c, reply, action);
    }
  }

  /** The scene m is what the connections look like; they share no state, and world is all of it. */
  ghost predicate Stage(loop: Loop, world: set<object>, m: Scene)
    reads loop.conns, world
  {
    && loop !in world && m.Keys == loop.conns
    && (forall c :: c in loop.conns ==> c in world && c.Repr <= world && c.Valid() && c.Look() == m[c])
    && (forall c, d :: c in loop.conns && d in loop.conns && c != d ==> c.Repr !! d.Repr)
  }

  /** Everybody else: not in c's state, and as m shows them. */
  ghost predicate Aside(loop: Loop, c: Conn, others: set<Conn>, m: Scene)
    reads c, others, set d, o | d in others && o in d.Repr :: o
  {
    forall d :: d in others ==> d.Valid() && loop !in d.Repr && d.Repr !! c.Repr && d in m && d.Look() == m[d]
  }

  lemma Split(loop: Loop, world: set<object>, m: Scene, c: Conn, others: set<Conn>)
    requires Stage(loop, world, m) && c in loop.conns && others == loop.conns - {c}
    ensures loop.Apart(c) && c.Valid() && c.Look() == m[c] && Aside(loop, c, others, m)
  {
    forall d | d in others ensures d !in c.Repr {
      assert d.Valid();
    }
  }

  /** One task beside other connections, whose state is untouched. */
  method RunBeside(loop: Loop, c: Conn, task: Task, ghost others: set<Conn>, ghost m: Scene)
    requires loop.Ready(c) && Names(task, c) && (IsEvent(task) ==> c.isOpen) && Aside(loop, c, others, m)
    modifies loop, c.Repr
    ensures loop.Ready(c) && fresh(c.Repr - old(c.Repr))
    ensures Moves(task, c.fd !in old(loop.connections), old(c.Look()), c.Look())
    ensures Aside(loop, c, others, m) && forall d :: d in others ==> d.Repr == old(d.Repr)
  {
    RunOn(loop, c, task);
    forall d | d in others
      ensures d.Valid() && loop !in d.Repr && d.Repr == old(d.Repr) && d.Repr !! c.Repr && d in m && d.Look() == m[d]
    {
      assert old(d.Valid() && d.Repr !! c.Repr && d.Look() == m[d]);
      assert unchanged(d) && unchanged(old(d.Repr));
    }
  }

  lemma Rejoin(loop: Loop, c: Conn, others: set<Conn>, world: set<object>, world': set<object>, m: Scene, m': Scene)
    requires c in loop.conns && others == loop.conns - {c} && world' == world + c.Repr && m.Keys == loop.conns
    requires c.Valid() && loop !in c.Repr && loop !in world && Aside(loop, c, others, m) && m' == m[c := c.Look()]
    requires forall d :: d in others ==> d.Repr <= world
    requires forall d, e :: d in others && e in others && d != e ==> d.Repr !! e.Repr
    ensures Stage(loop, world', m')
  {
    forall d | d in loop.conns ensures d in world' && d.Repr <= world' && d.Valid() && d.Look() == m'[d] {
      assert d == c || d in others;
    }
    forall d, e | d in loop.conns && e in loop.conns && d != e ensures d.Repr !! e.Repr {
      assert (d == c || d in others) && (e == c || e in others);
    }
  }

  /** No two of the others share state, and all of it is in world. */
  ghost predicate Disjoint(others: set<Conn>, world: set<object>)
    reads others
  {
    && (forall d :: d in others ==> d.Repr <= world)
    && (forall d, e :: d in others && e in others && d != e ==> d.Repr !! e.Repr)
  }

  method RunAmong(loop: Loop, c: Conn, task: Task, ghost world: set<object>, ghost m: Scene)
    returns (ghost world': set<object>, ghost m': Scene)
    requires loop.Book() && Stage(loop, world, m) && c in loop.conns && Names(task, c) && (IsEvent(task) ==> c.isOpen)
    modifies loop, c.Repr
    ensures loop.Book() && Stage(loop, world', m') && fresh(world' - world)
    ensures m' == m[c := m'[c]] && Moves(task, c.fd !in old(loop.connections), m[c], m'[c])
  {
    ghost var others := loop.conns - {c};
    Split(loop, world, m, c, others);
    assert Disjoint(others, world);
    RunBeside(loop, c, task, others, m);
    assert Disjoint(others, world);
    world' := world + c.Repr;
    m' := m[c := c.Look()];
    Rejoin(loop, c, others, world, world', m, m');
  }

  lemma FreeIsUnlisted(loop: Loop, world: set<object>, m: Scene, fd: nat)
    requires loop.Book() && Stage(loop, world, m)
    ensures Free(m, fd) <==> fd !in loop.connections
  {
    if fd in loop.connections {
      assert loop.connections[fd] in m;
    }
  }

  /** Whoever else a task names is not open. */
  lemma OnlyOneNamed(loop: Loop, world: set<object>, m: Scene, task: Task, c: Conn)
    requires loop.Book() && Stage(loop, world, m) && c in loop.conns && Names(task, c) && (IsEvent(task) ==> c.isOpen)
    ensures forall d :: d in m && d != c && Names(task, d) ==> IsEvent(task) && !m[d].isOpen
  {
  }

  lemma StepOfOne(task: Task, c: Conn, m: Scene, m': Scene)
    requires c in m && c in m' && m' == m[c := m'[c]] && Names(task, c) && Moves(task, Free(m, c.fd), m[c], m'[c])
    requires forall d :: d in m && d != c && Names(task, d) ==> IsEvent(task) && !m[d].isOpen
    ensures Step(task, m, m')
  {
  }

  lemma StepOfNone(task: Task, m: Scene)
    requires IsEvent(task) && Free(m, task.fd)
    ensures Step(task, m, m)
  {
  }

  method RunTask(loop: Loop, task: Task, ghost world: set<object>, ghost m: Scene)
    returns (ghost world': set<object>, ghost m': Scene)
    requires loop.Book() && Stage(loop, world, m) && (IsEvent(task) || task.c in loop.conns)
    modifies loop, world
    ensures loop.Book() && Stage(loop, world', m') && fresh(world' - world) && Step(task, m, m')
  {
    if IsEvent(task) && task.fd !in loop.connections {
      FreeIsUnlisted(loop, world, m, task.fd);
      StepOfNone(task, m);
      return world, m;
    }
    var c := if IsEvent(task) then loop.connections[task.fd] else task.c;
    FreeIsUnlisted(loop, world, m, c.fd);
    OnlyOneNamed(loop, world, m, task, c);
    world', m' := RunAmong(loop, c, task, world, m);
    StepOfOne(task, c, m, m');
  }

  /**
   Any list of tasks, run in order. Whatever the kernel and the handlers answer, the books agree
   at the end: connCount, the size of the map and the number of open connections are equal. The
   run is one of the traces, so what is proved of those holds of it, for every connection; m and
   the last scene are the connections at the start and at the end.
   */
  method RunTasks(loop: Loop, tasks: seq<Task>, ghost world: set<object>, ghost m: Scene)
    returns (ghost world': set<object>, ghost trace: seq<Scene>)
    requires loop.Book() && Stage(loop, world, m)
    requires forall t :: t in tasks ==> IsEvent(t) || t.c in loop.conns
    modifies loop, world
    ensures Trace(tasks, trace) && trace[0] == m
    ensures loop.Book() && Stage(loop, world', trace[|tasks|])
    ensures loop.connCount == |loop.connections| == |set c | c in loop.conns && c.isOpen|
    ensures forall c :: c in loop.conns && m[c].Dead() ==> c.Look() == m[c]
    ensures forall c :: c in loop.conns && m[c].isOpen && c.isOpen ==>
      Carried(m[c], OfferedTo(c, tasks), BoxAll(c, tasks, m[c].inbox), c.Look())
    ensures forall c :: c in loop.conns && m[c].isOpen && !c.isOpen ==> exists k :: ClosedBy(tasks, trace, c, 0, k, |tasks|)
  {
    world', trace := RunEach(loop, tasks, world, m);
    OpenCount(loop, set c | c in loop.conns && c.isOpen);
    forall c | c in loop.conns
      ensures m[c].Dead() ==> trace[|tasks|][c] == m[c]
      ensures m[c].isOpen ==> Conserved(tasks, trace, c, 0, |tasks|)
    {
      if m[c].Dead() {
        StaleTasksDoNothing(tasks, trace, c, 0, |tasks|);
      }
      if m[c].isOpen {
        Conservation(tasks, trace, c, 0, |tasks|);
      }
    }
    assert tasks[0..|tasks|] == tasks;
  }

  method RunEach(loop: Loop, tasks: seq<Task>, ghost world: set<object>, ghost m: Scene)
    returns (ghost world': set<object>, ghost trace: seq<Scene>)
    requires loop.Book() && Stage(loop, world, m)
    requires forall t :: t in tasks ==> IsEvent(t) || t.c in loop.conns
    modifies loop, world
    ensures loop.Book() && Trace(tasks, trace) && trace[0] == m
    ensures Stage(loop, world', trace[|tasks|]) && fresh(world' - world)
  {
    if tasks == [] {
      return world, [m];
    }
    var last := |tasks| - 1;
    world', trace := RunEach(loop, tasks[..last], world, m);
    world', trace := RunLast(loop, tasks, world', trace);
  }

  method RunLast(loop: Loop, tasks: seq<Task>, ghost world: set<object>, ghost trace: seq<Scene>)
    returns (ghost world': set<object>, ghost trace': seq<Scene>)
    requires tasks != [] && Trace(tasks[..|tasks| - 1], trace)
    requires loop.Book() && Stage(loop, world, trace[|tasks| - 1])
    requires var last := tasks[|tasks| - 1]; IsEvent(last) || last.c in loop.conns
    modifies loop, world
    ensures loop.Book() && Trace(tasks, trace') && trace'[0] == trace[0]
    ensures Stage(loop, world', trace'[|tasks|]) && fresh(world' - world)
  {
    ghost var m := trace[|tasks| - 1];
    ghost var m';
    world', m' := RunTask(loop, tasks[|tasks| - 1], world, m);
    trace' := trace + [m'];
    Extended(tasks, trace, trace', m, m');
  }

  lemma Extended(tasks: seq<Task>, trace: seq<Scene>, longer: seq<Scene>, m: Scene, m': Scene)
    requires tasks != [] && Trace(tasks[..|tasks| - 1], trace) && trace[|tasks| - 1] == m
    requires Step(tasks[|tasks| - 1], m, m') && longer == trace + [m']
    ensures Trace(tasks, longer) && longer[0] == trace[0] && longer[|tasks|] == m'
  {
    forall i | 0 <= i < |tasks| ensures StepAt(tasks, longer, i) {
      if i < |tasks| - 1 {
        assert tasks[..|tasks| - 1][i] == tasks[i];
        assert StepAt(tasks[..|tasks| - 1], trace, i);
      }
    }
  }

  /** The number of open connections is the size of the map. */
  lemma OpenCount(loop: Loop, open: set<Conn>)
    requires loop.Book() && open == set c | c in loop.conns && c.isOpen
    ensures |open| == loop.connCount
  {
    assert open == set fd | fd in loop.connections :: loop.connections[fd];
    ValuesCount(loop.connections, loop.connections.Keys, open);
  }

  lemma {:induction false} ValuesCount(m: map<nat, Conn>, keys: set<nat>, values: set<Conn>)
    requires keys == m.Keys
    requires forall fd :: fd in m ==> m[fd].fd == fd
    requires values == set fd | fd in m :: m[fd]
    ensures |values| == |m|
    decreases keys
  {
    if keys == {} {
      assert values == {};
    } else {
      var fd :| fd in keys;
      RemovedOne(m, fd);
      var m' := m - {fd};
      var values' := set x | x in m' :: m'[x];
      ValuesCount(m', keys - {fd}, values');
      forall c ensures c in values <==> c in values' + {m[fd]} {
        if c in values {
          var x :| x in m && m[x] == c;
          assert x != fd ==> x in m' && m'[x] == c;
        }
      }
      assert values == values' + {m[fd]};
    }
  }
}
