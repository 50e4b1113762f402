/**
 The event loop's bookkeeping of TCP connections (eventloop.go), the tasks that other goroutines
 queue for it and the I/O events it handles (connection.go, connection_linux.go). User callbacks
 and system calls answer arbitrarily.
 */
module EventLoop {
  import opened Bytes
  import Inbound
  import Outbound
  import Socket
  import Traffic

  datatype Action = None | Close | Shutdown

  /** What OnOpen returns; nil is not written. */
  datatype Reply = Nothing | Bytes(bytes: seq<byte>)

  function ReplyBytes(reply: Reply): seq<byte> {
    match reply
    case Nothing => []
    case Bytes(bytes) => bytes
  }

  // ---------------------------------------------------------------------------------------
  // What a connection may do, seen from outside
  // ---------------------------------------------------------------------------------------

  /** A connection at one moment: the flag opened and the two directions. */
  datatype Snap = Snap(isOpen: bool, out: Outbound.Side, inbox: Inbound.Inbox) {
    /** Bytes sent followed by bytes buffered. */
    function Stream(): seq<byte> {
      out.Stream()
    }

    function Sent(): seq<byte> {
      out.sock.sent
    }

    function Log(): Socket.Log {
      out.sock.log
    }

    /** Made by accept and not registered yet. */
    predicate Untouched() {
      !isOpen && out.kept == [] && !out.sock.registered && !out.sock.armed && !out.sock.closed
    }

    /** Closed and released. */
    predicate Dead() {
      !isOpen && out.kept == [] && out.sock.closed && inbox == Inbound.Inbox([], [])
    }
  }

  /**
   An open connection s was handed data and possibly asked to close, and became t. It is closed
   exactly if it was asked to or a write failed for good. If it stays open its stream grew by
   exactly data, attended unless it was not before or the poller refused, and not watched without
   reason; and its inbound side is box. If it is closed, what was sent is a prefix of that stream,
   and all of it unless some write failed.
   */
  predicate Accounted(s: Snap, data: seq<byte>, box: Inbound.Inbox, close: bool, t: Snap) {
    && t.Log().Follows(s.Log()) && s.Sent() <= t.Sent()
    && (t.isOpen <==> !close && t.Log().fatals == s.Log().fatals)
    && (t.isOpen ==> Traffic.Accepted(s.out, data, false, t.out) && t.inbox == box)
    && (t.isOpen ==> t.out.sock.closed == s.out.sock.closed && t.out.sock.registered == s.out.sock.registered)
    && (!t.isOpen ==> t.Dead() && t.Sent() <= s.Stream() + data)
    && (!t.isOpen && t.Log().failures == s.Log().failures ==> t.Sent() == s.Stream() + data)
  }

  /** A closed connection s was written to: nothing is sent and it stays closed. */
  predicate StillDead(s: Snap, t: Snap) {
    t.Dead() && t.Sent() == s.Sent() && t.Log().Follows(s.Log())
  }

  /** An open or closed connection was handed data. */
  predicate Handed(s: Snap, data: seq<byte>, box: Inbound.Inbox, t: Snap) {
    if s.isOpen then Accounted(s, data, box, false, t) else s.Dead() ==> StillDead(s, t)
  }

  /**
   An untouched connection was registered and greeted. If the poller rejects it, it is closed. If
   the greeting fails for good it stays open. Otherwise its stream grew by the greeting, and if
   the kernel did not take all of that, nobody watches and the action is not obeyed.
   */
  predicate Enlisted(s: Snap, reply: seq<byte>, action: Action, t: Snap) {
    && s.Sent() <= t.Sent() && (t.isOpen ==> t.out.sock.registered && !t.out.sock.closed && t.inbox == s.inbox)
    && if t.Log().rejections != s.Log().rejections then
         t.Dead() && t.Sent() == s.Sent()
       else if t.Log().fatals != s.Log().fatals then
         t.isOpen && t.out.kept == [] && t.Sent() == s.Sent()
       else
         && t.Stream() == s.Stream() + reply
         && (if action == Close && t.out.kept == [] then t.Dead() else t.isOpen)
         && (t.isOpen ==> !t.out.sock.armed)
  }

  /** The poller took the connection and the kernel took the greeting, so the handler's action is obeyed. */
  predicate Welcomed(s: Snap, t: Snap) {
    t.Log().rejections == s.Log().rejections && t.Log().fatals == s.Log().fatals && t.out.kept == []
  }

  /** conn.write or conn.writev up to the call of closeConn that MustClose stands for. */
  predicate Tried(s: Snap, data: seq<byte>, slices: nat, outcome: Outbound.Outcome, t: Snap) {
    t == s.(out := t.out) && Outbound.Written(s.out, data, slices, outcome, t.out)
  }

  lemma TriedWell(s: Snap, data: seq<byte>, slices: nat, outcome: Outbound.Outcome, t: Snap)
    requires Tried(s, data, slices, outcome, t) && outcome != Outbound.MustClose
    ensures Handed(s, data, s.inbox, t)
  {
    Traffic.WrittenIsAccepted(s.out, data, slices, outcome, t.out);
    if s.Dead() {
      assert slices == 0 && t.Stream() == s.Stream();
    }
  }

  lemma TriedInVain(s: Snap, data: seq<byte>, slices: nat, t: Snap, u: Snap)
    requires Tried(s, data, slices, Outbound.MustClose, t)
    requires if t.isOpen then Accounted(t, [], t.inbox, true, u) else u == t
    ensures Handed(s, data, s.inbox, u) && u.Log().fatals > s.Log().fatals && !u.isOpen
  {
    assert t.Stream() + [] == s.Stream();
    assert t.Stream() == t.Sent();
  }

  /** One thing after the other. */
  lemma Chain(s: Snap, data: seq<byte>, box: Inbound.Inbox, t: Snap, more: seq<byte>, box': Inbound.Inbox, u: Snap)
    requires s.isOpen && Accounted(s, data, box, false, t) && Handed(t, more, box', u)
    ensures Accounted(s, data + more, box', false, u)
  {
    Assoc(s.Stream(), data, more);
    if t.isOpen && u.isOpen {
      Traffic.AcceptedOn(s.out, data, t.out, more, false, u.out);
    }
  }

  /** ... and then the action of the handler. */
  lemma Conclude(s: Snap, data: seq<byte>, box: Inbound.Inbox, t: Snap, close: bool, u: Snap)
    requires s.isOpen && Accounted(s, data, box, false, t)
    requires if close && t.isOpen then Accounted(t, [], t.inbox, true, u) else u == t
    ensures Accounted(s, data, box, close, u)
  {
    assert t.Stream() + [] == t.Stream();
  }

  /** Nothing but the inbound side changed. */
  lemma OnlyInbox(s: Snap, t: Snap)
    requires exists k :: 0 <= k <= |s.inbox.All()| && t == s.(inbox := s.inbox.Drop(k))
    ensures Handed(s, [], t.inbox, t)
  {
    Traffic.AcceptedNothing(s.out);
  }

  lemma NothingHappened(s: Snap)
    requires s.isOpen
    ensures Accounted(s, [], s.inbox, false, s)
  {
    Traffic.AcceptedNothing(s.out);
  }

  // ---------------------------------------------------------------------------------------
  // The inbound side
  // ---------------------------------------------------------------------------------------

  /** The inbound side after a handler's calls. */
  function Took(box: Inbound.Inbox, calls: seq<Traffic.Call>): (after: Inbound.Inbox)
    ensures after.All() == Traffic.Handle(box.All(), calls).rest
  {
    var h := Traffic.Handle(box.All(), calls);
    assert |h.consumed + h.rest| == |box.All()| && (h.consumed + h.rest)[|h.consumed|..] == h.rest;
    Inbound.DropAll(box, |h.consumed|);
    box.Drop(|h.consumed|)
  }

  lemma TookNext(box: Inbound.Inbox, calls: seq<Traffic.Call>, call: Traffic.Call)
    ensures Took(box, calls + [call]) == Took(box, calls).Drop(Traffic.Consumes(Took(box, calls).All(), call))
  {
    var more := calls + [call];
    assert more[..|calls|] == calls;
    var h := Traffic.Handle(box.All(), calls);
    assert |h.consumed + h.rest| == |box.All()|;
    Inbound.DropTwice(box, |h.consumed|, Traffic.Consumes(h.rest, call));
  }

  lemma TookNothing(box: Inbound.Inbox)
    ensures Took(box, []) == box
  {
  }

  /**
   The inbound side after a read event: the handler sees what waits followed by the new bytes, and
   what it leaves waits. A handler that asks for a shutdown leaves the new bytes in buffer.
   */
  function ReadBox(box: Inbound.Inbox, bytes: seq<byte>, calls: seq<Traffic.Call>, action: Action): Inbound.Inbox {
    var after := Took(Inbound.Inbox(box.waiting, bytes), calls);
    if action == None then Inbound.Inbox(after.All(), after.latest) else after
  }

  // ---------------------------------------------------------------------------------------
  // Connections
  // ---------------------------------------------------------------------------------------

  class Conn {
    const fd: nat
    const inb: Inbound.Stream
    const out: Outbound.Channel
    var isOpen: bool
    ghost var Repr: set<object>

    ghost predicate Valid()
      reads this, Repr
      ensures Valid() ==> this in Repr
    {
      && this in Repr && inb in Repr && out in Repr && inb.Repr <= Repr && out.Repr <= Repr
      && this !in inb.Repr && this !in out.Repr && inb.Repr !! out.Repr
      && inb.Valid() && out.Valid()
    }

    ghost function Look(): Snap
      requires Valid()
      reads this, Repr
    {
      Snap(isOpen, out.View(), inb.Look())
    }

    /** newTCPConn */
    constructor (fd: nat, writeBufferCap: int)
      requires writeBufferCap > 0
      ensures Valid() && fresh(Repr) && this.fd == fd && Look().Untouched() && Look().Stream() == []
      ensures Look().inbox == Inbound.Inbox([], [])
    {
      this.fd := fd;
      isOpen := false;
      var i := new Inbound.Stream();
      var o := new Outbound.Channel(writeBufferCap);
      inb, out := i, o;
      new;
      Repr := {this} + inb.Repr + out.Repr;
    }

    /** opened = true */
    method MarkOpen()
      requires Valid()
      modifies this`isOpen
      ensures Valid() && Look() == old(Look()).(isOpen := true)
    {
      isOpen := true;
    }

    /** close(2) of the descriptor and releaseTCP */
    method Release()
      requires Valid()
      modifies Repr
      ensures Valid() && Repr == old(Repr)
      ensures Look().Dead() && Look().Sent() == old(Look()).Sent() && Look().Log() == old(Look()).Log().Called()
    {
      out.sock.Close();
      isOpen := false;
      inb.Release();
      out.Release();
    }

    method TryWrite(data: seq<byte>) returns (n: int, outcome: Outbound.Outcome)
      requires Valid()
      modifies this`Repr, out.Repr
      ensures Valid() && fresh(Repr - old(Repr)) && Tried(old(Look()), data, 1, outcome, Look())
      ensures n == if outcome == Outbound.MustClose then -1 else |data|
    {
      n, outcome := out.Write(data);
      assert inb.Look() == old(inb.Look());
      Repr := Repr + out.Repr;
    }

    method TryWritev(bs: seq<seq<byte>>, ghost data: seq<byte>) returns (n: int, outcome: Outbound.Outcome)
      requires Valid() && data == Flatten(bs)
      modifies this`Repr, out.Repr
      ensures Valid() && fresh(Repr - old(Repr)) && Tried(old(Look()), data, |bs|, outcome, Look())
      ensures n == if outcome == Outbound.MustClose then -1 else |data|
    {
      n, outcome := out.WriteSlices(bs);
      assert inb.Look() == old(inb.Look());
      Repr := Repr + out.Repr;
    }

    /** eventloop.write up to the call of closeConn */
    method TryFlush() returns (outcome: Outbound.Outcome)
      requires Valid() && !out.IsEmpty()
      modifies this`Repr, out.Repr
      ensures Valid() && fresh(Repr - old(Repr)) && Look() == old(Look()).(out := Look().out)
      ensures Outbound.Flushed(old(Look()).out, outcome, Look().out)
    {
      outcome := out.Flush();
      Repr := Repr + out.Repr;
    }

    /** conn.open with what OnOpen returned */
    method Greet(reply: Reply) returns (outcome: Outbound.Outcome)
      requires Valid() && out.IsEmpty() && out.sock.registered && !out.sock.armed
      modifies this`Repr, out.Repr
      ensures Valid() && fresh(Repr - old(Repr)) && Greeted(old(Look()), reply, outcome, Look())
    {
      if reply.Nothing? {
        return Outbound.Fine;
      }
      outcome := TryOpen(reply.bytes);
    }

    method TryOpen(data: seq<byte>) returns (outcome: Outbound.Outcome)
      requires Valid() && out.IsEmpty() && out.sock.registered && !out.sock.armed
      modifies this`Repr, out.Repr
      ensures Valid() && fresh(Repr - old(Repr)) && Look() == old(Look()).(out := Look().out)
      ensures Outbound.Greeted(old(Look()).out, data, outcome, Look().out)
    {
      outcome := out.Open(data);
      Repr := Repr + out.Repr;
    }

    /** The drain loop of closeConn */
    method Drain()
      requires Valid()
      modifies out.Repr
      ensures Valid() && Repr == old(Repr) && Look() == old(Look()).(out := Look().out)
      ensures Outbound.Drained(old(Look()).out, Look().out)
    {
      if !out.IsEmpty() {
        out.Drain();
      }
    }

    /** c.buffer = el.buffer[:n] */
    method Arrive(bytes: seq<byte>)
      requires Valid()
      modifies inb
      ensures Valid() && Repr == old(Repr)
      ensures Look() == old(Look()).(inbox := Inbound.Inbox(old(Look()).inbox.waiting, bytes))
    {
      inb.Arrive(bytes);
    }

    /** inboundBuffer.Write(c.buffer) */
    method Stow()
      requires Valid()
      modifies this`Repr, inb.Repr
      ensures Valid() && fresh(Repr - old(Repr))
      ensures Look() == old(Look()).(inbox := Inbound.Inbox(old(Look()).inbox.All(), old(Look()).inbox.latest))
    {
      inb.Stow();
      Repr := Repr + inb.Repr;
    }

    /** poller.AddRead */
    method Add() returns (ok: bool)
      requires Valid()
      modifies out.sock
      ensures Valid() && Repr == old(Repr) && Look() == Added(old(Look()), ok)
    {
      ok := out.sock.AddRead();
    }

    /** A call on the inbound side */
    method Take(call: Traffic.Call)
      requires Valid()
      modifies inb.Repr
      ensures Valid() && Repr == old(Repr)
      ensures Look() == old(Look()).(inbox := old(Look()).inbox.Drop(Traffic.Consumes(old(Look()).inbox.All(), call)))
    {
      var _ := Traffic.Perform(inb, call);
    }
  }

  /** What a handler does with its connection. */
  datatype Deed = Send(data: seq<byte>) | Sendv(bs: seq<seq<byte>>) | Take(call: Traffic.Call)

  /** The bytes a deed hands over. */
  function Given(deed: Deed): seq<byte> {
    match deed
    case Send(data) => data
    case Sendv(bs) => Flatten(bs)
    case Take(_) => []
  }

  function GivenAll(deeds: seq<Deed>): seq<byte> {
    if deeds == [] then [] else GivenAll(deeds[..|deeds| - 1]) + Given(deeds[|deeds| - 1])
  }

  /** The calls on the inbound side among the deeds. */
  function Calls(deeds: seq<Deed>): seq<Traffic.Call> {
    if deeds == [] then [] else
    var last := deeds[|deeds| - 1];
    Calls(deeds[..|deeds| - 1]) + if last.Take? then [last.call] else []
  }

  lemma NextDeed(deeds: seq<Deed>, i: nat)
    requires i < |deeds|
    ensures GivenAll(deeds[..i + 1]) == GivenAll(deeds[..i]) + Given(deeds[i])
    ensures Calls(deeds[..i + 1]) == Calls(deeds[..i]) + if deeds[i].Take? then [deeds[i].call] else []
  {
    assert deeds[..i + 1][..i] == deeds[..i];
  }

  /** The inbound side after a deed. */
  function AfterDeed(box: Inbound.Inbox, deed: Deed): Inbound.Inbox {
    if deed.Take? then box.Drop(Traffic.Consumes(box.All(), deed.call)) else box
  }

  lemma TookMore(box: Inbound.Inbox, calls: seq<Traffic.Call>, deed: Deed)
    ensures Took(box, calls + if deed.Take? then [deed.call] else []) == AfterDeed(Took(box, calls), deed)
  {
    if deed.Take? {
      TookNext(box, calls, deed.call);
    } else {
      assert calls + [] == calls;
    }
  }

  /** What reading the socket answered. */
  datatype Input = Again | Gone | Arrived(bytes: seq<byte>)

  /** EOF or an error other than EAGAIN */
  predicate Lost(input: Input) {
    input.Gone? || (input.Arrived? && input.bytes == [])
  }

  class Loop {
    var connections: map<nat, Conn>
    var connCount: int
    ghost const conns: set<Conn>      // every connection made for this loop

    /** connCount counts the map, and the map holds exactly the open connections under their fds. */
    ghost predicate Book()
      reads this, conns
    {
      && connCount == |connections|
      && (forall fd :: fd in connections ==>
            connections[fd] in conns && connections[fd].isOpen && connections[fd].fd == fd)
      && (forall c :: c in conns && c.isOpen ==> c.fd in connections && connections[c.fd] == c)
    }

    /** c is one of the loop's connections and shares no state with the others. */
    ghost predicate Apart(c: Conn)
      reads c
    {
      c in conns && this !in c.Repr && forall d :: d in conns && d != c ==> d !in c.Repr
    }

    ghost predicate Ready(c: Conn)
      reads this, conns, c, c.Repr
    {
      Book() && Apart(c) && c.Valid()
    }

    /** The map without c, if c was open and is not any more. */
    ghost function Without(before: map<nat, Conn>, c: Conn, wasOpen: bool): map<nat, Conn>
      reads c
    {
      if wasOpen && !c.isOpen then before - {c.fd} else before
    }

    constructor (conns: set<Conn>)
      requires forall c :: c in conns ==> !c.isOpen
      ensures Book() && this.conns == conns && connections == map[]
    {
      this.conns := conns;
      connections := map[];
      connCount := 0;
    }

    /** closeConn(c): nothing for a connection that is not open; otherwise drain, unlist, release. */
    method CloseConn(c: Conn) returns (shutdown: bool)
      requires Ready(c)
      modifies this, c.Repr
      ensures Ready(c) && c.Repr == old(c.Repr) && !c.isOpen
      ensures !old(c.isOpen) ==> !shutdown && unchanged(this) && unchanged(old(c.Repr))
      ensures old(c.isOpen) ==> connections == old(connections) - {c.fd} && Accounted(old(c.Look()), [], old(c.Look()).inbox, true, c.Look())
      ensures old(c.out.IsEmpty()) ==> c.out.sock.log.failures == old(c.out.sock.log).failures
    {
      shutdown := false;
      if !c.isOpen {
        return;
      }
      FinishListed(c);
      Unlist(c);
      shutdown := *;
    }

    method FinishListed(c: Conn)
      requires Ready(c) && c.isOpen
      modifies c.Repr
      ensures BookBut(c) && Apart(c) && c.Valid() && c.Repr == old(c.Repr)
      ensures Accounted(old(c.Look()), [], old(c.Look()).inbox, true, c.Look())
      ensures old(c.out.IsEmpty()) ==> c.out.sock.log.failures == old(c.out.sock.log).failures
    {
      Finish(c);
    }

    /** The books while c is closed but still listed. */
    ghost predicate BookBut(c: Conn)
      reads this, conns
    {
      && connCount == |connections| && c in conns && !c.isOpen && c.fd in connections && connections[c.fd] == c
      && (forall fd :: fd in connections ==>
            connections[fd] in conns && (connections[fd].isOpen || connections[fd] == c) && connections[fd].fd == fd)
      && (forall d :: d in conns && d.isOpen ==> d.fd in connections && connections[d.fd] == d)
    }

    /** delete(el.connections, c.fd) and addConn(-1) */
    method Unlist(c: Conn)
      requires BookBut(c)
      modifies this
      ensures Book() && connections == old(connections) - {c.fd}
    {
      RemovedOne(connections, c.fd);
      connections := connections - {c.fd};
      connCount := connCount - 1;
    }

    /** Drain, then release. */
    method Finish(c: Conn)
      requires c.Valid() && c.isOpen
      modifies c.Repr
      ensures c.Valid() && c.Repr == old(c.Repr) && Accounted(old(c.Look()), [], old(c.Look()).inbox, true, c.Look())
      ensures old(c.out.IsEmpty()) ==> c.out.sock.log.failures == old(c.out.sock.log).failures
    {
      ghost var s := c.Look();
      c.Drain();
      Ended(s, c.Look());
      c.Release();
    }

    /**
     conn.write, whether or not the connection is open. On a closed one the kernel answers with an
     error, the result is -1 and nothing else happens.
     */
    method Write(c: Conn, data: seq<byte>) returns (n: int)
      requires Ready(c)
      modifies this, c.Repr
      ensures Ready(c) && fresh(c.Repr - old(c.Repr))
      ensures Handed(old(c.Look()), data, old(c.Look()).inbox, c.Look()) && connections == Without(old(connections), c, old(c.isOpen))
      ensures n == if c.out.sock.log.fatals == old(c.out.sock.log).fatals then |data| else -1
      ensures old(c.Look()).Dead() ==> n == -1
      ensures n != -1 ==> c.isOpen == old(c.isOpen) && c.Look().Stream() == old(c.Look()).Stream() + data
    {
      ghost var s := c.Look();
      var outcome;
      n, outcome := WriteOn(c, data);
      if outcome == Outbound.MustClose {
        CloseFailed(c, s, data, 1);
        return -1;
      }
      TriedWell(s, data, 1, outcome, c.Look());
    }

    method WriteOn(c: Conn, data: seq<byte>) returns (n: int, outcome: Outbound.Outcome)
      requires Ready(c)
      modifies c`Repr, c.out.Repr
      ensures Ready(c) && fresh(c.Repr - old(c.Repr)) && Tried(old(c.Look()), data, 1, outcome, c.Look())
      ensures n == if outcome == Outbound.MustClose then -1 else |data|
    {
      n, outcome := c.TryWrite(data);
    }

    /** conn.writev, whether or not the connection is open */
    method Writev(c: Conn, bs: seq<seq<byte>>) returns (n: int)
      requires Ready(c)
      modifies this, c.Repr
      ensures Ready(c) && fresh(c.Repr - old(c.Repr))
      ensures Handed(old(c.Look()), Flatten(bs), old(c.Look()).inbox, c.Look()) && connections == Without(old(connections), c, old(c.isOpen))
      ensures n == if c.out.sock.log.fatals == old(c.out.sock.log).fatals then |Flatten(bs)| else -1
      ensures n != -1 ==> c.isOpen == old(c.isOpen) && c.Look().Stream() == old(c.Look()).Stream() + Flatten(bs)
    {
      ghost var s, data := c.Look(), Flatten(bs);
      var outcome;
      n, outcome := WritevOn(c, bs, data);
      if outcome == Outbound.MustClose {
        CloseFailed(c, s, data, |bs|);
        return -1;
      }
      TriedWell(s, data, |bs|, outcome, c.Look());
    }

    method WritevOn(c: Conn, bs: seq<seq<byte>>, ghost data: seq<byte>) returns (n: int, outcome: Outbound.Outcome)
      requires Ready(c) && data == Flatten(bs)
      modifies c`Repr, c.out.Repr
      ensures Ready(c) && fresh(c.Repr - old(c.Repr)) && Tried(old(c.Look()), data, |bs|, outcome, c.Look())
      ensures n == if outcome == Outbound.MustClose then -1 else |data|
    {
      n, outcome := c.TryWritev(bs, data);
    }

    /** closeConn after a write that failed for good; s is the connection before that write. */
    method CloseFailed(c: Conn, ghost s: Snap, ghost data: seq<byte>, ghost slices: nat)
      requires Ready(c) && Tried(s, data, slices, Outbound.MustClose, c.Look())
      modifies this, c.Repr
      ensures Ready(c) && c.Repr == old(c.Repr) && !c.isOpen
      ensures Handed(s, data, s.inbox, c.Look()) && c.Look().Log().fatals > s.Log().fatals
      ensures connections == Without(old(connections), c, old(c.isOpen))
    {
      ghost var t := c.Look();
      var _ := CloseConn(c);
      TriedInVain(s, data, slices, t, c.Look());
    }

    /** conn.asyncWrite: a queued write that finds its connection closed does nothing. */
    method AsyncWrite(c: Conn, data: seq<byte>)
      requires Ready(c)
      modifies this, c.Repr
      ensures Ready(c) && fresh(c.Repr - old(c.Repr))
      ensures !old(c.isOpen) ==> unchanged(this) && unchanged(old(c.Repr)) && c.Look() == old(c.Look())
      ensures old(c.isOpen) ==> Accounted(old(c.Look()), data, old(c.Look()).inbox, false, c.Look())
      ensures connections == Without(old(connections), c, old(c.isOpen))
    {
      if !c.isOpen {
        return;
      }
      var _ := Write(c, data);
    }

    /** conn.asyncWritev */
    method AsyncWritev(c: Conn, bs: seq<seq<byte>>)
      requires Ready(c)
      modifies this, c.Repr
      ensures Ready(c) && fresh(c.Repr - old(c.Repr))
      ensures !old(c.isOpen) ==> unchanged(this) && unchanged(old(c.Repr)) && c.Look() == old(c.Look())
      ensures old(c.isOpen) ==> Accounted(old(c.Look()), Flatten(bs), old(c.Look()).inbox, false, c.Look())
      ensures connections == Without(old(connections), c, old(c.isOpen))
    {
      if !c.isOpen {
        return;
      }
      var _ := Writev(c, bs);
    }

    /** handleAction */
    method HandleAction(c: Conn, action: Action) returns (shutdown: bool)
      requires Ready(c)
      modifies this, c.Repr
      ensures Ready(c) && c.Repr == old(c.Repr)
      ensures if action == Close && old(c.isOpen) then Accounted(old(c.Look()), [], old(c.Look()).inbox, true, c.Look())
              else unchanged(this) && unchanged(old(c.Repr)) && c.Look() == old(c.Look())
      ensures connections == Without(old(connections), c, old(c.isOpen))
      ensures old(c.out.IsEmpty()) ==> c.out.sock.log.failures == old(c.out.sock.log).failures
      ensures action != Close ==> shutdown == action.Shutdown?
    {
      match action {
        case None => shutdown := false;
        case Close => shutdown := CloseConn(c);
        case Shutdown => shutdown := true;
      }
    }

    /** One deed of a handler; its connection may meanwhile be closed. */
    method Perform(c: Conn, deed: Deed)
      requires Ready(c)
      modifies this, c.Repr
      ensures Ready(c) && fresh(c.Repr - old(c.Repr))
      ensures Handed(old(c.Look()), Given(deed), AfterDeed(old(c.Look()).inbox, deed), c.Look())
      ensures connections == Without(old(connections), c, old(c.isOpen))
      ensures !old(c.isOpen) && old(c.Look()).Dead() ==> !c.isOpen
    {
      match deed {
        case Send(data) => var _ := Write(c, data);
        case Sendv(bs) => var _ := Writev(c, bs);
        case Take(call) =>
          TakeOn(c, call);
          OnlyInbox(old(c.Look()), c.Look());
      }
    }

    method TakeOn(c: Conn, call: Traffic.Call)
      requires Ready(c)
      modifies c.inb.Repr
      ensures Ready(c) && c.Repr == old(c.Repr)
      ensures c.Look() == old(c.Look()).(inbox := old(c.Look()).inbox.Drop(Traffic.Consumes(old(c.Look()).inbox.All(), call)))
    {
      assert forall d :: d in conns ==> d !in c.inb.Repr;
      c.Take(call);
    }

    /** OnTraffic: any list of deeds. */
    method OnTraffic(c: Conn, deeds: seq<Deed>)
      requires Ready(c) && c.isOpen
      modifies this, c.Repr
      ensures Ready(c) && fresh(c.Repr - old(c.Repr))
      ensures Accounted(old(c.Look()), GivenAll(deeds), Took(old(c.Look()).inbox, Calls(deeds)), false, c.Look())
      ensures connections == Without(old(connections), c, true)
    {
      ghost var s := c.Look();
      if deeds == [] {
        NothingHappened(s);
        TookNothing(s.inbox);
        return;
      }
      var last := |deeds| - 1;
      OnTraffic(c, deeds[..last]);
      PerformNext(c, deeds, last, s);
      assert deeds[..last + 1] == deeds;
    }

    /** The i-th deed; s is the connection before all deeds. */
    method PerformNext(c: Conn, deeds: seq<Deed>, i: nat, ghost s: Snap)
      requires Ready(c) && i < |deeds| && s.isOpen
      requires Accounted(s, GivenAll(deeds[..i]), Took(s.inbox, Calls(deeds[..i])), false, c.Look())
      modifies this, c.Repr
      ensures Ready(c) && fresh(c.Repr - old(c.Repr))
      ensures Accounted(s, GivenAll(deeds[..i + 1]), Took(s.inbox, Calls(deeds[..i + 1])), false, c.Look())
      ensures connections == Without(old(connections), c, old(c.isOpen)) && (!old(c.isOpen) ==> !c.isOpen)
    {
      ghost var t := c.Look();
      Perform(c, deeds[i]);
      DeedDone(deeds, i, s, t, c.Look());
    }

    /** OnTraffic and the action it returns */
    method Serve(c: Conn, deeds: seq<Deed>, action: Action) returns (shutdown: bool)
      requires Ready(c) && c.isOpen
      modifies this, c.Repr
      ensures Ready(c) && fresh(c.Repr - old(c.Repr))
      ensures Accounted(old(c.Look()), GivenAll(deeds), Took(old(c.Look()).inbox, Calls(deeds)), action == Close, c.Look())
      ensures connections == Without(old(connections), c, true)
      ensures action != Close ==> shutdown == action.Shutdown?
    {
      ghost var s := c.Look();
      OnTraffic(c, deeds);
      ghost var t := c.Look();
      shutdown := HandleAction(c, action);
      Conclude(s, GivenAll(deeds), Took(s.inbox, Calls(deeds)), t, action == Close, c.Look());
    }

    /** wake: a queued wake-up for a connection that is no longer listed is ignored. */
    method Wake(c: Conn, deeds: seq<Deed>, action: Action) returns (shutdown: bool)
      requires Ready(c)
      modifies this, c.Repr
      ensures Ready(c) && fresh(c.Repr - old(c.Repr))
      ensures !old(c.isOpen) ==> !shutdown && unchanged(this) && unchanged(old(c.Repr)) && c.Look() == old(c.Look())
      ensures old(c.isOpen) ==>
        && Accounted(old(c.Look()), GivenAll(deeds), Took(old(c.Look()).inbox, Calls(deeds)), action == Close, c.Look())
        && (action != Close ==> shutdown == action.Shutdown?)
      ensures connections == Without(old(connections), c, old(c.isOpen))
    {
      shutdown := false;
      if c.fd !in connections || connections[c.fd] != c {
        return;
      }
      shutdown := Serve(c, deeds, action);
    }

    /** read: EAGAIN is ignored, EOF and errors close, data goes to the handler and then to inboundBuffer. */
    method Read(c: Conn, input: Input, deeds: seq<Deed>, action: Action) returns (shutdown: bool)
      requires Ready(c) && c.isOpen
      modifies this, c.Repr
      ensures Ready(c) && fresh(c.Repr - old(c.Repr))
      ensures input.Again? ==> !shutdown && unchanged(this) && unchanged(old(c.Repr)) && c.Look() == old(c.Look())
      ensures Lost(input) ==> Accounted(old(c.Look()), [], old(c.Look()).inbox, true, c.Look())
      ensures !input.Again? && !Lost(input) ==>
        && Accounted(old(c.Look()), GivenAll(deeds), ReadBox(old(c.Look()).inbox, input.bytes, Calls(deeds), action), action == Close, c.Look())
        && (action != Close ==> shutdown == action.Shutdown?)
      ensures connections == Without(old(connections), c, true)
    {
      shutdown := false;
      if input.Again? {
        return;
      }
      if Lost(input) {
        shutdown := CloseConn(c);
        return;
      }
      shutdown := Deliver(c, input.bytes, deeds, action);
    }

    /** Data has arrived: the handler, its action, and the leftover to inboundBuffer. */
    method Deliver(c: Conn, bytes: seq<byte>, deeds: seq<Deed>, action: Action) returns (shutdown: bool)
      requires Ready(c) && c.isOpen
      modifies this, c.Repr
      ensures Ready(c) && fresh(c.Repr - old(c.Repr))
      ensures Accounted(old(c.Look()), GivenAll(deeds), ReadBox(old(c.Look()).inbox, bytes, Calls(deeds), action), action == Close, c.Look())
      ensures connections == Without(old(connections), c, true)
      ensures action != Close ==> shutdown == action.Shutdown?
    {
      ghost var s := c.Look();
      ArriveOn(c, bytes);
      ghost var s1 := c.Look();
      shutdown := Serve(c, deeds, action);
      ghost var t := c.Look();
      if action == None {
        StowOn(c);
      }
      Delivered(s, bytes, deeds, action, s1, t, c.Look());
    }

    method ArriveOn(c: Conn, bytes: seq<byte>)
      requires Ready(c)
      modifies c.inb
      ensures Ready(c) && c.Repr == old(c.Repr)
      ensures c.Look() == old(c.Look()).(inbox := Inbound.Inbox(old(c.Look()).inbox.waiting, bytes))
    {
      c.Arrive(bytes);
    }

    method StowOn(c: Conn)
      requires Ready(c)
      modifies c`Repr, c.inb.Repr
      ensures Ready(c) && fresh(c.Repr - old(c.Repr))
      ensures c.Look() == old(c.Look()).(inbox := Inbound.Inbox(old(c.Look()).inbox.All(), old(c.Look()).inbox.latest))
    {
      c.Stow();
    }

    /** The loop's write on a writable descriptor */
    method Writable(c: Conn)
      requires Ready(c) && c.isOpen
      modifies this, c.Repr
      ensures Ready(c) && fresh(c.Repr - old(c.Repr))
      ensures Accounted(old(c.Look()), [], old(c.Look()).inbox, false, c.Look())
      ensures old(c.out.IsEmpty()) ==> c.Look() == old(c.Look())
      ensures !old(c.out.IsEmpty()) && c.Look().Sent() == old(c.Look()).Sent() ==> c.Look().Log().Fruitless(old(c.Look()).Log())
      ensures connections == Without(old(connections), c, true)
    {
      ghost var s := c.Look();
      if c.out.IsEmpty() {
        NothingHappened(s);
        return;
      }
      var outcome := c.TryFlush();
      ghost var t := c.Look();
      if outcome == Outbound.MustClose {
        var _ := CloseConn(c);
        FlushedInVain(s, t, c.Look());
      } else {
        Traffic.FlushedIsAccepted(s.out, outcome, t.out);
      }
    }

    /** register and open, for a descriptor the kernel has just handed out. */
    method Register(c: Conn, reply: Reply, action: Action) returns (obeyed: bool)
      requires Ready(c) && c.fd !in connections && c.Look().Untouched()
      modifies this, c.Repr
      ensures Ready(c) && fresh(c.Repr - old(c.Repr))
      ensures Enlisted(old(c.Look()), ReplyBytes(reply), action, c.Look())
      ensures obeyed <==> Welcomed(old(c.Look()), c.Look())
      ensures connections == if c.isOpen then old(connections)[c.fd := c] else old(connections)
    {
      ghost var s := c.Look();
      var added := AddOn(c);
      ghost var t := c.Look();
      if !added {
        ReleaseOn(c);
        return false;
      }
      obeyed := Open(c, reply, action);
      AfterAdd(s, t, ReplyBytes(reply), action, c.Look());
    }

    method AddOn(c: Conn) returns (ok: bool)
      requires Ready(c)
      modifies c.out.sock
      ensures Ready(c) && c.Repr == old(c.Repr)
      ensures c.Look() == Added(old(c.Look()), ok)
    {
      ok := c.Add();
    }

    /** unix.Close and releaseTCP of a connection that was never listed */
    method ReleaseOn(c: Conn)
      requires Ready(c) && !c.isOpen
      modifies c.Repr
      ensures Ready(c) && c.Repr == old(c.Repr)
      ensures c.Look().Dead() && c.Look().Sent() == old(c.Look()).Sent() && c.Look().Log() == old(c.Look()).Log().Called()
    {
      c.Release();
    }

    /** open */
    method Open(c: Conn, reply: Reply, action: Action) returns (obeyed: bool)
      requires Ready(c) && !c.isOpen && c.fd !in connections
      requires c.out.IsEmpty() && c.out.sock.registered && !c.out.sock.armed && !c.out.sock.closed
      modifies this, c.Repr
      ensures Ready(c) && fresh(c.Repr - old(c.Repr))
      ensures Enlisted(old(c.Look()), ReplyBytes(reply), action, c.Look())
      ensures obeyed <==> Welcomed(old(c.Look()), c.Look())
      ensures c.out.sock.log.rejections == old(c.out.sock.log).rejections
      ensures connections == if c.isOpen then old(connections)[c.fd := c] else old(connections)
    {
      Relisted(connections, c);
      ghost var s := c.Look();
      var outcome := ListAndGreet(c, reply);
      obeyed := outcome == Outbound.Fine;
      ghost var t := c.Look();
      if obeyed {
        var _ := HandleAction(c, action);
      }
      Opened(s, reply, outcome, t, action, c.Look());
    }

    method ListAndGreet(c: Conn, reply: Reply) returns (outcome: Outbound.Outcome)
      requires Ready(c) && !c.isOpen && c.fd !in connections
      requires c.out.IsEmpty() && c.out.sock.registered && !c.out.sock.armed
      modifies this, c.Repr
      ensures Ready(c) && fresh(c.Repr - old(c.Repr)) && c.isOpen && connections == old(connections)[c.fd := c]
      ensures Greeted(old(c.Look()).(isOpen := true), reply, outcome, c.Look())
    {
      List(c);
      outcome := GreetOn(c, reply);
    }

    method GreetOn(c: Conn, reply: Reply) returns (outcome: Outbound.Outcome)
      requires Ready(c) && c.out.IsEmpty() && c.out.sock.registered && !c.out.sock.armed
      modifies c`Repr, c.out.Repr
      ensures Ready(c) && fresh(c.Repr - old(c.Repr)) && Greeted(old(c.Look()), reply, outcome, c.Look())
    {
      outcome := c.Greet(reply);
    }

    /** connections[fd] = c, opened = true, addConn(1) */
    method List(c: Conn)
      requires Ready(c) && !c.isOpen && c.fd !in connections
      modifies this, c`isOpen
      ensures Ready(c) && c.Look() == old(c.Look()).(isOpen := true) && connections == old(connections)[c.fd := c]
    {
      Enter(c);
      c.MarkOpen();
    }

    method Enter(c: Conn)
      requires Book() && c in conns && !c.isOpen && c.fd !in connections
      modifies this
      ensures BookBut(c) && connections == old(connections)[c.fd := c]
    {
      AddedOne(connections, c);
      connections := connections[c.fd := c];
      connCount := connCount + 1;
    }
  }

  /** AddRead answered ok. */
  function Added(s: Snap, ok: bool): Snap {
    var sock := s.out.sock;
    s.(out := s.out.(sock := sock.(registered := ok || sock.registered, log := sock.log.AddedRead(ok))))
  }

  lemma AfterAdd(s: Snap, t: Snap, reply: seq<byte>, action: Action, u: Snap)
    requires t == Added(s, true) && Enlisted(t, reply, action, u) && u.Log().rejections == t.Log().rejections
    ensures Enlisted(s, reply, action, u)
  {
    assert t.Stream() == s.Stream();
  }

  /** The i-th deed of a handler that began at s took the connection from t to u. */
  lemma DeedDone(deeds: seq<Deed>, i: nat, s: Snap, t: Snap, u: Snap)
    requires i < |deeds| && s.isOpen
    requires Accounted(s, GivenAll(deeds[..i]), Took(s.inbox, Calls(deeds[..i])), false, t)
    requires Handed(t, Given(deeds[i]), AfterDeed(t.inbox, deeds[i]), u)
    ensures Accounted(s, GivenAll(deeds[..i + 1]), Took(s.inbox, Calls(deeds[..i + 1])), false, u)
  {
    NextDeed(deeds, i);
    TookMore(s.inbox, Calls(deeds[..i]), deeds[i]);
    Chain(s, GivenAll(deeds[..i]), Took(s.inbox, Calls(deeds[..i])), t, Given(deeds[i]), AfterDeed(t.inbox, deeds[i]), u);
  }

  lemma Delivered(s: Snap, bytes: seq<byte>, deeds: seq<Deed>, action: Action, s1: Snap, t: Snap, u: Snap)
    requires s.isOpen && s1 == s.(inbox := Inbound.Inbox(s.inbox.waiting, bytes))
    requires Accounted(s1, GivenAll(deeds), Took(s1.inbox, Calls(deeds)), action == Close, t)
    requires u == if action == None then t.(inbox := Inbound.Inbox(t.inbox.All(), t.inbox.latest)) else t
    ensures Accounted(s, GivenAll(deeds), ReadBox(s.inbox, bytes, Calls(deeds), action), action == Close, u)
  {
  }

  /** A drained connection may be released. */
  lemma Ended(s: Snap, t: Snap)
    requires t == s.(out := t.out) && Outbound.Drained(s.out, t.out)
    ensures t.Sent() <= s.Stream() + [] && (t.Log().failures == s.Log().failures ==> t.Sent() == s.Stream() + [])
  {
    assert s.Stream() + [] == s.Stream() && t.Sent() <= t.Stream();
  }

  lemma FlushedInVain(s: Snap, t: Snap, u: Snap)
    requires s.out.kept != [] && t == s.(out := t.out) && Outbound.Flushed(s.out, Outbound.MustClose, t.out)
    requires Accounted(t, [], t.inbox, true, u)
    ensures Accounted(s, [], s.inbox, false, u)
  {
  }

  /** conn.open of what OnOpen returned, and AddWrite */
  predicate Greeted(s: Snap, reply: Reply, outcome: Outbound.Outcome, t: Snap) {
    if reply.Nothing? then t == s && outcome == Outbound.Fine
    else t == s.(out := t.out) && Outbound.Greeted(s.out, reply.bytes, outcome, t.out)
  }

  lemma Opened(s: Snap, reply: Reply, outcome: Outbound.Outcome, t: Snap, action: Action, u: Snap)
    requires s.out.kept == [] && Greeted(s.(isOpen := true), reply, outcome, t)
    requires s.out.sock.registered && !s.out.sock.closed && !s.out.sock.armed
    requires if outcome == Outbound.Fine && action == Close then Accounted(t, [], t.inbox, true, u) && u.Log().failures == t.Log().failures
             else u == t
    ensures Enlisted(s, ReplyBytes(reply), action, u) && u.Log().rejections == s.Log().rejections
    ensures outcome == Outbound.Fine <==> Welcomed(s, u)
  {
    assert s.Stream() == s.Sent() && s.Stream() + [] == s.Stream() && t.Stream() + [] == t.Stream();
    if t.out.kept == [] {
      assert t.Stream() == t.Sent();
    }
  }

  lemma Relisted(m: map<nat, Conn>, c: Conn)
    requires c.fd !in m
    ensures m[c.fd := c] - {c.fd} == m
  {
  }

  lemma AddedOne(m: map<nat, Conn>, c: Conn)
    requires c.fd !in m
    ensures |m[c.fd := c]| == |m| + 1
  {
    var m' := m[c.fd := c];
    assert m'.Keys == m.Keys + {c.fd};
    assert |m'| == |m'.Keys| && |m| == |m.Keys|;
  }

  lemma RemovedOne(m: map<nat, Conn>, fd: nat)
    requires fd in m
    ensures |m - {fd}| == |m| - 1
  {
    var m' := m - {fd};
    assert m'.Keys == m.Keys - {fd};
    assert |m'| == |m'.Keys| && |m| == |m.Keys|;
  }
}
