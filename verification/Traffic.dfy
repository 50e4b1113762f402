/**
 Whole runs of a connection's two directions.

 Inbound: read events whose handler makes any calls. Outbound: writes, vectored writes, writable
 events and close, with every short write and error the kernel may answer.
 */
module Traffic {
  import opened Bytes
  import Elastic
  import Inbound
  import Outbound

  // ---------------------------------------------------------------------------------------
  // Inbound
  // ---------------------------------------------------------------------------------------

  datatype Call = Read(length: nat) | Next(n: int) | Peek(n: int) | Discard(n: int)

  datatype Answer = Data(bytes: seq<byte>) | ShortBuffer | Count(n: nat)

  /** How many bytes a call consumes from the sequence s. */
  function Consumes(s: seq<byte>, call: Call): (k: nat)
    ensures k <= |s|
  {
    match call
    case Read(length) => Min(length, |s|)
    case Next(n) => if n > |s| then 0 else Inbound.Wanted(n, |s|)
    case Peek(_) => 0
    case Discard(n) => if n <= 0 || n > |s| then |s| else n
  }

  /** What a call answers on one contiguous sequence s. */
  function AnswerOf(s: seq<byte>, call: Call): Answer {
    match call
    case Read(length) => Data(s[..Min(length, |s|)])
    case Next(n) => if n > |s| then ShortBuffer else Data(s[..Inbound.Wanted(n, |s|)])
    case Peek(n) => if n > |s| then ShortBuffer else Data(s[..Inbound.Wanted(n, |s|)])
    case Discard(n) => Count(Consumes(s, call))
  }

  /** A handler's calls in order: the bytes they consumed, what is left, and the answers. */
  datatype Handled = Handled(consumed: seq<byte>, rest: seq<byte>, answers: seq<Answer>)

  function Handle(s: seq<byte>, calls: seq<Call>): (h: Handled)
    ensures h.consumed + h.rest == s
  {
    if calls == [] then Handled([], s, []) else
    var before := Handle(s, calls[..|calls| - 1]);
    var call := calls[|calls| - 1];
    var k := Consumes(before.rest, call);
    Handled(before.consumed + before.rest[..k], before.rest[k..], before.answers + [AnswerOf(before.rest, call)])
  }

  lemma HandleNext(s: seq<byte>, calls: seq<Call>, i: nat)
    requires i < |calls|
    ensures var before := Handle(s, calls[..i]); var k := Consumes(before.rest, calls[i]);
      Handle(s, calls[..i + 1]) ==
        Handled(before.consumed + before.rest[..k], before.rest[k..], before.answers + [AnswerOf(before.rest, calls[i])])
  {
    assert calls[..i + 1][..i] == calls[..i];
  }

  /** One call on the connection. */
  method Perform(conn: Inbound.Stream, call: Call) returns (answer: Answer)
    requires conn.Valid()
    modifies conn.Repr
    ensures conn.Valid() && conn.Repr == old(conn.Repr)
    ensures answer == AnswerOf(old(conn.Contents()), call)
    ensures conn.Contents() == old(conn.Contents())[Consumes(old(conn.Contents()), call)..]
    ensures conn.Look() == old(conn.Look()).Drop(Consumes(old(conn.Contents()), call))
  {
    ghost var s := conn.Contents();
    match call {
      case Read(length) =>
        var p := new byte[length];
        var n := conn.Read(p);
        SplicePrefix(p[..], 0, s[..n]);
        assert p[..n] == s[..n];
        answer := Data(p[..n]);
      case Next(n) =>
        var bytes, err := conn.Next(n);
        answer := if err == Inbound.NoError then Data(bytes) else ShortBuffer;
      case Peek(n) =>
        var bytes, err := conn.Peek(n);
        answer := if err == Inbound.NoError then Data(bytes) else ShortBuffer;
      case Discard(n) =>
        var k := conn.Discard(n);
        answer := Count(k);
    }
  }

  datatype Event = Event(bytes: seq<byte>, calls: seq<Call>)

  /** A read event whose handler returns None. */
  method OnRead(conn: Inbound.Stream, event: Event) returns (answers: seq<Answer>)
    requires conn.Valid()
    modifies conn.Repr
    ensures conn.Valid() && fresh(conn.Repr - old(conn.Repr))
    ensures var h := Handle(old(conn.ring.Contents()) + event.bytes, event.calls);
      answers == h.answers && conn.ring.Contents() == h.rest
  {
    conn.Arrive(event.bytes);
    ghost var base := conn.Contents();
    answers := [];
    assert event.calls[..0] == [];
    for i := 0 to |event.calls|
      invariant conn.Valid() && conn.Repr == old(conn.Repr)
      invariant conn.Contents() == Handle(base, event.calls[..i]).rest
      invariant answers == Handle(base, event.calls[..i]).answers
    {
      HandleNext(base, event.calls, i);
      var a := Perform(conn, event.calls[i]);
      answers := answers + [a];
    }
    assert event.calls[..|event.calls|] == event.calls;
    conn.Stow();
  }

  /** All events: bytes received, bytes consumed, bytes waiting, and the answers of each event. */
  datatype Ledger = Ledger(received: seq<byte>, consumed: seq<byte>, waiting: seq<byte>, answers: seq<seq<Answer>>)

  function Settle(waiting: seq<byte>, events: seq<Event>): (l: Ledger)
    ensures l.consumed + l.waiting == waiting + l.received
  {
    if events == [] then Ledger([], [], waiting, []) else
    var before := Settle(waiting, events[..|events| - 1]);
    var e := events[|events| - 1];
    var h := Handle(before.waiting + e.bytes, e.calls);
    Conserved(waiting, before, e.bytes, h);
    Ledger(before.received + e.bytes, before.consumed + h.consumed, h.rest, before.answers + [h.answers])
  }

  lemma Conserved(waiting: seq<byte>, before: Ledger, bytes: seq<byte>, h: Handled)
    requires before.consumed + before.waiting == waiting + before.received
    requires h.consumed + h.rest == before.waiting + bytes
    ensures before.consumed + h.consumed + h.rest == waiting + (before.received + bytes)
  {
    assert before.consumed + h.consumed + h.rest == before.consumed + (before.waiting + bytes);
    assert before.consumed + (before.waiting + bytes) == waiting + before.received + bytes;
  }

  /**
   Inbound conservation over any run of read events: after each event the bytes consumed by the
   handler's calls, followed by inboundBuffer, are the bytes received, in order, and every call
   answers as on one contiguous sequence.
   */
  method InboundRun(conn: Inbound.Stream, events: seq<Event>) returns (answers: seq<seq<Answer>>)
    requires conn.Valid() && conn.ring.Contents() == []
    modifies conn.Repr
    ensures conn.Valid() && answers == Settle([], events).answers
    ensures var l := Settle([], events); conn.ring.Contents() == l.waiting && l.consumed + l.waiting == l.received
  {
    answers := [];
    assert events[..0] == [];
    for i := 0 to |events|
      invariant conn.Valid() && fresh(conn.Repr - old(conn.Repr))
      invariant conn.ring.Contents() == Settle([], events[..i]).waiting
      invariant answers == Settle([], events[..i]).answers
    {
      assert events[..i + 1][..i] == events[..i];
      var a := OnRead(conn, events[i]);
      answers := answers + [a];
    }
    assert events[..|events|] == events;
    assert [] + Settle([], events).received == Settle([], events).received;
  }

  // ---------------------------------------------------------------------------------------
  // Outbound
  // ---------------------------------------------------------------------------------------

  datatype Request = Write(data: seq<byte>) | Writev(bs: seq<seq<byte>>) | Writable

  /** The bytes a request hands over. */
  function Handed(r: Request): seq<byte> {
    match r
    case Write(data) => data
    case Writev(bs) => Flatten(bs)
    case Writable => []
  }

  function HandedAll(rs: seq<Request>): seq<byte> {
    if rs == [] then [] else HandedAll(rs[..|rs| - 1]) + Handed(rs[|rs| - 1])
  }

  lemma HandedNext(rs: seq<Request>, i: nat)
    requires i < |rs|
    ensures HandedAll(rs[..i + 1]) == HandedAll(rs[..i]) + Handed(rs[i])
  {
    assert rs[..i + 1][..i] == rs[..i];
  }

  lemma HandedEnds(rs: seq<Request>)
    ensures rs[..|rs|] == rs && HandedAll(rs[..0]) == []
  {
  }

  /**
   Watching for writability with nothing to write does not start, unless the poller did not stop
   watching when asked, or a write of no bytes answered EAGAIN.
   */
  predicate Calm(s: Outbound.Side, t: Outbound.Side) {
    s.Settled() && t.sock.log.keeps == s.sock.log.keeps && t.sock.log.hollow == s.sock.log.hollow ==> t.Settled()
  }

  /** From s to t the channel accepted data and, exactly if lost, then a write failed for good. */
  predicate Accepted(s: Outbound.Side, data: seq<byte>, lost: bool, t: Outbound.Side) {
    && t.sock.log.Follows(s.sock.log) && s.sock.sent <= t.sock.sent && t.Stream() == s.Stream() + data
    && (lost <==> t.sock.log.fatals > s.sock.log.fatals)
    && (s.Attended() && t.sock.log.refusals == s.sock.log.refusals ==> t.Attended())
    && Calm(s, t)
  }

  lemma AcceptedOn(s: Outbound.Side, data: seq<byte>, t: Outbound.Side, more: seq<byte>, lost: bool, u: Outbound.Side)
    requires Accepted(s, data, false, t) && Accepted(t, more, lost, u)
    ensures Accepted(s, data + more, lost, u)
  {
    Assoc(s.Stream(), data, more);
  }

  lemma AcceptedNothing(s: Outbound.Side)
    ensures Accepted(s, [], false, s)
  {
    assert s.Stream() + [] == s.Stream();
  }

  lemma WrittenIsAccepted(s: Outbound.Side, data: seq<byte>, slices: nat, outcome: Outbound.Outcome, t: Outbound.Side)
    requires Outbound.Written(s, data, slices, outcome, t)
    ensures outcome == Outbound.MustClose ==> Accepted(s, [], true, t)
    ensures outcome != Outbound.MustClose ==> Accepted(s, data, false, t)
  {
    assert s.Stream() + [] == s.Stream();
    if s.kept != [] {
      assert |t.Stream()| >= |s.Stream()|;
    }
  }

  lemma FlushedIsAccepted(s: Outbound.Side, outcome: Outbound.Outcome, t: Outbound.Side)
    requires s.kept != [] && Outbound.Flushed(s, outcome, t)
    ensures Accepted(s, [], outcome == Outbound.MustClose, t)
  {
    assert s.Stream() + [] == s.Stream();
  }

  method Submit(c: Outbound.Channel, r: Request) returns (lost: bool)
    requires c.Valid()
    modifies c.Repr
    ensures c.Valid() && fresh(c.Repr - old(c.Repr))
    ensures Accepted(old(c.View()), if lost then [] else Handed(r), lost, c.View())
  {
    ghost var s := c.View();
    var n, outcome := 0, Outbound.Fine;
    match r {
      case Write(data) =>
        n, outcome := c.Write(data);
        WrittenIsAccepted(s, data, 1, outcome, c.View());
      case Writev(bs) =>
        n, outcome := c.WriteSlices(bs);
        WrittenIsAccepted(s, Flatten(bs), |bs|, outcome, c.View());
      case Writable =>
        if c.IsEmpty() {
          AcceptedNothing(s);
        } else {
          outcome := c.Flush();
          FlushedIsAccepted(s, outcome, c.View());
        }
    }
    lost := outcome == Outbound.MustClose;
  }

  /**
   Outbound conservation over any run, from any state. While the connection lives, the bytes given
   to the kernel followed by the buffered bytes grow by exactly the bytes handed over, and buffered
   bytes stay watched unless the poller refused a request, and nothing is watched without reason.
   The connection is closed at the end or
   by an error that is not EAGAIN, and for no other reason; then the bytes the kernel got are a
   prefix of those handed over, and all of them unless a write failed while closing.
   done counts the requests accepted, before the failed writes when closing began. A run may start
   anywhere, so the closing itself is also covered as a run of no requests.
   */
  method OutboundRun(c: Outbound.Channel, rs: seq<Request>, close: bool)
    returns (done: nat, closed: bool, ghost before: nat)
    requires c.Valid()
    modifies c.Repr
    ensures c.Valid() && fresh(c.Repr - old(c.Repr)) && done <= |rs| && (close ==> closed)
    ensures c.sock.log.Follows(old(c.sock.log)) && old(c.sock.sent) <= c.sock.sent
    ensures done < |rs| || (closed && !close) ==> c.sock.log.fatals > old(c.sock.log).fatals
    ensures !closed ==> done == |rs| && c.sock.log.fatals == old(c.sock.log).fatals
    ensures !closed ==> c.sock.sent + c.buf.Contents() == old(c.Stream()) + HandedAll(rs)
    ensures !closed && old(c.Attended()) && c.sock.log.refusals == old(c.sock.log).refusals ==> c.Attended()
    ensures Calm(old(c.View()), c.View())
    ensures closed ==> c.IsEmpty() && c.sock.sent <= old(c.Stream()) + HandedAll(rs[..done])
    ensures closed && c.sock.log.failures == before ==> c.sock.sent == old(c.Stream()) + HandedAll(rs[..done])
    ensures old(c.sock.log).failures <= before <= c.sock.log.failures
    ensures rs == [] ==> before == old(c.sock.log).failures
  {
    var lost;
    done, lost := SubmitAll(c, rs);
    before := c.sock.log.failures;
    closed := close || lost;
    if closed {
      CloseChannel(c);
    }
  }

  /** The requests of a run in order, up to one that fails for good. */
  method SubmitAll(c: Outbound.Channel, rs: seq<Request>) returns (done: nat, lost: bool)
    requires c.Valid()
    modifies c.Repr
    ensures c.Valid() && fresh(c.Repr - old(c.Repr)) && done <= |rs| && (lost <==> done < |rs|)
    ensures Accepted(old(c.View()), HandedAll(rs[..done]), lost, c.View())
    ensures !lost ==> HandedAll(rs[..done]) == HandedAll(rs)
    ensures rs == [] ==> c.View() == old(c.View())
  {
    done, lost := 0, false;
    HandedEnds(rs);
    ghost var s := c.View();
    AcceptedNothing(s);
    while done < |rs|
      invariant c.Valid() && fresh(c.Repr - old(c.Repr)) && 0 <= done <= |rs|
      invariant Accepted(s, HandedAll(rs[..done]), false, c.View())
      invariant done == 0 ==> c.View() == s
    {
      lost := SubmitNext(c, rs, done, s);
      if lost {
        return;
      }
      done := done + 1;
    }
  }

  method SubmitNext(c: Outbound.Channel, rs: seq<Request>, done: nat, ghost s: Outbound.Side) returns (lost: bool)
    requires c.Valid() && done < |rs| && Accepted(s, HandedAll(rs[..done]), false, c.View())
    modifies c.Repr
    ensures c.Valid() && fresh(c.Repr - old(c.Repr))
    ensures Accepted(s, if lost then HandedAll(rs[..done]) else HandedAll(rs[..done + 1]), lost, c.View())
  {
    ghost var t := c.View();
    lost := Submit(c, rs[done]);
    AcceptedOn(s, HandedAll(rs[..done]), t, if lost then [] else Handed(rs[done]), lost, c.View());
    HandedNext(rs, done);
    NoMore(HandedAll(rs[..done]));
  }

  lemma NoMore(s: seq<byte>)
    ensures s + [] == s
  {
  }

  /** Drain-on-close: everything is sent unless a write fails. */
  method CloseChannel(c: Outbound.Channel)
    requires c.Valid()
    modifies c.Repr
    ensures c.Valid() && fresh(c.Repr - old(c.Repr)) && c.IsEmpty()
    ensures old(c.sock.sent) <= c.sock.sent <= old(c.Stream())
    ensures c.sock.log.Follows(old(c.sock.log)) && !c.sock.armed
    ensures c.sock.log.failures == old(c.sock.log).failures ==> c.sock.sent == old(c.Stream())
  {
    c.Drain();
    c.sock.Close();
    c.Release();
  }
}
