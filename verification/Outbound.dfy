/**
 The outbound side of a connection: conn.write, conn.writev and conn.open of connection.go, and
 the event loop's write and drain-on-close of eventloop.go. Bytes the application handed over are
 either with the kernel or in the outbound buffer, in order, whatever the kernel answers.
 */
module Outbound {
  import opened Bytes
  import Elastic
  import Socket

  /** How an operation ended; MustClose stands for the call of closeConn. */
  datatype Outcome = Fine | ModError | MustClose

  /** What an operation has to report, given what the kernel answered meanwhile. */
  function Verdict(before: Socket.Log, after: Socket.Log): Outcome {
    if after.fatals > before.fatals then MustClose
    else if after.refusals > before.refusals then ModError
    else Fine
  }

  /** System calls of a write: the write itself and, unless everything is sent or lost, one to the poller. */
  function Attempts(outcome: Outcome, allSent: bool): nat {
    if outcome == MustClose || allSent then 1 else 2
  }

  /** The outbound side at one moment: the buffer and the kernel's side. */
  datatype Side = Side(kept: seq<byte>, sock: Socket.State) {
    /** Bytes given to the kernel followed by bytes still buffered. */
    function Stream(): seq<byte> {
      sock.sent + kept
    }

    /** Buffered bytes will be written: the poller watches for writability. */
    predicate Attended() {
      kept != [] ==> sock.armed
    }

    /** The poller does not watch for writability when there is nothing to write. */
    predicate Settled() {
      kept == [] ==> !sock.armed
    }

    function Keeping(data: seq<byte>): Side {
      this.(kept := kept + data)
    }

    function Disarming(ok: bool): Side {
      this.(sock := sock.(armed := !ok && sock.armed, log := sock.log.Disarmed(ok)))
    }

    function Arming(ok: bool): Side {
      this.(sock := sock.(armed := ok || sock.armed, log := sock.log.Armed(ok)))
    }
  }

  /**
   conn.write or conn.writev of data in so many slices, up to the call of closeConn that MustClose
   stands for. The stream grows by data, or by nothing exactly if a write failed for good. Output
   that was attended stays so unless the poller refused. With output buffered already, or without
   a slice, no system call is made.
   */
  predicate Written(s: Side, data: seq<byte>, slices: nat, outcome: Outcome, t: Side) {
    && t.sock.closed == s.sock.closed && t.sock.registered == s.sock.registered
    && t.sock.log.Follows(s.sock.log) && s.sock.sent <= t.sock.sent
    && outcome == Verdict(s.sock.log, t.sock.log)
    && (if outcome == MustClose then t.Stream() == s.Stream() && t.kept == [] else t.Stream() == s.Stream() + data)
    && (s.Attended() && t.sock.log.refusals == s.sock.log.refusals ==> t.Attended())
    && (slices == 0 ==> data == [])
    && (if s.kept != [] || slices == 0 then t.sock == s.sock else Tried(s, data, slices, outcome, t))
  }

  /**
   The same with nothing buffered: the kernel is tried at once, and the poller is called exactly if
   something is left, or if a write of no bytes answers EAGAIN. A vector that is too long is lost.
   */
  predicate Tried(s: Side, data: seq<byte>, slices: nat, outcome: Outcome, t: Side) {
    var hollow := t.sock.log.hollow != s.sock.log.hollow;
    && (data != [] ==> (t.sock.sent == s.sock.sent <==> t.sock.log.Fruitless(s.sock.log)))
    && t.sock.log.calls == s.sock.log.calls + Attempts(outcome, t.kept == [] && !hollow)
    && (t.kept == [] && !hollow ==> t.sock.armed == s.sock.armed)
    && (hollow ==> data == [] && t.kept == [] && (outcome == Fine ==> t.sock.armed))
    && (s.sock.closed || slices > Socket.IOV_MAX ==> outcome == MustClose)
    && t.sock.log.oversized == s.sock.log.oversized + if slices > Socket.IOV_MAX then 1 else 0
  }

  /** One write of data in so many slices with nothing buffered, as the kernel answers it. */
  predicate Passed(s: Side, data: seq<byte>, slices: nat, n: int, err: Socket.Errno, t: Side) {
    && s.kept == [] && t.kept == [] && t.sock == s.sock.(sent := t.sock.sent, log := t.sock.log)
    && (if err.OK? then 0 <= n <= |data| && t.sock.sent == s.sock.sent + data[..n] else n == -1 && t.sock.sent == s.sock.sent)
    && t.sock.log == (if slices == 0 then s.sock.log
                      else if slices > Socket.IOV_MAX then s.sock.log.Oversized()
                      else s.sock.log.Wrote(err, n == 0 && data != [], data == []))
    && (slices == 0 ==> err.OK? && data == [])
    && (slices > Socket.IOV_MAX || (s.sock.closed && slices > 0) ==> err.Fatal?)
  }

  /** What could not be sent is buffered and the poller asked to watch. */
  predicate KeptBack(s: Side, rest: seq<byte>, outcome: Outcome, t: Side) {
    outcome != MustClose && t == s.Keeping(rest).Arming(outcome == Fine)
  }

  /** With output buffered already, data joins it. */
  lemma KeptOnly(s: Side, data: seq<byte>, slices: nat)
    requires s.kept != [] && (slices == 0 ==> data == [])
    ensures Written(s, data, slices, Fine, s.Keeping(data))
  {
    Assoc(s.sock.sent, s.kept, data);
  }

  lemma AllPassed(s: Side, data: seq<byte>, slices: nat, n: int, err: Socket.Errno, t: Side)
    requires Passed(s, data, slices, n, err, t) && err.OK? && n == |data|
    ensures Written(s, data, slices, Fine, t)
  {
    assert data[..n] == data && |t.sock.sent| == |s.sock.sent| + n;
  }

  lemma Lost(s: Side, data: seq<byte>, slices: nat, n: int, err: Socket.Errno, t: Side)
    requires Passed(s, data, slices, n, err, t) && err.Fatal?
    ensures Written(s, data, slices, MustClose, t)
  {
  }

  lemma KeptRest(s: Side, data: seq<byte>, slices: nat, n: int, err: Socket.Errno, t: Side, outcome: Outcome, u: Side)
    requires Passed(s, data, slices, n, err, t) && (err.EAGAIN? || (err.OK? && n < |data|))
    requires KeptBack(t, if err.OK? then data[n..] else data, outcome, u)
    ensures Written(s, data, slices, outcome, u)
  {
    if err.OK? {
      assert s.sock.sent + data[..n] + data[n..] == s.sock.sent + data;
      assert |t.sock.sent| == |s.sock.sent| + n;
    }
  }

  /**
   conn.open(data) and AddWrite, on an empty buffer: the stream grows by data unless the write
   fails for good, and nothing is watched. The poller is called, in vain, exactly if data is left.
   */
  predicate Greeted(s: Side, data: seq<byte>, outcome: Outcome, t: Side) {
    && t.sock.closed == s.sock.closed && t.sock.registered == s.sock.registered && t.sock.armed == s.sock.armed
    && t.sock.log.Follows(s.sock.log) && s.sock.sent <= t.sock.sent
    && (outcome == MustClose <==> t.sock.log.fatals > s.sock.log.fatals)
    && (outcome == ModError <==> t.kept != [])
    && t.Stream() == s.Stream() + (if outcome == MustClose then [] else data)
    && (data != [] ==> (t.sock.sent == s.sock.sent <==> t.sock.log.Fruitless(s.sock.log)))
    && t.sock.log.calls == s.sock.log.calls + if t.kept == [] then 1 else 2
  }

  lemma GreetedAll(s: Side, data: seq<byte>, n: int, err: Socket.Errno, t: Side, rest: seq<byte>, outcome: Outcome, u: Side)
    requires Passed(s, data, 1, n, err, t) && !err.Fatal? && rest == if err.EAGAIN? then data else data[n..]
    requires u == if rest == [] then t else t.Keeping(rest).Arming(false)
    requires outcome == if rest == [] then Fine else ModError
    ensures Greeted(s, data, outcome, u)
  {
    if err.OK? {
      assert s.sock.sent + data[..n] + data[n..] == s.sock.sent + data;
      assert |t.sock.sent| == |s.sock.sent| + n;
    }
  }

  /**
   eventloop.write of a buffer that is not empty, up to the call of closeConn. One attempt is made;
   nothing is sent exactly if it took nothing. An emptied buffer is not watched any more, unless
   the poller refused that; otherwise the poller is not called.
   */
  predicate Flushed(s: Side, outcome: Outcome, t: Side) {
    && t.sock.closed == s.sock.closed && t.sock.registered == s.sock.registered
    && t.Stream() == s.Stream() && s.sock.sent <= t.sock.sent && t.sock.log.Follows(s.sock.log)
    && t.sock.log.refusals == s.sock.log.refusals && t.sock.log.hollow == s.sock.log.hollow
    && t.sock.log.oversized == s.sock.log.oversized
    && outcome == (if t.sock.log.fatals > s.sock.log.fatals then MustClose else Fine)
    && (t.sock.sent == s.sock.sent <==> t.sock.log.Fruitless(s.sock.log))
    && t.sock.log.calls == s.sock.log.calls + (if t.kept == [] then 2 else 1)
    && (if t.kept == [] then t.sock.armed ==> t.sock.log.keeps > s.sock.log.keeps else t.sock.armed == s.sock.armed)
    && (t.kept == [] ==> t.sock.log.failures == s.sock.log.failures)
  }

  /** One write of buffered bytes, which leave the buffer as far as the kernel took them. */
  predicate Attempted(s: Side, n: int, err: Socket.Errno, t: Side) {
    && t.Stream() == s.Stream() && s.sock.sent <= t.sock.sent && t.sock == s.sock.(sent := t.sock.sent, log := t.sock.log)
    && t.sock.log == s.sock.log.Wrote(err, n == 0, false) && (if err.OK? then n >= 0 else n == -1)
    && |t.kept| == |s.kept| - (if err.OK? then n else 0) && (n > 0 <==> t.sock.sent != s.sock.sent)
  }

  lemma FlushedAll(s: Side, n: int, t: Side, ok: bool)
    requires s.kept != [] && Attempted(s, n, Socket.OK, t) && t.kept == []
    ensures Flushed(s, Fine, t.Disarming(ok))
  {
  }

  /**
   The drain loop of closeConn: it stops at the first write that fails, and if none fails
   everything is sent.
   */
  predicate Drained(s: Side, t: Side) {
    && t.sock == s.sock.(sent := t.sock.sent, log := t.sock.log)
    && t.Stream() == s.Stream() && s.sock.sent <= t.sock.sent
    && t.sock.log.Follows(s.sock.log) && t.sock.log.refusals == s.sock.log.refusals
    && t.sock.log.oversized == s.sock.log.oversized
    && t.sock.log.failures == s.sock.log.failures + (if t.kept == [] then 0 else 1)
    && (t.sock.log.failures == s.sock.log.failures ==> t.sock.sent == s.Stream())
  }

  /** So far no write failed. */
  predicate Draining(s: Side, t: Side) {
    && t.sock == s.sock.(sent := t.sock.sent, log := t.sock.log)
    && t.Stream() == s.Stream() && s.sock.sent <= t.sock.sent
    && t.sock.log.Follows(s.sock.log) && t.sock.log.refusals == s.sock.log.refusals
    && t.sock.log.oversized == s.sock.log.oversized && t.sock.log.failures == s.sock.log.failures
  }

  lemma DrainedOn(s: Side, t: Side, n: int, err: Socket.Errno, u: Side)
    requires t.kept != [] && Draining(s, t) && Attempted(t, n, err, u)
    ensures if err.OK? then Draining(s, u) else Drained(s, u)
  {
  }

  class Channel {
    const buf: Elastic.Buffer        // outboundBuffer
    const sock: Socket.Handle
    ghost var Repr: set<object>

    ghost predicate Valid()
      reads this, Repr
      ensures Valid() ==> this in Repr
    {
      && this in Repr && buf in Repr && sock in Repr && buf.Repr <= Repr
      && this !in buf.Repr && sock !in buf.Repr && buf.Valid()
    }

    /** Bytes given to the kernel followed by bytes still buffered. */
    ghost function Stream(): (s: seq<byte>)
      requires Valid()
      reads this, Repr
    {
      sock.sent + buf.Contents()
    }

    /** Buffered bytes will be written: the poller watches for writability. */
    ghost predicate Attended()
      requires Valid()
      reads this, Repr
    {
      buf.Contents() != [] ==> sock.armed
    }

    ghost function View(): Side
      requires Valid()
      reads this, Repr
    {
      Side(buf.Contents(), sock.View())
    }

    constructor (writeBufferCap: int)
      requires writeBufferCap > 0
      ensures Valid() && fresh(Repr) && Stream() == [] && sock.sent == [] && IsEmpty()
      ensures !sock.armed && !sock.registered && !sock.closed
    {
      var b := new Elastic.Buffer(writeBufferCap);
      var s := new Socket.Handle();
      buf, sock := b, s;
      new;
      Repr := {this, sock} + buf.Repr;
    }

    predicate IsEmpty()
      requires Valid()
      reads this, Repr
      ensures IsEmpty() <==> buf.Contents() == []
    {
      buf.IsEmpty()
    }

    /** outboundBuffer.Write(data) */
    method Keep(data: seq<byte>)
      requires Valid()
      modifies this`Repr, buf.Repr
      ensures Valid() && fresh(Repr - old(Repr)) && View() == old(View()).Keeping(data)
    {
      var _ := buf.Write(data);
      Repr := Repr + buf.Repr;
    }

    /** outboundBuffer.Writev(bs) */
    method KeepAll(bs: seq<seq<byte>>)
      requires Valid()
      modifies this`Repr, buf.Repr
      ensures Valid() && fresh(Repr - old(Repr)) && View() == old(View()).Keeping(Flatten(bs))
    {
      var _ := buf.Writev(bs);
      Repr := Repr + buf.Repr;
    }

    /** write(2) while nothing is buffered */
    method Send(data: seq<byte>) returns (n: int, err: Socket.Errno)
      requires Valid() && IsEmpty()
      modifies sock`sent, sock`log
      ensures Valid() && Passed(old(View()), data, 1, n, err, View())
    {
      ghost var before := sock.sent;
      n, err := sock.Write(data);
    }

    /** poller.ModReadWrite */
    method Arm() returns (outcome: Outcome)
      requires Valid()
      modifies sock`armed, sock`log
      ensures Valid() && outcome != MustClose && View() == old(View()).Arming(outcome == Fine)
    {
      var ok := sock.ModReadWrite();
      outcome := if ok then Fine else ModError;
    }

    /** What could not be sent is buffered for the next round. */
    method KeepAndArm(bs: seq<seq<byte>>) returns (outcome: Outcome)
      requires Valid() && IsEmpty()
      modifies this`Repr, buf.Repr, sock`armed, sock`log
      ensures Valid() && fresh(Repr - old(Repr)) && KeptBack(old(View()), Flatten(bs), outcome, View())
    {
      KeepAll(bs);
      outcome := Arm();
    }

    /** conn.write(data) */
    method Write(data: seq<byte>) returns (n: int, outcome: Outcome)
      requires Valid()
      modifies Repr
      ensures Valid() && fresh(Repr - old(Repr))
      ensures n == (if outcome == MustClose then -1 else |data|) && Written(old(View()), data, 1, outcome, View())
    {
      n := |data|;
      if !buf.IsEmpty() {
        KeptOnly(View(), data, 1);
        Keep(data);
        return n, Fine;
      }
      n, outcome := WriteThrough(data);
    }

    /** conn.write with nothing buffered: straight to the kernel, the rest to the buffer. */
    method WriteThrough(data: seq<byte>) returns (n: int, outcome: Outcome)
      requires Valid() && IsEmpty()
      modifies Repr
      ensures Valid() && fresh(Repr - old(Repr))
      ensures n == (if outcome == MustClose then -1 else |data|) && Written(old(View()), data, 1, outcome, View())
    {
      ghost var s := View();
      var sent, err := Send(data);
      ghost var t := View();
      n := |data|;
      if !err.OK? {
        if err.EAGAIN? {
          outcome := KeepDataAndArm(data);
          KeptRest(s, data, 1, sent, err, t, outcome, View());
          return;
        }
        Lost(s, data, 1, sent, err, t);
        return -1, MustClose;
      }
      if sent < |data| {
        outcome := KeepDataAndArm(data[sent..]);
        KeptRest(s, data, 1, sent, err, t, outcome, View());
      } else {
        outcome := Fine;
        AllPassed(s, data, 1, sent, err, t);
      }
    }

    method KeepDataAndArm(data: seq<byte>) returns (outcome: Outcome)
      requires Valid() && IsEmpty()
      modifies this`Repr, buf.Repr, sock`armed, sock`log
      ensures Valid() && fresh(Repr - old(Repr)) && KeptBack(old(View()), data, outcome, View())
    {
      Keep(data);
      outcome := Arm();
    }

    /** conn.writev(bs): the slice the kernel stopped in is cut in place, as in the source. */
    method Writev(bs: array<seq<byte>>) returns (n: int, outcome: Outcome)
      requires Valid() && bs !in Repr
      modifies Repr, bs
      ensures Valid() && fresh(Repr - old(Repr))
      ensures n == (if outcome == MustClose then -1 else |Flatten(old(bs[..]))|)
      ensures Written(old(View()), Flatten(old(bs[..])), bs.Length, outcome, View())
    {
      var all := bs[..];
      ghost var data := Flatten(all);
      n := TotalLength(all);
      if !buf.IsEmpty() {
        KeepBehind(all, data);
        return n, Fine;
      }
      outcome := WritevThrough(bs, n, data);
      if outcome == MustClose {
        n := -1;
      }
    }

    /** conn.writev with output buffered already */
    method KeepBehind(bs: seq<seq<byte>>, ghost data: seq<byte>)
      requires Valid() && !IsEmpty() && data == Flatten(bs)
      modifies this`Repr, buf.Repr
      ensures Valid() && fresh(Repr - old(Repr)) && Written(old(View()), data, |bs|, Fine, View())
    {
      KeptOnly(View(), data, |bs|);
      KeepAll(bs);
    }

    /** conn.writev of slices the caller does not use afterwards */
    method WriteSlices(bs: seq<seq<byte>>) returns (n: int, outcome: Outcome)
      requires Valid()
      modifies Repr
      ensures Valid() && fresh(Repr - old(Repr))
      ensures n == (if outcome == MustClose then -1 else |Flatten(bs)|) && Written(old(View()), Flatten(bs), |bs|, outcome, View())
    {
      var slices := new seq<byte>[|bs|](i requires 0 <= i < |bs| => bs[i]);
      assert slices[..] == bs;
      n, outcome := Writev(slices);
    }

    /** conn.writev with nothing buffered */
    method WritevThrough(bs: array<seq<byte>>, n: nat, ghost data: seq<byte>) returns (outcome: Outcome)
      requires Valid() && IsEmpty() && bs !in Repr && data == Flatten(bs[..]) && n == |data|
      modifies Repr, bs
      ensures Valid() && fresh(Repr - old(Repr)) && Written(old(View()), data, bs.Length, outcome, View())
    {
      var all := bs[..];
      ghost var s := View();
      var sent, err := Sendv(all, data);
      ghost var t := View();
      if !err.OK? {
        if err.EAGAIN? {
          outcome := KeepAndArm(all);
          KeptRest(s, data, |all|, sent, err, t, outcome, View());
          return;
        }
        Lost(s, data, |all|, sent, err, t);
        return MustClose;
      }
      if sent < n {
        outcome := KeepRest(bs, sent);
        KeptRest(s, data, |all|, sent, err, t, outcome, View());
      } else {
        outcome := Fine;
        AllPassed(s, data, |all|, sent, err, t);
      }
    }

    /** What a short vectored write left is buffered for the next round. */
    method KeepRest(bs: array<seq<byte>>, sent: nat) returns (outcome: Outcome)
      requires Valid() && IsEmpty() && bs !in Repr && sent < |Flatten(bs[..])|
      modifies this`Repr, buf.Repr, sock`armed, sock`log, bs
      ensures Valid() && fresh(Repr - old(Repr)) && KeptBack(old(View()), Flatten(old(bs[..]))[sent..], outcome, View())
    {
      var pos := CutSlices(bs, sent);
      outcome := KeepAndArm(bs[pos..]);
    }

    /** io.Writev while nothing is buffered */
    method Sendv(bs: seq<seq<byte>>, ghost data: seq<byte>) returns (n: int, err: Socket.Errno)
      requires Valid() && IsEmpty() && data == Flatten(bs)
      modifies sock`sent, sock`log
      ensures Valid() && Passed(old(View()), data, |bs|, n, err, View())
    {
      n, err := sock.Writev(bs);
    }

    /**
     conn.open(data) followed by the AddWrite of eventloop.open, on a descriptor that register has
     already added. The kernel refuses to add it twice, so what it did not take at once stays
     buffered without anyone watching for writability.
     */
    method Open(data: seq<byte>) returns (outcome: Outcome)
      requires Valid() && IsEmpty() && sock.registered && !sock.armed
      modifies Repr
      ensures Valid() && fresh(Repr - old(Repr)) && Greeted(old(View()), data, outcome, View())
    {
      ghost var s := View();
      var n, err := Send(data);
      ghost var t := View();
      if err.Fatal? {
        return MustClose;
      }
      var rest := if err.EAGAIN? then data else data[n..];
      if rest != [] {
        Keep(rest);
      }
      outcome := Fine;
      if !buf.IsEmpty() {
        outcome := Watch();
      }
      GreetedAll(s, data, n, err, t, rest, outcome, View());
    }

    /** poller.AddWrite on a descriptor that is registered already */
    method Watch() returns (outcome: Outcome)
      requires Valid() && sock.registered
      modifies sock
      ensures Valid() && outcome == ModError && View() == old(View()).Arming(false)
    {
      var ok := sock.AddWrite();
      outcome := if ok then Fine else ModError;
    }

    /** Output that nobody watches stays where it is: later writes queue up behind it. */
    method WriteUnattended(writes: seq<seq<byte>>)
      requires Valid() && !Attended()
      modifies Repr
      ensures Valid() && fresh(Repr - old(Repr)) && !Attended()
      ensures sock.sent == old(sock.sent) && Stream() == old(Stream()) + Flatten(writes)
    {
      ghost var base := Stream();
      Elastic.AllSlices(base, writes);
      for i := 0 to |writes|
        invariant Valid() && fresh(Repr - old(Repr)) && !Attended()
        invariant sock.sent == old(sock.sent) && Stream() == base + Flatten(writes[..i])
      {
        Elastic.NextSlice(base, writes, i);
        var n, outcome := Write(writes[i]);
      }
    }

    /** eventloop.write: one attempt to send what is buffered. Its callers check that there is some. */
    method Flush() returns (outcome: Outcome)
      requires Valid() && !IsEmpty()
      modifies Repr
      ensures Valid() && fresh(Repr - old(Repr)) && Flushed(old(View()), outcome, View())
    {
      ghost var s := View();
      var n, err := Attempt();
      ghost var t := View();
      outcome := Fine;
      match err {
        case OK =>
        case EAGAIN => return;
        case Fatal => return MustClose;
      }
      if buf.IsEmpty() {
        var ok := Disarm();
        FlushedAll(s, n, t, ok);
      }
    }

    /** The write of eventloop.write, vectored if there is more than one slice. */
    method Attempt() returns (n: int, err: Socket.Errno)
      requires Valid() && !IsEmpty()
      modifies buf.Repr, sock`sent, sock`log
      ensures Valid() && Attempted(old(View()), n, err, View())
    {
      var iov := buf.Peek(-1);
      if |iov| > 1 {
        n, err := PassCut(iov);
      } else {
        OnlySlice(iov);
        n, err := PassOne(iov[0]);
      }
    }

    /** Pass, of at most Socket.IOV_MAX slices */
    method PassCut(iov: seq<seq<byte>>) returns (n: int, err: Socket.Errno)
      requires Valid() && Flatten(iov) <= buf.Contents() && iov != [] && iov[0] != []
      modifies buf.Repr, sock`sent, sock`log
      ensures Valid() && buf.Repr == old(buf.Repr) && Attempted(old(View()), n, err, View()) && n != 0
    {
      var cut := if |iov| > Socket.IOV_MAX then iov[..Socket.IOV_MAX] else iov;
      CutIsPrefix(iov, cut, buf.Contents());
      n, err := Pass(cut);
    }

    /** poller.ModRead, its result ignored, once nothing is buffered */
    method Disarm() returns (ghost ok: bool)
      requires Valid()
      modifies sock`armed, sock`log
      ensures Valid() && View() == old(View()).Disarming(ok)
    {
      ok := sock.ModRead();
    }

    /** Writev of buffered slices, then Discard of what the kernel took; n is -1 on an error. */
    method Pass(iov: seq<seq<byte>>) returns (n: int, err: Socket.Errno)
      requires Valid() && Flatten(iov) <= buf.Contents() && Flatten(iov) != [] && |iov| <= Socket.IOV_MAX
      modifies buf.Repr, sock`sent, sock`log
      ensures Valid() && buf.Repr == old(buf.Repr) && Attempted(old(View()), n, err, View()) && n != 0
    {
      ghost var before, kept := sock.sent, buf.Contents();
      n, err := sock.Writev(iov);
      if err.OK? {
        MovedOver(before, kept, Flatten(iov), n);
      }
      var _, _ := buf.Discard(n);
    }

    method PassOne(data: seq<byte>) returns (n: int, err: Socket.Errno)
      requires Valid() && data <= buf.Contents() && data != []
      modifies buf.Repr, sock`sent, sock`log
      ensures Valid() && buf.Repr == old(buf.Repr) && Attempted(old(View()), n, err, View())
    {
      ghost var before, kept := sock.sent, buf.Contents();
      n, err := sock.Write(data);
      if err.OK? {
        MovedOver(before, kept, data, n);
      }
      var _, _ := buf.Discard(n);
    }

    /**
     The drain loop of closeConn. It ends, because every error-free writev of a non-empty vector
     takes at least one byte and the vector is never empty. It stops at the first error; if there
     is none, everything was sent.
     */
    method Drain()
      requires Valid()
      modifies buf.Repr, sock`sent, sock`log
      ensures Valid() && Drained(old(View()), View())
    {
      ghost var s := View();
      while !buf.IsEmpty()
        invariant Valid() && buf.Repr == old(buf.Repr) && Draining(s, View())
        decreases |buf.Contents()|
      {
        ghost var t := View();
        var iov := buf.Peek(0);
        var n, err := PassCut(iov);
        DrainedOn(s, t, n, err, View());
        if !err.OK? {
          return;
        }
      }
    }

    /** outboundBuffer.Release(): what was not sent is dropped. */
    method Release()
      requires Valid()
      modifies buf.Repr
      ensures Valid() && IsEmpty()
    {
      buf.Release();
    }
  }

  method TotalLength(bs: seq<seq<byte>>) returns (n: nat)
    ensures n == |Flatten(bs)|
  {
    n := 0;
    Elastic.AllSlices([], bs);
    for i := 0 to |bs|
      invariant n == |Flatten(bs[..i])|
    {
      Elastic.NextSlice([], bs, i);
      n := n + |bs[i]|;
    }
  }

  /** Finds the slice in which a short write stopped and cuts it; what follows is still to send. */
  method CutSlices(bs: array<seq<byte>>, sent: nat) returns (pos: nat)
    requires sent < |Flatten(bs[..])|
    modifies bs
    ensures pos < bs.Length && Flatten(bs[pos..]) == Flatten(old(bs[..]))[sent..]
  {
    ghost var all := bs[..];
    var left := sent;
    pos := 0;
    Elastic.AllSlices([], all);
    for i := 0 to bs.Length
      invariant bs[..] == all && pos == 0
      invariant 0 <= left && left + |Flatten(all[..i])| == sent
      invariant i == bs.Length ==> |Flatten(all)| <= sent
    {
      Elastic.NextSlice([], all, i);
      var bn := |bs[i]|;
      if left < bn {
        CutInside(all, i, left, sent);
        bs[i] := bs[i][left..];
        assert bs[i..] == [all[i][left..]] + all[i + 1..];
        pos := i;
        return;
      }
      left := left - bn;
    }
  }

  lemma CutInside(all: seq<seq<byte>>, i: nat, left: nat, sent: nat)
    requires i < |all| && left <= |all[i]| && left + |Flatten(all[..i])| == sent
    ensures sent <= |Flatten(all)| && Flatten([all[i][left..]] + all[i + 1..]) == Flatten(all)[sent..]
  {
    FlattenSplit(all, i);
    assert all[i..][0] == all[i] && all[i..][1..] == all[i + 1..];
    var rest := [all[i][left..]] + all[i + 1..];
    assert rest[1..] == all[i + 1..];
    assert Flatten(all) == Flatten(all[..i]) + (all[i] + Flatten(all[i + 1..]));
  }

  /** Cutting the vector at Socket.IOV_MAX leaves a prefix of the data, and not an empty one. */
  lemma CutIsPrefix(iov: seq<seq<byte>>, cut: seq<seq<byte>>, data: seq<byte>)
    requires Flatten(iov) <= data && cut == if |iov| > Socket.IOV_MAX then iov[..Socket.IOV_MAX] else iov
    ensures Flatten(cut) <= data
    ensures iov != [] && iov[0] != [] ==> Flatten(cut) != []
  {
    FlattenSplit(iov, |cut|);
    assert iov[..|cut|] == cut;
  }

  lemma OnlySlice(iov: seq<seq<byte>>)
    requires |iov| == 1
    ensures Flatten(iov) == iov[0]
  {
    FlattenSingle(iov[0]);
    assert iov == [iov[0]];
  }

  lemma MovedOver(sent: seq<byte>, kept: seq<byte>, data: seq<byte>, n: nat)
    requires data <= kept && n <= |data|
    ensures sent + data[..n] + kept[n..] == sent + kept
    ensures sent <= sent + data[..n] && (sent == sent + data[..n] <==> n == 0)
  {
    assert |sent + data[..n]| == |sent| + n;
    assert data[..n] == kept[..n];
    CutAndJoin(sent, kept, n);
  }
}
