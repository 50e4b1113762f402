/**
 The kernel's side of one TCP connection: what it accepted, whether write events are armed, and
 what it answered so far. Every result that the system calls document is possible; nothing else
 is assumed, except that an error-free vectored write of at least one byte accepts at least one
 byte, and that a closed descriptor answers with an error.
 */
module Socket {
  import opened Bytes

  datatype Errno = OK | EAGAIN | Fatal

  const IOV_MAX := 1024   // how many slices writev takes

  /** History: how many system calls there were and what was answered. */
  datatype Log = Log(
    calls: nat,        // system calls of any kind
    failures: nat,     // write or writev answered with an error, EAGAIN included
    fatals: nat,       // ... with an error other than EAGAIN
    idle: nat,         // write of at least one byte took nothing, without an error
    hollow: nat,       // write or writev of no bytes answered EAGAIN
    oversized: nat,    // writev of more than IOV_MAX slices
    rejections: nat,   // the poller did not add the descriptor for reading
    refusals: nat,     // the poller did not start to watch for writability
    keeps: nat)        // the poller did not stop to watch for writability
  {
    /** One write; nothing: it took none of its bytes; empty: it had none. */
    function Wrote(err: Errno, nothing: bool, empty: bool): Log {
      this.(calls := calls + 1,
            failures := failures + (if err.OK? then 0 else 1),
            fatals := fatals + (if err.Fatal? then 1 else 0),
            idle := idle + (if err.OK? && nothing then 1 else 0),
            hollow := hollow + (if err.EAGAIN? && empty then 1 else 0))
    }

    function Oversized(): Log {
      this.(calls := calls + 1, failures := failures + 1, fatals := fatals + 1, oversized := oversized + 1)
    }

    function AddedRead(ok: bool): Log {
      this.(calls := calls + 1, rejections := rejections + (if ok then 0 else 1))
    }

    function Armed(ok: bool): Log {
      this.(calls := calls + 1, refusals := refusals + (if ok then 0 else 1))
    }

    function Disarmed(ok: bool): Log {
      this.(calls := calls + 1, keeps := keeps + (if ok then 0 else 1))
    }

    function Called(): Log {
      this.(calls := calls + 1)
    }

    /** Since the log before, some write of data took nothing, with or without an error. */
    predicate Fruitless(before: Log) {
      failures > before.failures || idle > before.idle
    }

    /** This log continues the one before, with no AddRead in between; a fatal answer is also a failure. */
    predicate Follows(before: Log) {
      && before.calls <= calls && before.failures <= failures && before.fatals <= fatals && before.idle <= idle
      && before.hollow <= hollow && before.oversized <= oversized
      && before.rejections == rejections && before.refusals <= refusals && before.keeps <= keeps
      && fatals - before.fatals <= failures - before.failures
    }
  }

  datatype State = State(sent: seq<byte>, armed: bool, registered: bool, closed: bool, log: Log)

  class Handle {
    var sent: seq<byte>    // bytes the kernel took over, in order
    var armed: bool        // write events are monitored
    var registered: bool   // the descriptor is in the epoll set
    var closed: bool       // the descriptor was closed
    var log: Log           // history

    constructor ()
      ensures sent == [] && !armed && !registered && !closed
    {
      sent, armed, registered, closed := [], false, false, false;
      log := Log(0, 0, 0, 0, 0, 0, 0, 0, 0);
    }

    ghost function View(): State
      reads this
    {
      State(sent, armed, registered, closed, log)
    }

    /** epoll_ctl(EPOLL_CTL_ADD) with read events; a registered descriptor answers EEXIST */
    method AddRead() returns (ok: bool)
      modifies this
      ensures View() == old(View()).(registered := ok || old(registered), log := old(log).AddedRead(ok))
      ensures ok ==> !old(registered) && !closed
    {
      ok := *;
      ok := ok && !registered && !closed;
      registered := registered || ok;
      log := log.AddedRead(ok);
    }

    /** epoll_ctl(EPOLL_CTL_ADD) with write events; a registered descriptor answers EEXIST */
    method AddWrite() returns (ok: bool)
      modifies this
      ensures ok ==> !old(registered) && !closed
      ensures View() == if ok then old(View()).(armed := true, registered := true, log := old(log).Armed(ok))
                        else old(View()).(log := old(log).Armed(ok))
    {
      ok := *;
      ok := ok && !registered && !closed;
      if ok {
        armed, registered := true, true;
      }
      log := log.Armed(ok);
    }

    /** write(2) */
    method Write(data: seq<byte>) returns (n: int, err: Errno)
      modifies this`sent, this`log
      ensures err.OK? ==> 0 <= n <= |data| && sent == old(sent) + data[..n]
      ensures !err.OK? ==> n == -1 && sent == old(sent)
      ensures log == old(log).Wrote(err, n == 0 && data != [], data == [])
      ensures closed ==> err.Fatal?
    {
      if closed {
        n, err := -1, Fatal;
      } else if * {
        n :| 0 <= n <= |data|;
        err := OK;
        sent := sent + data[..n];
      } else {
        n := -1;
        err :| err != OK;
      }
      log := log.Wrote(err, n == 0 && data != [], data == []);
    }

    /** io.Writev: an empty vector is not passed to the kernel, and one that is too long answers EINVAL. */
    method Writev(iov: seq<seq<byte>>) returns (n: int, err: Errno)
      modifies this`sent, this`log
      ensures err.OK? ==> 0 <= n <= |Flatten(iov)| && sent == old(sent) + Flatten(iov)[..n]
      ensures err.OK? && Flatten(iov) != [] ==> n > 0
      ensures !err.OK? ==> n == -1 && sent == old(sent)
      ensures log == if iov == [] then old(log) else if |iov| > IOV_MAX then old(log).Oversized() else old(log).Wrote(err, false, Flatten(iov) == [])
      ensures |iov| > IOV_MAX ==> err.Fatal?
      ensures closed && iov != [] ==> err.Fatal?
      ensures iov == [] ==> err.OK?
    {
      var data := Flatten(iov);
      if |iov| == 0 {
        assert sent + data[..0] == sent;
        return 0, OK;
      }
      if |iov| > IOV_MAX {
        log := log.Oversized();
        return -1, Fatal;
      }
      if closed {
        n, err := -1, Fatal;
      } else if * {
        n :| (if data == [] then 0 else 1) <= n <= |data|;
        err := OK;
        sent := sent + data[..n];
      } else {
        n := -1;
        err :| err != OK;
      }
      log := log.Wrote(err, false, data == []);
    }

    /** epoll_ctl(EPOLL_CTL_MOD) with read and write events */
    method ModReadWrite() returns (ok: bool)
      modifies this`armed, this`log
      ensures armed == (ok || old(armed)) && log == old(log).Armed(ok)
    {
      ok := *;
      ok := ok && !closed;
      armed := armed || ok;
      log := log.Armed(ok);
    }

    /** epoll_ctl(EPOLL_CTL_MOD) with read events only */
    method ModRead() returns (ok: bool)
      modifies this`armed, this`log
      ensures armed == (!ok && old(armed)) && log == old(log).Disarmed(ok)
    {
      ok := *;
      ok := ok && !closed;
      armed := armed && !ok;
      log := log.Disarmed(ok);
    }

    /** poller.Delete and close(2) */
    method Close()
      modifies this
      ensures View() == old(View()).(armed := false, registered := false, closed := true, log := old(log).Called())
    {
      armed, registered, closed := false, false, true;
      log := log.Called();
    }
  }
}
