/**
 From one application to the other: frames written through a sender's connection, a network that
 delivers some of what the sender's kernel accepted, in order and cut anywhere, and a receiver
 that decodes on each read event.
 */
module EndToEnd {
  import opened Bytes
  import Codec
  import Inbound
  import Outbound
  import Traffic

  /** What arrives: a prefix of what was sent, in pieces. */
  method Network(sent: seq<byte>) returns (chunks: seq<seq<byte>>, delivered: nat)
    ensures delivered <= |sent| && Flatten(chunks) == sent[..delivered]
  {
    chunks, delivered := [], 0;
    var more := *;
    while more && delivered < |sent|
      invariant delivered <= |sent| && Flatten(chunks) == sent[..delivered]
      decreases |sent| - delivered
    {
      var upTo :| delivered < upTo <= |sent|;
      var chunk := sent[delivered..upTo];
      FlattenSnoc(chunks, chunk);
      assert sent[..delivered] + chunk == sent[..upTo];
      chunks, delivered := chunks + [chunk], upTo;
      more := *;
    }
  }

  lemma {:induction false} HandedPrefix(rs: seq<Traffic.Request>, n: nat)
    requires n <= |rs|
    ensures Traffic.HandedAll(rs[..n]) <= Traffic.HandedAll(rs)
    ensures n == |rs| ==> Traffic.HandedAll(rs[..n]) == Traffic.HandedAll(rs)
    decreases |rs| - n
  {
    if n == |rs| {
      assert rs[..n] == rs;
    } else {
      Traffic.HandedNext(rs, n);
      HandedPrefix(rs, n + 1);
    }
  }

  lemma Handover(sent: seq<byte>, kept: seq<byte>, some: seq<byte>, all: seq<byte>)
    requires some <= all
    ensures sent <= [] + some ==> sent <= all
    ensures sent + kept == [] + all ==> sent <= all
    ensures sent == [] + some ==> sent == some
  {
    assert [] + all == all && (sent + kept)[..|sent|] == sent;
  }

  /**
   The sender hands over the frames of the messages, in whatever mix of writes and vectored
   writes, with writable events in between and possibly a close at the end. Whatever its kernel
   answers and however much the network delivers, the receiver gets a prefix of the messages,
   namely those whose frames arrived in full, and holds a part of the next frame.
   */
  method Transfer(c: Codec.Config, sender: Outbound.Channel, receiver: Inbound.Stream,
                  messages: seq<seq<byte>>, rs: seq<Traffic.Request>, close: bool)
    returns (received: seq<seq<byte>>, ghost arrived: seq<byte>)
    requires c.lengthFieldLength >= 1 && forall m :: m in messages ==> Codec.Carried(c, m)
    requires sender.Valid() && sender.Stream() == [] && Traffic.HandedAll(rs) == Codec.Frames(c, messages)
    requires receiver.Valid() && receiver.ring.Contents() == [] && sender.Repr !! receiver.Repr
    modifies sender.Repr, receiver.Repr
    ensures sender.Valid() && receiver.Valid() && arrived <= sender.sock.sent <= Codec.Frames(c, messages)
    ensures close && sender.sock.log.failures == old(sender.sock.log).failures ==> sender.sock.sent == Codec.Frames(c, messages)
    ensures |received| <= |messages| && received == messages[..|received|]
    ensures Codec.Partial(c, messages, arrived, |received|, receiver.ring.Contents())
    ensures arrived == Codec.Frames(c, messages) ==> received == messages && receiver.ring.Contents() == []
  {
    ghost var all := Codec.Frames(c, messages);
    Run(sender, rs, close, all);
    var chunks, delivered := Network(sender.sock.sent);
    arrived := sender.sock.sent[..delivered];
    received := Codec.ServeEvents(c, receiver, chunks);
    Arrived(c, messages, arrived, received, receiver.ring.Contents());
  }

  lemma Arrived(c: Codec.Config, messages: seq<seq<byte>>, arrived: seq<byte>, received: seq<seq<byte>>, rest: seq<byte>)
    requires c.lengthFieldLength >= 1 && forall m :: m in messages ==> Codec.Carried(c, m)
    requires arrived <= Codec.Frames(c, messages) && Codec.Decoded(received, rest) == Codec.Drain(c, arrived)
    ensures |received| <= |messages| && received == messages[..|received|]
    ensures Codec.Partial(c, messages, arrived, |received|, rest)
    ensures arrived == Codec.Frames(c, messages) ==> received == messages && rest == []
  {
    var k := Codec.CutStream(c, messages, arrived);
    if arrived == Codec.Frames(c, messages) {
      Codec.StreamRoundTrip(c, messages);
    }
  }

  method Run(sender: Outbound.Channel, rs: seq<Traffic.Request>, close: bool, ghost all: seq<byte>)
    requires sender.Valid() && sender.Stream() == [] && Traffic.HandedAll(rs) == all
    modifies sender.Repr
    ensures sender.Valid() && fresh(sender.Repr - old(sender.Repr)) && sender.sock.sent <= all
    ensures close && sender.sock.log.failures == old(sender.sock.log).failures ==> sender.sock.sent == all
  {
    var done, closed, _ := Traffic.OutboundRun(sender, rs, close);
    HandedPrefix(rs, done);
    Handover(sender.sock.sent, sender.buf.Contents(), Traffic.HandedAll(rs[..done]), all);
  }
}
