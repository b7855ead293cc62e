/**
 What a send and a buffered write come to: where every byte goes, for every outcome of write(2).
 */
module Outcomes {
  import opened Bytes
  import opened PollerModel
  import opened ConnectionModel

  /** Whatever the poller makes of an update, the channel keeps the mask it asked for. */
  lemma MaskIsSet(p: Poller, ch: Chan, m: Mask)
    ensures SetEvents(p, ch, m).1 == ch.(events := m, index := SetEvents(p, ch, m).1.index)
  {
  }

  /**
   A message is taken on whole unless the connection is down, or the socket, with nothing waiting in
   front of the message, turned out to be broken. What is taken on goes to the wire only from a
   successful write, only its first `n` bytes, and the rest goes behind what is buffered.
   */
  lemma SendAccounts(l: Local, data: seq<byte>, r: WriteResult)
    requires r.Wrote? ==> r.n <= |data|
    ensures var c, d := l.c, SendInLoop(l, data, r).c;
            var idle := !c.chan.events.write && c.out == [];
            && (c.state == Disconnected || (idle && r == Broken) ==>
              d.accepted == c.accepted && d.wire == c.wire && d.out == c.out && d.chan == c.chan)
            && (c.state != Disconnected && !(idle && r == Broken) ==> d.accepted == c.accepted + data)
            && (c.state != Disconnected && idle && r.Wrote? ==> d.wire == c.wire + data[..r.n] && d.out == data[r.n..])
            && (c.state != Disconnected && (r == Refused || !idle) ==> d.wire == c.wire && d.out == c.out + data)
            && (|d.out| > |c.out| ==> d.chan.events.write)
            && d.chan.events.read == c.chan.events.read && (c.chan.events.write ==> d.chan.events.write)
  {
    hide SetEvents;
    var c := l.c;
    MaskIsSet(l.w.poller, c.chan, c.chan.events.(write := true));
    if c.state != Disconnected && !c.chan.events.write && c.out == [] && r.Wrote? {
      assert [] + data[r.n..] == data[r.n..];
    }
    assert c.out + [] == c.out && data[0..] == data;
  }

  /** EWOULDBLOCK loses nothing: the whole message is buffered and the socket watched for writing. */
  lemma RefusedIsBuffered(l: Local, data: seq<byte>)
    requires l.c.state != Disconnected
    ensures var d := SendInLoop(l, data, Refused).c;
            d.wire == l.c.wire && d.out == l.c.out + data && (data != [] ==> d.chan.events.write)
  {
    SendAccounts(l, data, Refused);
  }

  /** Nothing else about the connection or the server is touched, except the poller and the queue. */
  lemma SendTouches(l: Local, data: seq<byte>, r: WriteResult)
    requires r.Wrote? ==> r.n <= |data|
    ensures var m := SendInLoop(l, data, r);
            && m.w == l.w.(q := m.w.q, poller := m.w.poller)
            && m.c == l.c.(wire := m.c.wire, out := m.c.out, accepted := m.c.accepted, chan := m.c.chan)
            && m.w.q == (if l.c.state != Disconnected && !l.c.chan.events.write && l.c.out == [] && r == Wrote(|data|)
                            && l.w.hasWriteDone
                         then l.w.q.Push(OnConn(WriteDone, l.c.me)) else l.w.q)
  {
    hide UpdateChannel;
  }

  /** Exactly the bytes that write(2) took move from the front of the buffer to the end of the wire. */
  lemma WriteAccounts(l: Local, n: int)
    requires n <= |l.c.out|
    ensures var c, d := l.c, HandleWrite(l, n).c;
            && (c.chan.events.write && n > 0 ==> d.wire == c.wire + c.out[..n] && d.out == c.out[n..])
            && (!c.chan.events.write || n <= 0 ==> HandleWrite(l, n) == l)
            && d.accepted == c.accepted && d.state == c.state && d.log == c.log && d.heard == c.heard
            && (c.chan.events.write && 0 < n < |c.out| ==>
              d.chan == c.chan && d.writeShut == c.writeShut && HandleWrite(l, n).w == l.w)
            && (c.chan.events.write && 0 < n == |c.out| ==>
              !d.chan.events.write && d.writeShut == (c.writeShut || c.state == Disconnecting))
  {
    hide SetEvents;
    MaskIsSet(l.w.poller, l.c.chan, l.c.chan.events.(write := false));
  }
}
