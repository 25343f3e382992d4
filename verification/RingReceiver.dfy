// The receiving half of a ring: peek, copy, commit. Nothing shared is written
// before the commit.
module RingReceivers {
  import opened Words
  import opened Frames
  import opened States
  import opened RingBuffers
  import opened SharedChannels

  datatype PeekedMessage = PeekedMessage(readCursor: nat, payloadLen: nat, seq32: nat)

  class RingReceiver {
    const ring: RingBuffer
    const shared: SharedChannel
    var expectedSeq: u32
    var cachedRc: nat

    // History: looks at the wait's condition, and sleeps on it.
    var looks: nat
    var sleeps: nat

    // History: the records published by the time this receiver last saw a terminal cause.
    var drained: nat

    constructor (buffer: RingBuffer, channel: SharedChannel)
      requires buffer.Valid() && buffer.consumed == 0 && !buffer.writerParked
      requires (buffer.published != [] ==> channel.connected)
      requires channel.Valid() && channel.a != channel.b && (buffer == channel.a || buffer == channel.b)
      ensures Valid() && ring == buffer && shared == channel
    {
      ring, shared := buffer, channel;
      expectedSeq, cachedRc, drained := 1, 0, 0;
      looks, sleeps := 0, 0;
    }

    /** Between calls nobody is parked on the writer line. */
    ghost predicate Valid()
      reads this, ring, ring.data, shared
    {
      Core() && !ring.writerParked
    }

    /** The private fields agree with the ring. */
    ghost predicate Core()
      reads this, ring, ring.data, shared
    {
      && ring.Valid() && shared.Valid()
      && shared.a != shared.b && (ring == shared.a || ring == shared.b)
      && expectedSeq == SeqOf(ring.consumed)
      && cachedRc == ring.readCursor
      && (ring.published != [] ==> shared.connected)
    }

    /** The peer's sender moves; it can publish only once the channel has been Connected. */
    method PeerMoves()
      requires Core()
      modifies ring`writeCursor, ring`writerNotify, ring`published, ring`readerParked, ring.data
      ensures Core() && Untaken()
    {
      if shared.connected {
        ring.PeerSends();
      }
    }

    /** `m` describes the next unread frame truthfully. */
    ghost predicate Current(m: PeekedMessage)
      reads this, ring
    {
      && ring.consumed < |ring.published|
      && m == PeekedMessage(cachedRc, |ring.published[ring.consumed]|, SeqOf(ring.consumed))
    }

    /** Nothing was taken: cursors, number, and all earlier history are as they were; the
        peer may have sent more. */
    twostate predicate Untaken()
      reads this, ring
    {
      && expectedSeq == old(expectedSeq) && cachedRc == old(cachedRc)
      && ring.readCursor == old(ring.readCursor) && ring.consumed == old(ring.consumed)
      && old(ring.published) <= ring.published
    }

    /** The next `k` records, and no more, were taken. */
    twostate predicate Took(k: nat)
      reads this, ring
    {
      && ring.consumed == old(ring.consumed) + k
      && old(ring.published) <= ring.published
    }

    /** `e` is the latched cause (or this caller's own retirement of an unready channel), and
        every record published by the time the cause was seen, so every one published before
        the state word became terminal or before the call, has been taken. A sender already
        past its check may publish more. */
    twostate predicate Final(e: Error)
      reads this, ring, shared
    {
      && Terminal(shared.state) && (e == CauseOf(shared.state) || (e == Retired && shared.mine == Some(Closed)))
      && |old(ring.published)| <= drained <= ring.consumed
    }

    /** The condition was looked at `l` times, and slept on `z` times. */
    twostate predicate Effort(l: nat, z: nat)
      reads this
    {
      looks == old(looks) + l && sleeps == old(sleeps) + z
    }

    method ReadMsgHeader(cursor: nat) returns (len: nat, q: nat)
      requires ring.Valid()
      ensures len == FromLe(CopyOut(ring.data[..], cursor, 8)[..4])
      ensures q == FromLe(CopyOut(ring.data[..], cursor, 8)[4..])
    {
      var header := new byte[8];
      ring.ReadRing(cursor, header, HEADER);
      assert header[..] == header[..8];
      len := FromLe(header[..4]);
      q := FromLe(header[4..]);
    }

    /** Empty exactly when the cursors meet; otherwise the head frame, truthfully. Of the
        branches the code has for corrupt lengths and partial frames, none is ever taken. */
    method TryPeekMessage() returns (r: Result<Option<PeekedMessage>>)
      requires Core()
      ensures r.Ok?
      ensures r == Ok(None) <==> ring.consumed == |ring.published|
      ensures r.value.Some? ==> Current(r.value.value)
    {
      var rc := cachedRc;
      var wc := ring.writeCursor;
      OffsetGap(ring.published, ring.consumed, |ring.published|);
      if wc - rc < HEADER {
        return Ok(None);
      }
      var len, q := ReadMsgHeader(rc);
      HeadFrame(ring.data[..], rc, wc, ring.published, ring.consumed);
      if len > ring.size - HEADER {
        return Err(MessageTooLarge);
      }
      if wc - rc < HEADER + len {
        return Ok(None);
      }
      r := Ok(Some(PeekedMessage(rc, len, q)));
    }

    /** Copies the head payload, or refuses a buffer that is too small. */
    method CopyCurrentMessage(m: PeekedMessage, buf: array<byte>) returns (r: Result<nat>)
      requires Valid() && Current(m) && buf != ring.data
      modifies buf
      ensures r.Ok? <==> m.payloadLen <= buf.Length
      ensures r.Ok? ==> r.value == m.payloadLen && buf[..m.payloadLen] == ring.published[ring.consumed]
      ensures r.Ok? ==> buf[m.payloadLen..] == old(buf[m.payloadLen..])
      ensures r.Err? ==> r.error == MessageTooLarge && buf[..] == old(buf[..])
    {
      if m.payloadLen > buf.Length {
        return Err(MessageTooLarge);
      }
      HeadFrame(ring.data[..], cachedRc, ring.writeCursor, ring.published, ring.consumed);
      ring.ReadRing(m.readCursor + HEADER, buf, m.payloadLen);
      r := Ok(m.payloadLen);
    }

    /** The commit point: number check, cursor store, bump. */
    method CommitCurrentMessage(m: PeekedMessage) returns (r: Result<()>)
      requires Valid() && Current(m)
      modifies this`expectedSeq, this`cachedRc, ring`readCursor, ring`readerNotify, ring`consumed
      ensures Valid() && r == Ok(())
      ensures ring.consumed == old(ring.consumed) + 1
      ensures ring.readerNotify == Succ32(old(ring.readerNotify))
    {
      if m.seq32 != expectedSeq {
        return Err(SequenceMismatch);
      }
      expectedSeq := Succ32(expectedSeq);
      var newRc := m.readCursor + (HEADER + m.payloadLen);
      var _ := ring.Commit(newRc);
      cachedRc := newRc;
      r := Ok(());
    }

    /** The second look, after readiness gave `error`: a cause is passed on only if the ring
        is empty now. Senders already past their check may publish before and after. */
    method LookAgain(error: Error) returns (r: Result<Option<PeekedMessage>>)
      requires Core() && Terminal(shared.state)
      requires || error == CauseOf(shared.state)
               || (error == Retired && ring.published == [] && !shared.connected && shared.mine == Some(Closed))
      modifies this`drained, ring`writeCursor, ring`writerNotify, ring`published, ring`readerParked, ring.data
      ensures Core() && Untaken()
      ensures r.Ok? ==> r.value.Some? && Current(r.value.value)
      ensures r.Err? ==> r.error == error && Final(error)
      ensures r == Err(Retired) ==> ring.published == []
      ensures old(ring.consumed) < |old(ring.published)| ==> r.Ok?
    {
      drained := |ring.published|;
      r := Err(error);
      if error == ChannelClosed || error == PeerGone {
        PeerMoves();
        r := TryPeekMessage();
        if r.value.None? {
          r := Err(error);
        }
      }
      PeerMoves();
    }

    /** After an empty peek: ask for readiness; if that names an error, look again. */
    method AskWhenEmpty() returns (r: Result<Option<PeekedMessage>>)
      requires Core()
      modifies this`drained, ring`writeCursor, ring`writerNotify, ring`published, ring`readerParked, ring.data
      modifies shared, shared.a`writerNotify, shared.a`readerNotify, shared.b`writerNotify, shared.b`readerNotify
      ensures Core() && Untaken() && shared.Moved()
      ensures r.Ok? && r.value.Some? ==> Current(r.value.value)
      ensures r.Err? ==> Final(r.error)
      ensures r == Err(Retired) ==> ring.published == []
      ensures old(shared.Doomed()) ==> r.Err? || r.value.Some?
    {
      var ready := shared.AskReady();
      match ready
      case Ok(_) => r := Ok(None);
      case Err(error) => r := LookAgain(error);
    }

    /** Peek; if empty ask for readiness; if that names a terminal cause, peek again. An
        error with a cause is reported only when that second look found nothing. */
    method TryPeekOrClosed() returns (r: Result<Option<PeekedMessage>>)
      requires Core()
      modifies this`looks, this`drained
      modifies ring`writeCursor, ring`writerNotify, ring`published, ring`readerParked, ring.data
      modifies shared, shared.a`writerNotify, shared.a`readerNotify, shared.b`writerNotify, shared.b`readerNotify
      ensures Core() && Untaken() && shared.Moved() && Effort(1, 0)
      ensures r.Ok? && r.value.Some? ==> Current(r.value.value)
      ensures r.Err? ==> Final(r.error)
      ensures r == Err(Retired) ==> ring.published == []
      ensures old(ring.consumed) < |old(ring.published)| ==> r.Ok? && r.value.Some?
      ensures old(shared.Doomed()) ==> r.Err? || r.value.Some?
    {
      looks := looks + 1;
      r := TryPeekMessage();
      if r.value.None? {
        PeerMoves();
        r := AskWhenEmpty();
      }
    }

    ghost function Frame(): set<object>
    {
      {this, ring, ring.data, shared, shared.a, shared.b}
    }

    /** Copy and commit the peeked record, the peer sending on all the while: it is delivered
        exactly once, whole. */
    method TakeMessage(m: PeekedMessage) returns (payload: Payload)
      requires Valid() && Current(m)
      modifies Frame()
      ensures Valid() && shared.Moved() && Took(1)
      ensures payload == ring.published[old(ring.consumed)]
      ensures Effort(0, 0)
    {
      PeerMoves();
      var buf := new byte[m.payloadLen];
      var copied := CopyCurrentMessage(m, buf);
      payload := buf[..];
      PeerMoves();
      var _ := CommitCurrentMessage(m);
    }

    /** Deliver the peeked record into `buf`, or discard it when it is too large. */
    method TakeInto(m: PeekedMessage, buf: array<byte>) returns (r: Result<nat>)
      requires Valid() && Current(m) && buf != ring.data
      modifies Frame(), buf
      ensures Valid() && shared.Moved() && Took(1)
      ensures r.Ok? <==> m.payloadLen <= buf.Length
      ensures r.Ok? ==> r.value == m.payloadLen && buf[..r.value] == ring.published[old(ring.consumed)]
      ensures r.Ok? ==> buf[r.value..] == old(buf[..])[r.value..]
      ensures r.Err? ==> r.error == MessageTooLarge && buf[..] == old(buf[..])
      ensures Effort(0, 0)
    {
      PeerMoves();
      if m.payloadLen > buf.Length {
        var _ := CommitCurrentMessage(m);
        return Err(MessageTooLarge);
      }
      r := CopyCurrentMessage(m, buf);
      PeerMoves();
      var _ := CommitCurrentMessage(m);
    }

    /** Non-blocking receive. */
    method TryRecv() returns (r: Result<Option<Payload>>)
      requires Valid()
      modifies Frame()
      ensures Valid() && shared.Moved()
      ensures if r.Ok? && r.value.Some?
              then Took(1) && r.value.value == ring.published[old(ring.consumed)]
              else Untaken()
      ensures r.Err? ==> Final(r.error)
      ensures old(ring.consumed) < |old(ring.published)| ==> r.Ok? && r.value.Some?
      ensures Effort(1, 0)
      ensures old(shared.Doomed()) ==> r.Err? || r.value.Some?
    {
      var p := TryPeekOrClosed();
      if p.Err? {
        return Err(p.error);
      }
      if p.value.None? {
        return Ok(None);
      }
      var payload := TakeMessage(p.value.value);
      r := Ok(Some(payload));
    }

    /** Phase one of `wait_until`: spin on the condition. */
    method SpinForMessage(spins: nat) returns (r: Result<Option<PeekedMessage>>)
      requires Valid()
      modifies this`looks, this`sleeps, this`drained
      modifies ring`writeCursor, ring`writerNotify, ring`published, ring`readerParked, ring.data
      modifies shared, shared.a`writerNotify, shared.a`readerNotify, shared.b`writerNotify, shared.b`readerNotify
      ensures Valid() && Untaken() && shared.Moved()
      ensures r.Ok? && r.value.Some? ==> Current(r.value.value)
      ensures r.Err? ==> Final(r.error)
      ensures old(ring.consumed) < |old(ring.published)| ==> r.Ok?
      ensures r == Ok(None) ==> Effort(spins, 0)
      ensures sleeps == old(sleeps)
    {
      for i := 0 to spins
        invariant Effort(i, 0)
        invariant Valid() && Untaken() && shared.Moved()
      {
        r := TryPeekOrClosed();
        if r.Err? || r.value.Some? {
          return;
        }
      }
      r := Ok(None);
    }

    /** Check again while parked; if still empty, sleep unless the word left `snapshot`. */
    method CheckThenSleep(snapshot: u32) returns (r: Result<Option<PeekedMessage>>)
      requires Core()
      modifies this`looks, this`sleeps, this`drained
      modifies ring`writeCursor, ring`writerNotify, ring`published, ring`readerParked, ring.data
      modifies shared, shared.a`writerNotify, shared.a`readerNotify, shared.b`writerNotify, shared.b`readerNotify
      ensures Core() && Untaken() && shared.Moved()
      ensures r.Ok? && r.value.Some? ==> Current(r.value.value)
      ensures r.Err? ==> Final(r.error)
      ensures Effort(1, if r == Ok(None) then 1 else 0)
    {
      r := TryPeekOrClosed();
      if r.Ok? && r.value.None? {
        sleeps := sleeps + 1;
        if ring.writerNotify == snapshot {
          PeerMoves();
          shared.Interfere();
        }
      }
    }

    /** Say so, check again, perhaps sleep, and take it back. */
    method Park(snapshot: u32) returns (r: Result<Option<PeekedMessage>>)
      requires Valid()
      modifies this`looks, this`sleeps, this`drained, ring`writeCursor, ring`writerNotify, ring`published
      modifies ring`readerParked, ring`writerParked, ring.data
      modifies shared, shared.a`writerNotify, shared.a`readerNotify, shared.b`writerNotify, shared.b`readerNotify
      ensures Valid() && Untaken() && shared.Moved()
      ensures r.Ok? && r.value.Some? ==> Current(r.value.value)
      ensures r.Err? ==> Final(r.error)
      ensures Effort(1, if r == Ok(None) then 1 else 0)
    {
      ring.writerParked := true;
      r := CheckThenSleep(snapshot);
      ring.writerParked := false;
    }

    /** One turn of phase two: snapshot, check, deadline, park, check again, sleep, unpark.
        None means it slept. Every exit leaves `parked` clear. */
    method ParkForMessage(expired: bool) returns (r: Result<Option<PeekedMessage>>)
      requires Valid()
      modifies this`looks, this`sleeps, this`drained, ring`writeCursor, ring`writerNotify, ring`published
      modifies ring`readerParked, ring`writerParked, ring.data
      modifies shared, shared.a`writerNotify, shared.a`readerNotify, shared.b`writerNotify, shared.b`readerNotify
      ensures Valid() && !ring.writerParked
      ensures Untaken() && shared.Moved()
      ensures r.Ok? && r.value.Some? ==> Current(r.value.value)
      ensures r.Err? ==> if r.error == TimedOut then expired && !old(shared.Doomed()) else Final(r.error)
      ensures r == Ok(None) ==> !expired
      ensures old(ring.consumed) < |old(ring.published)| ==> r.Ok? && r.value.Some?
      ensures r == Ok(None) ==> Effort(2, 1)
      ensures r == Err(TimedOut) ==> Effort(1, 0)
      ensures r != Ok(None) ==> sleeps == old(sleeps)
    {
      var snapshot := ring.writerNotify;
      r := TryPeekOrClosed();
      if r.Err? || r.value.Some? {
        return;
      }
      if expired {
        return Err(TimedOut);
      }
      r := Park(snapshot);
    }

    /** `wait_until` on the writer line; `patience` is how many sleeps fit before the deadline.
        It never times out over a record, or a terminal state, that was there at the call. */
    method WaitForMessage(spins: nat, patience: nat) returns (r: Result<PeekedMessage>)
      requires Valid()
      modifies this`looks, this`sleeps, this`drained, ring`writeCursor, ring`writerNotify, ring`published
      modifies ring`readerParked, ring`writerParked, ring.data
      modifies shared, shared.a`writerNotify, shared.a`readerNotify, shared.b`writerNotify, shared.b`readerNotify
      ensures Valid() && Untaken() && shared.Moved()
      ensures r.Ok? ==> Current(r.value)
      ensures r.Err? ==> if r.error == TimedOut then !old(shared.Doomed()) else Final(r.error)
      ensures old(ring.consumed) < |old(ring.published)| ==> r.Ok?
      ensures r.Err? ==> r.error != MessageTooLarge
      ensures r == Err(TimedOut) ==> Effort(spins + 2 * patience + 1, patience)
      ensures sleeps <= old(sleeps) + patience
    {
      var c := SpinForMessage(spins);
      var turns := 0;
      while c == Ok(None)
        invariant turns <= patience + 1 && (turns == patience + 1 ==> c != Ok(None))
        invariant Valid() && Untaken() && shared.Moved()
        invariant c.Err? ==> if c.error == TimedOut then !old(shared.Doomed()) else Final(c.error)
        invariant old(ring.consumed) < |old(ring.published)| ==> c.Ok?
        invariant c.Ok? && c.value.Some? ==> Current(c.value.value)
        invariant c == Ok(None) ==> Effort(spins + 2 * turns, turns)
        invariant c == Err(TimedOut) ==> Effort(spins + 2 * patience + 1, patience)
        invariant sleeps <= old(sleeps) + patience
        decreases patience + 1 - turns
      {
        c := ParkForMessage(turns == patience);
        turns := turns + 1;
      }
      r := if c.Err? then Err(c.error) else Ok(c.value.value);
    }

    method Recv(spins: nat, patience: nat) returns (r: Result<Payload>)
      requires Valid()
      modifies Frame()
      ensures Valid() && shared.Moved()
      ensures if r.Ok? then Took(1) && r.value == ring.published[old(ring.consumed)] else Untaken()
      ensures r.Err? && r.error != TimedOut ==> Final(r.error)
      ensures old(ring.consumed) < |old(ring.published)| ==> r.Ok?
      ensures r == Err(TimedOut) ==> !old(shared.Doomed())
      ensures r == Err(TimedOut) ==> Effort(spins + 2 * patience + 1, patience)
      ensures sleeps <= old(sleeps) + patience
    {
      var w := WaitForMessage(spins, patience);
      if w.Err? {
        return Err(w.error);
      }
      var payload := TakeMessage(w.value);
      r := Ok(payload);
    }

    /** A record too large for the caller's buffer is discarded, once, with later records
        intact; otherwise it is delivered into the front of the buffer. */
    method RecvInto(buf: array<byte>, spins: nat, patience: nat) returns (r: Result<nat>)
      requires Valid() && buf != ring.data
      modifies Frame(), buf
      ensures Valid() && shared.Moved()
      ensures r.Ok? ==>
                && Took(1) && r.value == |ring.published[old(ring.consumed)]| <= buf.Length
                && buf[..r.value] == ring.published[old(ring.consumed)]
                && buf[r.value..] == old(buf[..])[r.value..]
      ensures r == Err(MessageTooLarge) ==>
                Took(1) && |ring.published[old(ring.consumed)]| > buf.Length && buf[..] == old(buf[..])
      ensures r.Err? && r.error != MessageTooLarge ==> Untaken() && buf[..] == old(buf[..])
      ensures r.Err? && r.error != MessageTooLarge && r.error != TimedOut ==> Final(r.error)
      ensures old(ring.consumed) < |old(ring.published)| ==> r.Ok? || r.error == MessageTooLarge
      ensures r == Err(TimedOut) ==> Effort(spins + 2 * patience + 1, patience)
      ensures sleeps <= old(sleeps) + patience
    {
      var w := WaitForMessage(spins, patience);
      if w.Err? {
        return Err(w.error);
      }
      r := TakeInto(w.value, buf);
    }
  }
}
