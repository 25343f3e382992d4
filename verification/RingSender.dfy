// The sending half of a ring: private cursors and sequence number over a shared
// buffer, with the peer's receiver and every other party moving in between.
module RingSenders {
  import opened Words
  import opened Frames
  import opened States
  import opened RingBuffers
  import opened SharedChannels

  datatype TrySend = Sent | Full

  /** What an awaiting operation comes to; `Cancelled` is the future dropped at an await. */
  datatype Async<+T> = Ready(result: Result<T>) | Cancelled

  class RingSender {
    const ring: RingBuffer
    const shared: SharedChannel
    var nextSeq: u32
    var cachedWc: nat
    var cachedRc: nat

    // History: calls of TrySendOnce; looks at the wait's condition, and sleeps on it.
    var attempts: nat
    var looks: nat
    var sleeps: nat

    constructor (buffer: RingBuffer, channel: SharedChannel)
      requires buffer.Valid() && buffer.published == [] && !buffer.readerParked
      requires channel.Valid() && channel.a != channel.b && (buffer == channel.a || buffer == channel.b)
      ensures Valid() && ring == buffer && shared == channel
    {
      ring, shared := buffer, channel;
      nextSeq, cachedWc, cachedRc := 1, 0, 0;
      attempts, looks, sleeps := 0, 0, 0;
    }

    /** Between calls nobody is parked on the reader line. */
    ghost predicate Valid()
      reads this, ring, ring.data, shared
    {
      Core() && !ring.readerParked
    }

    /** The private fields agree with the ring; the cached read cursor may be stale. */
    ghost predicate Core()
      reads this, ring, ring.data, shared
    {
      && ring.Valid() && shared.Valid()
      && shared.a != shared.b && (ring == shared.a || ring == shared.b)
      && nextSeq == SeqOf(|ring.published|)
      && cachedWc == ring.writeCursor
      && cachedRc <= ring.readCursor && ring.writeCursor <= cachedRc + ring.size
      && (ring.published != [] ==> shared.connected)
    }

    /** Nothing was sent: cursor, number, history and every byte are as they were; the peer's
        read cursor may only have advanced. */
    twostate predicate Untouched()
      reads this, ring, ring.data
    {
      && nextSeq == old(nextSeq) && cachedWc == old(cachedWc)
      && ring.writeCursor == old(ring.writeCursor) && old(ring.readCursor) <= ring.readCursor
      && ring.published == old(ring.published)
      && ring.data[..] == old(ring.data[..])
    }

    /** Exactly `payload` was sent. */
    twostate predicate SentOne(payload: Payload)
      reads this, ring
    {
      && ring.published == old(ring.published) + [payload]
      && ring.writeCursor == old(ring.writeCursor) + HEADER + |payload|
      && nextSeq == Succ32(old(nextSeq))
    }

    /** The condition was looked at `l` times, and slept on `z` times. */
    twostate predicate Effort(l: nat, z: nat)
      reads this
    {
      looks == old(looks) + l && sleeps == old(sleeps) + z
    }

    /** Room left by the sender's cached view of the read cursor. */
    predicate HasSpace(msgLen: nat)
      reads this, ring
    {
      ring.size - (cachedWc - cachedRc) >= msgLen
    }

    /** No reason to send now: not connected, or too little room behind the read cursor. */
    predicate NoRoom(msgLen: nat)
      reads this, ring, shared
    {
      Unready(shared.state) || ring.size - (ring.writeCursor - ring.readCursor) < msgLen
    }

    /** `e` is the latched cause, or this caller's own retirement of an unready channel. */
    predicate Latched(e: Error)
      reads shared
    {
      Terminal(shared.state) && (e == CauseOf(shared.state) || (e == Retired && shared.mine == Some(Closed)))
    }

    function MessageSize(len: nat): (r: Result<nat>)
      reads ring
      ensures r.Ok? <==> HEADER + len <= ring.size
      ensures r.Ok? ==> r.value == HEADER + len
      ensures r.Err? ==> r.error == MessageTooLarge
    {
      if HEADER + len > ring.size then Err(MessageTooLarge) else Ok(HEADER + len)
    }

    method PublishMessage(payload: Payload)
      requires Valid() && shared.connected && HasSpace(HEADER + |payload|)
      modifies this`nextSeq, this`cachedWc, ring`writeCursor, ring`writerNotify, ring`published, ring.data
      ensures Valid() && SentOne(payload)
      ensures ring.writerNotify == Succ32(old(ring.writerNotify))
    {
      var _ := ring.Publish(payload, nextSeq);
      cachedWc := cachedWc + (HEADER + |payload|);
      nextSeq := Succ32(nextSeq);
    }

    /** The full frame every sending operation may touch outside the data itself. */
    ghost function Frame(): set<object>
    {
      {this, ring, ring.data, shared, shared.a, shared.b}
    }

    /** Room by the cached cursor, else by a fresh load of the shared one. */
    method RefreshIfShort(msgLen: nat) returns (room: bool)
      requires Valid()
      modifies this`cachedRc, ring`readCursor, ring`readerNotify, ring`consumed, ring`writerParked
      ensures Valid() && Untouched()
      ensures room <==> HasSpace(msgLen)
      ensures !room ==> old(ring.readCursor) <= cachedRc
      ensures old(HasSpace(msgLen)) ==> room && cachedRc == old(cachedRc)
    {
      if !HasSpace(msgLen) {
        ring.PeerTakes();
        cachedRc := ring.readCursor;
        ring.PeerTakes();
      }
      room := HasSpace(msgLen);
    }

    /** The rest of an attempt once the channel was found ready: size, room, publish. */
    method PublishIfRoom(payload: Payload) returns (r: Result<TrySend>)
      requires Valid() && shared.connected
      modifies this`nextSeq, this`cachedWc, this`cachedRc
      modifies ring`writeCursor, ring`writerNotify, ring`published, ring.data
      modifies ring`readCursor, ring`readerNotify, ring`consumed, ring`writerParked
      ensures Valid()
      ensures if r == Ok(Sent) then SentOne(payload) else Untouched()
      ensures r == Ok(Full) ==> old(ring.readCursor) <= cachedRc && !HasSpace(HEADER + |payload|)
      ensures r.Err? <==> HEADER + |payload| > ring.size
      ensures r.Err? ==> r.error == MessageTooLarge
      ensures old(HasSpace(HEADER + |payload|)) ==> r != Ok(Full)
    {
      var size := MessageSize(|payload|);
      if size.Err? {
        return Err(size.error);
      }
      var room := RefreshIfShort(size.value);
      if !room {
        return Ok(Full);
      }
      PublishMessage(payload);
      r := Ok(Sent);
    }

    /** One attempt. The state word may move on between the readiness check and the publish,
        so Sent means only that the channel has been Connected. Full means that the channel
        was unready when the call began, or that a load of the read cursor made during the
        call (now cached) shows too little room. Any outcome but Sent leaves the ring alone. */
    method TrySendOnce(payload: Payload) returns (r: Result<TrySend>)
      requires Valid()
      modifies this, ring`writeCursor, ring`published, ring`readCursor, ring`consumed, ring`writerParked, ring.data
      modifies shared, shared.a`writerNotify, shared.a`readerNotify, shared.b`writerNotify, shared.b`readerNotify
      ensures Valid() && shared.Moved() && attempts == old(attempts) + 1
      ensures if r == Ok(Sent) then SentOne(payload) else Untouched()
      ensures r == Ok(Sent) ==> shared.connected && HEADER + |payload| <= ring.size
      ensures r == Ok(Full) ==>
                || Unready(old(shared.state))
                || (&& old(ring.readCursor) <= cachedRc && !HasSpace(HEADER + |payload|)
                    && HEADER + |payload| <= ring.size)
      ensures r.Err? ==> r.error == MessageTooLarge || Latched(r.error)
      ensures r == Err(MessageTooLarge) ==> HEADER + |payload| > ring.size
      ensures old(shared.connected && HasSpace(HEADER + |payload|)) ==> r != Ok(Full)
      ensures Effort(0, 0)
      ensures old(shared.Doomed()) ==> r.Err?
    {
      attempts := attempts + 1;
      var ready := shared.AskReady();
      if ready.Err? {
        return Err(ready.error);
      }
      if !ready.value {
        return Ok(Full);
      }
      r := PublishIfRoom(payload);
    }

    /** A read cursor that grants `msgLen` bytes in a channel that has been Connected. */
    predicate Granted(rc: nat, msgLen: nat)
      reads this, ring, shared
    {
      cachedRc <= rc <= ring.readCursor && ring.writeCursor + msgLen <= rc + ring.size && shared.connected
    }

    /** One evaluation of the blocking wait's condition: a read cursor with enough room. It
        cannot miss room that was there, in a connected channel, when it began. */
    method RoomCondition(msgLen: nat) returns (r: Result<Option<nat>>)
      requires Core() && msgLen <= ring.size
      modifies this`looks, this`sleeps
      modifies shared, shared.a`writerNotify, shared.a`readerNotify, shared.b`writerNotify, shared.b`readerNotify
      modifies ring`readCursor, ring`consumed, ring`writerParked
      ensures Core() && shared.Moved() && Untouched() && cachedRc == old(cachedRc)
      ensures r.Err? ==> Latched(r.error)
      ensures r.Ok? && r.value.Some? ==> Granted(r.value.value, msgLen)
      ensures r == Ok(None) ==> old(NoRoom(msgLen))
      ensures Effort(1, 0)
      ensures old(shared.Doomed()) ==> r.Err?
    {
      looks := looks + 1;
      var ready := shared.AskReady();
      if ready.Err? {
        return Err(ready.error);
      }
      if !ready.value {
        return Ok(None);
      }
      ring.PeerTakes();
      var rc := ring.readCursor;
      r := if ring.size - (cachedWc - rc) >= msgLen then Ok(Some(rc)) else Ok(None);
    }

    /** Phase one of `wait_until`: spin on the condition. */
    method SpinForRoom(msgLen: nat, spins: nat) returns (r: Result<Option<nat>>)
      requires Valid() && msgLen <= ring.size
      modifies this`looks, this`sleeps
      modifies shared, shared.a`writerNotify, shared.a`readerNotify, shared.b`writerNotify, shared.b`readerNotify
      modifies ring`readCursor, ring`consumed, ring`writerParked
      ensures Valid() && shared.Moved() && Untouched() && cachedRc == old(cachedRc)
      ensures r.Err? ==> Latched(r.error)
      ensures r.Ok? && r.value.Some? ==> Granted(r.value.value, msgLen)
      ensures r == Ok(None) ==> Effort(spins, 0)
      ensures sleeps == old(sleeps)
    {
      r := Ok(None);
      for i := 0 to spins
        invariant Effort(i, 0)
        invariant Valid() && shared.Moved() && Untouched() && cachedRc == old(cachedRc)
      {
        r := RoomCondition(msgLen);
        if r.Err? || r.value.Some? {
          return;
        }
      }
      r := Ok(None);
    }

    /** Check again while parked; if still short, sleep unless the word left `snapshot`. */
    method CheckThenSleep(msgLen: nat, snapshot: u32) returns (r: Result<Option<nat>>)
      requires Core() && msgLen <= ring.size
      modifies this`looks, this`sleeps
      modifies shared, shared.a`writerNotify, shared.a`readerNotify, shared.b`writerNotify, shared.b`readerNotify
      modifies ring`readCursor, ring`consumed, ring`writerParked
      ensures Core() && shared.Moved() && Untouched() && cachedRc == old(cachedRc)
      ensures r.Err? ==> Latched(r.error)
      ensures r.Ok? && r.value.Some? ==> Granted(r.value.value, msgLen)
      ensures Effort(1, if r == Ok(None) then 1 else 0)
    {
      r := RoomCondition(msgLen);
      if r.Ok? && r.value.None? {
        sleeps := sleeps + 1;
        if ring.readerNotify == snapshot {
          ring.PeerTakes();
          shared.Interfere();
        }
      }
    }

    /** Say so, check again, perhaps sleep, and take it back. */
    method Park(msgLen: nat, snapshot: u32) returns (r: Result<Option<nat>>)
      requires Valid() && msgLen <= ring.size
      modifies this`looks, this`sleeps
      modifies shared, shared.a`writerNotify, shared.a`readerNotify, shared.b`writerNotify, shared.b`readerNotify
      modifies ring`readCursor, ring`consumed, ring`writerParked, ring`readerParked
      ensures Valid() && shared.Moved() && Untouched() && cachedRc == old(cachedRc)
      ensures r.Err? ==> Latched(r.error)
      ensures r.Ok? && r.value.Some? ==> Granted(r.value.value, msgLen)
      ensures Effort(1, if r == Ok(None) then 1 else 0)
    {
      ring.readerParked := true;
      r := CheckThenSleep(msgLen, snapshot);
      ring.readerParked := false;
    }

    /** One turn of phase two: snapshot, check, deadline, park, check again, sleep, unpark.
        None means it slept. Every exit leaves `parked` clear. */
    method ParkForRoom(msgLen: nat, expired: bool) returns (r: Result<Option<nat>>)
      requires Valid() && msgLen <= ring.size
      modifies this`looks, this`sleeps
      modifies shared, shared.a`writerNotify, shared.a`readerNotify, shared.b`writerNotify, shared.b`readerNotify
      modifies ring`readCursor, ring`consumed, ring`writerParked, ring`readerParked
      ensures Valid() && !ring.readerParked
      ensures shared.Moved() && Untouched() && cachedRc == old(cachedRc)
      ensures r.Err? ==> r.error == TimedOut || Latched(r.error)
      ensures r == Err(TimedOut) ==> expired && old(NoRoom(msgLen) && !shared.Doomed())
      ensures r.Ok? && r.value.Some? ==> Granted(r.value.value, msgLen)
      ensures r == Ok(None) ==> !expired
      ensures r == Ok(None) ==> Effort(2, 1)
      ensures r == Err(TimedOut) ==> Effort(1, 0)
      ensures r != Ok(None) ==> sleeps == old(sleeps)
    {
      var snapshot := ring.readerNotify;
      r := RoomCondition(msgLen);
      if r.Err? || r.value.Some? {
        return;
      }
      if expired {
        return Err(TimedOut);
      }
      r := Park(msgLen, snapshot);
    }

    /** `wait_until` on the reader line; `patience` is how many sleeps fit before the deadline.
        It never times out when the channel was connected, with the room, at the call. */
    method WaitForRoom(msgLen: nat, spins: nat, patience: nat) returns (r: Result<nat>)
      requires Valid() && msgLen <= ring.size
      modifies this`looks, this`sleeps
      modifies shared, shared.a`writerNotify, shared.a`readerNotify, shared.b`writerNotify, shared.b`readerNotify
      modifies ring`readCursor, ring`consumed, ring`writerParked, ring`readerParked
      ensures Valid() && shared.Moved() && Untouched() && cachedRc == old(cachedRc)
      ensures r.Ok? ==> Granted(r.value, msgLen)
      ensures r.Err? ==> if r.error == TimedOut then old(NoRoom(msgLen) && !shared.Doomed()) else Latched(r.error)
      ensures r == Err(TimedOut) ==> Effort(spins + 2 * patience + 1, patience)
      ensures sleeps <= old(sleeps) + patience
    {
      var c := SpinForRoom(msgLen, spins);
      var turns := 0;
      while c == Ok(None)
        invariant turns <= patience + 1 && (turns == patience + 1 ==> c != Ok(None))
        invariant Valid() && shared.Moved() && Untouched() && cachedRc == old(cachedRc)
        invariant c.Err? ==> if c.error == TimedOut then old(NoRoom(msgLen) && !shared.Doomed()) else Latched(c.error)
        invariant c.Ok? && c.value.Some? ==> Granted(c.value.value, msgLen)
        invariant c == Ok(None) ==> Effort(spins + 2 * turns, turns)
        invariant c == Err(TimedOut) ==> Effort(spins + 2 * patience + 1, patience)
        invariant sleeps <= old(sleeps) + patience
        decreases patience + 1 - turns
      {
        c := ParkForRoom(msgLen, turns == patience);
        turns := turns + 1;
      }
      r := if c.Err? then Err(c.error) else Ok(c.value.value);
    }

    /** Wait, then adopt the read cursor that granted the room. */
    method AwaitRoom(msgLen: nat, spins: nat, patience: nat) returns (r: Result<()>)
      requires Valid() && msgLen <= ring.size
      modifies this`looks, this`sleeps, this`cachedRc
      modifies shared, shared.a`writerNotify, shared.a`readerNotify, shared.b`writerNotify, shared.b`readerNotify
      modifies ring`readCursor, ring`consumed, ring`writerParked, ring`readerParked
      ensures Valid() && shared.Moved() && Untouched()
      ensures r.Ok? ==> shared.connected && HasSpace(msgLen)
      ensures attempts == old(attempts)
      ensures r.Err? ==> if r.error == TimedOut then old(NoRoom(msgLen) && !shared.Doomed()) else Latched(r.error)
      ensures r == Err(TimedOut) ==> Effort(spins + 2 * patience + 1, patience)
      ensures sleeps <= old(sleeps) + patience
    {
      var rc := WaitForRoom(msgLen, spins, patience);
      if rc.Err? {
        return Err(rc.error);
      }
      cachedRc := rc.value;
      r := Ok(());
    }

    /** Blocking send. After a successful wait the next attempt succeeds or the channel is
        terminal, so there are at most two attempts, and none to spare for a payload that
        can never fit. An error published nothing; a time-out means that the channel was not
        connected, or had too little room, at the call. */
    method Send(payload: Payload, spins: nat, patience: nat) returns (r: Result<()>)
      requires Valid()
      modifies Frame()
      ensures Valid() && shared.Moved()
      ensures if r.Ok? then SentOne(payload) else Untouched()
      ensures r == Err(MessageTooLarge) <==> HEADER + |payload| > ring.size
      ensures attempts <= old(attempts) + (if r == Err(MessageTooLarge) then 0 else 2)
      ensures r == Err(TimedOut) ==> old(NoRoom(HEADER + |payload|))
      ensures r.Err? ==> r.error == MessageTooLarge || r.error == TimedOut || Latched(r.error)
      ensures r == Err(TimedOut) ==> Effort(spins + 2 * patience + 1, patience)
      ensures sleeps <= old(sleeps) + patience
      ensures old(shared.Doomed()) ==> r.Err? && r.error != TimedOut
    {
      var size := MessageSize(|payload|);
      if size.Err? {
        return Err(size.error);
      }
      var granted := false;
      while true
        invariant Valid() && shared.Moved() && Untouched()
        invariant granted ==> shared.connected && HasSpace(size.value)
        invariant if granted then sleeps <= old(sleeps) + patience else Effort(0, 0)
        invariant attempts == old(attempts) + (if granted then 1 else 0)
        decreases if granted then 0 else 1
      {
        var t := TrySendOnce(payload);
        match t
        case Err(e) => return Err(e);
        case Ok(Sent) => return Ok(());
        case Ok(Full) =>
          r := AwaitRoom(size.value, spins, patience);
          if r.Err? {
            return;
          }
          granted := true;
      }
    }
  }
}
