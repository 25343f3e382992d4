// The asynchronous operations. Each await may be where the caller drops the
// future: `awaits` says how many awaits complete before that, so running out is
// cancellation, and every promise made of Cancelled is cancellation safety.
module AsyncOps {
  import opened Words
  import opened Frames
  import opened States
  import opened RingSenders
  import opened RingReceivers

  function SendSpinCount(spins: nat): (n: nat)
    ensures n <= 32 && n <= spins && (n == spins || n == 32)
  {
    if spins < 32 then spins else 32
  }

  /** Why an asynchronous send may fail. */
  predicate Failure(sender: RingSender, payload: Payload, e: Error)
    reads sender.ring, sender.shared
  {
    if e == MessageTooLarge then HEADER + |payload| > sender.ring.size else sender.Latched(e)
  }

  method SpinSend(sender: RingSender, payload: Payload, spins: nat) returns (r: Result<TrySend>)
    requires sender.Valid()
    modifies sender.Frame()
    ensures sender.Valid() && sender.shared.Moved()
    ensures if r == Ok(Sent) then sender.SentOne(payload) else sender.Untouched()
    ensures r == Ok(Full) ==> old(sender.NoRoom(HEADER + |payload|))
    ensures r.Err? ==> Failure(sender, payload, r.error)
    ensures r == Ok(Full) ==> sender.attempts == old(sender.attempts) + spins + 1
    ensures old(sender.shared.Doomed()) ==> r.Err?
    ensures sender.sleeps == old(sender.sleeps)
  {
    for i := 0 to spins
      invariant sender.attempts == old(sender.attempts) + i && sender.sleeps == old(sender.sleeps)
      invariant sender.Valid() && sender.shared.Moved() && sender.Untouched()
    {
      var t := sender.TrySendOnce(payload);
      match t
      case Err(e) => return Err(e);
      case Ok(Sent) => return Ok(Sent);
      case Ok(Full) =>
    }
    r := sender.TrySendOnce(payload);
  }

  /** Attempt, snapshot the notify word, and attempt again before sleeping on it. */
  method SendTwice(sender: RingSender, payload: Payload, spins: nat) returns (r: Result<TrySend>)
    requires sender.Valid()
    modifies sender.Frame()
    ensures sender.Valid() && sender.shared.Moved()
    ensures if r == Ok(Sent) then sender.SentOne(payload) else sender.Untouched()
    ensures r == Ok(Full) ==> old(sender.NoRoom(HEADER + |payload|))
    ensures r.Err? ==> Failure(sender, payload, r.error)
    ensures r == Ok(Full) ==> sender.attempts == old(sender.attempts) + 2 * (spins + 1)
    ensures old(sender.shared.Doomed()) ==> r.Err?
    ensures sender.sleeps == old(sender.sleeps)
  {
    r := SpinSend(sender, payload, spins);
    if r == Ok(Full) {
      r := SpinSend(sender, payload, spins);
    }
  }

  /** Sleep until the notify word changes or a quantum passes: only others move. */
  method WaitRoom(sender: RingSender)
    requires sender.Valid()
    modifies sender.Frame()
    ensures sender.Valid() && sender.Untouched() && sender.shared.Moved()
    ensures sender.sleeps == old(sender.sleeps) + 1
  {
    sender.sleeps := sender.sleeps + 1;
    sender.ring.PeerTakes();
    sender.shared.Interfere();
  }

  /** Sent means exactly one frame; an error or a drop at any await means none, with the
      write cursor, the sequence number and every byte of the ring as they were. A send begun
      in a connected channel with the room is not left waiting. */
  method SendAsync(sender: RingSender, payload: Payload, spins: nat, awaits: nat) returns (r: Async<()>)
    requires sender.Valid()
    modifies sender.Frame()
    ensures sender.Valid() && sender.shared.Moved()
    ensures if r == Ready(Ok(())) then sender.SentOne(payload) else sender.Untouched()
    ensures r.Ready? && r.result.Err? ==> Failure(sender, payload, r.result.error)
    ensures awaits > 0 && r == Cancelled ==> old(sender.NoRoom(HEADER + |payload|))
    ensures old(sender.shared.Doomed()) && awaits > 0 ==> r.Ready? && r.result.Err?
    ensures r == Cancelled ==> sender.sleeps == old(sender.sleeps) + awaits
  {
    var n := SendSpinCount(spins);
    for i := 0 to awaits
      invariant sender.sleeps == old(sender.sleeps) + i
      invariant i == 0 || !old(sender.shared.Doomed())
      invariant sender.Valid() && sender.shared.Moved() && sender.Untouched()
      invariant i == 0 || old(sender.NoRoom(HEADER + |payload|))
    {
      var t := SendTwice(sender, payload, n);
      match t
      case Err(e) => return Ready(Err(e));
      case Ok(Sent) => return Ready(Ok(()));
      case Ok(Full) => WaitRoom(sender);
    }
    r := Cancelled;
  }

  method SpinPeekOrClosed(receiver: RingReceiver, spins: nat) returns (r: Result<Option<PeekedMessage>>)
    requires receiver.Valid()
    modifies receiver.Frame()
    ensures receiver.Valid() && receiver.Untaken() && receiver.shared.Moved()
    ensures r.Ok? && r.value.Some? ==> receiver.Current(r.value.value)
    ensures r.Err? ==> receiver.Final(r.error)
    ensures r == Err(Retired) ==> receiver.ring.published == []
    ensures old(receiver.shared.Doomed()) ==> r.Err? || r.value.Some?
    ensures old(receiver.ring.consumed) < |old(receiver.ring.published)| ==> r.Ok? && r.value.Some?
    ensures r == Ok(None) ==> receiver.Effort(spins + 1, 0)
    ensures receiver.sleeps == old(receiver.sleeps)
  {
    for i := 0 to spins
      invariant receiver.Effort(i, 0)
      invariant receiver.Valid() && receiver.Untaken() && receiver.shared.Moved()
    {
      r := receiver.TryPeekOrClosed();
      if r.Err? || r.value.Some? {
        return;
      }
    }
    r := receiver.TryPeekOrClosed();
  }

  /** Peek, snapshot the notify word, and peek again before sleeping on it. */
  method PeekTwice(receiver: RingReceiver, spins: nat) returns (r: Result<Option<PeekedMessage>>)
    requires receiver.Valid()
    modifies receiver.Frame()
    ensures receiver.Valid() && receiver.Untaken() && receiver.shared.Moved()
    ensures r.Ok? && r.value.Some? ==> receiver.Current(r.value.value)
    ensures r.Err? ==> receiver.Final(r.error)
    ensures old(receiver.ring.consumed) < |old(receiver.ring.published)| ==> r.Ok? && r.value.Some?
    ensures r == Ok(None) ==> receiver.Effort(2 * (spins + 1), 0)
    ensures receiver.sleeps == old(receiver.sleeps)
    ensures old(receiver.shared.Doomed()) ==> r.Err? || r.value.Some?
  {
    r := SpinPeekOrClosed(receiver, spins);
    if r.Ok? && r.value.None? {
      r := SpinPeekOrClosed(receiver, spins);
    }
  }

  /** Sleep until the notify word changes or a quantum passes: only others move. */
  method WaitChanged(receiver: RingReceiver)
    requires receiver.Valid()
    modifies receiver.Frame()
    ensures receiver.Valid() && receiver.Untaken() && receiver.shared.Moved()
    ensures receiver.sleeps == old(receiver.sleeps) + 1
  {
    receiver.sleeps := receiver.sleeps + 1;
    receiver.PeerMoves();
    receiver.shared.Interfere();
  }

  /** The loop the single receives share: the next record, described but not yet taken. */
  method AwaitMessage(receiver: RingReceiver, spins: nat, awaits: nat) returns (r: Async<PeekedMessage>)
    requires receiver.Valid()
    modifies receiver.Frame()
    ensures receiver.Valid() && receiver.Untaken() && receiver.shared.Moved()
    ensures r.Ready? && r.result.Ok? ==> receiver.Current(r.result.value)
    ensures r.Ready? && r.result.Err? ==> receiver.Final(r.result.error)
    ensures old(receiver.ring.consumed) < |old(receiver.ring.published)| && awaits > 0 ==> r.Ready? && r.result.Ok?
    ensures old(receiver.shared.Doomed()) && awaits > 0 ==> r.Ready?
    ensures r == Cancelled ==> receiver.sleeps == old(receiver.sleeps) + awaits
  {
    for i := 0 to awaits
      invariant receiver.sleeps == old(receiver.sleeps) + i
      invariant i == 0 || !old(receiver.shared.Doomed())
      invariant i == 0 || old(receiver.ring.consumed) >= |old(receiver.ring.published)|
      invariant receiver.Valid() && receiver.Untaken() && receiver.shared.Moved()
    {
      var p := PeekTwice(receiver, spins);
      match p
      case Err(e) => return Ready(Err(e));
      case Ok(Some(m)) => return Ready(Ok(m));
      case Ok(None) => WaitChanged(receiver);
    }
    r := Cancelled;
  }

  /** One received record, or nothing taken; a record already there is never cancelled away
      and never hidden by a terminal cause. */
  method RecvAsync(receiver: RingReceiver, spins: nat, awaits: nat) returns (r: Async<Payload>)
    requires receiver.Valid()
    modifies receiver.Frame()
    ensures receiver.Valid() && receiver.shared.Moved()
    ensures if r.Ready? && r.result.Ok?
            then receiver.Took(1) && r.result.value == receiver.ring.published[old(receiver.ring.consumed)]
            else receiver.Untaken()
    ensures r.Ready? && r.result.Err? ==> receiver.Final(r.result.error)
    ensures old(receiver.ring.consumed) < |old(receiver.ring.published)| && awaits > 0 ==> r.Ready? && r.result.Ok?
    ensures old(receiver.shared.Doomed()) && awaits > 0 ==> r.Ready?
    ensures r == Cancelled ==> receiver.sleeps == old(receiver.sleeps) + awaits
  {
    var m := AwaitMessage(receiver, spins, awaits);
    match m
    case Cancelled => r := Cancelled;
    case Ready(Err(e)) => r := Ready(Err(e));
    case Ready(Ok(peeked)) =>
      var payload := receiver.TakeMessage(peeked);
      r := Ready(Ok(payload));
  }

  method RecvIntoAsync(receiver: RingReceiver, buf: array<byte>, spins: nat, awaits: nat) returns (r: Async<nat>)
    requires receiver.Valid() && buf != receiver.ring.data
    modifies receiver.Frame(), buf
    ensures receiver.Valid() && receiver.shared.Moved()
    ensures r.Ready? && r.result.Ok? ==>
              && receiver.Took(1) && r.result.value <= buf.Length
              && buf[..r.result.value] == receiver.ring.published[old(receiver.ring.consumed)]
              && buf[r.result.value..] == old(buf[..])[r.result.value..]
    ensures r == Ready(Err(MessageTooLarge)) ==>
              && receiver.Took(1) && |receiver.ring.published[old(receiver.ring.consumed)]| > buf.Length
              && buf[..] == old(buf[..])
    ensures r == Cancelled || (r.Ready? && r.result.Err? && r.result.error != MessageTooLarge) ==>
              receiver.Untaken() && buf[..] == old(buf[..])
    ensures r.Ready? && r.result.Err? && r.result.error != MessageTooLarge ==> receiver.Final(r.result.error)
    ensures old(receiver.ring.consumed) < |old(receiver.ring.published)| && awaits > 0 ==>
              r.Ready? && (r.result.Ok? || r.result.error == MessageTooLarge)
    ensures old(receiver.shared.Doomed()) && awaits > 0 ==> r.Ready?
    ensures r == Cancelled ==> receiver.sleeps == old(receiver.sleeps) + awaits
  {
    var m := AwaitMessage(receiver, spins, awaits);
    match m
    case Cancelled => r := Cancelled;
    case Ready(Err(e)) => r := Ready(Err(e));
    case Ready(Ok(peeked)) =>
      var n := receiver.TakeInto(peeked, buf);
      r := Ready(n);
  }

  /** What `recv` called `k` times in a row would have returned. */
  function Segment(published: seq<Payload>, from: nat, k: nat): seq<Payload>
    requires from + k <= |published|
  {
    published[from..from + k]
  }

  /** A longer history has the same segments, and the next record extends one. */
  lemma {:induction false} SegmentGrows(ps: seq<Payload>, qs: seq<Payload>, from: nat, k: nat)
    requires from + k <= |ps| && ps <= qs
    ensures Segment(qs, from, k) == Segment(ps, from, k)
    ensures from + k < |qs| ==> Segment(qs, from, k + 1) == Segment(ps, from, k) + [qs[from + k]]
  {
  }

  /** The records taken since record `from`. */
  ghost function Taken(receiver: RingReceiver, from: nat): seq<Payload>
    reads receiver, receiver.ring
    requires from <= receiver.ring.consumed <= |receiver.ring.published|
  {
    Segment(receiver.ring.published, from, receiver.ring.consumed - from)
  }

  /** One turn of the batch: the single receive it repeats. `from` is where the batch began. */
  method DrainOne(receiver: RingReceiver, spins: nat, ghost from: nat) returns (r: Result<Option<Payload>>)
    requires receiver.Valid() && from <= receiver.ring.consumed
    modifies receiver.Frame()
    ensures receiver.Valid() && receiver.shared.Moved()
    ensures if r.Ok? && r.value.Some?
            then receiver.Took(1) && r.value.value == receiver.ring.published[old(receiver.ring.consumed)]
            else receiver.Untaken()
    ensures Taken(receiver, from)
              == old(Taken(receiver, from)) + (if r.Ok? && r.value.Some? then [r.value.value] else [])
    ensures r.Err? ==> receiver.Final(r.error)
    ensures r.Err? ==> r.error == ChannelClosed || r.error == PeerGone || receiver.ring.published == []
    ensures old(receiver.shared.Doomed()) ==> r.Err? || r.value.Some?
    ensures old(receiver.ring.consumed) < |old(receiver.ring.published)| ==> r.Ok? && r.value.Some?
    ensures r == Ok(None) ==> receiver.Effort(spins + 1, 0)
    ensures receiver.sleeps == old(receiver.sleeps)
  {
    ghost var seen, k := receiver.ring.published, receiver.ring.consumed - from;
    var p := SpinPeekOrClosed(receiver, spins);
    SegmentGrows(seen, receiver.ring.published, from, k);
    if p.Err? {
      return Err(p.error);
    }
    if p.value.None? {
      return Ok(None);
    }
    var payload := receiver.TakeMessage(p.value.value);
    r := Ok(Some(payload));
  }

  /** Batch receive is repeated single receive: it appends the next `count` records, at most
      `max`, leaves what `out` held alone, and reports a terminal error only when it
      appended nothing, so a cause withheld by a partial batch surfaces on the next call. */
  method DrainReadyWithSpin(receiver: RingReceiver, out: seq<Payload>, max: nat, spins: nat)
    returns (r: Result<nat>, out': seq<Payload>)
    requires receiver.Valid()
    modifies receiver.Frame()
    ensures receiver.Valid() && receiver.shared.Moved()
    ensures r.Ok? ==>
              && r.value <= max && receiver.Took(r.value)
              && out' == out + Segment(receiver.ring.published, old(receiver.ring.consumed), r.value)
    ensures r == Ok(0) ==> receiver.Untaken()
    ensures old(receiver.shared.Doomed()) && max > 0 ==> r != Ok(0)
    ensures r.Err? ==>
              receiver.Final(r.error) && out' == out && receiver.Untaken()
    ensures r.Ok? && r.value < max ==> old(receiver.ring.consumed) + r.value >= |old(receiver.ring.published)|
    ensures r == Ok(0) && max > 0 ==> receiver.Effort(spins + 1, 0)
    ensures receiver.sleeps == old(receiver.sleeps)
  {
    out' := out;
    var count := 0;
    ghost var from := receiver.ring.consumed;
    while count < max
      invariant receiver.sleeps == old(receiver.sleeps) && (count == 0 ==> receiver.Effort(0, 0))
      invariant count <= max && receiver.Valid() && receiver.shared.Moved() && receiver.Took(count)
      invariant if count == 0 then receiver.Untaken() else receiver.ring.published != []
      invariant out' == out + Taken(receiver, from)
    {
      var p := DrainOne(receiver, spins, from);
      match p
      case Ok(Some(payload)) =>
        out' := out' + [payload];
        count := count + 1;
      case Ok(None) => break;
      case Err(e) =>
        if (e == ChannelClosed || e == PeerGone) && count != 0 {
          break;
        }
        return Err(e), out';
    }
    r := Ok(count);
  }

  /** Drain, snapshot the notify word, and drain again before sleeping on it. */
  method DrainTwice(receiver: RingReceiver, out: seq<Payload>, max: nat, spins: nat)
    returns (r: Result<nat>, out': seq<Payload>)
    requires receiver.Valid()
    modifies receiver.Frame()
    ensures receiver.Valid() && receiver.shared.Moved()
    ensures r.Ok? ==>
              && r.value <= max && receiver.Took(r.value)
              && out' == out + Segment(receiver.ring.published, old(receiver.ring.consumed), r.value)
    ensures r.Err? || r == Ok(0) ==> out' == out && receiver.Untaken()
    ensures r.Err? ==> receiver.Final(r.error)
    ensures r.Ok? && r.value < max ==> old(receiver.ring.consumed) + r.value >= |old(receiver.ring.published)|
    ensures r == Ok(0) && max > 0 ==> receiver.Effort(2 * (spins + 1), 0)
    ensures receiver.sleeps == old(receiver.sleeps)
    ensures old(receiver.shared.Doomed()) && max > 0 ==> r != Ok(0)
  {
    r, out' := DrainReadyWithSpin(receiver, out, max, spins);
    if r == Ok(0) {
      r, out' := DrainReadyWithSpin(receiver, out, max, spins);
    }
  }

  /** recv_many: zero only for a zero limit; cancellation takes nothing. */
  method RecvManyAsync(receiver: RingReceiver, out: seq<Payload>, max: nat, spins: nat, awaits: nat)
    returns (r: Async<nat>, out': seq<Payload>)
    requires receiver.Valid()
    modifies receiver.Frame()
    ensures receiver.Valid() && receiver.shared.Moved()
    ensures r.Ready? && r.result.Ok? ==>
              && r.result.value <= max && (r.result.value == 0 <==> max == 0) && receiver.Took(r.result.value)
              && out' == out + Segment(receiver.ring.published, old(receiver.ring.consumed), r.result.value)
    ensures r == Cancelled ==> out' == out && receiver.Untaken()
    ensures r.Ready? && r.result.Err? ==> out' == out && receiver.Untaken() && receiver.Final(r.result.error)
    ensures r.Ready? && r.result.Ok? && r.result.value < max ==>
              old(receiver.ring.consumed) + r.result.value >= |old(receiver.ring.published)|
    ensures old(receiver.ring.consumed) < |old(receiver.ring.published)| && awaits > 0 ==> r.Ready? && r.result.Ok?
    ensures old(receiver.shared.Doomed()) && awaits > 0 ==> r.Ready?
    ensures r == Cancelled ==> receiver.sleeps == old(receiver.sleeps) + awaits
  {
    out' := out;
    if max == 0 {
      assert Segment(receiver.ring.published, receiver.ring.consumed, 0) == [];
      return Ready(Ok(0)), out;
    }
    for i := 0 to awaits
      invariant receiver.sleeps == old(receiver.sleeps) + i
      invariant i == 0 || !old(receiver.shared.Doomed())
      invariant i == 0 || old(receiver.ring.consumed) >= |old(receiver.ring.published)|
      invariant receiver.Valid() && receiver.shared.Moved() && receiver.Untaken() && out' == out
    {
      var d, o := DrainTwice(receiver, out, max, spins);
      if d.Err? || d.value != 0 {
        return Ready(d), o;
      }
      WaitChanged(receiver);
    }
    r := Cancelled;
  }
}
