// What the ring promises over every schedule: it is a bounded FIFO of byte
// strings, nobody sleeps through a change, a receiver drains before it reports a
// terminal cause, and no call half-happens.
module RingTheorems {
  import opened Words
  import opened Frames
  import opened States
  import opened WaitLine
  import opened RingMachine
  import opened RingInvariant
  import opened RingWaits

  /** Every state some schedule reaches. */
  ghost predicate Reachable(c: Config, t: State) {
    c.Legal() && exists acts :: Schedule(c, RingMachine.Init(c), acts) && t == Run(c, RingMachine.Init(c), acts)
  }

  lemma {:induction false} ReachableInv(c: Config, t: State)
    requires Reachable(c, t)
    ensures Inv(c, t)
  {
    var acts :| Schedule(c, RingMachine.Init(c), acts) && t == Run(c, RingMachine.Init(c), acts);
    InitInv(c);
    RunInv(c, RingMachine.Init(c), acts);
  }

  // ----- refinement of a bounded FIFO -----

  /** What the shared memory alone says is queued: parse frames from `rc` up to `wc`. */
  function Decode(m: seq<byte>, rc: nat, wc: nat): seq<Payload>
    requires |m| > 0
    decreases wc - rc
  {
    if wc < rc + HEADER then []
    else
      var len := FromLe(CopyOut(m, rc, HEADER)[..4]);
      if wc < rc + HEADER + len then []
      else [CopyOut(m, rc + HEADER, len)] + Decode(m, rc + HEADER + len, wc)
  }

  lemma {:induction false} DecodeHead(m: seq<byte>, rc: nat, wc: nat, ps: seq<Payload>, k: nat)
    requires 0 < |m| <= 0x8000_0000 && k < |ps| && rc == Offset(ps, k) && wc == Offset(ps, |ps|)
    requires Window(m, rc, wc, ps) && AllFit(ps, |m|)
    ensures Offset(ps, k + 1) <= wc
    ensures Decode(m, rc, wc) == [ps[k]] + Decode(m, Offset(ps, k + 1), wc)
  {
    HeadFrame(m, rc, wc, ps, k);
    OffsetGap(ps, k + 1, |ps|);
  }

  lemma {:induction false} DecodeIsSuffix(m: seq<byte>, rc: nat, wc: nat, ps: seq<Payload>, k: nat)
    requires 0 < |m| <= 0x8000_0000 && k <= |ps| && rc == Offset(ps, k) && wc == Offset(ps, |ps|)
    requires Window(m, rc, wc, ps) && AllFit(ps, |m|)
    ensures Decode(m, rc, wc) == ps[k..]
    decreases |ps| - k
  {
    if k < |ps| {
      DecodeHead(m, rc, wc, ps, k);
      DecodeIsSuffix(m, Offset(ps, k + 1), wc, ps, k + 1);
      assert ps[k..] == [ps[k]] + ps[k + 1..];
    }
  }

  /** Bytes a queue of payloads occupies in the ring. */
  function Occupied(q: seq<Payload>): nat {
    if q == [] then 0 else HEADER + |q[0]| + Occupied(q[1..])
  }

  lemma {:induction false} OccupiedIsWindow(ps: seq<Payload>, k: nat)
    requires k <= |ps|
    ensures Occupied(ps[k..]) == Offset(ps, |ps|) - Offset(ps, k)
    decreases |ps| - k
  {
    if k < |ps| {
      assert ps[k..][1..] == ps[k + 1..];
      OccupiedIsWindow(ps, k + 1);
    }
  }

  /** `room` is what the receiving call offers: None if it makes its own buffer. */
  datatype Event =
    | Silent
    | Enqueue(p: Payload)
    | Dequeue(p: Payload, room: Option<nat>)
    | Drop(size: nat, room: Option<nat>)

  /** The specification: a FIFO of byte strings in which frames occupy at most `cap` bytes. The
      head is delivered if the call has the room for it, and dropped only if it has not. */
  predicate FifoStep(cap: nat, q: seq<Payload>, e: Event, q': seq<Payload>) {
    match e
    case Silent => q' == q
    case Enqueue(p) => Occupied(q) + HEADER + |p| <= cap && q' == q + [p]
    case Dequeue(p, room) => q != [] && q[0] == p && Accepts(room, |p|) && q' == q[1..]
    case Drop(size, room) => q != [] && |q[0]| == size && !Accepts(room, size) && q' == q[1..]
  }

  /** What a step claims to do: `send` hands over its payload, `recv` returns its buffer. */
  function EventOf(c: Config, s: State, a: Action): Event {
    if a.SPublish? && EmitEnabled(c, s, a) then Enqueue(s.s.payload)
    else if a.RStoreCursor? && TakeEnabled(c, s, a) && s.v.pc.seq32 == s.v.expectedSeq then
      match s.v.pc.record
      case Delivered(buf) => Dequeue(buf, s.v.cap)
      case Discarded(size) => Drop(size, s.v.cap)
    else Silent
  }

  function Queue(s: State): seq<Payload>
    requires |s.mem| > 0
  {
    Decode(s.mem, s.rc, s.wc)
  }

  /** The queue read off shared memory is exactly what was sent and not yet taken. */
  lemma {:induction false} QueueIsPending(c: Config, s: State)
    requires Data(c, s)
    ensures Queue(s) == s.published[|s.consumed|..]
    ensures Occupied(Queue(s)) == s.wc - s.rc
  {
    DecodeIsSuffix(s.mem, s.rc, s.wc, s.published, |s.consumed|);
    OccupiedIsWindow(s.published, |s.consumed|);
  }

  /** What a step does to the history and to memory. */
  predicate HistoryOf(c: Config, s: State, a: Action, t: State) {
    match EventOf(c, s, a)
    case Silent => t.published == s.published && t.consumed == s.consumed
    case Enqueue(p) => t.published == s.published + [p] && t.consumed == s.consumed
    case _ => t.published == s.published && t.consumed == s.consumed + [s.v.pc.record]
  }

  lemma {:induction false} SenderHistory(c: Config, s: State, a: Action)
    requires |s.mem| == c.n > 0 && SenderEnabled(c, s, a)
    ensures HistoryOf(c, s, a, SenderStep(c, s, a)) && (!a.SCopy? ==> SenderStep(c, s, a).mem == s.mem)
  {
    if TryEnabled(c, s, a) {
      TryFrame(c, s, a);
    } else if BlockEnabled(c, s, a) {
      BlockFrame(c, s, a);
    } else if !a.SCopy? && !a.SPublish? {
      EmitFrame(c, s, a);
    }
  }

  lemma {:induction false} ReceiverHistory(c: Config, s: State, a: Action)
    requires |s.mem| == c.n > 0 && ReceiverEnabled(c, s, a)
    ensures HistoryOf(c, s, a, ReceiverStep(c, s, a)) && ReceiverStep(c, s, a).mem == s.mem
  {
    if PeekEnabled(c, s, a) {
      PeekFrame(c, s, a);
    } else if ParkEnabled(c, s, a) {
      ParkFrame(c, s, a);
    } else if !a.RStoreCursor? {
      TakeFrame(c, s, a);
    }
  }

  /** Only a cursor store changes the history, and only a byte copy changes memory. */
  lemma {:induction false} HistoryStep(c: Config, s: State, a: Action)
    requires Enabled(c, s, a)
    ensures HistoryOf(c, s, a, Step(c, s, a)) && (!a.SCopy? ==> Step(c, s, a).mem == s.mem)
  {
    if SenderEnabled(c, s, a) {
      SenderHistory(c, s, a);
    } else if ReceiverEnabled(c, s, a) {
      ReceiverHistory(c, s, a);
    } else if MoveEnabled(c, s, a) {
      MoveFrame(c, s, a);
    } else {
      AllFrame(c, s, a);
    }
  }

  lemma {:induction false} SuffixEnqueue(ps: seq<Payload>, k: nat, p: Payload)
    requires k <= |ps|
    ensures (ps + [p])[k..] == ps[k..] + [p]
  {
  }

  lemma {:induction false} SuffixDequeue(ps: seq<Payload>, k: nat)
    requires k < |ps|
    ensures ps[k..] != [] && ps[k..][0] == ps[k] && ps[k + 1..] == ps[k..][1..]
  {
  }

  /** A publish enqueues; there is room for it. */
  lemma {:induction false} PublishIsEnqueue(c: Config, s: State, t: State, p: Payload)
    requires Data(c, s) && Data(c, t) && s.s.pc.SWrite? && p == s.s.payload
    requires t.published == s.published + [p] && t.consumed == s.consumed
    ensures FifoStep(c.n, Queue(s), Enqueue(p), Queue(t))
  {
    QueueIsPending(c, s);
    QueueIsPending(c, t);
    SuffixEnqueue(s.published, |s.consumed|, p);
  }

  /** A commit dequeues (or drops) the head, and reports the head's own bytes (or length). */
  lemma {:induction false} CommitIsDequeue(c: Config, s: State, t: State, r: Record)
    requires Data(c, s) && Data(c, t) && s.v.pc.RCommit? && r == s.v.pc.record
    requires t.published == s.published && t.consumed == s.consumed + [r]
    ensures var e := if r.Delivered? then Dequeue(r.payload, s.v.cap) else Drop(r.size, s.v.cap);
            FifoStep(c.n, Queue(s), e, Queue(t))
  {
    QueueIsPending(c, s);
    QueueIsPending(c, t);
    SuffixDequeue(s.published, |s.consumed|);
  }

  lemma {:induction false} SilentKeepsQueue(c: Config, s: State, t: State)
    requires Data(c, s) && Data(c, t) && t.published == s.published && t.consumed == s.consumed
    ensures Queue(t) == Queue(s)
  {
    QueueIsPending(c, s);
    QueueIsPending(c, t);
  }

  /** Where an event comes from. */
  lemma {:induction false} EventSource(c: Config, s: State, a: Action)
    ensures var e := EventOf(c, s, a);
            && (e.Enqueue? ==> s.s.pc.SWrite? && e.p == s.s.payload)
            && (e.Dequeue? ==> s.v.pc.RCommit? && s.v.pc.record == Delivered(e.p) && e.room == s.v.cap)
            && (e.Drop? ==> s.v.pc.RCommit? && s.v.pc.record == Discarded(e.size) && e.room == s.v.cap)
  {
  }

  lemma {:induction false} EventRefines(c: Config, s: State, t: State, a: Action)
    requires Data(c, s) && Data(c, t) && HistoryOf(c, s, a, t)
    ensures FifoStep(c.n, Queue(s), EventOf(c, s, a), Queue(t))
  {
    EventSource(c, s, a);
    match EventOf(c, s, a)
    case Enqueue(p) => PublishIsEnqueue(c, s, t, p);
    case Silent => SilentKeepsQueue(c, s, t);
    case _ => CommitIsDequeue(c, s, t, s.v.pc.record);
  }

  /** Refinement, one step: each micro-step of any party is a FIFO step or invisible. */
  lemma {:induction false} StepRefinesFifo(c: Config, s: State, a: Action)
    requires Inv(c, s) && Enabled(c, s, a)
    ensures |Step(c, s, a).mem| > 0
    ensures FifoStep(c.n, Queue(s), EventOf(c, s, a), Queue(Step(c, s, a)))
  {
    StepInv(c, s, a);
    HistoryStep(c, s, a);
    EventRefines(c, s, Step(c, s, a), a);
  }

  function Trace(c: Config, s: State, acts: seq<Action>): seq<Event>
    requires Schedule(c, s, acts)
    decreases |acts|
  {
    if acts == [] then [] else [EventOf(c, s, acts[0])] + Trace(c, Step(c, s, acts[0]), acts[1..])
  }

  /** `events` take a FIFO of capacity `cap` from `q` to `q'`. */
  ghost predicate FifoRun(cap: nat, q: seq<Payload>, events: seq<Event>, q': seq<Payload>)
    decreases |events|
  {
    if events == [] then q' == q
    else exists m :: FifoStep(cap, q, events[0], m) && FifoRun(cap, m, events[1..], q')
  }

  lemma {:induction false} RunRefinesFifo(c: Config, s: State, acts: seq<Action>)
    requires Inv(c, s) && Schedule(c, s, acts)
    ensures |Run(c, s, acts).mem| > 0
    ensures FifoRun(c.n, Queue(s), Trace(c, s, acts), Queue(Run(c, s, acts)))
    decreases |acts|
  {
    if acts != [] {
      var t := Step(c, s, acts[0]);
      StepRefinesFifo(c, s, acts[0]);
      StepInv(c, s, acts[0]);
      RunRefinesFifo(c, t, acts[1..]);
      var events := Trace(c, s, acts);
      assert events[0] == EventOf(c, s, acts[0]) && events[1..] == Trace(c, t, acts[1..]);
      assert FifoStep(c.n, Queue(s), events[0], Queue(t));
    }
  }

  /** Refinement over whole runs: every schedule from creation is a FIFO run from empty. */
  lemma {:induction false} ChannelRefinesFifo(c: Config, acts: seq<Action>)
    requires c.Legal() && Schedule(c, RingMachine.Init(c), acts)
    ensures var t := Run(c, RingMachine.Init(c), acts);
            && |t.mem| > 0
            && FifoRun(c.n, [], Trace(c, RingMachine.Init(c), acts), Queue(t))
            && |t.consumed| <= |t.published|
            && (forall i | 0 <= i < |t.consumed| :: Matches(t.consumed[i], t.published[i]))
            && Queue(t) == t.published[|t.consumed|..]
  {
    InitInv(c);
    RunInv(c, RingMachine.Init(c), acts);
    RunRefinesFifo(c, RingMachine.Init(c), acts);
    QueueIsPending(c, Run(c, RingMachine.Init(c), acts));
  }

  // ----- stability of unread bytes -----

  /** The slots a frame of `len` bytes will occupy share nothing with the unread window. */
  lemma {:induction false} StagedElsewhere(rc: nat, wc: nat, len: nat, n: nat, j: nat, i: nat)
    requires n > 0 && rc <= j < wc && i < len && wc + len <= rc + n
    ensures Slot(j, n) != Slot(wc + i, n)
  {
    SlotsDistinct(j, wc + i, n);
  }

  lemma {:induction false} CopyLeavesUnread(c: Config, s: State)
    requires Data(c, s) && EmitEnabled(c, s, SCopy)
    ensures forall j | s.rc <= j < s.wc :: EmitStep(c, s, SCopy).mem[Slot(j, c.n)] == s.mem[Slot(j, c.n)]
  {
    CopyEffect(c, s);
    forall j | s.rc <= j < s.wc ensures Slot(j, c.n) != Slot(s.wc + s.s.pc.done, c.n) {
      StagedElsewhere(s.rc, s.wc, MsgLen(s), c.n, j, s.s.pc.done);
    }
  }

  lemma {:induction false} CopyIsStep(c: Config, s: State)
    requires Enabled(c, s, SCopy)
    ensures EmitEnabled(c, s, SCopy) && Step(c, s, SCopy) == EmitStep(c, s, SCopy)
  {
  }

  /** No step changes a byte of the unread window, although the sender's view of the read
      cursor is stale. */
  lemma {:induction false} UnreadBytesStable(c: Config, s: State, a: Action)
    requires Reachable(c, s) && Enabled(c, s, a)
    ensures s.s.cachedRc <= s.rc <= s.wc <= s.s.cachedRc + c.n
    ensures |Step(c, s, a).mem| == |s.mem| == c.n > 0
    ensures forall j | s.rc <= j < s.wc :: Step(c, s, a).mem[Slot(j, c.n)] == s.mem[Slot(j, c.n)]
  {
    ReachableInv(c, s);
    HistoryStep(c, s, a);
    if a.SCopy? {
      CopyIsStep(c, s);
      CopyEffect(c, s);
      CopyLeavesUnread(c, s);
    }
  }

  lemma {:induction false} WritingFits(c: Config, s: State)
    requires Data(c, s) && s.s.pc.SWrite?
    ensures c.n > 0 && s.wc + MsgLen(s) <= s.rc + c.n
  {
  }

  /** Every slot of a frame being written, copied or not yet, is outside the unread window. */
  lemma {:induction false} FrameSlotsFree(c: Config, s: State, j: nat, i: nat)
    requires Reachable(c, s) && s.s.pc.SWrite? && s.rc <= j < s.wc && i < MsgLen(s)
    ensures c.n > 0 && Slot(s.wc + i, c.n) != Slot(j, c.n)
  {
    ReachableInv(c, s);
    WritingFits(c, s);
    StagedElsewhere(s.rc, s.wc, MsgLen(s), c.n, j, i);
  }

  // ----- sequence numbers and corruption errors -----

  lemma {:induction false} NumbersAgree(c: Config, s: State)
    requires Cursors(c, s)
    ensures s.s.nextSeq == (1 + |s.published|) % 0x1_0000_0000
    ensures s.v.expectedSeq == (1 + |s.consumed|) % 0x1_0000_0000
  {
    SeqClosedForm(|s.published|);
    SeqClosedForm(|s.consumed|);
  }

  lemma {:induction false} ErrorsExcluded(c: Config, s: State)
    requires Basics(c, s) && ReceiverBase(s)
    ensures s.v.pc.RCommit? ==> s.v.pc.seq32 == s.v.expectedSeq
    ensures s.v.result.RecvFailed? && s.v.pc.RIdle? ==>
              && s.v.result.error != SequenceMismatch && s.v.result.error != MessageTooLarge
              && s.v.result.error != InvalidHeader
  {
  }

  /** For every run length, past 2^32 frames too: both counters are the closed form, the
      frame being committed carries the expected number, and no corruption is ever reported. */
  lemma {:induction false} NoCorruption(c: Config, s: State)
    requires Reachable(c, s)
    ensures s.s.nextSeq == (1 + |s.published|) % 0x1_0000_0000
    ensures s.v.expectedSeq == (1 + |s.consumed|) % 0x1_0000_0000
    ensures s.v.pc.RCommit? ==> s.v.pc.seq32 == s.v.expectedSeq
    ensures s.v.result.RecvFailed? && s.v.pc.RIdle? ==>
              && s.v.result.error != SequenceMismatch && s.v.result.error != MessageTooLarge
              && s.v.result.error != InvalidHeader
  {
    ReachableInv(c, s);
    BasicsHold(c, s);
    NumbersAgree(c, s);
    ErrorsExcluded(c, s);
  }

  /** A peek finds a frame exactly when the cursors differ, and always a whole one: the
      oversized-length and partial-frame branches are dead. */
  lemma {:induction false} PeekIsExact(c: Config, s: State)
    requires Reachable(c, s)
    ensures |s.mem| == c.n > 0
    ensures s.v.pc.RPeek? ==> (PeekStep(c, s, RLoadWc).v.pc.RHeader? <==> s.rc < s.wc)
    ensures PeekEnabled(c, s, RParse) ==>
              && |s.consumed| < |s.published|
              && PeekStep(c, s, RParse).v.pc == RGot(|s.published[|s.consumed|]|, SeqOf(|s.consumed|))
  {
    ReachableInv(c, s);
    BasicsHold(c, s);
    if PeekEnabled(c, s, RParse) { ParseGets(c, s); }
  }

  // ----- outcomes of calls -----

  lemma {:induction false} SendIsAtomic(c: Config, s: State)
    requires SenderAt(c, s) && s.s.pc.SIdle?
    ensures !s.s.result.Running? ==> |s.published| == s.s.base + (if s.s.result.Sent? then 1 else 0)
    ensures s.s.result.Sent? ==> |s.published| == s.s.base + 1 && s.published[s.s.base] == s.s.payload
  {
  }

  lemma {:induction false} ReceiveIsAtomic(s: State)
    requires ReceiverBase(s) && s.v.pc.RIdle?
    ensures !s.v.result.Receiving? ==> |s.consumed| == s.v.base + (if s.v.result.Got? then 1 else 0)
    ensures s.v.result.Got? ==>
              s.v.base < |s.published| && Answers(s.v.cap, s.v.result.record, s.published[s.v.base])
  {
  }

  /** A finished send published exactly one frame if it reports Sent and none if it
      reports anything else, however often it found the ring full; a finished receive
      took exactly one record if it returns one (or discards an oversized one), else none. */
  lemma {:induction false} CallsAreAtomic(c: Config, s: State)
    requires Reachable(c, s)
    ensures s.s.pc.SIdle? && !s.s.result.Running? ==>
              |s.published| == s.s.base + (if s.s.result.Sent? then 1 else 0)
    ensures s.s.pc.SIdle? && s.s.result.Sent? ==> s.published[s.s.base] == s.s.payload
    ensures s.v.pc.RIdle? && !s.v.result.Receiving? ==>
              |s.consumed| == s.v.base + (if s.v.result.Got? then 1 else 0)
    ensures s.v.pc.RIdle? && s.v.result.Got? ==>
              && s.v.base < |s.published|
              && Answers(s.v.cap, s.v.result.record, s.published[s.v.base])
  {
    ReachableInv(c, s);
    if s.s.pc.SIdle? { SendIsAtomic(c, s); }
    if s.v.pc.RIdle? { ReceiveIsAtomic(s); }
  }

  // ----- nobody sleeps through a change -----

  predicate SleepsExactly(l: Line, pf: Platform) {
    l.waiter.Ready? ==>
      (Sleep(l, pf).waiter.Asleep? <==> (if pf == Futex then l.count == l.waiter.snap else !l.event))
  }

  /** The 32-bit comparison a waiter sleeps on tells the truth: between its snapshot and the
      test fewer than n/8 + 4 bumps can happen, so equal words mean no bump at all; and the
      waiter about to sleep does sleep exactly then (on an event: exactly if it is not set). */
  lemma {:induction false} SleepTestExact(c: Config, s: State)
    requires Reachable(c, s)
    ensures HasSnap(s.w) ==> s.w.count <= s.w.waiter.snap + c.n / 8 + 3
    ensures HasSnap(s.r) ==> s.r.count <= s.r.waiter.snap + c.n / 8 + 3
    ensures HasSnap(s.w) ==> (Word(s.w) == Wrap32(s.w.waiter.snap) <==> s.w.count == s.w.waiter.snap)
    ensures HasSnap(s.r) ==> (Word(s.r) == Wrap32(s.r.waiter.snap) <==> s.r.count == s.r.waiter.snap)
    ensures SleepsExactly(s.w, c.pf) && SleepsExactly(s.r, c.pf)
  {
    ReachableInv(c, s);
    BasicsHold(c, s);
    SnapshotFresh(c, s);
    if HasSnap(s.w) { WordsDistinct(s.w.waiter.snap, s.w.count); }
    if HasSnap(s.r) { WordsDistinct(s.r.waiter.snap, s.r.count); }
  }

  /** The remaining steps of whoever owes line `side` a wake. */
  function WakePlan(s: State, side: Side): seq<Action> {
    var l := if side == WriterSide then s.w else s.r;
    var kind := if Due(l.conn) then OnConnect else OnTerminal;
    match l.waker
    case Stored => if side == WriterSide then [SBump, SLoadParked, SWake] else [RBump, RLoadParked, RWake]
    case Bumped => if side == WriterSide then [SLoadParked, SWake] else [RLoadParked, RWake]
    case Waking => if side == WriterSide then [SWake] else [RWake]
    case Quiet => if AllAt(l, kind).DueBump? then [EBump(side, kind), EWake(side, kind)] else [EWake(side, kind)]
  }

  /** A schedule of a first step and a rest. */
  lemma {:induction false} Unroll(c: Config, s: State, a: Action, rest: seq<Action>)
    requires Enabled(c, s, a) && Schedule(c, Step(c, s, a), rest)
    ensures Schedule(c, s, [a] + rest) && Run(c, s, [a] + rest) == Run(c, Step(c, s, a), rest)
  {
    var p := [a] + rest;
    assert p[0] == a && p[1..] == rest;
  }

  lemma {:induction false} TwoSteps(c: Config, s: State, a: Action, b: Action)
    requires Enabled(c, s, a) && Enabled(c, Step(c, s, a), b)
    ensures Schedule(c, s, [a, b]) && Run(c, s, [a, b]) == Step(c, Step(c, s, a), b)
  {
    Unroll(c, Step(c, s, a), b, []);
    Unroll(c, s, a, [b]);
    assert [a, b] == [a] + [b] && [b] == [b] + [];
  }

  lemma {:induction false} ThreeSteps(c: Config, s: State, a: Action, b: Action, d: Action)
    requires Enabled(c, s, a) && Enabled(c, Step(c, s, a), b) && Enabled(c, Step(c, Step(c, s, a), b), d)
    ensures Schedule(c, s, [a, b, d]) && Run(c, s, [a, b, d]) == Step(c, Step(c, Step(c, s, a), b), d)
  {
    var s1 := Step(c, s, a);
    TwoSteps(c, s1, b, d);
    assert [a, b, d] == [a] + [b, d];
    Unroll(c, s, a, [b, d]);
  }

  lemma {:induction false} PublisherSteps(c: Config, s: State)
    requires c.n == |s.mem| > 0
    ensures s.s.pc.SNotify? && s.w.waker.Stored? ==>
              Enabled(c, s, SBump) && Step(c, s, SBump) == s.(w := Bump(s.w))
    ensures s.s.pc.SNotify? && s.w.waker.Bumped? && s.w.parked ==>
              Enabled(c, s, SLoadParked) && Step(c, s, SLoadParked) == s.(w := LoadParked(s.w))
    ensures s.s.pc.SNotify? && s.w.waker.Waking? ==>
              Enabled(c, s, SWake) && Step(c, s, SWake).w == Wake(s.w, c.pf)
    ensures forall k :: AllAt(s.w, k).DueBump? ==>
              Enabled(c, s, EBump(WriterSide, k)) && Step(c, s, EBump(WriterSide, k)) == s.(w := AllBump(s.w, k))
    ensures forall k :: AllAt(s.w, k).DueWake? ==>
              Enabled(c, s, EWake(WriterSide, k)) && Step(c, s, EWake(WriterSide, k)).w == AllWake(s.w, k, c.pf)
  {
  }

  lemma {:induction false} PlanWakesReceiver(c: Config, s: State)
    requires c.n == |s.mem| > 0 && s.w.waiter.Asleep? && LineOk(s.w) && Owed(s.w)
    requires !s.w.waker.Quiet? ==> s.s.pc.SNotify?
    ensures Schedule(c, s, WakePlan(s, WriterSide))
    ensures Run(c, s, WakePlan(s, WriterSide)).w.waiter.Roused?
  {
    var kind := if Due(s.w.conn) then OnConnect else OnTerminal;
    DebtIsPaid(s.w, c.pf);
    PublisherSteps(c, s);
    match s.w.waker
    case Stored =>
      var s1 := s.(w := Bump(s.w));
      PublisherSteps(c, s1);
      PublisherSteps(c, s1.(w := LoadParked(s1.w)));
      ThreeSteps(c, s, SBump, SLoadParked, SWake);
    case Bumped =>
      PublisherSteps(c, s.(w := LoadParked(s.w)));
      TwoSteps(c, s, SLoadParked, SWake);
    case Waking => Unroll(c, s, SWake, []);
    case Quiet =>
      if AllAt(s.w, kind).DueBump? {
        PublisherSteps(c, s.(w := AllBump(s.w, kind)));
        TwoSteps(c, s, EBump(WriterSide, kind), EWake(WriterSide, kind));
      } else {
        Unroll(c, s, EWake(WriterSide, kind), []);
      }
  }

  lemma {:induction false} CommitterSteps(c: Config, s: State)
    requires c.n == |s.mem| > 0
    ensures s.v.pc.RNotify? && s.r.waker.Stored? ==>
              Enabled(c, s, RBump) && Step(c, s, RBump) == s.(r := Bump(s.r))
    ensures s.v.pc.RNotify? && s.r.waker.Bumped? && s.r.parked ==>
              Enabled(c, s, RLoadParked) && Step(c, s, RLoadParked) == s.(r := LoadParked(s.r))
    ensures s.v.pc.RNotify? && s.r.waker.Waking? ==>
              Enabled(c, s, RWake) && Step(c, s, RWake).r == Wake(s.r, c.pf)
    ensures forall k :: AllAt(s.r, k).DueBump? ==>
              Enabled(c, s, EBump(ReaderSide, k)) && Step(c, s, EBump(ReaderSide, k)) == s.(r := AllBump(s.r, k))
    ensures forall k :: AllAt(s.r, k).DueWake? ==>
              Enabled(c, s, EWake(ReaderSide, k)) && Step(c, s, EWake(ReaderSide, k)).r == AllWake(s.r, k, c.pf)
  {
  }

  lemma {:induction false} PlanWakesSender(c: Config, s: State)
    requires c.n == |s.mem| > 0 && s.r.waiter.Asleep? && LineOk(s.r) && Owed(s.r)
    requires !s.r.waker.Quiet? ==> s.v.pc.RNotify?
    ensures Schedule(c, s, WakePlan(s, ReaderSide))
    ensures Run(c, s, WakePlan(s, ReaderSide)).r.waiter.Roused?
  {
    var kind := if Due(s.r.conn) then OnConnect else OnTerminal;
    DebtIsPaid(s.r, c.pf);
    CommitterSteps(c, s);
    match s.r.waker
    case Stored =>
      var s1 := s.(r := Bump(s.r));
      CommitterSteps(c, s1);
      CommitterSteps(c, s1.(r := LoadParked(s1.r)));
      ThreeSteps(c, s, RBump, RLoadParked, RWake);
    case Bumped =>
      CommitterSteps(c, s.(r := LoadParked(s.r)));
      TwoSteps(c, s, RLoadParked, RWake);
    case Waking => Unroll(c, s, RWake, []);
    case Quiet =>
      if AllAt(s.r, kind).DueBump? {
        CommitterSteps(c, s.(r := AllBump(s.r, kind)));
        TwoSteps(c, s, EBump(ReaderSide, kind), EWake(ReaderSide, kind));
      } else {
        Unroll(c, s, EWake(ReaderSide, kind), []);
      }
  }

  /** No lost wake-up: if a receiver sleeps while a record or a terminal cause is there for
      it, or a sender sleeps while it could send or must fail, then at most three steps of a
      party already under way, all enabled, wake it. */
  lemma {:induction false} NoLostWakeUp(c: Config, s: State)
    requires Reachable(c, s)
    ensures s.w.waiter.Asleep? && CanReceive(s) ==>
              && |WakePlan(s, WriterSide)| <= 3
              && Schedule(c, s, WakePlan(s, WriterSide))
              && Run(c, s, WakePlan(s, WriterSide)).w.waiter.Roused?
    ensures s.r.waiter.Asleep? && CanSend(c, s) ==>
              && |WakePlan(s, ReaderSide)| <= 3
              && Schedule(c, s, WakePlan(s, ReaderSide))
              && Run(c, s, WakePlan(s, ReaderSide)).r.waiter.Roused?
  {
    ReachableInv(c, s);
    if s.w.waiter.Asleep? && CanReceive(s) { PlanWakesReceiver(c, s); }
    if s.r.waiter.Asleep? && CanSend(c, s) { PlanWakesSender(c, s); }
  }
}
