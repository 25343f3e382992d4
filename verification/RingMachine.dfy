// One direction of a channel as a step machine: a sender, a receiver, and the
// rest of the world (openers, closers, death observers) sharing a byte buffer,
// two cursors, two notify lines and the state word. Every shared access is one
// step; copies move one byte per step, which is finer than the chunk copies.
module RingMachine {
  import opened Words
  import opened Frames
  import opened States
  import opened WaitLine

  /** Ring capacity and wake platform. Layout.LegalSizeRange gives these bounds for every legal ring. */
  datatype Config = Config(n: nat, pf: Platform) {
    predicate Legal() { 64 <= n <= 0x8000_0000 }
  }

  datatype SendResult = Running | Sent | Full | SendFailed(error: Error)

  datatype SPc =
    | SIdle
    | SCheck                        // first load of the state word in check_ready
    | SRetire(seen: ChannelState)   // unready and out of time: compare-exchange pending
    | STerminal                     // re-load of the state word
    | SCached                       // has_space with the cached read cursor
    | SFresh                        // fresh load of the read cursor
    | SWrite(done: nat)             // frame bytes copied so far
    | SNotify                       // cursor stored: bump, parked load, wake
    | SLoadRc                       // the wait condition's load of the read cursor
    | SGot(seenRc: nat)             // the wait condition succeeded
    | SNone                         // "not now": Full, or the condition gave None
    | SSleep
    | SErr(error: Error)

  /** `waiting`: inside wait_until. `granted`: a wait just succeeded. `base`: frames
      published when the call began (history). */
  datatype Sender = Sender(pc: SPc, payload: Payload, nextSeq: nat, cachedWc: nat, cachedRc: nat,
                           waiting: bool, granted: bool, result: SendResult, base: nat)

  datatype Record = Delivered(payload: Payload) | Discarded(size: nat)

  /** Whether a receive with this much room (None: it makes its own buffer) takes `len` bytes
      or discards them. */
  predicate Accepts(cap: Option<nat>, len: nat) { cap.None? || len <= cap.value }

  datatype RecvResult = Receiving | Got(record: Record) | Empty | RecvFailed(error: Error)

  datatype RPc =
    | RIdle
    | RPeek(again: Option<Error>)   // load of the write cursor; `again` holds a terminal cause
    | RHeader(again: Option<Error>, seen: nat, header: seq<byte>)
    | RCheck
    | RRetire(seenState: ChannelState)
    | RTerminal
    | RNone
    | RSleep
    | RGot(len: nat, seq32: nat)
    | RCopy(len: nat, seq32: nat, buf: seq<byte>)
    | RCommit(len: nat, seq32: nat, record: Record)
    | RNotify(taken: Record)        // cursor stored: bump, parked load, wake
    | RErr(error: Error)

  datatype Receiver = Receiver(pc: RPc, expectedSeq: nat, cachedRc: nat, cap: Option<nat>,
                               result: RecvResult, base: nat)

  /** `w` is the writer line (the receiver sleeps on it), `r` the reader line (the sender
      sleeps on it). `published`, `consumed` and `atTerm` are history: what was sent, what
      was taken, and how many frames existed when the state word became terminal. */
  datatype State = State(mem: seq<byte>, wc: nat, rc: nat, st: ChannelState, w: Line, r: Line,
                         s: Sender, v: Receiver,
                         published: seq<Payload>, consumed: seq<Record>, atTerm: nat)

  datatype Side = WriterSide | ReaderSide

  datatype Action =
    // sender
    | SCall(payload: Payload) | SReady(expired: bool) | SRetireCas | SConfirm | STry | SRefresh
    | SCopy | SPublish | SBump | SLoadParked | SWake
    | SFull | SWaitStart | SSpin | SSnapshot | SDeadline | SPark | SGoSleep | SCompareSleep
    | SExpire | SUnpark | SReload | SResume | SFail
    // receiver
    | RCall(cap: Option<nat>) | RLoadWc | RHeaderByte | RParse | RReady(expired: bool) | RRetireCas
    | RConfirm | REmpty | RSpin | RSnapshot | RDeadline | RPark | RGoSleep | RCompareSleep
    | RExpire | RUnpark | RBegin | RCopyByte | RFinish | RStoreCursor | RBump | RLoadParked | RWake | RFail
    // everyone else
    | EMove(next: ChannelState) | EBump(side: Side, kind: AllKind) | EWake(side: Side, kind: AllKind)

  function Init(c: Config): State {
    var line := Line(0, false, false, Away, Quiet, NotDue, NotDue);
    State(seq(c.n, _ => 0), 0, 0, ServerReady, line, line,
          Sender(SIdle, [], 1, 0, 0, false, false, Running, 0),
          Receiver(RIdle, 1, 0, None, Receiving, 0),
          [], [], 0)
  }

  function MsgLen(s: State): nat { HEADER + |s.s.payload| }

  /** `has_space` against a given view of the read cursor. */
  predicate Fits(c: Config, s: State, rc: nat) { c.n - (s.s.cachedWc - rc) >= MsgLen(s) }

  /** `wrapping_add(1)` on a 32-bit field. */
  function NextSeq(q: nat): nat { if q < WORD then Succ32(q) else 0 }

  function Goto(s: State, pc: SPc): State { s.(s := s.s.(pc := pc)) }

  function Jump(s: State, pc: RPc): State { s.(v := s.v.(pc := pc)) }

  function EndSend(s: State, r: SendResult): State { s.(s := s.s.(pc := SIdle, result := r, waiting := false)) }

  function EndRecv(s: State, r: RecvResult): State { s.(v := s.v.(pc := RIdle, result := r)) }

  /** The state word moves; whoever moved it to Connected or to a terminal state owes a wake_all. */
  function MoveState(s: State, next: ChannelState): State {
    if next == Connected then
      s.(st := next, w := SetAll(s.w, OnConnect, DueBump), r := SetAll(s.r, OnConnect, DueBump))
    else if Terminal(next) then
      s.(st := next, w := SetAll(s.w, OnTerminal, DueBump), r := SetAll(s.r, OnTerminal, DueBump),
         atTerm := |s.published|)
    else s.(st := next)
  }

  // ----- sender: try_send_once up to the decision to write -----

  predicate TryEnabled(c: Config, s: State, a: Action) {
    match a
    case SCall(_) => s.s.pc.SIdle?
    case SReady(_) => s.s.pc.SCheck?
    case SConfirm => s.s.pc.STerminal?
    case STry => s.s.pc.SCached?
    case SRefresh => s.s.pc.SFresh?
    case SFull => s.s.pc.SNone? && !s.s.waiting
    case _ => false
  }

  function TryStep(c: Config, s: State, a: Action): State
    requires TryEnabled(c, s, a) && |s.mem| == c.n > 0
  {
    match a
    case SCall(p) =>
      var s1 := s.(s := s.s.(payload := p, base := |s.published|, waiting := false, granted := false,
                             result := Running));
      if HEADER + |p| > c.n then EndSend(s1, SendFailed(MessageTooLarge)) else Goto(s1, SCheck)
    case SReady(expired) =>
      if s.st == Connected then Goto(s, STerminal)
      else if !Unready(s.st) then Goto(s, SErr(CauseOf(s.st)))
      else if expired then Goto(s, SRetire(s.st))
      else Goto(s, SNone)
    case SConfirm =>
      if Terminal(s.st) || s.st == ChannelState.Init then Goto(s, SErr(CauseOf(s.st)))
      else Goto(s, if s.s.waiting then SLoadRc else SCached)
    case STry => Goto(s, if Fits(c, s, s.s.cachedRc) then SWrite(0) else SFresh)
    case SRefresh =>
      var s1 := s.(s := s.s.(cachedRc := s.rc));
      Goto(s1, if Fits(c, s1, s.rc) then SWrite(0) else SNone)
    case SFull => EndSend(s, Full)
  }

  // ----- sender: publish_message -----

  predicate EmitEnabled(c: Config, s: State, a: Action) {
    match a
    case SCopy => s.s.pc.SWrite? && s.s.pc.done < MsgLen(s)
    case SPublish => s.s.pc.SWrite? && s.s.pc.done == MsgLen(s)
    case SBump => s.s.pc.SNotify? && s.w.waker.Stored?
    case SLoadParked => s.s.pc.SNotify? && s.w.waker.Bumped?
    case SWake => s.s.pc.SNotify? && s.w.waker.Waking?
    case _ => false
  }

  function EmitStep(c: Config, s: State, a: Action): State
    requires EmitEnabled(c, s, a) && |s.mem| == c.n > 0
  {
    match a
    case SCopy =>
      var i := s.s.pc.done;
      Goto(s.(mem := s.mem[Slot(s.s.cachedWc + i, c.n) := RawFrame(s.s.nextSeq, s.s.payload)[i]]), SWrite(i + 1))
    case SPublish =>
      var wc := s.s.cachedWc + MsgLen(s);
      s.(wc := wc, published := s.published + [s.s.payload], w := Store(s.w),
         s := s.s.(pc := SNotify, cachedWc := wc, nextSeq := NextSeq(s.s.nextSeq), granted := false))
    case SBump => s.(w := Bump(s.w))
    case SLoadParked =>
      var s1 := s.(w := LoadParked(s.w));
      if s1.w.waker.Quiet? then EndSend(s1, Sent) else s1
    case SWake => EndSend(s.(w := Wake(s.w, c.pf)), Sent)
  }

  // ----- sender: blocking in wait_until -----

  predicate BlockEnabled(c: Config, s: State, a: Action) {
    match a
    case SWaitStart => s.s.pc.SNone? && !s.s.waiting
    case SSpin => s.s.pc.SNone? && s.s.waiting && s.r.waiter.Away?
    case SSnapshot => s.s.pc.SNone? && s.s.waiting && s.r.waiter.Away?
    case SDeadline => s.s.pc.SNone? && s.s.waiting && s.r.waiter.Snapped?
    case SPark => s.s.pc.SNone? && s.s.waiting && s.r.waiter.Snapped?
    case SGoSleep => s.s.pc.SNone? && s.s.waiting && s.r.waiter.Parked?
    case SCompareSleep => s.s.pc.SSleep? && s.r.waiter.Ready?
    case SExpire => s.s.pc.SSleep? && s.r.waiter.Asleep?
    case SUnpark => s.s.pc.SSleep? && s.r.waiter.Roused?
    case SReload => s.s.pc.SLoadRc?
    case SResume => s.s.pc.SGot?
    case SFail => s.s.pc.SErr?
    case _ => false
  }

  function BlockStep(c: Config, s: State, a: Action): State
    requires BlockEnabled(c, s, a) && |s.mem| == c.n > 0
  {
    match a
    case SWaitStart => s.(s := s.s.(pc := SCheck, waiting := true))
    case SSpin => Goto(s, SCheck)
    case SSnapshot => Goto(s.(r := Snapshot(s.r)), SCheck)
    case SDeadline => Goto(s, SErr(TimedOut))
    case SPark => Goto(s.(r := Park(s.r)), SCheck)
    case SGoSleep => Goto(s.(r := GoReady(s.r)), SSleep)
    case SCompareSleep => s.(r := Sleep(s.r, c.pf))
    case SExpire => s.(r := Expire(s.r))
    case SUnpark => Goto(s.(r := Leave(s.r)), SNone)
    case SReload => Goto(s, if Fits(c, s, s.rc) then SGot(s.rc) else SNone)
    case SResume =>
      s.(r := Leave(s.r), s := s.s.(pc := SCheck, cachedRc := s.s.pc.seenRc, waiting := false, granted := true))
    case SFail => EndSend(s.(r := Leave(s.r)), SendFailed(s.s.pc.error))
  }

  predicate SenderEnabled(c: Config, s: State, a: Action) {
    TryEnabled(c, s, a) || EmitEnabled(c, s, a) || BlockEnabled(c, s, a)
  }

  function SenderStep(c: Config, s: State, a: Action): State
    requires SenderEnabled(c, s, a) && |s.mem| == c.n > 0
  {
    if TryEnabled(c, s, a) then TryStep(c, s, a)
    else if EmitEnabled(c, s, a) then EmitStep(c, s, a)
    else BlockStep(c, s, a)
  }

  /** An empty peek: ask for readiness, or give up with the cause already in hand. */
  function AfterEmpty(s: State, again: Option<Error>): State {
    Jump(s, if again.None? then RCheck else RErr(again.value))
  }

  // ----- receiver: try_peek_or_closed -----

  predicate PeekEnabled(c: Config, s: State, a: Action) {
    match a
    case RCall(_) => s.v.pc.RIdle?
    case RLoadWc => s.v.pc.RPeek?
    case RHeaderByte => s.v.pc.RHeader? && |s.v.pc.header| < 8
    case RParse => s.v.pc.RHeader? && |s.v.pc.header| == 8
    case RReady(_) => s.v.pc.RCheck?
    case RConfirm => s.v.pc.RTerminal?
    case REmpty => s.v.pc.RNone? && s.w.waiter.Away?
    case _ => false
  }

  function PeekStep(c: Config, s: State, a: Action): State
    requires PeekEnabled(c, s, a) && |s.mem| == c.n > 0
  {
    match a
    case RCall(cap) => s.(v := s.v.(pc := RPeek(None), cap := cap, base := |s.consumed|, result := Receiving))
    case RLoadWc =>
      if s.wc - s.v.cachedRc < HEADER then AfterEmpty(s, s.v.pc.again)
      else Jump(s, RHeader(s.v.pc.again, s.wc, []))
    case RHeaderByte =>
      var h := s.v.pc.header;
      Jump(s, s.v.pc.(header := h + [s.mem[Slot(s.v.cachedRc + |h|, c.n)]]))
    case RParse =>
      var len, q := FromLe(s.v.pc.header[..4]), FromLe(s.v.pc.header[4..]);
      if len > c.n - HEADER then Jump(s, RErr(MessageTooLarge))
      else if s.v.pc.seen - s.v.cachedRc < HEADER + len then AfterEmpty(s, s.v.pc.again)
      else Jump(s, RGot(len, q))
    case RReady(expired) =>
      if s.st == Connected then Jump(s, RTerminal)
      else if Terminal(s.st) then Jump(s, RPeek(Some(CauseOf(s.st))))
      else if s.st == ChannelState.Init then Jump(s, RErr(InvalidHeader))
      else Jump(s, if expired then RRetire(s.st) else RNone)
    case RConfirm =>
      if Terminal(s.st) then Jump(s, RPeek(Some(CauseOf(s.st))))
      else if s.st == ChannelState.Init then Jump(s, RErr(InvalidHeader))
      else Jump(s, RNone)
    case REmpty => EndRecv(s, Empty)
  }

  // ----- receiver: blocking in wait_until -----

  predicate ParkEnabled(c: Config, s: State, a: Action) {
    match a
    case RSpin => s.v.pc.RNone? && s.w.waiter.Away?
    case RSnapshot => s.v.pc.RNone? && s.w.waiter.Away?
    case RDeadline => s.v.pc.RNone? && s.w.waiter.Snapped?
    case RPark => s.v.pc.RNone? && s.w.waiter.Snapped?
    case RGoSleep => s.v.pc.RNone? && s.w.waiter.Parked?
    case RCompareSleep => s.v.pc.RSleep? && s.w.waiter.Ready?
    case RExpire => s.v.pc.RSleep? && s.w.waiter.Asleep?
    case RUnpark => s.v.pc.RSleep? && s.w.waiter.Roused?
    case RFail => s.v.pc.RErr?
    case _ => false
  }

  function ParkStep(c: Config, s: State, a: Action): State
    requires ParkEnabled(c, s, a) && |s.mem| == c.n > 0
  {
    match a
    case RSpin => Jump(s, RPeek(None))
    case RSnapshot => Jump(s.(w := Snapshot(s.w)), RPeek(None))
    case RDeadline => Jump(s, RErr(TimedOut))
    case RPark => Jump(s.(w := Park(s.w)), RPeek(None))
    case RGoSleep => Jump(s.(w := GoReady(s.w)), RSleep)
    case RCompareSleep => s.(w := Sleep(s.w, c.pf))
    case RExpire => s.(w := Expire(s.w))
    case RUnpark => Jump(s.(w := Leave(s.w)), RNone)
    case RFail => EndRecv(s.(w := Leave(s.w)), RecvFailed(s.v.pc.error))
  }

  // ----- receiver: copy and commit -----

  predicate TakeEnabled(c: Config, s: State, a: Action) {
    match a
    case RBegin => s.v.pc.RGot?
    case RCopyByte => s.v.pc.RCopy? && |s.v.pc.buf| < s.v.pc.len
    case RFinish => s.v.pc.RCopy? && |s.v.pc.buf| >= s.v.pc.len
    case RStoreCursor => s.v.pc.RCommit?
    case RBump => s.v.pc.RNotify? && s.r.waker.Stored?
    case RLoadParked => s.v.pc.RNotify? && s.r.waker.Bumped?
    case RWake => s.v.pc.RNotify? && s.r.waker.Waking?
    case _ => false
  }

  function TakeStep(c: Config, s: State, a: Action): State
    requires TakeEnabled(c, s, a) && |s.mem| == c.n > 0
  {
    match a
    case RBegin =>
      var len, q := s.v.pc.len, s.v.pc.seq32;
      Jump(s.(w := Leave(s.w)),
           if s.v.cap.Some? && len > s.v.cap.value then RCommit(len, q, Discarded(len)) else RCopy(len, q, []))
    case RCopyByte =>
      var b := s.v.pc.buf;
      Jump(s, s.v.pc.(buf := b + [s.mem[Slot(s.v.cachedRc + HEADER + |b|, c.n)]]))
    case RFinish => Jump(s, RCommit(s.v.pc.len, s.v.pc.seq32, Delivered(s.v.pc.buf)))
    case RStoreCursor =>
      if s.v.pc.seq32 != s.v.expectedSeq then Jump(s, RErr(SequenceMismatch))
      else
        var rc := s.v.cachedRc + HEADER + s.v.pc.len;
        s.(rc := rc, consumed := s.consumed + [s.v.pc.record], r := Store(s.r),
           v := s.v.(pc := RNotify(s.v.pc.record), cachedRc := rc, expectedSeq := NextSeq(s.v.expectedSeq)))
    case RBump => s.(r := Bump(s.r))
    case RLoadParked =>
      var s1 := s.(r := LoadParked(s.r));
      if s1.r.waker.Quiet? then EndRecv(s1, Got(s.v.pc.taken)) else s1
    case RWake => EndRecv(s.(r := Wake(s.r, c.pf)), Got(s.v.pc.taken))
  }

  predicate ReceiverEnabled(c: Config, s: State, a: Action) {
    PeekEnabled(c, s, a) || ParkEnabled(c, s, a) || TakeEnabled(c, s, a)
  }

  function ReceiverStep(c: Config, s: State, a: Action): State
    requires ReceiverEnabled(c, s, a) && |s.mem| == c.n > 0
  {
    if PeekEnabled(c, s, a) then PeekStep(c, s, a)
    else if ParkEnabled(c, s, a) then ParkStep(c, s, a)
    else TakeStep(c, s, a)
  }

  // ----- moves of the state word: openers, closers, death observers, and a sender or
  //       receiver retiring a channel that stayed unready too long -----

  predicate MoveEnabled(c: Config, s: State, a: Action) {
    match a
    case EMove(next) => Edge(s.st, next)
    case SRetireCas => s.s.pc.SRetire?
    case RRetireCas => s.v.pc.RRetire?
    case _ => false
  }

  function MoveStep(c: Config, s: State, a: Action): State
    requires MoveEnabled(c, s, a)
  {
    match a
    case EMove(next) => MoveState(s, next)
    case SRetireCas =>
      if s.st == s.s.pc.seen then Goto(MoveState(s, Closed), SErr(Retired)) else Goto(s, SCheck)
    case RRetireCas =>
      if s.st == s.v.pc.seenState then Jump(MoveState(s, Closed), RErr(Retired)) else Jump(s, RCheck)
  }

  // ----- wake_all, line by line -----

  predicate AllEnabled(c: Config, s: State, a: Action) {
    match a
    case EBump(WriterSide, k) => AllAt(s.w, k).DueBump?
    case EBump(ReaderSide, k) => AllAt(s.r, k).DueBump?
    case EWake(WriterSide, k) => AllAt(s.w, k).DueWake?
    case EWake(ReaderSide, k) => AllAt(s.r, k).DueWake?
    case _ => false
  }

  function AllStep(c: Config, s: State, a: Action): State
    requires AllEnabled(c, s, a)
  {
    match a
    case EBump(WriterSide, k) => s.(w := AllBump(s.w, k))
    case EBump(ReaderSide, k) => s.(r := AllBump(s.r, k))
    case EWake(WriterSide, k) => s.(w := AllWake(s.w, k, c.pf))
    case EWake(ReaderSide, k) => s.(r := AllWake(s.r, k, c.pf))
  }

  predicate Enabled(c: Config, s: State, a: Action) {
    |s.mem| == c.n > 0
    && (|| SenderEnabled(c, s, a) || ReceiverEnabled(c, s, a) || MoveEnabled(c, s, a) || AllEnabled(c, s, a))
  }

  function Step(c: Config, s: State, a: Action): State
    requires Enabled(c, s, a)
  {
    if SenderEnabled(c, s, a) then SenderStep(c, s, a)
    else if ReceiverEnabled(c, s, a) then ReceiverStep(c, s, a)
    else if MoveEnabled(c, s, a) then MoveStep(c, s, a)
    else AllStep(c, s, a)
  }

  /** `acts` is a schedule of the machine from `s`. */
  predicate Schedule(c: Config, s: State, acts: seq<Action>)
    decreases |acts|
  {
    acts == [] || (Enabled(c, s, acts[0]) && Schedule(c, Step(c, s, acts[0]), acts[1..]))
  }

  function Run(c: Config, s: State, acts: seq<Action>): State
    requires Schedule(c, s, acts)
    decreases |acts|
  {
    if acts == [] then s else Run(c, Step(c, s, acts[0]), acts[1..])
  }
}
