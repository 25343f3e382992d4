// The inductive invariant of the ring machine, in four parts: data, state word,
// sleepers, and bump counts. Each part is kept by every step of every party.
module RingInvariant {
  import opened Words
  import opened Frames
  import opened States
  import opened WaitLine
  import opened RingMachine

  // ----- data: cursors, bytes, sequence numbers, deliveries -----

  /** What the receiver took agrees with what was sent. */
  predicate Matches(r: Record, p: Payload) {
    r == Delivered(p) || r == Discarded(|p|)
  }

  /** ... and is exactly what the call's buffer asks for: whole if it fits, else discarded. */
  predicate Answers(cap: Option<nat>, r: Record, p: Payload) {
    r == if Accepts(cap, |p|) then Delivered(p) else Discarded(|p|)
  }

  predicate AllFit(ps: seq<Payload>, n: nat) {
    forall i | 0 <= i < |ps| :: HEADER + |ps[i]| <= n
  }

  /** Every record taken so far is the frame published at that position, in order. */
  predicate AllMatch(rs: seq<Record>, ps: seq<Payload>)
    requires |rs| <= |ps|
  {
    forall i | 0 <= i < |rs| :: Matches(rs[i], ps[i])
  }

  ghost predicate Cursors(c: Config, s: State) {
    && |s.mem| == c.n
    && |s.consumed| <= |s.published|
    && s.wc == s.s.cachedWc == Offset(s.published, |s.published|)
    && s.rc == s.v.cachedRc == Offset(s.published, |s.consumed|)
    && s.s.cachedRc <= s.rc <= s.wc <= s.s.cachedRc + c.n
    && s.s.nextSeq == SeqOf(|s.published|)
    && s.v.expectedSeq == SeqOf(|s.consumed|)
  }

  ghost predicate Contents(c: Config, s: State) {
    && Cursors(c, s)
    && |s.mem| > 0
    && Window(s.mem, s.rc, s.wc, s.published)
    && AllFit(s.published, c.n)
    && AllMatch(s.consumed, s.published)
  }

  /** The bytes of a half-written frame are in place, and the frame fits. */
  ghost predicate Staged(c: Config, s: State)
    requires |s.mem| == c.n > 0
  {
    s.s.pc.SWrite? ==>
      && s.s.pc.done <= MsgLen(s) && s.wc + MsgLen(s) <= s.s.cachedRc + c.n
      && Placed(s.mem, s.wc, RawFrame(s.s.nextSeq, s.s.payload), s.s.pc.done)
  }

  predicate SenderAt(c: Config, s: State) {
    && (!s.s.pc.SIdle? ==> s.s.pc.SErr? || MsgLen(s) <= c.n)
    && (s.s.pc.SGot? ==> s.s.cachedRc <= s.s.pc.seenRc <= s.rc && s.wc + MsgLen(s) <= s.s.pc.seenRc + c.n)
    && (s.s.granted ==> s.wc + MsgLen(s) <= s.s.cachedRc + c.n)
    && (s.s.pc.SNotify? ==> |s.published| == s.s.base + 1)
    && (!s.s.pc.SNotify? && !s.s.pc.SIdle? ==> |s.published| == s.s.base)
    && (s.s.pc.SIdle? && !s.s.result.Running? ==>
          |s.published| == s.s.base + (if s.s.result.Sent? then 1 else 0))
    && (s.s.pc.SNotify? || (s.s.pc.SIdle? && s.s.result.Sent?) ==> Last(s.published, s.s.payload))
  }

  /** The latest frame is `p`. */
  predicate Last(ps: seq<Payload>, p: Payload) { ps != [] && ps[|ps| - 1] == p }

  /** The receiver holds a true picture of the next unread frame. */
  predicate Head(s: State, len: nat, q: nat) {
    && |s.consumed| < |s.published|
    && len == |s.published[|s.consumed|]|
    && q == SeqOf(|s.consumed|)
  }

  predicate GoodCause(again: Option<Error>) {
    again.Some? ==> again.value == ChannelClosed || again.value == PeerGone
  }

  ghost predicate ReceiverAt(c: Config, s: State)
    requires Contents(c, s) && c.n > 0
  {
    match s.v.pc
    case RPeek(again) => GoodCause(again)
    case RHeader(again, seen, h) =>
      && GoodCause(again)
      && |s.consumed| < |s.published| && Offset(s.published, |s.consumed| + 1) <= seen <= s.wc
      && |h| <= 8 && (forall j | 0 <= j < |h| :: h[j] == Frame(|s.consumed|, s.published[|s.consumed|])[j])
    case RGot(len, q) => Head(s, len, q)
    case RCopy(len, q, buf) =>
      && Head(s, len, q) && Accepts(s.v.cap, len)
      && |buf| <= len && buf == s.published[|s.consumed|][..|buf|]
    case RCommit(len, q, rec) => Head(s, len, q) && Answers(s.v.cap, rec, s.published[|s.consumed|])
    case RErr(e) => e != MessageTooLarge && e != SequenceMismatch && e != InvalidHeader
    case _ => true
  }

  ghost predicate ReceiverBase(s: State) {
    && (s.v.pc.RNotify? ==>
          && |s.consumed| == s.v.base + 1 <= |s.published| && s.v.pc.taken == s.consumed[s.v.base]
          && Answers(s.v.cap, s.v.pc.taken, s.published[s.v.base]))
    && (!s.v.pc.RNotify? && !s.v.pc.RIdle? ==> |s.consumed| == s.v.base)
    && (s.v.pc.RIdle? && !s.v.result.Receiving? ==>
          |s.consumed| == s.v.base + (if s.v.result.Got? then 1 else 0))
    && (s.v.pc.RIdle? && s.v.result.Got? ==>
          && s.v.base < |s.published| && s.v.result.record == s.consumed[s.v.base]
          && Answers(s.v.cap, s.v.result.record, s.published[s.v.base]))
    && (s.v.pc.RIdle? && s.v.result.RecvFailed? ==>
          && s.v.result.error != MessageTooLarge && s.v.result.error != SequenceMismatch
          && s.v.result.error != InvalidHeader)
  }

  ghost predicate Data(c: Config, s: State) {
    && c.Legal()
    && Contents(c, s)
    && Staged(c, s)
    && SenderAt(c, s)
    && ReceiverAt(c, s)
    && ReceiverBase(s)
  }

  // ----- state word -----

  /** The channel has passed through Connected. */
  predicate EverConnected(s: State) { !s.w.conn.NotDue? }

  predicate Holds(s: State, e: Error) {
    && (e == ChannelClosed ==> s.st == Closed)
    && (e == PeerGone ==> s.st == PeerDisconnected)
    && (e == Retired ==> s.st == Closed && !EverConnected(s))
  }

  predicate Drained(s: State, e: Error) {
    e == ChannelClosed || e == PeerGone ==> s.atTerm <= |s.consumed|
  }

  predicate IsCause(s: State, again: Option<Error>) {
    again.Some? ==> Holds(s, again.value)
  }

  /** The sender has seen the channel ready in its current attempt. */
  predicate PastCheck(pc: SPc) {
    pc.STerminal? || pc.SCached? || pc.SFresh? || pc.SWrite? || pc.SLoadRc? || pc.SGot?
  }

  /** Program counters the sender can be at inside wait_until. */
  predicate InWait(pc: SPc) {
    pc.SCheck? || pc.SRetire? || pc.STerminal? || pc.SLoadRc? || pc.SGot? || pc.SNone? || pc.SSleep? || pc.SErr?
  }

  /** The state word, the wake_all obligations and the history agree. */
  predicate Tokens(s: State) {
    && s.st != ChannelState.Init
    && (s.w.conn.NotDue? <==> s.r.conn.NotDue?)
    && (s.w.term.NotDue? <==> !Terminal(s.st))
    && (s.r.term.NotDue? <==> !Terminal(s.st))
    && (Unready(s.st) ==> !EverConnected(s))
    && (s.st == Connected ==> EverConnected(s))
    && s.atTerm <= |s.published|
    && (s.published != [] ==> EverConnected(s))
  }

  predicate SenderKnows(s: State) {
    && (s.s.granted ==> EverConnected(s) && !s.s.waiting)
    && (PastCheck(s.s.pc) ==> EverConnected(s))
    && (s.s.pc.SErr? ==> Holds(s, s.s.pc.error) && s.s.pc.error != InvalidHeader)
    && (s.s.result.SendFailed? ==> Holds(s, s.s.result.error))
    && (s.s.pc.SRetire? ==> Unready(s.s.pc.seen) && !s.s.granted)
    && (s.s.granted && !s.s.pc.SIdle? ==>
          s.s.pc.SCheck? || s.s.pc.STerminal? || s.s.pc.SCached? || s.s.pc.SWrite? || s.s.pc.SErr?)
  }

  predicate ReceiverKnows(s: State) {
    && (s.v.pc.RPeek? ==> IsCause(s, s.v.pc.again))
    && (s.v.pc.RHeader? ==> IsCause(s, s.v.pc.again))
    && (s.v.pc.RRetire? ==> Unready(s.v.pc.seenState))
    && (s.v.pc.RErr? ==> Holds(s, s.v.pc.error) && Drained(s, s.v.pc.error))
    && (s.v.result.RecvFailed? ==> Holds(s, s.v.result.error) && Drained(s, s.v.result.error))
  }

  predicate StateWord(s: State) { Tokens(s) && SenderKnows(s) && ReceiverKnows(s) }

  // ----- sleepers -----

  predicate CanReceive(s: State) { s.rc < s.wc || Terminal(s.st) }

  predicate HasRoom(c: Config, s: State) { s.wc + MsgLen(s) <= s.rc + c.n }

  predicate CanSend(c: Config, s: State) { Terminal(s.st) || (s.st == Connected && HasRoom(c, s)) }

  predicate ReceiverAwake(c: Config, s: State) {
    && LineOk(s.w)
    && (s.v.pc.RSleep? <==> s.w.waiter.Ready? || s.w.waiter.Asleep? || s.w.waiter.Roused?)
    && (s.v.pc.RIdle? || s.v.pc.RCopy? || s.v.pc.RCommit? || s.v.pc.RNotify? ==> s.w.waiter.Away?)
    && (s.w.waker.Quiet? <==> !s.s.pc.SNotify?)
    && (s.w.waiter.Parked? && (s.v.pc.RCheck? || s.v.pc.RRetire? || s.v.pc.RTerminal? || s.v.pc.RNone?) ==>
          s.rc < s.wc ==> Hot(s.w, c.pf))
    && (s.w.waiter.Parked? && s.v.pc.RNone? ==> CanReceive(s) ==> Hot(s.w, c.pf))
    && (s.w.waiter.Ready? ==> CanReceive(s) ==> Hot(s.w, c.pf))
    && (s.w.waiter.Asleep? ==> CanReceive(s) ==> Owed(s.w))
  }

  predicate SenderAwake(c: Config, s: State) {
    && LineOk(s.r)
    && (s.s.pc.SSleep? <==> s.r.waiter.Ready? || s.r.waiter.Asleep? || s.r.waiter.Roused?)
    && (!s.r.waiter.Away? && !s.s.pc.SErr? ==> s.s.waiting)
    && (s.s.waiting ==> InWait(s.s.pc))
    && (s.s.pc.SLoadRc? || s.s.pc.SGot? || s.s.pc.SSleep? ==> s.s.waiting)
    && (s.r.waker.Quiet? <==> !s.v.pc.RNotify?)
    && (s.r.waiter.Parked? && (s.s.pc.SLoadRc? || s.s.pc.SNone?) ==> Terminal(s.st) ==> Hot(s.r, c.pf))
    && (s.r.waiter.Parked? && s.s.pc.SNone? ==> CanSend(c, s) ==> Hot(s.r, c.pf))
    && (s.r.waiter.Ready? ==> CanSend(c, s) ==> Hot(s.r, c.pf))
    && (s.r.waiter.Asleep? ==> CanSend(c, s) ==> Owed(s.r))
  }

  // ----- bump counts -----

  function AllBumps(l: Line): nat {
    (if l.conn.DueWake? || l.conn.Done? then 1 else 0) + (if l.term.DueWake? || l.term.Done? then 1 else 0)
  }

  /** Bumps so far: one per cursor store (the last may be outstanding) and one per wake_all. */
  predicate Counted(l: Line, stores: nat) {
    l.count + (if l.waker.Stored? then 1 else 0) == stores + AllBumps(l)
  }

  predicate Counts(c: Config, s: State) {
    && Counted(s.w, |s.published|)
    && Counted(s.r, |s.consumed|)
    && (s.w.waker.Stored? ==> s.published != [])
    && (s.r.waker.Stored? ==> s.consumed != [])
    && (HasSnap(s.w) ==> |s.consumed| <= s.w.waiter.snap + 1)
    && (HasSnap(s.r) ==> |s.published| <= s.r.waiter.snap + 1 + c.n / 8)
  }

  ghost predicate Inv(c: Config, s: State) {
    Data(c, s) && StateWord(s) && ReceiverAwake(c, s) && SenderAwake(c, s) && Counts(c, s)
  }

  /** At most n/8 frames are unread at any time. */
  lemma {:induction false} UnreadFrames(c: Config, s: State)
    requires c.n > 0 && Cursors(c, s)
    ensures |s.published| - |s.consumed| <= c.n / 8
    ensures |s.published| == |s.consumed| <==> s.wc == s.rc
    ensures |s.consumed| < |s.published| ==> s.wc >= Offset(s.published, |s.consumed| + 1)
    ensures |s.consumed| < |s.published| ==>
              Offset(s.published, |s.consumed| + 1) == s.rc + HEADER + |s.published[|s.consumed|]|
  {
    OffsetGap(s.published, |s.consumed|, |s.published|);
    if |s.consumed| < |s.published| { OffsetGap(s.published, |s.consumed| + 1, |s.published|); }
  }

  lemma {:induction false} InitInv(c: Config)
    requires c.Legal()
    ensures Inv(c, RingMachine.Init(c))
  {
  }

  // ----- data is kept -----

  /** What a step leaves alone, as far as the data invariant is concerned. */
  predicate SameData(s: State, t: State) {
    t.mem == s.mem && t.wc == s.wc && t.rc == s.rc && t.published == s.published && t.consumed == s.consumed
  }

  lemma {:induction false} SameContents(c: Config, s: State, t: State)
    requires Contents(c, s) && SameData(s, t)
    requires t.s.cachedWc == s.s.cachedWc && t.s.nextSeq == s.s.nextSeq
    requires t.s.cachedRc <= s.rc && s.wc <= t.s.cachedRc + c.n
    requires t.v.cachedRc == s.v.cachedRc && t.v.expectedSeq == s.v.expectedSeq
    ensures Contents(c, t)
  {
  }

  lemma {:induction false} SameReceiver(c: Config, s: State, t: State)
    requires c.n > 0 && Contents(c, s) && Contents(c, t) && SameData(s, t) && t.v == s.v
    requires ReceiverAt(c, s) && ReceiverBase(s)
    ensures ReceiverAt(c, t) && ReceiverBase(t)
  {
  }

  lemma {:induction false} SameSender(c: Config, s: State, t: State)
    requires |s.mem| == c.n > 0 && SameData(s, t) && t.s == s.s && Staged(c, s) && SenderAt(c, s)
    ensures Staged(c, t) && SenderAt(c, t)
  {
  }

  lemma {:induction false} CopyEffect(c: Config, s: State)
    requires |s.mem| == c.n > 0 && EmitEnabled(c, s, SCopy)
    ensures var i := s.s.pc.done;
            EmitStep(c, s, SCopy)
              == s.(mem := s.mem[Slot(s.s.cachedWc + i, c.n) := RawFrame(s.s.nextSeq, s.s.payload)[i]],
                    s := s.s.(pc := SWrite(i + 1)))
  {
  }

  lemma {:induction false} CopyKeepsStaged(c: Config, s: State, t: State)
    requires c.n > 0 && Contents(c, s) && Staged(c, s) && s.s.pc.SWrite? && s.s.pc.done < MsgLen(s)
    requires var i := s.s.pc.done;
             t == s.(mem := s.mem[Slot(s.wc + i, c.n) := RawFrame(s.s.nextSeq, s.s.payload)[i]],
                     s := s.s.(pc := SWrite(i + 1)))
    ensures Window(t.mem, t.rc, t.wc, t.published) && Staged(c, t)
  {
    StageByte(s.mem, s.rc, s.wc, s.published, RawFrame(s.s.nextSeq, s.s.payload), s.s.pc.done);
  }

  lemma {:induction false} CopyKeepsData(c: Config, s: State)
    requires Data(c, s) && EmitEnabled(c, s, SCopy)
    ensures Data(c, EmitStep(c, s, SCopy))
  {
    CopyEffect(c, s);
    CopyKeepsStaged(c, s, EmitStep(c, s, SCopy));
  }

  lemma {:induction false} PublishOffsets(ps: seq<Payload>, k: nat, p: Payload)
    requires k <= |ps|
    ensures Offset(ps + [p], |ps| + 1) == Offset(ps, |ps|) + HEADER + |p|
    ensures Offset(ps + [p], k) == Offset(ps, k)
    ensures k < |ps| ==> Offset(ps + [p], k + 1) == Offset(ps, k + 1)
  {
    StreamSnoc(ps, p);
  }

  lemma {:induction false} PublishKeepsCursors(c: Config, s: State, t: State)
    requires Data(c, s) && EmitEnabled(c, s, SPublish) && t == EmitStep(c, s, SPublish)
    ensures Cursors(c, t)
    ensures |s.consumed| < |s.published| ==>
              Offset(t.published, |s.consumed| + 1) == Offset(s.published, |s.consumed| + 1)
  {
    PublishOffsets(s.published, |s.consumed|, s.s.payload);
  }

  lemma {:induction false} PublishKeepsContents(c: Config, s: State, t: State)
    requires Data(c, s) && EmitEnabled(c, s, SPublish) && t == EmitStep(c, s, SPublish)
    ensures Contents(c, t)
  {
    PublishKeepsCursors(c, s, t);
    WindowExtend(s.mem, s.rc, s.wc, s.published, s.s.payload);
  }

  lemma {:induction false} PublishKeepsData(c: Config, s: State)
    requires Data(c, s) && EmitEnabled(c, s, SPublish)
    ensures Data(c, EmitStep(c, s, SPublish))
  {
    PublishKeepsCursors(c, s, EmitStep(c, s, SPublish));
    PublishKeepsContents(c, s, EmitStep(c, s, SPublish));
  }

  lemma {:induction false} TryFrame(c: Config, s: State, a: Action)
    requires TryEnabled(c, s, a) && |s.mem| == c.n > 0
    ensures TryStep(c, s, a) == s.(s := TryStep(c, s, a).s)
    ensures TryStep(c, s, a).s.cachedWc == s.s.cachedWc && TryStep(c, s, a).s.nextSeq == s.s.nextSeq
  {
  }

  lemma {:induction false} TryKeepsLocal(c: Config, s: State, a: Action)
    requires c.Legal() && Cursors(c, s) && SenderAt(c, s) && TryEnabled(c, s, a)
    ensures SenderAt(c, TryStep(c, s, a)) && Cursors(c, TryStep(c, s, a))
    ensures Staged(c, TryStep(c, s, a))
  {
    TryFrame(c, s, a);
  }

  lemma {:induction false} TryKeepsData(c: Config, s: State, a: Action)
    requires Data(c, s) && TryEnabled(c, s, a)
    ensures Data(c, TryStep(c, s, a))
  {
    TryFrame(c, s, a);
    TryKeepsLocal(c, s, a);
    SameContents(c, s, TryStep(c, s, a));
    SameReceiver(c, s, TryStep(c, s, a));
  }

  lemma {:induction false} EmitFrame(c: Config, s: State, a: Action)
    requires EmitEnabled(c, s, a) && |s.mem| == c.n > 0 && !a.SCopy? && !a.SPublish?
    ensures SameData(s, EmitStep(c, s, a)) && EmitStep(c, s, a).v == s.v
    ensures EmitStep(c, s, a).s.cachedWc == s.s.cachedWc && EmitStep(c, s, a).s.nextSeq == s.s.nextSeq
  {
  }

  lemma {:induction false} EmitKeepsLocal(c: Config, s: State, a: Action)
    requires c.Legal() && Cursors(c, s) && SenderAt(c, s) && EmitEnabled(c, s, a) && !a.SCopy? && !a.SPublish?
    ensures SenderAt(c, EmitStep(c, s, a)) && Cursors(c, EmitStep(c, s, a))
    ensures Staged(c, EmitStep(c, s, a))
  {
    EmitFrame(c, s, a);
  }

  lemma {:induction false} EmitKeepsData(c: Config, s: State, a: Action)
    requires Data(c, s) && EmitEnabled(c, s, a)
    ensures Data(c, EmitStep(c, s, a))
  {
    if a.SCopy? {
      CopyKeepsData(c, s);
    } else if a.SPublish? {
      PublishKeepsData(c, s);
    } else {
      EmitFrame(c, s, a);
      EmitKeepsLocal(c, s, a);
      SameContents(c, s, EmitStep(c, s, a));
      SameReceiver(c, s, EmitStep(c, s, a));
    }
  }

  lemma {:induction false} BlockFrame(c: Config, s: State, a: Action)
    requires BlockEnabled(c, s, a) && |s.mem| == c.n > 0
    ensures BlockStep(c, s, a) == s.(s := BlockStep(c, s, a).s, r := BlockStep(c, s, a).r)
    ensures BlockStep(c, s, a).s.cachedWc == s.s.cachedWc && BlockStep(c, s, a).s.nextSeq == s.s.nextSeq
  {
  }

  lemma {:induction false} BlockKeepsLocal(c: Config, s: State, a: Action)
    requires c.Legal() && Cursors(c, s) && SenderAt(c, s) && BlockEnabled(c, s, a)
    ensures SenderAt(c, BlockStep(c, s, a)) && Cursors(c, BlockStep(c, s, a))
    ensures Staged(c, BlockStep(c, s, a))
  {
    BlockFrame(c, s, a);
  }

  lemma {:induction false} BlockKeepsData(c: Config, s: State, a: Action)
    requires Data(c, s) && BlockEnabled(c, s, a)
    ensures Data(c, BlockStep(c, s, a))
  {
    BlockFrame(c, s, a);
    BlockKeepsLocal(c, s, a);
    SameContents(c, s, BlockStep(c, s, a));
    SameReceiver(c, s, BlockStep(c, s, a));
  }

  /** The next header or payload byte the receiver copies is the frame's own. */
  lemma {:induction false} FrameByte(c: Config, s: State, i: nat)
    requires c.Legal() && Contents(c, s) && |s.consumed| < |s.published|
    requires i < HEADER + |s.published[|s.consumed|]|
    ensures s.mem[Slot(s.rc + i, c.n)] == Frame(|s.consumed|, s.published[|s.consumed|])[i]
  {
    var k := |s.consumed|;
    HeadBytes(s.mem, s.rc, s.wc, s.published, k);
    assert CopyOut(s.mem, s.rc, HEADER + |s.published[k]|)[i] == Frame(k, s.published[k])[i];
  }

  lemma {:induction false} ParseHeader(c: Config, s: State)
    requires c.Legal() && Contents(c, s) && ReceiverAt(c, s) && PeekEnabled(c, s, RParse)
    ensures FromLe(s.v.pc.header[..4]) == |s.published[|s.consumed|]|
    ensures FromLe(s.v.pc.header[4..]) == SeqOf(|s.consumed|)
    ensures s.v.pc.seen - s.v.cachedRc >= HEADER + |s.published[|s.consumed|]|
    ensures |s.published[|s.consumed|]| <= c.n - HEADER
  {
    var k := |s.consumed|;
    var h := s.v.pc.header;
    assert h == Frame(k, s.published[k])[..8];
    HeaderDecode(h, k, s.published[k]);
    UnreadFrames(c, s);
  }

  lemma {:induction false} PeekFrame(c: Config, s: State, a: Action)
    requires PeekEnabled(c, s, a) && |s.mem| == c.n > 0
    ensures PeekStep(c, s, a) == s.(v := PeekStep(c, s, a).v)
    ensures PeekStep(c, s, a).v.cachedRc == s.v.cachedRc && PeekStep(c, s, a).v.expectedSeq == s.v.expectedSeq
  {
  }

  lemma {:induction false} HeaderByteKeeps(c: Config, s: State)
    requires c.Legal() && Contents(c, s) && ReceiverAt(c, s) && PeekEnabled(c, s, RHeaderByte)
    requires Contents(c, PeekStep(c, s, RHeaderByte))
    ensures ReceiverAt(c, PeekStep(c, s, RHeaderByte))
  {
    FrameByte(c, s, |s.v.pc.header|);
  }

  lemma {:induction false} PeekKeepsLocal(c: Config, s: State, a: Action)
    requires c.Legal() && Contents(c, s) && ReceiverAt(c, s) && s.st != ChannelState.Init
    requires PeekEnabled(c, s, a) && Contents(c, PeekStep(c, s, a))
    ensures ReceiverAt(c, PeekStep(c, s, a))
  {
    match a
    case RLoadWc => UnreadFrames(c, s);
    case RHeaderByte => HeaderByteKeeps(c, s);
    case RParse => ParseHeader(c, s);
    case _ =>
  }

  lemma {:induction false} PeekKeepsBase(c: Config, s: State, a: Action)
    requires |s.mem| == c.n > 0 && ReceiverBase(s) && PeekEnabled(c, s, a)
    ensures ReceiverBase(PeekStep(c, s, a))
  {
  }

  lemma {:induction false} PeekKeepsData(c: Config, s: State, a: Action)
    requires Data(c, s) && s.st != ChannelState.Init && PeekEnabled(c, s, a)
    ensures Data(c, PeekStep(c, s, a))
  {
    var t := PeekStep(c, s, a);
    PeekFrame(c, s, a);
    SameContents(c, s, t);
    SameSender(c, s, t);
    PeekKeepsLocal(c, s, a);
    PeekKeepsBase(c, s, a);
  }

  lemma {:induction false} ParkFrame(c: Config, s: State, a: Action)
    requires ParkEnabled(c, s, a) && |s.mem| == c.n > 0
    ensures ParkStep(c, s, a) == s.(v := ParkStep(c, s, a).v, w := ParkStep(c, s, a).w)
    ensures ParkStep(c, s, a).v.cachedRc == s.v.cachedRc && ParkStep(c, s, a).v.expectedSeq == s.v.expectedSeq
  {
  }

  lemma {:induction false} ParkKeepsLocal(c: Config, s: State, a: Action)
    requires c.Legal() && Contents(c, s) && ReceiverAt(c, s) && ReceiverBase(s)
    requires ParkEnabled(c, s, a) && Contents(c, ParkStep(c, s, a))
    ensures ReceiverAt(c, ParkStep(c, s, a)) && ReceiverBase(ParkStep(c, s, a))
  {
  }

  lemma {:induction false} ParkKeepsData(c: Config, s: State, a: Action)
    requires Data(c, s) && ParkEnabled(c, s, a)
    ensures Data(c, ParkStep(c, s, a))
  {
    var t := ParkStep(c, s, a);
    ParkFrame(c, s, a);
    SameContents(c, s, t);
    SameSender(c, s, t);
    ParkKeepsLocal(c, s, a);
  }

  lemma {:induction false} PayloadByte(c: Config, s: State)
    requires c.Legal() && Contents(c, s) && ReceiverAt(c, s) && TakeEnabled(c, s, RCopyByte)
    ensures s.mem[Slot(s.rc + HEADER + |s.v.pc.buf|, c.n)] == s.published[|s.consumed|][|s.v.pc.buf|]
  {
    var k, i := |s.consumed|, |s.v.pc.buf|;
    FrameByte(c, s, HEADER + i);
    FrameParts(SeqOf(k), s.published[k]);
    assert Frame(k, s.published[k])[HEADER + i] == Frame(k, s.published[k])[8..][i];
  }

  lemma {:induction false} CommitKeepsContents(c: Config, s: State, t: State)
    requires Data(c, s) && TakeEnabled(c, s, RStoreCursor) && t == TakeStep(c, s, RStoreCursor)
    ensures t.v.pc.RNotify? && Contents(c, t)
  {
    UnreadFrames(c, s);
    assert Cursors(c, t);
  }

  lemma {:induction false} TakeFrame(c: Config, s: State, a: Action)
    requires TakeEnabled(c, s, a) && |s.mem| == c.n > 0 && !a.RStoreCursor?
    ensures SameData(s, TakeStep(c, s, a)) && TakeStep(c, s, a).s == s.s
    ensures TakeStep(c, s, a).v.cachedRc == s.v.cachedRc && TakeStep(c, s, a).v.expectedSeq == s.v.expectedSeq
  {
  }

  lemma {:induction false} TakeKeepsLocal(c: Config, s: State, a: Action)
    requires c.Legal() && Contents(c, s) && ReceiverAt(c, s) && ReceiverBase(s)
    requires TakeEnabled(c, s, a) && !a.RStoreCursor? && Contents(c, TakeStep(c, s, a))
    ensures ReceiverAt(c, TakeStep(c, s, a)) && ReceiverBase(TakeStep(c, s, a))
  {
    if a.RCopyByte? { PayloadByte(c, s); }
  }

  lemma {:induction false} TakeKeepsData(c: Config, s: State, a: Action)
    requires Data(c, s) && TakeEnabled(c, s, a)
    ensures Data(c, TakeStep(c, s, a))
  {
    var t := TakeStep(c, s, a);
    if a.RStoreCursor? {
      CommitKeepsContents(c, s, t);
    } else {
      TakeFrame(c, s, a);
      SameContents(c, s, t);
      SameSender(c, s, t);
      TakeKeepsLocal(c, s, a);
    }
  }

  lemma {:induction false} MoveFrame(c: Config, s: State, a: Action)
    requires MoveEnabled(c, s, a)
    ensures SameData(s, MoveStep(c, s, a))
    ensures MoveStep(c, s, a).s == s.s.(pc := MoveStep(c, s, a).s.pc)
    ensures MoveStep(c, s, a).v == s.v.(pc := MoveStep(c, s, a).v.pc)
  {
  }

  lemma {:induction false} MoveKeepsSender(c: Config, s: State, a: Action)
    requires |s.mem| == c.n > 0 && Staged(c, s) && SenderAt(c, s) && MoveEnabled(c, s, a)
    ensures Staged(c, MoveStep(c, s, a)) && SenderAt(c, MoveStep(c, s, a))
  {
    MoveFrame(c, s, a);
  }

  lemma {:induction false} MoveKeepsReceiver(c: Config, s: State, a: Action)
    requires c.n > 0 && Contents(c, s) && MoveEnabled(c, s, a) && Contents(c, MoveStep(c, s, a))
    requires ReceiverAt(c, s) && ReceiverBase(s)
    ensures ReceiverAt(c, MoveStep(c, s, a)) && ReceiverBase(MoveStep(c, s, a))
  {
    MoveFrame(c, s, a);
  }

  lemma {:induction false} MoveKeepsData(c: Config, s: State, a: Action)
    requires Data(c, s) && MoveEnabled(c, s, a)
    ensures Data(c, MoveStep(c, s, a))
  {
    MoveFrame(c, s, a);
    SameContents(c, s, MoveStep(c, s, a));
    MoveKeepsSender(c, s, a);
    MoveKeepsReceiver(c, s, a);
  }

  lemma {:induction false} AllKeepsData(c: Config, s: State, a: Action)
    requires Data(c, s) && AllEnabled(c, s, a)
    ensures Data(c, AllStep(c, s, a))
  {
    var t := AllStep(c, s, a);
    assert SameData(s, t) && t.s == s.s && t.v == s.v;
    SameContents(c, s, t);
    SameSender(c, s, t);
    SameReceiver(c, s, t);
  }
}
