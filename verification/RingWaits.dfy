// The quantifier-free parts of the ring machine's invariant are kept by every
// step, which completes the induction; then what holds over every schedule.
module RingWaits {
  import opened Frames
  import opened States
  import opened WaitLine
  import opened RingMachine
  import opened RingInvariant

  /** The numeric consequences of the data invariant that the other parts rest on. */
  predicate Basics(c: Config, s: State) {
    && c.Legal() && |s.mem| == c.n
    && s.s.cachedWc == s.wc && s.v.cachedRc == s.rc && s.rc <= s.wc
    && |s.consumed| <= |s.published| <= |s.consumed| + c.n / 8
    && (s.wc - s.rc < HEADER <==> |s.consumed| == |s.published|)
    && (s.rc == s.wc <==> |s.consumed| == |s.published|)
    && (s.s.granted ==> s.wc + MsgLen(s) <= s.s.cachedRc + c.n)
    && (s.v.pc.RGot? || s.v.pc.RCopy? || s.v.pc.RCommit? ==> |s.consumed| < |s.published|)
    && (s.v.pc.RCommit? ==> s.v.pc.seq32 == s.v.expectedSeq)
  }

  lemma {:induction false} BasicsHold(c: Config, s: State)
    requires Data(c, s)
    ensures Basics(c, s)
  {
    UnreadFrames(c, s);
  }

  /** A complete header always parses to a whole, in-bounds frame. */
  lemma {:induction false} ParseGets(c: Config, s: State)
    requires Data(c, s) && PeekEnabled(c, s, RParse)
    ensures PeekStep(c, s, RParse).v.pc == RGot(|s.published[|s.consumed|]|, SeqOf(|s.consumed|))
  {
    ParseHeader(c, s);
  }

  predicate Rest(c: Config, s: State) {
    StateWord(s) && ReceiverAwake(c, s) && SenderAwake(c, s) && Counts(c, s)
  }

  // ----- what each party can and cannot touch -----

  /** A step of the sender alone, outside publishing, leaves the receiver's half true. */
  lemma {:induction false} SenderOnly(c: Config, s: State, t: State)
    requires t == s.(s := t.s) && !t.s.pc.SNotify? && !s.s.pc.SNotify?
    requires StateWord(s) && ReceiverAwake(c, s) && Counts(c, s)
    ensures Tokens(t) && ReceiverKnows(t) && ReceiverAwake(c, t) && Counts(c, t)
  {
  }

  /** A step of the receiver alone, outside committing, leaves the sender's half true. */
  lemma {:induction false} ReceiverOnly(c: Config, s: State, t: State)
    requires t == s.(v := t.v) && !t.v.pc.RNotify? && !s.v.pc.RNotify?
    requires StateWord(s) && SenderAwake(c, s) && Counts(c, s)
    ensures Tokens(t) && SenderKnows(t) && SenderAwake(c, t) && Counts(c, t)
  {
  }

  /** A step of someone else keeps the receiver awake, provided that whatever newly gives it
      something to wake for raises the alarm on its line. */
  lemma {:induction false} OthersKeepReceiver(c: Config, s: State, t: State)
    requires ReceiverAwake(c, s) && ByOthers(s.w, t.w, c.pf) && t.rc == s.rc
    requires t.v.pc == s.v.pc || (s.v.pc.RRetire? && (t.v.pc.RErr? || t.v.pc.RCheck?))
    requires t.w.waker.Quiet? <==> !t.s.pc.SNotify?
    requires t.rc < t.wc ==> s.rc < s.wc || Alarmed(t.w, c.pf)
    requires CanReceive(t) ==> CanReceive(s) || Alarmed(t.w, c.pf)
    ensures ReceiverAwake(c, t)
  {
    OthersKeepAlarm(s.w, t.w, c.pf);
  }

  /** The mirror image for the sender. */
  lemma {:induction false} OthersKeepSender(c: Config, s: State, t: State)
    requires SenderAwake(c, s) && ByOthers(s.r, t.r, c.pf) && t.s == s.s.(pc := t.s.pc)
    requires t.s.pc == s.s.pc || (s.s.pc.SRetire? && (t.s.pc.SErr? || t.s.pc.SCheck?))
    requires t.r.waker.Quiet? <==> !t.v.pc.RNotify?
    requires Terminal(t.st) ==> Terminal(s.st) || Alarmed(t.r, c.pf)
    requires CanSend(c, t) ==> CanSend(c, s) || Alarmed(t.r, c.pf)
    ensures SenderAwake(c, t)
  {
    OthersKeepAlarm(s.r, t.r, c.pf);
  }

  /** The same line but for the waiter's own position, `parked` and the event. */
  predicate WaiterMoved(l: Line, m: Line) {
    m == l.(waiter := m.waiter, parked := m.parked, event := m.event)
  }

  lemma {:induction false} SenderWaits(c: Config, s: State, t: State)
    requires t == s.(s := t.s, r := t.r) && WaiterMoved(s.r, t.r) && !t.s.pc.SNotify? && !s.s.pc.SNotify?
    requires StateWord(s) && ReceiverAwake(c, s)
    ensures Tokens(t) && ReceiverKnows(t) && ReceiverAwake(c, t)
  {
  }

  lemma {:induction false} ReceiverWaits(c: Config, s: State, t: State)
    requires t == s.(v := t.v, w := t.w) && WaiterMoved(s.w, t.w) && !t.v.pc.RNotify? && !s.v.pc.RNotify?
    requires StateWord(s) && SenderAwake(c, s)
    ensures Tokens(t) && SenderKnows(t) && SenderAwake(c, t)
  {
  }

  /** wake_all touches nothing but the two lines, and never un-owes itself. */
  lemma {:induction false} AllFrame(c: Config, s: State, a: Action)
    requires AllEnabled(c, s, a)
    ensures AllStep(c, s, a) == s.(w := AllStep(c, s, a).w, r := AllStep(c, s, a).r)
    ensures AllStep(c, s, a).w.conn.NotDue? <==> s.w.conn.NotDue?
    ensures AllStep(c, s, a).r.conn.NotDue? <==> s.r.conn.NotDue?
    ensures AllStep(c, s, a).w.term.NotDue? <==> s.w.term.NotDue?
    ensures AllStep(c, s, a).r.term.NotDue? <==> s.r.term.NotDue?
  {
  }

  lemma {:induction false} SameStateWord(s: State, t: State)
    requires StateWord(s) && t == s.(w := t.w, r := t.r)
    requires t.w.conn.NotDue? <==> s.w.conn.NotDue?
    requires t.r.conn.NotDue? <==> s.r.conn.NotDue?
    requires t.w.term.NotDue? <==> s.w.term.NotDue?
    requires t.r.term.NotDue? <==> s.r.term.NotDue?
    ensures StateWord(t)
  {
  }

  // ----- the sender -----

  lemma {:induction false} TryKeepsSender(c: Config, s: State, a: Action)
    requires Basics(c, s) && StateWord(s) && SenderAwake(c, s) && TryEnabled(c, s, a)
    ensures SenderKnows(TryStep(c, s, a)) && SenderAwake(c, TryStep(c, s, a)) && !TryStep(c, s, a).s.pc.SNotify?
  {
  }

  lemma {:induction false} TryKeepsRest(c: Config, s: State, a: Action)
    requires Basics(c, s) && Rest(c, s) && TryEnabled(c, s, a)
    ensures Rest(c, TryStep(c, s, a))
  {
    TryFrame(c, s, a);
    TryKeepsSender(c, s, a);
    SenderOnly(c, s, TryStep(c, s, a));
  }

  lemma {:induction false} EmitKeepsStateWord(c: Config, s: State, a: Action)
    requires Basics(c, s) && StateWord(s) && EmitEnabled(c, s, a)
    ensures StateWord(EmitStep(c, s, a))
  {
  }

  /** What publishing does to the two lines. */
  lemma {:induction false} EmitLines(c: Config, s: State, a: Action)
    requires |s.mem| == c.n > 0 && EmitEnabled(c, s, a)
    requires s.w.waker.Quiet? <==> !s.s.pc.SNotify?
    ensures var t := EmitStep(c, s, a);
            && t.v == s.v && t.r == s.r && t.rc == s.rc && t.st == s.st
            && ByOthers(s.w, t.w, c.pf) && (t.w.waker.Quiet? <==> !t.s.pc.SNotify?)
            && (t.wc == s.wc || t.w == Store(s.w))
            && (s.s.pc.SWrite? || s.s.pc.SNotify?) && (t.s.waiting ==> s.s.waiting)
            && (t.s.pc.SWrite? || t.s.pc.SNotify? || t.s.pc.SIdle?)
  {
  }

  lemma {:induction false} EmitKeepsReceiver(c: Config, s: State, a: Action)
    requires |s.mem| == c.n > 0 && ReceiverAwake(c, s) && SenderAwake(c, s) && EmitEnabled(c, s, a)
    ensures ReceiverAwake(c, EmitStep(c, s, a))
  {
    EmitLines(c, s, a);
    ChangeAlarms(s.w, c.pf, OnConnect);
    OthersKeepReceiver(c, s, EmitStep(c, s, a));
  }

  lemma {:induction false} EmitKeepsSender(c: Config, s: State, a: Action)
    requires |s.mem| == c.n > 0 && ReceiverAwake(c, s) && SenderAwake(c, s) && EmitEnabled(c, s, a)
    ensures SenderAwake(c, EmitStep(c, s, a))
  {
    EmitLines(c, s, a);
  }

  lemma {:induction false} EmitKeepsCounts(c: Config, s: State, a: Action)
    requires Basics(c, s) && ReceiverAwake(c, s) && SenderAwake(c, s) && Counts(c, s) && EmitEnabled(c, s, a)
    ensures Counts(c, EmitStep(c, s, a))
  {
  }

  /** The futex comparison cannot be fooled by wrap-around: see SleepTestExact. */
  lemma {:induction false} SnapshotFresh(c: Config, s: State)
    requires Basics(c, s) && Counts(c, s)
    ensures HasSnap(s.w) ==> s.w.count <= s.w.waiter.snap + c.n / 8 + 3
    ensures HasSnap(s.r) ==> s.r.count <= s.r.waiter.snap + c.n / 8 + 3
  {
  }

  /** The steps of a blocked sender on its way to sleep. */
  predicate GoesToSleep(a: Action) {
    a.SWaitStart? || a.SSpin? || a.SSnapshot? || a.SDeadline? || a.SPark? || a.SGoSleep?
  }

  lemma {:induction false} SleepyKeepsSender(c: Config, s: State, a: Action)
    requires Basics(c, s) && StateWord(s) && SenderAwake(c, s) && BlockEnabled(c, s, a) && GoesToSleep(a)
    ensures SenderKnows(BlockStep(c, s, a)) && SenderAwake(c, BlockStep(c, s, a))
    ensures WaiterMoved(s.r, BlockStep(c, s, a).r) && !BlockStep(c, s, a).s.pc.SNotify?
  {
  }

  lemma {:induction false} AwakeKeepsSender(c: Config, s: State, a: Action)
    requires Basics(c, s) && StateWord(s) && SenderAwake(c, s) && BlockEnabled(c, s, a)
    requires !GoesToSleep(a) && !a.SCompareSleep?
    ensures SenderKnows(BlockStep(c, s, a)) && SenderAwake(c, BlockStep(c, s, a))
    ensures WaiterMoved(s.r, BlockStep(c, s, a).r) && !BlockStep(c, s, a).s.pc.SNotify?
  {
  }

  lemma {:induction false} SleepKeepsSender(c: Config, s: State, a: Action)
    requires Basics(c, s) && StateWord(s) && SenderAwake(c, s) && Counts(c, s)
    requires BlockEnabled(c, s, a) && a.SCompareSleep?
    ensures SenderKnows(BlockStep(c, s, a)) && SenderAwake(c, BlockStep(c, s, a))
    ensures WaiterMoved(s.r, BlockStep(c, s, a).r) && !BlockStep(c, s, a).s.pc.SNotify?
  {
    SnapshotFresh(c, s);
    if CanSend(c, s) { HotSleep(s.r, c.pf); }
  }

  /** A waiter's own steps bump nothing; its snapshot is the count at the time it is taken. */
  predicate SameCounts(l: Line, m: Line) {
    && m.count == l.count && m.waker == l.waker && m.conn == l.conn && m.term == l.term
    && (HasSnap(m) ==> m.waiter.snap == l.count || (HasSnap(l) && m.waiter.snap == l.waiter.snap))
  }

  lemma {:induction false} BlockCounts(c: Config, s: State, a: Action)
    requires |s.mem| == c.n > 0 && BlockEnabled(c, s, a)
    ensures SameCounts(s.r, BlockStep(c, s, a).r)
  {
  }

  lemma {:induction false} BlockKeepsCounts(c: Config, s: State, a: Action)
    requires Basics(c, s) && Counts(c, s) && BlockEnabled(c, s, a)
    ensures Counts(c, BlockStep(c, s, a))
  {
    BlockFrame(c, s, a);
    BlockCounts(c, s, a);
  }

  lemma {:induction false} BlockKeepsRest(c: Config, s: State, a: Action)
    requires Basics(c, s) && Rest(c, s) && BlockEnabled(c, s, a)
    ensures Rest(c, BlockStep(c, s, a))
  {
    BlockFrame(c, s, a);
    if a.SCompareSleep? {
      SleepKeepsSender(c, s, a);
    } else if GoesToSleep(a) {
      SleepyKeepsSender(c, s, a);
    } else {
      AwakeKeepsSender(c, s, a);
    }
    SenderWaits(c, s, BlockStep(c, s, a));
    BlockKeepsCounts(c, s, a);
  }

  // ----- the receiver -----

  lemma {:induction false} PeekKeepsReceiver(c: Config, s: State, a: Action)
    requires Basics(c, s) && StateWord(s) && ReceiverAwake(c, s) && PeekEnabled(c, s, a)
    requires a.RParse? ==> PeekStep(c, s, a).v.pc.RGot?
    ensures ReceiverKnows(PeekStep(c, s, a)) && ReceiverAwake(c, PeekStep(c, s, a)) && !PeekStep(c, s, a).v.pc.RNotify?
  {
  }

  lemma {:induction false} PeekKeepsRest(c: Config, s: State, a: Action)
    requires Basics(c, s) && Rest(c, s) && PeekEnabled(c, s, a)
    requires a.RParse? ==> PeekStep(c, s, a).v.pc.RGot?
    ensures Rest(c, PeekStep(c, s, a))
  {
    PeekFrame(c, s, a);
    PeekKeepsReceiver(c, s, a);
    ReceiverOnly(c, s, PeekStep(c, s, a));
  }

  lemma {:induction false} ParkKeepsReceiver(c: Config, s: State, a: Action)
    requires Basics(c, s) && StateWord(s) && ReceiverAwake(c, s) && ParkEnabled(c, s, a) && !a.RCompareSleep?
    ensures ReceiverKnows(ParkStep(c, s, a)) && ReceiverAwake(c, ParkStep(c, s, a))
    ensures WaiterMoved(s.w, ParkStep(c, s, a).w) && !ParkStep(c, s, a).v.pc.RNotify?
  {
  }

  lemma {:induction false} SleepKeepsReceiver(c: Config, s: State, a: Action)
    requires Basics(c, s) && StateWord(s) && ReceiverAwake(c, s) && Counts(c, s)
    requires ParkEnabled(c, s, a) && a.RCompareSleep?
    ensures ReceiverKnows(ParkStep(c, s, a)) && ReceiverAwake(c, ParkStep(c, s, a))
    ensures WaiterMoved(s.w, ParkStep(c, s, a).w) && !ParkStep(c, s, a).v.pc.RNotify?
  {
    SnapshotFresh(c, s);
    if CanReceive(s) { HotSleep(s.w, c.pf); }
  }

  lemma {:induction false} ParkKeepsCounts(c: Config, s: State, a: Action)
    requires Basics(c, s) && Counts(c, s) && ParkEnabled(c, s, a)
    ensures Counts(c, ParkStep(c, s, a))
  {
  }

  lemma {:induction false} ParkKeepsRest(c: Config, s: State, a: Action)
    requires Basics(c, s) && Rest(c, s) && ParkEnabled(c, s, a)
    ensures Rest(c, ParkStep(c, s, a))
  {
    ParkFrame(c, s, a);
    if a.RCompareSleep? { SleepKeepsReceiver(c, s, a); } else { ParkKeepsReceiver(c, s, a); }
    ReceiverWaits(c, s, ParkStep(c, s, a));
    ParkKeepsCounts(c, s, a);
  }

  lemma {:induction false} TakeKeepsStateWord(c: Config, s: State, a: Action)
    requires Basics(c, s) && StateWord(s) && TakeEnabled(c, s, a)
    ensures StateWord(TakeStep(c, s, a))
  {
  }

  /** What taking does to the two lines. */
  lemma {:induction false} TakeLines(c: Config, s: State, a: Action)
    requires Basics(c, s) && ReceiverAwake(c, s) && TakeEnabled(c, s, a)
    requires s.r.waker.Quiet? <==> !s.v.pc.RNotify?
    ensures var t := TakeStep(c, s, a);
            && t.s == s.s && t.w == (if a.RBegin? then Leave(s.w) else s.w) && t.wc == s.wc && t.st == s.st
            && ByOthers(s.r, t.r, c.pf) && (t.r.waker.Quiet? <==> !t.v.pc.RNotify?)
            && (t.rc == s.rc || t.r == Store(s.r)) && t.w.waiter.Away?
            && (t.v.pc.RCopy? || t.v.pc.RCommit? || t.v.pc.RNotify? || t.v.pc.RIdle?)
  {
  }

  lemma {:induction false} TakeKeepsSender(c: Config, s: State, a: Action)
    requires Basics(c, s) && ReceiverAwake(c, s) && SenderAwake(c, s) && TakeEnabled(c, s, a)
    ensures SenderAwake(c, TakeStep(c, s, a))
  {
    TakeLines(c, s, a);
    ChangeAlarms(s.r, c.pf, OnConnect);
    OthersKeepSender(c, s, TakeStep(c, s, a));
  }

  lemma {:induction false} TakeKeepsReceiver(c: Config, s: State, a: Action)
    requires Basics(c, s) && ReceiverAwake(c, s) && SenderAwake(c, s) && TakeEnabled(c, s, a)
    ensures ReceiverAwake(c, TakeStep(c, s, a))
  {
    TakeLines(c, s, a);
  }

  lemma {:induction false} TakeKeepsCounts(c: Config, s: State, a: Action)
    requires Basics(c, s) && ReceiverAwake(c, s) && SenderAwake(c, s) && Counts(c, s) && TakeEnabled(c, s, a)
    ensures Counts(c, TakeStep(c, s, a))
  {
  }

  // ----- everyone else -----

  lemma {:induction false} MoveKeepsStateWord(c: Config, s: State, a: Action)
    requires Basics(c, s) && StateWord(s) && MoveEnabled(c, s, a)
    ensures StateWord(MoveStep(c, s, a))
  {
  }

  /** What a move of the state word does to the two lines. */
  lemma {:induction false} MoveLines(c: Config, s: State, a: Action)
    requires StateWord(s) && MoveEnabled(c, s, a)
    ensures var t := MoveStep(c, s, a);
            && t.rc == s.rc && t.wc == s.wc && t.s == s.s.(pc := t.s.pc)
            && (t.v.pc == s.v.pc || (s.v.pc.RRetire? && (t.v.pc.RErr? || t.v.pc.RCheck?)))
            && (t.s.pc == s.s.pc || (s.s.pc.SRetire? && (t.s.pc.SErr? || t.s.pc.SCheck?)))
            && t.w.waker == s.w.waker && t.r.waker == s.r.waker
            && ByOthers(s.w, t.w, c.pf) && ByOthers(s.r, t.r, c.pf)
            && (t.st == s.st || Unready(t.st)
                || exists k :: t.w == SetAll(s.w, k, DueBump) && t.r == SetAll(s.r, k, DueBump))
  {
    var t := MoveStep(c, s, a);
    var k := if t.st == Connected then OnConnect else OnTerminal;
    assert t.st == s.st || Unready(t.st) || (t.w == SetAll(s.w, k, DueBump) && t.r == SetAll(s.r, k, DueBump));
  }

  lemma {:induction false} MoveAlarms(c: Config, s: State, a: Action)
    requires StateWord(s) && MoveEnabled(c, s, a) && MoveStep(c, s, a).st != s.st
    ensures var t := MoveStep(c, s, a);
            Unready(t.st) || (Alarmed(t.w, c.pf) && Alarmed(t.r, c.pf))
  {
    MoveLines(c, s, a);
    var t := MoveStep(c, s, a);
    if !Unready(t.st) {
      var k :| t.w == SetAll(s.w, k, DueBump) && t.r == SetAll(s.r, k, DueBump);
      ChangeAlarms(s.w, c.pf, k);
      ChangeAlarms(s.r, c.pf, k);
    }
  }

  lemma {:induction false} MoveKeepsReceiverAwake(c: Config, s: State, a: Action)
    requires StateWord(s) && ReceiverAwake(c, s) && MoveEnabled(c, s, a)
    ensures ReceiverAwake(c, MoveStep(c, s, a))
  {
    MoveLines(c, s, a);
    if MoveStep(c, s, a).st != s.st { MoveAlarms(c, s, a); }
    OthersKeepReceiver(c, s, MoveStep(c, s, a));
  }

  lemma {:induction false} MoveKeepsSenderAwake(c: Config, s: State, a: Action)
    requires StateWord(s) && SenderAwake(c, s) && MoveEnabled(c, s, a)
    ensures SenderAwake(c, MoveStep(c, s, a))
  {
    MoveLines(c, s, a);
    if MoveStep(c, s, a).st != s.st { MoveAlarms(c, s, a); }
    OthersKeepSender(c, s, MoveStep(c, s, a));
  }

  lemma {:induction false} MoveKeepsCounts(c: Config, s: State, a: Action)
    requires Basics(c, s) && StateWord(s) && Counts(c, s) && MoveEnabled(c, s, a)
    ensures Counts(c, MoveStep(c, s, a))
  {
  }

  lemma {:induction false} AllLines(c: Config, s: State, a: Action)
    requires AllEnabled(c, s, a)
    ensures ByOthers(s.w, AllStep(c, s, a).w, c.pf) && ByOthers(s.r, AllStep(c, s, a).r, c.pf)
    ensures AllStep(c, s, a).w.waker == s.w.waker && AllStep(c, s, a).r.waker == s.r.waker
  {
  }

  lemma {:induction false} AllKeepsAwake(c: Config, s: State, a: Action)
    requires ReceiverAwake(c, s) && SenderAwake(c, s) && AllEnabled(c, s, a)
    ensures ReceiverAwake(c, AllStep(c, s, a)) && SenderAwake(c, AllStep(c, s, a))
  {
    AllFrame(c, s, a);
    AllLines(c, s, a);
    OthersKeepReceiver(c, s, AllStep(c, s, a));
    OthersKeepSender(c, s, AllStep(c, s, a));
  }

  lemma {:induction false} AllKeepsCounted(l: Line, k: AllKind, pf: Platform, stores: nat)
    requires Counted(l, stores)
    ensures AllAt(l, k).DueBump? ==> Counted(AllBump(l, k), stores)
    ensures AllAt(l, k).DueWake? ==> Counted(AllWake(l, k, pf), stores)
  {
  }

  lemma {:induction false} AllKeepsCounts(c: Config, s: State, a: Action)
    requires Counts(c, s) && AllEnabled(c, s, a)
    ensures Counts(c, AllStep(c, s, a))
  {
    match a
    case EBump(_, k) =>
      AllKeepsCounted(s.w, k, c.pf, |s.published|);
      AllKeepsCounted(s.r, k, c.pf, |s.consumed|);
    case EWake(_, k) =>
      AllKeepsCounted(s.w, k, c.pf, |s.published|);
      AllKeepsCounted(s.r, k, c.pf, |s.consumed|);
  }

  // ----- the induction -----

  lemma {:induction false} SenderInv(c: Config, s: State, a: Action)
    requires Inv(c, s) && SenderEnabled(c, s, a)
    ensures Inv(c, SenderStep(c, s, a))
  {
    BasicsHold(c, s);
    if TryEnabled(c, s, a) {
      TryKeepsData(c, s, a);
      TryKeepsRest(c, s, a);
    } else if EmitEnabled(c, s, a) {
      EmitKeepsData(c, s, a);
      EmitKeepsStateWord(c, s, a);
      EmitKeepsReceiver(c, s, a);
      EmitKeepsSender(c, s, a);
      EmitKeepsCounts(c, s, a);
    } else {
      BlockKeepsData(c, s, a);
      BlockKeepsRest(c, s, a);
    }
  }

  lemma {:induction false} ReceiverInv(c: Config, s: State, a: Action)
    requires Inv(c, s) && ReceiverEnabled(c, s, a)
    ensures Inv(c, ReceiverStep(c, s, a))
  {
    BasicsHold(c, s);
    if PeekEnabled(c, s, a) {
      if a.RParse? { ParseGets(c, s); }
      PeekKeepsData(c, s, a);
      PeekKeepsRest(c, s, a);
    } else if ParkEnabled(c, s, a) {
      ParkKeepsData(c, s, a);
      ParkKeepsRest(c, s, a);
    } else {
      TakeKeepsData(c, s, a);
      TakeKeepsStateWord(c, s, a);
      TakeKeepsSender(c, s, a);
      TakeKeepsReceiver(c, s, a);
      TakeKeepsCounts(c, s, a);
    }
  }

  lemma {:induction false} MoveInv(c: Config, s: State, a: Action)
    requires Inv(c, s) && MoveEnabled(c, s, a)
    ensures Inv(c, MoveStep(c, s, a))
  {
    BasicsHold(c, s);
    MoveKeepsData(c, s, a);
    MoveKeepsStateWord(c, s, a);
    MoveKeepsReceiverAwake(c, s, a);
    MoveKeepsSenderAwake(c, s, a);
    MoveKeepsCounts(c, s, a);
  }

  lemma {:induction false} AllInv(c: Config, s: State, a: Action)
    requires Inv(c, s) && AllEnabled(c, s, a)
    ensures Inv(c, AllStep(c, s, a))
  {
    AllKeepsData(c, s, a);
    AllFrame(c, s, a);
    SameStateWord(s, AllStep(c, s, a));
    AllKeepsAwake(c, s, a);
    AllKeepsCounts(c, s, a);
  }

  /** The invariant is kept by every step of every party. */
  lemma {:induction false} StepInv(c: Config, s: State, a: Action)
    requires Inv(c, s) && Enabled(c, s, a)
    ensures Inv(c, Step(c, s, a))
  {
    if SenderEnabled(c, s, a) {
      SenderInv(c, s, a);
    } else if ReceiverEnabled(c, s, a) {
      ReceiverInv(c, s, a);
    } else if MoveEnabled(c, s, a) {
      MoveInv(c, s, a);
    } else {
      AllInv(c, s, a);
    }
  }

  /** The invariant holds in every state every schedule can reach. */
  lemma {:induction false} RunInv(c: Config, s: State, acts: seq<Action>)
    requires Inv(c, s) && Schedule(c, s, acts)
    ensures Inv(c, Run(c, s, acts))
    decreases |acts|
  {
    if acts != [] {
      StepInv(c, s, acts[0]);
      RunInv(c, Step(c, s, acts[0]), acts[1..]);
    }
  }
}
