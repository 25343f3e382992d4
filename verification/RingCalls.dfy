// How a call ends, over whole runs: a receive that begins with a record there always
// returns that record, a send or a receive fails only for a reason, a plain receive
// never discards, and no party is ever stuck.
module RingCalls {
  import opened Frames
  import opened States
  import opened RingMachine
  import opened RingInvariant
  import opened RingWaits
  import opened RingTheorems
  import opened RingEndings
  import opened RingAttempts

  // ----- a receive that finds a record -----

  /** No further call by the receiver. */
  predicate NoNewReceive(acts: seq<Action>) { forall i | 0 <= i < |acts| :: !acts[i].RCall? }

  predicate SameReceive(x: Receiver, y: Receiver) { y.base == x.base && y.cap == x.cap }

  lemma {:induction false} SenderLeavesReceiver(c: Config, s: State, a: Action)
    requires |s.mem| == c.n > 0 && SenderEnabled(c, s, a)
    ensures SenderStep(c, s, a).v == s.v
  {
    if TryEnabled(c, s, a) { TryFrame(c, s, a); } else if BlockEnabled(c, s, a) { BlockFrame(c, s, a); }
  }

  /** Between two of the receiver's own steps nobody touches its private half. */
  lemma {:induction false} OthersLeaveReceiver(c: Config, s: State, a: Action)
    requires Enabled(c, s, a) && !ReceiverEnabled(c, s, a) && !s.v.pc.RRetire?
    ensures Step(c, s, a).v == s.v
  {
    if SenderEnabled(c, s, a) { SenderLeavesReceiver(c, s, a); }
  }

  lemma {:induction false} ReceiverIsStep(c: Config, s: State, a: Action)
    requires Enabled(c, s, a) && ReceiverEnabled(c, s, a)
    ensures !SenderEnabled(c, s, a) && Step(c, s, a) == ReceiverStep(c, s, a)
  {
  }

  /** This receive can end only in a record. */
  predicate Finding(s: State) {
    match s.v.pc
    case RPeek(_) => |s.consumed| < |s.published|
    case RHeader(_, _, _) => |s.consumed| < |s.published|
    case RGot(_, _) => true
    case RCopy(_, _, _) => true
    case RCommit(_, _, _) => true
    case RNotify(_) => true
    case RIdle => s.v.result.Got?
    case _ => false
  }

  /** The receiver's own steps still ahead of it. */
  function ReceiveLeft(s: State): int {
    match s.v.pc
    case RPeek(_) => if |s.consumed| < |s.published| then |s.published[|s.consumed|]| + 16 else 0
    case RHeader(_, _, h) => if |s.consumed| < |s.published| then |s.published[|s.consumed|]| + 15 - |h| else 0
    case RGot(len, _) => len + 6
    case RCopy(len, _, buf) => len - |buf| + 5
    case RCommit(_, _, _) => 4
    case RNotify(_) => if s.r.waker.Stored? then 3 else if s.r.waker.Bumped? then 2 else 1
    case _ => 0
  }

  lemma {:induction false} FindingPeeks(c: Config, s: State, a: Action)
    requires Data(c, s) && Finding(s) && PeekEnabled(c, s, a) && !a.RCall?
    ensures var t := PeekStep(c, s, a);
            Finding(t) && SameReceive(s.v, t.v) && ReceiveLeft(t) < ReceiveLeft(s)
  {
    BasicsHold(c, s);
    PeekFrame(c, s, a);
    if a.RParse? { ParseGets(c, s); }
  }

  lemma {:induction false} FindingTakes(c: Config, s: State, a: Action)
    requires Basics(c, s) && Finding(s) && TakeEnabled(c, s, a)
    requires s.v.pc.RCopy? ==> |s.v.pc.buf| <= s.v.pc.len
    ensures var t := TakeStep(c, s, a);
            Finding(t) && SameReceive(s.v, t.v) && ReceiveLeft(t) < ReceiveLeft(s)
  {
  }

  lemma {:induction false} CopiesWithinLength(c: Config, s: State)
    requires Data(c, s)
    ensures s.v.pc.RCopy? ==> |s.v.pc.buf| <= s.v.pc.len
  {
  }

  lemma {:induction false} FindingOwn(c: Config, s: State, a: Action)
    requires Inv(c, s) && Finding(s) && ReceiverEnabled(c, s, a) && !a.RCall?
    ensures var t := ReceiverStep(c, s, a);
            Finding(t) && SameReceive(s.v, t.v) && ReceiveLeft(t) < ReceiveLeft(s)
  {
    BasicsHold(c, s);
    if PeekEnabled(c, s, a) {
      FindingPeeks(c, s, a);
    } else {
      CopiesWithinLength(c, s);
      FindingTakes(c, s, a);
    }
  }

  /** A pending record stays pending while others move. */
  lemma {:induction false} FindingStays(s: State, t: State)
    requires Finding(s) && t.v == s.v && t.consumed == s.consumed && Grows(s, t) && t.r.waker == s.r.waker
    ensures Finding(t) && ReceiveLeft(t) == ReceiveLeft(s)
  {
    if |s.consumed| < |s.published| {
      assert t.published[|s.consumed|] == t.published[..|s.published|][|s.consumed|];
    }
  }

  lemma {:induction false} OthersTakeNothing(c: Config, s: State, a: Action)
    requires Enabled(c, s, a) && !ReceiverEnabled(c, s, a)
    ensures !EventOf(c, s, a).Dequeue? && !EventOf(c, s, a).Drop?
  {
  }

  lemma {:induction false} BlockLeavesReaderWaker(c: Config, s: State, a: Action)
    requires |s.mem| == c.n > 0 && BlockEnabled(c, s, a)
    ensures BlockStep(c, s, a).r.waker == s.r.waker
  {
    BlockCounts(c, s, a);
  }

  lemma {:induction false} EmitLeavesReader(c: Config, s: State, a: Action)
    requires |s.mem| == c.n > 0 && EmitEnabled(c, s, a)
    ensures EmitStep(c, s, a).r == s.r
  {
  }

  lemma {:induction false} SenderLeavesReaderWaker(c: Config, s: State, a: Action)
    requires |s.mem| == c.n > 0 && SenderEnabled(c, s, a)
    ensures SenderStep(c, s, a).r.waker == s.r.waker
  {
    if TryEnabled(c, s, a) {
      TryFrame(c, s, a);
    } else if EmitEnabled(c, s, a) {
      EmitLeavesReader(c, s, a);
    } else {
      BlockLeavesReaderWaker(c, s, a);
    }
  }

  lemma {:induction false} WorldLeavesReaderWaker(c: Config, s: State, a: Action)
    requires MoveEnabled(c, s, a) || AllEnabled(c, s, a)
    ensures (if MoveEnabled(c, s, a) then MoveStep(c, s, a) else AllStep(c, s, a)).r.waker == s.r.waker
  {
  }

  lemma {:induction false} OthersLeaveReaderWaker(c: Config, s: State, a: Action)
    requires Enabled(c, s, a) && !ReceiverEnabled(c, s, a)
    ensures Step(c, s, a).r.waker == s.r.waker
  {
    if SenderEnabled(c, s, a) {
      SenderLeavesReaderWaker(c, s, a);
    } else {
      WorldLeavesReaderWaker(c, s, a);
    }
  }

  /** A receive that will find a record goes on so; its own steps bring it nearer the end, and
      nobody else's step sets it back. */
  lemma {:induction false} FindingStep(c: Config, s: State, a: Action)
    requires Inv(c, s) && Finding(s) && Enabled(c, s, a) && !a.RCall?
    ensures Finding(Step(c, s, a)) && SameReceive(s.v, Step(c, s, a).v)
    ensures if ReceiverEnabled(c, s, a) then ReceiveLeft(Step(c, s, a)) < ReceiveLeft(s)
            else ReceiveLeft(Step(c, s, a)) == ReceiveLeft(s)
  {
    if ReceiverEnabled(c, s, a) {
      ReceiverIsStep(c, s, a);
      FindingOwn(c, s, a);
    } else {
      OthersLeaveReceiver(c, s, a);
      OthersTakeNothing(c, s, a);
      OthersLeaveReaderWaker(c, s, a);
      HistoryStep(c, s, a);
      HistoryGrows(c, s, a, Step(c, s, a));
      FindingStays(s, Step(c, s, a));
    }
  }

  lemma {:induction false} FindingRun(c: Config, s: State, acts: seq<Action>)
    requires Inv(c, s) && Finding(s) && Schedule(c, s, acts) && NoNewReceive(acts)
    ensures Inv(c, Run(c, s, acts)) && Finding(Run(c, s, acts)) && SameReceive(s.v, Run(c, s, acts).v)
    decreases |acts|
  {
    if acts != [] {
      FindingStep(c, s, acts[0]);
      StepInv(c, s, acts[0]);
      FindingRun(c, Step(c, s, acts[0]), acts[1..]);
    }
  }

  lemma {:induction false} CallBegins(c: Config, s: State, cap: Option<nat>)
    requires Inv(c, s) && s.v.pc.RIdle?
    ensures Enabled(c, s, RCall(cap))
    ensures Step(c, s, RCall(cap))
              == s.(v := s.v.(pc := RPeek(None), cap := cap, base := |s.consumed|, result := Receiving))
  {
  }

  lemma {:induction false} GotAnswers(c: Config, s: State)
    requires Inv(c, s) && s.v.pc.RIdle? && s.v.result.Got?
    ensures s.v.base < |s.published| && Answers(s.v.cap, s.v.result.record, s.published[s.v.base])
  {
  }

  /** A record there when a receive begins is what that receive returns, on every run to its
      end, whoever closes, dies or times out meanwhile: whole if the call's buffer has the
      room (always, for a call that makes its own), discarded only if it has not. */
  lemma {:induction false} RecordMeansGot(c: Config, s: State, cap: Option<nat>, more: seq<Action>)
    requires Reachable(c, s) && s.v.pc.RIdle? && |s.consumed| < |s.published| && Enabled(c, s, RCall(cap))
    requires Schedule(c, Step(c, s, RCall(cap)), more) && NoNewReceive(more)
    requires Run(c, Step(c, s, RCall(cap)), more).v.pc.RIdle?
    ensures var p := s.published[|s.consumed|];
            Run(c, Step(c, s, RCall(cap)), more).v.result
              == Got(if Accepts(cap, |p|) then Delivered(p) else Discarded(|p|))
  {
    ReachableInv(c, s);
    CallBegins(c, s, cap);
    var u := Step(c, s, RCall(cap));
    StepInv(c, s, RCall(cap));
    FindingRun(c, u, more);
    RunLater(c, u, more);
    var t := Run(c, u, more);
    GotAnswers(c, t);
    assert t.published[|s.consumed|] == t.published[..|s.published|][|s.consumed|];
  }

  // ----- a receive on a channel that has ended -----

  /** This receive, on a channel that has ended, can end only in a record or in the cause. */
  predicate Ending(s: State) {
    && Terminal(s.st)
    && match s.v.pc
       case RPeek(_) => true
       case RHeader(_, _, _) => true
       case RCheck => true
       case RGot(_, _) => true
       case RCopy(_, _, _) => true
       case RCommit(_, _, _) => true
       case RNotify(_) => true
       case RErr(e) => e == CauseOf(s.st)
       case RIdle => s.v.result.Got? || s.v.result == RecvFailed(CauseOf(s.st))
       case _ => false
  }

  lemma {:induction false} EndingPeeks(c: Config, s: State, a: Action)
    requires Data(c, s) && ReceiverKnows(s) && Ending(s) && PeekEnabled(c, s, a) && !a.RCall?
    ensures Ending(PeekStep(c, s, a))
  {
    if a.RParse? { ParseGets(c, s); }
  }

  lemma {:induction false} EndingRest(c: Config, s: State, a: Action)
    requires Basics(c, s) && Ending(s) && (ParkEnabled(c, s, a) || TakeEnabled(c, s, a))
    ensures Ending(if ParkEnabled(c, s, a) then ParkStep(c, s, a) else TakeStep(c, s, a))
  {
  }

  lemma {:induction false} EndingOwn(c: Config, s: State, a: Action)
    requires Inv(c, s) && Ending(s) && ReceiverEnabled(c, s, a) && !a.RCall?
    ensures Ending(ReceiverStep(c, s, a))
  {
    BasicsHold(c, s);
    if PeekEnabled(c, s, a) { EndingPeeks(c, s, a); } else { EndingRest(c, s, a); }
  }

  lemma {:induction false} EndingStep(c: Config, s: State, a: Action)
    requires Inv(c, s) && Ending(s) && Enabled(c, s, a) && !a.RCall?
    ensures Ending(Step(c, s, a))
  {
    if ReceiverEnabled(c, s, a) {
      ReceiverIsStep(c, s, a);
      EndingOwn(c, s, a);
    } else {
      OthersLeaveReceiver(c, s, a);
      StepLater(c, s, a);
    }
  }

  lemma {:induction false} EndingRun(c: Config, s: State, acts: seq<Action>)
    requires Inv(c, s) && Ending(s) && Schedule(c, s, acts) && NoNewReceive(acts)
    ensures Ending(Run(c, s, acts))
    decreases |acts|
  {
    if acts != [] {
      EndingStep(c, s, acts[0]);
      StepInv(c, s, acts[0]);
      EndingRun(c, Step(c, s, acts[0]), acts[1..]);
    }
  }

  /** A receive begun on a channel that has ended returns a record or reports the cause, on
      every run to its end: it never finds nothing, waits, or times out. */
  lemma {:induction false} EndIsReported(c: Config, s: State, cap: Option<nat>, more: seq<Action>)
    requires Reachable(c, s) && s.v.pc.RIdle? && Terminal(s.st) && Enabled(c, s, RCall(cap))
    requires Schedule(c, Step(c, s, RCall(cap)), more) && NoNewReceive(more)
    requires Run(c, Step(c, s, RCall(cap)), more).v.pc.RIdle?
    ensures var t := Run(c, Step(c, s, RCall(cap)), more);
            t.v.result.Got? || t.v.result == RecvFailed(CauseOf(s.st))
  {
    ReachableInv(c, s);
    CallBegins(c, s, cap);
    var u := Step(c, s, RCall(cap));
    StepInv(c, s, RCall(cap));
    EndingRun(c, u, more);
    RunLater(c, u, more);
  }

  // ----- a plain receive never discards -----

  /** Every receive of the schedule makes its own buffer: `recv` and `try_recv`. */
  predicate PlainReceives(acts: seq<Action>) {
    forall i | 0 <= i < |acts| :: acts[i].RCall? ==> acts[i].cap.None?
  }

  predicate AllDelivered(s: State) {
    |s.consumed| <= |s.published| && forall i | 0 <= i < |s.consumed| :: s.consumed[i] == Delivered(s.published[i])
  }

  lemma {:induction false} StepKeepsCap(c: Config, s: State, a: Action)
    requires Enabled(c, s, a) && (a.RCall? ==> a.cap == s.v.cap)
    ensures Step(c, s, a).v.cap == s.v.cap
  {
    if ReceiverEnabled(c, s, a) {
      ReceiverIsStep(c, s, a);
      ReceiverKeepsCap(c, s, a);
    } else if !s.v.pc.RRetire? {
      OthersLeaveReceiver(c, s, a);
    } else if SenderEnabled(c, s, a) {
      SenderLeavesReceiver(c, s, a);
    }
  }

  lemma {:induction false} ReceiverKeepsCap(c: Config, s: State, a: Action)
    requires |s.mem| == c.n > 0 && ReceiverEnabled(c, s, a) && (a.RCall? ==> a.cap == s.v.cap)
    ensures ReceiverStep(c, s, a).v.cap == s.v.cap
  {
  }

  lemma {:induction false} CommitAnswers(c: Config, s: State)
    requires Inv(c, s) && s.v.pc.RCommit?
    ensures |s.consumed| < |s.published| && Answers(s.v.cap, s.v.pc.record, s.published[|s.consumed|])
  {
  }

  lemma {:induction false} DeliveredStep(c: Config, s: State, a: Action)
    requires Inv(c, s) && Enabled(c, s, a) && s.v.cap.None? && AllDelivered(s)
    ensures AllDelivered(Step(c, s, a))
  {
    HistoryStep(c, s, a);
    EventSource(c, s, a);
    if s.v.pc.RCommit? { CommitAnswers(c, s); }
  }

  lemma {:induction false} DeliveredRun(c: Config, s: State, acts: seq<Action>)
    requires Inv(c, s) && Schedule(c, s, acts) && s.v.cap.None? && AllDelivered(s) && PlainReceives(acts)
    ensures AllDelivered(Run(c, s, acts))
    decreases |acts|
  {
    if acts != [] {
      StepKeepsCap(c, s, acts[0]);
      DeliveredStep(c, s, acts[0]);
      StepInv(c, s, acts[0]);
      DeliveredRun(c, Step(c, s, acts[0]), acts[1..]);
    }
  }

  /** With plain receives only, every record ever taken was delivered whole: what came out is
      exactly a prefix of what went in. */
  lemma {:induction false} NeverDiscards(c: Config, acts: seq<Action>)
    requires c.Legal() && Schedule(c, RingMachine.Init(c), acts) && PlainReceives(acts)
    ensures AllDelivered(Run(c, RingMachine.Init(c), acts))
  {
    InitInv(c);
    DeliveredRun(c, RingMachine.Init(c), acts);
  }

  // ----- why a receive fails -----

  /** `a` is among the steps of `acts`. */
  predicate Has(acts: seq<Action>, a: Action)
    decreases |acts|
  {
    acts != [] && (acts[0] == a || Has(acts[1..], a))
  }

  /** The errors a receive may carry, given whether its deadline passed and whether it retired
      the channel itself. */
  predicate MayFail(e: Error, deadline: bool, retired: bool) {
    && e != MessageTooLarge && e != SequenceMismatch && e != InvalidHeader
    && (e == TimedOut ==> deadline) && (e == Retired ==> retired)
  }

  predicate ReceiveClean(v: Receiver, deadline: bool, retired: bool) {
    && (v.pc.RErr? ==> MayFail(v.pc.error, deadline, retired))
    && (v.result.RecvFailed? ==> MayFail(v.result.error, deadline, retired))
  }

  lemma {:induction false} CleanPeeks(c: Config, s: State, a: Action, d: bool, r: bool)
    requires Data(c, s) && s.st != ChannelState.Init && PeekEnabled(c, s, a) && ReceiveClean(s.v, d, r)
    ensures ReceiveClean(PeekStep(c, s, a).v, d, r)
  {
    BasicsHold(c, s);
    if a.RParse? { ParseGets(c, s); }
  }

  lemma {:induction false} CleanRest(c: Config, s: State, a: Action, d: bool, r: bool)
    requires Basics(c, s) && ReceiveClean(s.v, d, r) && (ParkEnabled(c, s, a) || TakeEnabled(c, s, a))
    ensures var t := if ParkEnabled(c, s, a) then ParkStep(c, s, a) else TakeStep(c, s, a);
            ReceiveClean(t.v, d || a.RDeadline?, r)
  {
  }

  lemma {:induction false} CleanWorld(c: Config, s: State, a: Action, d: bool, r: bool)
    requires ReceiveClean(s.v, d, r) && (MoveEnabled(c, s, a) || AllEnabled(c, s, a))
    ensures var t := if MoveEnabled(c, s, a) then MoveStep(c, s, a) else AllStep(c, s, a);
            ReceiveClean(t.v, d, r || a == RRetireCas)
  {
  }

  lemma {:induction false} CleanReceiver(c: Config, s: State, a: Action, d: bool, r: bool)
    requires Inv(c, s) && ReceiverEnabled(c, s, a) && ReceiveClean(s.v, d, r)
    ensures ReceiveClean(ReceiverStep(c, s, a).v, d || a == RDeadline, r)
  {
    BasicsHold(c, s);
    if PeekEnabled(c, s, a) { CleanPeeks(c, s, a, d, r); } else { CleanRest(c, s, a, d, r); }
  }

  lemma {:induction false} CleanReceiveStep(c: Config, s: State, a: Action, d: bool, r: bool)
    requires Inv(c, s) && Enabled(c, s, a) && ReceiveClean(s.v, d, r)
    ensures ReceiveClean(Step(c, s, a).v, d || a == RDeadline, r || a == RRetireCas)
  {
    if ReceiverEnabled(c, s, a) {
      ReceiverIsStep(c, s, a);
      CleanReceiver(c, s, a, d, r);
    } else if SenderEnabled(c, s, a) {
      SenderIsStep(c, s, a);
      SenderLeavesReceiver(c, s, a);
    } else {
      CleanWorld(c, s, a, d, r);
    }
  }

  lemma {:induction false} CleanReceiveRun(c: Config, s: State, acts: seq<Action>, d: bool, r: bool)
    requires Inv(c, s) && Schedule(c, s, acts) && ReceiveClean(s.v, d, r)
    ensures ReceiveClean(Run(c, s, acts).v, d || Has(acts, RDeadline), r || Has(acts, RRetireCas))
    decreases |acts|
  {
    if acts != [] {
      CleanReceiveStep(c, s, acts[0], d, r);
      StepInv(c, s, acts[0]);
      CleanReceiveRun(c, Step(c, s, acts[0]), acts[1..], d || acts[0] == RDeadline, r || acts[0] == RRetireCas);
    }
  }

  /** A receive fails only for a reason: TimedOut only if its deadline passed in this call,
      the retirement's TimedOut only if its own compare-exchange ran in this call, and
      otherwise the latched cause of a channel gone terminal. */
  lemma {:induction false} ReceiveFailsForAReason(c: Config, s: State, cap: Option<nat>, more: seq<Action>)
    requires Reachable(c, s) && s.v.pc.RIdle? && Enabled(c, s, RCall(cap))
    requires Schedule(c, Step(c, s, RCall(cap)), more)
    ensures var t := Run(c, Step(c, s, RCall(cap)), more);
            t.v.result.RecvFailed? ==>
              && (t.v.result.error == TimedOut ==> Has(more, RDeadline))
              && (t.v.result.error == Retired ==> Has(more, RRetireCas) && t.st == Closed)
              && (t.v.result.error == TimedOut || t.v.result.error == Retired
                  || (Terminal(t.st) && t.v.result.error == CauseOf(t.st)))
  {
    ReachableInv(c, s);
    CallBegins(c, s, cap);
    var u := Step(c, s, RCall(cap));
    StepInv(c, s, RCall(cap));
    CleanReceiveRun(c, u, more, false, false);
    RunInv(c, u, more);
    FailureHolds(c, Run(c, u, more));
  }

  lemma {:induction false} FailureHolds(c: Config, t: State)
    requires Inv(c, t)
    ensures t.v.result.RecvFailed? ==> Holds(t, t.v.result.error)
    ensures t.s.result.SendFailed? ==> Holds(t, t.s.result.error)
  {
  }

  // ----- why a send fails -----

  /** As MayFail, for a send of an oversized payload or not. */
  predicate SendClean(x: Sender, big: bool, deadline: bool, retired: bool) {
    && (x.pc.SErr? ==> MayFail(x.pc.error, deadline, retired))
    && (x.result.SendFailed? ==>
          if big then x.pc.SIdle? && x.result.error == MessageTooLarge
          else MayFail(x.result.error, deadline, retired))
  }

  lemma {:induction false} CleanTry(c: Config, s: State, a: Action, d: bool, r: bool)
    requires |s.mem| == c.n > 0 && s.st != ChannelState.Init && TryEnabled(c, s, a) && !a.SCall?
    requires SendClean(s.s, false, d, r)
    ensures SendClean(TryStep(c, s, a).s, false, d, r)
  {
  }

  lemma {:induction false} CleanEmit(c: Config, s: State, a: Action, d: bool, r: bool)
    requires |s.mem| == c.n > 0 && EmitEnabled(c, s, a) && SendClean(s.s, false, d, r)
    ensures SendClean(EmitStep(c, s, a).s, false, d, r)
  {
  }

  lemma {:induction false} CleanBlock(c: Config, s: State, a: Action, d: bool, r: bool)
    requires |s.mem| == c.n > 0 && BlockEnabled(c, s, a) && SendClean(s.s, false, d, r)
    ensures SendClean(BlockStep(c, s, a).s, false, d || a == SDeadline, r)
  {
  }

  lemma {:induction false} CleanSender(c: Config, s: State, a: Action, d: bool, r: bool)
    requires |s.mem| == c.n > 0 && s.st != ChannelState.Init && SenderEnabled(c, s, a) && !a.SCall?
    requires SendClean(s.s, false, d, r)
    ensures SendClean(SenderStep(c, s, a).s, false, d || a == SDeadline, r)
  {
    if TryEnabled(c, s, a) {
      CleanTry(c, s, a, d, r);
    } else if EmitEnabled(c, s, a) {
      CleanEmit(c, s, a, d, r);
    } else {
      CleanBlock(c, s, a, d, r);
    }
  }

  lemma {:induction false} SenderIsStep(c: Config, s: State, a: Action)
    requires Enabled(c, s, a) && SenderEnabled(c, s, a)
    ensures Step(c, s, a) == SenderStep(c, s, a)
  {
  }

  lemma {:induction false} CleanMove(c: Config, s: State, a: Action, d: bool, r: bool)
    requires MoveEnabled(c, s, a) && SendClean(s.s, false, d, r)
    ensures SendClean(MoveStep(c, s, a).s, false, d, r || a == SRetireCas)
  {
  }

  lemma {:induction false} CleanSendStep(c: Config, s: State, a: Action, d: bool, r: bool)
    requires Inv(c, s) && Enabled(c, s, a) && !a.SCall? && SendClean(s.s, false, d, r)
    ensures SendClean(Step(c, s, a).s, false, d || a == SDeadline, r || a == SRetireCas)
  {
    if SenderEnabled(c, s, a) {
      SenderIsStep(c, s, a);
      CleanSender(c, s, a, d, r);
    } else if !s.s.pc.SRetire? {
      OthersLeaveSender(c, s, a);
    } else if ReceiverEnabled(c, s, a) {
      ReceiverIsStep(c, s, a);
      ReceiverLeavesSenderAlone(c, s, a);
    } else if MoveEnabled(c, s, a) {
      MoveIsStep(c, s, a);
      CleanMove(c, s, a, d, r);
    }
  }

  lemma {:induction false} ReceiverLeavesSenderAlone(c: Config, s: State, a: Action)
    requires |s.mem| == c.n > 0 && ReceiverEnabled(c, s, a)
    ensures ReceiverStep(c, s, a).s == s.s
  {
    if PeekEnabled(c, s, a) { PeekFrame(c, s, a); } else if ParkEnabled(c, s, a) { ParkFrame(c, s, a); }
  }

  lemma {:induction false} CleanSendRun(c: Config, s: State, acts: seq<Action>, d: bool, r: bool)
    requires Inv(c, s) && Schedule(c, s, acts) && NoNewSend(acts) && SendClean(s.s, false, d, r)
    ensures SendClean(Run(c, s, acts).s, false, d || Has(acts, SDeadline), r || Has(acts, SRetireCas))
    decreases |acts|
  {
    if acts != [] {
      CleanSendStep(c, s, acts[0], d, r);
      StepInv(c, s, acts[0]);
      CleanSendRun(c, Step(c, s, acts[0]), acts[1..], d || acts[0] == SDeadline, r || acts[0] == SRetireCas);
    }
  }

  lemma {:induction false} SendBegins(c: Config, s: State, p: Payload)
    requires Inv(c, s) && s.s.pc.SIdle?
    ensures Enabled(c, s, SCall(p))
    ensures var u := Step(c, s, SCall(p));
            if HEADER + |p| > c.n then u.s.pc.SIdle? && u.s.result == SendFailed(MessageTooLarge)
            else u.s.pc.SCheck? && u.s.result == Running && !u.s.waiting
  {
  }

  /** A send fails only for a reason: MessageTooLarge exactly if the payload can never fit,
      TimedOut only if its deadline passed in this call, the retirement's TimedOut only if its
      own compare-exchange ran in this call, and otherwise the latched cause. */
  lemma {:induction false} SendFailsForAReason(c: Config, s: State, p: Payload, more: seq<Action>)
    requires Reachable(c, s) && s.s.pc.SIdle? && Enabled(c, s, SCall(p))
    requires Schedule(c, Step(c, s, SCall(p)), more) && NoNewSend(more)
    requires Run(c, Step(c, s, SCall(p)), more).s.pc.SIdle?
    ensures var t := Run(c, Step(c, s, SCall(p)), more);
            && (t.s.result == SendFailed(MessageTooLarge) <==> HEADER + |p| > c.n)
            && (t.s.result == SendFailed(TimedOut) ==> Has(more, SDeadline))
            && (t.s.result == SendFailed(Retired) ==> Has(more, SRetireCas) && t.st == Closed)
            && (t.s.result.SendFailed? ==>
                  || t.s.result.error == MessageTooLarge || t.s.result.error == TimedOut || t.s.result.error == Retired
                  || (Terminal(t.st) && t.s.result.error == CauseOf(t.st)))
  {
    ReachableInv(c, s);
    SendBegins(c, s, p);
    var u := Step(c, s, SCall(p));
    StepInv(c, s, SCall(p));
    RunInv(c, u, more);
    FailureHolds(c, Run(c, u, more));
    if HEADER + |p| > c.n {
      IdleRun(c, u, more);
    } else {
      CleanSendRun(c, u, more, false, false);
    }
  }

  /** A send on a channel that has ended. */
  predicate Refused(s: State) {
    && Terminal(s.st) && !s.s.waiting
    && match s.s.pc
       case SCheck => true
       case SErr(e) => e == CauseOf(s.st)
       case SIdle => s.s.result == SendFailed(CauseOf(s.st))
       case _ => false
  }

  lemma {:induction false} RefusedTry(c: Config, s: State, a: Action)
    requires |s.mem| == c.n > 0 && Refused(s) && TryEnabled(c, s, a) && !a.SCall?
    ensures Refused(TryStep(c, s, a))
  {
  }

  lemma {:induction false} RefusedBlock(c: Config, s: State, a: Action)
    requires |s.mem| == c.n > 0 && Refused(s) && BlockEnabled(c, s, a)
    ensures Refused(BlockStep(c, s, a))
  {
  }

  lemma {:induction false} RefusedSender(c: Config, s: State, a: Action)
    requires |s.mem| == c.n > 0 && Refused(s) && SenderEnabled(c, s, a) && !a.SCall?
    ensures Refused(SenderStep(c, s, a))
  {
    if TryEnabled(c, s, a) { RefusedTry(c, s, a); } else { RefusedBlock(c, s, a); }
  }

  lemma {:induction false} RefusedRun(c: Config, s: State, acts: seq<Action>)
    requires Inv(c, s) && Refused(s) && Schedule(c, s, acts) && NoNewSend(acts)
    ensures Refused(Run(c, s, acts))
    decreases |acts|
  {
    if acts != [] {
      var a := acts[0];
      StepInv(c, s, a);
      StepLater(c, s, a);
      if SenderEnabled(c, s, a) {
        SenderIsStep(c, s, a);
        RefusedSender(c, s, a);
      } else {
        OthersLeaveSender(c, s, a);
      }
      RefusedRun(c, Step(c, s, a), acts[1..]);
    }
  }

  /** A send of a payload that could fit, begun on a channel that has ended, reports the cause
      on every run to its end. */
  lemma {:induction false} SendIsRefused(c: Config, s: State, p: Payload, more: seq<Action>)
    requires Reachable(c, s) && s.s.pc.SIdle? && Terminal(s.st) && HEADER + |p| <= c.n && Enabled(c, s, SCall(p))
    requires Schedule(c, Step(c, s, SCall(p)), more) && NoNewSend(more)
    requires Run(c, Step(c, s, SCall(p)), more).s.pc.SIdle?
    ensures Run(c, Step(c, s, SCall(p)), more).s.result == SendFailed(CauseOf(s.st))
  {
    ReachableInv(c, s);
    SendBegins(c, s, p);
    StepInv(c, s, SCall(p));
    StepLater(c, s, SCall(p));
    RefusedRun(c, Step(c, s, SCall(p)), more);
    RunLater(c, Step(c, s, SCall(p)), more);
  }

  // ----- nobody is ever stuck -----

  /** A next step of the sender, whatever it is in the middle of. */
  function SenderNext(s: State): Action {
    match s.s.pc
    case SIdle => SCall([])
    case SCheck => SReady(false)
    case SRetire(_) => SRetireCas
    case STerminal => SConfirm
    case SCached => STry
    case SFresh => SRefresh
    case SWrite(done) => if done < MsgLen(s) then SCopy else SPublish
    case SNotify => if s.w.waker.Stored? then SBump else if s.w.waker.Bumped? then SLoadParked else SWake
    case SLoadRc => SReload
    case SGot(_) => SResume
    case SNone =>
      if !s.s.waiting then SFull else if s.r.waiter.Away? then SSnapshot
      else if s.r.waiter.Snapped? then SPark else SGoSleep
    case SSleep =>
      if s.r.waiter.Ready? then SCompareSleep else if s.r.waiter.Asleep? then SExpire else SUnpark
    case SErr(_) => SFail
  }

  /** ... and of the receiver. */
  function ReceiverNext(s: State): Action {
    match s.v.pc
    case RIdle => RCall(None)
    case RPeek(_) => RLoadWc
    case RHeader(_, _, h) => if |h| < 8 then RHeaderByte else RParse
    case RCheck => RReady(false)
    case RRetire(_) => RRetireCas
    case RTerminal => RConfirm
    case RNone => if s.w.waiter.Away? then RSnapshot else if s.w.waiter.Snapped? then RPark else RGoSleep
    case RSleep =>
      if s.w.waiter.Ready? then RCompareSleep else if s.w.waiter.Asleep? then RExpire else RUnpark
    case RGot(_, _) => RBegin
    case RCopy(len, _, buf) => if |buf| < len then RCopyByte else RFinish
    case RCommit(_, _, _) => RStoreCursor
    case RNotify(_) => if s.r.waker.Stored? then RBump else if s.r.waker.Bumped? then RLoadParked else RWake
    case RErr(_) => RFail
  }

  lemma {:induction false} SenderNextEnabled(c: Config, s: State)
    requires |s.mem| == c.n > 0 && Staged(c, s) && SenderAwake(c, s) && (s.w.waker.Quiet? <==> !s.s.pc.SNotify?)
    requires s.r.waiter.Ready? || s.r.waiter.Asleep? || s.r.waiter.Roused? <==> s.s.pc.SSleep?
    ensures Enabled(c, s, SenderNext(s))
  {
  }

  lemma {:induction false} ReceiverNextEnabled(c: Config, s: State)
    requires |s.mem| == c.n > 0 && ReceiverAwake(c, s) && (s.r.waker.Quiet? <==> !s.v.pc.RNotify?)
    requires s.v.pc.RHeader? ==> |s.v.pc.header| <= 8
    ensures Enabled(c, s, ReceiverNext(s))
  {
  }

  lemma {:induction false} HeaderAtMostEight(c: Config, s: State)
    requires Inv(c, s)
    ensures s.v.pc.RHeader? ==> |s.v.pc.header| <= 8
  {
  }

  /** In every reachable state both parties have an enabled step of their own; only a sleeper's
      is left to a wake or the quantum. */
  lemma {:induction false} NobodyIsStuck(c: Config, s: State)
    requires Reachable(c, s)
    ensures Enabled(c, s, SenderNext(s)) && Enabled(c, s, ReceiverNext(s))
  {
    ReachableInv(c, s);
    HeaderAtMostEight(c, s);
    SenderNextEnabled(c, s);
    ReceiverNextEnabled(c, s);
  }
}
