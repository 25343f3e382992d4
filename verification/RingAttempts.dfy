// How a send attempt ends, over whole runs: Sent exactly when there is room at the
// fresh load of the read cursor, and after a wait that succeeded always Sent unless
// the channel has become terminal.
module RingAttempts {
  import opened States
  import opened RingMachine
  import opened RingInvariant
  import opened RingWaits
  import opened RingTheorems
  import opened RingEndings

  /** No further call by the sender. */
  predicate NoNewSend(acts: seq<Action>) { forall i | 0 <= i < |acts| :: !acts[i].SCall? }

  /** ... and no waiting either: the non-blocking `try_send`. */
  predicate NoWait(acts: seq<Action>) { forall i | 0 <= i < |acts| :: !acts[i].SWaitStart? }

  /** Between two of the sender's own steps nobody touches its private half. */
  lemma {:induction false} OthersLeaveSender(c: Config, s: State, a: Action)
    requires Enabled(c, s, a) && !SenderEnabled(c, s, a) && !s.s.pc.SRetire?
    ensures Step(c, s, a).s == s.s
  {
    if ReceiverEnabled(c, s, a) {
      if PeekEnabled(c, s, a) { PeekFrame(c, s, a); } else if ParkEnabled(c, s, a) { ParkFrame(c, s, a); }
    }
  }

  lemma {:induction false} IdleNeedsCall(c: Config, s: State, a: Action)
    requires s.s.pc.SIdle? && SenderEnabled(c, s, a)
    ensures a.SCall?
  {
  }

  lemma {:induction false} IdleStep(c: Config, s: State, a: Action)
    requires Enabled(c, s, a) && s.s.pc.SIdle? && !a.SCall?
    ensures Step(c, s, a).s == s.s
  {
    if SenderEnabled(c, s, a) { IdleNeedsCall(c, s, a); } else { OthersLeaveSender(c, s, a); }
  }

  lemma {:induction false} IdleRun(c: Config, s: State, acts: seq<Action>)
    requires Schedule(c, s, acts) && s.s.pc.SIdle? && NoNewSend(acts)
    ensures Run(c, s, acts).s == s.s
    decreases |acts|
  {
    if acts != [] {
      IdleStep(c, s, acts[0]);
      IdleRun(c, Step(c, s, acts[0]), acts[1..]);
    }
  }

  /** Past the room test: the frame will go out whatever happens. */
  predicate Writing(x: Sender) { x.pc.SWrite? || x.pc.SNotify? || (x.pc.SIdle? && x.result == Sent) }

  /** Past a failed room test of a non-blocking attempt. */
  predicate GivingUp(x: Sender) { !x.waiting && (x.pc.SNone? || (x.pc.SIdle? && x.result == Full)) }

  lemma {:induction false} WritingEmits(c: Config, s: State, a: Action)
    requires |s.mem| == c.n > 0 && SenderEnabled(c, s, a) && Writing(s.s) && !a.SCall?
    ensures !TryEnabled(c, s, a) && EmitEnabled(c, s, a) && Writing(EmitStep(c, s, a).s)
  {
  }

  lemma {:induction false} GivingUpTries(c: Config, s: State, a: Action)
    requires |s.mem| == c.n > 0 && SenderEnabled(c, s, a) && GivingUp(s.s) && !a.SCall? && !a.SWaitStart?
    ensures TryEnabled(c, s, a) && GivingUp(TryStep(c, s, a).s)
  {
  }

  lemma {:induction false} WritingStep(c: Config, s: State, a: Action)
    requires Enabled(c, s, a) && Writing(s.s) && !a.SCall?
    ensures Writing(Step(c, s, a).s)
  {
    if SenderEnabled(c, s, a) { WritingEmits(c, s, a); } else { OthersLeaveSender(c, s, a); }
  }

  lemma {:induction false} GivingUpStep(c: Config, s: State, a: Action)
    requires Enabled(c, s, a) && GivingUp(s.s) && !a.SCall? && !a.SWaitStart?
    ensures GivingUp(Step(c, s, a).s)
  {
    if SenderEnabled(c, s, a) { GivingUpTries(c, s, a); } else { OthersLeaveSender(c, s, a); }
  }

  lemma {:induction false} WritingRun(c: Config, s: State, acts: seq<Action>)
    requires Schedule(c, s, acts) && Writing(s.s) && NoNewSend(acts)
    ensures Writing(Run(c, s, acts).s)
    decreases |acts|
  {
    if acts != [] {
      WritingStep(c, s, acts[0]);
      WritingRun(c, Step(c, s, acts[0]), acts[1..]);
    }
  }

  lemma {:induction false} GivingUpRun(c: Config, s: State, acts: seq<Action>)
    requires Schedule(c, s, acts) && GivingUp(s.s) && NoNewSend(acts) && NoWait(acts)
    ensures GivingUp(Run(c, s, acts).s)
    decreases |acts|
  {
    if acts != [] {
      GivingUpStep(c, s, acts[0]);
      GivingUpRun(c, Step(c, s, acts[0]), acts[1..]);
    }
  }

  lemma {:induction false} RefreshDecides(c: Config, s: State)
    requires Inv(c, s) && TryEnabled(c, s, SRefresh)
    ensures var t := Step(c, s, SRefresh);
            if HasRoom(c, s) then t.s.pc == SWrite(0) else t.s.pc.SNone? && !t.s.waiting
  {
  }

  /** The result of `try_send_once` is exactly what its fresh load of the shared read cursor
      says: Sent if the true free space at that load holds the frame, Full if not, whatever
      anyone, closers included, does from then on. */
  lemma {:induction false} FullIsExact(c: Config, s: State, more: seq<Action>)
    requires Reachable(c, s) && Enabled(c, s, SRefresh) && TryEnabled(c, s, SRefresh)
    requires Schedule(c, Step(c, s, SRefresh), more) && NoNewSend(more) && NoWait(more)
    requires Run(c, Step(c, s, SRefresh), more).s.pc.SIdle?
    ensures Run(c, Step(c, s, SRefresh), more).s.result == if HasRoom(c, s) then Sent else Full
  {
    ReachableInv(c, s);
    RefreshDecides(c, s);
    if HasRoom(c, s) {
      WritingRun(c, Step(c, s, SRefresh), more);
    } else {
      GivingUpRun(c, Step(c, s, SRefresh), more);
    }
  }

  /** A sender that is testing: in an attempt, or in a look of its wait. */
  predicate Testing(pc: SPc) {
    pc.SCheck? || pc.STerminal? || pc.SCached? || pc.SFresh? || pc.SLoadRc? || pc.SGot?
  }

  /** This call, on a channel that has been Connected, can end only in Sent or in the latched
      terminal cause, and without waiting any more. */
  predicate Sure(c: Config, s: State) {
    && EverConnected(s)
    && match s.s.pc
       case SErr(e) => Terminal(s.st) && e == CauseOf(s.st)
       case SIdle => s.s.result == Sent || (Terminal(s.st) && s.s.result == SendFailed(CauseOf(s.st)))
       case SWrite(_) => true
       case SNotify => true
       case _ => Testing(s.s.pc) && HasRoom(c, s)
  }

  /** Steps of its own a sure attempt still needs. */
  function StepsLeft(s: State): int {
    match s.s.pc
    case SCheck => MsgLen(s) + (if s.s.waiting then 12 else 8)
    case STerminal => MsgLen(s) + (if s.s.waiting then 11 else 7)
    case SLoadRc => MsgLen(s) + 10
    case SGot(_) => MsgLen(s) + 9
    case SCached => MsgLen(s) + 6
    case SFresh => MsgLen(s) + 5
    case SWrite(done) => MsgLen(s) - done + 4
    case SNotify => if s.w.waker.Stored? then 3 else if s.w.waker.Bumped? then 2 else 1
    case SErr(_) => 1
    case _ => 0
  }

  lemma {:induction false} SureTry(c: Config, s: State, a: Action)
    requires Inv(c, s) && Sure(c, s) && TryEnabled(c, s, a) && !a.SCall?
    ensures Sure(c, TryStep(c, s, a)) && StepsLeft(TryStep(c, s, a)) < StepsLeft(s)
  {
  }

  lemma {:induction false} SureEmit(c: Config, s: State, a: Action)
    requires |s.mem| == c.n > 0 && Sure(c, s) && EmitEnabled(c, s, a)
    ensures Sure(c, EmitStep(c, s, a)) && StepsLeft(EmitStep(c, s, a)) < StepsLeft(s)
  {
  }

  lemma {:induction false} SureBlock(c: Config, s: State, a: Action)
    requires |s.mem| == c.n > 0 && s.s.cachedWc == s.wc && Sure(c, s) && BlockEnabled(c, s, a)
    ensures Sure(c, BlockStep(c, s, a)) && StepsLeft(BlockStep(c, s, a)) < StepsLeft(s)
  {
  }

  lemma {:induction false} SureSender(c: Config, s: State, a: Action)
    requires Inv(c, s) && Sure(c, s) && SenderEnabled(c, s, a) && !a.SCall?
    ensures Sure(c, SenderStep(c, s, a)) && StepsLeft(SenderStep(c, s, a)) < StepsLeft(s)
  {
    if TryEnabled(c, s, a) {
      SureTry(c, s, a);
    } else if EmitEnabled(c, s, a) {
      SureEmit(c, s, a);
    } else {
      SureBlock(c, s, a);
    }
  }

  /** Room seen once stays: others only free space, and terminal causes are latched. */
  lemma {:induction false} SureStable(c: Config, s: State, t: State)
    requires Sure(c, s) && t.s == s.s && Later(s, t) && t.wc == s.wc && (EverConnected(s) ==> EverConnected(t))
    ensures Sure(c, t)
  {
  }

  lemma {:induction false} ConnectedStays(c: Config, s: State, a: Action)
    requires StateWord(s) && Enabled(c, s, a) && EverConnected(s)
    ensures EverConnected(Step(c, s, a))
  {
    if MoveEnabled(c, s, a) {
      MoveIsStep(c, s, a);
    } else {
      WordStep(c, s, a);
    }
  }

  /** A sure attempt stays sure, and each step of its own brings it nearer its end; between
      them the others cannot set it back. */
  lemma {:induction false} SureStep(c: Config, s: State, a: Action)
    requires Inv(c, s) && Sure(c, s) && Enabled(c, s, a) && !a.SCall?
    ensures Sure(c, Step(c, s, a))
    ensures SenderEnabled(c, s, a) ==> StepsLeft(Step(c, s, a)) < StepsLeft(s)
  {
    if SenderEnabled(c, s, a) {
      SureSender(c, s, a);
    } else {
      OthersLeaveSender(c, s, a);
      StepInv(c, s, a);
      StepLater(c, s, a);
      ConnectedStays(c, s, a);
      SureStable(c, s, Step(c, s, a));
    }
  }

  lemma {:induction false} SureRun(c: Config, s: State, acts: seq<Action>)
    requires Inv(c, s) && Sure(c, s) && Schedule(c, s, acts) && NoNewSend(acts)
    ensures Sure(c, Run(c, s, acts))
    decreases |acts|
  {
    if acts != [] {
      SureStep(c, s, acts[0]);
      StepInv(c, s, acts[0]);
      SureRun(c, Step(c, s, acts[0]), acts[1..]);
    }
  }

  lemma {:induction false} TestingIsSure(c: Config, s: State)
    requires Inv(c, s) && EverConnected(s) && Testing(s.s.pc)
    requires HasRoom(c, s) || s.rc == s.wc
    ensures Sure(c, s)
  {
  }

  lemma {:induction false} GrantedIsSure(c: Config, s: State)
    requires Inv(c, s) && s.s.granted && !s.s.pc.SIdle? && !s.s.pc.SErr?
    ensures Sure(c, s)
  {
  }

  /** Room there at any point of an attempt's tests, or of a look of its wait, means that every
      run of that call to its end ends in Sent, or in the latched cause of a channel gone
      terminal: never in Full, never in a time-out. A drained ring has room for every payload
      that passes `message_size`. */
  lemma {:induction false} RoomMeansSent(c: Config, s: State, more: seq<Action>)
    requires Reachable(c, s) && EverConnected(s) && Testing(s.s.pc)
    requires HasRoom(c, s) || s.rc == s.wc
    requires Schedule(c, s, more) && NoNewSend(more) && Run(c, s, more).s.pc.SIdle?
    ensures var t := Run(c, s, more);
            t.s.result == Sent || (Terminal(t.st) && t.s.result == SendFailed(CauseOf(t.st)))
  {
    ReachableInv(c, s);
    TestingIsSure(c, s);
    SureRun(c, s, more);
  }

  /** A successful wait guarantees the next attempt: every run from a granted sender to the
      end of the call ends in Sent, or in the latched cause of a channel gone terminal. */
  lemma {:induction false} GrantedSends(c: Config, s: State, more: seq<Action>)
    requires Reachable(c, s) && s.s.granted && !s.s.pc.SIdle? && !s.s.pc.SErr?
    requires Schedule(c, s, more) && NoNewSend(more) && Run(c, s, more).s.pc.SIdle?
    ensures var t := Run(c, s, more);
            t.s.result == Sent || (Terminal(t.st) && t.s.result == SendFailed(CauseOf(t.st)))
  {
    ReachableInv(c, s);
    GrantedIsSure(c, s);
    SureRun(c, s, more);
  }

  /** ... and it gets there on its own: until the call ends a step of its own is enabled,
      every such step lowers the number of steps left, and no one else's step raises it. */
  lemma {:induction false} GrantedNeverWaits(c: Config, s: State, a: Action)
    requires Reachable(c, s) && Sure(c, s) && Enabled(c, s, a) && !a.SCall?
    ensures 0 <= StepsLeft(s) <= MsgLen(s) + 12
    ensures !s.s.pc.SIdle? ==> exists b :: SenderEnabled(c, s, b)
    ensures if SenderEnabled(c, s, a) then StepsLeft(Step(c, s, a)) < StepsLeft(s)
            else StepsLeft(Step(c, s, a)) == StepsLeft(s)
  {
    ReachableInv(c, s);
    SureStep(c, s, a);
    SureNext(c, s);
    if !SenderEnabled(c, s, a) {
      OthersLeaveSender(c, s, a);
      OthersLeaveWaker(c, s, a);
    }
  }

  lemma {:induction false} ReceiverLeavesWaker(c: Config, s: State, a: Action)
    requires |s.mem| == c.n > 0 && ReceiverEnabled(c, s, a)
    ensures ReceiverStep(c, s, a).w.waker == s.w.waker
  {
    if PeekEnabled(c, s, a) { PeekFrame(c, s, a); }
  }

  lemma {:induction false} OthersLeaveWaker(c: Config, s: State, a: Action)
    requires Enabled(c, s, a) && !SenderEnabled(c, s, a)
    ensures Step(c, s, a).w.waker == s.w.waker
  {
    if ReceiverEnabled(c, s, a) { ReceiverLeavesWaker(c, s, a); }
  }

  /** The sender's next step. */
  function NextOf(s: State): Action {
    match s.s.pc
    case SCheck => SReady(false)
    case STerminal => SConfirm
    case SCached => STry
    case SFresh => SRefresh
    case SWrite(done) => if done < MsgLen(s) then SCopy else SPublish
    case SNotify => if s.w.waker.Stored? then SBump else if s.w.waker.Bumped? then SLoadParked else SWake
    case SLoadRc => SReload
    case SGot(_) => SResume
    case _ => SFail
  }

  lemma {:induction false} SureNext(c: Config, s: State)
    requires Inv(c, s) && Sure(c, s)
    ensures 0 <= StepsLeft(s) <= MsgLen(s) + 12
    ensures !s.s.pc.SIdle? ==> SenderEnabled(c, s, NextOf(s))
  {
  }
}
