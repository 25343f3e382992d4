// How a direction begins and ends: records only after Connected, the first
// terminal cause kept for ever, a receiver that drains before it reports the
// cause, and sleepers that are woken.
module RingEndings {
  import opened Frames
  import opened States
  import opened WaitLine
  import opened RingMachine
  import opened RingInvariant
  import opened RingWaits
  import opened RingTheorems

  // ----- the state word and the history only move forward -----

  /** What every step keeps about the past. */
  ghost predicate Later(s: State, t: State) {
    && Grows(s, t)
    && s.rc <= t.rc && s.wc <= t.wc
    && Forward(s.st, t.st)
    && (Terminal(s.st) ==> t.st == s.st && t.atTerm == s.atTerm)
    && (!Terminal(s.st) && Terminal(t.st) ==> |s.published| <= t.atTerm)
    && (Terminal(s.st) && !EverConnected(s) ==> !EverConnected(t))
  }

  /** The parts of the state a party may change besides its own record. */
  predicate SameWord(s: State, t: State) {
    t.st == s.st && t.atTerm == s.atTerm && (t.w.conn.NotDue? <==> s.w.conn.NotDue?)
  }

  lemma {:induction false} WordStep(c: Config, s: State, a: Action)
    requires Enabled(c, s, a) && !MoveEnabled(c, s, a)
    ensures SameWord(s, Step(c, s, a))
  {
    if SenderEnabled(c, s, a) {
      SenderWord(c, s, a);
    } else if ReceiverEnabled(c, s, a) {
      ReceiverWord(c, s, a);
    } else {
      AllFrame(c, s, a);
    }
  }

  lemma {:induction false} SenderWord(c: Config, s: State, a: Action)
    requires |s.mem| == c.n > 0 && SenderEnabled(c, s, a)
    ensures SameWord(s, SenderStep(c, s, a))
  {
    if TryEnabled(c, s, a) {
      TryFrame(c, s, a);
    } else if BlockEnabled(c, s, a) {
      BlockFrame(c, s, a);
    }
  }

  lemma {:induction false} ReceiverWord(c: Config, s: State, a: Action)
    requires |s.mem| == c.n > 0 && ReceiverEnabled(c, s, a)
    ensures SameWord(s, ReceiverStep(c, s, a))
  {
    if PeekEnabled(c, s, a) {
      PeekFrame(c, s, a);
    } else if ParkEnabled(c, s, a) {
      assert !a.RCompareSleep? || SameWord(s, ParkStep(c, s, a));
    }
  }

  lemma {:induction false} MoveWord(c: Config, s: State, a: Action)
    requires StateWord(s) && MoveEnabled(c, s, a)
    ensures var t := MoveStep(c, s, a);
            && (t.st == s.st || Edge(s.st, t.st))
            && (Terminal(s.st) ==> SameWord(s, t))
            && (!Terminal(s.st) && Terminal(t.st) ==> t.atTerm == |s.published|)
  {
  }

  predicate Grows(s: State, t: State) {
    && |s.published| <= |t.published| && t.published[..|s.published|] == s.published
    && |s.consumed| <= |t.consumed| && t.consumed[..|s.consumed|] == s.consumed
  }

  lemma {:induction false} HistoryGrows(c: Config, s: State, a: Action, t: State)
    requires HistoryOf(c, s, a, t)
    ensures Grows(s, t)
  {
  }

  lemma {:induction false} WordLater(c: Config, s: State, a: Action)
    requires StateWord(s) && Enabled(c, s, a)
    ensures var t := Step(c, s, a);
            && Forward(s.st, t.st)
            && (Terminal(s.st) ==> SameWord(s, t))
            && (!Terminal(s.st) && Terminal(t.st) ==> t.atTerm == |s.published|)
  {
    if MoveEnabled(c, s, a) {
      MoveWord(c, s, a);
      MoveIsStep(c, s, a);
    } else {
      WordStep(c, s, a);
    }
  }

  lemma {:induction false} MoveIsStep(c: Config, s: State, a: Action)
    requires Enabled(c, s, a) && MoveEnabled(c, s, a)
    ensures Step(c, s, a) == MoveStep(c, s, a)
  {
  }

  lemma {:induction false} StepLater(c: Config, s: State, a: Action)
    requires Inv(c, s) && Enabled(c, s, a)
    ensures Later(s, Step(c, s, a))
  {
    var t := Step(c, s, a);
    StepInv(c, s, a);
    HistoryStep(c, s, a);
    HistoryGrows(c, s, a, t);
    CursorsGrow(c, s, t);
    WordLater(c, s, a);
  }

  /** Cursors follow the history, so longer histories mean larger cursors. */
  lemma {:induction false} CursorsGrow(c: Config, s: State, t: State)
    requires Cursors(c, s) && Cursors(c, t)
    requires Grows(s, t)
    ensures s.rc <= t.rc && s.wc <= t.wc
  {
    OffsetPrefix(s.published, t.published, |s.published|);
    OffsetPrefix(s.published, t.published, |s.consumed|);
    OffsetGap(t.published, |s.published|, |t.published|);
    OffsetGap(t.published, |s.consumed|, |t.consumed|);
  }

  lemma {:induction false} LaterTransitive(s: State, t: State, u: State)
    requires Later(s, t) && Later(t, u)
    ensures Later(s, u)
  {
    assert u.published[..|s.published|] == u.published[..|t.published|][..|s.published|];
    assert u.consumed[..|s.consumed|] == u.consumed[..|t.consumed|][..|s.consumed|];
  }

  /** Over whole runs: history and state word only grow, the first terminal cause is never
      replaced, and the mark it leaves covers everything published before it. */
  lemma {:induction false} RunLater(c: Config, s: State, acts: seq<Action>)
    requires Inv(c, s) && Schedule(c, s, acts)
    ensures Later(s, Run(c, s, acts)) && Inv(c, Run(c, s, acts))
    decreases |acts|
  {
    RunInv(c, s, acts);
    if acts != [] {
      var t := Step(c, s, acts[0]);
      StepInv(c, s, acts[0]);
      StepLater(c, s, acts[0]);
      RunLater(c, t, acts[1..]);
      LaterTransitive(s, t, Run(c, s, acts));
    }
  }

  // ----- drain before terminal -----

  /** If a receive reports ChannelClosed or PeerDisconnected, then every record that was
      published in any state before the state word became terminal has been consumed. */
  lemma {:induction false} DrainBeforeTerminal(c: Config, s: State, more: seq<Action>, e: Error)
    requires Reachable(c, s) && Schedule(c, s, more) && !Terminal(s.st)
    requires e == ChannelClosed || e == PeerGone
    requires Run(c, s, more).v.result == RecvFailed(e)
    ensures var t := Run(c, s, more);
            && CauseOf(t.st) == e
            && |s.published| <= |t.consumed| <= |t.published|
            && t.published[..|s.published|] == s.published
            && (forall i | 0 <= i < |s.published| :: Matches(t.consumed[i], s.published[i]))
  {
    ReachableInv(c, s);
    RunLater(c, s, more);
    var t := Run(c, s, more);
    forall i | 0 <= i < |s.published| ensures Matches(t.consumed[i], s.published[i]) {
      assert s.published[i] == t.published[..|s.published|][i];
    }
  }

  // ----- nothing before Connected -----

  /** A channel that never passed through Connected carries nothing; in particular the one
      error that skips the second peek, TimedOut by retirement, can lose no record: none
      was ever published and none ever will be. */
  lemma {:induction false} NothingBeforeConnected(c: Config, s: State, more: seq<Action>)
    requires Reachable(c, s) && Schedule(c, s, more)
    ensures !EverConnected(s) ==> s.published == [] && s.wc == 0 && s.rc == 0
    ensures s.v.result == RecvFailed(Retired) || s.s.result == SendFailed(Retired) ==>
              Run(c, s, more).published == [] && Run(c, s, more).wc == 0 && Run(c, s, more).st == Closed
  {
    ReachableInv(c, s);
    RunLater(c, s, more);
  }

  // ----- sleepers are woken -----

  /** Steps still owed to a sleeper by everyone. */
  function Debt(l: Line): nat {
    (match l.waker case Quiet => 0 case Waking => 1 case Bumped => 2 case Stored => 3)
    + (match l.conn case DueBump => 2 case DueWake => 1 case _ => 0)
    + (match l.term case DueBump => 2 case DueWake => 1 case _ => 0)
  }

  /** Steps that pay the writer line's debt, and steps that add to it. */
  predicate PaysReceiver(a: Action) {
    || a == SBump || a == SLoadParked || a == SWake
    || (a.EBump? && a.side == WriterSide) || (a.EWake? && a.side == WriterSide)
  }

  predicate AddsForReceiver(a: Action) { a.SPublish? || a.EMove? || a.SRetireCas? || a.RRetireCas? }

  /** One step of someone else, seen by a sleeper on line `l` that becomes `m`: it sleeps on
      or is roused; a payment lowers the debt; nothing else but an addition changes it. */
  predicate Settles(l: Line, m: Line, pays: bool, adds: bool) {
    || m.waiter.Roused?
    || (m.waiter.Asleep? && (pays ==> Debt(m) < Debt(l)) && (!pays && !adds ==> m == l))
  }

  lemma {:induction false} OwedIsDebt(l: Line)
    ensures Owed(l) <==> Debt(l) > 0
  {
  }

  lemma {:induction false} EmitPaysReceiver(c: Config, s: State, a: Action)
    requires |s.mem| == c.n > 0 && s.w.parked && s.w.waiter.Asleep? && EmitEnabled(c, s, a)
    ensures Settles(s.w, EmitStep(c, s, a).w, PaysReceiver(a), AddsForReceiver(a))
  {
  }

  lemma {:induction false} SenderPaysReceiver(c: Config, s: State, a: Action)
    requires |s.mem| == c.n > 0 && s.w.parked && s.w.waiter.Asleep? && SenderEnabled(c, s, a)
    ensures Settles(s.w, SenderStep(c, s, a).w, PaysReceiver(a), AddsForReceiver(a))
  {
    if TryEnabled(c, s, a) {
      TryFrame(c, s, a);
    } else if BlockEnabled(c, s, a) {
      BlockFrame(c, s, a);
    } else {
      EmitPaysReceiver(c, s, a);
    }
  }

  lemma {:induction false} ReceiverAsleepOnly(c: Config, s: State, a: Action)
    requires |s.mem| == c.n > 0 && s.v.pc.RSleep? && s.w.waiter.Asleep? && ReceiverEnabled(c, s, a)
    ensures a.RExpire? && ReceiverStep(c, s, a).w.waiter.Roused?
  {
  }

  lemma {:induction false} WorldPaysReceiver(c: Config, s: State, a: Action)
    requires s.w.waiter.Asleep? && StateWord(s) && ReceiverAwake(c, s)
    requires MoveEnabled(c, s, a) || AllEnabled(c, s, a)
    ensures var t := if MoveEnabled(c, s, a) then MoveStep(c, s, a) else AllStep(c, s, a);
            Settles(s.w, t.w, PaysReceiver(a), AddsForReceiver(a))
  {
  }

  lemma {:induction false} PayReceiver(c: Config, s: State, a: Action)
    requires |s.mem| == c.n > 0 && StateWord(s) && ReceiverAwake(c, s) && s.w.waiter.Asleep? && Enabled(c, s, a)
    ensures Settles(s.w, Step(c, s, a).w, PaysReceiver(a), AddsForReceiver(a))
  {
    if SenderEnabled(c, s, a) {
      SenderPaysReceiver(c, s, a);
    } else if ReceiverEnabled(c, s, a) {
      ReceiverAsleepOnly(c, s, a);
    } else {
      WorldPaysReceiver(c, s, a);
    }
  }

  /** A sleeping receiver takes nothing. */
  lemma {:induction false} AsleepTakesNothing(c: Config, s: State, a: Action)
    requires s.v.pc.RSleep?
    ensures !EventOf(c, s, a).Dequeue? && !EventOf(c, s, a).Drop?
  {
  }

  /** ... so a pending record stays pending. */
  lemma {:induction false} StillReceivable(c: Config, s: State, t: State)
    requires Basics(c, s) && Basics(c, t) && Later(s, t) && |t.consumed| == |s.consumed| && CanReceive(s)
    ensures CanReceive(t)
  {
  }

  lemma {:induction false} SleeperStaysDue(c: Config, s: State, a: Action)
    requires Inv(c, s) && Enabled(c, s, a) && s.v.pc.RSleep? && CanReceive(s)
    ensures CanReceive(Step(c, s, a))
  {
    StepInv(c, s, a);
    StepLater(c, s, a);
    HistoryStep(c, s, a);
    AsleepTakesNothing(c, s, a);
    BasicsHold(c, s);
    BasicsHold(c, Step(c, s, a));
    StillReceivable(c, s, Step(c, s, a));
  }

  /** A receiver asleep on a true condition stays asleep on a true condition until it is
      woken; every payment lowers the debt or wakes it, and only a further publish or a
      move of the state word adds to the debt. */
  lemma {:induction false} ReceiverWillWake(c: Config, s: State, a: Action)
    requires Reachable(c, s) && Enabled(c, s, a) && s.w.waiter.Asleep? && CanReceive(s)
    ensures var t := Step(c, s, a);
            && Debt(s.w) > 0 && CanReceive(t)
            && Settles(s.w, t.w, PaysReceiver(a), AddsForReceiver(a))
  {
    ReachableInv(c, s);
    OwedIsDebt(s.w);
    PayReceiver(c, s, a);
    SleeperStaysDue(c, s, a);
  }

  // ----- the same for a sleeping sender -----

  predicate PaysSender(a: Action) {
    || a == RBump || a == RLoadParked || a == RWake
    || (a.EBump? && a.side == ReaderSide) || (a.EWake? && a.side == ReaderSide)
  }

  predicate AddsForSender(a: Action) { a.RStoreCursor? || a.EMove? || a.SRetireCas? || a.RRetireCas? }

  lemma {:induction false} TakePaysSender(c: Config, s: State, a: Action)
    requires |s.mem| == c.n > 0 && s.r.parked && s.r.waiter.Asleep? && TakeEnabled(c, s, a)
    ensures TakeStep(c, s, a).s == s.s
    ensures Settles(s.r, TakeStep(c, s, a).r, PaysSender(a), AddsForSender(a))
  {
  }

  /** Peeking and parking leave the reader line alone. */
  lemma {:induction false} PeekParkElsewhere(c: Config, s: State, a: Action)
    requires |s.mem| == c.n > 0 && (PeekEnabled(c, s, a) || ParkEnabled(c, s, a))
    ensures ReceiverStep(c, s, a).s == s.s && ReceiverStep(c, s, a).r == s.r && !PaysSender(a)
  {
    if PeekEnabled(c, s, a) {
      PeekFrame(c, s, a);
    } else {
      ParkFrame(c, s, a);
    }
  }

  lemma {:induction false} ReceiverPaysSender(c: Config, s: State, a: Action)
    requires |s.mem| == c.n > 0 && s.r.parked && s.r.waiter.Asleep? && ReceiverEnabled(c, s, a)
    ensures ReceiverStep(c, s, a).s == s.s
    ensures Settles(s.r, ReceiverStep(c, s, a).r, PaysSender(a), AddsForSender(a))
  {
    if PeekEnabled(c, s, a) || ParkEnabled(c, s, a) {
      PeekParkElsewhere(c, s, a);
    } else {
      TakePaysSender(c, s, a);
    }
  }

  lemma {:induction false} OnlyExpires(c: Config, s: State, a: Action)
    requires s.s.pc.SSleep? && s.r.waiter.Asleep? && SenderEnabled(c, s, a)
    ensures a.SExpire? && BlockEnabled(c, s, a) && !TryEnabled(c, s, a) && !EmitEnabled(c, s, a)
  {
  }

  lemma {:induction false} SenderAsleepOnly(c: Config, s: State, a: Action)
    requires |s.mem| == c.n > 0 && s.s.pc.SSleep? && s.r.waiter.Asleep? && SenderEnabled(c, s, a)
    ensures a.SExpire? && SenderStep(c, s, a).r.waiter.Roused?
    ensures SenderStep(c, s, a).s == s.s
  {
    OnlyExpires(c, s, a);
  }

  lemma {:induction false} WorldPaysSender(c: Config, s: State, a: Action)
    requires s.r.waiter.Asleep? && StateWord(s) && SenderAwake(c, s)
    requires MoveEnabled(c, s, a) || AllEnabled(c, s, a)
    ensures var t := if MoveEnabled(c, s, a) then MoveStep(c, s, a) else AllStep(c, s, a);
            t.s == s.s && Settles(s.r, t.r, PaysSender(a), AddsForSender(a))
  {
  }

  lemma {:induction false} PaySender(c: Config, s: State, a: Action)
    requires |s.mem| == c.n > 0 && StateWord(s) && SenderAwake(c, s) && s.r.waiter.Asleep? && Enabled(c, s, a)
    ensures Step(c, s, a).s == s.s && Settles(s.r, Step(c, s, a).r, PaysSender(a), AddsForSender(a))
  {
    if SenderEnabled(c, s, a) {
      SenderAsleepOnly(c, s, a);
    } else if ReceiverEnabled(c, s, a) {
      ReceiverPaysSender(c, s, a);
    } else {
      WorldPaysSender(c, s, a);
    }
  }

  /** While the sender sleeps it publishes nothing, so room once there stays there. */
  lemma {:induction false} StillSendable(c: Config, s: State, t: State)
    requires Later(s, t) && CanSend(c, s) && t.s == s.s && s.wc == s.s.cachedWc && t.wc == t.s.cachedWc
    ensures CanSend(c, t)
  {
  }

  /** The mirror image of ReceiverWillWake. */
  lemma {:induction false} SenderWillWake(c: Config, s: State, a: Action)
    requires Reachable(c, s) && Enabled(c, s, a) && s.r.waiter.Asleep? && CanSend(c, s)
    ensures var t := Step(c, s, a);
            && Debt(s.r) > 0 && CanSend(c, t)
            && Settles(s.r, t.r, PaysSender(a), AddsForSender(a))
  {
    ReachableInv(c, s);
    OwedIsDebt(s.r);
    PaySender(c, s, a);
    StepInv(c, s, a);
    StepLater(c, s, a);
    StillSendable(c, s, Step(c, s, a));
  }
}
