// What Sent says about the end of a channel: a close may overtake a send that has
// passed its readiness check, and exactly when it does not, the record is covered by
// the drain guarantee.
module RingCoverage {
  import opened Frames
  import opened States
  import opened WaitLine
  import opened RingMachine
  import opened RingInvariant
  import opened RingWaits
  import opened RingTheorems
  import opened RingEndings
  import opened RingAttempts
  import opened RingLink

  // ----- what Sent does not mean -----

  lemma {:induction false} Connects(c: Config)
    requires c.Legal()
    ensures var acts := [EMove(ClientClaimed), EMove(Connected)];
            && Schedule(c, RingMachine.Init(c), acts)
            && Run(c, RingMachine.Init(c), acts) == MoveState(RingMachine.Init(c), Connected)
  {
    TwoSteps(c, RingMachine.Init(c), EMove(ClientClaimed), EMove(Connected));
  }

  /** A sender with room, sending an empty payload, passes all its tests ... */
  lemma {:induction false} PassesTests(c: Config, s: State)
    requires c.n == |s.mem| >= HEADER && s.st == Connected && s.s.pc.SIdle? && s.s.cachedWc == s.s.cachedRc
    ensures var acts := [SCall([]), SReady(false), SConfirm] + [STry];
            && Schedule(c, s, acts)
            && var t := Run(c, s, acts);
               t == s.(s := t.s) && t.s.pc == SWrite(0) && t.s.payload == []
  {
    ThreeSteps(c, s, SCall([]), SReady(false), SConfirm);
    var t := Run(c, s, [SCall([]), SReady(false), SConfirm]);
    Unroll(c, t, STry, []);
    assert [STry] + [] == [STry];
    Then(c, s, [SCall([]), SReady(false), SConfirm], [STry]);
  }

  /** With its cursor stored and nobody parked, a send is two steps from its end. */
  lemma {:induction false} BumpAndLook(c: Config, s: State)
    requires c.n == |s.mem| > 0 && s.s.pc.SNotify? && s.w.waker.Stored? && !s.w.parked
    ensures Schedule(c, s, [SBump, SLoadParked])
    ensures var t := Run(c, s, [SBump, SLoadParked]);
            && t.s == s.s.(pc := SIdle, result := Sent, waiting := false)
            && t == s.(s := t.s, w := t.w)
  {
    TwoSteps(c, s, SBump, SLoadParked);
  }

  lemma {:induction false} StoreCursor(c: Config, s: State)
    requires c.n == |s.mem| > 0 && s.s.pc == SWrite(MsgLen(s))
    ensures Schedule(c, s, [SPublish])
    ensures var t := Run(c, s, [SPublish]);
            && t.mem == s.mem && t.s.pc.SNotify? && t.w == Store(s.w) && t.st == s.st && t.atTerm == s.atTerm
            && t.published == s.published + [s.s.payload]
  {
    Unroll(c, s, SPublish, []);
    assert [SPublish] + [] == [SPublish];
  }

  /** The rest of an undisturbed send. */
  function Finish(s: State): seq<Action> { (Repeat(SCopy, MsgLen(s)) + [SPublish]) + [SBump, SLoadParked] }

  /** ... is overtaken by a close, and finishes all the same. */
  lemma {:induction false} FinishSend(c: Config, s: State)
    requires c.n == |s.mem| > 0 && s.s.pc == SWrite(0) && !s.w.parked
    ensures Schedule(c, s, Finish(s))
    ensures var t := Run(c, s, Finish(s));
            && t.s.pc.SIdle? && t.s.result == Sent && t.st == s.st && t.atTerm == s.atTerm
            && t.published == s.published + [s.s.payload]
  {
    CopiedEnds(s);
    CopyRun(c, s, 0);
    StoreCursor(c, Copied(s, MsgLen(s)));
    Then(c, s, Repeat(SCopy, MsgLen(s)), [SPublish]);
    var t := Run(c, s, Repeat(SCopy, MsgLen(s)) + [SPublish]);
    BumpAndLook(c, t);
    Then(c, s, Repeat(SCopy, MsgLen(s)) + [SPublish], [SBump, SLoadParked]);
  }

  lemma {:induction false} Extend(c: Config, s: State, acts: seq<Action>)
    requires Reachable(c, s) && Schedule(c, s, acts)
    ensures Reachable(c, Run(c, s, acts))
  {
    var first :| Schedule(c, RingMachine.Init(c), first) && s == Run(c, RingMachine.Init(c), first);
    Then(c, RingMachine.Init(c), first, acts);
  }

  lemma {:induction false} AboutToWrite(c: Config) returns (t: State)
    requires c.Legal()
    ensures Reachable(c, t) && t.s.pc == SWrite(0) && t.st == Connected
    ensures |t.mem| == c.n && !t.w.parked && t.published == []
  {
    t := MoveState(RingMachine.Init(c), Connected);
    Connects(c);
    assert Reachable(c, t);
    PassesTests(c, t);
    Extend(c, t, [SCall([]), SReady(false), SConfirm] + [STry]);
    t := Run(c, t, [SCall([]), SReady(false), SConfirm] + [STry]);
  }

  /** Sent does not mean still connected: on every legal ring a send can pass its readiness
      check, be overtaken by a close, and report Sent of a record published afterwards. */
  lemma {:induction false} SentAfterClose(c: Config) returns (t: State)
    requires c.Legal()
    ensures Reachable(c, t) && t.s.pc.SIdle? && t.s.result == Sent
    ensures t.st == Closed && t.atTerm < |t.published|
  {
    t := AboutToWrite(c);
    Unroll(c, t, EMove(Closed), []);
    Extend(c, t, [EMove(Closed)] + []);
    t := MoveState(t, Closed);
    FinishSend(c, t);
    Extend(c, t, Finish(t));
    t := Run(c, t, Finish(t));
  }

  /** What it does mean: the channel has been Connected, and exactly this payload is out. */
  lemma {:induction false} SentMeansConnected(c: Config, s: State)
    requires Reachable(c, s) && s.s.pc.SIdle? && s.s.result == Sent
    ensures EverConnected(s) && |s.published| == s.s.base + 1 && s.published[s.s.base] == s.s.payload
  {
    ReachableInv(c, s);
  }

  // ----- exactly when Sent comes before the close -----

  /** A terminal cause is latched by this action: a close, or an observed death. (A retirement
      needs an unready channel.) */
  predicate Ends(a: Action) { a.EMove? && Terminal(a.next) }

  predicate NoClose(acts: seq<Action>) { forall i | 0 <= i < |acts| :: !Ends(acts[i]) }

  lemma {:induction false} NoCloseSplits(acts: seq<Action>)
    requires acts != []
    ensures NoClose(acts) <==> !Ends(acts[0]) && NoClose(acts[1..])
  {
    if !Ends(acts[0]) && NoClose(acts[1..]) {
      forall i | 0 <= i < |acts| ensures !Ends(acts[i]) {
        if i > 0 { assert acts[i] == acts[1..][i - 1]; }
      }
    }
    if NoClose(acts) {
      forall i | 0 <= i < |acts| - 1 ensures !Ends(acts[1..][i]) { assert acts[1..][i] == acts[i + 1]; }
    }
  }

  /** A connected channel leaves that state at a close or an observed death, and never else. */
  lemma {:induction false} LeavesConnected(c: Config, s: State, a: Action)
    requires StateWord(s) && s.st == Connected && Enabled(c, s, a)
    ensures if Ends(a) then Terminal(Step(c, s, a).st) else Step(c, s, a).st == Connected
  {
    if MoveEnabled(c, s, a) { MoveIsStep(c, s, a); } else { WordStep(c, s, a); }
  }

  /** A channel connected at some point is still connected after any run if and only if nobody
      closed it or latched a death in that run. */
  lemma {:induction false} StaysConnected(c: Config, s: State, more: seq<Action>)
    requires Inv(c, s) && s.st == Connected && Schedule(c, s, more)
    ensures Run(c, s, more).st == Connected <==> NoClose(more)
    decreases |more|
  {
    if more != [] {
      NoCloseSplits(more);
      LeavesConnected(c, s, more[0]);
      StepInv(c, s, more[0]);
      if Ends(more[0]) {
        RunLater(c, Step(c, s, more[0]), more[1..]);
      } else {
        StaysConnected(c, Step(c, s, more[0]), more[1..]);
      }
    }
  }

  /** What happens in a run before the sender's next cursor store. */
  function BeforeStore(acts: seq<Action>): seq<Action> {
    if acts == [] || acts[0].SPublish? then [] else [acts[0]] + BeforeStore(acts[1..])
  }

  /** Inside a call that has not stored its cursor yet. */
  predicate Unsent(s: State) { !s.s.pc.SIdle? && !s.s.pc.SNotify? }

  /** Record `k` went out before any terminal move, so the drain guarantee covers it. */
  predicate Covered(s: State, k: nat) { !Terminal(s.st) || k < s.atTerm }

  predicate SameCall(x: Sender, y: Sender) { y.base == x.base && y.payload == x.payload }

  lemma {:induction false} TrySameCall(c: Config, s: State, a: Action)
    requires |s.mem| == c.n > 0 && TryEnabled(c, s, a) && !a.SCall?
    ensures SameCall(s.s, TryStep(c, s, a).s)
  {
  }

  lemma {:induction false} EmitSameCall(c: Config, s: State, a: Action)
    requires |s.mem| == c.n > 0 && EmitEnabled(c, s, a) && !a.SCall?
    ensures SameCall(s.s, EmitStep(c, s, a).s)
  {
  }

  lemma {:induction false} BlockSameCall(c: Config, s: State, a: Action)
    requires |s.mem| == c.n > 0 && BlockEnabled(c, s, a) && !a.SCall?
    ensures SameCall(s.s, BlockStep(c, s, a).s)
  {
  }

  lemma {:induction false} SenderSameCall(c: Config, s: State, a: Action)
    requires |s.mem| == c.n > 0 && SenderEnabled(c, s, a) && !a.SCall?
    ensures SameCall(s.s, SenderStep(c, s, a).s)
  {
    if TryEnabled(c, s, a) {
      TrySameCall(c, s, a);
    } else if EmitEnabled(c, s, a) {
      EmitSameCall(c, s, a);
    } else {
      BlockSameCall(c, s, a);
    }
  }

  lemma {:induction false} ReceiverSameCall(c: Config, s: State, a: Action)
    requires |s.mem| == c.n > 0 && ReceiverEnabled(c, s, a)
    ensures ReceiverStep(c, s, a).s == s.s
  {
    if PeekEnabled(c, s, a) { PeekFrame(c, s, a); } else if ParkEnabled(c, s, a) { ParkFrame(c, s, a); }
  }

  /** Within a call the payload and the starting count stand ... */
  lemma {:induction false} StepSameCall(c: Config, s: State, a: Action)
    requires Enabled(c, s, a) && !a.SCall?
    ensures SameCall(s.s, Step(c, s, a).s)
  {
    if SenderEnabled(c, s, a) {
      SenderSameCall(c, s, a);
    } else if ReceiverEnabled(c, s, a) {
      ReceiverSameCall(c, s, a);
    } else if MoveEnabled(c, s, a) {
      MoveFrame(c, s, a);
    }
  }

  lemma {:induction false} OnlyStoresEnqueue(c: Config, s: State, a: Action)
    requires Enabled(c, s, a)
    ensures EventOf(c, s, a).Enqueue? ==> a.SPublish? && EventOf(c, s, a).p == s.s.payload
    ensures a.SPublish? ==> EventOf(c, s, a).Enqueue?
  {
  }

  /** ... and only its own cursor store publishes. */
  lemma {:induction false} CallKeeps(c: Config, s: State, a: Action)
    requires Enabled(c, s, a) && !a.SCall?
    ensures SameCall(s.s, Step(c, s, a).s)
    ensures Step(c, s, a).published == s.published + (if a.SPublish? then [s.s.payload] else [])
  {
    StepSameCall(c, s, a);
    HistoryStep(c, s, a);
    OnlyStoresEnqueue(c, s, a);
  }

  lemma {:induction false} CallRun(c: Config, s: State, acts: seq<Action>)
    requires Schedule(c, s, acts) && NoNewSend(acts)
    ensures SameCall(s.s, Run(c, s, acts).s)
    decreases |acts|
  {
    if acts != [] {
      StepSameCall(c, s, acts[0]);
      CallRun(c, Step(c, s, acts[0]), acts[1..]);
    }
  }

  lemma {:induction false} BeforeStoreSplits(acts: seq<Action>)
    requires acts != [] && !acts[0].SPublish?
    ensures NoClose(BeforeStore(acts)) <==> !Ends(acts[0]) && NoClose(BeforeStore(acts[1..]))
  {
    var b := BeforeStore(acts);
    NoCloseSplits(b);
    assert b[0] == acts[0] && b[1..] == BeforeStore(acts[1..]);
  }

  /** Stored while connected: covered, whatever comes after. */
  lemma {:induction false} StoredIsCovered(c: Config, s: State, more: seq<Action>, k: nat)
    requires Inv(c, s) && s.st == Connected && k < |s.published| && Schedule(c, s, more)
    ensures Covered(Run(c, s, more), k)
  {
    RunLater(c, s, more);
  }

  /** Closed before the store: not covered, whatever comes after. */
  lemma {:induction false} ClosedIsNotCovered(c: Config, s: State, more: seq<Action>, k: nat)
    requires Inv(c, s) && Terminal(s.st) && |s.published| <= k && Schedule(c, s, more)
    ensures !Covered(Run(c, s, more), k)
  {
    RunLater(c, s, more);
  }

  /** Where a call stands that has neither stored nor failed. */
  lemma {:induction false} UnsentStep(c: Config, s: State, a: Action)
    requires Inv(c, s) && Unsent(s) && Enabled(c, s, a) && !a.SCall? && !a.SPublish?
    ensures var t := Step(c, s, a);
            && |t.published| == |s.published| == s.s.base == t.s.base
            && (Unsent(t) || (t.s.pc.SIdle? && t.s.result != Sent))
  {
    StepInv(c, s, a);
    CallKeeps(c, s, a);
    UnsentInv(c, s);
    SentCounts(c, Step(c, s, a));
  }

  lemma {:induction false} UnsentInv(c: Config, s: State)
    requires Inv(c, s) && Unsent(s)
    ensures |s.published| == s.s.base
  {
  }

  lemma {:induction false} SentCounts(c: Config, s: State)
    requires Inv(c, s)
    ensures s.s.pc.SNotify? || (s.s.pc.SIdle? && s.s.result == Sent) ==>
              |s.published| == s.s.base + 1 && s.published[s.s.base] == s.s.payload
  {
  }

  lemma {:induction false} CoveredRun(c: Config, s: State, more: seq<Action>)
    requires Inv(c, s) && s.st == Connected && Unsent(s) && Schedule(c, s, more) && NoNewSend(more)
    requires Run(c, s, more).s.pc.SIdle? && Run(c, s, more).s.result == Sent
    ensures Covered(Run(c, s, more), s.s.base) <==> NoClose(BeforeStore(more))
    decreases |more|
  {
    var a, rest := more[0], more[1..];
    var u := Step(c, s, a);
    StepInv(c, s, a);
    CallKeeps(c, s, a);
    LeavesConnected(c, s, a);
    UnsentInv(c, s);
    if a.SPublish? {
      StoredIsCovered(c, u, rest, s.s.base);
    } else {
      UnsentStep(c, s, a);
      BeforeStoreSplits(more);
      if Ends(a) {
        ClosedIsNotCovered(c, u, rest, s.s.base);
      } else if u.s.pc.SIdle? {
        IdleRun(c, u, rest);
      } else {
        CoveredRun(c, u, rest);
      }
    }
  }

  /** Exactly when a Sent record comes before the end of the channel: from any point of the
      call at which the channel is connected, the passing readiness check in particular, the
      record is out before any terminal move, and so under the drain guarantee, if and only if
      nobody closes the channel or latches a death between that point and the cursor store. */
  lemma {:induction false} SentBeforeCloseIff(c: Config, s: State, more: seq<Action>)
    requires Reachable(c, s) && s.st == Connected && Unsent(s) && Schedule(c, s, more) && NoNewSend(more)
    requires Run(c, s, more).s.pc.SIdle? && Run(c, s, more).s.result == Sent
    ensures var t := Run(c, s, more);
            && |t.published| == s.s.base + 1 && t.published[s.s.base] == s.s.payload
            && (Covered(t, s.s.base) <==> NoClose(BeforeStore(more)))
  {
    ReachableInv(c, s);
    CoveredRun(c, s, more);
    CallRun(c, s, more);
    RunInv(c, s, more);
    SentCounts(c, Run(c, s, more));
  }

  /** What being covered is worth: once a receive has reported the terminal cause, the record
      has been taken, whole or discarded by the caller's own choice of buffer. */
  lemma {:induction false} CoveredIsTaken(c: Config, s: State, k: nat)
    requires Reachable(c, s) && k < |s.published| && Covered(s, k)
    requires s.v.result == RecvFailed(ChannelClosed) || s.v.result == RecvFailed(PeerGone)
    ensures k < |s.consumed| <= |s.published| && Matches(s.consumed[k], s.published[k])
  {
    ReachableInv(c, s);
  }

  /** ... and over the state word alone: a channel connected at some point is still connected
      after any run if and only if nobody closed it or latched a death in that run. */
  lemma {:induction false} ConnectedIff(c: Config, s: State, more: seq<Action>)
    requires Reachable(c, s) && s.st == Connected && Schedule(c, s, more)
    ensures Run(c, s, more).st == Connected <==> NoClose(more)
  {
    ReachableInv(c, s);
    StaysConnected(c, s, more);
  }
}
