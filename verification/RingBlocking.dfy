// Blocking really blocks: undisturbed, a receive on an empty ring and a send into a
// full one look twice, park, look again, and fall asleep with `parked` set.
module RingBlocking {
  import opened Frames
  import opened States
  import opened WaitLine
  import opened RingMachine
  import opened RingTheorems
  import opened RingLink

  // ----- the receiver -----

  /** A connected direction with nothing to read. */
  predicate NothingThere(c: Config, s: State) {
    c.n == |s.mem| > 0 && s.st == Connected && s.wc - s.v.cachedRc < HEADER
  }

  /** One look at an empty ring: peek, readiness, and readiness confirmed. */
  const Look: seq<Action> := [RLoadWc, RReady(false), RConfirm]

  lemma {:induction false} LookFindsNothing(c: Config, s: State)
    requires NothingThere(c, s) && s.v.pc == RPeek(None)
    ensures Schedule(c, s, Look) && Run(c, s, Look) == Jump(s, RNone)
  {
    ThreeSteps(c, s, RLoadWc, RReady(false), RConfirm);
  }

  lemma {:induction false} ThenLook(c: Config, s: State, a: Action)
    requires Enabled(c, s, a) && NothingThere(c, Step(c, s, a)) && Step(c, s, a).v.pc == RPeek(None)
    ensures Schedule(c, s, [a] + Look) && Run(c, s, [a] + Look) == Jump(Step(c, s, a), RNone)
  {
    LookFindsNothing(c, Step(c, s, a));
    Unroll(c, s, a, Look);
  }

  lemma {:induction false} Falls(c: Config, s: State)
    requires c.n == |s.mem| > 0 && s.v.pc.RNone? && s.w.waiter.Parked?
    ensures Schedule(c, s, [RGoSleep, RCompareSleep])
    ensures Run(c, s, [RGoSleep, RCompareSleep]).w == Sleep(GoReady(s.w), c.pf)
  {
    TwoSteps(c, s, RGoSleep, RCompareSleep);
  }

  /** From the first empty look to sleep. */
  const Wait: seq<Action> := ([RSnapshot] + Look) + (([RPark] + Look) + [RGoSleep, RCompareSleep])

  lemma {:induction false} ParksToSleep(c: Config, s: State)
    requires NothingThere(c, s) && s.v.pc == RNone && s.w.waiter.Snapped? && !s.w.event
    requires c.pf == Futex ==> s.w.count == s.w.waiter.snap
    ensures Schedule(c, s, ([RPark] + Look) + [RGoSleep, RCompareSleep])
    ensures var t := Run(c, s, ([RPark] + Look) + [RGoSleep, RCompareSleep]); t.w.waiter.Asleep? && t.w.parked
  {
    ThenLook(c, s, RPark);
    Falls(c, Run(c, s, [RPark] + Look));
    Then(c, s, [RPark] + Look, [RGoSleep, RCompareSleep]);
  }

  lemma {:induction false} WaitsInVain(c: Config, s: State)
    requires NothingThere(c, s) && s.v.pc == RNone && s.w.waiter.Away? && !s.w.event
    ensures Schedule(c, s, Wait)
    ensures var t := Run(c, s, Wait); t.w.waiter.Asleep? && t.w.parked
  {
    ThenLook(c, s, RSnapshot);
    ParksToSleep(c, Run(c, s, [RSnapshot] + Look));
    Then(c, s, [RSnapshot] + Look, ([RPark] + Look) + [RGoSleep, RCompareSleep]);
  }

  /** A receive on an empty, connected, quiet ring falls asleep, parked. */
  lemma {:induction false} QuietReceiverSleeps(c: Config, s: State, cap: Option<nat>)
    requires NothingThere(c, s) && s.v.pc.RIdle? && s.w.waiter.Away? && !s.w.event
    ensures Schedule(c, s, ([RCall(cap)] + Look) + Wait)
    ensures var t := Run(c, s, ([RCall(cap)] + Look) + Wait); t.w.waiter.Asleep? && t.w.parked
  {
    ThenLook(c, s, RCall(cap));
    WaitsInVain(c, Run(c, s, [RCall(cap)] + Look));
    Then(c, s, [RCall(cap)] + Look, Wait);
  }

  /** A non-blocking receive there says so instead. */
  lemma {:induction false} QuietTryFindsEmpty(c: Config, s: State)
    requires NothingThere(c, s) && s.v.pc.RIdle? && s.w.waiter.Away?
    ensures Schedule(c, s, ([RCall(None)] + Look) + ([REmpty] + []))
    ensures var t := Run(c, s, ([RCall(None)] + Look) + ([REmpty] + []));
            t.v.pc.RIdle? && t.v.result == RecvResult.Empty
  {
    ThenLook(c, s, RCall(None));
    Unroll(c, Run(c, s, [RCall(None)] + Look), REmpty, []);
    Then(c, s, [RCall(None)] + Look, [REmpty] + []);
  }

  // ----- the sender -----

  /** A connected direction without the room for the current payload, as the sender will see. */
  predicate Crowded(c: Config, s: State) {
    c.n == |s.mem| > 0 && s.st == Connected && !Fits(c, s, s.rc)
  }

  /** One look by the wait's condition. */
  const Glance: seq<Action> := [SReady(false), SConfirm, SReload]

  lemma {:induction false} GlanceFindsNothing(c: Config, s: State)
    requires Crowded(c, s) && s.s.pc == SCheck && s.s.waiting
    ensures Schedule(c, s, Glance) && Run(c, s, Glance) == Goto(s, SNone)
  {
    ThreeSteps(c, s, SReady(false), SConfirm, SReload);
  }

  lemma {:induction false} ThenGlance(c: Config, s: State, a: Action)
    requires Enabled(c, s, a) && Crowded(c, Step(c, s, a)) && Step(c, s, a).s.pc == SCheck && Step(c, s, a).s.waiting
    ensures Schedule(c, s, [a] + Glance) && Run(c, s, [a] + Glance) == Goto(Step(c, s, a), SNone)
  {
    GlanceFindsNothing(c, Step(c, s, a));
    Unroll(c, s, a, Glance);
  }

  lemma {:induction false} SenderFalls(c: Config, s: State)
    requires c.n == |s.mem| > 0 && s.s.pc.SNone? && s.s.waiting && s.r.waiter.Parked?
    ensures Schedule(c, s, [SGoSleep, SCompareSleep])
    ensures Run(c, s, [SGoSleep, SCompareSleep]).r == Sleep(GoReady(s.r), c.pf)
  {
    TwoSteps(c, s, SGoSleep, SCompareSleep);
  }

  const Attempt: seq<Action> := [SReady(false), SConfirm, STry] + ([SRefresh] + [])

  /** The attempt of a call finds neither its cached nor a fresh read cursor of use. */
  lemma {:induction false} AttemptIsFull(c: Config, s: State)
    requires Crowded(c, s) && s.s.pc == SCheck && !s.s.waiting && !Fits(c, s, s.s.cachedRc)
    ensures Schedule(c, s, Attempt)
    ensures Run(c, s, Attempt) == s.(s := s.s.(pc := SNone, cachedRc := s.rc))
  {
    ThreeSteps(c, s, SReady(false), SConfirm, STry);
    var t := Run(c, s, [SReady(false), SConfirm, STry]);
    Unroll(c, t, SRefresh, []);
    Then(c, s, [SReady(false), SConfirm, STry], [SRefresh] + []);
  }

  /** From Full to sleep. */
  const Block: seq<Action> :=
    ([SWaitStart] + Glance) + (([SSnapshot] + Glance) + (([SPark] + Glance) + [SGoSleep, SCompareSleep]))

  lemma {:induction false} BlocksParked(c: Config, s: State)
    requires Crowded(c, s) && s.s.pc == SNone && s.s.waiting && s.r.waiter.Snapped? && !s.r.event
    requires c.pf == Futex ==> s.r.count == s.r.waiter.snap
    ensures Schedule(c, s, ([SPark] + Glance) + [SGoSleep, SCompareSleep])
    ensures var t := Run(c, s, ([SPark] + Glance) + [SGoSleep, SCompareSleep]); t.r.waiter.Asleep? && t.r.parked
  {
    ThenGlance(c, s, SPark);
    SenderFalls(c, Run(c, s, [SPark] + Glance));
    Then(c, s, [SPark] + Glance, [SGoSleep, SCompareSleep]);
  }

  lemma {:induction false} BlocksWaiting(c: Config, s: State)
    requires Crowded(c, s) && s.s.pc == SNone && s.s.waiting && s.r.waiter.Away? && !s.r.event
    ensures var acts := ([SSnapshot] + Glance) + (([SPark] + Glance) + [SGoSleep, SCompareSleep]);
            && Schedule(c, s, acts)
            && Run(c, s, acts).r.waiter.Asleep? && Run(c, s, acts).r.parked
  {
    ThenGlance(c, s, SSnapshot);
    BlocksParked(c, Run(c, s, [SSnapshot] + Glance));
    Then(c, s, [SSnapshot] + Glance, ([SPark] + Glance) + [SGoSleep, SCompareSleep]);
  }

  lemma {:induction false} BlocksInVain(c: Config, s: State)
    requires Crowded(c, s) && s.s.pc == SNone && !s.s.waiting && s.r.waiter.Away? && !s.r.event
    ensures Schedule(c, s, Block)
    ensures Run(c, s, Block).r.waiter.Asleep? && Run(c, s, Block).r.parked
  {
    ThenGlance(c, s, SWaitStart);
    BlocksWaiting(c, Run(c, s, [SWaitStart] + Glance));
    Then(c, s, [SWaitStart] + Glance, ([SSnapshot] + Glance) + (([SPark] + Glance) + [SGoSleep, SCompareSleep]));
  }

  /** A blocking send into a connected, quiet ring without the room falls asleep, parked. */
  lemma {:induction false} QuietSenderSleeps(c: Config, s: State, p: Payload)
    requires c.n == |s.mem| > 0 && s.st == Connected && s.s.pc.SIdle? && s.r.waiter.Away? && !s.r.event
    requires HEADER + |p| <= c.n && s.s.cachedRc <= s.rc && s.s.cachedWc + HEADER + |p| > s.rc + c.n
    ensures Schedule(c, s, ([SCall(p)] + Attempt) + Block)
    ensures var t := Run(c, s, ([SCall(p)] + Attempt) + Block); t.r.waiter.Asleep? && t.r.parked
  {
    AttemptIsFull(c, Step(c, s, SCall(p)));
    Unroll(c, s, SCall(p), Attempt);
    BlocksInVain(c, Run(c, s, [SCall(p)] + Attempt));
    Then(c, s, [SCall(p)] + Attempt, Block);
  }

  /** A non-blocking send there says Full instead. */
  lemma {:induction false} QuietTryFindsFull(c: Config, s: State, p: Payload)
    requires c.n == |s.mem| > 0 && s.st == Connected && s.s.pc.SIdle?
    requires HEADER + |p| <= c.n && s.s.cachedRc <= s.rc && s.s.cachedWc + HEADER + |p| > s.rc + c.n
    ensures Schedule(c, s, ([SCall(p)] + Attempt) + ([SFull] + []))
    ensures var t := Run(c, s, ([SCall(p)] + Attempt) + ([SFull] + [])); t.s.pc.SIdle? && t.s.result == Full
  {
    AttemptIsFull(c, Step(c, s, SCall(p)));
    Unroll(c, s, SCall(p), Attempt);
    Unroll(c, Run(c, s, [SCall(p)] + Attempt), SFull, []);
    Then(c, s, [SCall(p)] + Attempt, [SFull] + []);
  }
}
