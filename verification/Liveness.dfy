// Bounded detection of peer death, in a timed model. Any number of blocked callers
// share one channel authority: each wakes, runs the liveness part of `check_ready`
// access by access, and sleeps again for at most a quantum. Time passes only while
// every caller sleeps; computation itself takes no time.
module Liveness {
  import opened States

  const LIVENESS_QUANTUM: nat := 250
  const PROBE_INTERVAL: nat := 100

  datatype Pos =
    | Check                          // first load of the state word
    | Compare                        // read the clock, compare with next_probe_ms
    | Lock(at: nat)                  // waiting for the monitor lock
    | Observe(at: nat)               // inside the lock: ask whether the peer lives
    | Store(at: nat, alive: bool)    // inside the lock: push next_probe_ms
    | Final                          // terminal() on the way out
    | Continue                       // check passed; the awaited condition is still false
    | Asleep(until: nat)
    | Ended(error: Error)

  datatype State = State(now: nat, st: ChannelState, nextProbe: nat, lock: Option<nat>,
                         alive: bool, death: nat, callers: seq<Pos>)

  datatype Action =
    | Tick(d: nat)                   // time passes
    | Die                            // the peer process ends
    | CloseBy(cause: ChannelState)   // someone else latches a terminal cause
    | Go(i: nat, until: nat)         // caller i takes its next step

  predicate Initial(s: State) {
    s.st == Connected && s.lock == None && s.alive && s.nextProbe <= s.now + PROBE_INTERVAL
    && forall i | 0 <= i < |s.callers| :: s.callers[i] == Check
  }

  predicate Resting(p: Pos) { p.Asleep? || p.Ended? }

  predicate Enabled(s: State, a: Action) {
    match a
    case Tick(d) =>
      forall i | 0 <= i < |s.callers| ::
        Resting(s.callers[i]) && (s.callers[i].Asleep? ==> s.now + d <= s.callers[i].until)
    case Die => s.alive
    case CloseBy(cause) => Terminal(cause) && !Terminal(s.st)
    case Go(i, until) =>
      && i < |s.callers| && !s.callers[i].Ended?
      && (s.callers[i].Lock? ==> s.lock == None)
      && (s.callers[i].Continue? ==> s.now <= until <= s.now + LIVENESS_QUANTUM)
  }

  function Put(s: State, i: nat, p: Pos): State
    requires i < |s.callers|
  {
    s.(callers := s.callers[i := p])
  }

  function GoStep(s: State, i: nat, until: nat): State
    requires i < |s.callers|
  {
    match s.callers[i]
    case Check => Put(s, i, if s.st == Connected then Compare else Ended(CauseOf(s.st)))
    case Compare => Put(s, i, if s.now >= s.nextProbe then Lock(s.now) else Final)
    case Lock(at) =>
      if at < s.nextProbe then Put(s, i, Final)
      else if Terminal(s.st) then Put(s, i, Ended(CauseOf(s.st)))
      else Put(s.(lock := Some(i)), i, Observe(at))
    case Observe(at) =>
      Put(if s.alive || Terminal(s.st) then s else s.(st := PeerDisconnected), i, Store(at, s.alive))
    case Store(at, _) => Put(s.(nextProbe := at + PROBE_INTERVAL, lock := None), i, Final)
    case Final => Put(s, i, if Terminal(s.st) then Ended(CauseOf(s.st)) else Continue)
    case Continue => Put(s, i, Asleep(until))
    case Asleep(_) => Put(s, i, Check)
    case Ended(_) => s
  }

  function Step(s: State, a: Action): State
    requires Enabled(s, a)
  {
    match a
    case Tick(d) => s.(now := s.now + d)
    case Die => s.(alive := false, death := s.now)
    case CloseBy(cause) => s.(st := cause)
    case Go(i, until) => GoStep(s, i, until)
  }

  predicate Schedule(s: State, acts: seq<Action>)
    decreases |acts|
  {
    acts == [] || (Enabled(s, acts[0]) && Schedule(Step(s, acts[0]), acts[1..]))
  }

  function Run(s: State, acts: seq<Action>): State
    requires Schedule(s, acts)
    decreases |acts|
  {
    if acts == [] then s else Run(Step(s, acts[0]), acts[1..])
  }

  // ----- invariant -----

  /** A caller on its way out of a check is protected: the cause is latched, or the death is
      so recent that the sleep it may start ends in time. */
  predicate Recent(s: State) { s.alive || s.now < s.death + PROBE_INTERVAL }

  predicate CallerOk(s: State, i: nat, p: Pos) {
    && ((p.Observe? || p.Store?) <==> s.lock == Some(i))
    && (!p.Ended? && !s.alive ==> s.now <= s.death + PROBE_INTERVAL + LIVENESS_QUANTUM)
    && match p
       case Lock(at) => at == s.now
       case Observe(at) => at == s.now && s.nextProbe <= at
       case Store(at, alive) =>
         && at == s.now && s.nextProbe <= at
         && (if alive then s.alive || s.now <= s.death else Terminal(s.st))
       case Final => Recent(s) || Terminal(s.st)
       case Continue => Recent(s)
       case Asleep(until) =>
         && s.now <= until <= s.now + LIVENESS_QUANTUM
         && (!s.alive ==> until <= s.death + PROBE_INTERVAL + LIVENESS_QUANTUM)
       case Ended(e) => Terminal(s.st) && e == CauseOf(s.st)
       case _ => true
  }

  predicate SharedOk(s: State) {
    && (s.st == Connected || Terminal(s.st))
    && (s.alive ==> s.nextProbe <= s.now + PROBE_INTERVAL)
    && (!s.alive ==> s.death <= s.now)
    && (!s.alive && !Terminal(s.st) ==> s.nextProbe <= s.death + PROBE_INTERVAL)
    && (s.lock.Some? ==> s.lock.value < |s.callers|)
  }

  ghost predicate Inv(s: State) {
    SharedOk(s) && forall i | 0 <= i < |s.callers| :: CallerOk(s, i, s.callers[i])
  }

  /** What one caller's step leaves alone for the others. */
  predicate Kind(s: State, t: State, i: nat) {
    && t.now == s.now && t.alive == s.alive && t.death == s.death
    && (t.st == s.st || (!Terminal(s.st) && Terminal(t.st)))
    && (t.lock == s.lock || (s.lock == None && t.lock == Some(i)) || (s.lock == Some(i) && t.lock == None))
    && (t.nextProbe == s.nextProbe || s.lock == Some(i))
  }

  lemma {:induction false} OwnStep(s: State, i: nat, until: nat)
    requires SharedOk(s) && i < |s.callers| && CallerOk(s, i, s.callers[i]) && Enabled(s, Go(i, until))
    ensures var t := GoStep(s, i, until);
            && SharedOk(t) && Kind(s, t, i) && CallerOk(t, i, t.callers[i])
            && t.callers == s.callers[i := t.callers[i]]
  {
  }

  lemma {:induction false} OtherStable(s: State, t: State, i: nat, j: nat, p: Pos)
    requires Kind(s, t, i) && i != j && CallerOk(s, j, p)
    ensures CallerOk(t, j, p)
  {
  }

  lemma {:induction false} StepInv(s: State, a: Action)
    requires Inv(s) && Enabled(s, a)
    ensures Inv(Step(s, a))
  {
    var t := Step(s, a);
    match a
    case Go(i, until) =>
      OwnStep(s, i, until);
      forall j | 0 <= j < |t.callers| ensures CallerOk(t, j, t.callers[j]) {
        if j != i { OtherStable(s, t, i, j, s.callers[j]); }
      }
    case Tick(d) =>
      forall j | 0 <= j < |t.callers| ensures CallerOk(t, j, t.callers[j]) {
        assert CallerOk(s, j, s.callers[j]);
      }
    case _ =>
      forall j | 0 <= j < |t.callers| ensures CallerOk(t, j, t.callers[j]) {
        assert CallerOk(s, j, s.callers[j]);
      }
  }

  lemma {:induction false} RunInv(s: State, acts: seq<Action>)
    requires Inv(s) && Schedule(s, acts)
    ensures Inv(Run(s, acts))
    decreases |acts|
  {
    if acts != [] {
      StepInv(s, acts[0]);
      RunInv(Step(s, acts[0]), acts[1..]);
    }
  }

  // ----- theorems -----

  /** Any call blocked when the peer dies has ended, with the latched terminal cause, by the
      time 350 ms have passed since the death; on every schedule, for any number of callers
      sharing the probe throttle. */
  lemma {:induction false} DeathDetectedInTime(s: State, acts: seq<Action>, i: nat)
    requires Initial(s) && Schedule(s, acts) && i < |Run(s, acts).callers|
    ensures var t := Run(s, acts);
            !t.alive && t.now > t.death + 350 ==>
              Terminal(t.st) && t.callers[i] == Ended(CauseOf(t.st))
  {
    RunInv(s, acts);
    assert CallerOk(Run(s, acts), i, Run(s, acts).callers[i]);
  }

  /** Each completed probe pushes `next_probe_ms` strictly later, whichever caller ran it. */
  lemma {:induction false} ProbesAdvance(s: State, acts: seq<Action>, i: nat, until: nat)
    requires Initial(s) && Schedule(s, acts)
    ensures var t := Run(s, acts);
            i < |t.callers| && t.callers[i].Store? ==> GoStep(t, i, until).nextProbe > t.nextProbe
  {
    RunInv(s, acts);
    if i < |Run(s, acts).callers| { assert CallerOk(Run(s, acts), i, Run(s, acts).callers[i]); }
  }

  /** Nobody declares a live peer dead: a step of a caller moves the state word only to
      PeerDisconnected, and only if the peer is dead. */
  lemma {:induction false} NoFalseDeath(s: State, i: nat, until: nat)
    requires Enabled(s, Go(i, until)) && GoStep(s, i, until).st != s.st
    ensures !s.alive && GoStep(s, i, until).st == PeerDisconnected
  {
  }

  predicate NobodyCloses(acts: seq<Action>) { forall i | 0 <= i < |acts| :: !acts[i].CloseBy? }

  lemma {:induction false} AliveBefore(s: State, acts: seq<Action>)
    requires Schedule(s, acts) && Run(s, acts).alive
    ensures s.alive
    decreases |acts|
  {
    if acts != [] { AliveBefore(Step(s, acts[0]), acts[1..]); }
  }

  /** ... so over every run in which nobody closes and the peer lives, the channel stays
      connected and no caller's call ends. */
  lemma {:induction false} HealthyStaysUp(s: State, acts: seq<Action>, i: nat)
    requires Initial(s) && Schedule(s, acts) && NobodyCloses(acts) && Run(s, acts).alive
    requires i < |Run(s, acts).callers|
    ensures Run(s, acts).st == Connected && !Run(s, acts).callers[i].Ended?
  {
    HealthyRun(s, acts);
    RunInv(s, acts);
    assert CallerOk(Run(s, acts), i, Run(s, acts).callers[i]);
  }

  lemma {:induction false} HealthyRun(s: State, acts: seq<Action>)
    requires s.st == Connected && Schedule(s, acts) && NobodyCloses(acts) && Run(s, acts).alive
    ensures Run(s, acts).st == Connected
    decreases |acts|
  {
    if acts != [] {
      AliveBefore(s, acts);
      if acts[0].Go? && Step(s, acts[0]).st != s.st { NoFalseDeath(s, acts[0].i, acts[0].until); }
      HealthyRun(Step(s, acts[0]), acts[1..]);
    }
  }

  lemma {:induction false} ThrottleRises(s: State, acts: seq<Action>)
    requires Inv(s) && Schedule(s, acts)
    ensures s.nextProbe <= Run(s, acts).nextProbe
    decreases |acts|
  {
    if acts != [] {
      StepInv(s, acts[0]);
      if acts[0].Go? { assert CallerOk(s, acts[0].i, s.callers[acts[0].i]); }
      ThrottleRises(Step(s, acts[0]), acts[1..]);
    }
  }

  /** The rate limit: after one caller's completed probe no caller observes the peer again
      for a whole probe interval. */
  lemma {:induction false} ProbesAreSpaced(s: State, acts: seq<Action>, i: nat, until: nat, more: seq<Action>, j: nat)
    requires Initial(s) && Schedule(s, acts) && i < |Run(s, acts).callers| && Run(s, acts).callers[i].Store?
    requires Enabled(Run(s, acts), Go(i, until)) && Schedule(GoStep(Run(s, acts), i, until), more)
    requires j < |Run(GoStep(Run(s, acts), i, until), more).callers|
    requires Run(GoStep(Run(s, acts), i, until), more).callers[j].Observe?
    ensures Run(GoStep(Run(s, acts), i, until), more).now >= Run(s, acts).now + PROBE_INTERVAL
  {
    RunInv(s, acts);
    var t := Run(s, acts);
    assert CallerOk(t, i, t.callers[i]);
    var u := GoStep(t, i, until);
    StepInv(t, Go(i, until));
    ThrottleRises(u, more);
    RunInv(u, more);
    assert CallerOk(Run(u, more), j, Run(u, more).callers[j]);
  }

  // ----- time passes: the bound is reached -----

  /** How many steps caller `p` is from a rest that outlasts `now`. */
  function Distance(p: Pos, now: nat): nat {
    match p
    case Asleep(until) => if now < until then 0 else 8
    case Check => 7
    case Compare => 6
    case Lock(_) => 5
    case Observe(_) => 4
    case Store(_, _) => 3
    case Final => 2
    case Continue => 1
    case Ended(_) => 0
  }

  function Total(callers: seq<Pos>, now: nat): nat {
    if callers == [] then 0 else Distance(callers[0], now) + Total(callers[1..], now)
  }

  lemma {:induction false} TotalAt(callers: seq<Pos>, now: nat, i: nat, p: Pos)
    requires i < |callers|
    ensures Total(callers[i := p], now) + Distance(callers[i], now) == Total(callers, now) + Distance(p, now)
  {
    if i == 0 {
      assert callers[0 := p][1..] == callers[1..];
    } else {
      assert callers[i := p][1..] == callers[1..][i - 1 := p];
      TotalAt(callers[1..], now, i - 1, p);
    }
  }

  lemma {:induction false} AllRested(callers: seq<Pos>, now: nat)
    requires Total(callers, now) == 0
    ensures forall i | 0 <= i < |callers| :: Distance(callers[i], now) == 0
  {
    if callers != [] { AllRested(callers[1..], now); }
  }

  lemma {:induction false} SomeoneRestless(callers: seq<Pos>, now: nat) returns (i: nat)
    requires Total(callers, now) > 0
    ensures i < |callers| && Distance(callers[i], now) > 0
  {
    if Distance(callers[0], now) > 0 {
      i := 0;
    } else {
      var j := SomeoneRestless(callers[1..], now);
      i := j + 1;
    }
  }

  /** Someone can step towards a rest; a caller waiting for the lock waits for one that can. */
  lemma {:induction false} SomeoneSteps(s: State) returns (i: nat)
    requires Inv(s) && Total(s.callers, s.now) > 0
    ensures Enabled(s, Go(i, s.now + LIVENESS_QUANTUM))
    ensures Distance(s.callers[i], s.now) > 0
  {
    i := SomeoneRestless(s.callers, s.now);
    if s.callers[i].Lock? && s.lock.Some? {
      i := s.lock.value;
      assert CallerOk(s, i, s.callers[i]);
    }
  }

  lemma {:induction false} StepRests(s: State, i: nat)
    requires i < |s.callers| && Distance(s.callers[i], s.now) > 0
    ensures var t := GoStep(s, i, s.now + LIVENESS_QUANTUM);
            && t.now == s.now && t.callers == s.callers[i := t.callers[i]]
            && Distance(t.callers[i], s.now) < Distance(s.callers[i], s.now)
  {
  }

  /** Without any time passing, every caller can be brought to rest. */
  lemma {:induction false} ComeToRest(s: State) returns (acts: seq<Action>)
    requires Inv(s)
    ensures Schedule(s, acts) && Inv(Run(s, acts))
    ensures Run(s, acts).now == s.now && Total(Run(s, acts).callers, s.now) == 0
    decreases Total(s.callers, s.now)
  {
    if Total(s.callers, s.now) == 0 {
      acts := [];
    } else {
      var i := SomeoneSteps(s);
      var a := Go(i, s.now + LIVENESS_QUANTUM);
      StepRests(s, i);
      TotalAt(s.callers, s.now, i, Step(s, a).callers[i]);
      StepInv(s, a);
      var rest := ComeToRest(Step(s, a));
      acts := [a] + rest;
    }
  }

  lemma {:induction false} Chain(s: State, first: seq<Action>, rest: seq<Action>)
    requires Schedule(s, first) && Schedule(Run(s, first), rest)
    ensures Schedule(s, first + rest) && Run(s, first + rest) == Run(Run(s, first), rest)
    decreases |first|
  {
    if first == [] {
      assert first + rest == rest;
    } else {
      Chain(Step(s, first[0]), first[1..], rest);
      assert (first + rest)[1..] == first[1..] + rest;
    }
  }

  /** From any state satisfying the invariant some schedule lets `d` milliseconds pass. */
  lemma {:induction false} LetTimePass(s: State, d: nat) returns (acts: seq<Action>)
    requires Inv(s)
    ensures Schedule(s, acts) && Run(s, acts).now == s.now + d
    decreases d
  {
    if d == 0 {
      acts := [];
    } else {
      var first := ComeToRest(s);
      var t := Run(s, first);
      AllRested(t.callers, t.now);
      assert Enabled(t, Tick(1));
      StepInv(t, Tick(1));
      var rest := LetTimePass(Step(t, Tick(1)), d - 1);
      assert ([Tick(1)] + rest)[1..] == rest;
      Chain(s, first, [Tick(1)] + rest);
      acts := first + ([Tick(1)] + rest);
    }
  }

  /** The bound is not vacuous: from every reachable state, and for every d, some schedule
      lets d milliseconds pass, so the time by which a death must be noticed does come. */
  lemma {:induction false} TimeAlwaysPasses(s: State, acts: seq<Action>, d: nat)
    requires Initial(s) && Schedule(s, acts)
    ensures exists more :: Schedule(Run(s, acts), more) && Run(Run(s, acts), more).now == Run(s, acts).now + d
  {
    RunInv(s, acts);
    var more := LetTimePass(Run(s, acts), d);
  }
}
