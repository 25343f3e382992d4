// The Windows asynchronous wait: `WaitChanged` arms `parked` and polls an
// AsyncWaitState that a thread-pool callback signals. The peer stores its cursor,
// bumps the 32-bit notify word, loads `parked` and sets the event; `wake_all` bumps
// and sets the event without looking; the pool consumes the event and runs the
// callback. Every shared access is a step; any number of loads, event sets and
// callbacks may be in flight, and a task may poll spuriously.
module WindowsPoll {
  import opened Words

  type Task = nat

  /** The future between and during polls. */
  datatype Pos =
    | Idle               // no future, nothing snapshotted
    | Snapped            // notify word snapshotted, the awaited condition not yet looked at again
    | Looked             // ... looked at again
    | Start              // about to load the notify word
    | Arm                // not armed: about to set `parked`
    | Swap1              // poll: first swap of `signaled`
    | Keep               // poll: store the waker under its lock
    | Swap2              // poll: second swap of `signaled`
    | Pending            // returned Poll::Pending
    | Clear1(done: bool) // disarm: clear `signaled`
    | Clear2(done: bool) // disarm: drop the stored waker
    | Clear3(done: bool) // disarm: parked = 0

  /** How the last future ended, if it has. */
  datatype End = NotYet | Completed | Dropped

  /** `notify` counts bumps; the word is `Wrap32(notify)`, and `observed` the count at the
      snapshot. `loaded`, `setting`: parties about to load `parked` and about to set the
      event. `entered`, `reading`: callbacks about to store `signaled` and about to read the
      stored waker. `waking`: wakers read and about to be called. `woken`: tasks whose waker
      was called since their last poll began.
      `stores` counts the peer's cursor stores, the last of them not yet bumped if `stored`;
      `released` how many of them this side has answered by its own, so that at most `cap`
      (n/8, the frames a ring can hold) are outstanding; `looked` how many there were when the
      awaited condition was last looked at; `alls` the runs of `wake_all`. */
  datatype State = State(notify: nat, parked: bool, event: bool, signaled: bool, waker: set<Task>,
                         pos: Pos, observed: nat, armed: bool, task: Task,
                         loaded: nat, setting: nat, entered: nat, reading: nat,
                         waking: set<Task>, woken: set<Task>,
                         stores: nat, stored: bool, released: nat, looked: nat, alls: nat, cap: nat,
                         ended: End)

  datatype Action =
    // the waiting side
    | Release | Snapshot | Look | LookAway | New | Poll(task: Task) | LoadNotify | ArmParked | FirstSwap | KeepWaker
    | SecondSwap | Drop | ClearSignal | ClearWaker | ClearParked
    // the peer, and whoever runs wake_all
    | StoreCursor | Bump | LoadParked | SetEvent | AllBump
    // the thread pool and its callbacks
    | Consume | Signal | ReadWaker | CallWaker(w: Task)

  predicate Initial(s: State) {
    && s.pos == Idle && !s.parked && !s.armed && s.waker == {} && s.waking == {}
    && s.loaded == 0 && s.setting == 0 && s.entered == 0 && s.reading == 0
    && s.notify == 0 && s.stores == 0 && !s.stored && s.released == 0 && s.alls == 0
    && s.cap <= 0x8000_0000 / 8 && s.ended == NotYet
  }

  predicate Enabled(s: State, a: Action) {
    match a
    case Release => s.pos.Idle? && s.released < s.stores
    case Snapshot => s.pos.Idle?
    case Look => s.pos.Snapped? || s.pos.Looked?
    case LookAway => s.pos.Looked?
    case New => s.pos.Looked?
    case Poll(_) => s.pos.Pending?
    case LoadNotify => s.pos.Start?
    case ArmParked => s.pos.Arm?
    case FirstSwap => s.pos.Swap1?
    case KeepWaker => s.pos.Keep?
    case SecondSwap => s.pos.Swap2?
    case Drop => s.pos.Pending?
    case ClearSignal => s.pos.Clear1?
    case ClearWaker => s.pos.Clear2?
    case ClearParked => s.pos.Clear3?
    case StoreCursor => !s.stored && s.stores < s.released + s.cap
    case Bump => s.stored
    case AllBump => s.alls < 2
    case LoadParked => s.loaded > 0
    case SetEvent => s.setting > 0
    case Consume => s.event
    case Signal => s.entered > 0
    case ReadWaker => s.reading > 0
    case CallWaker(w) => w in s.waking
  }

  function Step(s: State, a: Action): State
    requires Enabled(s, a)
  {
    match a
    case Release => s.(released := s.released + 1)
    case Snapshot => s.(pos := Snapped, observed := s.notify, ended := NotYet)
    case Look => s.(pos := Looked, looked := s.stores)
    case LookAway => s.(pos := Idle)
    case New => s.(pos := Start, armed := false)
    case Poll(task) => s.(pos := Start, task := task, woken := s.woken - {task})
    case LoadNotify =>
      if Wrap32(s.notify) != Wrap32(s.observed) then
        if s.armed then s.(pos := Clear1(true)) else s.(pos := Idle, ended := Completed)
      else s.(pos := if s.armed then Swap1 else Arm)
    case ArmParked => s.(pos := Start, parked := true, armed := true)
    case FirstSwap => s.(signaled := false, pos := if s.signaled then Start else Keep)
    case KeepWaker => s.(waker := {s.task}, pos := Swap2)
    case SecondSwap =>
      if s.signaled then s.(signaled := false, waker := {}, pos := Start) else s.(pos := Pending)
    case Drop => if s.armed then s.(pos := Clear1(false)) else s.(pos := Idle, ended := Dropped)
    case ClearSignal => s.(signaled := false, pos := Clear2(s.pos.done))
    case ClearWaker => s.(waker := {}, pos := Clear3(s.pos.done))
    case ClearParked =>
      s.(parked := false, armed := false, pos := Idle, ended := if s.pos.done then Completed else Dropped)
    case StoreCursor => s.(stores := s.stores + 1, stored := true)
    case Bump => s.(notify := s.notify + 1, stored := false, loaded := s.loaded + 1)
    case AllBump => s.(notify := s.notify + 1, alls := s.alls + 1, setting := s.setting + 1)
    case LoadParked => s.(loaded := s.loaded - 1, setting := if s.parked then s.setting + 1 else s.setting)
    case SetEvent => s.(setting := s.setting - 1, event := true)
    case Consume => s.(event := false, entered := s.entered + 1)
    case Signal => s.(entered := s.entered - 1, signaled := true, reading := s.reading + 1)
    case ReadWaker => s.(reading := s.reading - 1, waking := s.waking + s.waker)
    case CallWaker(w) => s.(waking := s.waking - {w}, woken := s.woken + {w})
  }

  predicate Schedule(s: State, acts: seq<Action>)
    decreases |acts|
  {
    acts == [] || (Enabled(s, acts[0]) && Schedule(Step(s, acts[0]), acts[1..]))
  }

  function Run(s: State, acts: seq<Action>): State
    requires Schedule(s, acts)
    decreases |acts|
  {
    if acts == [] then s else Run(Step(s, acts[0]), acts[1..])
  }

  // ----- invariant -----

  predicate Clearing(p: Pos) { p.Clear1? || p.Clear2? || p.Clear3? }

  /** A signal for the current bump is on its way to `signaled`. */
  predicate Coming(s: State) { s.loaded > 0 || s.setting > 0 || s.event || s.entered > 0 }

  /** ... or has been stored there. */
  predicate Arriving(s: State) { Coming(s) || s.signaled }

  /** The current task's waker will be, or has been, called. */
  predicate WakeOwed(s: State) {
    Coming(s) || s.reading > 0 || s.task in s.waking || s.task in s.woken
  }

  /** Between the snapshot and the end of the wait at most `cap + 3` bumps happen. */
  predicate Counts(s: State) { Tally(s) && Bounded(s) }

  predicate Tally(s: State) {
    && s.cap <= 0x8000_0000 / 8 && s.alls <= 2
    && s.released <= s.stores <= s.released + s.cap
    && (s.stored ==> s.stores > 0)
    && s.notify == s.stores - (if s.stored then 1 else 0) + s.alls
  }

  predicate Bounded(s: State) {
    && (!s.pos.Idle? ==> s.observed <= s.notify && s.released <= s.observed + 1)
    && (s.pos.Snapped? ==> s.observed <= s.stores + s.alls)
    && (!s.pos.Idle? && !s.pos.Snapped? ==> s.observed <= s.looked + s.alls)
  }

  predicate Waits(s: State) {
    && (s.parked <==> s.armed)
    && (s.pos.Idle? || s.pos.Snapped? || s.pos.Looked? || s.pos.Arm? ==> !s.armed)
    && (s.pos.Swap1? || s.pos.Keep? || s.pos.Swap2? || s.pos.Pending? || Clearing(s.pos) ==> s.armed)
    && (s.pos.Swap2? || s.pos.Pending? ==> s.waker == {s.task})
    // Once armed, a bump seen by a later load of the notify word is also on its way as a signal.
    && (s.pos.Swap1? || s.pos.Keep? || s.pos.Swap2? ==> s.notify != s.observed ==> Arriving(s))
    && (s.pos.Pending? ==> s.notify != s.observed ==> WakeOwed(s))
  }

  /** A wait that completed, or is about to, saw a bump. */
  predicate Saw(s: State) {
    && (s.ended == Completed ==> s.observed < s.notify)
    && (Clearing(s.pos) && s.pos.done ==> s.observed < s.notify)
    && (!s.pos.Idle? ==> s.ended == NotYet)
  }

  predicate Inv(s: State) { Counts(s) && Waits(s) && Saw(s) }

  lemma {:induction false} StepSaw(s: State, a: Action)
    requires Saw(s) && Enabled(s, a) && (!s.pos.Idle? ==> s.observed <= s.notify)
    ensures Saw(Step(s, a))
  {
  }

  lemma {:induction false} StepTally(s: State, a: Action)
    requires Tally(s) && Enabled(s, a)
    ensures Tally(Step(s, a))
  {
  }

  /** The actions that count, look or snapshot. */
  predicate Counting(a: Action) {
    a.Snapshot? || a.Look? || a.Release? || a.StoreCursor? || a.Bump? || a.AllBump?
  }

  /** A signal on its way to the task. */
  predicate Signalling(a: Action) {
    a.LoadParked? || a.SetEvent? || a.Consume? || a.Signal? || a.ReadWaker? || a.CallWaker?
  }

  /** The counts are as they were, and no wait has begun. */
  predicate SameCounts(s: State, t: State) {
    && t.notify == s.notify && t.observed == s.observed && t.released == s.released
    && t.stores == s.stores && t.looked == s.looked && t.alls == s.alls
    && (s.pos.Idle? ==> t.pos.Idle?) && (t.pos.Snapped? ==> s.pos.Snapped?)
    && (!t.pos.Idle? && !t.pos.Snapped? ==> !s.pos.Snapped?)
  }

  lemma {:induction false} SignalsCountNothing(s: State, a: Action)
    requires Enabled(s, a) && Signalling(a)
    ensures SameCounts(s, Step(s, a))
  {
  }

  lemma {:induction false} PollsCountNothing(s: State, a: Action)
    requires Enabled(s, a) && !Counting(a) && !Signalling(a)
    ensures SameCounts(s, Step(s, a))
  {
  }

  lemma {:induction false} StepBounded(s: State, a: Action)
    requires Tally(s) && Bounded(s) && Enabled(s, a)
    ensures Bounded(Step(s, a))
  {
    if Signalling(a) {
      SignalsCountNothing(s, a);
    } else if !Counting(a) {
      PollsCountNothing(s, a);
    }
  }

  /** The 32-bit comparison is exact: the words are equal only if no bump came between. */
  lemma {:induction false} WordsTellBumps(s: State)
    requires Counts(s) && !s.pos.Idle?
    ensures s.notify <= s.observed + s.cap + 3
    ensures Wrap32(s.notify) == Wrap32(s.observed) <==> s.notify == s.observed
  {
    WordsDistinct(s.observed, s.notify);
  }

  lemma {:induction false} StepWaits(s: State, a: Action)
    requires Waits(s) && Enabled(s, a)
    requires !s.pos.Idle? ==> (Wrap32(s.notify) == Wrap32(s.observed) <==> s.notify == s.observed)
    ensures Waits(Step(s, a))
  {
  }

  lemma {:induction false} StepInv(s: State, a: Action)
    requires Inv(s) && Enabled(s, a)
    ensures Inv(Step(s, a))
  {
    if !s.pos.Idle? { WordsTellBumps(s); }
    StepTally(s, a);
    StepBounded(s, a);
    StepWaits(s, a);
    StepSaw(s, a);
  }

  lemma {:induction false} RunInv(s: State, acts: seq<Action>)
    requires Inv(s) && Schedule(s, acts)
    ensures Inv(Run(s, acts))
    decreases |acts|
  {
    if acts != [] {
      StepInv(s, acts[0]);
      RunInv(Step(s, acts[0]), acts[1..]);
    }
  }

  // ----- theorems -----

  /** The poll never sleeps through a signal: whenever it has returned Pending and the notify
      word has moved on, some publisher, the event, a callback, or a waker already read is
      still due to wake exactly the task that polled, or has already done so. And the word
      tells: for as long as a future waits, equal words mean that no bump happened at all. */
  lemma {:induction false} PendingIsWoken(s: State, acts: seq<Action>)
    requires Initial(s) && Schedule(s, acts)
    ensures var t := Run(s, acts);
            && (!t.pos.Idle? ==> (Wrap32(t.notify) == Wrap32(t.observed) <==> t.notify == t.observed))
            && (t.pos.Pending? && Wrap32(t.notify) != Wrap32(t.observed) ==>
                  t.parked && t.waker == {t.task} && WakeOwed(t))
  {
    RunInv(s, acts);
    if !Run(s, acts).pos.Idle? { WordsTellBumps(Run(s, acts)); }
  }

  /** A wait completes only for a bump: whenever the last future completed, rather than being
      dropped, the count is past the one it observed; and the load that decides it tells, by
      the 32-bit word, exactly whether that is so. */
  lemma {:induction false} CompletesOnlyForABump(s: State, acts: seq<Action>)
    requires Initial(s) && Schedule(s, acts)
    ensures var t := Run(s, acts);
            && (t.ended == Completed ==> t.observed < t.notify)
            && (t.pos.Start? ==>
                  var u := Step(t, LoadNotify);
                  (u.ended == Completed || Clearing(u.pos)) <==> t.observed < t.notify)
  {
    RunInv(s, acts);
    if !Run(s, acts).pos.Idle? { WordsTellBumps(Run(s, acts)); }
  }

  /** ... and once there is a bump the next poll does complete, on its own, unparked. */
  function Completing(s: State): seq<Action> {
    [LoadNotify] + (if s.armed then [ClearSignal] + ([ClearWaker] + ([ClearParked] + [])) else [])
  }

  lemma {:induction false} CompletesWhenBumped(s: State)
    requires Waits(s) && s.pos.Start? && Wrap32(s.notify) != Wrap32(s.observed)
    ensures Schedule(s, Completing(s))
    ensures var t := Run(s, Completing(s)); t.pos.Idle? && t.ended == Completed && !t.parked
  {
    var s1 := Step(s, LoadNotify);
    if s.armed {
      var s2 := Step(s1, ClearSignal);
      var s3 := Step(s2, ClearWaker);
      JourneyStep(s3, ClearParked, []);
      JourneyStep(s2, ClearWaker, [ClearParked] + []);
      JourneyStep(s1, ClearSignal, [ClearWaker] + ([ClearParked] + []));
      JourneyStep(s, LoadNotify, [ClearSignal] + ([ClearWaker] + ([ClearParked] + [])));
    } else {
      JourneyStep(s, LoadNotify, []);
    }
  }

  /** The steps of an undisturbed first poll, once armed. */
  function Settling(s: State): seq<Action> {
    (if s.signaled then [LoadNotify] + ([FirstSwap] + []) else [])
    + ([LoadNotify] + ([FirstSwap] + ([KeepWaker] + ([SecondSwap] + []))))
  }

  lemma {:induction false} Settles(s: State)
    requires s.pos.Start? && s.armed && s.parked && s.notify == s.observed
    ensures Schedule(s, Settling(s))
    ensures var t := Run(s, Settling(s)); t.pos.Pending? && t.parked && t.waker == {t.task}
    decreases s.signaled
  {
    var s1 := Step(s, LoadNotify);
    var s2 := Step(s1, FirstSwap);
    if s.signaled {
      Settles(s2);
      JourneyStep(s1, FirstSwap, Settling(s2));
      JourneyStep(s, LoadNotify, [FirstSwap] + Settling(s2));
      assert Settling(s) == [LoadNotify] + ([FirstSwap] + Settling(s2));
    } else {
      var s3 := Step(s2, KeepWaker);
      JourneyStep(s3, SecondSwap, []);
      JourneyStep(s2, KeepWaker, [SecondSwap] + []);
      JourneyStep(s1, FirstSwap, [KeepWaker] + ([SecondSwap] + []));
      JourneyStep(s, LoadNotify, [FirstSwap] + ([KeepWaker] + ([SecondSwap] + [])));
      assert Settling(s) == [LoadNotify] + ([FirstSwap] + ([KeepWaker] + ([SecondSwap] + [])));
    }
  }

  /** With no bump since its snapshot an undisturbed poll does go to sleep: it ends Pending,
      parked, its waker stored. */
  lemma {:induction false} QuietPollPends(s: State)
    requires s.pos.Looked? && s.notify == s.observed
    ensures var armed := s.(pos := Start, armed := true, parked := true);
            var acts := [New] + ([LoadNotify] + ([ArmParked] + Settling(armed)));
            && Schedule(s, acts)
            && Run(s, acts).pos.Pending? && Run(s, acts).parked && Run(s, acts).waker == {s.task}
  {
    var s1 := Step(s, New);
    var s2 := Step(s1, LoadNotify);
    var s3 := Step(s2, ArmParked);
    Settles(s3);
    TaskStays(s3, Settling(s3));
    JourneyStep(s2, ArmParked, Settling(s3));
    JourneyStep(s1, LoadNotify, [ArmParked] + Settling(s3));
    JourneyStep(s, New, [LoadNotify] + ([ArmParked] + Settling(s3)));
  }

  /** In particular some run of a fresh wait reaches Pending. */
  lemma {:induction false} SomeRunPends(s: State)
    requires Initial(s)
    ensures exists acts :: Schedule(s, acts) && Run(s, acts).pos.Pending?
  {
    var s1 := Step(s, Snapshot);
    var s2 := Step(s1, Look);
    QuietPollPends(s2);
    var rest := [New] + ([LoadNotify] + ([ArmParked] + Settling(s2.(pos := Start, armed := true, parked := true))));
    JourneyStep(s1, Look, rest);
    JourneyStep(s, Snapshot, [Look] + rest);
  }

  lemma {:induction false} TaskStays(s: State, acts: seq<Action>)
    requires Schedule(s, acts) && forall i | 0 <= i < |acts| :: !acts[i].Poll?
    ensures Run(s, acts).task == s.task
    decreases |acts|
  {
    if acts != [] { TaskStays(Step(s, acts[0]), acts[1..]); }
  }

  /** Every way out of a wait, completion or drop, leaves `parked` clear. */
  lemma {:induction false} DisarmedIsUnparked(s: State, acts: seq<Action>)
    requires Initial(s) && Schedule(s, acts)
    ensures Run(s, acts).pos.Idle? ==> !Run(s, acts).parked && !Run(s, acts).armed
  {
    RunInv(s, acts);
  }

  /** The rest of a signal's journey from where the furthest one stands to the task. */
  function Journey(s: State): seq<Action> {
    var w := CallWaker(s.task);
    if s.task in s.waking then [w]
    else if s.reading > 0 then [ReadWaker, w]
    else if s.entered > 0 then [Signal, ReadWaker, w]
    else if s.event then [Consume, Signal, ReadWaker, w]
    else if s.setting > 0 then [SetEvent, Consume, Signal, ReadWaker, w]
    else [LoadParked, SetEvent, Consume, Signal, ReadWaker, w]
  }

  lemma {:induction false} JourneyStep(s: State, a: Action, rest: seq<Action>)
    requires Enabled(s, a) && Schedule(Step(s, a), rest)
    ensures Schedule(s, [a] + rest) && Run(s, [a] + rest) == Run(Step(s, a), rest)
  {
    var p := [a] + rest;
    assert p[0] == a && p[1..] == rest;
  }

  /** How far the furthest signal still is from the task. */
  function Stage(s: State): nat {
    if s.task in s.waking then 0 else if s.reading > 0 then 1 else if s.entered > 0 then 2
    else if s.event then 3 else if s.setting > 0 then 4 else 5
  }

  /** A wake is due and has not reached the task. */
  predicate OnItsWay(s: State) {
    s.pos.Pending? && s.parked && s.waker == {s.task} && WakeOwed(s) && s.task !in s.woken
  }

  lemma {:induction false} JourneyFirst(s: State)
    requires OnItsWay(s) && Stage(s) > 0
    ensures Enabled(s, Journey(s)[0])
    ensures var t := Step(s, Journey(s)[0]);
            OnItsWay(t) && Stage(t) < Stage(s) && Journey(s) == [Journey(s)[0]] + Journey(t)
  {
  }

  lemma {:induction false} JourneyWakes(s: State)
    requires OnItsWay(s)
    ensures Schedule(s, Journey(s)) && s.task in Run(s, Journey(s)).woken
    decreases Stage(s)
  {
    var a := Journey(s)[0];
    if Stage(s) == 0 {
      JourneyStep(s, a, []);
      assert Journey(s) == [a] + [];
    } else {
      JourneyFirst(s);
      JourneyWakes(Step(s, a));
      JourneyStep(s, a, Journey(Step(s, a)));
    }
  }

  /** ... and that wake needs no one's help: at most six enabled steps of publishers, the pool
      and callbacks reach the task. */
  lemma {:induction false} PendingWakesSoon(s: State, acts: seq<Action>)
    requires Initial(s) && Schedule(s, acts)
    ensures var t := Run(s, acts);
            t.pos.Pending? && Wrap32(t.notify) != Wrap32(t.observed) && t.task !in t.woken ==>
              |Journey(t)| <= 6 && Schedule(t, Journey(t)) && t.task in Run(t, Journey(t)).woken
  {
    RunInv(s, acts);
    var t := Run(s, acts);
    if t.pos.Pending? && Wrap32(t.notify) != Wrap32(t.observed) && t.task !in t.woken { JourneyWakes(t); }
  }

  lemma {:induction false} BumpStarts(s: State)
    requires Counts(s) && Waits(s) && s.pos.Pending? && s.stored
    ensures Enabled(s, Bump) && s.parked && s.waker == {s.task}
    ensures var t := Step(s, Bump);
            WakeOwed(t) && t == s.(notify := s.notify + 1, stored := false, loaded := s.loaded + 1)
  {
  }

  /** A store made after the condition was last looked at is never slept through: the word has
      moved since the snapshot, or that store's own bump is due. */
  lemma {:induction false} StoreShows(s: State)
    requires Counts(s) && s.pos.Pending? && s.stores > s.looked
    ensures s.notify != s.observed || s.stored
  {
  }

  /** End to end: if a future is Pending and the peer has stored its cursor since the awaited
      condition was last looked at, then at most seven enabled steps of the peer, the pool and
      callbacks wake the task, unless it has been woken already. */
  lemma {:induction false} StoreWakes(s: State, acts: seq<Action>)
    requires Initial(s) && Schedule(s, acts)
    ensures var t := Run(s, acts);
            t.pos.Pending? && t.stores > t.looked && t.task !in t.woken ==>
              exists plan :: |plan| <= 7 && Schedule(t, plan) && t.task in Run(t, plan).woken
  {
    RunInv(s, acts);
    var t := Run(s, acts);
    if t.pos.Pending? && t.stores > t.looked && t.task !in t.woken {
      StoreShows(t);
      if t.notify != t.observed {
        JourneyWakes(t);
        assert |Journey(t)| <= 6;
      } else {
        BumpStarts(t);
        var u := Step(t, Bump);
        JourneyWakes(u);
        JourneyStep(t, Bump, Journey(u));
        assert |[Bump] + Journey(u)| <= 7;
      }
    }
  }
}
