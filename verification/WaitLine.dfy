// One notify line: the `notify` word, the `parked` flag, and the parties around
// it. A waiter snapshots, parks, re-checks and sleeps; a publisher stores its
// cursor, bumps, loads `parked` and wakes; `wake_all` (run once after Connected
// and once after the terminal transition) bumps and wakes unconditionally.
module WaitLine {
  import opened Words

  /** Futex: compare-and-sleep on the word. Event: an auto-reset event that stays set. */
  datatype Platform = Futex | Event

  /** The waiter, with the notify count it snapshotted. */
  datatype WaitPos =
    | Away
    | Snapped(snap: nat)  // word read, `parked` not yet set
    | Parked(snap: nat)   // `parked` = 1, re-check in progress
    | Ready(snap: nat)    // re-check was negative, about to sleep
    | Asleep(snap: nat)
    | Roused              // awake again, `parked` not yet cleared

  datatype WakePos = Quiet | Stored | Bumped | Waking

  datatype AllPos = NotDue | DueBump | DueWake | Done

  datatype AllKind = OnConnect | OnTerminal

  /** `count` is the number of bumps so far; the 32-bit word is `Wrap32(count)`. */
  datatype Line = Line(count: nat, parked: bool, event: bool, waiter: WaitPos, waker: WakePos,
                       conn: AllPos, term: AllPos)

  function Word(l: Line): nat { Wrap32(l.count) }

  predicate HasSnap(l: Line) {
    l.waiter.Snapped? || l.waiter.Parked? || l.waiter.Ready? || l.waiter.Asleep?
  }

  // ----- publisher side -----

  function Store(l: Line): Line { l.(waker := Stored) }

  function Bump(l: Line): Line { l.(waker := Bumped, count := l.count + 1) }

  function LoadParked(l: Line): Line { l.(waker := if l.parked then Waking else Quiet) }

  /** The wake call itself: a sleeping waiter is roused; otherwise an event stays set
      and a futex wake is lost. */
  function Rouse(l: Line, pf: Platform): Line {
    if l.waiter.Asleep? then l.(waiter := Roused)
    else if pf == Event then l.(event := true)
    else l
  }

  function Wake(l: Line, pf: Platform): Line { Rouse(l.(waker := Quiet), pf) }

  // ----- wake_all -----

  function AllAt(l: Line, k: AllKind): AllPos { if k == OnConnect then l.conn else l.term }

  function SetAll(l: Line, k: AllKind, p: AllPos): Line {
    if k == OnConnect then l.(conn := p) else l.(term := p)
  }

  function AllBump(l: Line, k: AllKind): Line { SetAll(l, k, DueWake).(count := l.count + 1) }

  function AllWake(l: Line, k: AllKind, pf: Platform): Line { Rouse(SetAll(l, k, Done), pf) }

  // ----- waiter side -----

  function Snapshot(l: Line): Line { l.(waiter := Snapped(l.count)) }

  function Park(l: Line): Line
    requires l.waiter.Snapped?
  {
    l.(waiter := Parked(l.waiter.snap), parked := true)
  }

  function GoReady(l: Line): Line
    requires l.waiter.Parked?
  {
    l.(waiter := Ready(l.waiter.snap))
  }

  /** Compare-and-sleep on the 32-bit words, or consume a set event. */
  function Sleep(l: Line, pf: Platform): Line
    requires l.waiter.Ready?
  {
    match pf
    case Futex =>
      if Wrap32(l.count) == Wrap32(l.waiter.snap) then l.(waiter := Asleep(l.waiter.snap))
      else l.(waiter := Roused)
    case Event =>
      if l.event then l.(waiter := Roused, event := false)
      else l.(waiter := Asleep(l.waiter.snap))
  }

  function Expire(l: Line): Line { l.(waiter := Roused) }

  /** Clear `parked` if this waiter set it, and stop waiting. */
  function Leave(l: Line): Line {
    if l.waiter.Parked? || l.waiter.Roused? then l.(waiter := Away, parked := false) else l.(waiter := Away)
  }

  // ----- invariants -----

  /** `parked` is exactly "the waiter has set it and not cleared it"; a snapshot is never ahead. */
  predicate LineOk(l: Line) {
    && (l.parked <==> l.waiter.Parked? || l.waiter.Ready? || l.waiter.Asleep? || l.waiter.Roused?)
    && (HasSnap(l) ==> l.waiter.snap <= l.count)
  }

  predicate Due(p: AllPos) { p.DueBump? || p.DueWake? }

  /** Some party still has a step ahead of it that will wake this line's sleeper. */
  predicate Owed(l: Line) { !l.waker.Quiet? || Due(l.conn) || Due(l.term) }

  /** The waiter cannot fall asleep unnoticed: the sleep test will fail or a wake is owed. */
  predicate Hot(l: Line, pf: Platform) {
    match pf
    case Futex => l.waker.Stored? || l.conn.DueBump? || l.term.DueBump? || (HasSnap(l) && l.count > l.waiter.snap)
    case Event => Owed(l) || l.event
  }

  /** Once hot, a parked waiter's line stays hot whatever the other parties do. */
  lemma {:induction false} HotStable(l: Line, pf: Platform, k: AllKind)
    requires LineOk(l) && Hot(l, pf) && (l.waiter.Parked? || l.waiter.Ready?)
    ensures Hot(Store(l), pf)
    ensures l.waker.Stored? ==> Hot(Bump(l), pf)
    ensures l.waker.Bumped? ==> Hot(LoadParked(l), pf)
    ensures l.waker.Waking? ==> Hot(Wake(l, pf), pf)
    ensures AllAt(l, k).DueBump? ==> Hot(AllBump(l, k), pf)
    ensures AllAt(l, k).DueWake? ==> Hot(AllWake(l, k, pf), pf)
    ensures AllAt(l, k).NotDue? ==> Hot(SetAll(l, k, DueBump), pf)
    ensures l.waiter.Parked? ==> Hot(GoReady(l), pf)
  {
  }

  /** The sleep test lets a hot waiter fall asleep only while a wake is still owed. */
  lemma {:induction false} HotSleep(l: Line, pf: Platform)
    requires LineOk(l) && Hot(l, pf) && l.waiter.Ready? && l.count < l.waiter.snap + WORD
    ensures Sleep(l, pf).waiter.Asleep? ==> Owed(Sleep(l, pf))
  {
    WordsDistinct(l.waiter.snap, l.count);
  }

  /** A debt to a sleeper is only ever discharged by waking it. */
  lemma {:induction false} OwedStable(l: Line, pf: Platform, k: AllKind)
    requires LineOk(l) && Owed(l) && l.waiter.Asleep?
    ensures Owed(Store(l))
    ensures l.waker.Stored? ==> Owed(Bump(l))
    ensures l.waker.Bumped? ==> Owed(LoadParked(l))
    ensures l.waker.Waking? ==> Wake(l, pf).waiter.Roused?
    ensures AllAt(l, k).DueBump? ==> Owed(AllBump(l, k))
    ensures AllAt(l, k).DueWake? ==> AllWake(l, k, pf).waiter.Roused?
    ensures AllAt(l, k).NotDue? ==> Owed(SetAll(l, k, DueBump))
  {
  }

  /** `m` is `l` after at most one step of anyone but the waiter. */
  predicate ByOthers(l: Line, m: Line, pf: Platform) {
    || m == l
    || m == Store(l)
    || (l.waker.Stored? && m == Bump(l))
    || (l.waker.Bumped? && m == LoadParked(l))
    || (l.waker.Waking? && m == Wake(l, pf))
    || AllMoves(l, m, OnConnect, pf)
    || AllMoves(l, m, OnTerminal, pf)
  }

  /** ... that step being one of the `wake_all` run for `k`. */
  predicate AllMoves(l: Line, m: Line, k: AllKind, pf: Platform) {
    || (AllAt(l, k).NotDue? && m == SetAll(l, k, DueBump))
    || (AllAt(l, k).DueBump? && m == AllBump(l, k))
    || (AllAt(l, k).DueWake? && m == AllWake(l, k, pf))
  }

  /** A change has just been made that this line's waiter will not miss. */
  predicate Alarmed(l: Line, pf: Platform) { Hot(l, pf) && Owed(l) }

  /** Whoever makes a condition true raises the alarm in the same step. */
  lemma {:induction false} ChangeAlarms(l: Line, pf: Platform, k: AllKind)
    ensures Alarmed(Store(l), pf) && Alarmed(SetAll(l, k, DueBump), pf)
  {
  }

  /** Nobody but the waiter can let an alarm be slept through: a hot line stays hot until the
      waiter sleeps, and a sleeper who is owed a wake is owed it until roused. */
  lemma {:induction false} OthersKeepAlarm(l: Line, m: Line, pf: Platform)
    requires LineOk(l) && ByOthers(l, m, pf)
    ensures LineOk(m)
    ensures m.waiter == l.waiter || (l.waiter.Asleep? && m.waiter.Roused?)
    ensures Hot(l, pf) && (l.waiter.Parked? || l.waiter.Ready?) ==> Hot(m, pf)
    ensures Owed(l) && l.waiter.Asleep? ==> m.waiter.Roused? || Owed(m)
  {
    if Hot(l, pf) && (l.waiter.Parked? || l.waiter.Ready?) {
      HotStable(l, pf, OnConnect);
      HotStable(l, pf, OnTerminal);
    }
    if Owed(l) && l.waiter.Asleep? {
      OwedStable(l, pf, OnConnect);
      OwedStable(l, pf, OnTerminal);
    }
  }

  /** Every debt is paid within three steps of the debtor. */
  lemma {:induction false} DebtIsPaid(l: Line, pf: Platform)
    requires LineOk(l) && Owed(l) && l.waiter.Asleep?
    ensures l.waker.Stored? ==> Wake(LoadParked(Bump(l)), pf).waiter.Roused?
    ensures l.waker.Bumped? ==> LoadParked(l).waker.Waking? && Wake(LoadParked(l), pf).waiter.Roused?
    ensures l.waker.Waking? ==> Wake(l, pf).waiter.Roused?
    ensures l.waker.Quiet? ==> exists k :: AllAt(l, k).DueBump? || AllAt(l, k).DueWake?
    ensures forall k :: AllAt(l, k).DueBump? ==> AllWake(AllBump(l, k), k, pf).waiter.Roused?
    ensures forall k :: AllAt(l, k).DueWake? ==> AllWake(l, k, pf).waiter.Roused?
  {
    if l.waker.Quiet? {
      assert AllAt(l, if Due(l.conn) then OnConnect else OnTerminal) == if Due(l.conn) then l.conn else l.term;
    }
  }
}
