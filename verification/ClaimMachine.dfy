// The life of the state word with any number of competing parties: the creating
// server, openers running the claim protocol, closers and death observers running
// `finish`, and waiters running `check_ready`, which may retire an unready channel
// or read the peer's identity. Every load, store and compare-exchange is a step.
module ClaimMachine {
  import opened States

  type Id = nat

  datatype Identity = Identity(pid: nat, birth: nat)

  datatype Outcome =
    | NotYet                  // try_open: Ok(None); check_ready: Ok(false)
    | Opened(me: Identity)
    | ClosedOk                // close() = Ok
    | Done                    // finish() returns nothing
    | Saw(peer: Identity)     // check_ready went on to open a monitor for this identity
    | Failed(error: Error)

  datatype Pc =
    // try_open
    | OLoad(me: Identity) | OClaim(me: Identity) | OPid(me: Identity) | OBirth(me: Identity) | OPublish(me: Identity)
    // finish, and close = finish(Closed) followed by terminal()
    | FLoad(cause: ChannelState, closing: bool)
    | FCas(cause: ChannelState, current: ChannelState, closing: bool)
    | CTerminal
    // check_ready; `tries` counts failed compare-exchanges
    | KLoad(tries: nat) | KCas(seen: ChannelState, tries: nat) | KPid | KBirth(pid: nat)
    | Finished(outcome: Outcome)

  /** `winner`, `connected` and `retiredBy` are history. `creator` counts the creator's stores. */
  datatype State = State(st: ChannelState, pid: nat, birth: nat, creator: nat, actors: map<Id, Pc>,
                         winner: Option<Id>, winnerId: Identity, connected: bool, retiredBy: Option<Id>)

  datatype Action = Create | Start(i: Id, pc: Pc) | Act(i: Id, flag: bool)

  /** A fresh mapping: the words hold whatever the file held. */
  predicate Initial(s: State) {
    && s.st == Init && s.creator == 0 && s.actors == map[]
    && s.winner == None && !s.connected && s.retiredBy == None
  }

  /** Parties may arrive at any time; those needing an owned channel, only once it is published. */
  predicate Fresh(s: State, pc: Pc) {
    || pc.OLoad?
    || (pc.FLoad? && Terminal(pc.cause) && (pc.closing ==> pc.cause == Closed) && s.st != Init)
    || (pc.KLoad? && pc.tries == 0 && s.st != Init)
  }

  predicate Enabled(s: State, a: Action) {
    match a
    case Create => s.creator < 3
    case Start(i, pc) => i !in s.actors && Fresh(s, pc)
    case Act(i, _) => i in s.actors && !s.actors[i].Finished?
  }

  function Put(s: State, i: Id, pc: Pc): State { s.(actors := s.actors[i := pc]) }

  function Lost(actual: ChannelState): Pc {
    Finished(Failed(if actual == PeerDisconnected then PeerGone else ChannelClosed))
  }

  /** One step of party `i`. `flag` resolves the environment: header valid, compare-exchange
      weak success, or timeout expired. */
  function ActStep(s: State, i: Id, flag: bool): State
    requires i in s.actors
  {
    match s.actors[i]
    case OLoad(me) =>
      Put(s, i, match s.st
                case ServerReady => if flag then OClaim(me) else Finished(Failed(InvalidHeader))
                case Init => Finished(NotYet)
                case PeerDisconnected => Finished(Failed(PeerGone))
                case _ => Finished(Failed(ChannelClosed)))
    case OClaim(me) =>
      if s.st == ServerReady then Put(s.(st := ClientClaimed, winner := Some(i), winnerId := me), i, OPid(me))
      else Put(s, i, Lost(s.st))
    case OPid(me) => Put(s.(pid := me.pid), i, OBirth(me))
    case OBirth(me) => Put(s.(birth := me.birth), i, OPublish(me))
    case OPublish(me) =>
      if s.st == ClientClaimed then Put(s.(st := Connected, connected := true), i, Finished(Opened(me)))
      else Put(s, i, Lost(s.st))
    case FLoad(cause, closing) => Put(s, i, FCas(cause, s.st, closing))
    case FCas(cause, current, closing) =>
      if Terminal(current) then Put(s, i, if closing then CTerminal else Finished(Done))
      else if s.st == current && flag then
        Put(s.(st := cause), i, if closing then CTerminal else Finished(Done))
      else Put(s, i, FCas(cause, s.st, closing))
    case CTerminal =>
      Put(s, i, if s.st == Closed then Finished(ClosedOk)
                else if s.st == PeerDisconnected then Finished(Failed(PeerGone))
                else if s.st == Init then Finished(Failed(InvalidHeader))
                else Finished(Done))
    case KLoad(tries) =>
      Put(s, i, if s.st == Connected then KPid
                else if !Unready(s.st) then Finished(Failed(CauseOf(s.st)))
                else if flag then KCas(s.st, tries)
                else Finished(NotYet))
    case KCas(seen, tries) =>
      if s.st == seen then Put(s.(st := Closed, retiredBy := Some(i)), i, Finished(Failed(Retired)))
      else Put(s, i, KLoad(tries + 1))
    case KPid => Put(s, i, KBirth(s.pid))
    case KBirth(pid) => Put(s, i, Finished(Saw(Identity(pid, s.birth))))
    case Finished(_) => s
  }

  function Step(s: State, a: Action): State
    requires Enabled(s, a)
  {
    match a
    case Create =>
      if s.creator == 0 then s.(pid := 0, creator := 1)
      else if s.creator == 1 then s.(birth := 0, creator := 2)
      else s.(st := ServerReady, creator := 3)
    case Start(i, pc) => Put(s, i, pc)
    case Act(i, flag) => ActStep(s, i, flag)
  }

  predicate Schedule(s: State, acts: seq<Action>)
    decreases |acts|
  {
    acts == [] || (Enabled(s, acts[0]) && Schedule(Step(s, acts[0]), acts[1..]))
  }

  function Run(s: State, acts: seq<Action>): State
    requires Schedule(s, acts)
    decreases |acts|
  {
    if acts == [] then s else Run(Step(s, acts[0]), acts[1..])
  }

  // ----- invariant -----

  /** What one party's program counter says about the shared words. */
  predicate PartyOk(s: State, i: Id, pc: Pc) {
    match pc
    case OLoad(_) => s.winner != Some(i)
    case OClaim(_) => s.winner != Some(i)
    case OPid(me) => s.winner == Some(i) && s.winnerId == me && !s.connected
    case OBirth(me) => s.winner == Some(i) && s.winnerId == me && !s.connected && s.pid == me.pid
    case OPublish(me) =>
      s.winner == Some(i) && s.winnerId == me && !s.connected && s.pid == me.pid && s.birth == me.birth
    case FLoad(cause, closing) => Terminal(cause) && s.st != Init && (closing ==> cause == Closed)
    case FCas(cause, current, closing) =>
      && Terminal(cause) && s.st != Init && current != Init && (closing ==> cause == Closed)
      && (Terminal(current) ==> s.st == current)
    case CTerminal => Terminal(s.st)
    case KLoad(tries) => tries + 1 <= Rank(s.st)
    case KCas(seen, tries) => Unready(seen) && tries + 1 <= Rank(seen) <= Rank(s.st)
    case KPid => s.connected
    case KBirth(pid) => s.connected && pid == s.pid
    case Finished(Opened(me)) => s.connected && s.winner == Some(i) && s.winnerId == me
    case Finished(ClosedOk) => s.st == Closed
    case Finished(Saw(peer)) => s.connected && peer == s.winnerId
    case Finished(Failed(PeerGone)) => s.st == PeerDisconnected
    case Finished(Failed(Retired)) => s.retiredBy == Some(i)
    case _ => true
  }

  predicate WordOk(s: State) {
    && (s.st == Init <==> s.creator < 3)
    && s.creator <= 3
    && (s.st == ClientClaimed ==> s.winner.Some? && !s.connected)
    && (s.st == ServerReady || s.st == Init ==> s.winner == None && !s.connected)
    && (s.st == Connected ==> s.connected)
    && (s.connected ==> s.winner.Some? && s.pid == s.winnerId.pid && s.birth == s.winnerId.birth)
    && (s.retiredBy.Some? ==> s.st == Closed && !s.connected)
    && (s.connected ==> Rank(s.st) >= 3)
    && (s.winner.Some? ==> s.winner.value in s.actors)
    && (s.winner.None? && s.creator >= 1 ==> s.pid == 0)
    && (s.winner.None? && s.creator >= 2 ==> s.birth == 0)
  }

  predicate Inv(s: State) {
    WordOk(s) && forall i | i in s.actors :: PartyOk(s, i, s.actors[i])
  }

  /** How the shared words may change under one step of another party. */
  predicate Moves(s: State, t: State) {
    && (t.st == s.st || Edge(s.st, t.st))
    && (s.winner.Some? ==> t.winner == s.winner && t.winnerId == s.winnerId)
    && (s.connected ==> t.connected && t.pid == s.pid && t.birth == s.birth)
    && (s.retiredBy.Some? ==> t.retiredBy == s.retiredBy)
  }

  /** What one step of party `i` must keep for everyone and establish for itself. */
  predicate Kept(s: State, t: State, i: Id)
    requires i in s.actors
  {
    && WordOk(t) && Moves(s, t) && (t.winner == s.winner || t.winner == Some(i))
    && t.actors.Keys == s.actors.Keys && t.actors == s.actors[i := t.actors[i]] && PartyOk(t, i, t.actors[i])
    && (s.winner != Some(i) && s.winner.Some? ==>
          t.pid == s.pid && t.birth == s.birth && t.connected == s.connected)
  }

  predicate IsOpener(pc: Pc) { pc.OLoad? || pc.OClaim? || pc.OPid? || pc.OBirth? || pc.OPublish? }

  predicate IsFinisher(pc: Pc) { pc.FLoad? || pc.FCas? || pc.CTerminal? }

  lemma {:induction false} OpenerStep(s: State, i: Id, flag: bool)
    requires WordOk(s) && i in s.actors && PartyOk(s, i, s.actors[i]) && IsOpener(s.actors[i])
    ensures Kept(s, ActStep(s, i, flag), i)
  {
  }

  lemma {:induction false} FinisherStep(s: State, i: Id, flag: bool)
    requires WordOk(s) && i in s.actors && PartyOk(s, i, s.actors[i]) && IsFinisher(s.actors[i])
    ensures Kept(s, ActStep(s, i, flag), i)
  {
  }

  lemma {:induction false} CheckerStep(s: State, i: Id, flag: bool)
    requires WordOk(s) && i in s.actors && PartyOk(s, i, s.actors[i])
    requires !IsOpener(s.actors[i]) && !IsFinisher(s.actors[i])
    ensures Kept(s, ActStep(s, i, flag), i)
  {
  }

  /** A party that does not step keeps its claims true under any other party's step. */
  lemma {:induction false} OtherStable(s: State, t: State, i: Id, j: Id, pc: Pc)
    requires WordOk(s) && WordOk(t) && PartyOk(s, j, pc) && Moves(s, t) && i != j
    requires t.winner == s.winner || t.winner == Some(i)
    requires s.winner != Some(i) && s.winner.Some? ==>
               t.pid == s.pid && t.birth == s.birth && t.connected == s.connected
    ensures PartyOk(t, j, pc)
  {
  }

  lemma {:induction false} StepInv(s: State, a: Action)
    requires Inv(s) && Enabled(s, a)
    ensures Inv(Step(s, a)) && Moves(s, Step(s, a))
  {
    var t := Step(s, a);
    match a
    case Act(i, flag) =>
      if IsOpener(s.actors[i]) {
        OpenerStep(s, i, flag);
      } else if IsFinisher(s.actors[i]) {
        FinisherStep(s, i, flag);
      } else {
        CheckerStep(s, i, flag);
      }
      forall j | j in t.actors ensures PartyOk(t, j, t.actors[j]) {
        if j != i { OtherStable(s, t, i, j, s.actors[j]); }
      }
    case Start(i, pc) =>
      forall j | j in t.actors ensures PartyOk(t, j, t.actors[j]) {
        if j != i { assert PartyOk(s, j, s.actors[j]); }
      }
    case Create =>
      forall j | j in t.actors ensures PartyOk(t, j, t.actors[j]) {
        assert PartyOk(s, j, s.actors[j]);
      }
  }

  ghost predicate Reachable(t: State) {
    exists s, acts :: Initial(s) && Schedule(s, acts) && t == Run(s, acts)
  }

  lemma {:induction false} RunInv(s: State, acts: seq<Action>)
    requires Inv(s) && Schedule(s, acts)
    ensures Inv(Run(s, acts)) && Forward(s.st, Run(s, acts).st)
    ensures Terminal(s.st) ==> Run(s, acts).st == s.st
    ensures s.winner.Some? ==> Run(s, acts).winner == s.winner && Run(s, acts).winnerId == s.winnerId
    ensures s.connected ==> Run(s, acts).connected
    ensures s.retiredBy.Some? ==> Run(s, acts).retiredBy == s.retiredBy
    decreases |acts|
  {
    if acts != [] {
      StepInv(s, acts[0]);
      RunInv(Step(s, acts[0]), acts[1..]);
    }
  }

  lemma {:induction false} ReachableInv(t: State)
    requires Reachable(t)
    ensures Inv(t)
  {
    var s, acts :| Initial(s) && Schedule(s, acts) && t == Run(s, acts);
    RunInv(s, acts);
  }

  // ----- theorems -----

  /** The state word only climbs Init < ServerReady < ClientClaimed < Connected < terminal,
      one legal edge per step, and the first terminal cause is never replaced. */
  lemma {:induction false} StateOnlyClimbs(s: State, more: seq<Action>)
    requires Reachable(s) && Schedule(s, more)
    ensures Forward(s.st, Run(s, more).st)
    ensures Terminal(s.st) ==> Run(s, more).st == s.st
    ensures |more| == 1 ==> Run(s, more).st == s.st || Edge(s.st, Run(s, more).st)
  {
    ReachableInv(s);
    RunInv(s, more);
    if |more| == 1 {
      StepInv(s, more[0]);
      assert more[1..] == [];
    }
  }

  predicate PastClaim(pc: Pc) {
    pc.OPid? || pc.OBirth? || pc.OPublish? || (pc.Finished? && pc.outcome.Opened?)
  }

  /** At most one opener ever gets past the claim; it stays the winner for ever. */
  lemma {:induction false} OneWinner(s: State, more: seq<Action>, i: Id, j: Id)
    requires Reachable(s) && Schedule(s, more)
    requires i in s.actors && PastClaim(s.actors[i])
    requires j in Run(s, more).actors && PastClaim(Run(s, more).actors[j])
    ensures i == j
  {
    ReachableInv(s);
    RunInv(s, more);
    assert PartyOk(s, i, s.actors[i]) && PartyOk(Run(s, more), j, Run(s, more).actors[j]);
  }

  /** Connected is never observable with a zero or mixed identity: once connected, both
      words are the winner's, and any peer that reads them gets exactly that identity. */
  lemma {:induction false} ConnectedIdentity(s: State, i: Id)
    requires Reachable(s)
    ensures s.st == ServerReady ==> s.pid == 0 && s.birth == 0
    ensures s.st == Connected || s.connected ==>
              s.winner.Some? && Identity(s.pid, s.birth) == s.winnerId
    ensures i in s.actors && s.actors[i].Finished? && s.actors[i].outcome.Saw? ==>
              s.actors[i].outcome.peer == s.winnerId
    ensures i in s.actors && s.actors[i].Finished? && s.actors[i].outcome.Opened? ==>
              s.actors[i].outcome.me == s.winnerId && s.winner == Some(i)
  {
    ReachableInv(s);
    if i in s.actors { assert PartyOk(s, i, s.actors[i]); }
  }

  /** `close` ends by reporting Ok if and only if the latched cause is Closed, PeerDisconnected
      if and only if an observed death came first, and nothing else. */
  lemma {:induction false} CloseTellsTheCause(s: State, i: Id, flag: bool)
    requires Reachable(s) && i in s.actors && s.actors[i].CTerminal?
    ensures var out := ActStep(s, i, flag).actors[i];
            && (out == Finished(ClosedOk) <==> s.st == Closed)
            && (out == Finished(Failed(PeerGone)) <==> s.st == PeerDisconnected)
            && (out == Finished(ClosedOk) || out == Finished(Failed(PeerGone)))
  {
    ReachableInv(s);
    assert PartyOk(s, i, s.actors[i]);
  }

  /** What a party was told stays true: a close that reported Ok never has its cause
      overwritten, nor does an observed death, nor does a timeout overwrite Connected: whoever
      gets the retirement's TimedOut is the only one, and the channel was not and will never
      be connected. */
  lemma {:induction false} ResultsTellTheCause(s: State, more: seq<Action>, i: Id)
    requires Reachable(s) && Schedule(s, more)
    requires i in s.actors && s.actors[i].Finished?
    ensures s.actors[i].outcome == ClosedOk ==> Run(s, more).st == Closed
    ensures s.actors[i].outcome == Failed(PeerGone) ==> Run(s, more).st == PeerDisconnected
    ensures s.actors[i].outcome == Failed(Retired) ==>
              && Run(s, more).st == Closed && !Run(s, more).connected
              && forall j | j in Run(s, more).actors :: Run(s, more).actors[j] == Finished(Failed(Retired)) ==> j == i
  {
    ReachableInv(s);
    RunInv(s, more);
    var t := Run(s, more);
    assert PartyOk(s, i, s.actors[i]);
    forall j | j in t.actors && t.actors[j] == Finished(Failed(Retired))
      ensures s.actors[i].outcome == Failed(Retired) ==> j == i
    {
      assert PartyOk(t, j, t.actors[j]);
    }
  }

  /** `check_ready`'s loop: a failed strong compare-exchange means the state's rank rose, so
      no caller fails more than twice on any schedule. */
  lemma {:induction false} RetriesBounded(s: State, i: Id, flag: bool)
    requires Reachable(s) && i in s.actors && s.actors[i].KCas?
    ensures s.actors[i].tries <= 1
    ensures ActStep(s, i, flag).actors[i].KLoad? ==>
              Rank(s.actors[i].seen) < Rank(s.st) && ActStep(s, i, flag).actors[i].tries <= 2
  {
    ReachableInv(s);
    assert PartyOk(s, i, s.actors[i]);
  }
}
