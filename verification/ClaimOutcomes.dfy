// What becomes of each party to the state word: an opener, a closer and a checker that
// run alone reach the end they should, and over all runs each ends otherwise only for
// a reason.
module ClaimOutcomes {
  import opened States
  import opened ClaimMachine

  lemma {:induction false} Follow(s: State, a: Action, rest: seq<Action>)
    requires Enabled(s, a) && Schedule(Step(s, a), rest)
    ensures Schedule(s, [a] + rest) && Run(s, [a] + rest) == Run(Step(s, a), rest)
  {
    var p := [a] + rest;
    assert p[0] == a && p[1..] == rest;
  }

  /** `k` undisturbed steps of party `i`, the environment favourable. */
  function Alone(i: Id, k: nat): (acts: seq<Action>)
    ensures |acts| == k
  {
    if k == 0 then [] else [Act(i, true)] + Alone(i, k - 1)
  }

  // ----- openers -----

  /** From the claim on, an undisturbed opener publishes its identity and connects. */
  lemma {:induction false} ClaimConnects(s: State, i: Id, me: Identity)
    requires i in s.actors && s.actors[i] == OClaim(me) && s.st == ServerReady
    ensures Schedule(s, Alone(i, 4))
    ensures var t := Run(s, Alone(i, 4));
            && i in t.actors && t.actors[i] == Finished(Opened(me)) && t.st == Connected && t.connected
            && t.pid == me.pid && t.birth == me.birth && t.winner == Some(i) && t.winnerId == me
  {
    var s1 := Step(s, Act(i, true));
    var s2 := Step(s1, Act(i, true));
    var s3 := Step(s2, Act(i, true));
    Follow(s3, Act(i, true), Alone(i, 0));
    Follow(s2, Act(i, true), Alone(i, 1));
    Follow(s1, Act(i, true), Alone(i, 2));
    Follow(s, Act(i, true), Alone(i, 3));
  }

  /** An opener that finds a ready channel with a valid header, and is left alone, opens it:
      the word is Connected and both identity words are its own. */
  lemma {:induction false} LoneOpenerOpens(s: State, i: Id, me: Identity)
    requires Reachable(s) && s.st == ServerReady && i !in s.actors
    ensures Schedule(s, [Start(i, OLoad(me))] + ([Act(i, true)] + Alone(i, 4)))
    ensures var t := Run(s, [Start(i, OLoad(me))] + ([Act(i, true)] + Alone(i, 4)));
            && i in t.actors && t.actors[i] == Finished(Opened(me)) && t.st == Connected
            && t.pid == me.pid && t.birth == me.birth && t.winner == Some(i)
  {
    var s1 := Step(s, Start(i, OLoad(me)));
    ClaimConnects(Step(s1, Act(i, true)), i, me);
    Follow(s1, Act(i, true), Alone(i, 4));
    Follow(s, Start(i, OLoad(me)), [Act(i, true)] + Alone(i, 4));
  }

  /** Somebody else has what opener `i` needed. */
  predicate TakenFrom(t: State, i: Id) { (t.winner.Some? && t.winner != Some(i)) || Terminal(t.st) }

  /** What opener `i` may say of itself, given whether the word was ever Init for it and
      whether its header check failed. */
  predicate OpenerSays(t: State, i: Id, me: Identity, early: bool, bad: bool)
    requires i in t.actors
  {
    match t.actors[i]
    case OLoad(x) => x == me && (t.st == Init ==> early)
    case OClaim(x) => x == me && t.st != Init
    case OPid(x) => x == me
    case OBirth(x) => x == me
    case OPublish(x) => x == me
    case Finished(NotYet) => early
    case Finished(Failed(InvalidHeader)) => bad
    case Finished(Failed(PeerGone)) => t.st == PeerDisconnected
    case Finished(Failed(ChannelClosed)) => TakenFrom(t, i)
    case Finished(Opened(x)) => x == me && t.winner == Some(i) && t.connected
    case _ => false
  }

  lemma {:induction false} OpenerSpeaks(s: State, i: Id, flag: bool, me: Identity, early: bool, bad: bool)
    requires WordOk(s) && i in s.actors && PartyOk(s, i, s.actors[i]) && !s.actors[i].Finished?
    requires OpenerSays(s, i, me, early, bad)
    ensures OpenerSays(ActStep(s, i, flag), i, me, early, bad || !flag)
  {
  }

  lemma {:induction false} OpenerHeard(s: State, t: State, i: Id, me: Identity, early: bool, bad: bool)
    requires Moves(s, t) && i in s.actors && i in t.actors && t.actors[i] == s.actors[i]
    requires OpenerSays(s, i, me, early, bad)
    ensures OpenerSays(t, i, me, early, bad)
  {
  }

  lemma {:induction false} OthersLeaveParty(s: State, a: Action, i: Id)
    requires Enabled(s, a) && i in s.actors && !(a.Act? && a.i == i)
    ensures i in Step(s, a).actors && Step(s, a).actors[i] == s.actors[i]
  {
  }

  lemma {:induction false} OpenerStepSays(s: State, a: Action, i: Id, me: Identity, early: bool, bad: bool)
    requires Inv(s) && Enabled(s, a) && i in s.actors && OpenerSays(s, i, me, early, bad)
    ensures i in Step(s, a).actors && OpenerSays(Step(s, a), i, me, early, bad || a == Act(i, false))
  {
    StepInv(s, a);
    if a.Act? && a.i == i {
      assert PartyOk(s, i, s.actors[i]);
      OpenerSpeaks(s, i, a.flag, me, early, bad);
    } else {
      OthersLeaveParty(s, a, i);
      OpenerHeard(s, Step(s, a), i, me, early, bad);
    }
  }

  predicate Has(acts: seq<Action>, a: Action)
    decreases |acts|
  {
    acts != [] && (acts[0] == a || Has(acts[1..], a))
  }

  lemma {:induction false} OpenerRun(s: State, acts: seq<Action>, i: Id, me: Identity, early: bool, bad: bool)
    requires Inv(s) && Schedule(s, acts) && i in s.actors && OpenerSays(s, i, me, early, bad)
    ensures var t := Run(s, acts);
            i in t.actors && OpenerSays(t, i, me, early, bad || Has(acts, Act(i, false)))
    decreases |acts|
  {
    if acts != [] {
      StepInv(s, acts[0]);
      OpenerStepSays(s, acts[0], i, me, early, bad);
      OpenerRun(Step(s, acts[0]), acts[1..], i, me, early, bad || acts[0] == Act(i, false));
    }
  }

  /** `try_open` ends otherwise than open only for a reason: NotYet only if the word was still
      Init when it began, InvalidHeader only on a bad header, PeerDisconnected only over a
      latched death, ChannelClosed only if another party claimed or ended the channel. */
  lemma {:induction false} OpenFailsForAReason(s: State, more: seq<Action>, i: Id, me: Identity)
    requires Reachable(s) && Schedule(s, more) && i in s.actors && s.actors[i] == OLoad(me)
    ensures var t := Run(s, more);
            i in t.actors &&
            match t.actors[i]
            case Finished(Opened(x)) => x == me && t.winner == Some(i) && t.connected
            case Finished(NotYet) => s.st == Init
            case Finished(Failed(InvalidHeader)) => Has(more, Act(i, false))
            case Finished(Failed(PeerGone)) => t.st == PeerDisconnected
            case Finished(Failed(ChannelClosed)) => TakenFrom(t, i)
            case Finished(_) => false
            case _ => IsOpener(t.actors[i])
  {
    ReachableInv(s);
    OpenerRun(s, more, i, me, s.st == Init, false);
  }

  // ----- who ends a channel, and with what -----

  /** A terminal state is latched only by a finisher, and then it is that finisher's cause,
      or by a caller of `check_ready` retiring an unready channel, and then it is Closed. */
  lemma {:induction false} WhoEnds(s: State, a: Action)
    requires Reachable(s) && Enabled(s, a) && !Terminal(s.st) && Terminal(Step(s, a).st)
    ensures a.Act? && a.i in s.actors
    ensures || (s.actors[a.i].FCas? && Step(s, a).st == s.actors[a.i].cause)
            || (s.actors[a.i].KCas? && Step(s, a).st == Closed && Unready(s.st))
  {
    ReachableInv(s);
    if a.Act? { assert PartyOk(s, a.i, s.actors[a.i]); }
  }

  /** An undisturbed finisher ends the channel with its cause unless one is latched already,
      and an undisturbed close then says Ok or names the death that came first. */
  lemma {:induction false} LoneFinisherEnds(s: State, i: Id, cause: ChannelState, closing: bool)
    requires Reachable(s) && s.st != Init && i !in s.actors && Terminal(cause) && (closing ==> cause == Closed)
    ensures var k := if closing then 3 else 2;
            && Schedule(s, [Start(i, FLoad(cause, closing))] + Alone(i, k))
            && var t := Run(s, [Start(i, FLoad(cause, closing))] + Alone(i, k));
               && t.st == (if Terminal(s.st) then s.st else cause) && i in t.actors
               && (!closing ==> t.actors[i] == Finished(Done))
               && (closing ==> t.actors[i] == Finished(if t.st == Closed then ClosedOk else Failed(PeerGone)))
  {
    var s1 := Step(s, Start(i, FLoad(cause, closing)));
    var s2 := Step(s1, Act(i, true));
    var s3 := Step(s2, Act(i, true));
    if closing {
      Follow(s3, Act(i, true), Alone(i, 0));
      Follow(s2, Act(i, true), Alone(i, 1));
      Follow(s1, Act(i, true), Alone(i, 2));
      Follow(s, Start(i, FLoad(cause, closing)), Alone(i, 3));
    } else {
      Follow(s2, Act(i, true), Alone(i, 0));
      Follow(s1, Act(i, true), Alone(i, 1));
      Follow(s, Start(i, FLoad(cause, closing)), Alone(i, 2));
    }
  }

  // ----- check_ready -----

  predicate CheckerSays(t: State, i: Id, unready: bool, waited: bool, expired: bool)
    requires i in t.actors
  {
    match t.actors[i]
    case KLoad(_) => t.st != Init && (Unready(t.st) ==> unready)
    case KCas(_, _) => expired && t.st != Init && (Unready(t.st) ==> unready)
    case KPid => true
    case KBirth(_) => true
    case Finished(NotYet) => unready && waited
    case Finished(Failed(ChannelClosed)) => t.st == Closed
    case Finished(Failed(PeerGone)) => t.st == PeerDisconnected
    case Finished(Failed(Retired)) => expired && t.retiredBy == Some(i)
    case Finished(Saw(peer)) => t.connected && peer == t.winnerId
    case _ => false
  }

  lemma {:induction false} CheckerSpeaks(s: State, i: Id, flag: bool, unready: bool, waited: bool, expired: bool)
    requires WordOk(s) && i in s.actors && PartyOk(s, i, s.actors[i]) && !s.actors[i].Finished?
    requires CheckerSays(s, i, unready, waited, expired)
    ensures CheckerSays(ActStep(s, i, flag), i, unready, waited || !flag, expired || flag)
  {
  }

  lemma {:induction false} CheckerHeard(s: State, t: State, i: Id, unready: bool, waited: bool, expired: bool)
    requires WordOk(s) && WordOk(t) && Moves(s, t) && i in s.actors && i in t.actors && t.actors[i] == s.actors[i]
    requires CheckerSays(s, i, unready, waited, expired)
    ensures CheckerSays(t, i, unready, waited, expired)
  {
  }

  lemma {:induction false} CheckerStepSays(s: State, a: Action, i: Id, unready: bool, waited: bool, expired: bool)
    requires Inv(s) && Enabled(s, a) && i in s.actors && CheckerSays(s, i, unready, waited, expired)
    ensures i in Step(s, a).actors
    ensures CheckerSays(Step(s, a), i, unready, waited || a == Act(i, false), expired || a == Act(i, true))
  {
    StepInv(s, a);
    if a.Act? && a.i == i {
      assert PartyOk(s, i, s.actors[i]);
      CheckerSpeaks(s, i, a.flag, unready, waited, expired);
    } else {
      OthersLeaveParty(s, a, i);
      CheckerHeard(s, Step(s, a), i, unready, waited, expired);
    }
  }

  lemma {:induction false} CheckerRun(s: State, acts: seq<Action>, i: Id, unready: bool, waited: bool, expired: bool)
    requires Inv(s) && Schedule(s, acts) && i in s.actors && CheckerSays(s, i, unready, waited, expired)
    ensures var t := Run(s, acts);
            && i in t.actors
            && CheckerSays(t, i, unready, waited || Has(acts, Act(i, false)), expired || Has(acts, Act(i, true)))
    decreases |acts|
  {
    if acts != [] {
      var a := acts[0];
      StepInv(s, a);
      CheckerStepSays(s, a, i, unready, waited, expired);
      CheckerRun(Step(s, a), acts[1..], i, unready, waited || a == Act(i, false), expired || a == Act(i, true));
    }
  }

  /** `check_ready` ends only for a reason: "not ready" only for a channel unready when it
      began and a time-out still running, the retirement's TimedOut only after the time-out and
      over its own compare-exchange, a cause only if latched, and otherwise it went on to
      observe the one winner. */
  lemma {:induction false} CheckEndsForAReason(s: State, more: seq<Action>, i: Id)
    requires Reachable(s) && Schedule(s, more) && i in s.actors && s.actors[i] == KLoad(0) && s.st != Init
    ensures var t := Run(s, more);
            i in t.actors &&
            match t.actors[i]
            case Finished(NotYet) => Unready(s.st) && Has(more, Act(i, false))
            case Finished(Failed(ChannelClosed)) => t.st == Closed
            case Finished(Failed(PeerGone)) => t.st == PeerDisconnected
            case Finished(Failed(Retired)) => Has(more, Act(i, true)) && t.retiredBy == Some(i)
            case Finished(Saw(peer)) => t.connected && peer == t.winnerId
            case Finished(_) => false
            case _ => !IsOpener(t.actors[i]) && !IsFinisher(t.actors[i])
  {
    ReachableInv(s);
    CheckerRun(s, more, i, Unready(s.st), false, false);
  }

  /** Undisturbed, it gets there: a connected channel shows it the peer, and an unready one
      whose time is up is retired, by it and as Closed. */
  lemma {:induction false} LoneCheckerDecides(s: State, i: Id)
    requires Reachable(s) && (s.st == Connected || Unready(s.st)) && i !in s.actors
    ensures var k := if s.st == Connected then 3 else 2;
            && Schedule(s, [Start(i, KLoad(0))] + Alone(i, k))
            && var t := Run(s, [Start(i, KLoad(0))] + Alone(i, k));
               && i in t.actors
               && (if s.st == Connected then t.st == Connected && t.actors[i] == Finished(Saw(s.winnerId))
                   else t.st == Closed && t.actors[i] == Finished(Failed(Retired)))
  {
    ReachableInv(s);
    var s1 := Step(s, Start(i, KLoad(0)));
    var s2 := Step(s1, Act(i, true));
    var s3 := Step(s2, Act(i, true));
    if s.st == Connected {
      Follow(s3, Act(i, true), Alone(i, 0));
      Follow(s2, Act(i, true), Alone(i, 1));
      Follow(s1, Act(i, true), Alone(i, 2));
      Follow(s, Start(i, KLoad(0)), Alone(i, 3));
    } else {
      Follow(s2, Act(i, true), Alone(i, 0));
      Follow(s1, Act(i, true), Alone(i, 1));
      Follow(s, Start(i, KLoad(0)), Alone(i, 2));
    }
  }

  /** The creator, too: three undisturbed steps make a fresh mapping ServerReady, with both
      identity words zero. */
  lemma {:induction false} CreatorPublishes(s: State)
    requires Initial(s)
    ensures Schedule(s, [Create] + ([Create] + ([Create] + [])))
    ensures var t := Run(s, [Create] + ([Create] + ([Create] + [])));
            t.st == ServerReady && t.pid == 0 && t.birth == 0 && t.winner == None
  {
    var s1 := Step(s, Create);
    var s2 := Step(s1, Create);
    Follow(s2, Create, []);
    Follow(s1, Create, [Create] + []);
    Follow(s, Create, [Create] + ([Create] + []));
  }
}
