// Two ring machines that share one state word: a step of either is a step of that ring
// alone, and at most a move of the state word for the other, so both stay in states
// their own machines reach. Mapping shows that the channel on its one file is this.
module Duplex {
  import opened States
  import opened RingMachine
  import opened RingInvariant
  import opened RingTheorems
  import opened RingEndings
  import opened RingLink

  datatype Channel = Channel(a: State, b: State)

  /** A step of the channel is a step of one direction (a state move may be charged to either). */
  datatype Move = OnA(act: Action) | OnB(act: Action)

  /** The other direction's view of a step: nothing, or the same move of the state word. */
  function Echo(s: State, s': State, t: State): State {
    if s'.st == s.st then t else MoveState(t, s'.st)
  }

  predicate CanMove(c: Config, ch: Channel, m: Move) {
    match m
    case OnA(act) => Enabled(c, ch.a, act)
    case OnB(act) => Enabled(c, ch.b, act)
  }

  function Moved(c: Config, ch: Channel, m: Move): Channel
    requires CanMove(c, ch, m)
  {
    match m
    case OnA(act) => var a' := Step(c, ch.a, act); Channel(a', Echo(ch.a, a', ch.b))
    case OnB(act) => var b' := Step(c, ch.b, act); Channel(Echo(ch.b, b', ch.a), b')
  }

  /** Both directions are in states their own machines reach, and agree on the state word. */
  ghost predicate Joint(c: Config, s: State, t: State) {
    Reachable(c, s) && Reachable(c, t) && s.st == t.st
  }

  lemma {:induction false} ReachableStep(c: Config, s: State, a: Action)
    requires Reachable(c, s) && Enabled(c, s, a)
    ensures Reachable(c, Step(c, s, a))
  {
    var acts :| Schedule(c, RingMachine.Init(c), acts) && s == Run(c, RingMachine.Init(c), acts);
    Unroll(c, s, a, []);
    Then(c, RingMachine.Init(c), acts, [a] + []);
  }

  /** The parts of a direction that make up its queue and its history. */
  predicate SameRing(t: State, t': State) {
    && t'.mem == t.mem && t'.rc == t.rc && t'.wc == t.wc
    && t'.published == t.published && t'.consumed == t.consumed
    && t'.s == t.s && t'.v == t.v
  }

  lemma {:induction false} OnlyMovesMoveState(c: Config, s: State, a: Action)
    requires StateWord(s) && Enabled(c, s, a) && Step(c, s, a).st != s.st
    ensures Edge(s.st, Step(c, s, a).st)
  {
    if MoveEnabled(c, s, a) {
      MoveWord(c, s, a);
      MoveIsStep(c, s, a);
    } else {
      WordStep(c, s, a);
    }
  }

  lemma {:induction false} EchoIsStep(c: Config, t: State, next: ChannelState)
    requires c.n == |t.mem| > 0 && Edge(t.st, next)
    ensures Enabled(c, t, EMove(next)) && Step(c, t, EMove(next)) == MoveState(t, next)
    ensures SameRing(t, MoveState(t, next)) && MoveState(t, next).st == next
  {
  }

  /** One step of either direction is a step, or nothing, of the other: both stay reachable,
      both go on agreeing on the state word, and the other direction's memory, cursors,
      parties and history are untouched. */
  lemma {:induction false} DirectionsCompose(c: Config, s: State, t: State, a: Action)
    requires Joint(c, s, t) && Enabled(c, s, a)
    ensures var s' := Step(c, s, a);
            Joint(c, s', Echo(s, s', t)) && SameRing(t, Echo(s, s', t))
  {
    var s' := Step(c, s, a);
    ReachableStep(c, s, a);
    if s'.st != s.st {
      ReachableInv(c, s);
      ReachableInv(c, t);
      OnlyMovesMoveState(c, s, a);
      EchoIsStep(c, t, s'.st);
      ReachableStep(c, t, EMove(s'.st));
    }
  }

  lemma {:induction false} MoveKeepsJoint(c: Config, ch: Channel, m: Move)
    requires Joint(c, ch.a, ch.b) && CanMove(c, ch, m)
    ensures Joint(c, Moved(c, ch, m).a, Moved(c, ch, m).b)
    ensures if m.OnA? then SameRing(ch.b, Moved(c, ch, m).b) else SameRing(ch.a, Moved(c, ch, m).a)
  {
    match m
    case OnA(act) => DirectionsCompose(c, ch.a, ch.b, act);
    case OnB(act) => DirectionsCompose(c, ch.b, ch.a, act);
  }
}
