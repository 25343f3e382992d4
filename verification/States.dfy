// The channel state word, the errors the library reports, and the legal moves
// of the state word.
module States {

  datatype ChannelState = Init | ServerReady | ClientClaimed | Connected | Closed | PeerDisconnected

  /** `Retired` is the source's `TimedOut` as returned by the caller whose own
      compare-exchange retired a channel that never became ready; `TimedOut` is a
      passed deadline. */
  datatype Error =
    | TimedOut
    | Retired
    | ChannelClosed
    | PeerGone
    | MessageTooLarge
    | InvalidHeader
    | SequenceMismatch

  datatype Option<+T> = None | Some(value: T)

  datatype Result<+T> = Ok(value: T) | Err(error: Error)

  predicate Terminal(st: ChannelState) { st == Closed || st == PeerDisconnected }

  predicate Unready(st: ChannelState) { st == ServerReady || st == ClientClaimed }

  /** The error a terminal state stands for. */
  function CauseOf(st: ChannelState): Error {
    if st == Closed then ChannelClosed else if st == PeerDisconnected then PeerGone else InvalidHeader
  }

  function Rank(st: ChannelState): (r: nat)
    ensures r <= 4
  {
    match st
    case Init => 0
    case ServerReady => 1
    case ClientClaimed => 2
    case Connected => 3
    case _ => 4
  }

  /** One atomic change of the state word. */
  predicate Edge(a: ChannelState, b: ChannelState) {
    || (a == Init && b == ServerReady)
    || (a == ServerReady && b == ClientClaimed)
    || (a == ClientClaimed && b == Connected)
    || (!Terminal(a) && Terminal(b))
  }

  /** Any number of atomic changes. */
  predicate Forward(a: ChannelState, b: ChannelState) {
    a == b || Rank(a) < Rank(b)
  }
}
