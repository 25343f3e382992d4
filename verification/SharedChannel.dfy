// The per-process channel authority: readiness, retirement, the liveness probe,
// `finish`, `close` and `wake_all`, with the rest of the world moving the state
// word between any two of its accesses.
module SharedChannels {
  import opened Words
  import opened States
  import opened RingBuffers

  const PROBE_INTERVAL_MS: nat := 100

  const U64_MAX: nat := 0xFFFF_FFFF_FFFF_FFFF

  class SharedChannel {
    const a: RingBuffer
    const b: RingBuffer
    const connectTimeout: nat
    var state: ChannelState
    var nextProbe: nat
    var monitorOpen: bool

    // The environment: this process's clock (ms since start) and whether the peer lives.
    var elapsed: nat
    var peerAlive: bool

    // History: the channel has been Connected; live-peer probes completed here; successful
    // retirement compare-exchanges of this process; the terminal cause that a compare-exchange
    // of this process latched, if one did.
    var connected: bool
    var liveProbes: nat
    var retirements: nat
    var mine: Option<ChannelState>

    constructor (ringA: RingBuffer, ringB: RingBuffer, timeout: nat)
      ensures a == ringA && b == ringB && connectTimeout == timeout
      ensures Valid() && state == ServerReady && nextProbe == 0 && liveProbes == 0 && mine == None
    {
      a, b, connectTimeout := ringA, ringB, timeout;
      state, nextProbe, monitorOpen := ServerReady, 0, false;
      elapsed, peerAlive, connected, liveProbes, retirements := 0, true, false, 0, 0;
      mine := None;
    }

    ghost predicate Valid()
      reads this
    {
      && state != Init && elapsed <= U64_MAX && nextProbe <= U64_MAX
      && (state == Connected ==> connected)
      && (Unready(state) ==> !connected)
      && (mine.Some? ==> Terminal(state) && state == mine.value)
    }

    /** The next readiness check must fail: a cause is latched, or the peer of a connected
        channel is dead and a probe is due. */
    predicate Doomed()
      reads this
    {
      Terminal(state) || (state == Connected && !peerAlive && elapsed >= nextProbe)
    }

    /** What may have happened since: this process has ended the channel, if it has, only for
        an observed death, or by retiring it unconnected and out of time. */
    twostate predicate Moved()
      reads this
    {
      && Advanced() && (old(Doomed()) ==> Doomed())
      && (mine == old(mine)
          || (mine == Some(PeerDisconnected) && !peerAlive)
          || (mine == Some(Closed) && old(retirements) < retirements && !connected && elapsed >= connectTimeout))
    }

    /** ... or, in a close, for that. */
    twostate predicate Advanced()
      reads this
    {
      && old(elapsed) <= elapsed && (peerAlive ==> old(peerAlive)) && old(retirements) <= retirements
      && (mine != old(mine) ==> old(mine) == None && !Terminal(old(state)))
      && Forward(old(state), state)
      && (Terminal(old(state)) ==> state == old(state))
      && (old(connected) ==> connected)
      && (Terminal(old(state)) ==> connected == old(connected))
    }

    /** Other parties take any number of steps; time passes; the peer may die. */
    method Interfere()
      requires Valid()
      modifies this`state, this`connected, this`elapsed, this`peerAlive
      ensures Valid() && Moved()
    {
      var steps: nat :| true;
      for i := 0 to steps
        invariant Valid() && Moved()
        modifies this`state, this`connected
      {
        var current := state;
        var next: ChannelState :| next == current || Edge(current, next);
        assert next == current || Edge(current, next);
        state := next;
        connected := connected || next == Connected;
      }
      var now: nat :| elapsed <= now <= U64_MAX;
      elapsed := now;
      var lives: bool :| lives ==> peerAlive;
      peerAlive := lives;
    }

    /** Each of the four notify words was bumped once. */
    twostate predicate Bumped()
      reads a, b
    {
      && a.writerNotify == Succ32(old(a.writerNotify)) && a.readerNotify == Succ32(old(a.readerNotify))
      && b.writerNotify == Succ32(old(b.writerNotify)) && b.readerNotify == Succ32(old(b.readerNotify))
    }

    /** No notify word was touched. */
    twostate predicate Quiet()
      reads a, b
    {
      && a.writerNotify == old(a.writerNotify) && a.readerNotify == old(a.readerNotify)
      && b.writerNotify == old(b.writerNotify) && b.readerNotify == old(b.readerNotify)
    }

    /** Bump and wake all four sleepers. */
    method WakeAll()
      requires a != b
      modifies a`writerNotify, a`readerNotify, b`writerNotify, b`readerNotify
      ensures Bumped()
    {
      a.writerNotify := Succ32(a.writerNotify);
      a.readerNotify := Succ32(a.readerNotify);
      b.writerNotify := Succ32(b.writerNotify);
      b.readerNotify := Succ32(b.readerNotify);
    }

    /** `terminal()`: the error a terminal (or impossible) state stands for, if any. */
    function TerminalError(): (e: Option<Error>)
      reads this
      ensures e.Some? <==> Terminal(state) || state == Init
      ensures e.Some? && Terminal(state) ==> e.value == CauseOf(state)
    {
      if Terminal(state) || state == Init then Some(CauseOf(state)) else None
    }

    /** Latch a terminal cause unless one is already latched. `won`: this call's
        compare-exchange made the transition (and so ran wake_all). */
    method Finish(cause: ChannelState) returns (won: bool)
      requires Valid() && a != b && Terminal(cause)
      modifies this`state, this`connected, this`elapsed, this`peerAlive, this`mine
      modifies a`writerNotify, a`readerNotify, b`writerNotify, b`readerNotify
      ensures Valid() && Advanced() && Terminal(state)
      ensures if won then Bumped() && mine == Some(cause) && !Terminal(old(state)) else Quiet() && mine == old(mine)
    {
      won := false;
      var current := state;
      while !Terminal(current)
        invariant Valid() && Moved() && Quiet() && !won && current != Init && mine == old(mine)
        invariant Rank(current) <= Rank(state)
        invariant Terminal(current) ==> state == current
        decreases 4 - Rank(current)
      {
        Interfere();
        if state == current {
          state := cause;
          mine := Some(cause);
          won := true;
          WakeAll();
          return;
        }
        current := state;
      }
    }

    /** Idempotent; never overwrites an observed peer death. If this close is what ended the
        channel it latched Closed and says Ok; any other cause is somebody else's. */
    method Close() returns (r: Result<()>)
      requires Valid() && a != b
      modifies this`state, this`connected, this`elapsed, this`peerAlive, this`mine
      modifies a`writerNotify, a`readerNotify, b`writerNotify, b`readerNotify
      ensures Valid() && Advanced() && Terminal(state)
      ensures if mine == old(mine) then Quiet() else Bumped() && mine == Some(Closed) && r == Ok(())
      ensures r == Ok(()) <==> state == Closed
      ensures r == Err(PeerGone) <==> state == PeerDisconnected
      ensures old(state) == PeerDisconnected ==> r == Err(PeerGone)
    {
      var _ := Finish(Closed);
      var e := TerminalError();
      match e
      case Some(ChannelClosed) => r := Ok(());
      case Some(error) => r := Err(error);
      case None => r := Ok(());
    }

    /** The first half of `check_ready`: wait out the unready states, or retire the channel.
        The loop ends because every failed compare-exchange means the state climbed. */
    method AwaitConnected() returns (r: Result<bool>)
      requires Valid() && a != b
      modifies this`state, this`connected, this`elapsed, this`peerAlive, this`retirements, this`mine
      modifies a`writerNotify, a`readerNotify, b`writerNotify, b`readerNotify
      ensures Valid() && Moved()
      ensures r == Ok(true) ==> connected
      ensures r == Ok(false) ==> Unready(state) && elapsed < connectTimeout
      ensures r.Err? ==> Terminal(state) && (r.error == CauseOf(state) || r.error == Retired)
      ensures r == Err(Retired) ==> !Terminal(old(state)) && !connected && elapsed >= connectTimeout
      ensures if r == Err(Retired) then Bumped() && mine == Some(Closed) && retirements == old(retirements) + 1
              else Quiet() && mine == old(mine) && retirements == old(retirements)
    {
      while true
        invariant Valid() && Moved() && Quiet() && mine == old(mine) && retirements == old(retirements)
        decreases 4 - Rank(state)
      {
        ghost var before := Rank(state);
        Interfere();
        var observed := state;
        if observed == Connected {
          return Ok(true);
        }
        if !Unready(observed) {
          return Err(CauseOf(observed));
        }
        if elapsed < connectTimeout {
          return Ok(false);
        }
        Interfere();
        if state == observed {
          state := Closed;
          mine := Some(Closed);
          retirements := retirements + 1;
          WakeAll();
          return Err(Retired);
        }
        assert before <= Rank(observed) < Rank(state);
      }
    }

    /** `saturating_add` of the probe interval. */
    function NextProbeAfter(at: nat): (t: nat)
      requires at <= U64_MAX
      ensures at <= t <= U64_MAX && t <= at + PROBE_INTERVAL_MS && (t == at + PROBE_INTERVAL_MS || t == U64_MAX)
    {
      if at + PROBE_INTERVAL_MS <= U64_MAX then at + PROBE_INTERVAL_MS else U64_MAX
    }

    /** The rate-limited probe, under the monitor lock. `at` is the elapsed time read before
        the lock was taken. A probe out of turn does nothing; one in turn finds the channel
        ended, or a dead peer, or else a live one, and then pushes the next probe out by the
        interval. Only an observed death makes it end the channel. */
    method Probe(at: nat) returns (r: Option<Error>)
      requires Valid() && a != b && connected && at <= U64_MAX
      modifies this
      modifies a`writerNotify, a`readerNotify, b`writerNotify, b`readerNotify
      ensures Valid() && Moved() && connected && retirements == old(retirements)
      ensures if mine == old(mine) then Quiet() else Bumped() && mine == Some(PeerDisconnected) && !peerAlive
      ensures at < old(nextProbe) ==> r.None? && state == old(state) && nextProbe == old(nextProbe)
      ensures old(nextProbe) <= nextProbe && (nextProbe == old(nextProbe) || nextProbe == NextProbeAfter(at))
      ensures old(liveProbes) <= liveProbes <= old(liveProbes) + 1
      ensures liveProbes > old(liveProbes) ==> at >= old(nextProbe) && nextProbe == NextProbeAfter(at)
      ensures at >= old(nextProbe) && peerAlive ==> r.Some? || liveProbes == old(liveProbes) + 1
      ensures r.Some? ==> Terminal(state) && r.value == CauseOf(state)
      ensures at >= old(nextProbe) && !old(peerAlive) ==> Terminal(state)
    {
      if at < nextProbe {
        return None;
      }
      r := TerminalError();
      if r.Some? {
        return;
      }
      Interfere();
      if !monitorOpen {
        if !peerAlive {
          var _ := Finish(PeerDisconnected);
          r := TerminalError();
          return;
        }
        monitorOpen := true;
        Interfere();
      }
      if !peerAlive {
        var _ := Finish(PeerDisconnected);
      } else {
        liveProbes := liveProbes + 1;
      }
      nextProbe := NextProbeAfter(at);
      r := None;
    }

    /** `check_ready`. Ok(true) only while Connected; every error names the latched cause,
        except the one TimedOut of the caller that retired a never-connected channel. */
    method CheckReady() returns (r: Result<bool>)
      requires Valid() && a != b
      modifies this
      modifies a`writerNotify, a`readerNotify, b`writerNotify, b`readerNotify
      ensures Valid() && Moved() && old(nextProbe) <= nextProbe
      ensures if mine == old(mine) then Quiet() else Bumped()
      ensures r == Ok(true) ==> state == Connected
      ensures r == Ok(false) ==> Unready(state) && elapsed < connectTimeout
      ensures r == Ok(true) && old(elapsed) >= old(nextProbe) && peerAlive ==> liveProbes == old(liveProbes) + 1
      ensures liveProbes <= old(liveProbes) + 1
      ensures elapsed < old(nextProbe) ==>
                liveProbes == old(liveProbes) && (mine == old(mine) || r == Err(Retired))
      ensures r.Err? ==> Terminal(state) && (r.error == CauseOf(state) || r.error == Retired)
      ensures r == Err(Retired) ==>
                mine == Some(Closed) && !connected && !Terminal(old(state)) && elapsed >= connectTimeout
      ensures retirements == old(retirements) + (if r == Err(Retired) then 1 else 0)
      ensures old(Doomed()) ==> r == Err(CauseOf(state))
    {
      r := AwaitConnected();
      if r.Err? || !r.value {
        return;
      }
      Interfere();
      if elapsed >= nextProbe {
        var at := elapsed;
        Interfere();
        var e := Probe(at);
        if e.Some? {
          return Err(e.value);
        }
        Interfere();
      }
      var e := TerminalError();
      match e
      case Some(error) => r := Err(error);
      case None => r := Ok(true);
    }

    /** `check_ready`, and then whatever others do before the caller's next access. */
    method AskReady() returns (r: Result<bool>)
      requires Valid() && a != b
      modifies this
      modifies a`writerNotify, a`readerNotify, b`writerNotify, b`readerNotify
      ensures Valid() && Moved()
      ensures r == Ok(true) ==> connected
      ensures r == Ok(false) ==> Unready(old(state))
      ensures r.Err? ==> Terminal(state) && (r.error == CauseOf(state) || (r.error == Retired && mine == Some(Closed)))
      ensures r == Err(Retired) ==> !connected
      ensures old(Doomed()) ==> r.Err? && r.error != Retired
    {
      r := CheckReady();
      Interfere();
    }
  }
}
