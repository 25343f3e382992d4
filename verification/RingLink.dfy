// The in-place routines of RingBuffers and the byte steps of the ring machine are
// the same computation: a sender (or receiver) that runs undisturbed leaves the
// memory (or the buffer) those routines promise.
module RingLink {
  import opened Words
  import opened Frames
  import opened States
  import opened WaitLine
  import opened RingMachine
  import opened RingTheorems

  function Repeat(a: Action, k: nat): (r: seq<Action>)
    ensures |r| == k
  {
    if k == 0 then [] else [a] + Repeat(a, k - 1)
  }

  lemma {:induction false} Then(c: Config, s: State, first: seq<Action>, rest: seq<Action>)
    requires Schedule(c, s, first) && Schedule(c, Run(c, s, first), rest)
    ensures Schedule(c, s, first + rest)
    ensures Run(c, s, first + rest) == Run(c, Run(c, s, first), rest)
    decreases |first|
  {
    if first == [] {
      assert first + rest == rest;
    } else {
      Then(c, Step(c, s, first[0]), first[1..], rest);
      assert (first + rest)[1..] == first[1..] + rest;
    }
  }

  /** `s` once the sender has copied the first `i` bytes of its frame. */
  function Copied(s: State, i: nat): State
    requires |s.mem| > 0 && i <= MsgLen(s)
  {
    s.(mem := CopyIn(s.mem, s.s.cachedWc, RawFrame(s.s.nextSeq, s.s.payload)[..i]), s := s.s.(pc := SWrite(i)))
  }

  lemma {:induction false} CopyInNext(m: seq<byte>, c: nat, f: seq<byte>, i: nat)
    requires |m| > 0 && i < |f|
    ensures CopyIn(m, c, f[..i])[Slot(c + i, |m|) := f[i]] == CopyIn(m, c, f[..i + 1])
  {
    var d := f[..i + 1];
    assert d[..|d| - 1] == f[..i] && d[|d| - 1] == f[i];
  }

  lemma {:induction false} CopyStep(c: Config, s: State, i: nat)
    requires c.n == |s.mem| > 0 && i < MsgLen(s)
    ensures Enabled(c, Copied(s, i), SCopy) && Step(c, Copied(s, i), SCopy) == Copied(s, i + 1)
  {
    CopyInNext(s.mem, s.s.cachedWc, RawFrame(s.s.nextSeq, s.s.payload), i);
  }

  /** The byte steps from `i` on finish the wrapped write of the whole frame. */
  lemma {:induction false} CopyRun(c: Config, s: State, i: nat)
    requires c.n == |s.mem| > 0 && i <= MsgLen(s)
    ensures Schedule(c, Copied(s, i), Repeat(SCopy, MsgLen(s) - i))
    ensures Run(c, Copied(s, i), Repeat(SCopy, MsgLen(s) - i)) == Copied(s, MsgLen(s))
    decreases MsgLen(s) - i
  {
    if i < MsgLen(s) {
      CopyStep(c, s, i);
      CopyRun(c, s, i + 1);
      Unroll(c, Copied(s, i), SCopy, Repeat(SCopy, MsgLen(s) - (i + 1)));
    }
  }

  lemma {:induction false} CopiedEnds(s: State)
    requires |s.mem| > 0 && s.s.pc == SWrite(0)
    ensures Copied(s, 0) == s
    ensures Copied(s, MsgLen(s)).mem == CopyIn(s.mem, s.s.cachedWc, RawFrame(s.s.nextSeq, s.s.payload))
  {
    var f := RawFrame(s.s.nextSeq, s.s.payload);
    assert f[..0] == [] && f[..|f|] == f;
  }

  lemma {:induction false} PublishStep(c: Config, s: State)
    requires c.n == |s.mem| > 0 && s.s.pc == SWrite(MsgLen(s))
    ensures Schedule(c, s, [SPublish])
    ensures var t := Run(c, s, [SPublish]);
            && t.mem == s.mem && t.wc == s.s.cachedWc + HEADER + |s.s.payload|
            && t.published == s.published + [s.s.payload] && t.w == Store(s.w)
  {
    Unroll(c, s, SPublish, []);
    assert [SPublish] + [] == [SPublish];
  }

  lemma {:induction false} PublishRun(c: Config, s: State)
    requires c.n == |s.mem| > 0 && s.s.pc == SWrite(0)
    ensures Schedule(c, s, Repeat(SCopy, MsgLen(s)) + [SPublish])
    ensures var t := Run(c, s, Repeat(SCopy, MsgLen(s)) + [SPublish]);
            && t.mem == CopyIn(s.mem, s.s.cachedWc, RawFrame(s.s.nextSeq, s.s.payload))
            && t.wc == s.s.cachedWc + HEADER + |s.s.payload|
            && t.published == s.published + [s.s.payload] && t.w == Store(s.w)
  {
    CopiedEnds(s);
    CopyRun(c, s, 0);
    PublishStep(c, Copied(s, MsgLen(s)));
    Then(c, s, Repeat(SCopy, MsgLen(s)), [SPublish]);
  }

  /** Undisturbed, the machine's sender leaves in memory exactly what the three in-place
      writes of `publish_message` leave (RingBuffer.PutFrame), then publishes it. */
  lemma {:induction false} PublishIsARun(c: Config, s: State)
    requires c.n == |s.mem| > 0 && s.s.pc == SWrite(0)
    ensures var acts := Repeat(SCopy, MsgLen(s)) + [SPublish];
            var len, q := Wrap32(|s.s.payload|), s.s.nextSeq;
            && Schedule(c, s, acts)
            && Run(c, s, acts).mem
                 == CopyIn(CopyIn(CopyIn(s.mem, s.s.cachedWc, ToLe(len, 4)), s.s.cachedWc + 4, ToLe(q, 4)),
                           s.s.cachedWc + 8, s.s.payload)
            && Run(c, s, acts).wc == s.s.cachedWc + HEADER + |s.s.payload|
            && Run(c, s, acts).published == s.published + [s.s.payload]
            && Run(c, s, acts).w == Store(s.w)
  {
    PublishRun(c, s);
    WriteFrame(s.mem, s.s.cachedWc, s.s.nextSeq, s.s.payload);
  }

  /** After its cursor store the publisher bumps the 32-bit word once, and goes on to wake
      exactly if the receiver is parked; if not, the send is over. */
  lemma {:induction false} PublishNotifies(c: Config, s: State)
    requires c.n == |s.mem| > 0 && s.s.pc.SNotify? && s.w.waker.Stored?
    ensures Schedule(c, s, [SBump, SLoadParked])
    ensures var t := Run(c, s, [SBump, SLoadParked]);
            && Word(t.w) == Succ32(Word(s.w)) && (t.w.waker.Waking? <==> s.w.parked)
            && (s.w.parked ==> t.s == s.s) && (!s.w.parked ==> t.s.pc.SIdle? && t.s.result == Sent)
            && t.mem == s.mem && t.wc == s.wc && t.v == s.v
  {
    NextWord(s.w.count);
    TwoSteps(c, s, SBump, SLoadParked);
  }

  lemma {:induction false} ReadStep(c: Config, s: State)
    requires c.n == |s.mem| > 0 && s.v.pc.RCopy? && |s.v.pc.buf| < s.v.pc.len
    ensures Enabled(c, s, RCopyByte)
    ensures var b := s.v.pc.buf;
            Step(c, s, RCopyByte)
              == s.(v := s.v.(pc := s.v.pc.(buf := b + [s.mem[Slot(s.v.cachedRc + HEADER + |b|, c.n)]])))
  {
  }

  /** Undisturbed, the machine's receiver ends its copy with exactly what `read_ring`
      returns (RingBuffer.ReadRing). */
  lemma {:induction false} CopyOutIsARun(c: Config, s: State)
    requires c.n == |s.mem| > 0 && s.v.pc.RCopy? && |s.v.pc.buf| <= s.v.pc.len
    requires s.v.pc.buf == CopyOut(s.mem, s.v.cachedRc + HEADER, s.v.pc.len)[..|s.v.pc.buf|]
    ensures var acts := Repeat(RCopyByte, s.v.pc.len - |s.v.pc.buf|);
            && Schedule(c, s, acts)
            && Run(c, s, acts) == s.(v := s.v.(pc := s.v.pc.(buf := CopyOut(s.mem, s.v.cachedRc + HEADER, s.v.pc.len))))
    decreases s.v.pc.len - |s.v.pc.buf|
  {
    var b, len := s.v.pc.buf, s.v.pc.len;
    var all := CopyOut(s.mem, s.v.cachedRc + HEADER, len);
    if |b| == len {
      assert b == all;
    } else {
      ReadStep(c, s);
      var t := Step(c, s, RCopyByte);
      assert t.v.pc.buf == all[..|b| + 1];
      CopyOutIsARun(c, t);
      Unroll(c, s, RCopyByte, Repeat(RCopyByte, len - (|b| + 1)));
    }
  }

  // ----- the peek and the commit -----

  lemma {:induction false} HeaderStep(c: Config, s: State)
    requires c.n == |s.mem| > 0 && s.v.pc.RHeader? && |s.v.pc.header| < 8
    ensures Enabled(c, s, RHeaderByte)
    ensures var h := s.v.pc.header;
            Step(c, s, RHeaderByte)
              == s.(v := s.v.(pc := s.v.pc.(header := h + [s.mem[Slot(s.v.cachedRc + |h|, c.n)]])))
  {
  }

  /** The byte steps of a header read end with what `read_ring` returns. */
  lemma {:induction false} HeaderIsARun(c: Config, s: State)
    requires c.n == |s.mem| > 0 && s.v.pc.RHeader? && |s.v.pc.header| <= 8
    requires s.v.pc.header == CopyOut(s.mem, s.v.cachedRc, 8)[..|s.v.pc.header|]
    ensures var acts := Repeat(RHeaderByte, 8 - |s.v.pc.header|);
            && Schedule(c, s, acts)
            && Run(c, s, acts) == s.(v := s.v.(pc := s.v.pc.(header := CopyOut(s.mem, s.v.cachedRc, 8))))
    decreases 8 - |s.v.pc.header|
  {
    var h, all := s.v.pc.header, CopyOut(s.mem, s.v.cachedRc, 8);
    if |h| == 8 {
      assert h == all;
    } else {
      HeaderStep(c, s);
      var t := Step(c, s, RHeaderByte);
      assert t.v.pc.header == all[..|h| + 1];
      HeaderIsARun(c, t);
      Unroll(c, s, RHeaderByte, Repeat(RHeaderByte, 8 - (|h| + 1)));
    }
  }

  /** What `try_peek_message` makes of the bytes at its read cursor. */
  function Peeked(c: Config, s: State, again: Option<Error>): RPc
    requires |s.mem| > 0
  {
    var h := CopyOut(s.mem, s.v.cachedRc, 8);
    var len, q := FromLe(h[..4]), FromLe(h[4..]);
    if len > c.n - HEADER then RErr(MessageTooLarge)
    else if s.wc - s.v.cachedRc < HEADER + len then AfterEmpty(s, again).v.pc
    else RGot(len, q)
  }

  lemma {:induction false} ParseStep(c: Config, s: State, again: Option<Error>, seen: nat, h: seq<byte>)
    requires c.n == |s.mem| > 0 && s.v.pc == RHeader(again, seen, h) && |h| == 8
    requires seen == s.wc && h == CopyOut(s.mem, s.v.cachedRc, 8)
    ensures Enabled(c, s, RParse) && Step(c, s, RParse) == s.(v := s.v.(pc := Peeked(c, s, again)))
  {
  }

  lemma {:induction false} LoadStep(c: Config, s: State)
    requires c.n == |s.mem| > 0 && s.v.pc.RPeek? && s.wc - s.v.cachedRc >= HEADER
    ensures Enabled(c, s, RLoadWc)
    ensures Step(c, s, RLoadWc) == s.(v := s.v.(pc := RHeader(s.v.pc.again, s.wc, [])))
  {
  }

  /** Undisturbed, the machine's peek of a ring with a header in it decides exactly as
      RingReceiver.TryPeekMessage does on what RingReceiver.ReadMsgHeader returns. */
  lemma {:induction false} PeekIsARun(c: Config, s: State)
    requires c.n == |s.mem| > 0 && s.v.pc.RPeek? && s.wc - s.v.cachedRc >= HEADER
    ensures var acts := [RLoadWc] + (Repeat(RHeaderByte, 8) + ([RParse] + []));
            && Schedule(c, s, acts)
            && Run(c, s, acts) == s.(v := s.v.(pc := Peeked(c, s, s.v.pc.again)))
  {
    LoadStep(c, s);
    var t := Step(c, s, RLoadWc);
    HeaderIsARun(c, t);
    var u := Run(c, t, Repeat(RHeaderByte, 8));
    ParseStep(c, u, s.v.pc.again, s.wc, CopyOut(s.mem, s.v.cachedRc, 8));
    Unroll(c, u, RParse, []);
    Then(c, t, Repeat(RHeaderByte, 8), [RParse] + []);
    Unroll(c, s, RLoadWc, Repeat(RHeaderByte, 8) + ([RParse] + []));
  }

  lemma {:induction false} StoreStep(c: Config, s: State)
    requires c.n == |s.mem| > 0 && s.v.pc.RCommit? && s.v.pc.seq32 == s.v.expectedSeq
    ensures Enabled(c, s, RStoreCursor)
    ensures var rc := s.v.cachedRc + HEADER + s.v.pc.len;
            Step(c, s, RStoreCursor)
              == s.(rc := rc, consumed := s.consumed + [s.v.pc.record], r := Store(s.r),
                    v := s.v.(pc := RNotify(s.v.pc.record), cachedRc := rc, expectedSeq := NextSeq(s.v.expectedSeq)))
  {
  }

  lemma {:induction false} NotifySteps(c: Config, s: State)
    requires c.n == |s.mem| > 0 && s.v.pc.RNotify?
    ensures s.r.waker.Stored? ==> Enabled(c, s, RBump) && Step(c, s, RBump) == s.(r := Bump(s.r))
    ensures s.r.waker.Bumped? ==> Enabled(c, s, RLoadParked)
    ensures s.r.waker.Bumped? ==>
              var t := Step(c, s, RLoadParked);
              && t == s.(r := LoadParked(s.r), v := t.v)
              && t.v.cachedRc == s.v.cachedRc && t.v.expectedSeq == s.v.expectedSeq
  {
  }

  lemma {:induction false} NextWord(x: nat)
    ensures Wrap32(x + 1) == Succ32(Wrap32(x))
  {
  }

  /** Undisturbed, the machine's commit does what RingReceiver.CommitCurrentMessage and
      RingBuffer.Commit do: cursor from the peeked frame, next expected number, one bump of the
      32-bit word, and the wake exactly if the sender is parked. */
  lemma {:induction false} CommitIsARun(c: Config, s: State)
    requires c.n == |s.mem| > 0 && s.v.pc.RCommit? && s.v.pc.seq32 == s.v.expectedSeq
    ensures Schedule(c, s, [RStoreCursor, RBump, RLoadParked])
    ensures var t := Run(c, s, [RStoreCursor, RBump, RLoadParked]);
            && t.rc == t.v.cachedRc == s.v.cachedRc + (HEADER + s.v.pc.len)
            && t.v.expectedSeq == NextSeq(s.v.expectedSeq) && t.consumed == s.consumed + [s.v.pc.record]
            && Word(t.r) == Succ32(Word(s.r)) && (t.r.waker.Waking? <==> s.r.parked)
            && t.mem == s.mem && t.wc == s.wc && t.s == s.s
  {
    NextWord(s.r.count);
    StoreStep(c, s);
    var t := Step(c, s, RStoreCursor);
    NotifySteps(c, t);
    NotifySteps(c, Step(c, t, RBump));
    ThreeSteps(c, s, RStoreCursor, RBump, RLoadParked);
  }
}
