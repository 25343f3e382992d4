// The whole channel over the one mapping both processes share: a file of bytes with
// both data areas in it, one state word, and each role reading and writing at its own
// offsets. Every step on the file is a step of the two-ring channel of Duplex, so
// the rings really are independent: not by being kept apart, but because
// of where their bytes lie.
module Mapping {
  import opened Words
  import opened Frames
  import opened States
  import opened RingMachine
  import opened RingInvariant
  import opened RingTheorems
  import opened RingLink
  import opened Layout
  import Duplex

  /** Ring A carries server to client, ring B client to server. */
  datatype Direction = A | B

  function Other(d: Direction): Direction { if d == A then B else A }

  function Writer(d: Direction): Role { if d == A then Server else Client }

  function Reader(d: Direction): Role { Writer(Other(d)) }

  /** Where the writer puts this direction's bytes, and where its reader looks for them. */
  function WriteBase(c: Config, d: Direction): nat { EndsOf(Writer(d), c.n).sendData }

  function ReadBase(c: Config, d: Direction): nat { EndsOf(Reader(d), c.n).recvData }

  /** One direction without its data bytes and the state word, which are blanked in `h`. */
  datatype Half = Half(h: State) {
    function With(mem: seq<byte>, st: ChannelState): State { h.(mem := mem, st := st) }
  }

  function HalfOf(s: State): Half { Half(s.(mem := [], st := ChannelState.Init)) }

  datatype Mapped = Mapped(file: seq<byte>, st: ChannelState, a: Half, b: Half) {
    function At(d: Direction): Half { if d == A then a else b }
  }

  predicate Shape(c: Config, m: Mapped) {
    ValidRingSize(c.n) && |m.file| == RingOffsets(c.n).total
  }

  /** The direction with no bytes to look at: what every step but a byte copy works on. */
  function Blind(c: Config, m: Mapped, d: Direction): State { m.At(d).With(seq(c.n, _ => 0), m.st) }

  predicate CanStep(c: Config, m: Mapped, d: Direction, a: Action) {
    Shape(c, m) && Enabled(c, Blind(c, m, d), a)
  }

  /** The actions that touch the data area. */
  predicate Touches(a: Action) { a.SCopy? || a.RHeaderByte? || a.RCopyByte? }

  /** The slot of the file that direction `d`'s cursor `i` stands for, seen from offset `base`. */
  function Place(c: Config, base: nat, i: nat): nat
    requires c.n > 0
  {
    base + Slot(i, c.n)
  }

  lemma {:induction false} Inside(c: Config, d: Direction, i: nat)
    requires ValidRingSize(c.n)
    ensures ReadBase(c, d) == WriteBase(c, d) && WriteBase(c, d) + c.n <= RingOffsets(c.n).total
    ensures Place(c, WriteBase(c, d), i) < RingOffsets(c.n).total
  {
    RolesCross(c.n, 0);
  }

  predicate CanWrite(h: State) { h.s.pc.SWrite? && h.s.pc.done < MsgLen(h) }

  predicate CanReadHeader(h: State) { h.v.pc.RHeader? && |h.v.pc.header| < 8 }

  predicate CanReadPayload(h: State) { h.v.pc.RCopy? && |h.v.pc.buf| < h.v.pc.len }

  /** The sender's next frame byte goes into the file at its own role's offset. */
  function WriteByte(c: Config, m: Mapped, d: Direction): Mapped
    requires Shape(c, m) && CanWrite(m.At(d).h)
  {
    var s := Blind(c, m, d);
    Inside(c, d, s.s.cachedWc + s.s.pc.done);
    var x := Place(c, WriteBase(c, d), s.s.cachedWc + s.s.pc.done);
    Own(m.(file := m.file[x := RawFrame(s.s.nextSeq, s.s.payload)[s.s.pc.done]]), d,
        HalfOf(Goto(s, SWrite(s.s.pc.done + 1))))
  }

  /** A byte of the file as the receiver of `d` addresses it. */
  function ByteAt(c: Config, m: Mapped, d: Direction, i: nat): byte
    requires Shape(c, m)
  {
    Inside(c, d, i);
    m.file[Place(c, ReadBase(c, d), i)]
  }

  /** The receiver's next header byte comes from the file at its own role's offset. */
  function ReadHeader(c: Config, m: Mapped, d: Direction): Mapped
    requires Shape(c, m) && CanReadHeader(m.At(d).h)
  {
    var s := Blind(c, m, d);
    var h := s.v.pc.header;
    Own(m, d, HalfOf(Jump(s, s.v.pc.(header := h + [ByteAt(c, m, d, s.v.cachedRc + |h|)]))))
  }

  /** ... and so does its next payload byte. */
  function ReadPayload(c: Config, m: Mapped, d: Direction): Mapped
    requires Shape(c, m) && CanReadPayload(m.At(d).h)
  {
    var s := Blind(c, m, d);
    var b := s.v.pc.buf;
    Own(m, d, HalfOf(Jump(s, s.v.pc.(buf := b + [ByteAt(c, m, d, s.v.cachedRc + HEADER + |b|)]))))
  }

  /** Every other step is blind to the data; the state word is the channel's only one. */
  function Elsewhere(c: Config, m: Mapped, d: Direction, a: Action): Mapped
    requires CanStep(c, m, d, a)
  {
    var s, o := Blind(c, m, d), Blind(c, m, Other(d));
    var t := Step(c, s, a);
    Both(m, d, t, Duplex.Echo(s, t, o))
  }

  function Both(m: Mapped, d: Direction, t: State, o: State): Mapped {
    Own(Own(m.(st := t.st), d, HalfOf(t)), Other(d), HalfOf(o))
  }

  /** One step of direction `d` on the mapping. */
  function Take(c: Config, m: Mapped, d: Direction, a: Action): Mapped
    requires CanStep(c, m, d, a)
  {
    if a.SCopy? then WriteByte(c, m, d)
    else if a.RHeaderByte? then ReadHeader(c, m, d)
    else if a.RCopyByte? then ReadPayload(c, m, d)
    else Elsewhere(c, m, d, a)
  }

  function Own(m: Mapped, d: Direction, h: Half): Mapped { if d == A then m.(a := h) else m.(b := h) }

  // ----- what each direction sees -----

  /** Direction `d` as its ring machine sees it: the data area is a window of the file. */
  function View(c: Config, m: Mapped, d: Direction): State
    requires Shape(c, m)
  {
    Inside(c, d, 0);
    m.At(d).With(m.file[WriteBase(c, d)..WriteBase(c, d) + c.n], m.st)
  }

  /** The two windows and everything outside both: a byte write lands in one of them only. */
  lemma {:induction false} ByteWrite(c: Config, m: Mapped, d: Direction, i: nat, b: byte)
    requires Shape(c, m)
    ensures var x := Place(c, WriteBase(c, d), i);
            var file := m.file[x := b];
            var base, other := WriteBase(c, d), WriteBase(c, Other(d));
            && base + c.n <= |m.file| && other + c.n <= |m.file|
            && file[base..base + c.n] == m.file[base..base + c.n][Slot(i, c.n) := b]
            && file[other..other + c.n] == m.file[other..other + c.n]
            && (forall y | 0 <= y < |file| && !Region(base, c.n).Has(y) :: file[y] == m.file[y])
  {
    Inside(c, d, i);
    Inside(c, Other(d), 0);
    WriteByteAt(m.file, WriteBase(c, d), c.n, i, b);
    WriteStaysInside(m.file, Writer(d), c.n, i, [b]);
    RolesCross(c.n, 0);
  }

  // ----- steps that touch no data byte do the same whatever the data bytes are -----

  lemma {:induction false} TryBlind(c: Config, s: State, mem: seq<byte>, a: Action)
    requires |mem| == |s.mem| == c.n > 0
    ensures TryEnabled(c, s, a) <==> TryEnabled(c, s.(mem := mem), a)
    ensures TryEnabled(c, s, a) ==> TryStep(c, s.(mem := mem), a) == TryStep(c, s, a).(mem := mem)
  {
  }

  lemma {:induction false} EmitBlind(c: Config, s: State, mem: seq<byte>, a: Action)
    requires |mem| == |s.mem| == c.n > 0
    ensures EmitEnabled(c, s, a) <==> EmitEnabled(c, s.(mem := mem), a)
    ensures EmitEnabled(c, s, a) && !Touches(a) ==> EmitStep(c, s.(mem := mem), a) == EmitStep(c, s, a).(mem := mem)
  {
  }

  lemma {:induction false} BlockBlind(c: Config, s: State, mem: seq<byte>, a: Action)
    requires |mem| == |s.mem| == c.n > 0
    ensures BlockEnabled(c, s, a) <==> BlockEnabled(c, s.(mem := mem), a)
    ensures BlockEnabled(c, s, a) ==> BlockStep(c, s.(mem := mem), a) == BlockStep(c, s, a).(mem := mem)
  {
  }

  lemma {:induction false} PeekBlind(c: Config, s: State, mem: seq<byte>, a: Action)
    requires |mem| == |s.mem| == c.n > 0
    ensures PeekEnabled(c, s, a) <==> PeekEnabled(c, s.(mem := mem), a)
    ensures PeekEnabled(c, s, a) && !Touches(a) ==> PeekStep(c, s.(mem := mem), a) == PeekStep(c, s, a).(mem := mem)
  {
  }

  lemma {:induction false} ParkBlind(c: Config, s: State, mem: seq<byte>, a: Action)
    requires |mem| == |s.mem| == c.n > 0
    ensures ParkEnabled(c, s, a) <==> ParkEnabled(c, s.(mem := mem), a)
    ensures ParkEnabled(c, s, a) ==> ParkStep(c, s.(mem := mem), a) == ParkStep(c, s, a).(mem := mem)
  {
  }

  lemma {:induction false} TakeBlind(c: Config, s: State, mem: seq<byte>, a: Action)
    requires |mem| == |s.mem| == c.n > 0
    ensures TakeEnabled(c, s, a) <==> TakeEnabled(c, s.(mem := mem), a)
    ensures TakeEnabled(c, s, a) && !Touches(a) ==> TakeStep(c, s.(mem := mem), a) == TakeStep(c, s, a).(mem := mem)
  {
  }

  lemma {:induction false} MoveBlind(c: Config, s: State, mem: seq<byte>, a: Action)
    requires |mem| == |s.mem| == c.n > 0
    ensures MoveEnabled(c, s, a) <==> MoveEnabled(c, s.(mem := mem), a)
    ensures MoveEnabled(c, s, a) ==> MoveStep(c, s.(mem := mem), a) == MoveStep(c, s, a).(mem := mem)
  {
  }

  lemma {:induction false} AllBlind(c: Config, s: State, mem: seq<byte>, a: Action)
    requires |mem| == |s.mem| == c.n > 0
    ensures AllEnabled(c, s, a) <==> AllEnabled(c, s.(mem := mem), a)
    ensures AllEnabled(c, s, a) ==> AllStep(c, s.(mem := mem), a) == AllStep(c, s, a).(mem := mem)
  {
  }

  lemma {:induction false} SenderBlind(c: Config, s: State, mem: seq<byte>, a: Action)
    requires |mem| == |s.mem| == c.n > 0
    ensures SenderEnabled(c, s, a) <==> SenderEnabled(c, s.(mem := mem), a)
    ensures SenderEnabled(c, s, a) && !Touches(a) ==>
              SenderStep(c, s.(mem := mem), a) == SenderStep(c, s, a).(mem := mem)
  {
    TryBlind(c, s, mem, a);
    EmitBlind(c, s, mem, a);
    BlockBlind(c, s, mem, a);
  }

  lemma {:induction false} ReceiverBlind(c: Config, s: State, mem: seq<byte>, a: Action)
    requires |mem| == |s.mem| == c.n > 0
    ensures ReceiverEnabled(c, s, a) <==> ReceiverEnabled(c, s.(mem := mem), a)
    ensures ReceiverEnabled(c, s, a) && !Touches(a) ==>
              ReceiverStep(c, s.(mem := mem), a) == ReceiverStep(c, s, a).(mem := mem)
  {
    PeekBlind(c, s, mem, a);
    ParkBlind(c, s, mem, a);
    TakeBlind(c, s, mem, a);
  }

  lemma {:induction false} StepIsBlind(c: Config, s: State, mem: seq<byte>, a: Action)
    requires |mem| == |s.mem| == c.n > 0
    ensures Enabled(c, s, a) <==> Enabled(c, s.(mem := mem), a)
    ensures Enabled(c, s, a) && !Touches(a) ==> Step(c, s.(mem := mem), a) == Step(c, s, a).(mem := mem)
  {
    SenderBlind(c, s, mem, a);
    ReceiverBlind(c, s, mem, a);
    MoveBlind(c, s, mem, a);
    AllBlind(c, s, mem, a);
  }

  // ----- simulation -----

  /** The channel of two ring machines that the mapping stands for. */
  function Channel(c: Config, m: Mapped): Duplex.Channel
    requires Shape(c, m)
  {
    Duplex.Channel(View(c, m, A), View(c, m, B))
  }

  function Tag(d: Direction, a: Action): Duplex.Move { if d == A then Duplex.OnA(a) else Duplex.OnB(a) }

  /** What the two directions see after `d` became `t` and the other became `o`. */
  lemma {:induction false} BothViews(c: Config, m: Mapped, d: Direction, t: State, o: State)
    requires Shape(c, m)
    ensures var m' := Both(m, d, t, o);
            && m'.file == m.file && m'.st == t.st
            && View(c, m', d) == t.(mem := View(c, m, d).mem)
            && View(c, m', Other(d)) == o.(mem := View(c, m, Other(d)).mem, st := t.st)
  {
  }

  lemma {:induction false} OwnViews(c: Config, m: Mapped, d: Direction, t: State)
    requires Shape(c, m)
    ensures var m' := Own(m, d, HalfOf(t));
            && View(c, m', d) == t.(mem := View(c, m, d).mem, st := m.st)
            && View(c, m', Other(d)) == View(c, m, Other(d))
  {
  }

  lemma {:induction false} EchoIsBlind(s: State, t: State, o: State, x: seq<byte>, y: seq<byte>)
    requires o.st == s.st
    ensures Duplex.Echo(s.(mem := x), t.(mem := x), o.(mem := y)) == Duplex.Echo(s, t, o).(mem := y)
    ensures Duplex.Echo(s, t, o).st == t.st
  {
  }

  lemma {:induction false} CopySteps(c: Config, v: State)
    requires Enabled(c, v, SCopy)
    ensures v.s.pc.SWrite? && v.s.pc.done < MsgLen(v)
    ensures var i := v.s.pc.done;
            Step(c, v, SCopy)
              == v.(mem := v.mem[Slot(v.s.cachedWc + i, c.n) := RawFrame(v.s.nextSeq, v.s.payload)[i]],
                    s := v.s.(pc := SWrite(i + 1)))
  {
    CopyIsStep(c, v);
    CopyEffect(c, v);
  }

  lemma {:induction false} ByteIsSlot(c: Config, m: Mapped, d: Direction, i: nat)
    requires Shape(c, m)
    ensures c.n > 0 && |View(c, m, d).mem| == c.n && ByteAt(c, m, d, i) == View(c, m, d).mem[Slot(i, c.n)]
  {
    Inside(c, d, i);
  }

  lemma {:induction false} CanStepView(c: Config, m: Mapped, d: Direction, a: Action)
    requires Shape(c, m)
    ensures CanStep(c, m, d, a) <==> Enabled(c, View(c, m, d), a)
  {
    StepIsBlind(c, Blind(c, m, d), View(c, m, d).mem, a);
  }

  lemma {:induction false} CopyViews(c: Config, m: Mapped, d: Direction)
    requires Shape(c, m) && CanWrite(m.At(d).h)
    ensures var m', v := WriteByte(c, m, d), View(c, m, d);
            var i := v.s.pc.done;
            && Shape(c, m') && View(c, m', Other(d)) == View(c, m, Other(d))
            && View(c, m', d)
                 == v.(mem := v.mem[Slot(v.s.cachedWc + i, c.n) := RawFrame(v.s.nextSeq, v.s.payload)[i]],
                       s := v.s.(pc := SWrite(i + 1)))
  {
    var s := Blind(c, m, d);
    var i, b := s.s.cachedWc + s.s.pc.done, RawFrame(s.s.nextSeq, s.s.payload)[s.s.pc.done];
    ByteWrite(c, m, d, i, b);
    OwnViews(c, m.(file := m.file[Place(c, WriteBase(c, d), i) := b]), d, Goto(s, SWrite(s.s.pc.done + 1)));
  }

  lemma {:induction false} CopySimulates(c: Config, m: Mapped, d: Direction)
    requires CanStep(c, m, d, SCopy) && Enabled(c, View(c, m, d), SCopy)
    ensures var m' := WriteByte(c, m, d);
            && Shape(c, m')
            && View(c, m', d) == Step(c, View(c, m, d), SCopy) && View(c, m', Other(d)) == View(c, m, Other(d))
  {
    CopySteps(c, View(c, m, d));
    CopyViews(c, m, d);
  }

  lemma {:induction false} HeaderViews(c: Config, m: Mapped, d: Direction)
    requires Shape(c, m) && CanReadHeader(m.At(d).h)
    ensures var m', v := ReadHeader(c, m, d), View(c, m, d);
            var h := v.v.pc.header;
            && m'.file == m.file && View(c, m', Other(d)) == View(c, m, Other(d))
            && View(c, m', d)
                 == v.(v := v.v.(pc := v.v.pc.(header := h + [v.mem[Slot(v.v.cachedRc + |h|, c.n)]])))
  {
    var s := Blind(c, m, d);
    var i := s.v.cachedRc + |s.v.pc.header|;
    ByteIsSlot(c, m, d, i);
    OwnViews(c, m, d, Jump(s, s.v.pc.(header := s.v.pc.header + [ByteAt(c, m, d, i)])));
  }

  lemma {:induction false} HeaderSimulates(c: Config, m: Mapped, d: Direction)
    requires CanStep(c, m, d, RHeaderByte) && Enabled(c, View(c, m, d), RHeaderByte)
    ensures var m' := ReadHeader(c, m, d);
            && m'.file == m.file
            && View(c, m', d) == Step(c, View(c, m, d), RHeaderByte) && View(c, m', Other(d)) == View(c, m, Other(d))
  {
    HeaderStep(c, View(c, m, d));
    HeaderViews(c, m, d);
  }

  lemma {:induction false} PayloadViews(c: Config, m: Mapped, d: Direction)
    requires Shape(c, m) && CanReadPayload(m.At(d).h)
    ensures var m', v := ReadPayload(c, m, d), View(c, m, d);
            var b := v.v.pc.buf;
            && m'.file == m.file && View(c, m', Other(d)) == View(c, m, Other(d))
            && View(c, m', d)
                 == v.(v := v.v.(pc := v.v.pc.(buf := b + [v.mem[Slot(v.v.cachedRc + HEADER + |b|, c.n)]])))
  {
    var s := Blind(c, m, d);
    var i := s.v.cachedRc + HEADER + |s.v.pc.buf|;
    ByteIsSlot(c, m, d, i);
    OwnViews(c, m, d, Jump(s, s.v.pc.(buf := s.v.pc.buf + [ByteAt(c, m, d, i)])));
  }

  lemma {:induction false} PayloadSimulates(c: Config, m: Mapped, d: Direction)
    requires CanStep(c, m, d, RCopyByte) && Enabled(c, View(c, m, d), RCopyByte)
    ensures var m' := ReadPayload(c, m, d);
            && m'.file == m.file
            && View(c, m', d) == Step(c, View(c, m, d), RCopyByte) && View(c, m', Other(d)) == View(c, m, Other(d))
  {
    ReadStep(c, View(c, m, d));
    PayloadViews(c, m, d);
  }

  lemma {:induction false} BlindSimulates(c: Config, m: Mapped, d: Direction, a: Action)
    requires CanStep(c, m, d, a) && !Touches(a)
    ensures var m' := Elsewhere(c, m, d, a);
            && m'.file == m.file && Enabled(c, View(c, m, d), a)
            && View(c, m', d) == Step(c, View(c, m, d), a)
            && View(c, m', Other(d)) == Duplex.Echo(View(c, m, d), View(c, m', d), View(c, m, Other(d)))
  {
    var s, o := Blind(c, m, d), Blind(c, m, Other(d));
    var x, y := View(c, m, d).mem, View(c, m, Other(d)).mem;
    StepIsBlind(c, s, x, a);
    var t := Step(c, s, a);
    BothViews(c, m, d, t, Duplex.Echo(s, t, o));
    EchoIsBlind(s, t, o, x, y);
  }

  lemma {:induction false} TouchesKeepWord(c: Config, v: State, a: Action)
    requires Enabled(c, v, a) && Touches(a)
    ensures Step(c, v, a).st == v.st
  {
  }

  /** ... and every step of either ring can be taken on the file. */
  lemma {:induction false} EveryStepIsPossible(c: Config, m: Mapped, d: Direction, a: Action)
    requires Shape(c, m)
    ensures CanStep(c, m, d, a) <==> Duplex.CanMove(c, Channel(c, m), Tag(d, a))
  {
    CanStepView(c, m, d, a);
  }

  /** Every step on the file is the same step of the channel of two separate rings. */
  lemma {:induction false} StepSimulates(c: Config, m: Mapped, d: Direction, a: Action)
    requires CanStep(c, m, d, a)
    ensures Shape(c, Take(c, m, d, a))
    ensures Duplex.CanMove(c, Channel(c, m), Tag(d, a))
    ensures Channel(c, Take(c, m, d, a)) == Duplex.Moved(c, Channel(c, m), Tag(d, a))
  {
    DirectionSimulates(c, m, d, a);
    assert Other(Other(d)) == d;
  }

  lemma {:induction false} DirectionSimulates(c: Config, m: Mapped, d: Direction, a: Action)
    requires CanStep(c, m, d, a)
    ensures var m' := Take(c, m, d, a);
            && Shape(c, m') && Enabled(c, View(c, m, d), a)
            && View(c, m', d) == Step(c, View(c, m, d), a)
            && View(c, m', Other(d)) == Duplex.Echo(View(c, m, d), View(c, m', d), View(c, m, Other(d)))
  {
    CanStepView(c, m, d, a);
    if a.SCopy? {
      CopySimulates(c, m, d);
    } else if a.RHeaderByte? {
      HeaderSimulates(c, m, d);
    } else if a.RCopyByte? {
      PayloadSimulates(c, m, d);
    } else {
      BlindSimulates(c, m, d, a);
    }
    if Touches(a) { TouchesKeepWord(c, View(c, m, d), a); }
  }

  /** A step changes no byte of the file outside its own direction's data area: not the
      headers, and not the other direction's data. */
  lemma {:induction false} FileChangesInside(c: Config, m: Mapped, d: Direction, a: Action, y: nat)
    requires CanStep(c, m, d, a) && y < |m.file| && !Region(WriteBase(c, d), c.n).Has(y)
    ensures |Take(c, m, d, a).file| == |m.file| && Take(c, m, d, a).file[y] == m.file[y]
  {
    if a.SCopy? {
      var s := Blind(c, m, d);
      ByteWrite(c, m, d, s.s.cachedWc + s.s.pc.done, RawFrame(s.s.nextSeq, s.s.payload)[s.s.pc.done]);
    }
  }

  // ----- whole runs -----

  datatype Turn = Turn(d: Direction, a: Action)

  predicate Turns(c: Config, m: Mapped, ts: seq<Turn>)
    decreases |ts|
  {
    ts == [] || (CanStep(c, m, ts[0].d, ts[0].a) && Turns(c, Take(c, m, ts[0].d, ts[0].a), ts[1..]))
  }

  function After(c: Config, m: Mapped, ts: seq<Turn>): Mapped
    requires Turns(c, m, ts)
    decreases |ts|
  {
    if ts == [] then m else After(c, Take(c, m, ts[0].d, ts[0].a), ts[1..])
  }

  /** `create_with_config`: a file of zero bytes, both rings empty, ServerReady. */
  function Created(c: Config): Mapped {
    var h := HalfOf(RingMachine.Init(c));
    Mapped(seq(RingOffsets(c.n).total, _ => 0), ServerReady, h, h)
  }

  lemma {:induction false} CreatedIsJoint(c: Config)
    requires ValidRingSize(c.n)
    ensures c.Legal() && Shape(c, Created(c))
    ensures Duplex.Joint(c, View(c, Created(c), A), View(c, Created(c), B))
  {
    LegalSizeRange(c.n);
    var init := RingMachine.Init(c);
    Inside(c, A, 0);
    Inside(c, B, 0);
    assert forall d :: View(c, Created(c), d).mem == init.mem;
    assert Schedule(c, init, []) && init == Run(c, init, []);
  }

  lemma {:induction false} RunKeepsJoint(c: Config, m: Mapped, ts: seq<Turn>)
    requires Shape(c, m) && Duplex.Joint(c, View(c, m, A), View(c, m, B)) && Turns(c, m, ts)
    ensures var t := After(c, m, ts);
            Shape(c, t) && Duplex.Joint(c, View(c, t, A), View(c, t, B))
    decreases |ts|
  {
    if ts != [] {
      StepSimulates(c, m, ts[0].d, ts[0].a);
      Duplex.MoveKeepsJoint(c, Channel(c, m), Tag(ts[0].d, ts[0].a));
      RunKeepsJoint(c, Take(c, m, ts[0].d, ts[0].a), ts[1..]);
    }
  }

  /** Every mapping some run of both processes reaches. */
  ghost predicate Reached(c: Config, m: Mapped) {
    ValidRingSize(c.n) && exists ts :: Turns(c, Created(c), ts) && m == After(c, Created(c), ts)
  }

  lemma {:induction false} ReachedIsJoint(c: Config, m: Mapped)
    requires Reached(c, m)
    ensures Shape(c, m) && Duplex.Joint(c, View(c, m, A), View(c, m, B))
  {
    var ts :| Turns(c, Created(c), ts) && m == After(c, Created(c), ts);
    CreatedIsJoint(c);
    RunKeepsJoint(c, Created(c), ts);
  }

  /** Over every run of both processes on one file, each direction's window of the file is in
      a state its ring machine reaches alone, so every theorem about one ring holds of both;
      in particular the bytes of each window decode to what was sent on it and not yet taken. */
  lemma {:induction false} BothDirectionsAreRings(c: Config, m: Mapped, d: Direction)
    requires Reached(c, m)
    ensures Shape(c, m) && Reachable(c, View(c, m, d)) && View(c, m, d).st == m.st
    ensures |View(c, m, d).mem| > 0 && |View(c, m, d).consumed| <= |View(c, m, d).published|
    ensures Queue(View(c, m, d)) == View(c, m, d).published[|View(c, m, d).consumed|..]
  {
    ReachedIsJoint(c, m);
    ReachableInv(c, View(c, m, d));
    QueueIsPending(c, View(c, m, d));
  }

  lemma {:induction false} StepLeavesOther(c: Config, m: Mapped, d: Direction, a: Action)
    requires Shape(c, m) && Duplex.Joint(c, View(c, m, A), View(c, m, B)) && CanStep(c, m, d, a)
    ensures Shape(c, Take(c, m, d, a))
    ensures Duplex.SameRing(View(c, m, Other(d)), View(c, Take(c, m, d, a), Other(d)))
  {
    StepSimulates(c, m, d, a);
    Duplex.MoveKeepsJoint(c, Channel(c, m), Tag(d, a));
  }

  /** Duplex independence: a step on one direction, a sender's byte written into the shared
      file included, leaves the other direction's window, cursors, parties and history as
      they were, and with them the queue that the window decodes to. */
  lemma {:induction false} OtherQueueUntouched(c: Config, m: Mapped, d: Direction, a: Action)
    requires Reached(c, m) && CanStep(c, m, d, a)
    ensures var m' := Take(c, m, d, a);
            && Shape(c, m') && Duplex.SameRing(View(c, m, Other(d)), View(c, m', Other(d)))
            && |View(c, m, Other(d)).mem| == |View(c, m', Other(d)).mem| == c.n > 0
            && Queue(View(c, m', Other(d))) == Queue(View(c, m, Other(d)))
  {
    ReachedIsJoint(c, m);
    StepLeavesOther(c, m, d, a);
  }
}
