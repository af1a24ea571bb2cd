/** A run of two honest ends whose session admits every frame and in which the first
    update still hands out more frame credit than the receiver has room for. */
module FrameOvergrant {
  import opened Bytes
  import opened StreamModel
  import opened ReliableLink

  const CONFIG: ValidConfig := Config(1, 4, 4, 16)
  const OPENER := Setup(false, CONFIG, 4, 2, PLAIN, 0, 0, [])
  const SERVER := Setup(true, CONFIG, 4, 2, PLAIN, 4, 2, [])

  const GRANT := WindowUpdate(0, 4, 2)
  const UPDATE := WindowUpdate(1, 1, 2)

  function Block(offset: nat): Frame {
    Data(offset, 1, [7])
  }

  /** The opener after the grant, after one written byte, after the update, after three more. */
  const A1 := Start(OPENER).(tx := Sender(0, 0, 4, 2, false))
  const A2 := A1.(tx := Sender(1, 0, 3, 1, false), io := Io([], [Block(0)], [], [WriteDone(0, [7], None)], 1))
  const A3 := A2.(tx := Sender(1, 1, 4, 3, false))
  const A4 := A3.(tx := Sender(4, 1, 1, 0, false),
                  io := Io([], [Block(0), Block(1), Block(2), Block(3)], [],
                           [WriteDone(0, [7], None), WriteDone(1, [7, 7, 7], None)], 2))

  /** The serving side after the first byte, after reading it, after two more bytes. */
  const B0 := Start(SERVER)
  const B1 := B0.(rx := Receiver(1, 4, 2, 3, 1, [[7]], 1, 0, 0, 0, false, 0))
  const B2 := B0.(rx := Receiver(1, 4, 2, 4, 2, [], 0, 1, 1, 2, false, 0),
                  io := Io([], [GRANT, UPDATE], [], [ReadDone(0, [7], None)], 1))
  const B3 := B2.(rx := Receiver(2, 4, 2, 3, 1, [[7]], 1, 1, 1, 2, false, 0))
  const B4 := B2.(rx := Receiver(3, 4, 2, 2, 0, [[7], [7]], 2, 1, 1, 2, false, 0))

  lemma {:induction false} OpenerFunded()
    ensures OnWindowUpdate(Start(OPENER), 0, 4, 2) == A1
    ensures OnWindowUpdate(A2, 1, 1, 2) == A3
  {
  }

  lemma {:induction false} OneByteSent()
    ensures AsyncWrite(A1, [7], None) == A2
  {
    var s := A1.(writeQ := [PendingWrite(0, [7], 0, None, false)], io := A1.io.(nextOp := 1));
    assert [] + s.writeQ == s.writeQ;
    assert NextData(s) == Block(0) && [] + [Block(0)] == [Block(0)];
    var t := SendChunk(s);
    assert t.writeQ == [PendingWrite(0, [7], 1, None, false)];
    assert CompleteWrite(t, None) == A2;
    assert Pump(t) == Pump(A2) == A2;
    assert UnsentBytes([]) == 0;
  }

  /** The front write of three bytes with `n` of them sent. */
  function Sending(n: nat): Stream
    requires n <= 3
  {
    A3.(tx := Sender(1 + n, 1, 4 - n, 3 - n, false),
        writeQ := [PendingWrite(1, [7, 7, 7], n, None, false)],
        io := A3.io.(sent := A4.io.sent[..1 + n], nextOp := 2))
  }

  lemma {:induction false} NextByteSent(n: nat)
    requires n < 3
    ensures Pump(Sending(n)) == Pump(Sending(n + 1))
  {
    var s := Sending(n);
    assert [7, 7, 7][n..n + 1] == [7];
    assert NextData(s) == Block(1 + n);
    assert A4.io.sent[..2 + n] == A4.io.sent[..1 + n] + [Block(1 + n)];
    assert SendChunk(s) == Sending(n + 1);
  }

  lemma {:induction false} WriteAccepted()
    ensures AsyncWrite(A3, [7, 7, 7], None) == Pump(Sending(0))
  {
    hide Pump;
    assert Sending(0) == A3.(writeQ := [] + [PendingWrite(1, [7, 7, 7], 0, None, false)], io := A3.io.(nextOp := 2));
    assert UnsentBytes([]) == 0;
  }

  lemma {:induction false} LastByteSent()
    ensures Pump(Sending(3)) == A4
  {
    assert A4.io.sent[..4] == A4.io.sent;
    assert [7, 7, 7][..3] == [7, 7, 7];
    assert [WriteDone(0, [7], None)] + [WriteDone(1, [7, 7, 7], None)] == A4.io.done;
    assert CompleteWrite(Sending(3), None) == A4;
    assert Pump(A4) == A4;
  }

  lemma {:induction false} ThreeBytesSent()
    ensures AsyncWrite(A3, [7, 7, 7], None) == A4
  {
    hide Pump, Sending, AsyncWrite;
    WriteAccepted();
    NextByteSent(0);
    NextByteSent(1);
    NextByteSent(2);
    LastByteSent();
  }

  lemma {:induction false} FirstByteArrives()
    ensures OnData(B0, 0, 1, [7]) == B1
  {
    hide Start, Dispatch, Finish;
    ServerStarts();
    NothingServed(B1);
    assert [7][0..] == [7] && [] + [[7]] == [[7]];
    assert Buffer(Charge(B0, 1), [7]) == B1;
  }

  lemma {:induction false} ServerStarts()
    ensures B0.rx == Receiver(0, 4, 2, 4, 2, [], 0, 0, 0, 0, false, 0)
    ensures B0.gw == PLAIN && B0.state == Open && B0.readQ == []
  {
  }

  /** The first byte with a read waiting for it, and after it was copied. */
  const B1_READ := B1.(readQ := [PendingRead(0, 1, None)], io := B1.io.(nextOp := 1))
  const B1_TAKEN := B1.(rx := Receiver(1, 4, 2, 3, 2, [], 0, 1, 0, 0, false, 0),
                        io := Io([], [GRANT], [], [ReadDone(0, [7], None)], 1))

  lemma {:induction false} FirstByteTaken()
    ensures TakeRead(B1_READ) == B1_TAKEN
  {
    assert B0.io.sent == [GRANT];
    assert [7][..1] == [7];
  }

  lemma {:induction false} FirstUpdateSent()
    ensures MaybeUpdate(B1_TAKEN) == B2
  {
    assert PendingUpdate(B1_TAKEN.rx) == UPDATE;
    assert [GRANT] + [UPDATE] == [GRANT, UPDATE];
  }

  lemma {:induction false} FirstByteRead()
    ensures OnData(B0, 0, 1, [7]) == B1
    ensures AsyncRead(B1, 1, None) == B2
  {
    hide OnData, TakeRead, MaybeUpdate;
    FirstByteArrives();
    FirstByteTaken();
    FirstUpdateSent();
    assert B1.readQ + B1_READ.readQ == B1_READ.readQ;
    assert Dispatch(B1_READ) == Dispatch(B2) == B2;
  }

  lemma {:induction false} WindowOverrun()
    ensures OnData(B2, 1, 1, [7]) == B3 && OnData(B3, 2, 1, [7]) == B4
    ensures OnData(B4, 3, 1, [7]).state == Reset
  {
    assert [7][0..] == [7];
    assert [] + [[7]] == [[7]] && [[7]] + [[7]] == [[7], [7]];
    assert Buffer(Charge(B2, 1), [7]) == B3 && Dispatch(B3) == B3;
    assert Buffer(Charge(B3, 1), [7]) == B4 && Dispatch(B4) == B4;
  }

  lemma {:induction false} OnTheWire()
    ensures Ctrls([GRANT]) == [GRANT] && Ctrls([GRANT, UPDATE]) == [GRANT, UPDATE]
    ensures Datas(A2.io.sent) == [Block(0)] && Datas(A4.io.sent) == A4.io.sent
  {
    hide Datas, Ctrls;
    EmptyWire();
    ClassesSnoc([], GRANT);
    ClassesSnoc([GRANT], UPDATE);
    ClassesSnoc([], Block(0));
    ClassesSnoc([Block(0)], Block(1));
    ClassesSnoc([Block(0), Block(1)], Block(2));
    ClassesSnoc([Block(0), Block(1), Block(2)], Block(3));
    assert [] + [GRANT] == [GRANT] && [GRANT] + [UPDATE] == [GRANT, UPDATE];
    assert [] + [Block(0)] == [Block(0)] && [Block(0)] + [Block(1)] == [Block(0), Block(1)];
    assert [Block(0), Block(1)] + [Block(2)] == [Block(0), Block(1), Block(2)];
    assert [Block(0), Block(1), Block(2)] + [Block(3)] == A4.io.sent;
  }

  /** The opener and the serving side after the first byte was read and reported. */
  lemma {:induction false} FirstExchange()
    ensures LinkRun(Connect(OPENER, SERVER), FIRST) == Link(A3, B2, true, 1, 0, 0, 2)
  {
    hide OnWindowUpdate, OnData, AsyncWrite, AsyncRead, Datas, Ctrls, Start, LinkRun;
    OnTheWire();
    OpenerFunded();
    OneByteSent();
    FirstByteRead();
    StartsIdle();
    var l1 := Link(Start(OPENER), B0, true, 0, 0, 0, 0);
    var l2 := Link(A1, B0, true, 0, 0, 0, 1);
    var l3 := Link(A2, B0, true, 0, 0, 0, 1);
    var l4 := Link(A2, B1, true, 1, 0, 0, 1);
    var l5 := Link(A2, B2, true, 1, 0, 0, 1);
    Chain(Connect(OPENER, SERVER), l1, FIRST);
    Chain(l1, l2, FIRST[1..]);
    Chain(l2, l3, FIRST[2..]);
    Chain(l3, l4, FIRST[3..]);
    Chain(l4, l5, FIRST[4..]);
    Chain(l5, Link(A3, B2, true, 1, 0, 0, 2), FIRST[5..]);
  }

  const FIRST := [AcceptOpen, CtrlToA, CallA(WriteCall([7], None)), DataToB, CallB(ReadCall(1, None)), CtrlToA]
  const SECOND := [CallA(WriteCall([7, 7, 7], None)), DataToB, DataToB, DataToB]

  lemma {:induction false} StartsIdle()
    ensures B0.io.sent == [GRANT] && Start(OPENER).rx.window == 4
    ensures Start(OPENER).state == Open && B0.state == Open
  {
  }

  lemma {:induction false} Chain(l: Link, l1: Link, steps: seq<LinkStep>)
    requires steps != [] && LinkNext(l, steps[0]) == l1
    ensures LinkRun(l, steps) == LinkRun(l1, steps[1..])
    ensures steps[1..] == [] ==> LinkRun(l, steps) == l1
  {
    hide LinkNext;
  }

  lemma {:induction false} SecondExchange()
    ensures LinkRun(Link(A3, B2, true, 1, 0, 0, 2), SECOND) == Link(A4, OnData(B4, 3, 1, [7]), true, 4, 0, 0, 2)
  {
    hide OnData, AsyncWrite, Datas, Ctrls, Start, LinkRun;
    OnTheWire();
    StartsIdle();
    ThreeBytesSent();
    WindowOverrun();
    var l1 := Link(A4, B2, true, 1, 0, 0, 2);
    var l2 := Link(A4, B3, true, 2, 0, 0, 2);
    var l3 := Link(A4, B4, true, 3, 0, 0, 2);
    Chain(Link(A3, B2, true, 1, 0, 0, 2), l1, SECOND);
    Chain(l1, l2, SECOND[1..]);
    Chain(l2, l3, SECOND[2..]);
    Chain(l3, Link(A4, OnData(B4, 3, 1, [7]), true, 4, 0, 0, 2), SECOND[3..]);
  }

  /** A two-frame window: one byte is sent and read, the update grants two more frames
      on top of the one left, and the third of the next three frames resets the stream. */
  lemma {:induction false} HonestSenderReset()
    ensures Matched(OPENER, SERVER)
    ensures var l := LinkRun(LinkRun(Connect(OPENER, SERVER), FIRST), SECOND);
            l.b.state == Reset && l.a.state == Open && l.a.io.refused == [] && A4.tx.creditFrames == 0
  {
    hide LinkRun, OnData, Connect;
    FirstExchange();
    SecondExchange();
    WindowOverrun();
  }
}
