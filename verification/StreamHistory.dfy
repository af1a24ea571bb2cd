/** What a stream's history says: the bytes it handed out, took in and put on the wire. */
module StreamHistory {
  import opened Bytes
  import opened StreamModel

  /** Bytes delivered to the caller's reads, in order. */
  function ReadBytes(done: seq<Completion>): seq<byte> {
    if done == [] then []
    else ReadBytes(done[..|done| - 1]) + BytesRead(done[|done| - 1])
  }

  function BytesRead(c: Completion): seq<byte> {
    if c.ReadDone? then c.bytes else []
  }

  /** Bytes the caller's writes were told entered the send window, in order. */
  function WriteBytes(done: seq<Completion>): seq<byte> {
    if done == [] then []
    else WriteBytes(done[..|done| - 1]) + BytesWritten(done[|done| - 1])
  }

  function BytesWritten(c: Completion): seq<byte> {
    if c.WriteDone? then c.bytes else []
  }

  /** Payload bytes of the admitted DATA frames, in order. */
  function SentBytes(frames: seq<Frame>): seq<byte> {
    if frames == [] then []
    else SentBytes(frames[..|frames| - 1]) + Payload(frames[|frames| - 1])
  }

  function Payload(f: Frame): seq<byte> {
    if f.Data? then f.data else []
  }

  /** Byte credit granted by the admitted WINDOW_UPDATE frames. */
  function GrantedBytes(frames: seq<Frame>): nat {
    if frames == [] then 0
    else GrantedBytes(frames[..|frames| - 1]) + Grant(frames[|frames| - 1])
  }

  function Grant(f: Frame): nat {
    if f.WindowUpdate? then f.bytes else 0
  }

  /** Frame credit granted by the admitted WINDOW_UPDATE frames. */
  function GrantedFrames(frames: seq<Frame>): nat {
    if frames == [] then 0
    else GrantedFrames(frames[..|frames| - 1]) + FrameGrant(frames[|frames| - 1])
  }

  function FrameGrant(f: Frame): nat {
    if f.WindowUpdate? then f.frames else 0
  }

  /** Number of admitted DATA frames. */
  function DataCount(frames: seq<Frame>): nat {
    if frames == [] then 0
    else DataCount(frames[..|frames| - 1]) + (if frames[|frames| - 1].Data? then 1 else 0)
  }

  /** A read that reported a clean end of stream. */
  predicate IsEof(c: Completion) {
    c.ReadDone? && c.bytes == [] && c.error == None
  }

  lemma {:induction false} ReadBytesSnoc(done: seq<Completion>, c: Completion)
    ensures ReadBytes(done + [c]) == ReadBytes(done) + BytesRead(c)
  {
    assert (done + [c])[..|done|] == done;
  }

  lemma {:induction false} WriteBytesSnoc(done: seq<Completion>, c: Completion)
    ensures WriteBytes(done + [c]) == WriteBytes(done) + BytesWritten(c)
  {
    assert (done + [c])[..|done|] == done;
  }

  lemma {:induction false} SentBytesSnoc(frames: seq<Frame>, f: Frame)
    ensures SentBytes(frames + [f]) == SentBytes(frames) + Payload(f)
  {
    assert (frames + [f])[..|frames|] == frames;
  }

  lemma {:induction false} GrantedBytesSnoc(frames: seq<Frame>, f: Frame)
    ensures GrantedBytes(frames + [f]) == GrantedBytes(frames) + Grant(f)
  {
    assert (frames + [f])[..|frames|] == frames;
  }

  lemma {:induction false} FrameCountsSnoc(frames: seq<Frame>, f: Frame)
    ensures GrantedFrames(frames + [f]) == GrantedFrames(frames) + FrameGrant(f)
    ensures DataCount(frames + [f]) == DataCount(frames) + if f.Data? then 1 else 0
  {
    assert (frames + [f])[..|frames|] == frames;
  }

  lemma {:induction false} ReadBytesAppend(a: seq<Completion>, b: seq<Completion>)
    ensures ReadBytes(a + b) == ReadBytes(a) + ReadBytes(b)
    decreases |b|
  {
    if b == [] {
      assert a + b == a;
    } else {
      var n := |b| - 1;
      assert a + b == (a + b[..n]) + [b[n]];
      ReadBytesAppend(a, b[..n]);
      ReadBytesSnoc(a + b[..n], b[n]);
    }
  }

  lemma {:induction false} WriteBytesAppend(a: seq<Completion>, b: seq<Completion>)
    ensures WriteBytes(a + b) == WriteBytes(a) + WriteBytes(b)
    decreases |b|
  {
    if b == [] {
      assert a + b == a;
    } else {
      var n := |b| - 1;
      assert a + b == (a + b[..n]) + [b[n]];
      WriteBytesAppend(a, b[..n]);
      WriteBytesSnoc(a + b[..n], b[n]);
    }
  }

  lemma {:induction false} BytesCons(c: Completion, rest: seq<Completion>)
    ensures ReadBytes([c] + rest) == BytesRead(c) + ReadBytes(rest)
    ensures WriteBytes([c] + rest) == BytesWritten(c) + WriteBytes(rest)
  {
    assert [] + [c] == [c];
    ReadBytesSnoc([], c);
    WriteBytesSnoc([], c);
    assert ReadBytes([c]) == BytesRead(c) && WriteBytes([c]) == BytesWritten(c);
    hide ReadBytes, WriteBytes;
    ReadBytesAppend([c], rest);
    WriteBytesAppend([c], rest);
  }

  lemma {:induction false} EndReadsMoveNothing(q: seq<PendingRead>, error: Option<IoError>)
    ensures ReadBytes(EndReads(q, error)) == [] && WriteBytes(EndReads(q, error)) == []
  {
    if q != [] {
      EndReadsMoveNothing(q[1..], error);
      BytesCons(ReadDone(q[0].id, [], error), EndReads(q[1..], error));
    }
  }

  /** Ending a queue of writes reports the admitted prefixes, front first. */
  function Prefixes(q: seq<PendingWrite>): seq<byte> {
    if q == [] then [] else AdmittedPrefix(q[0]) + Prefixes(q[1..])
  }

  lemma {:induction false} EndWritesReport(q: seq<PendingWrite>, error: IoError)
    ensures ReadBytes(EndWrites(q, error)) == []
    ensures WriteBytes(EndWrites(q, error)) == Prefixes(q)
  {
    if q != [] {
      EndWritesReport(q[1..], error);
      BytesCons(WriteDone(q[0].id, AdmittedPrefix(q[0]), Some(error)), EndWrites(q[1..], error));
    }
  }

  /** Completions that move no read bytes and report `w` written ones. */
  lemma {:induction false} AppendReport(done: seq<Completion>, x: seq<Completion>, y: seq<Completion>)
    requires ReadBytes(x) == [] && WriteBytes(x) == [] && ReadBytes(y) == []
    ensures ReadBytes(done + x + y) == ReadBytes(done)
    ensures WriteBytes(done + x + y) == WriteBytes(done) + WriteBytes(y)
  {
    hide ReadBytes, WriteBytes;
    ReadBytesAppend(done, x);
    ReadBytesAppend(done + x, y);
    WriteBytesAppend(done, x);
    WriteBytesAppend(done + x, y);
  }

  /** The completions of `Finish`, `FailAll` and the deadline sweep. */
  lemma {:induction false} EndAllReport(done: seq<Completion>, rq: seq<PendingRead>, re: Option<IoError>,
                     wq: seq<PendingWrite>, we: IoError)
    ensures ReadBytes(done + EndReads(rq, re) + EndWrites(wq, we)) == ReadBytes(done)
    ensures WriteBytes(done + EndReads(rq, re) + EndWrites(wq, we)) == WriteBytes(done) + Prefixes(wq)
  {
    EndReadsMoveNothing(rq, re);
    EndWritesReport(wq, we);
    AppendReport(done, EndReads(rq, re), EndWrites(wq, we));
  }
}
