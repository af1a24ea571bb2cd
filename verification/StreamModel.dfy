/** One end of a byte stream as a value, and every operation on it as a function.

    `ByteStreamHandle.dfy` holds the same operations as methods that update an
    object in place; each of them is proved equal to its function here.

    The session below the stream is a script of admission verdicts: `script[k]`
    answers the k-th frame offered, and an exhausted script admits. Every
    statement about runs quantifies over the script, so it covers every pattern
    of admission, back-pressure and failure. */
module StreamModel {
  import opened Bytes

  datatype StreamState = Opening | Open | HalfClosedLocal | HalfClosedRemote | Closed | Reset

  /** Verdict of the session on one offered frame. */
  datatype Admission = Admitted | WouldBlock | Failed

  /** Reasons a STREAM_RESET carries. */
  datatype Status =
    | ProtocolError
    | ResourceExhausted
    | Unavailable
    | DeadlineExceeded
    | AlreadyExists
    | PermissionDenied
    | Unimplemented
    | OtherStatus(code: nat)

  datatype Frame =
    | Data(offset: nat, length: nat, data: seq<byte>)
    | WindowUpdate(consumed: nat, bytes: nat, frames: nat)
    | Fin(finalOffset: nat)
    | ResetFrame(reason: Option<Status>)

  datatype IoError =
    | ReadBufferEmpty
    | StreamReset
    | ReadLimit
    | NotWritable
    | WriteAfterFin
    | WriteBacklogFull
    | WriteLimit
    | ReadDeadline
    | WriteDeadline
    | SendFailed
    | SessionLost

  datatype ConnectOutcome = Connected | ConnectClosed | ConnectFailed(reason: Option<Status>)

  /** One invocation of a caller's handler. `bytes` is what the operation moved:
      the bytes copied to the reader, or the prefix of the written data that
      entered the send window; the source reports its length. */
  datatype Completion =
    | ReadDone(id: nat, bytes: seq<byte>, error: Option<IoError>)
    | WriteDone(id: nat, bytes: seq<byte>, error: Option<IoError>)
    | ConnectDone(outcome: ConnectOutcome)

  datatype PendingRead = PendingRead(id: nat, capacity: nat, deadline: Option<nat>)
  datatype PendingWrite =
    PendingWrite(id: nat, data: seq<byte>, offset: nat, deadline: Option<nat>, finAfter: bool)

  datatype Config = Config(maxChunk: nat, maxReads: nat, maxWrites: nat, maxWriteBytes: nat)

  /** The limits a service accepts at attach time. */
  type ValidConfig = c: Config |
    && 1 <= c.maxChunk <= 1024 * 1024
    && 1 <= c.maxReads <= 4096
    && 1 <= c.maxWrites <= 4096
    && 1 <= c.maxWriteBytes <= 64 * 1024 * 1024
    witness Config(1, 1, 1, 1)

  /** What one end receives: the next offset, both windows, the buffered chunks. */
  datatype Receiver = Receiver(
    next: nat,
    window: nat,
    windowFrames: nat,
    remaining: int,
    remainingFrames: int,
    chunks: seq<seq<byte>>,
    buffered: int,
    consumed: nat,
    reported: nat,
    reportedFrames: int,
    finReceived: bool,
    finalOffset: nat)

  /** What one end sends: its offset and the credit it holds. */
  datatype Sender = Sender(
    next: nat,
    consumedByPeer: nat,
    credit: nat,
    creditFrames: nat,
    finSent: bool)

  /** Gateway fields: `prelude` holds the prelude bytes taken so far, `handler`
      tells whether a connect handler is still held. */
  datatype Gateway = Gateway(
    gateway: bool,
    initiator: bool,
    pending: bool,
    prelude: seq<byte>,
    dialDeadline: nat,
    handler: bool,
    fired: bool)

  /** What the stream exchanged with its surroundings, oldest first. */
  datatype Io = Io(
    script: seq<Admission>,
    sent: seq<Frame>,
    refused: seq<Frame>,
    done: seq<Completion>,
    nextOp: nat)

  datatype Stream = Stream(
    state: StreamState,
    cfg: ValidConfig,
    rx: Receiver,
    tx: Sender,
    gw: Gateway,
    resetReason: Option<Status>,
    readQ: seq<PendingRead>,
    writeQ: seq<PendingWrite>,
    io: Io)

  const PRELUDE_BYTES := 2
  const PRELUDE_CONNECTED: seq<byte> := [0, 0]

  predicate Terminal(state: StreamState) {
    state == Closed || state == Reset
  }

  // ---- The session -------------------------------------------------------

  function Verdict(io: Io): Admission {
    if io.script == [] then Admitted else io.script[0]
  }

  /** The session after it answered one offered frame. */
  function Offer(io: Io, frame: Frame): Io {
    var rest := if io.script == [] then [] else io.script[1..];
    if Verdict(io) == Admitted then io.(script := rest, sent := io.sent + [frame])
    else io.(script := rest, refused := io.refused + [frame])
  }

  function Send(s: Stream, frame: Frame): Stream {
    s.(io := Offer(s.io, frame))
  }

  function Complete(s: Stream, c: Completion): Stream {
    s.(io := s.io.(done := s.io.done + [c]))
  }

  // ---- Ending a stream ---------------------------------------------------

  /** Completions of every pending read, in queue order, with no bytes. */
  function EndReads(readQ: seq<PendingRead>, error: Option<IoError>): seq<Completion> {
    if readQ == [] then []
    else [ReadDone(readQ[0].id, [], error)] + EndReads(readQ[1..], error)
  }

  function AdmittedPrefix(w: PendingWrite): seq<byte> {
    if w.offset <= |w.data| then w.data[..w.offset] else w.data
  }

  /** Completions of every pending write, in queue order, with the admitted prefix. */
  function EndWrites(writeQ: seq<PendingWrite>, error: IoError): seq<Completion> {
    if writeQ == [] then []
    else [WriteDone(writeQ[0].id, AdmittedPrefix(writeQ[0]), Some(error))] + EndWrites(writeQ[1..], error)
  }

  /** The one-shot connect handler, fired if it is still held. */
  function FireConnect(s: Stream, outcome: ConnectOutcome): (r: Stream)
    ensures r == s.(gw := s.gw.(handler := r.gw.handler, fired := r.gw.fired), io := s.io.(done := r.io.done))
  {
    if s.gw.handler && !s.gw.fired then
      Complete(s.(gw := s.gw.(handler := false, fired := true)), ConnectDone(outcome))
    else s
  }

  predicate CleanEnd(terminal: StreamState) {
    terminal == Closed || terminal == HalfClosedRemote
  }

  function Finish(s: Stream, terminal: StreamState): (r: Stream)
    ensures r == s.(state := terminal, readQ := [], writeQ := [],
                    gw := s.gw.(handler := r.gw.handler, fired := r.gw.fired), io := s.io.(done := r.io.done))
  {
    var s1 := s.(state := terminal);
    var s2 := if s.gw.initiator then
                FireConnect(s1, if CleanEnd(terminal) then ConnectClosed else ConnectFailed(s.resetReason))
              else s1;
    var readError := if CleanEnd(terminal) then None else Some(StreamReset);
    s2.(readQ := [], writeQ := [],
        io := s2.io.(done := s2.io.done + EndReads(s.readQ, readError) + EndWrites(s.writeQ, StreamReset)))
  }

  /** Tell the peer, whatever the session answers, and end the stream. */
  function ResetFor(s: Stream, reason: Status): Stream {
    Finish(if s.state == Reset then s else Send(s, ResetFrame(Some(reason))), Reset)
  }

  /** Session loss. */
  function FailAll(s: Stream): Stream {
    var s1 := if s.gw.initiator then FireConnect(s, ConnectClosed) else s;
    s1.(state := Reset, readQ := [], writeQ := [],
        io := s1.io.(done := s1.io.done + EndReads(s.readQ, Some(SessionLost)) + EndWrites(s.writeQ, SessionLost)))
  }

  // ---- Receiving ---------------------------------------------------------

  function CompleteRead(s: Stream, bytes: seq<byte>): Stream
    requires s.readQ != []
  {
    Complete(s.(readQ := s.readQ[1..]), ReadDone(s.readQ[0].id, bytes, None))
  }

  /** Copy from the front chunk to the front read. */
  function TakeRead(s: Stream): Stream
    requires s.readQ != [] && s.rx.chunks != []
  {
    var chunk := s.rx.chunks[0];
    var count := Min(s.readQ[0].capacity, |chunk|);
    var rx := s.rx.(consumed := s.rx.consumed + count, buffered := s.rx.buffered - count);
    var rx1 := if count == |chunk| then
                 rx.(chunks := rx.chunks[1..],
                     remainingFrames := Min((rx.remainingFrames + 1) % U32, rx.windowFrames))
               else rx.(chunks := [chunk[count..]] + rx.chunks[1..]);
    CompleteRead(s.(rx := rx1), chunk[..count])
  }

  function PendingUpdate(rx: Receiver): Frame {
    WindowUpdate(rx.consumed, Sub64(rx.consumed, rx.reported), Sub32(rx.remainingFrames, rx.reportedFrames))
  }

  /** Grant the consumed bytes back once a quarter of the window, or all of it, was used. */
  function MaybeUpdate(s: Stream): Stream {
    var consumed := Sub64(s.rx.consumed, s.rx.reported);
    if s.rx.remaining != 0 && consumed < s.rx.window / 4 then s
    else
      var s1 := Send(s, PendingUpdate(s.rx));
      if Verdict(s.io) != Admitted then s1
      else s1.(rx := s.rx.(reported := s.rx.consumed,
                           reportedFrames := s.rx.remainingFrames,
                           remaining := Min(s.rx.remaining + consumed, s.rx.window)))
  }

  predicate AtEnd(rx: Receiver) {
    rx.finReceived && rx.next == rx.finalOffset
  }

  /** A read of buffered bytes. */
  function ServeRead(s: Stream): Stream
    requires s.readQ != [] && s.rx.chunks != []
  {
    MaybeUpdate(TakeRead(s))
  }

  /** A read at the end of the peer's direction: no bytes, no error. */
  function ServeEof(s: Stream): Stream
    requires s.readQ != []
  {
    var s1 := CompleteRead(s, []);
    if s.tx.finSent then Finish(s1, Closed) else s1
  }

  /** Serve pending reads from the buffer until one of them has to wait. */
  function Dispatch(s: Stream): Stream
    decreases |s.readQ|
  {
    if s.readQ == [] then s
    else if s.rx.chunks == [] then
      if AtEnd(s.rx) then Dispatch(ServeEof(s)) else s
    else Dispatch(ServeRead(s))
  }

  /** What serving reads leaves alone. */
  predicate DispatchFrame(s: Stream, r: Stream) {
    && r.tx == s.tx && r.cfg == s.cfg && r.resetReason == s.resetReason
    && r.rx.next == s.rx.next && r.rx.window == s.rx.window && r.rx.windowFrames == s.rx.windowFrames
    && r.rx.finReceived == s.rx.finReceived && r.rx.finalOffset == s.rx.finalOffset
    && r.gw == s.gw.(handler := r.gw.handler, fired := r.gw.fired)
    && (r.state == s.state || (r.state == Closed && AtEnd(s.rx) && s.tx.finSent))
  }

  lemma {:induction false} ServeFrames(s: Stream)
    requires s.readQ != []
    ensures s.rx.chunks != [] ==> DispatchFrame(s, ServeRead(s)) && |ServeRead(s).readQ| < |s.readQ|
    ensures AtEnd(s.rx) ==> DispatchFrame(s, ServeEof(s)) && |ServeEof(s).readQ| < |s.readQ|
  {
    hide Finish, Offer, Sub32, Sub64;
  }

  lemma {:induction false} DispatchFrames(s: Stream)
    ensures DispatchFrame(s, Dispatch(s))
    ensures Dispatch(s).readQ == [] || (Dispatch(s).rx.chunks == [] && !AtEnd(s.rx))
    decreases |s.readQ|
  {
    hide ServeRead, ServeEof;
    if s.readQ != [] {
      ServeFrames(s);
      if s.rx.chunks != [] {
        DispatchFrames(ServeRead(s));
      } else if AtEnd(s.rx) {
        DispatchFrames(ServeEof(s));
      }
    }
  }

  lemma {:induction false} NothingServed(s: Stream)
    requires s.readQ == []
    ensures Dispatch(s) == s
  {
  }

  function Charge(s: Stream, count: nat): Stream {
    s.(rx := s.rx.(remaining := s.rx.remaining - count,
                   remainingFrames := s.rx.remainingFrames - 1,
                   next := s.rx.next + count))
  }

  predicate AwaitsPrelude(s: Stream) {
    s.gw.initiator && s.gw.pending
  }

  /** How many bytes of a payload belong to the prelude. */
  function PreludeShare(s: Stream, data: seq<byte>): (n: nat)
    ensures n <= |data|
  {
    if AwaitsPrelude(s) && |s.gw.prelude| <= PRELUDE_BYTES then
      Min(PRELUDE_BYTES - |s.gw.prelude|, |data|)
    else 0
  }

  /** A complete prelude ends the wait; a valid one connects the stream. */
  function EndPrelude(s: Stream): (r: Stream)
    ensures r == s.(gw := s.gw.(pending := false, handler := r.gw.handler, fired := r.gw.fired), state := r.state,
                    io := s.io.(done := r.io.done))
  {
    var s1 := s.(gw := s.gw.(pending := false));
    if s.gw.prelude != PRELUDE_CONNECTED then s1
    else FireConnect(s1.(state := if s.state == Opening then Open else s.state), Connected)
  }

  /** Store prelude bytes until the prelude is complete. */
  function TakePrelude(s: Stream, data: seq<byte>): Stream {
    if !AwaitsPrelude(s) then s
    else
      var prelude := s.gw.prelude + data[..PreludeShare(s, data)];
      var s1 := s.(gw := s.gw.(prelude := prelude));
      if |prelude| != PRELUDE_BYTES then s1 else EndPrelude(s1)
  }

  predicate PreludeBroken(gw: Gateway) {
    |gw.prelude| == PRELUDE_BYTES && gw.prelude != PRELUDE_CONNECTED
  }

  function Buffer(s: Stream, data: seq<byte>): Stream {
    s.(rx := s.rx.(buffered := s.rx.buffered + |data|,
                   chunks := if data == [] then s.rx.chunks else s.rx.chunks + [data]))
  }

  /** The end of the peer's direction, once everything before it was read. */
  function EndOfReceive(s: Stream): Stream {
    Finish(s, if s.tx.finSent then Closed else HalfClosedRemote)
  }

  function Settle(s: Stream): Stream {
    if AtEnd(s.rx) && s.rx.chunks == [] then EndOfReceive(s) else s
  }

  /** An in-order, in-window payload. */
  function AcceptData(s: Stream, data: seq<byte>): Stream {
    var s1 := TakePrelude(Charge(s, |data|), data);
    if AwaitsPrelude(s) && PreludeBroken(s1.gw) then ResetFor(s1, ProtocolError)
    else
      Settle(Dispatch(Buffer(s1, data[PreludeShare(s, data)..])))
  }

  function OnData(s: Stream, offset: nat, length: nat, data: seq<byte>): Stream {
    if Terminal(s.state) then s
    else if length != |data| then ResetFor(s, ProtocolError)
    else if offset < s.rx.next then s
    else if offset > s.rx.next then ResetFor(s, ProtocolError)
    else if |data| > s.rx.remaining || s.rx.remainingFrames == 0 then ResetFor(s, ResourceExhausted)
    else AcceptData(s, data)
  }

  function OnFin(s: Stream, finalOffset: nat): Stream {
    if Terminal(s.state) then s
    else
      var s1 := s.(rx := s.rx.(finReceived := true, finalOffset := finalOffset));
      if finalOffset != s.rx.next then ResetFor(s1, ProtocolError)
      else
        var s2 := Dispatch(s1);
        if s2.rx.chunks == [] then EndOfReceive(s2) else s2
  }

  /** A reason that a RESET leaves out stays the one known before. */
  function KnownReason(s: Stream, reason: Option<Status>): Option<Status> {
    if reason.Some? then reason else s.resetReason
  }

  function OnReset(s: Stream, reason: Option<Status>): Stream {
    if s.state == Reset then s else Finish(s.(resetReason := KnownReason(s, reason)), Reset)
  }

  // ---- Sending -----------------------------------------------------------

  function UnsentBytes(writeQ: seq<PendingWrite>): int {
    if writeQ == [] then 0 else |writeQ[0].data| - writeQ[0].offset + UnsentBytes(writeQ[1..])
  }

  /** Work left in the send queue; it bounds the pump. */
  function PumpWork(writeQ: seq<PendingWrite>): nat {
    if writeQ == [] then 0
    else 1 + (if writeQ[0].offset < |writeQ[0].data| then |writeQ[0].data| - writeQ[0].offset else 0)
         + PumpWork(writeQ[1..])
  }

  /** Size of the next DATA payload. */
  function ChunkSize(s: Stream): (n: nat)
    requires s.writeQ != [] && s.writeQ[0].offset < |s.writeQ[0].data|
    ensures s.tx.credit > 0 ==> n > 0
    ensures n <= s.tx.credit && n <= s.cfg.maxChunk && n <= |s.writeQ[0].data| - s.writeQ[0].offset
  {
    Min(s.cfg.maxChunk, Min(|s.writeQ[0].data| - s.writeQ[0].offset, s.tx.credit))
  }

  function NextData(s: Stream): Frame
    requires s.writeQ != [] && s.writeQ[0].offset < |s.writeQ[0].data|
  {
    var w := s.writeQ[0];
    var n := ChunkSize(s);
    Data(s.tx.next, n, w.data[w.offset..w.offset + n])
  }

  /** The front write advanced by one admitted DATA frame. */
  function SendChunk(s: Stream): Stream
    requires s.writeQ != [] && s.writeQ[0].offset < |s.writeQ[0].data|
    requires s.tx.credit > 0 && s.tx.creditFrames > 0
  {
    var n := ChunkSize(s);
    var w := s.writeQ[0];
    Send(s, NextData(s)).(
      tx := s.tx.(credit := s.tx.credit - n, creditFrames := s.tx.creditFrames - 1, next := s.tx.next + n),
      writeQ := [w.(offset := w.offset + n)] + s.writeQ[1..])
  }

  function CompleteWrite(s: Stream, error: Option<IoError>): Stream
    requires s.writeQ != []
  {
    Complete(s.(writeQ := s.writeQ[1..]), WriteDone(s.writeQ[0].id, AdmittedPrefix(s.writeQ[0]), error))
  }

  /** The end of our direction: FIN, whatever the session answers. */
  function SendFin(s: Stream): Stream {
    Finish(Send(s, Fin(s.tx.next)), if s.rx.finReceived then Closed else HalfClosedLocal)
  }

  /** Turn queued writes into DATA while credit and admission last. */
  function Pump(s: Stream): Stream
    decreases PumpWork(s.writeQ)
  {
    if Terminal(s.state) || s.writeQ == [] then s
    else if s.writeQ[0].offset < |s.writeQ[0].data| then
      if s.tx.credit == 0 || s.tx.creditFrames == 0 then s
      else if Verdict(s.io) == WouldBlock then Send(s, NextData(s))
      else if Verdict(s.io) == Failed then
        ResetFor(CompleteWrite(Send(s, NextData(s)), Some(SendFailed)), Unavailable)
      else Pump(SendChunk(s))
    else
      var s1 := CompleteWrite(s, None);
      if s.writeQ[0].finAfter then SendFin(s1) else Pump(s1)
  }

  /** What the pump leaves alone, and how credit turns into offset. */
  predicate PumpFrame(s: Stream, r: Stream) {
    && r.rx == s.rx && r.cfg == s.cfg
    && r.gw == s.gw.(handler := r.gw.handler, fired := r.gw.fired)
    && r.tx == s.tx.(credit := r.tx.credit, next := r.tx.next, creditFrames := r.tx.creditFrames)
    && r.tx.credit + r.tx.next == s.tx.credit + s.tx.next && s.tx.next <= r.tx.next
    && (r.state == s.state || r.state == Reset
        || r.state == (if s.rx.finReceived then Closed else HalfClosedLocal))
  }

  lemma {:induction false} PumpFrames(s: Stream)
    ensures PumpFrame(s, Pump(s))
    decreases PumpWork(s.writeQ)
  {
    hide PumpFrame, ResetFor, SendFin, AdmittedPrefix, NextData, Offer;
    StopFrames(s, s);
    if !Terminal(s.state) && s.writeQ != [] {
      var done := CompleteWrite(s, None);
      if s.writeQ[0].offset < |s.writeQ[0].data| {
        var offered := Send(s, NextData(s));
        StopFrames(s, offered);
        StopFrames(s, CompleteWrite(offered, Some(SendFailed)));
        if s.tx.credit != 0 && s.tx.creditFrames != 0 && Verdict(s.io) == Admitted {
          PumpFrames(SendChunk(s));
          ChunkFrames(s, Pump(s));
        }
      } else if s.writeQ[0].finAfter {
        StopFrames(s, done);
      } else {
        PumpFrames(done);
        SameFrames(s, done, Pump(s));
      }
    }
  }

  /** Stopping the pump, with or without ending the stream. */
  lemma {:induction false} StopFrames(s: Stream, t: Stream)
    requires t == s.(io := t.io, writeQ := t.writeQ)
    ensures PumpFrame(s, t) && PumpFrame(s, ResetFor(t, Unavailable)) && PumpFrame(s, SendFin(t))
  {
    hide Finish, Offer;
  }

  lemma {:induction false} SameFrames(s: Stream, t: Stream, r: Stream)
    requires t == s.(io := t.io, writeQ := t.writeQ) && PumpFrame(t, r)
    ensures PumpFrame(s, r)
  {
  }

  lemma {:induction false} ChunkFrames(s: Stream, r: Stream)
    requires s.writeQ != [] && s.writeQ[0].offset < |s.writeQ[0].data|
    requires s.tx.credit > 0 && s.tx.creditFrames > 0 && PumpFrame(SendChunk(s), r)
    ensures PumpFrame(s, r)
  {
    hide NextData, Offer;
  }

  function OnWindowUpdate(s: Stream, consumed: nat, bytes: nat, frames: nat): Stream {
    if consumed < s.tx.consumedByPeer then s
    else if consumed > s.tx.next then ResetFor(s, ProtocolError)
    else
      var s1 := s.(tx := s.tx.(consumedByPeer := consumed));
      if bytes > U64 - 1 - s.tx.credit then ResetFor(s1, ResourceExhausted)
      else
        Pump(s1.(tx := s1.tx.(credit := s.tx.credit + bytes,
                              creditFrames := Min((frames + s.tx.creditFrames) % U64, U32 - 1))))
  }

  // ---- Caller operations -------------------------------------------------

  function RejectRead(s: Stream, error: IoError): Stream {
    s.(io := s.io.(done := s.io.done + [ReadDone(s.io.nextOp, [], Some(error))], nextOp := s.io.nextOp + 1))
  }

  function AsyncRead(s: Stream, capacity: nat, deadline: Option<nat>): Stream {
    if capacity == 0 then RejectRead(s, ReadBufferEmpty)
    else if s.state == Reset then RejectRead(s, StreamReset)
    else if |s.readQ| >= s.cfg.maxReads then RejectRead(s, ReadLimit)
    else
      Dispatch(s.(readQ := s.readQ + [PendingRead(s.io.nextOp, capacity, deadline)],
                  io := s.io.(nextOp := s.io.nextOp + 1)))
  }

  function EndWriteCall(s: Stream, error: Option<IoError>): Stream {
    s.(io := s.io.(done := s.io.done + [WriteDone(s.io.nextOp, [], error)], nextOp := s.io.nextOp + 1))
  }

  function AsyncWrite(s: Stream, data: seq<byte>, deadline: Option<nat>): Stream {
    if Terminal(s.state) then EndWriteCall(s, Some(NotWritable))
    else if s.tx.finSent || s.state == HalfClosedLocal then EndWriteCall(s, Some(WriteAfterFin))
    else if data == [] then EndWriteCall(s, None)
    else if UnsentBytes(s.writeQ) + |data| > s.cfg.maxWriteBytes then EndWriteCall(s, Some(WriteBacklogFull))
    else if |s.writeQ| >= s.cfg.maxWrites then EndWriteCall(s, Some(WriteLimit))
    else
      Pump(s.(writeQ := s.writeQ + [PendingWrite(s.io.nextOp, data, 0, deadline, false)],
              io := s.io.(nextOp := s.io.nextOp + 1)))
  }

  predicate ShutdownRefused(s: Stream) {
    s.tx.finSent || Terminal(s.state)
  }

  function ShutdownWrite(s: Stream): Stream {
    if ShutdownRefused(s) then s
    else
      var s1 := s.(tx := s.tx.(finSent := true));
      if s.writeQ != [] then
        var last := |s.writeQ| - 1;
        s1.(writeQ := s.writeQ[last := s.writeQ[last].(finAfter := true)])
      else if Verdict(s.io) != Admitted then Send(s1, Fin(s.tx.next))
      else SendFin(s1)
  }

  function ResetCall(s: Stream, reason: Status): Stream {
    if Terminal(s.state) then s else ResetFor(s, reason)
  }

  // ---- Deadlines ---------------------------------------------------------

  predicate Expired(deadline: Option<nat>, now: nat) {
    deadline.Some? && now > deadline.value
  }

  function LiveReads(readQ: seq<PendingRead>, now: nat): seq<PendingRead> {
    if readQ == [] then []
    else (if Expired(readQ[0].deadline, now) then [] else [readQ[0]]) + LiveReads(readQ[1..], now)
  }

  function ExpiredReads(readQ: seq<PendingRead>, now: nat): seq<PendingRead> {
    if readQ == [] then []
    else (if Expired(readQ[0].deadline, now) then [readQ[0]] else []) + ExpiredReads(readQ[1..], now)
  }

  function LiveWrites(writeQ: seq<PendingWrite>, now: nat): seq<PendingWrite> {
    if writeQ == [] then []
    else (if Expired(writeQ[0].deadline, now) then [] else [writeQ[0]]) + LiveWrites(writeQ[1..], now)
  }

  function ExpiredWrites(writeQ: seq<PendingWrite>, now: nat): seq<PendingWrite> {
    if writeQ == [] then []
    else (if Expired(writeQ[0].deadline, now) then [writeQ[0]] else []) + ExpiredWrites(writeQ[1..], now)
  }

  predicate DialExpired(s: Stream, now: nat) {
    AwaitsPrelude(s) && s.gw.dialDeadline != 0 && now > s.gw.dialDeadline
  }

  /** Expired operations taken out of their queues and completed. */
  function Swept(s: Stream, now: nat): Stream {
    s.(readQ := LiveReads(s.readQ, now),
       writeQ := LiveWrites(s.writeQ, now),
       io := s.io.(done := s.io.done
                           + EndReads(ExpiredReads(s.readQ, now), Some(ReadDeadline))
                           + EndWrites(ExpiredWrites(s.writeQ, now), WriteDeadline)))
  }

  /** The deadline sweep of one registered stream. */
  function CheckDeadlines(s: Stream, now: nat): Stream {
    if DialExpired(s, now) then ResetFor(Swept(s, now), DeadlineExceeded) else Swept(s, now)
  }

  // ---- Runs --------------------------------------------------------------

  /** Everything that can happen to one end of a stream. */
  datatype Action =
    | ReadCall(capacity: nat, readDeadline: Option<nat>)
    | WriteCall(data: seq<byte>, writeDeadline: Option<nat>)
    | ShutdownCall
    | ResetOp(reason: Status)
    | Tick(now: nat)
    | SessionLoss
    | Receive(frame: Frame)

  /** A frame reaches the stream only while the service still knows its id. */
  function Deliver(s: Stream, frame: Frame): Stream {
    if Terminal(s.state) then s
    else match frame
      case Data(offset, length, data) => OnData(s, offset, length, data)
      case WindowUpdate(consumed, bytes, frames) => OnWindowUpdate(s, consumed, bytes, frames)
      case Fin(finalOffset) => OnFin(s, finalOffset)
      case ResetFrame(reason) => OnReset(s, reason)
  }

  function Step(s: Stream, a: Action): Stream {
    match a
    case ReadCall(capacity, deadline) => AsyncRead(s, capacity, deadline)
    case WriteCall(data, deadline) => AsyncWrite(s, data, deadline)
    case ShutdownCall => ShutdownWrite(s)
    case ResetOp(reason) => ResetCall(s, reason)
    case Tick(now) => if Terminal(s.state) then s else CheckDeadlines(s, now)
    case SessionLoss => if Terminal(s.state) then s else FailAll(s)
    case Receive(frame) => Deliver(s, frame)
  }

  function Run(s: Stream, actions: seq<Action>): Stream
    decreases |actions|
  {
    if actions == [] then s else Run(Step(s, actions[0]), actions[1..])
  }

  /** A stream just created with its own receive window. */
  function NewStream(cfg: ValidConfig, window: nat, windowFrames: nat, gw: Gateway, state: StreamState,
                     script: seq<Admission>): Stream
  {
    Stream(state, cfg,
           Receiver(0, window, windowFrames, window, windowFrames, [], 0, 0, 0, 0, false, 0),
           Sender(0, 0, 0, 0, false), gw, None, [], [], Io(script, [], [], [], 0))
  }

  const PLAIN := Gateway(false, false, false, [], 0, false, false)

  /** The gateway fields of the serving side. */
  const SERVING := Gateway(true, false, false, [], 0, false, false)

  /** The gateway fields of the connecting side. */
  function Dialing(deadline: nat, handler: bool): Gateway {
    Gateway(true, true, true, [], deadline, handler, false)
  }

  predicate FreshGateway(gw: Gateway) {
    gw == PLAIN || gw == SERVING || gw == Dialing(gw.dialDeadline, gw.handler)
  }

  /** How a stream starts. The opener (`serves` false) knows no credit yet; the
      serving side starts with the credit the OPEN carried and offers its own window
      as the opener's first credit. */
  datatype Setup = Setup(
    serves: bool,
    cfg: ValidConfig,
    window: nat,
    windowFrames: nat,
    gw: Gateway,
    credit: nat,
    creditFrames: nat,
    script: seq<Admission>)

  predicate ValidSetup(p: Setup) {
    && 1 <= p.window < U64 && 1 <= p.windowFrames < U32
    && FreshGateway(p.gw)
    && p.credit < U64 && p.creditFrames < U32
    && (if p.serves then !p.gw.initiator else p.credit == 0 && p.creditFrames == 0)
  }

  /** The stream as it leaves open_stream, open_gateway_stream or handle_open. */
  function Start(p: Setup): Stream {
    var s := NewStream(p.cfg, p.window, p.windowFrames, p.gw, if p.gw.initiator then Opening else Open, p.script);
    if p.serves then
      Send(s.(tx := s.tx.(credit := p.credit, creditFrames := p.creditFrames)),
           WindowUpdate(0, p.window, p.windowFrames))
    else s
  }
}
