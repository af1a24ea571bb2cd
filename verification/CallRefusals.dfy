/** Which calls are refused at once, and that no other call is ever answered as refused. */
module CallRefusals {
  import opened Bytes
  import opened StreamModel
  import opened Lifecycle
  import opened Submissions
  import opened StreamService

  /** Why a call is refused, if it is. An empty write is answered without an error. */
  function Refused(s: Stream, a: Action): Option<IoError> {
    match a
    case ReadCall(capacity, _) =>
      if capacity == 0 then Some(ReadBufferEmpty)
      else if s.state == Reset then Some(StreamReset)
      else if |s.readQ| < s.cfg.maxReads then None
      else Some(ReadLimit)
    case WriteCall(data, _) =>
      if s.state == Closed || s.state == Reset then Some(NotWritable)
      else if s.tx.finSent || s.state == HalfClosedLocal then Some(WriteAfterFin)
      else if data == [] || Queues(s, data) then None
      else if UnsentBytes(s.writeQ) + |data| > s.cfg.maxWriteBytes then Some(WriteBacklogFull)
      else Some(WriteLimit)
    case _ => None
  }

  /** The errors that say a call was refused. */
  predicate IsRefusal(e: IoError) {
    || e == ReadBufferEmpty || e == ReadLimit
    || e == NotWritable || e == WriteAfterFin || e == WriteBacklogFull || e == WriteLimit
  }

  predicate Ordinary(c: Completion) {
    c.ConnectDone? || c.error == None || !IsRefusal(c.error.value)
  }

  /** Everything completed from number `from` on is ordinary. */
  predicate OrdinaryFrom(done: seq<Completion>, from: nat) {
    forall i :: from <= i < |done| ==> Ordinary(done[i])
  }

  lemma {:induction false} FinishOrdinary(s: Stream, terminal: StreamState, from: nat)
    requires OrdinaryFrom(s.io.done, from)
    ensures OrdinaryFrom(Finish(s, terminal).io.done, from)
  {
    hide EndReads, EndWrites;
    EndReadsShape(s.readQ, if CleanEnd(terminal) then None else Some(StreamReset));
    EndWritesShape(s.writeQ, StreamReset);
  }

  lemma {:induction false} ServeOrdinary(s: Stream, from: nat)
    requires s.readQ != [] && OrdinaryFrom(s.io.done, from)
    ensures s.rx.chunks != [] ==> OrdinaryFrom(ServeRead(s).io.done, from)
    ensures OrdinaryFrom(ServeEof(s).io.done, from)
  {
    hide Finish, Sub32, Sub64;
    FinishOrdinary(CompleteRead(s, []), Closed, from);
  }

  lemma {:induction false} DispatchOrdinary(s: Stream, from: nat)
    requires OrdinaryFrom(s.io.done, from)
    ensures OrdinaryFrom(Dispatch(s).io.done, from)
    decreases |s.readQ|
  {
    hide OrdinaryFrom, ServeRead, ServeEof;
    if s.readQ != [] {
      ServeFrames(s);
      ServeOrdinary(s, from);
      if s.rx.chunks != [] {
        DispatchOrdinary(ServeRead(s), from);
      } else if AtEnd(s.rx) {
        DispatchOrdinary(ServeEof(s), from);
      }
    }
  }

  lemma {:induction false} ResetOrdinary(s: Stream, reason: Status, from: nat)
    requires OrdinaryFrom(s.io.done, from)
    ensures OrdinaryFrom(ResetFor(s, reason).io.done, from)
  {
    hide OrdinaryFrom, Finish;
    FinishOrdinary(if s.state == Reset then s else Send(s, ResetFrame(Some(reason))), Reset, from);
  }

  lemma {:induction false} WriteOrdinary(s: Stream, error: Option<IoError>, from: nat)
    requires s.writeQ != [] && OrdinaryFrom(s.io.done, from) && (error.Some? ==> !IsRefusal(error.value))
    ensures OrdinaryFrom(CompleteWrite(s, error).io.done, from)
  {
    hide AdmittedPrefix;
  }

  lemma {:induction false} PumpOrdinary(s: Stream, from: nat)
    requires OrdinaryFrom(s.io.done, from)
    ensures OrdinaryFrom(Pump(s).io.done, from)
    decreases PumpWork(s.writeQ)
  {
    hide OrdinaryFrom, Finish, ResetFor, AdmittedPrefix, NextData;
    if !Terminal(s.state) && s.writeQ != [] {
      var done := CompleteWrite(s, None);
      WriteOrdinary(s, None, from);
      if s.writeQ[0].offset < |s.writeQ[0].data| {
        var offered := Send(s, NextData(s));
        WriteOrdinary(offered, Some(SendFailed), from);
        ResetOrdinary(CompleteWrite(offered, Some(SendFailed)), Unavailable, from);
        if s.tx.credit != 0 && s.tx.creditFrames != 0 && Verdict(s.io) == Admitted {
          PumpOrdinary(SendChunk(s), from);
        }
      } else if s.writeQ[0].finAfter {
        FinishOrdinary(Send(done, Fin(s.tx.next)), if s.rx.finReceived then Closed else HalfClosedLocal, from);
      } else {
        PumpOrdinary(done, from);
      }
    }
  }

  /** A refused call is answered at once, under its own number and with no bytes, and changes
      nothing else; one that is not refused is queued, or an empty write, and neither it nor
      anything it sets in motion is ever answered as refused. */
  lemma {:induction false} RefusedExactly(s: Stream, a: Action)
    requires IsCall(a)
    ensures var t := Step(s, a);
            match Refused(s, a)
            case Some(e) =>
              var c := if a.ReadCall? then ReadDone(s.io.nextOp, [], Some(e)) else WriteDone(s.io.nextOp, [], Some(e));
              t == s.(io := s.io.(done := s.io.done + [c], nextOp := s.io.nextOp + 1))
            case None => OrdinaryFrom(t.io.done, |s.io.done|)
  {
    hide Dispatch, Pump, UnsentBytes;
    match a
    case ReadCall(capacity, deadline) =>
      DispatchOrdinary(s.(readQ := s.readQ + [PendingRead(s.io.nextOp, capacity, deadline)],
                          io := s.io.(nextOp := s.io.nextOp + 1)), |s.io.done|);
    case WriteCall(data, deadline) =>
      PumpOrdinary(s.(writeQ := s.writeQ + [PendingWrite(s.io.nextOp, data, 0, deadline, false)],
                      io := s.io.(nextOp := s.io.nextOp + 1)), |s.io.done|);
  }
}
