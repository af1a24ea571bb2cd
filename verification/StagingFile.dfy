/** Positional writes to a staging file, and the assembly of a file from its chunks. */
module StagingFile {
  import opened Bytes
  import opened ResumeSidecar

  /** `n` zero bytes, as a hole in a file reads. */
  function Zeros(n: nat): (z: seq<byte>)
    ensures |z| == n && forall i :: 0 <= i < n ==> z[i] == 0
  {
    if n == 0 then [] else Zeros(n - 1) + [0]
  }

  /** A file after `data` was written at `offset`: nothing else moves, and a gap before
      the offset reads as zero. */
  function WriteAt(file: seq<byte>, offset: nat, data: seq<byte>): (r: seq<byte>)
    ensures data == [] ==> r == file
    ensures data != [] ==> |r| == if offset + |data| > |file| then offset + |data| else |file|
    ensures forall i :: 0 <= i < |r| ==>
              r[i] == if offset <= i < offset + |data| then data[i - offset] else if i < |file| then file[i] else 0
  {
    if data == [] then file
    else
      var base := if |file| < offset then file + Zeros(offset - |file|) else file;
      base[..offset] + data + if offset + |data| < |base| then base[offset + |data|..] else []
  }

  /** Two adjacent writes are one. */
  lemma {:induction false} WriteTwice(file: seq<byte>, offset: nat, a: seq<byte>, b: seq<byte>)
    ensures WriteAt(WriteAt(file, offset, a), offset + |a|, b) == WriteAt(file, offset, a + b)
  {
    hide WriteAt;
    if a == [] {
      assert a + b == b;
    } else if b == [] {
      assert a + b == a;
    }
  }

  /** How the cut to length goes: the file does not reopen, the cut fails, or it works. */
  datatype Cut = ReopenFails | CutFails | Cuts

  /** A file on disk. The system's answers to positional writes are a script: a positive
      answer is how much it is willing to take, any other a failure, and an exhausted
      script takes everything. */
  class DiskFile {
    var content: seq<byte>

    constructor (bytes: seq<byte>)
      ensures content == bytes
    {
      content := bytes;
    }

    /** pwrite: store a prefix of `data`, never empty unless the call fails. */
    method PWrite(data: seq<byte>, offset: nat, answer: int) returns (put: int)
      requires data != []
      modifies this
      ensures put <= |data|
      ensures answer <= 0 ==> put <= 0 && content == old(content)
      ensures answer > 0 ==> put > 0 && content == WriteAt(old(content), offset, data[..put])
    {
      if answer <= 0 {
        return answer;
      }
      put := Min(answer, |data|);
      content := WriteAt(content, offset, data[..put]);
    }

    /** Write `data` at `offset` however short the individual writes are. What was
        written is always a prefix of `data`, and success means all of it. */
    method WriteStagingAt(offset: nat, data: seq<byte>, answers: seq<int>) returns (ok: bool, done: nat)
      modifies this
      ensures done <= |data| && (ok <==> done == |data|)
      ensures content == WriteAt(old(content), offset, data[..done])
      ensures (forall i :: 0 <= i < |answers| ==> answers[i] > 0) ==> ok
    {
      done := 0;
      var calls := 0;
      while done < |data|
        invariant done <= |data| && calls <= |answers|
        invariant content == WriteAt(old(content), offset, data[..done])
        decreases |data| - done
      {
        ghost var before := content;
        var answer := if calls < |answers| then answers[calls] else |data|;
        var put := PWrite(data[done..], offset + done, answer);
        if put <= 0 {
          return false, done;
        }
        WriteTwice(old(content), offset, data[..done], data[done..][..put]);
        assert data[..done] + data[done..][..put] == data[..done + put];
        done := done + put;
        calls := if calls < |answers| then calls + 1 else calls;
      }
      return true, done;
    }

    /** ftruncate. */
    method Truncate(length: nat)
      modifies this
      ensures |content| == length
      ensures forall i :: 0 <= i < length ==> content[i] == if i < |old(content)| then old(content)[i] else 0
    {
      if length <= |content| {
        content := content[..length];
      } else {
        content := content + Zeros(length - |content|);
      }
    }

    /** Rewrite a small file in place and cut it to length. A rewrite that failed left a
        prefix of `data` over the old bytes; one that could not be reopened for the cut
        still counts as written. */
    method WriteSmallFile(data: seq<byte>, answers: seq<int>, cut: Cut) returns (ok: bool)
      modifies this
      ensures ok ==> content == if cut == Cuts then data else WriteAt(old(content), 0, data)
      ensures !ok ==> exists k :: 0 <= k <= |data| && content == WriteAt(old(content), 0, data[..k])
      ensures ok && |old(content)| <= |data| ==> content == data
    {
      var written, done := WriteStagingAt(0, data, answers);
      if !written {
        return false;
      }
      assert data[..done] == data;
      match cut {
        case ReopenFails => return true;
        case CutFails =>
          assert content == WriteAt(old(content), 0, data[..|data|]);
          return false;
        case Cuts =>
          ghost var w := content;
          assert forall i :: 0 <= i < |data| ==> w[i] == data[i];
          Truncate(|data|);
          return true;
      }
    }

    /** Save a resume state. */
    method WriteResumeState(s: ResumeState, answers: seq<int>, cut: Cut) returns (ok: bool)
      requires Typed(s)
      modifies this
      ensures ok ==> content == if cut == Cuts then Encode(s) else WriteAt(old(content), 0, Encode(s))
      ensures !ok ==> exists k :: 0 <= k <= |Encode(s)| && content == WriteAt(old(content), 0, Encode(s)[..k])
      ensures ok && |old(content)| <= |Encode(s)| ==> content == Encode(s)
    {
      hide Encode;
      var encoded := EncodeState(s);
      if encoded == None {
        assert content == WriteAt(old(content), 0, Encode(s)[..0]);
        return false;
      }
      ok := WriteSmallFile(encoded.value, answers, cut);
    }
  }

  // ---- Chunks ------------------------------------------------------------

  /** The bytes of a file that chunk `index` covers. */
  function ChunkStart(source: seq<byte>, chunkSize: nat, index: nat): nat {
    Min(index * chunkSize, |source|)
  }

  function ChunkEnd(source: seq<byte>, chunkSize: nat, index: nat): (e: nat)
    ensures ChunkStart(source, chunkSize, index) <= e <= |source|
  {
    Min(index * chunkSize + chunkSize, |source|)
  }

  function Chunk(source: seq<byte>, chunkSize: nat, index: nat): seq<byte> {
    source[ChunkStart(source, chunkSize, index)..ChunkEnd(source, chunkSize, index)]
  }

  /** The file agrees with the source on a range. */
  predicate Holds(file: seq<byte>, source: seq<byte>, from: nat, to: nat) {
    from <= to <= |source| && (from < to ==> to <= |file|)
    && forall i :: from <= i < to ==> file[i] == source[i]
  }

  predicate HoldsChunk(file: seq<byte>, source: seq<byte>, chunkSize: nat, index: nat) {
    Holds(file, source, ChunkStart(source, chunkSize, index), ChunkEnd(source, chunkSize, index))
  }

  /** Writing source bytes where they belong spoils no range that was right. */
  lemma {:induction false} SourceWriteKeeps(file: seq<byte>, source: seq<byte>, from: nat, to: nat, lo: nat, hi: nat)
    requires from <= to <= |source| && Holds(file, source, lo, hi)
    ensures Holds(WriteAt(file, from, source[from..to]), source, lo, hi)
  {
    hide WriteAt;
  }

  lemma {:induction false} SourceWriteHolds(file: seq<byte>, source: seq<byte>, from: nat, to: nat)
    requires from <= to <= |source|
    ensures Holds(WriteAt(file, from, source[from..to]), source, from, to)
    ensures |file| <= |source| ==> |WriteAt(file, from, source[from..to])| <= |source|
  {
    hide WriteAt;
  }

  /** Chunk writes in the given order. */
  function Assemble(file: seq<byte>, source: seq<byte>, chunkSize: nat, order: seq<nat>): seq<byte> {
    if order == [] then file
    else
      var n := |order| - 1;
      WriteAt(Assemble(file, source, chunkSize, order[..n]), ChunkStart(source, chunkSize, order[n]),
              Chunk(source, chunkSize, order[n]))
  }

  /** The position belongs to one of the chunks. */
  predicate Covered(source: seq<byte>, chunkSize: nat, order: seq<nat>, i: nat) {
    exists k :: 0 <= k < |order|
             && ChunkStart(source, chunkSize, order[k]) <= i < ChunkEnd(source, chunkSize, order[k])
  }

  lemma {:induction false} CoveredBefore(source: seq<byte>, chunkSize: nat, order: seq<nat>, i: nat)
    requires order != [] && !Covered(source, chunkSize, order, i)
    ensures !Covered(source, chunkSize, order[..|order| - 1], i)
  {
    hide ChunkStart, ChunkEnd;
    assert forall k :: 0 <= k < |order| - 1 ==> order[..|order| - 1][k] == order[k];
  }

  /** Any order and any duplication: written ranges equal the source, nothing else moved. */
  lemma {:induction false} AssembledRanges(file: seq<byte>, source: seq<byte>, chunkSize: nat, order: seq<nat>)
    ensures forall k :: 0 <= k < |order| ==>
              HoldsChunk(Assemble(file, source, chunkSize, order), source, chunkSize, order[k])
    ensures |file| <= |Assemble(file, source, chunkSize, order)|
    ensures |file| <= |source| ==> |Assemble(file, source, chunkSize, order)| <= |source|
    ensures forall i :: 0 <= i < |file| && !Covered(source, chunkSize, order, i) ==>
              Assemble(file, source, chunkSize, order)[i] == file[i]
    decreases |order|
  {
    hide WriteAt, ChunkStart, ChunkEnd;
    if order != [] {
      var n := |order| - 1;
      var before := Assemble(file, source, chunkSize, order[..n]);
      var from, to := ChunkStart(source, chunkSize, order[n]), ChunkEnd(source, chunkSize, order[n]);
      AssembledRanges(file, source, chunkSize, order[..n]);
      SourceWriteHolds(before, source, from, to);
      forall k | 0 <= k < n
        ensures HoldsChunk(WriteAt(before, from, source[from..to]), source, chunkSize, order[k])
      {
        assert HoldsChunk(before, source, chunkSize, order[..n][k]);
        SourceWriteKeeps(before, source, from, to, ChunkStart(source, chunkSize, order[k]),
                         ChunkEnd(source, chunkSize, order[k]));
      }
      forall i | 0 <= i < |file| && !Covered(source, chunkSize, order, i)
        ensures WriteAt(before, from, source[from..to])[i] == file[i]
      {
        assert !(from <= i < to);
        CoveredBefore(source, chunkSize, order, i);
      }
    }
  }

  /** A chunk of the source, as opposed to an index past its end. */
  predicate IsChunk(source: seq<byte>, chunkSize: nat, index: nat) {
    index * chunkSize < |source|
  }

  /** Every byte belongs to the chunk of its own index. */
  lemma {:induction false} ByteInChunk(source: seq<byte>, chunkSize: nat, i: nat)
    requires chunkSize > 0 && i < |source|
    ensures IsChunk(source, chunkSize, i / chunkSize)
    ensures ChunkStart(source, chunkSize, i / chunkSize) <= i < ChunkEnd(source, chunkSize, i / chunkSize)
  {
    assert i == chunkSize * (i / chunkSize) + i % chunkSize;
  }

  /** All chunks written, the file is the source. */
  lemma {:induction false} AllChunks(file: seq<byte>, source: seq<byte>, chunkSize: nat)
    requires chunkSize > 0 && |file| <= |source|
    requires forall index :: IsChunk(source, chunkSize, index) ==> HoldsChunk(file, source, chunkSize, index)
    ensures file == source
  {
    hide ChunkStart, ChunkEnd, IsChunk;
    forall i | 0 <= i < |source|
      ensures i < |file| && file[i] == source[i]
    {
      ByteInChunk(source, chunkSize, i);
      assert HoldsChunk(file, source, chunkSize, i / chunkSize);
    }
    if |file| < |source| {
      ByteInChunk(source, chunkSize, |file|);
      assert false;
    }
  }

  /** Once every chunk was written, in any order, the staging file is the source exactly
      when it was not longer than the source to begin with. */
  lemma {:induction false} ChunkAssembly(file: seq<byte>, source: seq<byte>, chunkSize: nat, order: seq<nat>)
    requires chunkSize > 0
    requires forall index :: IsChunk(source, chunkSize, index) ==> index in order
    ensures Assemble(file, source, chunkSize, order) == source <==> |file| <= |source|
  {
    hide ChunkStart, ChunkEnd, Assemble, IsChunk;
    AssembledRanges(file, source, chunkSize, order);
    if |file| <= |source| {
      AllChunks(Assemble(file, source, chunkSize, order), source, chunkSize);
    }
  }
}
