/** The resume sidecar: magic "HYFT" | version U32 | id (16) | size U64 | chunk U32 |
    digest (32) | count U32 | bitmap (count bytes). */
module ResumeSidecar {
  import opened Bytes
  import opened BigEndian

  /** What a sidecar says about one transfer. */
  datatype ResumeState = ResumeState(
    id: seq<byte>,
    size: nat,
    chunkSize: nat,
    digest: seq<byte>,
    bitmap: seq<byte>)

  /** Field widths of the source's types. */
  predicate Typed(s: ResumeState) {
    |s.id| == 16 && s.size < U64 && s.chunkSize < U32 && |s.digest| == 32
  }

  datatype ReadError = Unreadable | Oversized | MagicInvalid | VersionInvalid | LengthInvalid | FieldsInvalid

  datatype ReadResult = Ok(state: ResumeState) | Err(error: ReadError)

  const MAGIC: seq<byte> := [0x48, 0x59, 0x46, 0x54]
  const RESUME_HEADER_BYTES := 72
  const MAX_STATE_BYTES := 8 * 1024 * 1024
  const MAX_BITMAP := 0xFFFF_FFF0
  const MIN_CHUNK := 4096

  function Bit(b: byte): (r: byte)
    ensures r <= 1 && (r == 0 <==> b == 0)
  {
    if b != 0 then 1 else 0
  }

  /** A bitmap with its entries normalised to 0 and 1. */
  function Bits(bitmap: seq<byte>): (r: seq<byte>)
    ensures |r| == |bitmap| && forall i :: 0 <= i < |r| ==> r[i] == Bit(bitmap[i])
  {
    if bitmap == [] then [] else Bits(bitmap[..|bitmap| - 1]) + [Bit(bitmap[|bitmap| - 1])]
  }

  function Header(s: ResumeState): (h: seq<byte>)
    requires Typed(s)
    ensures |h| == RESUME_HEADER_BYTES
  {
    MAGIC + ToBytes(1, 4) + s.id + ToBytes(s.size, 8) + ToBytes(s.chunkSize, 4) + s.digest + ToBytes(|s.bitmap|, 4)
  }

  function Encode(s: ResumeState): (e: seq<byte>)
    requires Typed(s)
    ensures |e| == RESUME_HEADER_BYTES + |s.bitmap|
  {
    Header(s) + Bits(s.bitmap)
  }

  /** The conditions a decoded state has to meet. */
  predicate Plausible(s: ResumeState) {
    !ZeroId(s.id) && s.size > 0 && s.chunkSize >= MIN_CHUNK
  }

  function Decode(b: seq<byte>): (r: ReadResult)
    ensures r.Ok? ==> Typed(r.state) && Plausible(r.state)
    ensures r != Err(Unreadable)
  {
    if |b| > MAX_STATE_BYTES then Err(Oversized)
    else if |b| < RESUME_HEADER_BYTES || b[..4] != MAGIC then Err(MagicInvalid)
    else if FromBytes(b[4..8]) != 1 then Err(VersionInvalid)
    else if |b| != RESUME_HEADER_BYTES + FromBytes(b[68..72]) then Err(LengthInvalid)
    else
      Widths();
      FromBytesBound(b[24..32]);
      FromBytesBound(b[32..36]);
      var s := ResumeState(b[8..24], FromBytes(b[24..32]), FromBytes(b[32..36]), b[36..68], Bits(b[72..]));
      if Plausible(s) then Ok(s) else Err(FieldsInvalid)
  }

  // ---- Methods -----------------------------------------------------------

  method EncodeBits(out: seq<byte>, bitmap: seq<byte>) returns (r: seq<byte>)
    ensures r == out + Bits(bitmap)
  {
    r := out;
    for index := 0 to |bitmap|
      invariant r == out + Bits(bitmap[..index])
    {
      assert bitmap[..index + 1][..index] == bitmap[..index];
      r := r + [if bitmap[index] != 0 then 1 else 0];
    }
    assert bitmap[..|bitmap|] == bitmap;
  }

  /** The bytes a state is saved as; an oversized bitmap is refused. */
  method EncodeState(s: ResumeState) returns (encoded: Option<seq<byte>>)
    requires Typed(s)
    ensures encoded == if |s.bitmap| > MAX_BITMAP then None else Some(Encode(s))
  {
    hide ToBytes, Pow256, Bits;
    if |s.bitmap| > MAX_BITMAP {
      return None;
    }
    Widths();
    var out := MAGIC;
    out := Put(out, 1, 4);
    out := out + s.id;
    out := Put(out, s.size, 8);
    out := Put(out, s.chunkSize, 4);
    out := out + s.digest;
    out := Put(out, |s.bitmap|, 4);
    out := EncodeBits(out, s.bitmap);
    return Some(out);
  }

  /** How much one read call returns: as much as the system likes, up to a block. */
  function Block(answer: int, left: nat): (n: nat)
    ensures n <= left && (left > 0 ==> n > 0)
  {
    Min(Min(if answer > 0 then answer else 4096, 4096), left)
  }

  /** Among the read calls that are made after `done` bytes of `size`, one fails; a negative
      answer is a failure. No call is made after the end of file or beyond the limit. */
  predicate ReadFails(size: nat, done: nat, answers: seq<int>)
    requires done <= size
    decreases |answers|
  {
    && answers != []
    && (|| answers[0] < 0
        || (done < size
            && done + Block(answers[0], size - done) <= MAX_STATE_BYTES
            && ReadFails(size, done + Block(answers[0], size - done), answers[1..])))
  }

  /** Read a file in blocks of whatever size the system returns, refusing large ones. */
  method ReadSmallFile(file: seq<byte>, answers: seq<int>) returns (failed: bool, r: Option<seq<byte>>)
    ensures failed <==> ReadFails(|file|, 0, answers)
    ensures r == if failed || |file| > MAX_STATE_BYTES then None else Some(file)
  {
    var output: seq<byte> := [];
    var calls := 0;
    while |output| < |file|
      invariant output <= file && |output| <= MAX_STATE_BYTES && calls <= |answers|
      invariant ReadFails(|file|, |output|, answers[calls..]) <==> ReadFails(|file|, 0, answers)
      decreases |file| - |output|
    {
      if calls < |answers| && answers[calls] < 0 {
        return true, None;
      }
      var got := Block(if calls < |answers| then answers[calls] else 0, |file| - |output|);
      output := output + file[|output|..|output| + got];
      if calls < |answers| {
        assert answers[calls..][1..] == answers[calls + 1..];
        calls := calls + 1;
      }
      if |output| > MAX_STATE_BYTES {
        return false, None;
      }
    }
    assert output == file;
    if calls < |answers| && answers[calls] < 0 {
      return true, None;
    }
    return false, Some(output);
  }

  /** A file that is missing or cannot be read is no state; otherwise its bytes decide. */
  method DecodeState(found: bool, file: seq<byte>, answers: seq<int>) returns (r: ReadResult)
    ensures r == Decode(file) || r == Err(Unreadable)
    ensures r == Err(Unreadable) <==> !found || ReadFails(|file|, 0, answers)
  {
    hide Decode;
    if !found {
      return Err(Unreadable);
    }
    var failed, raw := ReadSmallFile(file, answers);
    if failed {
      return Err(Unreadable);
    }
    if raw == None {
      TooLarge(file);
      return Err(Oversized);
    }
    r := DecodeFields(raw.value);
  }

  lemma {:induction false} TooLarge(file: seq<byte>)
    requires |file| > MAX_STATE_BYTES
    ensures Decode(file) == Err(Oversized)
  {
  }

  method DecodeFields(bytes: seq<byte>) returns (r: ReadResult)
    requires |bytes| <= MAX_STATE_BYTES
    ensures r == Decode(bytes)
  {
    hide FromBytes, Pow256, Bits, ZeroId;
    if |bytes| < RESUME_HEADER_BYTES || bytes[..4] != MAGIC {
      return Err(MagicInvalid);
    }
    var version := Get(bytes, 4, 4);
    if version != 1 {
      return Err(VersionInvalid);
    }
    var size := Get(bytes, 24, 8);
    var chunkSize := Get(bytes, 32, 4);
    var count := Get(bytes, 68, 4);
    if |bytes| != RESUME_HEADER_BYTES + count {
      return Err(LengthInvalid);
    }
    var bitmap := EncodeBits([], bytes[RESUME_HEADER_BYTES..]);
    assert [] + Bits(bytes[72..]) == Bits(bytes[72..]);
    var state := ResumeState(bytes[8..24], size, chunkSize, bytes[36..68], bitmap);
    if ZeroId(state.id) || size == 0 || chunkSize < MIN_CHUNK {
      return Err(FieldsInvalid);
    }
    return Ok(state);
  }

  // ---- Round trips -------------------------------------------------------

  /** The fields are where the decoder looks for them. */
  lemma {:induction false} HeaderFields(s: ResumeState, rest: seq<byte>)
    requires Typed(s)
    ensures var b := Header(s) + rest;
            && b[..4] == MAGIC && b[4..8] == ToBytes(1, 4) && b[8..24] == s.id && b[24..32] == ToBytes(s.size, 8)
            && b[32..36] == ToBytes(s.chunkSize, 4) && b[36..68] == s.digest && b[68..72] == ToBytes(|s.bitmap|, 4)
            && b[72..] == rest
  {
    hide ToBytes;
  }

  lemma {:induction false} BitsTwice(bitmap: seq<byte>)
    ensures Bits(Bits(bitmap)) == Bits(bitmap)
  {
    hide Bits;
  }

  /** A header followed by anything decodes to its own fields, if the length is right. */
  lemma {:induction false} DecodeHeader(s: ResumeState, rest: seq<byte>)
    requires Typed(s) && |s.bitmap| < U32
    ensures var b := Header(s) + rest;
            Decode(b) == if |b| > MAX_STATE_BYTES then Err(Oversized)
                         else if |rest| != |s.bitmap| then Err(LengthInvalid)
                         else if Plausible(s) then Ok(s.(bitmap := Bits(rest)))
                         else Err(FieldsInvalid)
  {
    hide ToBytes, FromBytes, Pow256, Bits, Header;
    Widths();
    HeaderFields(s, rest);
    NumberRoundTrip(1, 4);
    NumberRoundTrip(s.size, 8);
    NumberRoundTrip(s.chunkSize, 4);
    NumberRoundTrip(|s.bitmap|, 4);
  }

  /** Saving and loading returns the state, with its bitmap normalised, exactly when the
      state is plausible and fits the size limit. */
  lemma {:induction false} SidecarRoundTrip(s: ResumeState)
    requires Typed(s) && |s.bitmap| <= MAX_BITMAP
    ensures Decode(Encode(s)) == Ok(s.(bitmap := Bits(s.bitmap)))
            <==> Plausible(s) && |Encode(s)| <= MAX_STATE_BYTES
  {
    hide Decode, Header, Bits;
    DecodeHeader(s, Bits(s.bitmap));
    BitsTwice(s.bitmap);
  }

  /** Every accepted file is the encoding of what it decodes to, up to that normalisation. */
  lemma {:induction false} Reencodes(b: seq<byte>)
    requires Decode(b).Ok?
    ensures Encode(Decode(b).state) == b[..RESUME_HEADER_BYTES] + Bits(b[RESUME_HEADER_BYTES..])
  {
    hide ToBytes, FromBytes, Pow256, Bits, Plausible;
    BytesRoundTrip(b[4..8]);
    BytesRoundTrip(b[24..32]);
    BytesRoundTrip(b[32..36]);
    BytesRoundTrip(b[68..72]);
    BitsTwice(b[72..]);
    var s := Decode(b).state;
    assert ToBytes(1, 4) == b[4..8] && ToBytes(s.size, 8) == b[24..32] && ToBytes(s.chunkSize, 4) == b[32..36];
    assert ToBytes(|s.bitmap|, 4) == b[68..72];
    HeaderParts(b);
  }

  lemma {:induction false} HeaderParts(b: seq<byte>)
    requires |b| >= RESUME_HEADER_BYTES
    ensures b[..72] == b[..4] + b[4..8] + b[8..24] + b[24..32] + b[32..36] + b[36..68] + b[68..72]
  {
  }

  // ---- Torn rewrites -----------------------------------------------------

  /** The same transfer with bitmaps of the same length. */
  predicate SameTransfer(s: ResumeState, t: ResumeState) {
    Typed(s) && t == s.(bitmap := t.bitmap) && |t.bitmap| == |s.bitmap|
  }

  /** Every chunk `s` claims, `t` claims. */
  predicate Claims(s: seq<byte>, t: seq<byte>) {
    |s| == |t| && forall i :: 0 <= i < |s| && s[i] != 0 ==> t[i] != 0
  }

  lemma {:induction false} SameHeader(s: ResumeState, t: ResumeState)
    requires SameTransfer(s, t)
    ensures Typed(t) && Header(t) == Header(s)
  {
    hide ToBytes;
  }

  /** If the process dies after `k` bytes of rewriting a state in place, the file is
      rejected or claims what the old state claimed and nothing the new one does not. */
  lemma {:induction false} TornRewrite(before: ResumeState, after: ResumeState, k: nat)
    requires SameTransfer(before, after) && |before.bitmap| <= MAX_BITMAP && Claims(before.bitmap, after.bitmap)
    requires k <= |Encode(before)| && Typed(after)
    ensures var r := Decode(Encode(after)[..k] + Encode(before)[k..]);
            r.Ok? ==>
              && SameTransfer(before, r.state)
              && Claims(before.bitmap, r.state.bitmap) && Claims(r.state.bitmap, after.bitmap)
  {
    hide Decode, Header, Bits;
    SameHeader(before, after);
    var torn := Encode(after)[..k] + Encode(before)[k..];
    var rest := torn[72..];
    assert torn == Header(before) + rest;
    DecodeHeader(before, rest);
  }

  /** If it dies while the first state is written, the file is rejected until complete. */
  lemma {:induction false} TornFirstWrite(s: ResumeState, k: nat)
    requires Typed(s) && |s.bitmap| <= MAX_BITMAP && k < |Encode(s)|
    ensures Decode(Encode(s)[..k]).Err?
  {
    hide FromBytes, ToBytes, Bits, Header, Plausible;
    var b := Encode(s)[..k];
    if k >= 72 {
      var rest := b[72..];
      assert b == Header(s) + rest;
      DecodeHeader(s, rest);
    }
  }
}
