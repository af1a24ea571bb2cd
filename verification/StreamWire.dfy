/** The raw STREAM_DATA layout: id (16 bytes), offset (8), length (4), payload. */
module StreamWire {
  import opened Bytes
  import opened BigEndian

  const ID_BYTES := 16
  const HEADER_BYTES := 28

  /** The payload of one DATA frame. */
  function DataPayload(id: seq<byte>, offset: nat, data: seq<byte>): (p: seq<byte>)
    requires |id| == ID_BYTES
    ensures |p| == HEADER_BYTES + |data|
  {
    id + ToBytes(offset, 8) + ToBytes(|data|, 4) + data
  }

  method BuildData(id: seq<byte>, offset: nat, data: seq<byte>) returns (payload: seq<byte>)
    requires |id| == ID_BYTES && offset < U64 && |data| < U32
    ensures payload == DataPayload(id, offset, data)
  {
    hide ToBytes, Pow256;
    Widths();
    payload := id;
    payload := Put(payload, offset, 8);
    payload := Put(payload, |data|, 4);
    payload := payload + data;
  }

  /** What the receiver makes of a payload for a stream it knows: no stream is addressed,
      the length field is wrong, or a DATA frame. */
  datatype Parsed =
    | NoStream
    | LengthWrong(id: seq<byte>)
    | DataFrame(id: seq<byte>, offset: nat, data: seq<byte>)

  /** The header as the receiver reads it. It reads both numbers before it looks at the
      size, so for a payload that ends in the header they come from whatever lies `beyond`;
      the length is then wrong whatever that is. */
  method ParseData(payload: seq<byte>, beyond: seq<byte>) returns (r: Parsed)
    requires |beyond| >= HEADER_BYTES - ID_BYTES
    ensures r == NoStream <==> |payload| < ID_BYTES || ZeroId(payload[..ID_BYTES])
    ensures r.LengthWrong? ==> r.id == payload[..ID_BYTES]
    ensures r.DataFrame? <==>
              && |payload| >= HEADER_BYTES && !ZeroId(payload[..ID_BYTES])
              && FromBytes(payload[24..28]) == |payload| - HEADER_BYTES
    ensures r.DataFrame? ==>
              r == DataFrame(payload[..ID_BYTES], FromBytes(payload[16..24]), payload[HEADER_BYTES..])
  {
    hide FromBytes;
    if |payload| < ID_BYTES {
      return NoStream;
    }
    if forall i :: 0 <= i < ID_BYTES ==> payload[i] == 0 {
      return NoStream;
    }
    var memory := payload + beyond;
    var offset := Get(memory, 16, 8);
    var length := Get(memory, 24, 4);
    if HEADER_BYTES + length != |payload| {
      assert |payload| >= HEADER_BYTES ==> memory[24..28] == payload[24..28];
      return LengthWrong(payload[..ID_BYTES]);
    }
    assert memory[16..24] == payload[16..24] && memory[24..28] == payload[24..28];
    return DataFrame(payload[..ID_BYTES], offset, payload[HEADER_BYTES..]);
  }

  /** What the sender encodes is what the receiver reads, with a length field that
      matches the payload, so the length reset never hits an honest sender. */
  lemma {:induction false} DataRoundTrip(id: seq<byte>, offset: nat, data: seq<byte>)
    requires |id| == ID_BYTES && offset < U64 && |data| < U32
    ensures var p := DataPayload(id, offset, data);
            && p[..ID_BYTES] == id && FromBytes(p[16..24]) == offset
            && FromBytes(p[24..28]) == |data| && p[28..] == data
  {
    hide ToBytes, FromBytes, Pow256;
    Widths();
    var p := DataPayload(id, offset, data);
    assert p[16..24] == ToBytes(offset, 8);
    assert p[24..28] == ToBytes(|data|, 4);
    NumberRoundTrip(offset, 8);
    NumberRoundTrip(|data|, 4);
  }

  /** Conversely a payload whose length field is right is the encoding of what it says. */
  lemma {:induction false} PayloadRoundTrip(p: seq<byte>)
    requires |p| >= HEADER_BYTES && FromBytes(p[24..28]) == |p| - HEADER_BYTES
    ensures DataPayload(p[..ID_BYTES], FromBytes(p[16..24]), p[28..]) == p
  {
    hide ToBytes, FromBytes;
    BytesRoundTrip(p[16..24]);
    BytesRoundTrip(p[24..28]);
    assert p == p[..16] + p[16..24] + p[24..28] + p[28..];
  }
}
