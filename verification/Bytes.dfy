/** Byte strings, optional values and the 64/32-bit bounds shared by the models. */
module Bytes {
  type byte = x: int | 0 <= x < 256

  datatype Option<+T> = None | Some(value: T)

  const U32 := 0x1_0000_0000
  const U64 := 0x1_0000_0000_0000_0000

  function Min(a: int, b: int): int {
    if a <= b then a else b
  }

  /** A subtraction of unsigned 64-bit operands, wrapping as the source's does. */
  function Sub64(a: int, b: int): nat {
    (a - b) % U64
  }

  /** Nothing wraps while the difference is in range. */
  lemma {:induction false} Sub64Exact(a: int, b: int)
    requires 0 <= a - b < U64
    ensures Sub64(a, b) == a - b
  {
  }

  /** A subtraction of unsigned 32-bit operands, wrapping as the source's does. */
  function Sub32(a: int, b: int): nat {
    (a - b) % U32
  }

  /** It wraps exactly when the second operand is larger. */
  lemma {:induction false} Sub32Exact(a: int, b: int)
    requires 0 <= a < U32 && 0 <= b < U32
    ensures Sub32(a, b) == if b <= a then a - b else a - b + U32
  {
    if a < b {
      assert a - b == -1 * U32 + (a - b + U32);
    }
  }

  /** An identifier that names nothing. */
  predicate ZeroId(id: seq<byte>) {
    forall i :: 0 <= i < |id| ==> id[i] == 0
  }

  /** The bytes of a queue of chunks, front first. */
  function Flatten(chunks: seq<seq<byte>>): seq<byte> {
    if chunks == [] then [] else chunks[0] + Flatten(chunks[1..])
  }

  lemma {:induction false} FlattenAppend(chunks: seq<seq<byte>>, last: seq<byte>)
    ensures Flatten(chunks + [last]) == Flatten(chunks) + last
  {
    if chunks == [] {
      assert chunks + [last] == [last];
      assert Flatten([last]) == last + Flatten([]);
    } else {
      assert (chunks + [last])[1..] == chunks[1..] + [last];
      FlattenAppend(chunks[1..], last);
    }
  }
}
