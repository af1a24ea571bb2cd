/** The fixed-width big-endian integers of the stream DATA layout and the resume sidecar. */
module BigEndian {
  import opened Bytes

  function Pow256(n: nat): (p: nat)
    ensures p > 0
  {
    if n == 0 then 1 else 256 * Pow256(n - 1)
  }

  lemma {:induction false} Widths()
    ensures Pow256(4) == U32 && Pow256(8) == U64
  {
    assert Pow256(4) == 256 * Pow256(3) && Pow256(3) == 256 * Pow256(2) && Pow256(2) == 256 * Pow256(1);
    assert Pow256(8) == 256 * Pow256(7) && Pow256(7) == 256 * Pow256(6) && Pow256(6) == 256 * Pow256(5);
    assert Pow256(5) == 256 * Pow256(4);
  }

  /** The low `n` bytes of a number, most significant first. */
  function ToBytes(value: nat, n: nat): (s: seq<byte>)
    ensures |s| == n
  {
    if n == 0 then [] else ToBytes(value / 256, n - 1) + [value % 256]
  }

  function FromBytes(s: seq<byte>): nat {
    if s == [] then 0 else 256 * FromBytes(s[..|s| - 1]) + s[|s| - 1]
  }

  lemma {:induction false} FromBytesBound(s: seq<byte>)
    ensures FromBytes(s) < Pow256(|s|)
  {
    if s != [] {
      FromBytesBound(s[..|s| - 1]);
    }
  }

  /** A number that fits its width survives the round trip. */
  lemma {:induction false} NumberRoundTrip(value: nat, n: nat)
    requires value < Pow256(n)
    ensures FromBytes(ToBytes(value, n)) == value
  {
    if n > 0 {
      NumberRoundTrip(value / 256, n - 1);
      assert ToBytes(value, n)[..n - 1] == ToBytes(value / 256, n - 1);
    }
  }

  /** So does every byte string. */
  lemma {:induction false} BytesRoundTrip(s: seq<byte>)
    ensures ToBytes(FromBytes(s), |s|) == s
  {
    if s != [] {
      var n := |s| - 1;
      BytesRoundTrip(s[..n]);
      assert FromBytes(s) / 256 == FromBytes(s[..n]) && FromBytes(s) % 256 == s[n];
    }
  }

  /** A number shifted right by `k` bytes. */
  function Shift(value: nat, k: nat): nat {
    if k == 0 then value else Shift(value / 256, k - 1)
  }

  /** Byte `i` of `n` is the one that `n - 1 - i` more bytes follow: most significant first. */
  lemma {:induction false} ByteAt(value: nat, n: nat, i: nat)
    requires i < n
    ensures ToBytes(value, n)[i] == Shift(value, n - 1 - i) % 256
  {
    if i < n - 1 {
      ByteAt(value / 256, n - 1, i);
    }
  }

  lemma {:induction false} ShiftOnce(value: nat, k: nat)
    ensures Shift(value, k) / 256 == Shift(value, k + 1)
    decreases k
  {
    if k > 0 {
      ShiftOnce(value / 256, k - 1);
    }
  }

  lemma {:induction false} ShiftedOut(value: nat, k: nat)
    requires value < Pow256(k)
    ensures Shift(value, k) == 0
  {
    if k > 0 {
      ShiftedOut(value / 256, k - 1);
    }
  }

  /** Append the `n` bytes of a number, one shift at a time. */
  method Put(out: seq<byte>, value: nat, n: nat) returns (r: seq<byte>)
    requires value < Pow256(n)
    ensures r == out + ToBytes(value, n)
  {
    r := out;
    ShiftedOut(value, n);
    for shift := n downto 0
      invariant r == out + ToBytes(Shift(value, shift), n - shift)
    {
      ShiftOnce(value, shift);
      r := r + [Shift(value, shift) % 256];
    }
  }

  /** Read `n` bytes as a number. */
  method Get(s: seq<byte>, offset: nat, n: nat) returns (value: nat)
    requires offset + n <= |s|
    ensures value == FromBytes(s[offset..offset + n]) && value < Pow256(n)
  {
    value := 0;
    for index := 0 to n
      invariant value == FromBytes(s[offset..offset + index])
    {
      assert s[offset..offset + index + 1] == s[offset..offset + index] + [s[offset + index]];
      value := 256 * value + s[offset + index];
    }
    FromBytesBound(s[offset..offset + n]);
  }
}
