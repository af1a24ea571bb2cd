/** Byte-wise order and hexadecimal and decimal text, as the release manifest uses them. */
module TextOrder {
  import opened Bytes

  // ---- Order -------------------------------------------------------------

  predicate Less(a: string, b: string) {
    b != [] && (a == [] || a[0] < b[0] || (a[0] == b[0] && Less(a[1..], b[1..])))
  }

  /** Lexicographic order: `a` ends where `b` goes on, or has the smaller character at the first
      position where they differ. */
  predicate Before(a: string, b: string) {
    a < b || exists i :: 0 <= i < |a| && i < |b| && a[..i] == b[..i] && a[i] < b[i]
  }

  /** The recursive comparison is the lexicographic order. */
  lemma {:induction false} LessIsBefore(a: string, b: string)
    ensures Less(a, b) <==> Before(a, b)
  {
    if a != [] && b != [] && a[0] == b[0] {
      LessIsBefore(a[1..], b[1..]);
      if Before(a[1..], b[1..]) {
        BeforeCons(a, b);
      }
      if Before(a, b) {
        BeforeTail(a, b);
      }
    } else if a != [] && b != [] {
      assert a[..0] == b[..0];
      assert forall i :: 0 < i <= |a| && i <= |b| ==> a[..i][0] != b[..i][0];
    }
  }

  lemma {:induction false} BeforeCons(a: string, b: string)
    requires a != [] && b != [] && a[0] == b[0] && Before(a[1..], b[1..])
    ensures Before(a, b)
  {
    assert a == [a[0]] + a[1..] && b == [b[0]] + b[1..];
    if !(a[1..] < b[1..]) {
      var i :| 0 <= i < |a[1..]| && i < |b[1..]| && a[1..][..i] == b[1..][..i] && a[1..][i] < b[1..][i];
      assert a[..i + 1] == [a[0]] + a[1..][..i] && b[..i + 1] == [b[0]] + b[1..][..i];
      assert a[i + 1] < b[i + 1];
    }
  }

  lemma {:induction false} BeforeTail(a: string, b: string)
    requires a != [] && b != [] && a[0] == b[0] && Before(a, b)
    ensures Before(a[1..], b[1..])
  {
    if !(a < b) {
      var i :| 0 <= i < |a| && i < |b| && a[..i] == b[..i] && a[i] < b[i];
      assert a[1..][..i - 1] == a[..i][1..] && b[1..][..i - 1] == b[..i][1..];
      assert a[1..][i - 1] < b[1..][i - 1];
    }
  }

  lemma {:induction false} LessIrreflexive(a: string)
    ensures !Less(a, a)
  {
    if a != [] {
      LessIrreflexive(a[1..]);
    }
  }

  lemma {:induction false} LessTransitive(a: string, b: string, c: string)
    requires Less(a, b) && Less(b, c)
    ensures Less(a, c)
  {
    if a != [] && a[0] == b[0] == c[0] {
      LessTransitive(a[1..], b[1..], c[1..]);
    }
  }

  lemma {:induction false} LessTotal(a: string, b: string)
    ensures Less(a, b) || a == b || Less(b, a)
  {
    if a != [] && b != [] && a[0] == b[0] {
      LessTotal(a[1..], b[1..]);
      assert a == [a[0]] + a[1..] && b == [b[0]] + b[1..];
    }
  }

  /** Strictly ascending. */
  predicate Ascending(paths: seq<string>) {
    forall i :: 0 < i < |paths| ==> Before(paths[i - 1], paths[i])
  }

  lemma {:induction false} AscendingPairs(paths: seq<string>, i: nat, j: nat)
    requires Ascending(paths) && i < j < |paths|
    ensures Less(paths[i], paths[j]) && paths[i] != paths[j]
    decreases j
  {
    LessIsBefore(paths[j - 1], paths[j]);
    if i + 1 < j {
      AscendingPairs(paths, i, j - 1);
      LessTransitive(paths[i], paths[j - 1], paths[j]);
    }
    LessIrreflexive(paths[i]);
  }

  // ---- Hexadecimal -------------------------------------------------------

  const LOWER_DIGITS := "0123456789abcdef"
  const UPPER_DIGITS := "0123456789ABCDEF"

  /** The lower-case digit of the low four bits. */
  function HexDigit(value: nat): (c: char)
    ensures c == LOWER_DIGITS[value % 16]
  {
    var digit := value % 16;
    if digit < 10 then '0' + digit as char else 'a' + (digit - 10) as char
  }

  function HexValue(digit: char): Option<nat> {
    if '0' <= digit <= '9' then Some((digit - '0') as int)
    else if 'a' <= digit <= 'f' then Some((digit - 'a') as int + 10)
    else if 'A' <= digit <= 'F' then Some((digit - 'A') as int + 10)
    else None
  }

  /** Both cases are read, and nothing else. */
  lemma {:induction false} HexDigitsRead(digit: char)
    ensures HexValue(digit).Some? <==> digit in LOWER_DIGITS || digit in UPPER_DIGITS
    ensures HexValue(digit).Some? ==>
              var v := HexValue(digit).value;
              v < 16 && (digit == LOWER_DIGITS[v] || digit == UPPER_DIGITS[v])
  {
  }

  lemma {:induction false} HexDigitRoundTrip(value: nat)
    ensures HexValue(HexDigit(value)) == Some(value % 16)
  {
  }

  predicate IsHex(text: string) {
    forall i :: 0 <= i < |text| ==> HexValue(text[i]).Some?
  }

  function ToHex(bytes: seq<byte>): (t: string)
    ensures |t| == 2 * |bytes|
  {
    if bytes == [] then []
    else
      ToHex(bytes[..|bytes| - 1]) + [HexDigit(bytes[|bytes| - 1] / 16), HexDigit(bytes[|bytes| - 1])]
  }

  /** The bytes of a text of hex digits, two at a time; none for an odd length or a
      character that is no digit. */
  function FromHex(text: string): (r: Option<seq<byte>>)
    ensures r.Some? <==> |text| % 2 == 0 && IsHex(text)
    ensures r.Some? ==> 2 * |r.value| == |text|
  {
    if text == [] then Some([])
    else if |text| == 1 then None
    else
      var n := |text| - 2;
      assert text == text[..n] + [text[n], text[n + 1]];
      var rest := FromHex(text[..n]);
      if rest.None? || HexValue(text[n]).None? || HexValue(text[n + 1]).None? then None
      else Some(rest.value + [HexByte(text[n], text[n + 1])])
  }

  function HexByte(high: char, low: char): byte
    requires HexValue(high).Some? && HexValue(low).Some?
  {
    HexValue(high).value * 16 + HexValue(low).value
  }

  lemma {:induction false} ByteRoundTrip(b: byte)
    ensures HexValue(HexDigit(b / 16)).Some? && HexValue(HexDigit(b)).Some?
    ensures HexByte(HexDigit(b / 16), HexDigit(b)) == b
  {
    hide HexDigit, HexValue;
    HexDigitRoundTrip(b / 16);
    HexDigitRoundTrip(b);
  }

  lemma {:induction false} FromHexSnoc(text: string, high: char, low: char)
    requires FromHex(text).Some? && HexValue(high).Some? && HexValue(low).Some?
    ensures FromHex(text + [high, low]) == Some(FromHex(text).value + [HexByte(high, low)])
  {
    hide HexValue, HexByte;
    var all := text + [high, low];
    assert all[..|all| - 2] == text;
  }

  /** Digits are always hexadecimal, and read back to the bytes they came from. */
  lemma {:induction false} HexRoundTrip(bytes: seq<byte>)
    ensures IsHex(ToHex(bytes)) && FromHex(ToHex(bytes)) == Some(bytes)
  {
    hide FromHex, HexDigit, HexValue, HexByte, IsHex;
    if bytes == [] {
      NoDigits();
    } else {
      var n := |bytes| - 1;
      var b := bytes[n];
      HexRoundTrip(bytes[..n]);
      ByteRoundTrip(b);
      FromHexSnoc(ToHex(bytes[..n]), HexDigit(b / 16), HexDigit(b));
      assert bytes == bytes[..n] + [b];
    }
  }

  lemma {:induction false} NoDigits()
    ensures FromHex([]) == Some([])
  {
  }

  method PrintHex(bytes: seq<byte>) returns (out: string)
    ensures out == ToHex(bytes)
  {
    out := [];
    for index := 0 to |bytes|
      invariant out == ToHex(bytes[..index])
    {
      assert bytes[..index + 1][..index] == bytes[..index];
      out := out + [HexDigit(bytes[index] / 16)];
      out := out + [HexDigit(bytes[index])];
    }
    assert bytes[..|bytes|] == bytes;
  }

  method ParseHex(text: string) returns (r: Option<seq<byte>>)
    ensures r == FromHex(text)
  {
    hide FromHex, HexValue, HexByte;
    if |text| % 2 != 0 {
      return None;
    }
    var out: seq<byte> := [];
    var index := 0;
    NoDigits();
    while index < |text|
      invariant index <= |text| && index % 2 == 0 && FromHex(text[..index]) == Some(out)
      decreases |text| - index
    {
      var high := HexValue(text[index]);
      var low := HexValue(text[index + 1]);
      if high.None? || low.None? {
        return None;
      }
      assert text[..index + 2] == text[..index] + [text[index], text[index + 1]];
      FromHexSnoc(text[..index], text[index], text[index + 1]);
      out := out + [HexByte(text[index], text[index + 1])];
      index := index + 2;
    }
    assert text[..index] == text;
    return Some(out);
  }

  // ---- Decimal -----------------------------------------------------------

  predicate IsDigits(text: string) {
    forall i :: 0 <= i < |text| ==> '0' <= text[i] <= '9'
  }

  function Decimal(n: nat): (t: string)
    ensures t != [] && IsDigits(t)
  {
    if n < 10 then ['0' + n as char] else Decimal(n / 10) + ['0' + (n % 10) as char]
  }

  function Value(text: string): nat
    requires IsDigits(text)
  {
    if text == [] then 0 else 10 * Value(text[..|text| - 1]) + (text[|text| - 1] - '0') as int
  }

  lemma {:induction false} DecimalRoundTrip(n: nat)
    ensures Value(Decimal(n)) == n
  {
    var t := Decimal(n);
    if n < 10 {
      assert t[..0] == [];
    } else {
      DecimalRoundTrip(n / 10);
      assert t[..|t| - 1] == Decimal(n / 10);
    }
  }

  /** A prefix of the digits never exceeds the whole. */
  lemma {:induction false} ValuePrefix(text: string, k: nat)
    requires IsDigits(text) && k <= |text|
    ensures Value(text[..k]) <= Value(text)
    decreases |text|
  {
    if k < |text| {
      var n := |text| - 1;
      assert text[..n][..k] == text[..k];
      ValuePrefix(text[..n], k);
    } else {
      assert text[..k] == text;
    }
  }
}
