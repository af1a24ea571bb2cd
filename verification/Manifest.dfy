/** The release manifest: its printer, its strict parser, and exactly what the parser accepts. */
module Manifest {
  import opened Bytes
  import opened TextOrder

  datatype Entry = Entry(digest: string, path: string)

  const HEADER := "heyaki-release-manifest/1"
  const PREFIX := "SHA256 "
  const DIGEST_CHARS := 64
  const NEWLINE := '\n'

  predicate NoNewline(text: string) {
    forall i :: 0 <= i < |text| ==> text[i] != NEWLINE
  }

  predicate HasDotDot(path: string) {
    exists i :: 0 <= i < |path| - 1 && path[i] == '.' && path[i + 1] == '.'
  }

  /** A path the manifest may name. */
  predicate SafePath(path: string) {
    path != [] && path[0] != '/' && !HasDotDot(path)
  }

  // ---- Printing ----------------------------------------------------------

  /** One line; the printer always separates digest and path by a space. */
  function Line(e: Entry, separator: char): string {
    PREFIX + e.digest + [separator] + e.path
  }

  function Lines(entries: seq<Entry>, separators: string): string
    requires |separators| == |entries|
  {
    if entries == [] then []
    else Line(entries[0], separators[0]) + [NEWLINE] + Lines(entries[1..], separators[1..])
  }

  function Render(count: string, entries: seq<Entry>, separators: string): string
    requires |separators| == |entries|
  {
    HEADER + [NEWLINE] + count + [NEWLINE] + Lines(entries, separators)
  }

  function Spaces(n: nat): (s: string)
    ensures |s| == n && NoNewline(s)
  {
    if n == 0 then [] else [' '] + Spaces(n - 1)
  }

  function Print(entries: seq<Entry>): string {
    Render(Decimal(|entries|), entries, Spaces(|entries|))
  }

  lemma {:induction false} LinesSnoc(entries: seq<Entry>, e: Entry)
    ensures Lines(entries + [e], Spaces(|entries| + 1)) == Lines(entries, Spaces(|entries|)) + Line(e, ' ') + [NEWLINE]
  {
    var all := entries + [e];
    if entries == [] {
      assert all == [e] && all[1..] == [] && Spaces(1)[1..] == [];
      assert Lines([], []) == [];
    } else {
      assert all[1..] == entries[1..] + [e];
      assert Spaces(|all|)[1..] == Spaces(|entries|) && Spaces(|entries|)[1..] == Spaces(|entries| - 1);
      LinesSnoc(entries[1..], e);
    }
  }

  method PrintManifest(entries: seq<Entry>) returns (manifest: string)
    ensures manifest == Print(entries)
  {
    hide Lines, Spaces, Decimal;
    manifest := HEADER + "\n";
    manifest := manifest + Decimal(|entries|);
    manifest := manifest + "\n";
    ghost var head := manifest;
    assert head + Lines([], Spaces(0)) == head by { NoLines(); }
    for i := 0 to |entries|
      invariant manifest == head + Lines(entries[..i], Spaces(i))
    {
      assert entries[..i + 1] == entries[..i] + [entries[i]];
      LinesSnoc(entries[..i], entries[i]);
      manifest := manifest + "SHA256 ";
      manifest := manifest + entries[i].digest;
      manifest := manifest + " ";
      manifest := manifest + entries[i].path;
      manifest := manifest + "\n";
    }
    assert entries[..|entries|] == entries;
  }

  lemma {:induction false} NoLines()
    ensures Lines([], Spaces(0)) == []
  {
  }

  // ---- Parsing -----------------------------------------------------------

  /** The position of the next newline, or the end of the text. */
  function NextNewline(text: string, from: nat): (k: nat)
    requires from <= |text|
    ensures from <= k <= |text| && NoNewline(text[from..k])
    ensures k < |text| ==> text[k] == NEWLINE
    decreases |text| - from
  {
    if from == |text| || text[from] == NEWLINE then from
    else
      var k := NextNewline(text, from + 1);
      assert text[from..k] == [text[from]] + text[from + 1..k];
      k
  }

  function ParseLine(line: string): Option<Entry> {
    if |line| <= 72 || line[..7] != PREFIX then None
    else if FromHex(line[7..71]).None? then None
    else if !SafePath(line[72..]) then None
    else Some(Entry(line[7..71], line[72..]))
  }

  function ParseLines(text: string, cursor: nat, entries: seq<Entry>): Option<seq<Entry>>
    requires cursor <= |text|
    decreases |text| - cursor
  {
    if cursor == |text| then Some(entries)
    else
      var k := NextNewline(text, cursor);
      if k == |text| then None
      else
        var e := ParseLine(text[cursor..k]);
        if e.None? then None
        else if entries != [] && !Less(entries[|entries| - 1].path, e.value.path) then None
        else ParseLines(text, k + 1, entries + [e.value])
  }

  function Parse(text: string): Option<seq<Entry>> {
    var first := NextNewline(text, 0);
    if first == |text| || text[..first] != HEADER then None
    else
      var second := NextNewline(text, first + 1);
      if second == |text| then None
      else
        var count := text[first + 1..second];
        if count == [] || !IsDigits(count) || Value(count) > |text| then None
        else
          var entries := ParseLines(text, second + 1, []);
          if entries.Some? && |entries.value| == Value(count) then entries else None
  }

  method FindNewline(text: string, from: nat) returns (k: nat)
    requires from <= |text|
    ensures k == NextNewline(text, from)
  {
    k := from;
    while k < |text| && text[k] != NEWLINE
      invariant from <= k <= |text| && NextNewline(text, k) == NextNewline(text, from)
    {
      k := k + 1;
    }
  }

  /** The declared count; a value beyond the text length is refused as soon as it is
      reached, so the accumulator never grows past ten times that. */
  method ParseCount(digits: string, limit: nat) returns (r: Option<nat>)
    requires IsDigits(digits)
    ensures r == if Value(digits) <= limit then Some(Value(digits)) else None
  {
    var count := 0;
    for i := 0 to |digits|
      invariant count == Value(digits[..i]) && count <= limit
    {
      assert digits[..i + 1][..i] == digits[..i];
      count := 10 * count + (digits[i] - '0') as int;
      if count > limit {
        ValuePrefix(digits, i + 1);
        return None;
      }
    }
    assert digits[..|digits|] == digits;
    return Some(count);
  }

  method ParseManifest(text: string) returns (r: Option<seq<Entry>>)
    ensures r == Parse(text)
  {
    hide NextNewline, ParseLine, Value, FromHex;
    var first := FindNewline(text, 0);
    if first == |text| || text[..first] != HEADER {
      return None;
    }
    var second := FindNewline(text, first + 1);
    if second == |text| {
      return None;
    }
    var digits := text[first + 1..second];
    if digits == [] || !IsDigits(digits) {
      return None;
    }
    var declared := ParseCount(digits, |text|);
    if declared.None? {
      return None;
    }
    var entries := ParseEntries(text, second + 1);
    if entries.None? || |entries.value| != declared.value {
      return None;
    }
    return entries;
  }

  method ParseEntries(text: string, start: nat) returns (r: Option<seq<Entry>>)
    requires start <= |text|
    ensures r == ParseLines(text, start, [])
  {
    hide NextNewline, ParseLine;
    var cursor := start;
    var entries: seq<Entry> := [];
    while cursor < |text|
      invariant cursor <= |text| && ParseLines(text, cursor, entries) == ParseLines(text, start, [])
      decreases |text| - cursor
    {
      var newline := FindNewline(text, cursor);
      if newline == |text| {
        return None;
      }
      var entry := ParseEntry(text[cursor..newline]);
      if entry.None? {
        return None;
      }
      if entries != [] && !Less(entries[|entries| - 1].path, entry.value.path) {
        return None;
      }
      entries := entries + [entry.value];
      cursor := newline + 1;
    }
    return Some(entries);
  }

  method ParseEntry(line: string) returns (r: Option<Entry>)
    ensures r == ParseLine(line)
  {
    if |line| <= |PREFIX| + DIGEST_CHARS + 1 || line[..|PREFIX|] != PREFIX {
      return None;
    }
    var digest := line[|PREFIX|..|PREFIX| + DIGEST_CHARS];
    var bytes := ParseHex(digest);
    if bytes == None {
      return None;
    }
    var path := line[|PREFIX| + DIGEST_CHARS + 1..];
    if path == [] || path[0] == '/' || HasDotDot(path) {
      return None;
    }
    return Some(Entry(digest, path));
  }

  // ---- What is accepted --------------------------------------------------

  /** An entry that can be printed and parsed. */
  predicate GoodEntry(e: Entry) {
    |e.digest| == DIGEST_CHARS && IsHex(e.digest) && SafePath(e.path) && NoNewline(e.path)
  }

  predicate GoodEntries(entries: seq<Entry>) {
    && (forall i :: 0 <= i < |entries| ==> GoodEntry(entries[i]))
    && (forall i :: 0 < i < |entries| ==> Before(entries[i - 1].path, entries[i].path))
  }

  /** A count text and separators the parser lets through. */
  predicate Accepted(count: string, entries: seq<Entry>, separators: string) {
    && |separators| == |entries| && NoNewline(separators)
    && count != [] && IsDigits(count) && Value(count) == |entries|
    && GoodEntries(entries)
  }

  lemma {:induction false} HexHasNoNewline(text: string)
    requires IsHex(text)
    ensures NoNewline(text)
  {
    forall i | 0 <= i < |text|
      ensures text[i] != NEWLINE
    {
      assert HexValue(text[i]).Some?;
    }
  }

  /** A newline-free piece ends at the newline that follows it. */
  lemma {:induction false} NewlineAfter(text: string, from: nat, piece: string)
    requires from + |piece| < |text| && text[from..from + |piece|] == piece && NoNewline(piece)
    requires text[from + |piece|] == NEWLINE
    ensures NextNewline(text, from) == from + |piece|
  {
    hide NextNewline;
    var k := NextNewline(text, from);
    assert forall i :: 0 <= i < |piece| ==> text[from + i] == text[from..from + |piece|][i] == piece[i];
    assert forall i :: 0 <= i < k - from ==> text[from..k][i] == text[from + i];
  }

  lemma {:induction false} LineParses(e: Entry, separator: char)
    requires GoodEntry(e) && separator != NEWLINE
    ensures ParseLine(Line(e, separator)) == Some(e) && NoNewline(Line(e, separator))
  {
    hide FromHex, HasDotDot;
    var line := Line(e, separator);
    HexHasNoNewline(e.digest);
    assert NoNewline(PREFIX);
    assert line[..7] == PREFIX && line[7..71] == e.digest && line[72..] == e.path;
  }

  lemma {:induction false} GoodSplit(entries: seq<Entry>)
    requires entries != []
    ensures GoodEntries(entries) <==>
              && GoodEntry(entries[0]) && GoodEntries(entries[1..])
              && (|entries| > 1 ==> Less(entries[0].path, entries[1].path))
  {
    hide GoodEntry, Less, Before;
    if |entries| > 1 {
      LessIsBefore(entries[0].path, entries[1].path);
    }
    var rest := entries[1..];
    assert forall i :: 0 <= i < |rest| ==> rest[i] == entries[i + 1];
    assert forall i :: 0 < i < |entries| ==> entries[i] == rest[i - 1];
    if GoodEntries(rest) && |entries| > 1 && Less(entries[0].path, entries[1].path) {
      forall i | 0 < i < |entries|
        ensures Before(entries[i - 1].path, entries[i].path)
      {
        if i > 1 {
          assert Before(rest[i - 2].path, rest[i - 1].path);
        }
      }
    }
  }

  /** A text that goes on with a line, a newline and the rest. */
  lemma {:induction false} SplitLine(text: string, cursor: nat, line: string, rest: string)
    requires cursor <= |text| && text[cursor..] == line + [NEWLINE] + rest && NoNewline(line)
    ensures cursor + |line| < |text| && NextNewline(text, cursor) == cursor + |line|
    ensures text[cursor..cursor + |line|] == line && text[cursor + |line| + 1..] == rest
  {
    hide NextNewline;
    assert |text| == cursor + |line| + 1 + |rest|;
    assert text[cursor..cursor + |line|] == text[cursor..][..|line|] == line;
    assert text[cursor + |line|] == text[cursor..][|line|] == NEWLINE;
    NewlineAfter(text, cursor, line);
  }

  lemma {:induction false} ParseStep(text: string, cursor: nat, before: seq<Entry>, line: string, e: Entry)
    requires cursor + |line| < |text| && NextNewline(text, cursor) == cursor + |line|
    requires text[cursor..cursor + |line|] == line && ParseLine(line) == Some(e)
    requires before != [] ==> Less(before[|before| - 1].path, e.path)
    ensures ParseLines(text, cursor, before) == ParseLines(text, cursor + |line| + 1, before + [e])
  {
    hide ParseLine, NextNewline, Less;
  }

  lemma {:induction false} ParseEnd(text: string, before: seq<Entry>)
    ensures ParseLines(text, |text|, before) == Some(before)
  {
  }

  lemma {:induction false} LinesSplit(entries: seq<Entry>, separators: string)
    requires |separators| == |entries|
    ensures entries == [] ==> Lines(entries, separators) == []
    ensures entries != [] ==>
              Lines(entries, separators)
              == Line(entries[0], separators[0]) + [NEWLINE] + Lines(entries[1..], separators[1..])
  {
  }

  /** Rendered lines parse to their entries. */
  lemma {:induction false} LinesParse(text: string, cursor: nat, before: seq<Entry>, entries: seq<Entry>,
                                      separators: string)
    requires cursor <= |text| && |separators| == |entries| && text[cursor..] == Lines(entries, separators)
    requires NoNewline(separators) && GoodEntries(entries)
    requires before != [] && entries != [] ==> Less(before[|before| - 1].path, entries[0].path)
    ensures ParseLines(text, cursor, before) == Some(before + entries)
    decreases |entries|
  {
    hide Lines, ParseLine, ParseLines, NextNewline, Line, GoodEntries, Less;
    LinesSplit(entries, separators);
    if entries == [] {
      ParseEnd(text, before);
      assert before + entries == before;
    } else {
      var line := Line(entries[0], separators[0]);
      GoodSplit(entries);
      LineParses(entries[0], separators[0]);
      SplitLine(text, cursor, line, Lines(entries[1..], separators[1..]));
      ParseStep(text, cursor, before, line, entries[0]);
      LinesParse(text, cursor + |line| + 1, before + [entries[0]], entries[1..], separators[1..]);
      assert before + [entries[0]] + entries[1..] == before + entries;
    }
  }

  lemma {:induction false} LinesLength(entries: seq<Entry>, separators: string)
    requires |separators| == |entries|
    ensures |Lines(entries, separators)| >= |entries|
  {
    if entries != [] {
      LinesLength(entries[1..], separators[1..]);
    }
  }

  lemma {:induction false} DigitsHaveNoNewline(text: string)
    requires IsDigits(text)
    ensures NoNewline(text)
  {
  }

  /** Everything of the accepted shape parses; in particular the count bound never refuses it. */
  lemma {:induction false} RenderParses(count: string, entries: seq<Entry>, separators: string)
    requires Accepted(count, entries, separators)
    ensures Parse(Render(count, entries, separators)) == Some(entries)
  {
    hide NextNewline, ParseLines, Lines, GoodEntries, Value, Render, IsDigits;
    var text := Render(count, entries, separators);
    RenderLayout(count, entries, separators);
    LinesLength(entries, separators);
    LinesParse(text, |HEADER| + |count| + 2, [], entries, separators);
    assert [] + entries == entries;
  }

  /** Where the parts of a rendered manifest are. */
  lemma {:induction false} RenderLayout(count: string, entries: seq<Entry>, separators: string)
    requires |separators| == |entries| && IsDigits(count)
    ensures var text := Render(count, entries, separators);
            var first := |HEADER|;
            var second := first + 1 + |count|;
            && second < |text| && |text| == second + 1 + |Lines(entries, separators)|
            && NextNewline(text, 0) == first && text[..first] == HEADER
            && NextNewline(text, first + 1) == second && text[first + 1..second] == count
            && text[second + 1..] == Lines(entries, separators)
  {
    hide NextNewline, Lines;
    var text := Render(count, entries, separators);
    var first := |HEADER|;
    assert NoNewline(HEADER);
    DigitsHaveNoNewline(count);
    assert text[0..first] == HEADER && text[first] == NEWLINE;
    NewlineAfter(text, 0, HEADER);
    assert text[first + 1..first + 1 + |count|] == count;
    NewlineAfter(text, first + 1, count);
  }

  /** A line that parses is the line of its entry, with some separator. */
  lemma {:induction false} LineInverts(line: string)
    requires ParseLine(line).Some? && NoNewline(line)
    ensures |line| > 72
    ensures var e := ParseLine(line).value;
            line == Line(e, line[71]) && GoodEntry(e) && line[71] != NEWLINE
  {
    hide FromHex, HasDotDot;
    assert line == line[..7] + line[7..71] + [line[71]] + line[72..];
  }

  lemma {:induction false} NoEntries()
    ensures GoodEntries([])
  {
  }

  /** Lines that parse are rendered lines. */
  lemma {:induction false} LinesInvert(text: string, cursor: nat, before: seq<Entry>)
    returns (entries: seq<Entry>, separators: string)
    requires cursor <= |text| && ParseLines(text, cursor, before).Some?
    ensures ParseLines(text, cursor, before).value == before + entries
    ensures |separators| == |entries| && NoNewline(separators) && GoodEntries(entries)
    ensures before != [] && entries != [] ==> Less(before[|before| - 1].path, entries[0].path)
    ensures text[cursor..] == Lines(entries, separators)
    decreases |text| - cursor
  {
    hide ParseLine, NextNewline, Line, GoodEntries, Less;
    if cursor == |text| {
      entries, separators := [], [];
      NoEntries();
    } else {
      var k := NextNewline(text, cursor);
      var line := text[cursor..k];
      var e := ParseLine(line).value;
      LineInverts(line);
      var es, ss := LinesInvert(text, k + 1, before + [e]);
      entries, separators := [e] + es, [line[71]] + ss;
      assert entries[1..] == es && separators[1..] == ss;
      GoodSplit(entries);
      assert before + [e] + es == before + entries;
      assert text[cursor..] == line + [NEWLINE] + text[k + 1..];
    }
  }

  /** The parser accepts a text exactly when it is a rendered manifest with strictly sorted
      safe paths and hexadecimal digests. It leaves open only leading zeros in the count and
      the one character between digest and path. */
  lemma {:induction false} ParserExact(text: string, entries: seq<Entry>)
    ensures Parse(text) == Some(entries)
            <==> exists count, separators ::
                   Accepted(count, entries, separators) && text == Render(count, entries, separators)
  {
    hide Parse, Render, GoodEntries, Value;
    if Parse(text) == Some(entries) {
      ParseInverts(text);
    }
    if exists count, separators :: Accepted(count, entries, separators) && text == Render(count, entries, separators) {
      var count, separators :| Accepted(count, entries, separators) && text == Render(count, entries, separators);
      RenderParses(count, entries, separators);
    }
  }

  lemma {:induction false} ParseInverts(text: string)
    requires Parse(text).Some?
    ensures exists count, separators :: Accepted(count, Parse(text).value, separators)
                                     && text == Render(count, Parse(text).value, separators)
  {
    hide NextNewline, ParseLines, Lines, GoodEntries, Value;
    var first := NextNewline(text, 0);
    var second := NextNewline(text, first + 1);
    var count := text[first + 1..second];
    var entries, separators := LinesInvert(text, second + 1, []);
    assert [] + entries == entries;
    assert text == text[..first] + [text[first]] + count + [text[second]] + text[second + 1..];
    assert Accepted(count, entries, separators) && text == Render(count, entries, separators);
  }

  /** Parsing what was printed returns the list exactly when every entry is good: hexadecimal
      digest, safe path without a newline, strictly sorted. */
  lemma {:induction false} ManifestRoundTrip(entries: seq<Entry>)
    ensures Parse(Print(entries)) == Some(entries) <==> GoodEntries(entries)
  {
    hide Parse, Render, GoodEntries, Value, Decimal;
    ParserExact(Print(entries), entries);
    DecimalRoundTrip(|entries|);
    assert GoodEntries(entries) ==> Accepted(Decimal(|entries|), entries, Spaces(|entries|));
  }
}
