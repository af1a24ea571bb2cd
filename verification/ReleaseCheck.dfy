/** The check of a bundle against its manifest: a merge of two sorted lists. */
module ReleaseCheck {
  import opened Bytes
  import opened TextOrder
  import opened Manifest

  function Paths(entries: seq<Entry>): (p: seq<string>)
    ensures |p| == |entries| && forall i :: 0 <= i < |p| ==> p[i] == entries[i].path
  {
    if entries == [] then [] else Paths(entries[..|entries| - 1]) + [entries[|entries| - 1].path]
  }

  /** The digest of a file of the bundle; none if it cannot be read. */
  type Digests = map<string, string>

  predicate Intact(e: Entry, digests: Digests) {
    e.path in digests && digests[e.path] == e.digest
  }

  // ---- What the count means ----------------------------------------------

  /** The entries, among the first `n`, that the bundle has no file for. */
  function Missing(entries: seq<Entry>, files: seq<string>, n: nat): set<nat>
    requires n <= |entries|
  {
    set i | 0 <= i < n && entries[i].path !in files
  }

  predicate IsModified(e: Entry, files: seq<string>, digests: Digests) {
    e.path in files && !Intact(e, digests)
  }

  /** The entries, among the first `n`, whose file is modified or unreadable. */
  function Modified(entries: seq<Entry>, files: seq<string>, digests: Digests, n: nat): set<nat>
    requires n <= |entries|
  {
    set i | 0 <= i < n && IsModified(entries[i], files, digests)
  }

  /** The files, among the first `n`, that the manifest does not list. */
  function Extra(entries: seq<Entry>, files: seq<string>, n: nat): set<nat>
    requires n <= |files|
  {
    set i | 0 <= i < n && files[i] !in Paths(entries)
  }

  lemma {:induction false} MissingGrows(entries: seq<Entry>, files: seq<string>, n: nat)
    requires n < |entries|
    ensures n !in Missing(entries, files, n)
    ensures Missing(entries, files, n + 1) == Missing(entries, files, n) + if entries[n].path in files then {} else {n}
  {
  }

  lemma {:induction false} ModifiedGrows(entries: seq<Entry>, files: seq<string>, digests: Digests, n: nat)
    requires n < |entries| && IsModified(entries[n], files, digests)
    ensures n !in Modified(entries, files, digests, n)
    ensures Modified(entries, files, digests, n + 1) == Modified(entries, files, digests, n) + {n}
  {
  }

  lemma {:induction false} ModifiedStays(entries: seq<Entry>, files: seq<string>, digests: Digests, n: nat)
    requires n < |entries| && !IsModified(entries[n], files, digests)
    ensures Modified(entries, files, digests, n + 1) == Modified(entries, files, digests, n)
  {
  }

  /** One more entry counts once, as missing, as modified or not at all. */
  lemma {:induction false} CountEntry(entries: seq<Entry>, files: seq<string>, digests: Digests, n: nat)
    requires n < |entries|
    ensures |Missing(entries, files, n + 1)| == |Missing(entries, files, n)| + if entries[n].path in files then 0 else 1
    ensures |Modified(entries, files, digests, n + 1)| == |Modified(entries, files, digests, n)|
            + if IsModified(entries[n], files, digests) then 1 else 0
  {
    hide Missing, Modified, IsModified;
    MissingGrows(entries, files, n);
    if IsModified(entries[n], files, digests) {
      ModifiedGrows(entries, files, digests, n);
    } else {
      ModifiedStays(entries, files, digests, n);
    }
  }

  lemma {:induction false} CountFile(entries: seq<Entry>, files: seq<string>, n: nat)
    requires n < |files|
    ensures |Extra(entries, files, n + 1)| == |Extra(entries, files, n)| + if files[n] in Paths(entries) then 0 else 1
  {
    hide Paths;
    assert Extra(entries, files, n + 1) == Extra(entries, files, n) + if files[n] in Paths(entries) then {} else {n};
  }

  /** Entries before `i` come before the files from `j` on, and the other way round. */
  predicate Merged(paths: seq<string>, files: seq<string>, i: nat, j: nat)
    requires i <= |paths| && j <= |files|
  {
    && (0 < i && j < |files| ==> Less(paths[i - 1], files[j]))
    && (0 < j && i < |paths| ==> Less(files[j - 1], paths[i]))
  }

  /** A path smaller than the next file and larger than the last one is not a file. */
  lemma {:induction false} BetweenFiles(x: string, files: seq<string>, j: nat)
    requires Ascending(files) && j <= |files|
    requires j < |files| ==> Less(x, files[j])
    requires 0 < j ==> Less(files[j - 1], x)
    ensures x !in files
  {
    forall k | 0 <= k < |files|
      ensures files[k] != x
    {
      LessIrreflexive(x);
      if k < j {
        if k < j - 1 {
          AscendingPairs(files, k, j - 1);
          LessTransitive(files[k], files[j - 1], x);
        }
      } else if k > j {
        AscendingPairs(files, j, k);
        LessTransitive(x, files[j], files[k]);
      }
    }
  }

  // ---- The merge ---------------------------------------------------------

  /** The number of mismatches: missing, modified or unreadable, and extra files. */
  method Check(entries: seq<Entry>, files: seq<string>, digests: Digests) returns (mismatches: nat)
    requires Ascending(Paths(entries)) && Ascending(files)
    ensures mismatches == |Missing(entries, files, |entries|)| + |Modified(entries, files, digests, |entries|)|
                          + |Extra(entries, files, |files|)|
  {
    hide Missing, Modified, Extra, Paths, Less, Ascending, Intact;
    NothingCounted(entries, files, digests);
    mismatches := 0;
    var index := 0;
    for j := 0 to |files|
      invariant index <= |entries| && Merged(Paths(entries), files, index, j)
      invariant mismatches == |Missing(entries, files, index)| + |Modified(entries, files, digests, index)|
                              + |Extra(entries, files, j)|
    {
      index, mismatches := SkipMissing(entries, files, digests, j, index, mismatches);
      CountFile(entries, files, j);
      if index < |entries| && entries[index].path == files[j] {
        Pair(entries, files, index, j);
        CountEntry(entries, files, digests, index);
        if !Readable(files[j], digests) {
          mismatches := mismatches + 1;
        } else if digests[files[j]] != entries[index].digest {
          mismatches := mismatches + 1;
        }
        assert Intact(entries[index], digests) <==> files[j] in digests && digests[files[j]] == entries[index].digest
          by { IntactIs(entries[index], digests); }
        index := index + 1;
      } else {
        Unlisted(entries, files, index, j);
        mismatches := mismatches + 1;
      }
    }
    while index < |entries|
      invariant index <= |entries| && Merged(Paths(entries), files, index, |files|)
      invariant mismatches == |Missing(entries, files, index)| + |Modified(entries, files, digests, index)|
                              + |Extra(entries, files, |files|)|
    {
      BetweenFiles(entries[index].path, files, |files|);
      CountEntry(entries, files, digests, index);
      SkipKeeps(entries, files, index, |files|);
      mismatches := mismatches + 1;
      index := index + 1;
    }
  }

  predicate Readable(file: string, digests: Digests) {
    file in digests
  }

  lemma {:induction false} IntactIs(e: Entry, digests: Digests)
    ensures Intact(e, digests) <==> e.path in digests && digests[e.path] == e.digest
  {
  }

  lemma {:induction false} NothingCounted(entries: seq<Entry>, files: seq<string>, digests: Digests)
    ensures Missing(entries, files, 0) == {} && Modified(entries, files, digests, 0) == {}
    ensures Extra(entries, files, 0) == {}
  {
  }

  /** Pass the entries that come before the file `j`: the bundle lacks them. */
  method SkipMissing(entries: seq<Entry>, files: seq<string>, digests: Digests, j: nat, start: nat, count: nat)
    returns (index: nat, mismatches: nat)
    requires Ascending(Paths(entries)) && Ascending(files) && j < |files|
    requires start <= |entries| && Merged(Paths(entries), files, start, j)
    requires count == |Missing(entries, files, start)| + |Modified(entries, files, digests, start)|
                      + |Extra(entries, files, j)|
    ensures start <= index <= |entries| && Merged(Paths(entries), files, index, j)
    ensures index < |entries| ==> !Less(entries[index].path, files[j])
    ensures mismatches == |Missing(entries, files, index)| + |Modified(entries, files, digests, index)|
                          + |Extra(entries, files, j)|
  {
    hide Missing, Modified, Extra, Paths, Less, Ascending, Intact;
    index, mismatches := start, count;
    while index < |entries| && Less(entries[index].path, files[j])
      invariant start <= index <= |entries| && Merged(Paths(entries), files, index, j)
      invariant mismatches == |Missing(entries, files, index)| + |Modified(entries, files, digests, index)|
                              + |Extra(entries, files, j)|
    {
      BetweenFiles(entries[index].path, files, j);
      CountEntry(entries, files, digests, index);
      SkipKeeps(entries, files, index, j);
      mismatches := mismatches + 1;
      index := index + 1;
    }
  }

  /** Moving past an entry that comes before the next file keeps the merge. */
  lemma {:induction false} SkipKeeps(entries: seq<Entry>, files: seq<string>, index: nat, j: nat)
    requires Ascending(Paths(entries)) && index < |entries| && j <= |files| && Merged(Paths(entries), files, index, j)
    requires j < |files| ==> Less(entries[index].path, files[j])
    ensures Merged(Paths(entries), files, index + 1, j)
  {
    hide Less, Paths;
    var paths := Paths(entries);
    if 0 < j && index + 1 < |paths| {
      AscendingPairs(paths, index, index + 1);
      LessTransitive(files[j - 1], paths[index], paths[index + 1]);
    }
  }

  /** Moving past a file and its entry keeps the merge. */
  lemma {:induction false} Pair(entries: seq<Entry>, files: seq<string>, index: nat, j: nat)
    requires Ascending(Paths(entries)) && Ascending(files) && index < |entries| && j < |files|
    requires entries[index].path == files[j]
    ensures Merged(Paths(entries), files, index + 1, j + 1)
    ensures entries[index].path in files && files[j] in Paths(entries)
  {
    hide Less;
    var paths := Paths(entries);
    assert paths[index] == files[j];
    if j + 1 < |files| {
      AscendingPairs(files, j, j + 1);
    }
    if index + 1 < |paths| {
      AscendingPairs(paths, index, index + 1);
    }
  }

  /** A file with no entry of its own is not listed at all. */
  lemma {:induction false} Unlisted(entries: seq<Entry>, files: seq<string>, index: nat, j: nat)
    requires Ascending(Paths(entries)) && Ascending(files) && index <= |entries| && j < |files|
    requires Merged(Paths(entries), files, index, j)
    requires index < |entries| ==> !Less(entries[index].path, files[j]) && entries[index].path != files[j]
    ensures Merged(Paths(entries), files, index, j + 1) && files[j] !in Paths(entries)
  {
    hide Less;
    var paths := Paths(entries);
    if index < |entries| {
      LessTotal(paths[index], files[j]);
    }
    if 0 < index && j + 1 < |files| {
      AscendingPairs(files, j, j + 1);
      LessTransitive(paths[index - 1], files[j], files[j + 1]);
    }
    BetweenFiles(files[j], paths, index);
  }

  // ---- Agreement ---------------------------------------------------------

  /** No mismatch exactly when the paths agree one for one and every digest matches. */
  lemma {:induction false} CheckPasses(entries: seq<Entry>, files: seq<string>, digests: Digests)
    requires Ascending(Paths(entries)) && Ascending(files)
    ensures |Missing(entries, files, |entries|)| + |Modified(entries, files, digests, |entries|)|
            + |Extra(entries, files, |files|)| == 0
            <==> Paths(entries) == files && forall i :: 0 <= i < |entries| ==> Intact(entries[i], digests)
  {
    hide Intact, Less;
    var missing, modified, extra := Missing(entries, files, |entries|), Modified(entries, files, digests, |entries|),
                                    Extra(entries, files, |files|);
    if missing == {} && modified == {} && extra == {} {
      forall i | 0 <= i < |entries|
        ensures entries[i].path in files && Intact(entries[i], digests)
      {
        assert i !in missing && i !in modified;
      }
      forall j | 0 <= j < |files|
        ensures files[j] in Paths(entries)
      {
        assert j !in extra;
      }
      assert forall x :: x in Paths(entries) ==> x in files;
      SameSorted(Paths(entries), files);
    }
    if Paths(entries) == files && forall i :: 0 <= i < |entries| ==> Intact(entries[i], digests) {
      assert forall i :: 0 <= i < |entries| ==> entries[i].path == files[i];
      assert missing == {} && modified == {} && extra == {};
    }
  }

  /** Two ascending lists of the same paths are the same list. */
  lemma {:induction false} SameSorted(a: seq<string>, b: seq<string>)
    requires Ascending(a) && Ascending(b)
    requires (forall x :: x in a ==> x in b) && forall x :: x in b ==> x in a
    ensures a == b
    decreases |a|
  {
    hide Less;
    if a == [] {
      assert forall i :: 0 <= i < |b| ==> b[i] in b;
    } else {
      assert a[0] in b;
      assert b[0] in a;
      var n, m := |a| - 1, |b| - 1;
      LastOf(a, b);
      assert a[n] == b[m];
      forall x | x in a[..n]
        ensures x in b[..m]
      {
        var i :| 0 <= i < n && a[i] == x;
        AscendingPairs(a, i, n);
        assert x in b;
      }
      forall x | x in b[..m]
        ensures x in a[..n]
      {
        var i :| 0 <= i < m && b[i] == x;
        AscendingPairs(b, i, m);
        assert x in a;
      }
      SameSorted(a[..n], b[..m]);
      assert a == a[..n] + [a[n]] && b == b[..m] + [b[m]];
    }
  }

  lemma {:induction false} LastOf(a: seq<string>, b: seq<string>)
    requires Ascending(a) && Ascending(b) && a != [] && b != []
    requires a[|a| - 1] in b && b[|b| - 1] in a
    ensures a[|a| - 1] == b[|b| - 1]
  {
    hide Less;
    var n, m := |a| - 1, |b| - 1;
    var i :| 0 <= i <= m && b[i] == a[n];
    var j :| 0 <= j <= n && a[j] == b[m];
    if i < m && j < n {
      AscendingPairs(b, i, m);
      AscendingPairs(a, j, n);
      LessTransitive(a[n], b[m], a[n]);
      LessIrreflexive(a[n]);
    }
  }

  // ---- The two commands together -----------------------------------------

  /** The entries the manifest command writes for a bundle it could read. */
  function EntriesFor(files: seq<string>, digests: Digests): (entries: seq<Entry>)
    requires forall f :: f in files ==> f in digests
    ensures |entries| == |files|
    ensures forall i :: 0 <= i < |files| ==> entries[i] == Entry(digests[files[i]], files[i])
  {
    if files == [] then []
    else EntriesFor(files[..|files| - 1], digests) + [Entry(digests[files[|files| - 1]], files[|files| - 1])]
  }

  /** Any accepted manifest is sorted, as the check requires. */
  lemma {:induction false} ParsedIsSorted(text: string)
    requires Parse(text).Some?
    ensures Ascending(Paths(Parse(text).value))
  {
    hide Parse, Render, Less, Value;
    ParserExact(text, Parse(text).value);
  }

  /** Checking a bundle against the manifest just written for it finds nothing, as long as
      no file name holds a newline or a dot pair. */
  lemma {:induction false} FreshManifestPasses(files: seq<string>, digests: Digests)
    requires Ascending(files) && forall f :: f in files ==> f in digests
    requires forall f :: f in files ==>
               SafePath(f) && NoNewline(f) && |digests[f]| == DIGEST_CHARS && IsHex(digests[f])
    ensures var entries := EntriesFor(files, digests);
            && Parse(Print(entries)) == Some(entries)
            && Missing(entries, files, |entries|) == {} && Modified(entries, files, digests, |entries|) == {}
            && Extra(entries, files, |files|) == {}
  {
    hide Parse, Print, Less, EntriesFor, SafePath, NoNewline, IsHex;
    var entries := EntriesFor(files, digests);
    forall i | 0 <= i < |entries|
      ensures GoodEntry(entries[i]) && entries[i].path in files && Intact(entries[i], digests)
    {
      assert files[i] in files;
    }
    assert Paths(entries) == files;
    ManifestRoundTrip(entries);
  }
}
