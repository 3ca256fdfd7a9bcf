/**
 * firestore-indexes/build.js: reads every `.json` file of the index directory
 * in sorted name order and concatenates their `indexes` and `fieldOverrides`
 * arrays into one record. The directory listing and the reading and parsing
 * of a file are parameters: `listing` is what `readdirSync` returns and
 * `read` gives the parsed content of a file.
 */
module FirestoreBuild {
  import opened Wrappers
  import opened Strings
  import opened FirestoreSplit

  /** The names of `listing` that end in `.json`, in listing order. */
  function JsonNames(listing: seq<string>): seq<string> {
    if |listing| == 0 then []
    else
      var last := listing[|listing| - 1];
      JsonNames(listing[..|listing| - 1]) + (if EndsWith(last, ".json") then [last] else [])
  }

  lemma {:induction false} JsonNamesMember(listing: seq<string>, n: string)
    ensures n in JsonNames(listing) <==> n in listing && EndsWith(n, ".json")
  {
    if |listing| > 0 {
      var p := listing[..|listing| - 1];
      JsonNamesMember(p, n);
      assert listing == p + [listing[|listing| - 1]];
    }
  }

  lemma {:induction false} JsonNamesNoDups(listing: seq<string>)
    requires NoDups(listing)
    ensures NoDups(JsonNames(listing))
  {
    if |listing| > 0 {
      var p := listing[..|listing| - 1];
      var last := listing[|listing| - 1];
      JsonNamesNoDups(p);
      JsonNamesMember(p, last);
      assert listing == p + [last];
      assert last !in p;
    }
  }

  /** The files build() reads, in the order it reads them. */
  function JsonFiles(listing: seq<string>): seq<string> {
    SortStrings(JsonNames(listing))
  }

  /** Exactly the `.json` names of the listing are read, in sorted order, each as often as it is listed. */
  lemma JsonFilesSelected(listing: seq<string>)
    ensures Sorted(JsonFiles(listing))
    ensures forall n :: n in JsonFiles(listing) <==> n in listing && EndsWith(n, ".json")
    ensures NoDups(listing) ==> NoDups(JsonFiles(listing))
  {
    var names := JsonNames(listing);
    var files := JsonFiles(listing);
    forall n ensures n in files <==> n in listing && EndsWith(n, ".json") {
      JsonNamesMember(listing, n);
      assert n in files <==> n in multiset(files);
      assert n in names <==> n in multiset(names);
    }
    if NoDups(listing) {
      JsonNamesNoDups(listing);
      NoDupsPermutation(names, files);
    }
  }

  /** The `indexes` of the files, one file after another; a file without the key contributes nothing. */
  function ConcatIndexes(files: seq<string>, read: string -> IndexFile): seq<Entry> {
    if |files| == 0 then []
    else ConcatIndexes(files[..|files| - 1], read) + OrEmpty(read(files[|files| - 1]).indexes)
  }

  /** The `fieldOverrides` of the files, one file after another. */
  function ConcatOverrides(files: seq<string>, read: string -> IndexFile): seq<Entry> {
    if |files| == 0 then []
    else ConcatOverrides(files[..|files| - 1], read) + OrEmpty(read(files[|files| - 1]).fieldOverrides)
  }

  /** The per-file line build() logs: `<file>: <n> indexes, <m> overrides`. */
  datatype FileReport = FileReport(name: string, indexCount: nat, overrideCount: nat)

  function SumIndexCounts(reports: seq<FileReport>): nat {
    if |reports| == 0 then 0 else SumIndexCounts(reports[..|reports| - 1]) + reports[|reports| - 1].indexCount
  }

  function SumOverrideCounts(reports: seq<FileReport>): nat {
    if |reports| == 0 then 0 else SumOverrideCounts(reports[..|reports| - 1]) + reports[|reports| - 1].overrideCount
  }

  /** The report build() logs for `file`: a missing array counts as zero entries. */
  function ReportOf(file: string, read: string -> IndexFile): FileReport {
    FileReport(file, |OrEmpty(read(file).indexes)|, |OrEmpty(read(file).fieldOverrides)|)
  }

  /**
   * The body of build(): start from empty arrays and append each file's arrays
   * in sorted file order; the logged per-file counts add up to the logged totals.
   */
  method Build(listing: seq<string>, read: string -> IndexFile) returns (result: CollectionRecord, reports: seq<FileReport>)
    ensures var files := JsonFiles(listing);
            && result.indexes == ConcatIndexes(files, read)
            && result.fieldOverrides == ConcatOverrides(files, read)
            && |reports| == |files|
            && (forall i :: 0 <= i < |files| ==> reports[i] == ReportOf(files[i], read))
            && |result.indexes| == SumIndexCounts(reports)
            && |result.fieldOverrides| == SumOverrideCounts(reports)
  {
    var files := SortStrings(JsonNames(listing));
    result, reports := ReadAll(files, read);
  }

  /** The loop of build() over the selected files, in the order given. */
  method ReadAll(files: seq<string>, read: string -> IndexFile) returns (result: CollectionRecord, reports: seq<FileReport>)
    ensures result.indexes == ConcatIndexes(files, read)
    ensures result.fieldOverrides == ConcatOverrides(files, read)
    ensures |reports| == |files|
    ensures forall i :: 0 <= i < |files| ==> reports[i] == ReportOf(files[i], read)
    ensures |result.indexes| == SumIndexCounts(reports)
    ensures |result.fieldOverrides| == SumOverrideCounts(reports)
  {
    result := CollectionRecord([], []);
    reports := [];
    for i := 0 to |files|
      invariant result.indexes == ConcatIndexes(files[..i], read)
      invariant result.fieldOverrides == ConcatOverrides(files[..i], read)
      invariant |reports| == i
      invariant forall k :: 0 <= k < i ==> reports[k] == ReportOf(files[k], read)
    {
      var content := read(files[i]);
      var report;
      result, report := AddFile(result, files[i], content);
      reports := reports + [report];
      ConcatStep(files, i, read);
    }
    assert files[..|files|] == files;
    TotalsMatch(files, read, reports);
  }

  /** One pass of build()'s loop: log the file's counts and push its arrays when present. */
  method AddFile(result: CollectionRecord, file: string, content: IndexFile) returns (next: CollectionRecord, report: FileReport)
    ensures next.indexes == result.indexes + OrEmpty(content.indexes)
    ensures next.fieldOverrides == result.fieldOverrides + OrEmpty(content.fieldOverrides)
    ensures report == FileReport(file, |OrEmpty(content.indexes)|, |OrEmpty(content.fieldOverrides)|)
  {
    var indexCount := if content.indexes.Some? then |content.indexes.value| else 0;
    var overrideCount := if content.fieldOverrides.Some? then |content.fieldOverrides.value| else 0;
    report := FileReport(file, indexCount, overrideCount);
    next := result;
    if content.indexes.Some? {
      next := next.(indexes := next.indexes + content.indexes.value);
    } else {
      assert next.indexes + [] == next.indexes;
    }
    if content.fieldOverrides.Some? {
      next := next.(fieldOverrides := next.fieldOverrides + content.fieldOverrides.value);
    } else {
      assert next.fieldOverrides + [] == next.fieldOverrides;
    }
  }

  /** The totals of the arrays built from `files` are the sums of the files' reported counts. */
  lemma {:induction false} TotalsMatch(files: seq<string>, read: string -> IndexFile, reports: seq<FileReport>)
    requires |reports| == |files|
    requires forall k :: 0 <= k < |files| ==> reports[k] == ReportOf(files[k], read)
    ensures |ConcatIndexes(files, read)| == SumIndexCounts(reports)
    ensures |ConcatOverrides(files, read)| == SumOverrideCounts(reports)
  {
    if |files| > 0 {
      TotalsMatch(files[..|files| - 1], read, reports[..|reports| - 1]);
    }
  }

  /** Reading one more file appends that file's arrays, or nothing for a missing key. */
  lemma ConcatStep(files: seq<string>, i: nat, read: string -> IndexFile)
    requires i < |files|
    ensures ConcatIndexes(files[..i + 1], read) == ConcatIndexes(files[..i], read) + OrEmpty(read(files[i]).indexes)
    ensures ConcatOverrides(files[..i + 1], read) == ConcatOverrides(files[..i], read) + OrEmpty(read(files[i]).fieldOverrides)
  {
    assert files[..i + 1][..i] == files[..i];
  }

  // ---------------------------------------------------------------------------
  // build after split
  // ---------------------------------------------------------------------------

  /**
   * The index directory as a split() that ran to the end leaves it: every
   * written file is listed and reads back as written, no other `.json` file is
   * listed, and the listing names each file once.
   */
  predicate HoldsSplitOutput(content: IndexFile, listing: seq<string>, read: string -> IndexFile) {
    && SplitSucceeds(content)
    && NoDups(listing)
    && (forall f :: f in SplitFiles(content) ==> f.name in listing && read(f.name) == Written(f.record))
    && (forall n :: n in listing && EndsWith(n, ".json") ==> exists f :: f in SplitFiles(content) && f.name == n)
  }

  /** The collection a `<collection>.json` file name stands for. */
  function CollectionOf(file: string): string {
    if |file| >= 5 then file[..|file| - 5] else file
  }

  lemma {:induction false} ConcatIndexesGroups(files: seq<string>, read: string -> IndexFile, ks: seq<string>, s: seq<Entry>)
    requires |ks| == |files|
    requires forall i :: 0 <= i < |files| ==> OrEmpty(read(files[i]).indexes) == InCollection(s, ks[i])
    ensures ConcatIndexes(files, read) == ConcatGroups(ks, s)
  {
    if |files| > 0 {
      ConcatIndexesGroups(files[..|files| - 1], read, ks[..|ks| - 1], s);
    }
  }

  lemma {:induction false} ConcatOverridesGroups(files: seq<string>, read: string -> IndexFile, ks: seq<string>, s: seq<Entry>)
    requires |ks| == |files|
    requires forall i :: 0 <= i < |files| ==> OrEmpty(read(files[i]).fieldOverrides) == InCollection(s, ks[i])
    ensures ConcatOverrides(files, read) == ConcatGroups(ks, s)
  {
    if |files| > 0 {
      ConcatOverridesGroups(files[..|files| - 1], read, ks[..|ks| - 1], s);
    }
  }

  /** A listed `.json` file reads back as the two groups of the collection it is named after. */
  lemma SplitFileReadBack(content: IndexFile, listing: seq<string>, read: string -> IndexFile, n: string)
    requires HoldsSplitOutput(content, listing, read)
    requires n in listing && EndsWith(n, ".json")
    ensures n == CollectionOf(n) + ".json"
    ensures OrEmpty(read(n).indexes) == InCollection(OrEmpty(content.indexes), CollectionOf(n))
    ensures OrEmpty(read(n).fieldOverrides) == InCollection(OrEmpty(content.fieldOverrides), CollectionOf(n))
  {
    var out := SplitFiles(content);
    var cs := AllCollections(content);
    var f :| f in out && f.name == n;
    var j :| 0 <= j < |out| && out[j] == f;
    assert (cs[j] + ".json")[..|cs[j]|] == cs[j];
  }

  /** Every collection of the original arrays has its file in the listing. */
  lemma SplitFileListed(content: IndexFile, listing: seq<string>, read: string -> IndexFile, c: string)
    requires HoldsSplitOutput(content, listing, read)
    requires c in CollectionSet(OrEmpty(content.indexes)) + CollectionSet(OrEmpty(content.fieldOverrides))
    ensures c + ".json" in listing && EndsWith(c + ".json", ".json")
    ensures CollectionOf(c + ".json") == c
  {
    var out := SplitFiles(content);
    var cs := AllCollections(content);
    AllCollectionsUnion(content);
    var j :| 0 <= j < |cs| && cs[j] == c;
    assert out[j] in out;
    assert (c + ".json")[..|c|] == c;
    assert (c + ".json")[|c|..] == ".json";
  }

  /** Reading the files split() wrote gives, file by file, the groups of the collections they are named after. */
  lemma SplitFilesRead(content: IndexFile, listing: seq<string>, read: string -> IndexFile)
    returns (ks: seq<string>)
    requires HoldsSplitOutput(content, listing, read)
    ensures |ks| == |JsonFiles(listing)| && NoDups(ks)
    ensures CollectionSet(OrEmpty(content.indexes)) <= set k | k in ks
    ensures CollectionSet(OrEmpty(content.fieldOverrides)) <= set k | k in ks
    ensures forall i :: 0 <= i < |ks| ==>
              OrEmpty(read(JsonFiles(listing)[i]).indexes) == InCollection(OrEmpty(content.indexes), ks[i])
    ensures forall i :: 0 <= i < |ks| ==>
              OrEmpty(read(JsonFiles(listing)[i]).fieldOverrides) == InCollection(OrEmpty(content.fieldOverrides), ks[i])
  {
    var files := JsonFiles(listing);
    JsonFilesSelected(listing);
    ks := seq(|files|, i requires 0 <= i < |files| => CollectionOf(files[i]));
    forall i | 0 <= i < |files|
      ensures files[i] == ks[i] + ".json"
      ensures OrEmpty(read(files[i]).indexes) == InCollection(OrEmpty(content.indexes), ks[i])
      ensures OrEmpty(read(files[i]).fieldOverrides) == InCollection(OrEmpty(content.fieldOverrides), ks[i])
    {
      assert files[i] in files;
      SplitFileReadBack(content, listing, read, files[i]);
    }
    forall i, i' | 0 <= i < i' < |ks| ensures ks[i] != ks[i'] {
      assert files[i] != files[i'];
    }
    forall c | c in CollectionSet(OrEmpty(content.indexes)) + CollectionSet(OrEmpty(content.fieldOverrides))
      ensures c in ks
    {
      SplitFileListed(content, listing, read, c);
      assert c + ".json" in files;
      var i :| 0 <= i < |files| && files[i] == c + ".json";
      assert ks[i] == c;
    }
  }

  /**
   * Building after splitting gives back every entry of the original arrays
   * exactly once (a permutation), and each collection's entries in their
   * original relative order. The global order is not kept: files are read in
   * `<collection>.json` name order, which can differ from collection order.
   */
  lemma BuildAfterSplit(content: IndexFile, listing: seq<string>, read: string -> IndexFile)
    requires HoldsSplitOutput(content, listing, read)
    ensures var files := JsonFiles(listing);
            var idx := OrEmpty(content.indexes);
            var ovr := OrEmpty(content.fieldOverrides);
            && multiset(ConcatIndexes(files, read)) == multiset(idx)
            && multiset(ConcatOverrides(files, read)) == multiset(ovr)
            && (forall c :: InCollection(ConcatIndexes(files, read), c) == InCollection(idx, c))
            && (forall c :: InCollection(ConcatOverrides(files, read), c) == InCollection(ovr, c))
  {
    var files := JsonFiles(listing);
    var idx := OrEmpty(content.indexes);
    var ovr := OrEmpty(content.fieldOverrides);
    var ks := SplitFilesRead(content, listing, read);
    ConcatIndexesGroups(files, read, ks, idx);
    ConcatOverridesGroups(files, read, ks, ovr);
    GroupsPartition(ks, idx);
    GroupsPartition(ks, ovr);
    forall c ensures InCollection(ConcatIndexes(files, read), c) == InCollection(idx, c)
                && InCollection(ConcatOverrides(files, read), c) == InCollection(ovr, c)
    {
      ConcatGroupsOrder(ks, idx, c);
      ConcatGroupsOrder(ks, ovr, c);
      if c !in ks {
        InCollectionAbsent(idx, c);
        InCollectionAbsent(ovr, c);
      }
    }
  }
}
