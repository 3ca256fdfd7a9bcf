/**
 * firestore-indexes/split.js: strips full-line `//` comments from the combined
 * index file, groups its `indexes` and `fieldOverrides` entries by
 * `collectionGroup`, and emits one `<collection>.json` record per collection,
 * in sorted collection order.
 */
module FirestoreSplit {
  import opened Wrappers
  import opened Strings

  /** One entry of `indexes` or `fieldOverrides`: its `collectionGroup` and the rest of the JSON object, kept opaque. */
  datatype Entry = Entry(collectionGroup: string, definition: string)

  /** A parsed index file; either array may be absent. */
  datatype IndexFile = IndexFile(indexes: Option<seq<Entry>>, fieldOverrides: Option<seq<Entry>>)

  /** The record written for one collection: both arrays are always present. */
  datatype CollectionRecord = CollectionRecord(indexes: seq<Entry>, fieldOverrides: seq<Entry>)

  datatype OutputFile = OutputFile(name: string, record: CollectionRecord)

  /** `a || []`. */
  function OrEmpty(a: Option<seq<Entry>>): seq<Entry> {
    if a.Some? then a.value else []
  }

  /** What reading back a written record gives: both arrays present. */
  function Written(r: CollectionRecord): IndexFile {
    IndexFile(Some(r.indexes), Some(r.fieldOverrides))
  }

  // ---------------------------------------------------------------------------
  // stripComments
  // ---------------------------------------------------------------------------

  predicate IsCommentLine(line: string) {
    StartsWith(Trim(line), "//")
  }

  /** The lines of `lines` that `drop` does not hold for, in their original order. */
  function KeepLines(lines: seq<string>, drop: string -> bool): seq<string> {
    if |lines| == 0 then []
    else
      var last := lines[|lines| - 1];
      KeepLines(lines[..|lines| - 1], drop) + (if drop(last) then [] else [last])
  }

  /** `.filter(line => !line.trim().startsWith('//'))`: the lines that are not comment lines, in their original order. */
  function CodeLines(lines: seq<string>): seq<string> {
    KeepLines(lines, IsCommentLine)
  }

  function StripComments(json: string): string {
    Join(CodeLines(Strings.Split(json, '\n')), "\n")
  }

  /** A line is a comment line exactly when its first non-blank characters are `//`. */
  lemma CommentLineIff(line: string)
    ensures IsCommentLine(line) <==> StartsWith(TrimStart(line), "//")
  {
    TrimStartsWith(line, "//");
  }

  /** The lines of the stripped text are exactly the code lines of the input, in order. */
  lemma StripCommentsLines(json: string)
    ensures var kept := CodeLines(Strings.Split(json, '\n'));
            if kept == [] then StripComments(json) == ""
            else Strings.Split(StripComments(json), '\n') == kept
  {
    var lines := Strings.Split(json, '\n');
    var kept := CodeLines(lines);
    if kept != [] {
      forall i | 0 <= i < |kept| ensures '\n' !in kept[i] {
        CodeLinesKept(lines, kept[i]);
      }
      SplitJoin(kept, '\n');
    }
  }

  lemma {:induction false} KeepLinesMember(lines: seq<string>, drop: string -> bool, line: string)
    ensures line in KeepLines(lines, drop) <==> line in lines && !drop(line)
  {
    if |lines| > 0 {
      var p := lines[..|lines| - 1];
      KeepLinesMember(p, drop, line);
      assert lines == p + [lines[|lines| - 1]];
    }
  }

  lemma {:induction false} KeepLinesAll(lines: seq<string>, drop: string -> bool)
    requires forall i :: 0 <= i < |lines| ==> !drop(lines[i])
    ensures KeepLines(lines, drop) == lines
  {
    if |lines| > 0 {
      KeepLinesAll(lines[..|lines| - 1], drop);
      assert lines == lines[..|lines| - 1] + [lines[|lines| - 1]];
    }
  }

  /** Every kept line is a non-comment line of the input, and every non-comment line is kept. */
  lemma CodeLinesKept(lines: seq<string>, line: string)
    ensures line in CodeLines(lines) <==> line in lines && !IsCommentLine(line)
  {
    KeepLinesMember(lines, IsCommentLine, line);
  }

  /** Lines without comments are kept whole. */
  lemma CodeLinesAllCode(lines: seq<string>)
    requires forall i :: 0 <= i < |lines| ==> !IsCommentLine(lines[i])
    ensures CodeLines(lines) == lines
  {
    KeepLinesAll(lines, IsCommentLine);
  }

  /** Text without comment lines passes through unchanged. */
  lemma StripCommentsNoComments(json: string)
    requires forall line :: line in Strings.Split(json, '\n') ==> !IsCommentLine(line)
    ensures StripComments(json) == json
  {
    var lines := Strings.Split(json, '\n');
    forall i | 0 <= i < |lines| ensures !IsCommentLine(lines[i]) {
      assert lines[i] in lines;
    }
    KeepLinesAll(lines, IsCommentLine);
    JoinSplit(json, '\n');
  }

  lemma TrailingCommentTrimmed(code: string, comment: string)
    requires TrimStart(code) != "" && TrimStart(code)[0] != '/'
    ensures !StartsWith(TrimStart(code + "//" + comment), "//")
  {
    var t, rest := TrimStart(code), "//" + comment;
    assert code + "//" + comment == code + rest;
    TrimStartAppend(code, rest);
    var trimmed := t + rest;
    assert trimmed[0] == t[0];
    assert |trimmed| >= 2 ==> trimmed[..2][0] == t[0];
  }

  /** A line of code followed by a trailing `//` comment is not a comment line, so it is kept unchanged. */
  lemma TrailingCommentKept(code: string, comment: string)
    requires TrimStart(code) != "" && TrimStart(code)[0] != '/'
    ensures !IsCommentLine(code + "//" + comment)
    ensures CodeLines([code + "//" + comment]) == [code + "//" + comment]
  {
    var line := code + "//" + comment;
    TrailingCommentTrimmed(code, comment);
    CommentLineIff(line);
    CodeLinesAllCode([line]);
  }

  // ---------------------------------------------------------------------------
  // grouping by collectionGroup
  // ---------------------------------------------------------------------------

  /** The entries of `s` whose collection is `c`, in input order. */
  function InCollection(s: seq<Entry>, c: string): seq<Entry> {
    if |s| == 0 then []
    else InCollection(s[..|s| - 1], c) + (if s[|s| - 1].collectionGroup == c then [s[|s| - 1]] else [])
  }

  function CollectionSet(s: seq<Entry>): set<string> {
    set e | e in s :: e.collectionGroup
  }

  function CollectionGroups(s: seq<Entry>): (r: seq<string>)
    ensures |r| == |s| && forall i :: 0 <= i < |s| ==> r[i] == s[i].collectionGroup
  {
    seq(|s|, i requires 0 <= i < |s| => s[i].collectionGroup)
  }

  lemma {:induction false} InCollectionAbsent(s: seq<Entry>, c: string)
    requires c !in CollectionSet(s)
    ensures InCollection(s, c) == []
  {
    if |s| > 0 {
      var p := s[..|s| - 1];
      assert s == p + [s[|s| - 1]];
      assert CollectionSet(p) <= CollectionSet(s);
      InCollectionAbsent(p, c);
    }
  }

  lemma CollectionGroupsSet(s: seq<Entry>)
    ensures forall c :: c in CollectionGroups(s) <==> c in CollectionSet(s)
  {
    var g := CollectionGroups(s);
    forall c | c in CollectionSet(s) ensures c in g {
      var e :| e in s && e.collectionGroup == c;
      var i :| 0 <= i < |s| && s[i] == e;
      assert g[i] == c;
    }
  }

  /** Grouping keeps input order: the group of a concatenation is the concatenation of the groups. */
  lemma {:induction false} InCollectionAppend(a: seq<Entry>, b: seq<Entry>, c: string)
    ensures InCollection(a + b, c) == InCollection(a, c) + InCollection(b, c)
  {
    if |b| > 0 {
      var b' := b[..|b| - 1];
      InCollectionAppend(a, b', c);
      assert (a + b)[..|a + b| - 1] == a + b';
    } else {
      assert a + b == a;
    }
  }

  /** Every occurrence of an entry lands in the group of its own collection and in no other. */
  lemma {:induction false} InCollectionCount(s: seq<Entry>, c: string, e: Entry)
    ensures multiset(InCollection(s, c))[e] == if e.collectionGroup == c then multiset(s)[e] else 0
  {
    if |s| > 0 {
      InCollectionCount(s[..|s| - 1], c, e);
      assert s == s[..|s| - 1] + [s[|s| - 1]];
    }
  }

  lemma {:induction false} InCollectionTwice(s: seq<Entry>, k: string, c: string)
    ensures InCollection(InCollection(s, k), c) == if k == c then InCollection(s, k) else []
  {
    if |s| > 0 {
      var p := s[..|s| - 1];
      InCollectionTwice(p, k, c);
      var last := s[|s| - 1];
      assert s[..|s| - 1] == p;
      if last.collectionGroup == k {
        assert InCollection(s, k) == InCollection(p, k) + [last];
        InCollectionAppend(InCollection(p, k), [last], c);
        assert [last][..0] == [];
        assert InCollection([last], c) == InCollection([], c) + (if last.collectionGroup == c then [last] else []);
      } else {
        assert InCollection(s, k) == InCollection(p, k);
      }
    }
  }

  /** The groups of `s` for the collections `ks`, one after the other. */
  function ConcatGroups(ks: seq<string>, s: seq<Entry>): seq<Entry> {
    if |ks| == 0 then []
    else ConcatGroups(ks[..|ks| - 1], s) + InCollection(s, ks[|ks| - 1])
  }

  /** The entries of `s` whose collection is in `cs`, in input order. */
  function InCollections(s: seq<Entry>, cs: set<string>): seq<Entry> {
    if |s| == 0 then []
    else InCollections(s[..|s| - 1], cs) + (if s[|s| - 1].collectionGroup in cs then [s[|s| - 1]] else [])
  }

  lemma {:induction false} InCollectionsAdd(s: seq<Entry>, cs: set<string>, k: string)
    requires k !in cs
    ensures multiset(InCollections(s, cs + {k})) == multiset(InCollections(s, cs)) + multiset(InCollection(s, k))
  {
    if |s| > 0 {
      InCollectionsAdd(s[..|s| - 1], cs, k);
    }
  }

  lemma {:induction false} InCollectionsAll(s: seq<Entry>, cs: set<string>)
    requires CollectionSet(s) <= cs
    ensures InCollections(s, cs) == s
  {
    if |s| > 0 {
      var p := s[..|s| - 1];
      assert s == p + [s[|s| - 1]];
      assert CollectionSet(p) <= CollectionSet(s);
      InCollectionsAll(p, cs);
    }
  }

  lemma {:induction false} ConcatGroupsMultiset(ks: seq<string>, s: seq<Entry>)
    requires NoDups(ks)
    ensures multiset(ConcatGroups(ks, s)) == multiset(InCollections(s, set k | k in ks))
  {
    if |ks| == 0 {
      assert (set k | k in ks) == {};
      InCollectionsEmpty(s);
    } else {
      var p := ks[..|ks| - 1];
      var k := ks[|ks| - 1];
      ConcatGroupsMultiset(p, s);
      assert (set x | x in ks) == (set x | x in p) + {k} by {
        assert ks == p + [k];
      }
      InCollectionsAdd(s, (set x | x in p), k);
    }
  }

  lemma {:induction false} InCollectionsEmpty(s: seq<Entry>)
    ensures InCollections(s, {}) == []
  {
    if |s| > 0 {
      InCollectionsEmpty(s[..|s| - 1]);
    }
  }

  /**
   * Partition: taking the groups of all collections, each once, in any order,
   * gives back every entry of the input exactly once, so the group sizes add
   * up to the input length.
   */
  lemma GroupsPartition(ks: seq<string>, s: seq<Entry>)
    requires NoDups(ks)
    requires CollectionSet(s) <= set k | k in ks
    ensures multiset(ConcatGroups(ks, s)) == multiset(s)
    ensures |ConcatGroups(ks, s)| == |s|
  {
    ConcatGroupsMultiset(ks, s);
    InCollectionsAll(s, (set k | k in ks));
    assert |multiset(ConcatGroups(ks, s))| == |multiset(s)|;
  }

  /** Within the concatenated groups, each collection's entries are exactly its group, in input order. */
  lemma {:induction false} ConcatGroupsOrder(ks: seq<string>, s: seq<Entry>, c: string)
    requires NoDups(ks)
    ensures InCollection(ConcatGroups(ks, s), c) == if c in ks then InCollection(s, c) else []
  {
    if |ks| > 0 {
      var p := ks[..|ks| - 1];
      var k := ks[|ks| - 1];
      assert ks == p + [k];
      ConcatGroupsOrder(p, s, c);
      InCollectionAppend(ConcatGroups(p, s), InCollection(s, k), c);
      InCollectionTwice(s, k, c);
      assert c in ks <==> c in p || c == k;
      assert c == k ==> c !in p;
    }
  }

  /** Taking one more entry: its collection joins the key set and the key order when new, and its group gains the entry. */
  lemma GroupStep(entries: seq<Entry>, i: nat)
    requires i < |entries|
    ensures var before, after, c := entries[..i], entries[..i + 1], entries[i].collectionGroup;
            && CollectionSet(after) == CollectionSet(before) + {c}
            && Distinct(CollectionGroups(after))
               == Distinct(CollectionGroups(before)) + (if c in CollectionSet(before) then [] else [c])
            && (forall k :: InCollection(after, k) == InCollection(before, k) + (if k == c then [entries[i]] else []))
  {
    var before, after, c := entries[..i], entries[..i + 1], entries[i].collectionGroup;
    assert after == before + [entries[i]];
    assert after[..i] == before;
    assert CollectionGroups(after) == CollectionGroups(before) + [c];
    assert CollectionGroups(after)[..i] == CollectionGroups(before);
    CollectionGroupsSet(before);
  }

  /**
   * The members every `{}` inherits from `Object.prototype` in Node.js. Looking one
   * of them up in a grouping object finds a function (or, for `__proto__`, the
   * prototype itself): a truthy value that has no `push`.
   */
  const InheritedMembers: set<string> :=
    {"constructor", "__defineGetter__", "__defineSetter__", "hasOwnProperty",
     "__lookupGetter__", "__lookupSetter__", "isPrototypeOf", "propertyIs" + "Enumerable",
     "toString", "valueOf", "__proto__", "toLocaleString"}

  /** Some entry names a collection that a plain object already holds. */
  predicate HasInherited(entries: seq<Entry>) {
    exists i :: 0 <= i < |entries| && entries[i].collectionGroup in InheritedMembers
  }

  lemma InheritedStep(entries: seq<Entry>, i: nat)
    requires i < |entries|
    ensures HasInherited(entries[..i + 1]) <==> HasInherited(entries[..i]) || entries[i].collectionGroup in InheritedMembers
  {
    var before, after := entries[..i], entries[..i + 1];
    if HasInherited(after) {
      var j :| 0 <= j < |after| && after[j].collectionGroup in InheritedMembers;
      if j < i {
        assert before[j] == after[j];
      }
    }
    if HasInherited(before) {
      var j :| 0 <= j < |before| && before[j].collectionGroup in InheritedMembers;
      assert after[j] == before[j];
    }
    assert after[i] == entries[i];
  }

  /** The TypeError `<name>[collection].push(...)` throws when the lookup found an inherited member. */
  function PushFailure(name: string): string {
    "TypeError: " + name + "[collection]" + ".push is not" + " a function"
  }

  /** A grouping object: the arrays it maps collections to, and its keys in the order they were added. */
  datatype Grouping = Grouping(byCollection: map<string, seq<Entry>>, keys: seq<string>)

  /**
   * The grouping loop of split() over the object named `name`: builds the
   * collection-to-entries map by pushing, and records the key order. It throws
   * on the first entry whose collection is an inherited member, since the lookup
   * there is truthy and no array is created.
   */
  method GroupByCollection(entries: seq<Entry>, name: string) returns (r: Result<Grouping>)
    ensures r.Err? <==> HasInherited(entries)
    ensures r.Err? ==> r.message == PushFailure(name)
    ensures r.Ok? ==> r.value.keys == Distinct(CollectionGroups(entries))
    ensures r.Ok? ==> r.value.byCollection.Keys == CollectionSet(entries)
    ensures r.Ok? ==> forall c :: c in r.value.byCollection ==> r.value.byCollection[c] == InCollection(entries, c)
  {
    var groups: map<string, seq<Entry>>, order: seq<string> := map[], [];
    for i := 0 to |entries|
      invariant !HasInherited(entries[..i])
      invariant order == Distinct(CollectionGroups(entries[..i]))
      invariant groups.Keys == CollectionSet(entries[..i])
      invariant forall c :: c in groups ==> groups[c] == InCollection(entries[..i], c)
    {
      var c := entries[i].collectionGroup;
      InheritedStep(entries, i);
      if c in InheritedMembers {
        return Err(PushFailure(name));
      }
      GroupStep(entries, i);
      if c !in groups {
        InCollectionAbsent(entries[..i], c);
        groups := groups[c := []];
        order := order + [c];
      }
      groups := groups[c := groups[c] + [entries[i]]];
    }
    assert entries[..|entries|] == entries;
    r := Ok(Grouping(groups, order));
  }

  // ---------------------------------------------------------------------------
  // the emitted files
  // ---------------------------------------------------------------------------

  /** Every collection of either array, each once, in sorted order. */
  function AllCollections(content: IndexFile): seq<string> {
    var idx := Distinct(CollectionGroups(OrEmpty(content.indexes)));
    var ovr := Distinct(CollectionGroups(OrEmpty(content.fieldOverrides)));
    SortStrings(Distinct(idx + ovr))
  }

  /** One file per collection of `cs`, named after it, holding its entries of both arrays. */
  function CollectionFiles(cs: seq<string>, idx: seq<Entry>, ovr: seq<Entry>): (r: seq<OutputFile>)
    ensures |r| == |cs|
  {
    seq(|cs|, i requires 0 <= i < |cs| =>
      OutputFile(cs[i] + ".json", CollectionRecord(InCollection(idx, cs[i]), InCollection(ovr, cs[i]))))
  }

  /** The files split() writes, in the order it writes them. */
  function SplitFiles(content: IndexFile): seq<OutputFile> {
    CollectionFiles(AllCollections(content), OrEmpty(content.indexes), OrEmpty(content.fieldOverrides))
  }

  /** The collections split() writes: the union of both arrays' collections, sorted, each once. */
  lemma AllCollectionsUnion(content: IndexFile)
    ensures var cs := AllCollections(content);
            var idx := OrEmpty(content.indexes);
            var ovr := OrEmpty(content.fieldOverrides);
            && Sorted(cs) && NoDups(cs)
            && (forall c :: c in cs <==> c in CollectionSet(idx) || c in CollectionSet(ovr))
            && |cs| == |CollectionSet(idx) + CollectionSet(ovr)|
  {
    var idx := OrEmpty(content.indexes);
    var ovr := OrEmpty(content.fieldOverrides);
    var u := Distinct(Distinct(CollectionGroups(idx)) + Distinct(CollectionGroups(ovr)));
    var cs := AllCollections(content);
    assert multiset(cs) == multiset(u);
    NoDupsPermutation(u, cs);
    forall c ensures c in cs <==> c in CollectionSet(idx) || c in CollectionSet(ovr) {
      CollectionGroupsSet(idx);
      CollectionGroupsSet(ovr);
      assert c in cs <==> c in multiset(cs);
      assert c in u <==> c in multiset(u);
    }
    NoDupsCard(cs);
    assert (set c | c in cs) == CollectionSet(idx) + CollectionSet(ovr);
  }

  /**
   * The collections split() writes do not depend on the order `Object.keys`
   * lists each grouping's keys in (array-index-like keys first, then insertion
   * order): any listing of the same keys, each once, sorts to the same sequence.
   */
  lemma KeyOrderIrrelevant(content: IndexFile, indexKeys: seq<string>, overrideKeys: seq<string>)
    requires forall c :: c in indexKeys <==> c in CollectionSet(OrEmpty(content.indexes))
    requires forall c :: c in overrideKeys <==> c in CollectionSet(OrEmpty(content.fieldOverrides))
    ensures SortStrings(Distinct(indexKeys + overrideKeys)) == AllCollections(content)
  {
    CollectionGroupsSet(OrEmpty(content.indexes));
    CollectionGroupsSet(OrEmpty(content.fieldOverrides));
    SortDistinctOrderFree(indexKeys, overrideKeys,
      Distinct(CollectionGroups(OrEmpty(content.indexes))), Distinct(CollectionGroups(OrEmpty(content.fieldOverrides))));
  }

  /**
   * One file per distinct collection, in sorted collection order; each file
   * is named after its collection and holds that collection's entries of both
   * arrays, with an absent array giving empty ones.
   */
  lemma SplitFilesShape(content: IndexFile)
    ensures var cs := AllCollections(content);
            var idx := OrEmpty(content.indexes);
            var ovr := OrEmpty(content.fieldOverrides);
            var files := SplitFiles(content);
            && |files| == |CollectionSet(idx) + CollectionSet(ovr)|
            && (forall i :: 0 <= i < |files| ==>
                  && files[i].name == cs[i] + ".json"
                  && files[i].record.indexes == InCollection(idx, cs[i])
                  && files[i].record.fieldOverrides == InCollection(ovr, cs[i]))
            && (content.indexes.None? ==> forall i :: 0 <= i < |files| ==> files[i].record.indexes == [])
            && (content.fieldOverrides.None? ==> forall i :: 0 <= i < |files| ==> files[i].record.fieldOverrides == [])
  {
    AllCollectionsUnion(content);
  }

  /** `{indexes: indexesByCollection[c] || [], fieldOverrides: overridesByCollection[c] || []}`: the collection's two groups. */
  method RecordFor(c: string, indexes: seq<Entry>, overrides: seq<Entry>,
                   indexesByCollection: map<string, seq<Entry>>, overridesByCollection: map<string, seq<Entry>>)
    returns (record: CollectionRecord)
    requires indexesByCollection.Keys == CollectionSet(indexes)
    requires forall c :: c in indexesByCollection ==> indexesByCollection[c] == InCollection(indexes, c)
    requires overridesByCollection.Keys == CollectionSet(overrides)
    requires forall c :: c in overridesByCollection ==> overridesByCollection[c] == InCollection(overrides, c)
    ensures record == CollectionRecord(InCollection(indexes, c), InCollection(overrides, c))
  {
    if c !in indexesByCollection {
      InCollectionAbsent(indexes, c);
    }
    if c !in overridesByCollection {
      InCollectionAbsent(overrides, c);
    }
    record := CollectionRecord(
      if c in indexesByCollection then indexesByCollection[c] else [],
      if c in overridesByCollection then overridesByCollection[c] else []);
  }

  /** The writing loop of split(): one record per collection, `|| []` for a collection missing from a grouping. */
  method EmitFiles(collections: seq<string>, indexes: seq<Entry>, overrides: seq<Entry>,
                   indexesByCollection: map<string, seq<Entry>>, overridesByCollection: map<string, seq<Entry>>)
    returns (files: seq<OutputFile>)
    requires indexesByCollection.Keys == CollectionSet(indexes)
    requires forall c :: c in indexesByCollection ==> indexesByCollection[c] == InCollection(indexes, c)
    requires overridesByCollection.Keys == CollectionSet(overrides)
    requires forall c :: c in overridesByCollection ==> overridesByCollection[c] == InCollection(overrides, c)
    ensures files == CollectionFiles(collections, indexes, overrides)
  {
    ghost var spec := CollectionFiles(collections, indexes, overrides);
    files := [];
    for i := 0 to |collections|
      invariant files == spec[..i]
    {
      var c := collections[i];
      var record := RecordFor(c, indexes, overrides, indexesByCollection, overridesByCollection);
      files := files + [OutputFile(c + ".json", record)];
      assert spec[..i + 1] == spec[..i] + [spec[i]];
    }
    assert spec[..|collections|] == spec;
  }

  /** split() writes its files: neither array names an inherited member. */
  predicate SplitSucceeds(content: IndexFile) {
    !HasInherited(OrEmpty(content.indexes)) && !HasInherited(OrEmpty(content.fieldOverrides))
  }

  /**
   * The body of split(): group both arrays, take the sorted union of their keys,
   * and emit one record per collection; a grouping that throws stops it before
   * anything is written.
   */
  method Split(content: IndexFile) returns (r: Result<seq<OutputFile>>)
    ensures HasInherited(OrEmpty(content.indexes)) ==> r == Err(PushFailure("indexesByCollection"))
    ensures !HasInherited(OrEmpty(content.indexes)) && HasInherited(OrEmpty(content.fieldOverrides))
            ==> r == Err(PushFailure("overridesByCollection"))
    ensures SplitSucceeds(content) ==> r == Ok(SplitFiles(content))
  {
    var indexes := OrEmpty(content.indexes);
    var overrides := OrEmpty(content.fieldOverrides);
    var byIndexes := GroupByCollection(indexes, "indexesByCollection");
    if byIndexes.Err? {
      return Err(byIndexes.message);
    }
    var byOverrides := GroupByCollection(overrides, "overridesByCollection");
    if byOverrides.Err? {
      return Err(byOverrides.message);
    }
    var indexesByCollection, overridesByCollection := byIndexes.value.byCollection, byOverrides.value.byCollection;
    var collections := SortStrings(Distinct(byIndexes.value.keys + byOverrides.value.keys));
    var files := EmitFiles(collections, indexes, overrides, indexesByCollection, overridesByCollection);
    r := Ok(files);
  }
}
