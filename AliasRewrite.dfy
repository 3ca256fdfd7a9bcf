/**
 * The `@functions/` alias handling of packages/functions/esbuild.config.js:
 * the post-build pass that rewrites `require("@functions/...")` calls in the
 * emitted files into relative paths, and the resolver plugin that maps the
 * alias to a source file during the build. `path.relative`, `path.resolve`,
 * the file listing and reading are parameters.
 */
module AliasRewrite {
  import opened Wrappers
  import opened Strings

  // ---------------------------------------------------------------------------
  // normalising the computed relative path
  // ---------------------------------------------------------------------------

  /** `s.replace(/\\/g, '/')`. */
  function Slashed(s: string): (r: string)
    ensures |r| == |s|
    ensures forall i :: 0 <= i < |s| ==> r[i] == (if s[i] == '\\' then '/' else s[i])
  {
    seq(|s|, i requires 0 <= i < |s| => if s[i] == '\\' then '/' else s[i])
  }

  /** The relative path after the three steps of the replace callback. */
  function NormalizedPath(relativePath: string): string {
    var dotted := if StartsWith(relativePath, ".") then relativePath else "./" + relativePath;
    var slashed := Slashed(dotted);
    if EndsWith(slashed, ".js") then slashed else slashed + ".js"
  }

  /** The callback's steps on `relativePath`, reassigned one after another. */
  method NormalizeRelativePath(computed: string) returns (relativePath: string)
    ensures relativePath == NormalizedPath(computed)
  {
    relativePath := computed;
    if !StartsWith(relativePath, ".") {
      relativePath := "./" + relativePath;
    }
    relativePath := Slashed(relativePath);
    if !EndsWith(relativePath, ".js") {
      relativePath := relativePath + ".js";
    }
  }

  /**
   * The normalised path starts with `.`, holds no backslash and ends with
   * `.js`; the extension is added exactly when the slashed path lacks it, so
   * it is never doubled.
   */
  lemma NormalizedPathShape(relativePath: string)
    ensures var p := NormalizedPath(relativePath);
            && StartsWith(p, ".")
            && '\\' !in p
            && EndsWith(p, ".js")
    ensures var dotted := if StartsWith(relativePath, ".") then relativePath else "./" + relativePath;
            var slashed := Slashed(dotted);
            && (EndsWith(slashed, ".js") ==> NormalizedPath(relativePath) == slashed)
            && (!EndsWith(slashed, ".js") ==> NormalizedPath(relativePath) == slashed + ".js")
  {
    var dotted := if StartsWith(relativePath, ".") then relativePath else "./" + relativePath;
    var slashed := Slashed(dotted);
    assert slashed[0] == '.';
    if !EndsWith(slashed, ".js") {
      var p := slashed + ".js";
      assert p[..|slashed|] == slashed;
      assert p[|p| - 3..] == ".js";
    }
  }

  /** A path with no backslash is its own slashed form. */
  lemma SlashedNoBackslash(s: string)
    requires '\\' !in s
    ensures Slashed(s) == s
  {
  }

  /** Normalising twice gives the same path as normalising once. */
  lemma NormalizeIdempotent(relativePath: string)
    ensures NormalizedPath(NormalizedPath(relativePath)) == NormalizedPath(relativePath)
  {
    var p := NormalizedPath(relativePath);
    NormalizedPathShape(relativePath);
    SlashedNoBackslash(p);
  }

  // ---------------------------------------------------------------------------
  // the global replace of `require("@functions/...")`
  // ---------------------------------------------------------------------------

  predicate IsQuote(c: char) {
    c == '"' || c == '\''
  }

  /** The first index at or after `k` holding a quote, or `|s|` when there is none. */
  function QuoteFreeEnd(s: string, k: nat): (r: nat)
    requires k <= |s|
    ensures k <= r <= |s|
    ensures forall j :: k <= j < r ==> !IsQuote(s[j])
    ensures r < |s| ==> IsQuote(s[r])
    decreases |s| - k
  {
    if k == |s| then |s| else if IsQuote(s[k]) then k else QuoteFreeEnd(s, k + 1)
  }

  /**
   * A match of `/require\(["']@functions\/([^"']+)["']\)/` starting at `i`:
   * the captured import path and the index just past the match. The
   * character class excludes both quotes, so the greedy run of non-quotes is
   * the only candidate capture.
   */
  function MatchAt(s: string, i: nat): (r: Option<(string, nat)>)
    ensures r.Some? ==> i + 23 <= r.value.1 <= |s|
    ensures r.Some? ==> |r.value.0| >= 1 && forall j :: 0 <= j < |r.value.0| ==> !IsQuote(r.value.0[j])
  {
    if i + 20 <= |s| && s[i..i + 8] == "require(" && IsQuote(s[i + 8]) && s[i + 9..i + 20] == "@functions/" then
      var e := QuoteFreeEnd(s, i + 20);
      if i + 20 < e && e + 1 < |s| && s[e + 1] == ')' then Some((s[i + 20..e], e + 2)) else None
    else None
  }

  /** `require("<path>")` for the normalised relative path of an import. */
  function Replacement(relativePath: string): string {
    "require(\"" + NormalizedPath(relativePath) + "\")"
  }

  /**
   * The text from `i` on after the global replace, and whether the callback
   * ran; `relative` gives `path.relative` from the file's directory to the
   * import's target in the output directory.
   */
  function ScanFrom(s: string, i: nat, relative: string -> string): (string, bool)
    requires i <= |s|
    decreases |s| - i
  {
    if i == |s| then ("", false)
    else
      match MatchAt(s, i)
      case Some((importPath, next)) =>
        (Replacement(relative(importPath)) + ScanFrom(s, next, relative).0, true)
      case None =>
        var rest := ScanFrom(s, i + 1, relative);
        ([s[i]] + rest.0, rest.1)
  }

  /** `content.replace(aliasRegex, callback)` with the `modified` flag the callback sets. */
  method RewriteContent(content: string, relative: string -> string) returns (out: string, modified: bool)
    ensures (out, modified) == ScanFrom(content, 0, relative)
  {
    out := "";
    modified := false;
    var i := 0;
    while i < |content|
      invariant 0 <= i <= |content|
      invariant ScanFrom(content, 0, relative).0 == out + ScanFrom(content, i, relative).0
      invariant ScanFrom(content, 0, relative).1 == (modified || ScanFrom(content, i, relative).1)
      decreases |content| - i
    {
      var m := MatchAt(content, i);
      if m.Some? {
        var relativePath := NormalizeRelativePath(relative(m.value.0));
        var replacement := "require(\"" + relativePath + "\")";
        assert out + replacement + ScanFrom(content, m.value.1, relative).0 == out + ScanFrom(content, i, relative).0;
        out := out + replacement;
        modified := true;
        i := m.value.1;
      } else {
        assert out + [content[i]] + ScanFrom(content, i + 1, relative).0 == out + ScanFrom(content, i, relative).0;
        out := out + [content[i]];
        i := i + 1;
      }
    }
    assert out + ScanFrom(content, i, relative).0 == out;
  }

  /** Whether the text holds a match of the alias pattern at some position from `i` on. */
  predicate HasAliasImportFrom(s: string, i: nat) {
    exists j :: i <= j < |s| && MatchAt(s, j).Some?
  }

  /** The callback runs exactly when the text from `i` on holds a match somewhere. */
  lemma {:induction false} ScanModified(s: string, i: nat, relative: string -> string)
    requires i <= |s|
    ensures ScanFrom(s, i, relative).1 <==> HasAliasImportFrom(s, i)
    decreases |s| - i
  {
    if i < |s| {
      if MatchAt(s, i).Some? {
        ScanModified(s, MatchAt(s, i).value.1, relative);
      } else {
        ScanModified(s, i + 1, relative);
        if j :| i <= j < |s| && MatchAt(s, j).Some? {
          assert j != i;
        }
      }
    }
  }

  /** Without a match the text is left exactly as it was. */
  lemma {:induction false} ScanUnmodified(s: string, i: nat, relative: string -> string)
    requires i <= |s|
    requires !ScanFrom(s, i, relative).1
    ensures ScanFrom(s, i, relative).0 == s[i..]
    decreases |s| - i
  {
    if i < |s| {
      if MatchAt(s, i).None? {
        ScanUnmodified(s, i + 1, relative);
        assert s[i..] == [s[i]] + s[i + 1..];
      }
    }
  }

  // ---------------------------------------------------------------------------
  // the pass over the emitted files
  // ---------------------------------------------------------------------------

  /** The `path.relative` function for imports of one file. */
  function RelativeFor(file: string, relative: (string, string) -> string): string -> string {
    importPath => relative(file, importPath)
  }

  /** Read a file and run the global replace on its text: the new text and the `modified` flag. */
  function FileRewrite(read: string -> string, relative: (string, string) -> string): string -> (string, bool) {
    file => ScanFrom(read(file), 0, RelativeFor(file, relative))
  }

  /** The files written, in listing order, with their new contents. */
  function Writes(files: seq<string>, rewrite: string -> (string, bool)): seq<(string, string)> {
    if |files| == 0 then []
    else
      var f := files[|files| - 1];
      Writes(files[..|files| - 1], rewrite) + (if rewrite(f).1 then [(f, rewrite(f).0)] else [])
  }

  /** Extending the listing by one file appends that file's write, if any. */
  lemma WritesStep(files: seq<string>, k: nat, rewrite: string -> (string, bool))
    requires k < |files|
    ensures Writes(files[..k + 1], rewrite)
         == Writes(files[..k], rewrite) + (if rewrite(files[k]).1 then [(files[k], rewrite(files[k]).0)] else [])
  {
    assert files[..k + 1][..k] == files[..k];
  }

  /** `transformAliasImports()`: rewrite each emitted file and write back only those that changed. */
  method TransformAliasImports(files: seq<string>, read: string -> string, relative: (string, string) -> string)
    returns (writes: seq<(string, string)>)
    ensures writes == Writes(files, FileRewrite(read, relative))
  {
    writes := [];
    for k := 0 to |files|
      invariant writes == Writes(files[..k], FileRewrite(read, relative))
    {
      WritesStep(files, k, FileRewrite(read, relative));
      var filePath := files[k];
      var content := read(filePath);
      var out, modified := RewriteContent(content, RelativeFor(filePath, relative));
      if modified {
        writes := writes + [(filePath, out)];
      }
    }
    assert files[..|files|] == files;
  }

  /** A file is written exactly when it is listed and its rewrite set the flag; what is written is the rewritten text. */
  lemma {:induction false} WrittenIffModified(files: seq<string>, rewrite: string -> (string, bool), f: string)
    ensures (exists k :: 0 <= k < |Writes(files, rewrite)| && Writes(files, rewrite)[k].0 == f)
        <==> f in files && rewrite(f).1
    ensures forall w :: w in Writes(files, rewrite) ==> w.1 == rewrite(w.0).0
  {
    if |files| > 0 {
      var init := files[..|files| - 1];
      var last := files[|files| - 1];
      WrittenIffModified(init, rewrite, f);
      assert files == init + [last];
      var ws := Writes(files, rewrite);
      var prev := Writes(init, rewrite);
      var tail := if rewrite(last).1 then [(last, rewrite(last).0)] else [];
      assert ws == prev + tail;
      if k :| 0 <= k < |ws| && ws[k].0 == f {
        if k < |prev| {
          assert ws[k] == prev[k];
          assert exists j :: 0 <= j < |Writes(init, rewrite)| && Writes(init, rewrite)[j].0 == f;
          assert f in init && rewrite(f).1;
        } else {
          assert ws[k] == (last, rewrite(last).0);
        }
        assert f in files && rewrite(f).1;
      }
      if f in files && rewrite(f).1 {
        if f == last {
          assert ws[|prev|].0 == f;
        } else {
          assert f in init;
          var k :| 0 <= k < |prev| && prev[k].0 == f;
          assert ws[k] == prev[k];
        }
      }
    }
  }

  /**
   * The pass writes a file exactly when it is listed and its text holds a
   * `require` of an `@functions/` path.
   */
  lemma WrittenIffMatched(files: seq<string>, read: string -> string, relative: (string, string) -> string, f: string)
    ensures (exists k :: 0 <= k < |Writes(files, FileRewrite(read, relative))| && Writes(files, FileRewrite(read, relative))[k].0 == f)
        <==> f in files && HasAliasImportFrom(read(f), 0)
  {
    var rewrite := FileRewrite(read, relative);
    WrittenIffModified(files, rewrite, f);
    ScanModified(read(f), 0, RelativeFor(f, relative));
  }

  /** What the pass writes for a file is that file's text with every alias import rewritten. */
  lemma WrittenContent(files: seq<string>, read: string -> string, relative: (string, string) -> string)
    ensures forall w :: w in Writes(files, FileRewrite(read, relative)) ==> w.1 == ScanFrom(read(w.0), 0, RelativeFor(w.0, relative)).0
  {
    WrittenIffModified(files, FileRewrite(read, relative), "");
  }

  // ---------------------------------------------------------------------------
  // the alias-resolver plugin
  // ---------------------------------------------------------------------------

  /** `s.replace(pattern, replacement)` with a string pattern: only the first occurrence is replaced. */
  function ReplaceFirst(s: string, pattern: string, replacement: string): string
    decreases |s|
  {
    if StartsWith(s, pattern) then replacement + s[|pattern|..]
    else if |s| == 0 then s
    else [s[0]] + ReplaceFirst(s[1..], pattern, replacement)
  }

  /**
   * The `onResolve` hook for imports matching `/^@functions\//`: the source
   * file it resolves to (relative to the source directory, before
   * `path.resolve`); `None` when the filter does not match.
   */
  function ResolveAlias(importSpecifier: string): Option<string> {
    if !StartsWith(importSpecifier, "@functions/") then None
    else
      var importPath := ReplaceFirst(importSpecifier, "@functions/", "");
      Some(importPath + (if EndsWith(importPath, ".js") then "" else ".js"))
  }

  /**
   * The resolver strips the `@functions/` prefix and appends `.js` exactly
   * when the rest does not already end with it.
   */
  lemma ResolveAliasPath(rest: string)
    ensures EndsWith(rest, ".js") ==> ResolveAlias("@functions/" + rest) == Some(rest)
    ensures !EndsWith(rest, ".js") ==> ResolveAlias("@functions/" + rest) == Some(rest + ".js")
  {
    var s := "@functions/" + rest;
    assert StartsWith(s, "@functions/");
    assert s[11..] == rest;
    assert "" + rest == rest && rest + "" == rest;
  }

  /** Specifiers without the alias prefix are left to esbuild. */
  lemma ResolveAliasOthers(importSpecifier: string)
    ensures ResolveAlias(importSpecifier).None? <==> !StartsWith(importSpecifier, "@functions/")
  {
  }
}
