/**
 * Index warm-up: the key files of a project in priority order (entry points,
 * public headers, other headers, implementation files), without duplicates,
 * narrowed to the files the compilation database covers, and the loop that
 * opens up to `warmup_file_limit` of them.
 *
 * Globbing, the is-a-file test, the parsed compilation database and file
 * reads are parameters.
 */
module IndexWarmup {
  import opened Wrappers
  import opened PyStr
  import Paths
  import Clangd
  import LspMethods
  import LspClient

  const EntryPatterns := ["main.cpp", "main.c", "main.cc", "src/main.cpp", "src/main.c", "app.cpp", "app.c"]
  const PublicHeaderPatterns := ["include/**/*.h", "include/**/*.hpp", "include/**/*.hxx", "inc/**/*.h", "headers/**/*.h"]
  const HeaderPatterns := ["*.h", "*.hpp", "*.hxx", "src/*.h", "src/*.hpp", "lib/*.h", "lib/*.hpp"]
  const ImplPatterns := ["*.cpp", "*.cc", "*.cxx", "*.c", "src/*.cpp", "src/*.cc", "src/*.c", "lib/*.cpp", "lib/*.cc", "lib/*.c"]
  /** Every pattern, in priority order. */
  const KeyPatterns := EntryPatterns + PublicHeaderPatterns + HeaderPatterns + ImplPatterns

  // ---------------------------------------------------------------------------
  // Candidates and their de-duplication

  /** The matches of the patterns, pattern after pattern. */
  function Candidates(patterns: seq<string>, glob: string -> seq<string>): (r: seq<string>)
  {
    if patterns == [] then []
    else Candidates(patterns[..|patterns| - 1], glob) + glob(patterns[|patterns| - 1])
  }

  /** The matches of consecutive groups of patterns come out group after group. */
  lemma {:induction false} CandidatesAppend(a: seq<string>, b: seq<string>, glob: string -> seq<string>)
    ensures Candidates(a + b, glob) == Candidates(a, glob) + Candidates(b, glob)
    decreases |b|
  {
    if b == [] {
      assert a + b == a;
    } else {
      var b' := b[..|b| - 1];
      assert (a + b)[..|a + b| - 1] == a + b';
      assert (a + b)[|a + b| - 1] == b[|b| - 1];
      CandidatesAppend(a, b', glob);
    }
  }

  /** The index of the first occurrence of `x`. */
  function Pos(xs: seq<string>, x: string): (p: nat)
    requires x in xs
    ensures p < |xs| && xs[p] == x && x !in xs[..p]
  {
    if xs[0] == x then 0
    else
      var p := Pos(xs[1..], x);
      assert xs[..p + 1] == [xs[0]] + xs[1..][..p];
      p + 1
  }

  /** Extending a list does not move the first occurrence of an element it already holds. */
  lemma {:induction false} PosExtend(xs: seq<string>, ys: seq<string>, x: string)
    requires x in xs
    ensures Pos(xs + ys, x) == Pos(xs, x)
  {
    if xs[0] != x {
      assert (xs + ys)[1..] == xs[1..] + ys;
      PosExtend(xs[1..], ys, x);
    }
  }

  /** The first occurrence of each existing file, in the order of the candidates. */
  function Unique(xs: seq<string>, isFile: string -> bool): (r: seq<string>)
  {
    if xs == [] then []
    else
      var u := Unique(xs[..|xs| - 1], isFile);
      var x := xs[|xs| - 1];
      if x !in u && isFile(x) then u + [x] else u
  }

  /** The result holds exactly the candidates that are files, each once. */
  lemma {:induction false} UniqueMembers(xs: seq<string>, isFile: string -> bool)
    ensures forall x :: x in Unique(xs, isFile) <==> x in xs && isFile(x)
    ensures forall i, j :: 0 <= i < j < |Unique(xs, isFile)| ==> Unique(xs, isFile)[i] != Unique(xs, isFile)[j]
  {
    if xs != [] {
      var init := xs[..|xs| - 1];
      UniqueMembers(init, isFile);
      assert xs == init + [xs[|xs| - 1]];
    }
  }

  /** Files come in the order of their first occurrence among the candidates. */
  lemma {:induction false} UniqueOrder(xs: seq<string>, isFile: string -> bool)
    ensures forall x :: x in Unique(xs, isFile) ==> x in xs
    ensures forall i, j :: 0 <= i < j < |Unique(xs, isFile)| ==>
      Pos(xs, Unique(xs, isFile)[i]) < Pos(xs, Unique(xs, isFile)[j])
  {
    UniqueMembers(xs, isFile);
    if xs != [] {
      var init, x := xs[..|xs| - 1], xs[|xs| - 1];
      var u, r := Unique(init, isFile), Unique(xs, isFile);
      UniqueOrder(init, isFile);
      UniqueMembers(init, isFile);
      assert xs == init + [x];
      forall y | y in u ensures Pos(xs, y) == Pos(init, y) {
        PosExtend(init, [x], y);
      }
      forall i, j | 0 <= i < j < |r| ensures Pos(xs, r[i]) < Pos(xs, r[j]) {
        assert r[i] in u;
        if j < |u| {
          assert r[i] == u[i] && r[j] == u[j];
        } else {
          assert r == u + [x] && r[j] == x && x !in init;
          assert xs[..|init|] == init;
        }
      }
    }
  }

  // ---------------------------------------------------------------------------
  // The compilation-database filter

  /** An entry of compile_commands.json: its "file" and "directory" fields. */
  datatype CompileEntry = CompileEntry(file: Option<string>, directory: Option<string>)

  /** The file an entry compiles: an absolute "file" as it is, a relative one under "directory" or else the project root. */
  function CompiledPath(e: CompileEntry, root: string): (r: string)
    ensures |e.file.GetOr("")| > 0 && e.file.GetOr("")[0] == '/' ==> r == e.file.value
  {
    var file := e.file.GetOr("");
    if |file| > 0 && file[0] == '/' then file
    else Paths.JoinPath(e.directory.GetOr(root), file)
  }

  /** The set of compiled files. */
  function CompiledFiles(entries: seq<CompileEntry>, root: string): set<string>
  {
    set k | 0 <= k < |entries| :: CompiledPath(entries[k], root)
  }

  /** The test as written: the path text starts with the compiled file's parent, even where the next character is not a '/'. */
  predicate UnderAsWritten(f: string, dir: string)
  {
    StartsWith(f, dir)
  }

  /** A path lies in the directory tree of `dir`. */
  predicate Under(f: string, dir: string)
  {
    StartsWith(f, if |dir| > 0 && dir[|dir| - 1] == '/' then dir else dir + "/")
  }

  /** A file is kept when it is compiled, or (as written) when its path starts with a compiled file's parent. */
  predicate RelevantAsWritten(f: string, compiled: set<string>)
  {
    f in compiled || exists cf :: cf in compiled && UnderAsWritten(f, Paths.Parent(cf))
  }

  /** A file is kept when it is compiled or lies in the directory tree of a compiled file. */
  predicate Relevant(f: string, compiled: set<string>)
  {
    f in compiled || exists cf :: cf in compiled && Under(f, Paths.Parent(cf))
  }

  /** The files kept, in their order. */
  function KeepRelevant(files: seq<string>, compiled: set<string>): (r: seq<string>)
    ensures |r| <= |files|
  {
    if files == [] then []
    else
      KeepRelevant(files[..|files| - 1], compiled)
      + (if Relevant(files[|files| - 1], compiled) then [files[|files| - 1]] else [])
  }

  /** Exactly the relevant files are kept. */
  lemma {:induction false} KeepRelevantMembers(files: seq<string>, compiled: set<string>)
    ensures forall f :: f in KeepRelevant(files, compiled) <==> f in files && Relevant(f, compiled)
  {
    if files != [] {
      KeepRelevantMembers(files[..|files| - 1], compiled);
      assert files == files[..|files| - 1] + [files[|files| - 1]];
    }
  }

  /** Filtering consecutive parts of a list filters part after part, so the order is kept. */
  lemma {:induction false} KeepRelevantAppend(a: seq<string>, b: seq<string>, compiled: set<string>)
    ensures KeepRelevant(a + b, compiled) == KeepRelevant(a, compiled) + KeepRelevant(b, compiled)
    decreases |b|
  {
    if b == [] {
      assert a + b == a;
    } else {
      var b' := b[..|b| - 1];
      assert (a + b)[..|a + b| - 1] == a + b';
      assert (a + b)[|a + b| - 1] == b[|b| - 1];
      KeepRelevantAppend(a, b', compiled);
    }
  }

  /** `_filter_by_compile_commands`: None stands for a database that cannot be read or parsed, which keeps every file. */
  function FilterByCompileCommands(files: seq<string>, db: Option<seq<CompileEntry>>, root: string): (r: seq<string>)
    ensures db.None? ==> r == files
  {
    match db
    case None => files
    case Some(entries) => KeepRelevant(files, CompiledFiles(entries, root))
  }

  /** A compiled file `dir/a.cpp` beside a sibling directory `dir2`: the test as written keeps `dir2/b.h`, the directory-tree test does not. */
  lemma SiblingDirectoryKept(dir: string, name: string, other: string)
    requires |dir| > 0 && dir[0] == '/' && dir[|dir| - 1] != '/'
    requires forall k :: 0 <= k < |name| ==> name[k] != '/'
    ensures var cf := dir + "/" + name;
      var f := dir + "2/" + other;
      Paths.Parent(cf) == dir && f != cf
      && RelevantAsWritten(f, {cf}) && !Relevant(f, {cf})
  {
    var cf := dir + "/" + name;
    var f := dir + "2/" + other;
    assert cf[|dir|] == '/';
    var i := Paths.LastIndexOf(cf, '/');
    assert i == |dir| by {
      forall k | |dir| < k < |cf| ensures cf[k] != '/' {
        assert cf[k] == name[k - |dir| - 1];
      }
    }
    assert cf[..i] == dir;
    assert f[..|dir|] == dir;
    assert f[|dir|] == '2' && cf[|dir|] == '/';
    assert (dir + "/")[|dir|] == '/';
  }

  /** The loop of `_filter_by_compile_commands` over the database: every entry's compiled file. */
  method CollectCompiled(entries: seq<CompileEntry>, root: string) returns (compiled: set<string>)
    ensures compiled == CompiledFiles(entries, root)
  {
    compiled := {};
    for i := 0 to |entries|
      invariant compiled == set k | 0 <= k < i :: CompiledPath(entries[k], root)
    {
      compiled := compiled + {CompiledPath(entries[i], root)};
    }
  }

  /** The loop of `_filter_by_compile_commands` over the files: each relevant one is appended. */
  method KeepFiles(files: seq<string>, compiled: set<string>) returns (relevant: seq<string>)
    ensures relevant == KeepRelevant(files, compiled)
  {
    relevant := [];
    for i := 0 to |files|
      invariant relevant == KeepRelevant(files[..i], compiled)
    {
      assert files[..i + 1][..i] == files[..i];
      if Relevant(files[i], compiled) {
        relevant := relevant + [files[i]];
      }
    }
    assert files[..|files|] == files;
  }

  /** `_filter_by_compile_commands`: the files, in order, that the database covers; all of them when it cannot be read. */
  method FilterFiles(files: seq<string>, db: Option<seq<CompileEntry>>, root: string) returns (relevant: seq<string>)
    ensures relevant == FilterByCompileCommands(files, db, root)
  {
    if db.None? {
      return files;
    }
    var compiled := CollectCompiled(db.value, root);
    relevant := KeepFiles(files, compiled);
  }

  // ---------------------------------------------------------------------------
  // find_key_files and warmup_project

  /** `find_key_files` as a value: candidates in priority order, de-duplicated, then filtered. */
  function KeyFiles(glob: string -> seq<string>, isFile: string -> bool, db: Option<seq<CompileEntry>>, root: string)
    : seq<string>
  {
    FilterByCompileCommands(Unique(Candidates(KeyPatterns, glob), isFile), db, root)
  }

  /** The key files are existing files matched by some pattern, each once, in the order their first match came. */
  lemma KeyFilesShape(glob: string -> seq<string>, isFile: string -> bool, db: Option<seq<CompileEntry>>, root: string)
    ensures var xs := Candidates(KeyPatterns, glob);
      var r := KeyFiles(glob, isFile, db, root);
      (forall x :: x in r ==> x in xs && isFile(x))
      && (forall i, j :: 0 <= i < j < |r| ==> r[i] != r[j])
  {
    var xs := Candidates(KeyPatterns, glob);
    var u := Unique(xs, isFile);
    UniqueMembers(xs, isFile);
    if db.Some? {
      var compiled := CompiledFiles(db.value, root);
      KeepRelevantMembers(u, compiled);
      KeepRelevantSubsequence(u, compiled);
    }
  }

  /** Filtering picks elements at increasing positions, so distinct elements stay distinct. */
  lemma {:induction false} KeepRelevantSubsequence(files: seq<string>, compiled: set<string>)
    requires forall i, j :: 0 <= i < j < |files| ==> files[i] != files[j]
    ensures forall i, j :: 0 <= i < j < |KeepRelevant(files, compiled)| ==>
      KeepRelevant(files, compiled)[i] != KeepRelevant(files, compiled)[j]
  {
    if files != [] {
      var init, x := files[..|files| - 1], files[|files| - 1];
      KeepRelevantSubsequence(init, compiled);
      KeepRelevantMembers(init, compiled);
      assert x !in init;
    }
  }

  /** With an unreadable database, the entry points that exist come first, in pattern order. */
  lemma EntryPointsFirst(glob: string -> seq<string>, isFile: string -> bool, root: string)
    ensures var entries := Unique(Candidates(EntryPatterns, glob), isFile);
      entries <= KeyFiles(glob, isFile, None, root)
  {
    var a := Candidates(EntryPatterns, glob);
    var b := Candidates(PublicHeaderPatterns + HeaderPatterns + ImplPatterns, glob);
    assert KeyPatterns == EntryPatterns + (PublicHeaderPatterns + HeaderPatterns + ImplPatterns);
    CandidatesAppend(EntryPatterns, PublicHeaderPatterns + HeaderPatterns + ImplPatterns, glob);
    UniquePrefix(a, b, isFile);
  }

  /** De-duplicating a longer list extends the result for its prefix. */
  lemma {:induction false} UniquePrefix(a: seq<string>, b: seq<string>, isFile: string -> bool)
    ensures Unique(a, isFile) <= Unique(a + b, isFile)
    decreases |b|
  {
    if b == [] {
      assert a + b == a;
    } else {
      var b' := b[..|b| - 1];
      assert (a + b)[..|a + b| - 1] == a + b';
      UniquePrefix(a, b', isFile);
    }
  }

  /** `find_key_files`: the pattern loop, the de-duplicating loop with its `seen` set, then the filter. */
  method FindKeyFiles(glob: string -> seq<string>, isFile: string -> bool, db: Option<seq<CompileEntry>>, root: string)
    returns (files: seq<string>)
    ensures files == KeyFiles(glob, isFile, db, root)
  {
    var keyFiles := [];
    for i := 0 to |KeyPatterns|
      invariant keyFiles == Candidates(KeyPatterns[..i], glob)
    {
      assert KeyPatterns[..i + 1][..i] == KeyPatterns[..i];
      keyFiles := keyFiles + glob(KeyPatterns[i]);
    }
    assert KeyPatterns[..|KeyPatterns|] == KeyPatterns;
    var seen: set<string> := {};
    var unique := [];
    for i := 0 to |keyFiles|
      invariant unique == Unique(keyFiles[..i], isFile)
      invariant seen == set x | x in unique
    {
      assert keyFiles[..i + 1][..i] == keyFiles[..i];
      var f := keyFiles[i];
      if f !in seen && isFile(f) {
        seen := seen + {f};
        unique := unique + [f];
      }
    }
    assert keyFiles[..|keyFiles|] == keyFiles;
    files := FilterFiles(unique, db, root);
  }

  /**
   * The document `ensure_document_open` records for a file: version 1 with its
   * language and size when the file can be read, none when it cannot.
   */
  function Readable(contents: string -> Option<string>): (doc: string -> Option<LspMethods.OpenDocument>)
    ensures forall p :: doc(p).Some? <==> contents(p).Some?
  {
    p => if contents(p).Some? then Some(LspMethods.OpenDocument(1, LspMethods.LanguageId(p), |contents(p).value|)) else None
  }

  /**
   * The documents a warm-up adds: every listed file that was not open and has
   * a document to record, with that document.
   */
  function WarmedUp<D>(files: seq<string>, open: map<string, D>, doc: string -> Option<D>): (r: map<string, D>)
    ensures forall p :: p in r <==> p in files && p !in open && doc(p).Some?
  {
    map p | p in files && p !in open && doc(p).Some? :: doc(p).value
  }

  /**
   * The open documents after `ensure_document_open` on each of `files` in
   * order: a file already open or without a document, or any file while clangd
   * is not running, leaves them as they are; any other is added.
   */
  function OpenedInOrder<D>(files: seq<string>, open: map<string, D>, doc: string -> Option<D>, live: bool): (r: map<string, D>)
    ensures open.Keys <= r.Keys && forall p :: p in open ==> r[p] == open[p]
    ensures forall p :: p in r ==> p in open || (live && p in files && doc(p).Some?)
    ensures !live ==> r == open
    decreases |files|
  {
    if files == [] then open
    else
      var f := files[|files| - 1];
      var earlier := OpenedInOrder(files[..|files| - 1], open, doc, live);
      if live && f !in earlier && doc(f).Some? then earlier[f := doc(f).value] else earlier
  }

  /**
   * How many of `files`, opened in order, `ensure_document_open` returns for:
   * those already open, and, while clangd runs, those with a document.
   */
  function Succeeded<D>(files: seq<string>, open: map<string, D>, doc: string -> Option<D>, live: bool): (r: nat)
    ensures r <= |files|
    ensures live && (forall p :: p in files ==> doc(p).Some?) ==> r == |files|
    ensures !live && (forall p :: p in files ==> p !in open) ==> r == 0
    decreases |files|
  {
    if files == [] then 0
    else
      var f := files[|files| - 1];
      Succeeded(files[..|files| - 1], open, doc, live) + if f in open || (live && doc(f).Some?) then 1 else 0
  }

  /** Opening one file more: the documents and the count move on by that file alone. */
  lemma OpenedInOrderStep<D>(files: seq<string>, i: nat, open: map<string, D>, doc: string -> Option<D>, live: bool)
    requires i < |files|
    ensures var earlier, f := OpenedInOrder(files[..i], open, doc, live), files[i];
      OpenedInOrder(files[..i + 1], open, doc, live)
        == if live && f !in earlier && doc(f).Some? then earlier[f := doc(f).value] else earlier
    ensures Succeeded(files[..i + 1], open, doc, live)
        == Succeeded(files[..i], open, doc, live) + if files[i] in open || (live && doc(files[i]).Some?) then 1 else 0
  {
    assert files[..i + 1][..i] == files[..i];
  }

  /** The warm-up's documents over one file more: that file is added when it was closed and has a document. */
  lemma WarmedUpAppend<D>(files: seq<string>, f: string, open: map<string, D>, doc: string -> Option<D>)
    ensures var earlier := WarmedUp(files, open, doc);
      WarmedUp(files + [f], open, doc) == if f !in open && doc(f).Some? then earlier[f := doc(f).value] else earlier
  {
    var w, earlier := WarmedUp(files + [f], open, doc), WarmedUp(files, open, doc);
    var expected := if f !in open && doc(f).Some? then earlier[f := doc(f).value] else earlier;
    assert w.Keys == expected.Keys;
  }

  /** While clangd runs, opening the files in order adds exactly the warm-up's documents. */
  lemma {:induction false} OpenedInOrderIsWarmedUp<D>(files: seq<string>, open: map<string, D>, doc: string -> Option<D>)
    ensures OpenedInOrder(files, open, doc, true) == open + WarmedUp(files, open, doc)
    decreases |files|
  {
    if files == [] {
      assert WarmedUp(files, open, doc).Keys == {};
    } else {
      var prefix, f := files[..|files| - 1], files[|files| - 1];
      assert files == prefix + [f];
      OpenedInOrderIsWarmedUp(prefix, open, doc);
      WarmedUpAppend(prefix, f, open, doc);
    }
  }

  /**
   * `warmup_project`: nothing when warm-up is off; otherwise the first
   * `limit` key files are opened one by one, a failure skipping only that
   * file. Returns the number of files opened without error.
   */
  method WarmupProject(documents: LspMethods.DocumentManager, warmup: bool, limit: int, keyFiles: seq<string>,
                       contents: string -> Option<string>, process: Option<Clangd.ClangdProcess>)
    returns (openedCount: nat)
    modifies documents
    ensures !warmup ==> openedCount == 0 && documents.open == old(documents.open)
    ensures openedCount <= |Take(keyFiles, limit)| && (limit >= 0 ==> openedCount <= limit)
    ensures forall p :: p in old(documents.open) ==> p in documents.open
    ensures forall p :: p in documents.open ==> p in old(documents.open) || p in Take(keyFiles, limit)
    ensures warmup && LspClient.Unavailability(process).None? ==>
      forall p :: p in Take(keyFiles, limit) && contents(p).Some? ==> p in documents.open
    ensures warmup && LspClient.Unavailability(process).None? && (forall p :: p in Take(keyFiles, limit) ==> contents(p).Some?) ==>
      openedCount == |Take(keyFiles, limit)|
    ensures warmup && LspClient.Refusal(process).None? ==>
      documents.open == old(documents.open) + WarmedUp(Take(keyFiles, limit), old(documents.open), Readable(contents))
    ensures LspClient.Refusal(process).Some? ==> documents.open == old(documents.open)
    ensures warmup ==> openedCount == Succeeded(Take(keyFiles, limit), old(documents.open), Readable(contents), LspClient.Refusal(process).None?)
  {
    if !warmup {
      return 0;
    }
    var toOpen := Take(keyFiles, limit);
    openedCount := OpenInOrder(documents, toOpen, contents, process);
    if LspClient.Refusal(process).None? {
      OpenedInOrderIsWarmedUp(toOpen, old(documents.open), Readable(contents));
    }
  }

  /**
   * The loop of `warmup_project` over the files to open: `ensure_document_open`
   * on each in order, counting the calls that return.
   */
  method OpenInOrder(documents: LspMethods.DocumentManager, files: seq<string>, contents: string -> Option<string>,
                     process: Option<Clangd.ClangdProcess>)
    returns (count: nat)
    modifies documents
    ensures documents.open == OpenedInOrder(files, old(documents.open), Readable(contents), LspClient.Refusal(process).None?)
    ensures count == Succeeded(files, old(documents.open), Readable(contents), LspClient.Refusal(process).None?)
  {
    ghost var live := LspClient.Refusal(process).None?;
    ghost var doc := Readable(contents);
    count := 0;
    for i := 0 to |files|
      invariant documents.open == OpenedInOrder(files[..i], old(documents.open), doc, live)
      invariant count == Succeeded(files[..i], old(documents.open), doc, live)
    {
      OpenedInOrderStep(files, i, old(documents.open), doc, live);
      var r := documents.EnsureOpen(files[i], contents(files[i]), process);
      if r.Ok? {
        count := count + 1;
      }
    }
    assert files[..|files|] == files;
  }
}
