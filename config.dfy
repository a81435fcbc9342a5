/**
 * The server's configuration checks: the option validators that raise on a bad
 * value, the search for the compilation database, and clangd's default
 * command line.
 *
 * File-system queries (`exists`, `is_dir`, the listing of the project root)
 * and the environment are parameters. A missing optional string and the empty
 * string are both written "", since the code only tests their truthiness.
 */
module Config {
  import opened Wrappers
  import opened PyStr
  import Paths

  const CompileDbName := "compile_commands.json"
  /** The build directories searched, in order, after the project root. */
  const BuildDirs := ["build", "Build", "cmake-build-debug", "cmake-build-release"]
  const ValidProviders := ["gemini-2.5-flash", "gemini-2.5-flash-lite"]
  const AnalysisLevels := ["summary", "detailed"]
  const ContextLevels := ["minimal", "local", "full"]
  /** Environment variables consulted for a missing API key, in order. */
  const KeyVariable := "CLANGAROO_AI_API_KEY"
  const FallbackKeyVariable := "GOOGLE_API_KEY"
  /** Flags every default clangd command line starts with. */
  const FixedClangdArgs := ["--header-insertion=never", "--clang-tidy=false", "--completion-style=detailed",
                            "--pch-storage=memory", "--log=error"]
  const BackgroundIndex := "--background-index"
  const CompileCommandsDirFlag := "--compile-commands-dir="

  // ---------------------------------------------------------------------------
  // Validators that only read

  /** `_validate_call_hierarchy_options`: the first bound that is not positive, if any. */
  function CallHierarchyError(maxDepth: int, maxCalls: int, maxPerLevel: int): (r: Option<string>)
    ensures r.None? <==> maxDepth > 0 && maxCalls > 0 && maxPerLevel > 0
    ensures maxDepth <= 0 ==> r == Some("call_hierarchy_max_depth must be positive")
    ensures maxDepth > 0 && maxCalls <= 0 ==> r == Some("call_hierarchy_max_calls must be positive")
  {
    if maxDepth <= 0 then Some("call_hierarchy_max_depth must be positive")
    else if maxCalls <= 0 then Some("call_hierarchy_max_calls must be positive")
    else if maxPerLevel <= 0 then Some("call_hierarchy_max_per_level must be positive")
    else None
  }

  /** Large bounds are accepted: a depth above 10 or more than 500 calls is only logged. */
  lemma LargeBoundsAccepted(maxDepth: int, maxCalls: int, maxPerLevel: int)
    requires maxDepth > 10 && maxCalls > 500 && maxPerLevel > 0
    ensures CallHierarchyError(maxDepth, maxCalls, maxPerLevel).None?
  {
  }

  /** What the file system says about a configured index path. */
  datatype PathKind = Absent | Directory | NotDirectory

  /** `_validate_indexing_options`: an index path that exists but is no directory, then the two positive bounds. */
  function IndexingError(indexPath: Option<PathKind>, indexTimeout: real, warmupFileLimit: int): (r: Option<string>)
    ensures r.None? <==> indexPath != Some(NotDirectory) && indexTimeout > 0.0 && warmupFileLimit > 0
    ensures indexPath == Some(NotDirectory) ==> r == Some("Index path must be a directory")
  {
    if indexPath == Some(NotDirectory) then Some("Index path must be a directory")
    else if indexTimeout <= 0.0 then Some("index_timeout must be positive")
    else if warmupFileLimit <= 0 then Some("warmup_file_limit must be positive")
    else None
  }

  // ---------------------------------------------------------------------------
  // AI options

  /** The AI fields of the configuration. */
  datatype AiOptions = AiOptions(enabled: bool, provider: string, apiKey: string, cacheDays: int, maxTokens: int,
                                 minContentLength: int, costLimitMonthly: real, analysisLevel: string,
                                 contextLevel: string)

  /** `os.getenv(KeyVariable) or os.getenv(FallbackKeyVariable)`. */
  function EnvKey(env: string -> string): string
  {
    if env(KeyVariable) != "" then env(KeyVariable) else env(FallbackKeyVariable)
  }

  /** The numeric and level options of an enabled configuration are usable. */
  predicate AiValuesValid(o: AiOptions)
  {
    o.cacheDays > 0 && o.maxTokens > 0 && o.minContentLength > 0 && o.costLimitMonthly >= 0.0
    && o.analysisLevel in AnalysisLevels && o.contextLevel in ContextLevels
  }

  /** Everything an enabled AI configuration needs, including a key. */
  predicate AiUsable(o: AiOptions)
  {
    o.provider in ValidProviders && o.apiKey != "" && AiValuesValid(o)
  }

  /** The first numeric or level option that is out of range. */
  function AiValueError(o: AiOptions): (r: Option<string>)
    ensures r.None? <==> AiValuesValid(o)
  {
    if o.cacheDays <= 0 then Some("ai_cache_days must be positive")
    else if o.maxTokens <= 0 then Some("ai_max_tokens must be positive")
    else if o.minContentLength <= 0 then Some("ai_min_content_length must be positive")
    else if o.costLimitMonthly < 0.0 then Some("ai_cost_limit_monthly must be non-negative")
    else if o.analysisLevel !in AnalysisLevels then Some("Invalid ai_analysis_level")
    else if o.contextLevel !in ContextLevels then Some("Invalid ai_context_level")
    else None
  }

  /** `_validate_ai_options` on the AI fields: the error raised, if any, and the fields afterwards. */
  function CheckAi(o: AiOptions, env: string -> string): (r: (Option<string>, AiOptions))
    ensures !o.enabled ==> r == (None, o)
    ensures o.enabled && o.provider !in ValidProviders ==> r.0.Some? && r.1 == o
    ensures o.enabled && o.provider in ValidProviders && o.apiKey == "" && EnvKey(env) == "" ==>
      r == (None, o.(enabled := false))
    ensures r.1 == o || r.1 == o.(enabled := false) || r.1 == o.(apiKey := EnvKey(env))
  {
    if !o.enabled then (None, o)
    else if o.provider !in ValidProviders then (Some("Invalid AI provider"), o)
    else
      var o' := if o.apiKey == "" then o.(apiKey := EnvKey(env)) else o;
      if o'.apiKey == "" then (None, o.(enabled := false))
      else (AiValueError(o'), o')
  }

  /** Validation that passes leaves AI either disabled or fully usable. */
  lemma {:induction false} AiCheckedUsable(o: AiOptions, env: string -> string)
    ensures var (err, o') := CheckAi(o, env); err.None? && o'.enabled ==> AiUsable(o')
  {
    var (err, o') := CheckAi(o, env);
    if err.None? && o'.enabled {
      assert o.enabled && o.provider in ValidProviders;
      assert o'.apiKey != "";
      assert AiValueError(o').None?;
    }
  }

  /** A missing key never raises: AI is switched off and every later check is skipped, whatever the other values. */
  lemma MissingKeyDisables(o: AiOptions, env: string -> string)
    requires o.enabled && o.provider in ValidProviders && o.apiKey == "" && EnvKey(env) == ""
    ensures CheckAi(o, env).0.None? && !CheckAi(o, env).1.enabled
  {
  }

  // ---------------------------------------------------------------------------
  // The compilation database

  /** The databases `_find_compile_commands` looks for in the build directories, in order. */
  function BuildCandidates(root: string, dirs: seq<string>, present: string -> bool, isDir: string -> bool)
    : (r: seq<string>)
    ensures forall k :: 0 <= k < |r| ==> exists d :: r[k] == Paths.JoinPath(d, CompileDbName)
  {
    if dirs == [] then []
    else
      var dir := Paths.JoinPath(root, dirs[0]);
      (if present(dir) && isDir(dir) then [Paths.JoinPath(dir, CompileDbName)] else [])
        + BuildCandidates(root, dirs[1..], present, isDir)
  }

  /** The databases looked for in the project root's subdirectories whose name starts with "build". */
  function EntryCandidates(root: string, entries: seq<string>, isDir: string -> bool): (r: seq<string>)
    ensures forall k :: 0 <= k < |r| ==> exists d :: r[k] == Paths.JoinPath(d, CompileDbName)
  {
    if entries == [] then []
    else
      var dir := Paths.JoinPath(root, entries[0]);
      (if isDir(dir) && StartsWith(entries[0], "build") then [Paths.JoinPath(dir, CompileDbName)] else [])
        + EntryCandidates(root, entries[1..], isDir)
  }

  /** Every place searched, in the order of the search. */
  function Candidates(root: string, entries: seq<string>, present: string -> bool, isDir: string -> bool)
    : seq<string>
  {
    [Paths.JoinPath(root, CompileDbName)] + BuildCandidates(root, BuildDirs, present, isDir) + EntryCandidates(root, entries, isDir)
  }

  /** The first candidate that exists. */
  function FirstExisting(cands: seq<string>, present: string -> bool): Option<string>
  {
    if cands == [] then None
    else if present(cands[0]) then Some(cands[0])
    else FirstExisting(cands[1..], present)
  }

  /** The search finds nothing only when no candidate exists, and otherwise the earliest one that does. */
  lemma {:induction false} FirstExistingIsFirst(cands: seq<string>, present: string -> bool)
    ensures var r := FirstExisting(cands, present);
      (r.None? <==> forall k :: 0 <= k < |cands| ==> !present(cands[k]))
      && (r.Some? ==> exists i :: 0 <= i < |cands| && cands[i] == r.value && present(r.value)
                                  && forall j :: 0 <= j < i ==> !present(cands[j]))
  {
    if cands != [] && !present(cands[0]) {
      FirstExistingIsFirst(cands[1..], present);
      var r := FirstExisting(cands, present);
      if r.Some? {
        var i :| 0 <= i < |cands[1..]| && cands[1..][i] == r.value && present(r.value)
                 && forall j :: 0 <= j < i ==> !present(cands[1..][j]);
        assert cands[i + 1] == r.value;
        assert forall j :: 0 <= j < i + 1 ==> !present(cands[j]) by {
          forall j | 0 <= j < i + 1 ensures !present(cands[j]) {
            if j > 0 {
              assert cands[j] == cands[1..][j - 1];
            }
          }
        }
      } else {
        forall k | 0 <= k < |cands| ensures !present(cands[k]) {
          if k > 0 {
            assert cands[k] == cands[1..][k - 1];
          }
        }
      }
    }
  }

  lemma {:induction false} FirstExistingAppend(a: seq<string>, b: seq<string>, present: string -> bool)
    ensures FirstExisting(a + b, present) == if FirstExisting(a, present).Some? then FirstExisting(a, present)
                                            else FirstExisting(b, present)
    decreases |a|
  {
    if a != [] {
      assert (a + b)[0] == a[0];
      assert (a + b)[1..] == a[1..] + b;
      FirstExistingAppend(a[1..], b, present);
    } else {
      assert a + b == b;
    }
  }

  /** The loop over the listed build directories: the first database found in one of them. */
  method SearchBuildDirs(root: string, dirs: seq<string>, present: string -> bool, isDir: string -> bool)
    returns (found: Option<string>)
    ensures found == FirstExisting(BuildCandidates(root, dirs, present, isDir), present)
  {
    var i := 0;
    while i < |dirs|
      invariant 0 <= i <= |dirs|
      invariant FirstExisting(BuildCandidates(root, dirs, present, isDir), present)
             == FirstExisting(BuildCandidates(root, dirs[i..], present, isDir), present)
    {
      var buildPath := Paths.JoinPath(root, dirs[i]);
      var rest := BuildCandidates(root, dirs[i + 1..], present, isDir);
      assert dirs[i..][1..] == dirs[i + 1..];
      if present(buildPath) && isDir(buildPath) {
        var candidate := Paths.JoinPath(buildPath, CompileDbName);
        FirstExistingAppend([candidate], rest, present);
        if present(candidate) {
          return Some(candidate);
        }
      } else {
        assert BuildCandidates(root, dirs[i..], present, isDir) == rest;
      }
      i := i + 1;
    }
    return None;
  }

  /** The loop over the project root's entries: the first database found in a "build*" directory. */
  method SearchEntries(root: string, entries: seq<string>, present: string -> bool, isDir: string -> bool)
    returns (found: Option<string>)
    ensures found == FirstExisting(EntryCandidates(root, entries, isDir), present)
  {
    var j := 0;
    while j < |entries|
      invariant 0 <= j <= |entries|
      invariant FirstExisting(EntryCandidates(root, entries, isDir), present)
             == FirstExisting(EntryCandidates(root, entries[j..], isDir), present)
    {
      var item := Paths.JoinPath(root, entries[j]);
      var rest := EntryCandidates(root, entries[j + 1..], isDir);
      assert entries[j..][1..] == entries[j + 1..];
      if isDir(item) && StartsWith(entries[j], "build") {
        var candidate := Paths.JoinPath(item, CompileDbName);
        FirstExistingAppend([candidate], rest, present);
        if present(candidate) {
          return Some(candidate);
        }
      } else {
        assert EntryCandidates(root, entries[j..], isDir) == rest;
      }
      j := j + 1;
    }
    return None;
  }

  /** A database in the project root wins; otherwise one in a listed build directory beats one in any other "build*" directory. */
  lemma SearchOrder(root: string, entries: seq<string>, present: string -> bool, isDir: string -> bool)
    ensures var found := FirstExisting(Candidates(root, entries, present, isDir), present);
      var builds := FirstExisting(BuildCandidates(root, BuildDirs, present, isDir), present);
      (present(Paths.JoinPath(root, CompileDbName)) ==> found == Some(Paths.JoinPath(root, CompileDbName)))
      && (!present(Paths.JoinPath(root, CompileDbName)) && builds.Some? ==> found == builds)
  {
    var first := [Paths.JoinPath(root, CompileDbName)];
    var builds := BuildCandidates(root, BuildDirs, present, isDir);
    var rest := EntryCandidates(root, entries, isDir);
    assert Candidates(root, entries, present, isDir) == first + (builds + rest);
    FirstExistingAppend(first, builds + rest, present);
    FirstExistingAppend(builds, rest, present);
  }

  /** The argument list: the fixed flags, background indexing once, then the database directory flag. */
  lemma ClangdArgsShape(dir: string)
    ensures var args := FixedClangdArgs + [BackgroundIndex] + [CompileCommandsDirFlag + dir];
      |args| == 7 && args[..5] == FixedClangdArgs && multiset(args)[BackgroundIndex] == 1
      && args[|args| - 1] == CompileCommandsDirFlag + dir
  {
    var dirFlag := CompileCommandsDirFlag + dir;
    assert dirFlag[2] == 'c' && BackgroundIndex[2] == 'b';
    assert forall k :: 0 <= k < |FixedClangdArgs| ==> FixedClangdArgs[k][2] != 'b';
    assert BackgroundIndex !in FixedClangdArgs;
    var args := FixedClangdArgs + [BackgroundIndex] + [dirFlag];
    assert multiset(args) == multiset(FixedClangdArgs) + multiset{BackgroundIndex} + multiset{dirFlag};
  }

  // ---------------------------------------------------------------------------
  // The configuration object

  /** The fields of `Config` that the checks assign. */
  class Config {
    const projectRoot: string
    var compileDbPath: Option<string>
    var ai: AiOptions

    constructor(projectRoot: string, ai: AiOptions)
      ensures this.projectRoot == projectRoot && this.ai == ai && compileDbPath == None
    {
      this.projectRoot := projectRoot;
      this.ai := ai;
      compileDbPath := None;
    }

    /** `_validate_ai_options`: raises, or fills in the key from the environment, or switches AI off. */
    method ValidateAiOptions(env: string -> string) returns (error: Option<string>)
      modifies this
      ensures (error, ai) == CheckAi(old(ai), env)
      ensures compileDbPath == old(compileDbPath)
    {
      if !ai.enabled {
        return None;
      }
      if ai.provider !in ValidProviders {
        return Some("Invalid AI provider");
      }
      if ai.apiKey == "" {
        var key := EnvKey(env);
        if key == "" {
          ai := ai.(enabled := false);
          return None;
        }
        ai := ai.(apiKey := key);
      }
      error := AiValueError(ai);
    }

    /** `_find_compile_commands`: records the first database found, or reports that there is none. */
    method FindCompileCommands(entries: seq<string>, present: string -> bool, isDir: string -> bool)
      returns (found: bool)
      modifies this
      ensures var r := FirstExisting(Candidates(projectRoot, entries, present, isDir), present);
        found == r.Some? && compileDbPath == (if r.Some? then r else old(compileDbPath))
      ensures ai == old(ai)
    {
      var db := Paths.JoinPath(projectRoot, CompileDbName);
      var builds := BuildCandidates(projectRoot, BuildDirs, present, isDir);
      var rest := EntryCandidates(projectRoot, entries, isDir);
      assert Candidates(projectRoot, entries, present, isDir) == [db] + (builds + rest);
      FirstExistingAppend([db], builds + rest, present);
      FirstExistingAppend(builds, rest, present);
      if present(db) {
        compileDbPath := Some(db);
        return true;
      }
      var inBuild := SearchBuildDirs(projectRoot, BuildDirs, present, isDir);
      if inBuild.Some? {
        compileDbPath := inBuild;
        return true;
      }
      var inEntries := SearchEntries(projectRoot, entries, present, isDir);
      if inEntries.Some? {
        compileDbPath := inEntries;
        return true;
      }
      return false;
    }

    /**
     * `_default_clangd_args`: the five fixed flags, background indexing once,
     * and the database's directory. With an index path it also points the
     * process environment's `XDG_CACHE_HOME` at the index path's parent;
     * `cacheHome` is the value written there, None when it is left alone.
     */
    method DefaultClangdArgs(indexPath: Option<string>) returns (args: seq<string>, cacheHome: Option<string>)
      requires compileDbPath.Some?
      ensures |args| == 7 && args[..5] == FixedClangdArgs
      ensures multiset(args)[BackgroundIndex] == 1
      ensures args[|args| - 1] == CompileCommandsDirFlag + Paths.Parent(compileDbPath.value)
      ensures cacheHome.Some? <==> indexPath.Some?
      ensures indexPath.Some? ==> cacheHome.value == Paths.Parent(indexPath.value)
    {
      args := FixedClangdArgs;
      if indexPath.Some? {
        cacheHome := Some(Paths.Parent(indexPath.value));
        args := args + [BackgroundIndex];
      } else {
        cacheHome := None;
        args := args + [BackgroundIndex];
      }
      ClangdArgsShape(Paths.Parent(compileDbPath.value));
      args := args + [CompileCommandsDirFlag + Paths.Parent(compileDbPath.value)];
    }
  }
}
