/**
 * `ClientSession` of the shared-backend mode: one client's request loop and
 * dispatch (with `shutdown`), its tool calls, whose time limit is twice the
 * backend's `lsp_timeout`, and its own versions of the two discovery tools:
 * a file listing that skips hidden and build directories, a conversion of
 * the language server's workspace symbols, and a pattern-based fallback
 * search.
 *
 * As for the stdio server, the outside world is passed in: `resolve` and
 * `present` for the path checks, `run` for the tool handlers under
 * `wait_for`, `rglob` for a recursive glob (relative paths), `read` for a
 * file's lines, `fnmatch` for `fnmatch.fnmatch`, and `search` for the k-th
 * symbol regex applied to a line (its first group, if it matched).
 */
module Session {
  import opened Wrappers
  import opened PyStr
  import opened Json
  import opened Mcp
  import Paths
  import Sorting
  import LspClient
  import McpServer

  /** The backend and client one request is handled with. */
  datatype SessionEnv = SessionEnv(
    resolve: string -> string,
    present: string -> bool,
    run: (string, Json, real) -> ToolOutcome,
    dumps: Json -> string,
    tools: Json,
    lspTimeout: Option<real>)

  // ---------------------------------------------------------------------------
  // Tool calls

  const DefaultLspTimeout: real := 5.0

  /** The time a tool may take: twice the backend's `lsp_timeout`. */
  function ToolTimeout(lspTimeout: Option<real>): (r: real)
    ensures lspTimeout.None? ==> r == 10.0
    ensures lspTimeout.Some? ==> r == 2.0 * lspTimeout.value
  {
    2.0 * (if lspTimeout.Some? then lspTimeout.value else DefaultLspTimeout)
  }

  /** The session's `_validate_tool_arguments`: the same rules as the server's, with its own message for a file outside the root, and the arguments left as they are. */
  function ValidateArguments(root: string, tool: Json, args: Json, env: SessionEnv): (r: Result<bool, Raised>)
    ensures r.Ok? <==> CheckArguments(tool, args).Ok?
                       && (CheckArguments(tool, args).value.Some? ==>
                             CheckFile(root, CheckArguments(tool, args).value.value, env.resolve, env.present, "File is outside project root: ").Ok?)
  {
    match CheckArguments(tool, args)
    case Err(e) => Err(e)
    case Ok(None) => Ok(true)
    case Ok(Some(file)) =>
      match CheckFile(root, file, env.resolve, env.present, "File is outside project root: ")
      case Err(e) => Err(e)
      case Ok(_) => Ok(true)
  }

  /** `_handle_tool_call` once `params` is a dict. */
  function ToolCall(initialized: bool, root: string, params: Json, id: Json, env: SessionEnv): Reply
    requires params.JObj?
  {
    var tool := GetOr(params, "name", JNull);
    var args := GetOr(params, "arguments", JObj(map[]));
    if !initialized then Reply(id, Failure(NotInitialized, "Server not initialized"))
    else
      match ValidateArguments(root, tool, args, env)
      case Err(e) => ToolReply(id, tool, Threw(e), env.dumps)
      case Ok(_) => ToolReply(id, tool, Execute(tool, args, ToolTimeout(env.lspTimeout), env.run), env.dumps)
  }

  /** After `initialize`, accepted arguments reach the tool unchanged, with twice `lsp_timeout` (10 seconds by default) to run. */
  lemma AcceptedCallRunsUnchanged(root: string, params: map<string, Json>, id: Json, env: SessionEnv)
    requires var tool := GetOr(JObj(params), "name", JNull); tool.JStr? && tool.s in KnownTools
    requires ValidateArguments(root, GetOr(JObj(params), "name", JNull), GetOr(JObj(params), "arguments", JObj(map[])), env).Ok?
    ensures var tool := GetOr(JObj(params), "name", JNull);
      ToolCall(true, root, JObj(params), id, env)
      == ToolReply(id, tool, env.run(tool.s, GetOr(JObj(params), "arguments", JObj(map[])), ToolTimeout(env.lspTimeout)), env.dumps)
    ensures env.lspTimeout.None? ==> ToolTimeout(env.lspTimeout) == 10.0
  {
  }

  /** A position tool naming a file outside the root is refused with -32602 and the session's own message. */
  lemma OutsideFileRefused(root: string, params: map<string, Json>, id: Json, env: SessionEnv)
    requires "arguments" in params && params["arguments"].JObj?
    requires var tool := GetOr(JObj(params), "name", JNull); tool != JStr(ListFilesTool) && tool != JStr(SearchTool)
    requires var fields := params["arguments"].fields;
      PositionArguments(fields)
      && env.present(env.resolve(Paths.JoinPath(root, fields["file"].s)))
      && !Within(env.resolve(Paths.JoinPath(root, fields["file"].s)), root)
    ensures ToolCall(true, root, JObj(params), id, env).outcome
            == Failure(InvalidParams, "Invalid file path: " + ("File is outside project root: " + params["arguments"].fields["file"].s))
  {
    var tool := GetOr(JObj(params), "name", JNull);
    var args := params["arguments"];
    var message := "Invalid file path: " + ("File is outside project root: " + args.fields["file"].s);
    assert ValidateArguments(root, tool, args, env) == Err(ValueError(message)) by {
      OutsideFileInvalid(root, tool, args, env);
    }
  }

  lemma OutsideFileInvalid(root: string, tool: Json, args: Json, env: SessionEnv)
    requires args.JObj? && tool != JStr(ListFilesTool) && tool != JStr(SearchTool)
    requires PositionArguments(args.fields)
      && env.present(env.resolve(Paths.JoinPath(root, args.fields["file"].s)))
      && !Within(env.resolve(Paths.JoinPath(root, args.fields["file"].s)), root)
    ensures ValidateArguments(root, tool, args, env) == Err(ValueError("Invalid file path: " + ("File is outside project root: " + args.fields["file"].s)))
  {
    var file := args.fields["file"].s;
    PositionArgumentsAccepted(tool, args.fields);
    assert CheckArguments(tool, args) == Ok(Some(file));
  }

  // ---------------------------------------------------------------------------
  // Dispatch

  /**
   * `_handle_request` with the session's two flags: the answer (or the
   * exception that escapes when the request is not a dict), whether the
   * session is initialized, and whether it is still running.
   */
  function Step(initialized: bool, running: bool, root: string, request: Json, env: SessionEnv)
    : (Result<Option<Reply>, Raised>, bool, bool)
  {
    if !request.JObj? then (Err(OtherError("AttributeError")), initialized, running)
    else
      var name := GetOr(request, "method", JStr(""));
      var params := GetOr(request, "params", JObj(map[]));
      var id := GetOr(request, "id", JNull);
      if name == JStr("shutdown") then
        (Ok(Some(Reply(id, Success(JNull)))), initialized, false)
      else if name == JStr("initialize") then
        match InitializeCheck(params)
        case Err(e) => (Ok(Crashed(id, name, e)), initialized, running)
        case Ok(_) => (Ok(Some(Reply(id, Success(InitializeResult())))), true, running)
      else if name == JStr("tools/list") then
        (Ok(Some(Reply(id, Success(JObj(map["tools" := env.tools]))))), initialized, running)
      else if name == JStr("tools/call") then
        if !params.JObj? then (Ok(Crashed(id, name, OtherError("AttributeError"))), initialized, running)
        else (Ok(Some(ToolCall(initialized, root, params, id, env))), initialized, running)
      else if name == JStr("ping") then
        (Ok(Some(Reply(id, Success(JObj(map["status" := JStr("ok")]))))), initialized, running)
      else if name == JStr("resources/list") then
        (Ok(Some(Reply(id, Success(JObj(map["resources" := JArr([])]))))), initialized, running)
      else if name == JStr("prompts/list") then
        (Ok(Some(Reply(id, Success(JObj(map["prompts" := JArr([])]))))), initialized, running)
      else
        (Ok(Unknown(id, name)), initialized, running)
  }

  /** `shutdown` is always answered, with a null result under its id even when that id is missing or falsy, and it alone stops the session. */
  lemma ShutdownAnswered(initialized: bool, running: bool, root: string, request: Json, env: SessionEnv)
    requires request.JObj?
    ensures GetOr(request, "method", JStr("")) == JStr("shutdown") ==>
      Step(initialized, running, root, request, env) == (Ok(Some(Reply(GetOr(request, "id", JNull), Success(JNull)))), initialized, false)
    ensures GetOr(request, "method", JStr("")) != JStr("shutdown") ==> Step(initialized, running, root, request, env).2 == running
  {
  }

  /** Any other method is answered -32601 exactly when the id is truthy; the flags are unchanged. */
  lemma UnknownRequestAnswer(initialized: bool, running: bool, root: string, request: Json, env: SessionEnv)
    requires request.JObj?
    requires var name := GetOr(request, "method", JStr(""));
      !(name.JStr? && name.s in McpServer.Methods + ["shutdown"])
    ensures var step := Step(initialized, running, root, request, env);
      step.0 == Ok(Unknown(GetOr(request, "id", JNull), GetOr(request, "method", JStr(""))))
      && step.1 == initialized && step.2 == running
    ensures Step(initialized, running, root, request, env).0.value.Some? <==> Truthy(GetOr(request, "id", JNull))
  {
  }

  /** Before `initialize`, a tool call with dict parameters is answered -32002 and runs nothing. */
  lemma SessionToolCallBeforeInitialize(running: bool, root: string, request: Json, env: SessionEnv, run: (string, Json, real) -> ToolOutcome)
    requires request.JObj? && GetOr(request, "method", JStr("")) == JStr("tools/call")
    requires GetOr(request, "params", JObj(map[])).JObj?
    ensures Step(false, running, root, request, env).0
            == Ok(Some(Reply(GetOr(request, "id", JNull), Failure(NotInitialized, "Server not initialized"))))
    ensures Step(false, running, root, request, env) == Step(false, running, root, request, env.(run := run))
  {
  }

  /**
   * What `run` answers to a stream of requests (None for a read that failed
   * or hit the end): it stops at the first missing or falsy request, at one
   * that is not a dict, and after `shutdown`. Also the flag `initialized`
   * at the end.
   */
  function Serve(initialized: bool, root: string, requests: seq<Option<Json>>, env: SessionEnv): (seq<Reply>, bool)
    decreases |requests|
  {
    if requests == [] || requests[0].None? || !Truthy(requests[0].value) then ([], initialized)
    else
      var (r, init, running) := Step(initialized, true, root, requests[0].value, env);
      if r.Err? then ([], initialized)
      else
        var out := if r.value.Some? then [r.value.value] else [];
        if !running then (out, init)
        else
          var (rest, last) := Serve(init, root, requests[1..], env);
          (out + rest, last)
  }

  /** Each request is answered at most once. */
  lemma {:induction false} ServeBound(initialized: bool, root: string, requests: seq<Option<Json>>, env: SessionEnv)
    ensures |Serve(initialized, root, requests, env).0| <= |requests|
    decreases |requests|
  {
    if requests != [] && requests[0].Some? && Truthy(requests[0].value) {
      var (r, init, running) := Step(initialized, true, root, requests[0].value, env);
      if r.Ok? && running {
        ServeBound(init, root, requests[1..], env);
      }
    }
  }

  /** Nothing after a `shutdown` is read or answered: whatever follows it, the session's answers are the same. */
  lemma {:induction false} NothingAfterShutdown(initialized: bool, root: string, before: seq<Option<Json>>, shutdown: Json,
                                                after1: seq<Option<Json>>, after2: seq<Option<Json>>, env: SessionEnv)
    requires shutdown.JObj? && GetOr(shutdown, "method", JStr("")) == JStr("shutdown")
    ensures Serve(initialized, root, before + [Some(shutdown)] + after1, env)
            == Serve(initialized, root, before + [Some(shutdown)] + after2, env)
    decreases |before|
  {
    var s1, s2 := before + [Some(shutdown)] + after1, before + [Some(shutdown)] + after2;
    if before == [] {
      assert s1[0] == s2[0] == Some(shutdown);
      assert Truthy(shutdown) by {
        assert "method" in shutdown.fields;
      }
    } else {
      assert s1[0] == s2[0] == before[0];
      assert s1[1..] == before[1..] + [Some(shutdown)] + after1;
      assert s2[1..] == before[1..] + [Some(shutdown)] + after2;
      if before[0].Some? && Truthy(before[0].value) {
        var (r, init, running) := Step(initialized, true, root, before[0].value, env);
        NothingAfterShutdown(init, root, before[1..], shutdown, after1, after2, env);
      }
    }
  }

  /** What the session will have answered, having answered `answered` so far: more, from the `rest` of the stream, while it is `live`. */
  ghost function Resume(root: string, answered: seq<Reply>, initialized: bool, live: bool, rest: seq<Option<Json>>, env: SessionEnv)
    : (seq<Reply>, bool)
  {
    if live then (answered + Serve(initialized, root, rest, env).0, Serve(initialized, root, rest, env).1)
    else (answered, initialized)
  }

  /** A missing or falsy request ends the session's answers. */
  lemma ResumeStops(root: string, answered: seq<Reply>, initialized: bool, requests: seq<Option<Json>>, i: nat, env: SessionEnv)
    requires i < |requests| && (requests[i].None? || !Truthy(requests[i].value))
    ensures Resume(root, answered, initialized, true, requests[i..], env) == Resume(root, answered, initialized, false, requests[i + 1..], env)
  {
    assert requests[i..][0] == requests[i];
    assert answered + [] == answered;
  }

  /** A request that is handled adds its answer, if any; one that raises ends the answers. */
  lemma ResumeAnswered(root: string, answered: seq<Reply>, before: bool, requests: seq<Option<Json>>, i: nat, env: SessionEnv,
                       r: Result<Option<Reply>, Raised>, after: bool, running: bool)
    requires i < |requests| && requests[i].Some? && Truthy(requests[i].value)
    requires (r, after, running) == Step(before, true, root, requests[i].value, env)
    ensures r.Err? ==> after == before
    ensures Resume(root, answered, before, true, requests[i..], env)
            == if r.Err? then Resume(root, answered, before, false, requests[i + 1..], env)
               else Resume(root, answered + (if r.value.Some? then [r.value.value] else []), after, running, requests[i + 1..], env)
  {
    var rest := requests[i..];
    assert rest[0] == requests[i] && rest[1..] == requests[i + 1..];
    assert answered + [] == answered;
    ServeFirst(before, root, rest, env);
    if r.Ok? && running {
      var out := if r.value.Some? then [r.value.value] else [];
      var later := Serve(after, root, requests[i + 1..], env).0;
      SeqAssoc(answered, out, later);
    }
  }


  /** The answers to a stream that starts with a request: what the first step gives, then, while the session runs, the answers to the rest. */
  lemma ServeFirst(initialized: bool, root: string, requests: seq<Option<Json>>, env: SessionEnv)
    requires requests != [] && requests[0].Some? && Truthy(requests[0].value)
    ensures var (r, init, running) := Step(initialized, true, root, requests[0].value, env);
      (r.Err? ==> init == initialized && Serve(initialized, root, requests, env) == ([], initialized))
      && (r.Ok? ==>
            var out := if r.value.Some? then [r.value.value] else [];
            Serve(initialized, root, requests, env)
            == if running then (out + Serve(init, root, requests[1..], env).0, Serve(init, root, requests[1..], env).1) else (out, init))
  {
  }

  /** The session's state: its project root, whether its loop still runs, and whether `initialize` has been handled. */
  class ClientSession {
    const root: string
    var isRunning: bool
    var initialized: bool

    constructor(root: string)
      ensures this.root == root && isRunning && !initialized
    {
      this.root := root;
      isRunning := true;
      initialized := false;
    }

    /** `_handle_request`. */
    method HandleRequest(request: Json, env: SessionEnv) returns (r: Result<Option<Reply>, Raised>)
      modifies this
      ensures (r, initialized, isRunning) == Step(old(initialized), old(isRunning), root, request, env)
    {
      if !request.JObj? {
        return Err(OtherError("AttributeError"));
      }
      var name := GetOr(request, "method", JStr(""));
      var params := GetOr(request, "params", JObj(map[]));
      var id := GetOr(request, "id", JNull);
      if name == JStr("shutdown") {
        isRunning := false;
        r := Ok(Some(Reply(id, Success(JNull))));
      } else if name == JStr("initialize") {
        var check := InitializeCheck(params);
        if check.Err? {
          return Ok(Crashed(id, name, check.error));
        }
        initialized := true;
        r := Ok(Some(Reply(id, Success(InitializeResult()))));
      } else {
        r := Step(initialized, isRunning, root, request, env).0;
      }
    }

    /** `close`: the loop stops. */
    method Close()
      modifies this
      ensures !isRunning && initialized == old(initialized)
    {
      isRunning := false;
    }

    /** `run`: read, answer and write until a read fails, a request cannot be handled, or `shutdown`; then close. */
    method Run(requests: seq<Option<Json>>, env: SessionEnv) returns (replies: seq<Reply>)
      modifies this
      ensures !isRunning
      ensures old(isRunning) ==> (replies, initialized) == Serve(old(initialized), root, requests, env)
      ensures !old(isRunning) ==> replies == [] && initialized == old(initialized)
    {
      replies := [];
      var i := 0;
      var done := false;
      assert requests[i..] == requests;
      assert [] + Serve(initialized, root, requests, env).0 == Serve(initialized, root, requests, env).0;
      while isRunning && !done && i < |requests|
        invariant 0 <= i <= |requests|
        invariant !old(isRunning) ==> !isRunning && replies == [] && initialized == old(initialized)
        invariant old(isRunning) ==>
          Serve(old(initialized), root, requests, env) == Resume(root, replies, initialized, isRunning && !done, requests[i..], env)
      {
        var request := requests[i];
        if request.None? || !Truthy(request.value) {
          ResumeStops(root, replies, initialized, requests, i, env);
          done := true;
        } else {
          ghost var before := initialized;
          var r := HandleRequest(request.value, env);
          ResumeAnswered(root, replies, before, requests, i, env, r, initialized, isRunning);
          if r.Err? {
            done := true;
          } else {
            replies := replies + if r.value.Some? then [r.value.value] else [];
          }
        }
        i := i + 1;
      }
      assert isRunning && !done ==> requests[i..] == [] && replies + [] == replies;
      Close();
    }
  }

  // ---------------------------------------------------------------------------
  // `_handle_list_files`

  /** Directory names whose files are not listed. */
  const BuildDirs: seq<string> := ["build", "cmake-build", "_build", "out"]
  /** The suffixes a custom pattern's matches must have. */
  const CppSuffixes: seq<string> := [".cpp", ".cxx", ".cc", ".c", ".hpp", ".hxx", ".h", ".hh"]

  /** A component that hides a file: a hidden name or a build directory. */
  predicate SkippedPart(part: string)
  {
    StartsWith(part, ".") || part in BuildDirs
  }

  /** Some component hides the file. */
  predicate Skipped(parts: seq<string>)
  {
    exists p :: p in parts && SkippedPart(p)
  }

  /** A path as `rglob` yields it below the root: relative, and naming something. */
  predicate RelativeFile(rel: string)
  {
    rel != "" && rel != "." && rel[0] != '/'
  }

  /** The suffix test applied to a custom pattern's matches. */
  predicate SuffixAllowed(root: string, pattern: string, rel: string)
  {
    pattern == "*" || Lower(Paths.Suffix(Paths.JoinPath(root, rel))) in CppSuffixes
  }

  /** The filter as written: it looks at every component of the absolute path, the project root's included. */
  predicate KeptAsWritten(root: string, pattern: string, rel: string)
  {
    !Skipped(Paths.Parts(Paths.JoinPath(root, rel))) && SuffixAllowed(root, pattern, rel)
  }

  /** The filter as intended: it looks at the components below the project root. */
  predicate Kept(root: string, pattern: string, rel: string)
  {
    !Skipped(Paths.Parts(rel)) && SuffixAllowed(root, pattern, rel)
  }

  /** The intended filter depends on the file alone: no hidden or build component, and for a custom pattern a C or C++ suffix. */
  lemma KeptByFileAlone(root: string, pattern: string, rel: string)
    requires RelativeFile(rel)
    ensures Kept(root, pattern, rel) <==> !Skipped(Paths.Parts(rel)) && (pattern == "*" || Lower(Paths.Suffix(rel)) in CppSuffixes)
  {
    Paths.NameOfJoin(root, rel);
  }

  /** The filter as written keeps a file exactly when the intended one does and the project root has no hidden or build component. */
  lemma KeptAsWrittenIff(root: string, pattern: string, rel: string)
    requires RelativeFile(rel)
    ensures KeptAsWritten(root, pattern, rel) <==> !Skipped(Paths.Parts(root)) && Kept(root, pattern, rel)
  {
    var joined := Paths.Parts(Paths.JoinPath(root, rel));
    Paths.PartsOfJoin(root, rel);
    assert !SkippedPart("/");
    if Skipped(joined) {
      var p :| p in joined && SkippedPart(p);
      assert p in Paths.Parts(root) || p in Paths.Parts(rel);
    }
    if Skipped(Paths.Parts(root)) {
      var p :| p in Paths.Parts(root) && SkippedPart(p);
      assert p in joined;
    }
    if Skipped(Paths.Parts(rel)) {
      var p :| p in Paths.Parts(rel) && SkippedPart(p);
      assert p in joined;
    }
  }

  /** `Kept` for one root and pattern, as a filter. */
  function KeptFilter(root: string, pattern: string): string -> bool
  {
    rel => Kept(root, pattern, rel)
  }

  /** `KeptAsWritten` for one root and pattern, as a filter. */
  function KeptAsWrittenFilter(root: string, pattern: string): string -> bool
  {
    rel => KeptAsWritten(root, pattern, rel)
  }

  /** The listing as written: the found files the filter as written keeps, sorted. */
  function SessionFilesAsWritten(root: string, pattern: string, rglob: string -> seq<string>): seq<string>
  {
    Sorting.SortBy(Filter(McpServer.Globbed(pattern, rglob), KeptAsWrittenFilter(root, pattern)), Sorting.StrKey)
  }

  /** When the project lies under a hidden or build directory, such as `~/.local/src/app` or `/work/build/app`, the listing as written is empty whatever files it holds. */
  lemma HiddenRootListsNothing(root: string, pattern: string, rglob: string -> seq<string>)
    requires Skipped(Paths.Parts(root))
    requires forall f :: f in McpServer.Globbed(pattern, rglob) ==> RelativeFile(f)
    ensures SessionFilesAsWritten(root, pattern, rglob) == []
  {
    var found := McpServer.Globbed(pattern, rglob);
    forall f | f in found ensures !KeptAsWrittenFilter(root, pattern)(f) {
      KeptAsWrittenIff(root, pattern, f);
    }
    FilterNone(found, KeptAsWrittenFilter(root, pattern));
  }

  lemma FilterNone(xs: seq<string>, keep: string -> bool)
    requires forall x :: x in xs ==> !keep(x)
    ensures Sorting.SortBy(Filter(xs, keep), Sorting.StrKey) == []
  {
    var kept := Filter(xs, keep);
    assert kept == [];
  }

  /** The session's listing: the found files the intended filter keeps, sorted, without a cap. */
  function SessionFiles(root: string, pattern: string, rglob: string -> seq<string>): seq<string>
  {
    Sorting.SortBy(Filter(McpServer.Globbed(pattern, rglob), KeptFilter(root, pattern)), Sorting.StrKey)
  }

  /** The listing is sorted, holds each kept file as often as it was found, and holds exactly the found files without a hidden or build component below the root and, for a custom pattern, with a C or C++ suffix. */
  lemma SessionFilesExact(root: string, pattern: string, rglob: string -> seq<string>)
    requires forall f :: f in McpServer.Globbed(pattern, rglob) ==> RelativeFile(f)
    ensures Sorting.SortedBy(SessionFiles(root, pattern, rglob), Sorting.StrKey)
    ensures multiset(SessionFiles(root, pattern, rglob)) == multiset(Filter(McpServer.Globbed(pattern, rglob), KeptFilter(root, pattern)))
    ensures forall f :: f in SessionFiles(root, pattern, rglob) <==>
      f in McpServer.Globbed(pattern, rglob) && !Skipped(Paths.Parts(f)) && (pattern == "*" || Lower(Paths.Suffix(f)) in CppSuffixes)
  {
    var found := McpServer.Globbed(pattern, rglob);
    var kept := Filter(found, KeptFilter(root, pattern));
    var files := SessionFiles(root, pattern, rglob);
    Sorting.SortBySorted(kept, Sorting.StrKey);
    FilterMembers(found, KeptFilter(root, pattern));
    forall f ensures f in files <==> f in found && !Skipped(Paths.Parts(f)) && (pattern == "*" || Lower(Paths.Suffix(f)) in CppSuffixes) {
      assert f in files <==> f in multiset(files);
      assert f in kept <==> f in found && Kept(root, pattern, f);
      if f in found {
        KeptByFileAlone(root, pattern, f);
      }
    }
  }

  /** The filter step of the session's `_handle_list_files`. */
  method KeepFiles(root: string, pattern: string, found: seq<string>) returns (kept: seq<string>)
    ensures kept == Filter(found, KeptFilter(root, pattern))
  {
    kept := [];
    var i := 0;
    while i < |found|
      invariant 0 <= i <= |found|
      invariant kept == Filter(found[..i], KeptFilter(root, pattern))
    {
      McpServer.FilterStep(found, i, KeptFilter(root, pattern));
      if Kept(root, pattern, found[i]) {
        kept := kept + [found[i]];
      }
      i := i + 1;
    }
    assert found[..|found|] == found;
  }

  /** The session's `_handle_list_files`: the files and `total_count`. */
  method ListFiles(root: string, pattern: string, rglob: string -> seq<string>) returns (files: seq<string>, totalCount: nat)
    ensures files == SessionFiles(root, pattern, rglob)
    ensures totalCount == |files|
  {
    var found := McpServer.GlobFiles(pattern, rglob);
    var kept := KeepFiles(root, pattern, found);
    files := Sorting.SortBy(kept, Sorting.StrKey);
    totalCount := |files|;
  }

  // ---------------------------------------------------------------------------
  // `_handle_search_symbols`: the language server's symbols

  /** A symbol as the session reports it: name, kind, file, 1-based line and column, container. */
  datatype SymbolInfo = SymbolInfo(name: Json, kind: string, file: string, line: int, column: int, container: Json)

  /** `_lsp_symbol_kind_to_string`: the name of kinds 1 to 26 (`True` counting as 1), "Unknown" for any other key; a list or dict is not a key and raises. */
  function KindName(kind: Json): Result<string, Raised>
  {
    if kind.JArr? || kind.JObj? then Err(OtherError("TypeError"))
    else if IsInt(kind) && 1 <= IntValue(kind) <= |LspClient.SymbolKindNames| then Ok(LspClient.SymbolKindNames[IntValue(kind) - 1])
    else Ok("Unknown")
  }

  /** The session names kinds 1 to 26 as the language-server client does, and never says "Unknown" for them; every other number is "Unknown", where the client writes the number out. */
  lemma KindNameAgrees(kind: Json)
    ensures KindName(kind).Err? <==> kind.JArr? || kind.JObj?
    ensures IsInt(kind) && 1 <= IntValue(kind) <= 26 ==>
      KindName(kind) == Ok(LspClient.SymbolKindName(IntValue(kind))) && KindName(kind) != Ok("Unknown")
    ensures IsInt(kind) && !(1 <= IntValue(kind) <= 26) ==>
      KindName(kind) == Ok("Unknown") && LspClient.SymbolKindName(IntValue(kind)) != "Unknown"
  {
    if IsInt(kind) {
      var k := IntValue(kind);
      if 1 <= k <= 26 {
        LspClient.KnownNameNotUnknown(k);
        assert "Unknown"[0] == 'U';
      } else {
        var name := LspClient.SymbolKindName(k);
        assert name[..8] == "Unknown(";
        assert |name| > 7;
      }
    }
  }

  /** `value + 1` for a line or character number: only an integer (or a boolean) can be incremented. */
  function PlusOne(v: Json): Result<int, Raised>
  {
    if IsInt(v) then Ok(IntValue(v) + 1) else Err(OtherError("TypeError"))
  }

  /** The file a symbol's location names: raises when the symbol, its location or its uri has the wrong type; None for a uri that is not a `file://` one. */
  function SymbolFile(symbol: Json): (r: Result<Option<string>, Raised>)
    ensures r.Ok? ==> symbol.JObj? && GetOr(symbol, "location", JObj(map[])).JObj?
    ensures r.Ok? && r.value.Some? ==> GetOr(GetOr(symbol, "location", JObj(map[])), "uri", JStr("")) == JStr("file://" + r.value.value)
  {
    match DictGet(symbol, "location", JObj(map[]))
    case Err(e) => Err(e)
    case Ok(location) =>
      match DictGet(location, "uri", JStr(""))
      case Err(e) => Err(e)
      case Ok(uri) =>
        if !uri.JStr? then Err(OtherError("AttributeError"))
        else if StartsWith(uri.s, "file://") then
          assert uri.s == "file://" + uri.s[7..];
          Ok(Some(uri.s[7..]))
        else Ok(None)
  }

  /** `location.get('range', {}).get('start', {}).get(key, 0) + 1`. */
  function StartField(location: Json, key: string): Result<int, Raised>
    requires location.JObj?
  {
    match DictGet(GetOr(location, "range", JObj(map[])), "start", JObj(map[]))
    case Err(e) => Err(e)
    case Ok(start) =>
      match DictGet(start, key, JInt(0))
      case Err(e) => Err(e)
      case Ok(v) => PlusOne(v)
  }

  /** The entry appended for a symbol in `file`. */
  function SymbolEntry(symbol: Json, file: string): Result<SymbolInfo, Raised>
    requires symbol.JObj? && GetOr(symbol, "location", JObj(map[])).JObj?
  {
    var location := GetOr(symbol, "location", JObj(map[]));
    match KindName(GetOr(symbol, "kind", JInt(0)))
    case Err(e) => Err(e)
    case Ok(kind) =>
      match StartField(location, "line")
      case Err(e) => Err(e)
      case Ok(line) =>
        match StartField(location, "character")
        case Err(e) => Err(e)
        case Ok(column) =>
          Ok(SymbolInfo(GetOr(symbol, "name", JStr("")), kind, file, line, column, GetOr(symbol, "containerName", JStr(""))))
  }

  /**
   * One turn of the conversion loop: the entry, None for a symbol that is
   * skipped (no `file://` uri, or a file the custom pattern does not match),
   * or what it raises. With a custom pattern a file outside the root makes
   * `relative_to` raise; `skipOutside` skips such a file instead.
   */
  function ConvertSymbol(symbol: Json, pattern: string, root: string, fnmatch: (string, string) -> bool, skipOutside: bool)
    : Result<Option<SymbolInfo>, Raised>
  {
    match SymbolFile(symbol)
    case Err(e) => Err(e)
    case Ok(None) => Ok(None)
    case Ok(Some(file)) =>
      if pattern != "*" && !Within(file, root) then
        if skipOutside then Ok(None) else Err(ValueError("not in the subpath of the project root"))
      else if pattern != "*" && !fnmatch(McpServer.Relative(file, root), pattern) then Ok(None)
      else
        match SymbolEntry(symbol, file)
        case Err(e) => Err(e)
        case Ok(info) => Ok(Some(info))
  }

  /**
   * An entry comes from a `file://` uri, within the root and matching a
   * custom pattern, with the symbol's name and container, its kind's name
   * and its 0-based start position plus one; a file outside the root under a
   * custom pattern raises as written and is skipped as intended.
   */
  lemma ConvertSymbolSound(symbol: Json, pattern: string, root: string, fnmatch: (string, string) -> bool, skipOutside: bool)
    ensures var r := ConvertSymbol(symbol, pattern, root, fnmatch, skipOutside);
      r.Ok? && r.value.Some? ==>
        SymbolFile(symbol) == Ok(Some(r.value.value.file))
        && (pattern != "*" ==> Within(r.value.value.file, root) && fnmatch(McpServer.Relative(r.value.value.file, root), pattern))
    ensures var r := ConvertSymbol(symbol, pattern, root, fnmatch, skipOutside);
      r.Ok? && r.value.Some? ==>
        var location := GetOr(symbol, "location", JObj(map[]));
        r.value.value.name == GetOr(symbol, "name", JStr("")) && r.value.value.container == GetOr(symbol, "containerName", JStr(""))
        && KindName(GetOr(symbol, "kind", JInt(0))) == Ok(r.value.value.kind)
        && StartField(location, "line") == Ok(r.value.value.line) && StartField(location, "character") == Ok(r.value.value.column)
    ensures SymbolFile(symbol).Ok? && SymbolFile(symbol).value.Some? && pattern != "*" && !Within(SymbolFile(symbol).value.value, root) ==>
      ConvertSymbol(symbol, pattern, root, fnmatch, skipOutside) == if skipOutside then Ok(None) else Err(ValueError("not in the subpath of the project root"))
  {
  }

  /** What each symbol's turn of the loop gives, in order. */
  function Outcomes(items: seq<Json>, pattern: string, root: string, fnmatch: (string, string) -> bool, skipOutside: bool)
    : (r: seq<Result<Option<SymbolInfo>, Raised>>)
    ensures |r| == |items|
    ensures forall k :: 0 <= k < |items| ==> r[k] == ConvertSymbol(items[k], pattern, root, fnmatch, skipOutside)
  {
    seq(|items|, k requires 0 <= k < |items| => ConvertSymbol(items[k], pattern, root, fnmatch, skipOutside))
  }

  /** The values of the first `n` turns of a loop that ends at the first turn that raises, keeping what came before; and whether one raised. */
  function Gather<T>(outcomes: seq<Result<Option<T>, Raised>>, n: nat): (seq<T>, bool)
    requires n <= |outcomes|
  {
    if n == 0 then ([], false)
    else
      var (done, failed) := Gather(outcomes, n - 1);
      if failed then (done, true)
      else
        match outcomes[n - 1]
        case Err(_) => (done, true)
        case Ok(None) => (done, false)
        case Ok(Some(x)) => (done + [x], false)
  }

  /** The conversion loop as written: a symbol outside the root under a custom pattern ends it. */
  function ConvertAsWritten(items: seq<Json>, pattern: string, root: string, fnmatch: (string, string) -> bool): seq<SymbolInfo>
  {
    Gather(Outcomes(items, pattern, root, fnmatch, false), |items|).0
  }

  /** The conversion loop as intended: a symbol outside the root is skipped, as the stdio server does. */
  function Converted(items: seq<Json>, pattern: string, root: string, fnmatch: (string, string) -> bool): seq<SymbolInfo>
  {
    Gather(Outcomes(items, pattern, root, fnmatch, true), |items|).0
  }

  /** Each value gathered comes from one of the turns. */
  lemma {:induction false} GatherFrom<T>(outcomes: seq<Result<Option<T>, Raised>>, n: nat, x: T)
    requires n <= |outcomes| && x in Gather(outcomes, n).0
    ensures exists k :: 0 <= k < n && outcomes[k] == Ok(Some(x))
  {
    var (done, failed) := Gather(outcomes, n - 1);
    if x in done {
      GatherFrom(outcomes, n - 1, x);
    }
  }

  /** Once a turn has raised, the later ones change nothing. */
  lemma {:induction false} GatherStopped<T>(outcomes: seq<Result<Option<T>, Raised>>, a: nat, b: nat)
    requires a <= b <= |outcomes| && Gather(outcomes, a).1
    ensures Gather(outcomes, b) == Gather(outcomes, a)
    decreases b
  {
    if a < b {
      GatherStopped(outcomes, a, b - 1);
    }
  }

  lemma GatherNext<T>(outcomes: seq<Result<Option<T>, Raised>>, i: nat, done: seq<T>)
    requires i < |outcomes| && Gather(outcomes, i) == (done, false)
    ensures Gather(outcomes, i + 1) == match outcomes[i]
                                       case Err(_) => (done, true)
                                       case Ok(None) => (done, false)
                                       case Ok(Some(x)) => (done + [x], false)
  {
  }

  /** Two loops whose turns agree except where the first raises and the second skips: the first stops with a prefix of what the second gathers, or both agree. */
  lemma {:induction false} GatherSkipInstead<T>(first: seq<Result<Option<T>, Raised>>, second: seq<Result<Option<T>, Raised>>, n: nat)
    requires n <= |first| == |second|
    requires forall k :: 0 <= k < n ==> first[k] == second[k] || (first[k].Err? && second[k] == Ok(None))
    ensures Gather(first, n) == Gather(second, n) || (Gather(first, n).1 && Gather(first, n).0 <= Gather(second, n).0)
  {
    if n > 0 {
      GatherSkipInstead(first, second, n - 1);
      var a, b := Gather(first, n - 1), Gather(second, n - 1);
      if a != b && !b.1 && second[n - 1].Ok? && second[n - 1].value.Some? {
        assert b.0 <= b.0 + [second[n - 1].value.value];
      }
    }
  }

  /** Loops whose first `n` turns agree gather the same. */
  lemma {:induction false} GatherSame<T>(first: seq<Result<Option<T>, Raised>>, second: seq<Result<Option<T>, Raised>>, n: nat)
    requires n <= |first| && n <= |second| && first[..n] == second[..n]
    ensures Gather(first, n) == Gather(second, n)
  {
    if n > 0 {
      assert first[n - 1] == first[..n][n - 1];
      GatherSame(first, second, n - 1);
    }
  }

  /** The two versions of one turn differ only for a file outside the root, which raises as written and is skipped as intended. */
  lemma SkipInsteadOfRaise(symbol: Json, pattern: string, root: string, fnmatch: (string, string) -> bool)
    ensures var written, fixed := ConvertSymbol(symbol, pattern, root, fnmatch, false), ConvertSymbol(symbol, pattern, root, fnmatch, true);
      written == fixed || (written.Err? && fixed == Ok(None))
    ensures !(SymbolFile(symbol).Ok? && SymbolFile(symbol).value.Some? && pattern != "*" && !Within(SymbolFile(symbol).value.value, root)) ==>
      ConvertSymbol(symbol, pattern, root, fnmatch, false) == ConvertSymbol(symbol, pattern, root, fnmatch, true)
  {
  }

  /** Every entry, as intended, is the conversion of one of the symbols. */
  lemma ConvertedFrom(items: seq<Json>, pattern: string, root: string, fnmatch: (string, string) -> bool, info: SymbolInfo)
    requires info in Converted(items, pattern, root, fnmatch)
    ensures exists k :: 0 <= k < |items| && ConvertSymbol(items[k], pattern, root, fnmatch, true) == Ok(Some(info))
  {
    GatherFrom(Outcomes(items, pattern, root, fnmatch, true), |items|, info);
  }

  /** The loop as written gives a prefix of the intended entries, all of them with "*" as the pattern or when no symbol's file lies outside the root. */
  lemma AsWrittenPrefix(items: seq<Json>, pattern: string, root: string, fnmatch: (string, string) -> bool)
    ensures ConvertAsWritten(items, pattern, root, fnmatch) <= Converted(items, pattern, root, fnmatch)
    ensures (pattern == "*" || forall k :: 0 <= k < |items| ==>
               !(SymbolFile(items[k]).Ok? && SymbolFile(items[k]).value.Some? && !Within(SymbolFile(items[k]).value.value, root)))
            ==> ConvertAsWritten(items, pattern, root, fnmatch) == Converted(items, pattern, root, fnmatch)
  {
    var written, fixed := Outcomes(items, pattern, root, fnmatch, false), Outcomes(items, pattern, root, fnmatch, true);
    forall k | 0 <= k < |items| ensures written[k] == fixed[k] || (written[k].Err? && fixed[k] == Ok(None)) {
      SkipInsteadOfRaise(items[k], pattern, root, fnmatch);
    }
    GatherSkipInstead(written, fixed, |items|);
    if pattern == "*" || forall k :: 0 <= k < |items| ==>
         !(SymbolFile(items[k]).Ok? && SymbolFile(items[k]).value.Some? && !Within(SymbolFile(items[k]).value.value, root)) {
      forall k | 0 <= k < |items| ensures written[k] == fixed[k] {
        SkipInsteadOfRaise(items[k], pattern, root, fnmatch);
      }
      assert written[..|items|] == fixed[..|items|];
      GatherSame(written, fixed, |items|);
    }
  }

  /** A symbol outside the root under a custom pattern, then one the intended loop keeps: the loop as written returns nothing, so the search falls back to the text patterns although the server found a symbol. */
  lemma OutsideSymbolHidesLaterOnes(outside: Json, inside: Json, pattern: string, root: string, fnmatch: (string, string) -> bool)
    requires pattern != "*"
    requires SymbolFile(outside).Ok? && SymbolFile(outside).value.Some? && !Within(SymbolFile(outside).value.value, root)
    requires ConvertSymbol(inside, pattern, root, fnmatch, true).Ok? && ConvertSymbol(inside, pattern, root, fnmatch, true).value.Some?
    ensures ConvertAsWritten([outside, inside], pattern, root, fnmatch) == []
    ensures Converted([outside, inside], pattern, root, fnmatch) == [ConvertSymbol(inside, pattern, root, fnmatch, true).value.value]
  {
    var written, fixed := Outcomes([outside, inside], pattern, root, fnmatch, false), Outcomes([outside, inside], pattern, root, fnmatch, true);
    assert written[0].Err? && fixed[0] == Ok(None);
    assert Gather(written, 1) == ([], true);
    assert Gather(fixed, 1) == ([], false);
  }

  /** The session's conversion loop: each symbol in turn, leaving the loop at the first one that raises. */
  method ConvertSymbols(items: seq<Json>, pattern: string, root: string, fnmatch: (string, string) -> bool)
    returns (symbols: seq<SymbolInfo>)
    ensures symbols == Converted(items, pattern, root, fnmatch)
  {
    ghost var outcomes := Outcomes(items, pattern, root, fnmatch, true);
    symbols := [];
    var i := 0;
    var failed := false;
    while i < |items| && !failed
      invariant 0 <= i <= |items|
      invariant Gather(outcomes, i) == (symbols, failed)
    {
      var converted := ConvertSymbol(items[i], pattern, root, fnmatch, true);
      GatherNext(outcomes, i, symbols);
      match converted {
        case Err(_) => failed := true;
        case Ok(None) =>
        case Ok(Some(info)) => symbols := symbols + [info];
      }
      i := i + 1;
    }
    if failed {
      GatherStopped(outcomes, i, |items|);
    }
  }

  /** The symbols from the language server's answer: none when the request raised or the answer is falsy or not a list (iterating it raises at once). */
  function ServerSymbols(lsp: Result<Json, Raised>, pattern: string, root: string, fnmatch: (string, string) -> bool): seq<SymbolInfo>
  {
    if lsp.Ok? && lsp.value.JArr? then Converted(lsp.value.items, pattern, root, fnmatch) else []
  }

  // ---------------------------------------------------------------------------
  // `_fallback_symbol_search`

  /**
   * The kinds of the twelve symbol patterns, in the order they are tried:
   * class, struct, enum class and enum definitions, function definitions
   * (plain and const), method declarations (plain and const), constants,
   * static variables, typedefs and type aliases.
   */
  const PatternKinds: seq<string> := ["class", "struct", "enum class", "enum", "function", "function", "method", "method",
                                      "constant", "static variable", "typedef", "type alias"]

  /** Files read by the fallback, at most. */
  const MaxFallbackFiles := 100

  /** The k-th pattern matches `line` and its group holds the query, ignoring case. `search(k, line)` is the group the k-th pattern captures in its first match on the line, if any. */
  predicate NameHit(search: (nat, string) -> Option<string>, line: string, query: string, k: nat)
  {
    search(k, line).Some? && Contains(Lower(search(k, line).value), Lower(query))
  }

  /** The first pattern from the k-th on whose group holds the query: the name it captured and its index. */
  function PatternHit(search: (nat, string) -> Option<string>, line: string, query: string, k: nat): (r: Option<(string, nat)>)
    requires k <= |PatternKinds|
    ensures r.Some? ==> k <= r.value.1 < |PatternKinds| && NameHit(search, line, query, r.value.1)
                        && search(r.value.1, line) == Some(r.value.0)
    ensures r.Some? ==> forall j :: k <= j < r.value.1 ==> !NameHit(search, line, query, j)
    ensures r.None? ==> forall j :: k <= j < |PatternKinds| ==> !NameHit(search, line, query, j)
    decreases |PatternKinds| - k
  {
    if k == |PatternKinds| then None
    else if NameHit(search, line, query, k) then Some((search(k, line).value, k))
    else PatternHit(search, line, query, k + 1)
  }

  /** The entry for a line's pattern hit, if any: the captured name, the pattern's kind, and the column where the name first occurs in the line. */
  function Entry(hit: Option<(string, nat)>, file: string, line: string, number: nat): seq<SymbolInfo>
    requires hit.Some? ==> hit.value.1 < |PatternKinds|
  {
    match hit
    case None => []
    case Some((name, k)) => [SymbolInfo(JStr(name), PatternKinds[k], file, number, Find(line, name) + 1, JStr(""))]
  }

  /** The symbol a line gives, given its 1-based number: none unless it mentions the query and some pattern's group holds it; the first such pattern names the kind. */
  function LineSymbol(query: string, file: string, search: (nat, string) -> Option<string>, line: string, number: nat): seq<SymbolInfo>
  {
    Entry(if Mentions(line, query) then PatternHit(search, line, query, 0) else None, file, line, number)
  }

  /** `LineSymbol` for one file, as the collector's step. */
  function LineHit(query: string, file: string, search: (nat, string) -> Option<string>): (string, nat) -> seq<SymbolInfo>
  {
    (line: string, number: nat) => LineSymbol(query, file, search, line, number)
  }

  /** `query.lower() in line.lower()`. */
  predicate Mentions(line: string, query: string)
  {
    McpServer.Mentions(line, query)
  }

  /** The symbols in one listed file, in line order; a file that cannot be read gives none. */
  function FileSymbols(query: string, root: string, rel: string, read: string -> Option<seq<string>>,
                       search: (nat, string) -> Option<string>): seq<SymbolInfo>
  {
    var full := Paths.JoinPath(root, rel);
    match read(full)
    case None => []
    case Some(lines) => McpServer.Collect(lines, |lines|, LineHit(query, full, search))
  }

  /** The symbols of each file in turn. */
  function FilesHit(query: string, root: string, read: string -> Option<seq<string>>,
                    search: (nat, string) -> Option<string>): (string, nat) -> seq<SymbolInfo>
  {
    (rel: string, number: nat) => FileSymbols(query, root, rel, read, search)
  }

  /** The fallback: the symbols of the first 100 listed files, without a cap. */
  function FallbackSymbols(query: string, root: string, listed: seq<string>, read: string -> Option<seq<string>>,
                           search: (nat, string) -> Option<string>): seq<SymbolInfo>
  {
    var files := Take(listed, MaxFallbackFiles);
    McpServer.Collect(files, |files|, FilesHit(query, root, read, search))
  }

  lemma LineHitValue(query: string, file: string, search: (nat, string) -> Option<string>, line: string, number: nat)
    ensures LineHit(query, file, search)(line, number) == LineSymbol(query, file, search, line, number)
  {
  }

  /** A line's symbol names the query (ignoring case), a line that mentions it, the first pattern whose group holds it and that pattern's kind, and the column where the name first occurs. */
  lemma LineSymbolSound(query: string, file: string, search: (nat, string) -> Option<string>, line: string, number: nat, info: SymbolInfo)
    requires info in LineSymbol(query, file, search, line, number)
    ensures Mentions(line, query) && info.name.JStr? && Contains(Lower(info.name.s), Lower(query))
    ensures exists k :: 0 <= k < |PatternKinds| && search(k, line) == Some(info.name.s) && info.kind == PatternKinds[k]
                        && forall j :: 0 <= j < k ==> !NameHit(search, line, query, j)
    ensures info.file == file && info.line == number && info.column == Find(line, info.name.s) + 1 && info.container == JStr("")
  {
    var hit := PatternHit(search, line, query, 0);
    assert hit.Some?;
    var k := hit.value.1;
    assert info == SymbolInfo(JStr(hit.value.0), PatternKinds[k], file, number, Find(line, hit.value.0) + 1, JStr(""));
  }

  /** A line that mentions the query and that some pattern's group holds it in gives exactly one symbol; any other line gives none. */
  lemma LineSymbolComplete(query: string, file: string, search: (nat, string) -> Option<string>, line: string, number: nat)
    ensures |LineSymbol(query, file, search, line, number)| <= 1
    ensures |LineSymbol(query, file, search, line, number)| == 1 <==>
      Mentions(line, query) && exists k :: 0 <= k < |PatternKinds| && NameHit(search, line, query, k)
  {
    if Mentions(line, query) && exists k :: 0 <= k < |PatternKinds| && NameHit(search, line, query, k) {
      var k :| 0 <= k < |PatternKinds| && NameHit(search, line, query, k);
      assert PatternHit(search, line, query, 0).Some?;
    }
  }

  /** A collector whose every step gives at most one value gives at most one per item. */
  lemma {:induction false} CollectAtMostOne<T>(items: seq<string>, n: nat, hit: (string, nat) -> seq<T>)
    requires n <= |items|
    requires forall k :: 0 <= k < n ==> |hit(items[k], k + 1)| <= 1
    ensures |McpServer.Collect(items, n, hit)| <= n
  {
    if n > 0 {
      CollectAtMostOne(items, n - 1, hit);
    }
  }

  /** A readable file gives at most one symbol per line. */
  lemma FileSymbolsBound(query: string, root: string, rel: string, read: string -> Option<seq<string>>,
                         search: (nat, string) -> Option<string>)
    ensures read(Paths.JoinPath(root, rel)).None? ==> FileSymbols(query, root, rel, read, search) == []
    ensures read(Paths.JoinPath(root, rel)).Some? ==>
      |FileSymbols(query, root, rel, read, search)| <= |read(Paths.JoinPath(root, rel)).value|
  {
    var full := Paths.JoinPath(root, rel);
    if read(full).Some? {
      var lines := read(full).value;
      var hit := LineHit(query, full, search);
      forall k | 0 <= k < |lines| ensures |hit(lines[k], k + 1)| <= 1 {
        LineHitValue(query, full, search, lines[k], k + 1);
        LineSymbolComplete(query, full, search, lines[k], k + 1);
      }
      CollectAtMostOne(lines, |lines|, hit);
    }
  }

  /** The symbols of a readable file are exactly those its lines give, each with its 1-based number (`LineHitValue`: what `LineSymbol` gives). */
  lemma FileSymbolsExact(query: string, root: string, rel: string, read: string -> Option<seq<string>>,
                         search: (nat, string) -> Option<string>, info: SymbolInfo)
    requires read(Paths.JoinPath(root, rel)).Some?
    ensures var lines := read(Paths.JoinPath(root, rel)).value;
      info in FileSymbols(query, root, rel, read, search) <==>
        exists k :: 0 <= k < |lines| && info in LineHit(query, Paths.JoinPath(root, rel), search)(lines[k], k + 1)
  {
    var full := Paths.JoinPath(root, rel);
    var lines := read(full).value;
    var hit := LineHit(query, full, search);
    if info in FileSymbols(query, root, rel, read, search) {
      McpServer.CollectFrom(lines, |lines|, hit, info);
    }
    if exists k :: 0 <= k < |lines| && info in hit(lines[k], k + 1) {
      var k :| 0 <= k < |lines| && info in hit(lines[k], k + 1);
      McpServer.CollectHasItem(lines, |lines|, hit, k, info);
    }
  }

  /** The fallback reads at most the first 100 listed files: every symbol comes from one of them, and files after the hundredth change nothing. */
  lemma FallbackFiles(query: string, root: string, listed: seq<string>, read: string -> Option<seq<string>>,
                      search: (nat, string) -> Option<string>, info: SymbolInfo, more: seq<string>)
    ensures info in FallbackSymbols(query, root, listed, read, search) ==>
      exists k :: 0 <= k < MaxFallbackFiles && k < |listed| && info in FileSymbols(query, root, listed[k], read, search)
    ensures |listed| >= MaxFallbackFiles ==>
      FallbackSymbols(query, root, listed + more, read, search) == FallbackSymbols(query, root, listed, read, search)
  {
    var files := Take(listed, MaxFallbackFiles);
    var hit := FilesHit(query, root, read, search);
    if info in FallbackSymbols(query, root, listed, read, search) {
      McpServer.CollectFrom(files, |files|, hit, info);
      var k :| 0 <= k < |files| && info in hit(files[k], k + 1);
      assert files[k] == listed[k];
    }
    if |listed| >= MaxFallbackFiles {
      assert Take(listed + more, MaxFallbackFiles) == files;
    }
  }

  /** The inner loop over the patterns: the first whose group holds the query ends it. */
  method MatchLine(search: (nat, string) -> Option<string>, line: string, query: string) returns (hit: Option<(string, nat)>)
    ensures hit == PatternHit(search, line, query, 0)
  {
    var k := 0;
    while k < |PatternKinds|
      invariant 0 <= k <= |PatternKinds|
      invariant PatternHit(search, line, query, 0) == PatternHit(search, line, query, k)
    {
      var name := search(k, line);
      if name.Some? && Contains(Lower(name.value), Lower(query)) {
        return Some((name.value, k));
      }
      k := k + 1;
    }
    return None;
  }

  /** One line of the loop over a file: the pattern search runs only on a line that mentions the query. */
  method ScanLine(query: string, file: string, line: string, number: nat, search: (nat, string) -> Option<string>)
    returns (entry: seq<SymbolInfo>)
    ensures entry == LineSymbol(query, file, search, line, number)
  {
    var hit := None;
    if Mentions(line, query) {
      hit := MatchLine(search, line, query);
    }
    entry := Entry(hit, file, line, number);
  }

  /** The loop over one file's lines. */
  method ScanFile(query: string, file: string, lines: seq<string>, search: (nat, string) -> Option<string>)
    returns (found: seq<SymbolInfo>)
    ensures found == McpServer.Collect(lines, |lines|, LineHit(query, file, search))
  {
    found := [];
    var j := 0;
    while j < |lines|
      invariant 0 <= j <= |lines|
      invariant found == McpServer.Collect(lines, j, LineHit(query, file, search))
    {
      var entry := ScanLine(query, file, lines[j], j + 1, search);
      ScanStep(query, file, search, lines, j);
      found := found + entry;
      j := j + 1;
    }
  }

  lemma ScanStep(query: string, file: string, search: (nat, string) -> Option<string>, lines: seq<string>, j: nat)
    requires j < |lines|
    ensures McpServer.Collect(lines, j + 1, LineHit(query, file, search))
            == McpServer.Collect(lines, j, LineHit(query, file, search)) + LineSymbol(query, file, search, lines[j], j + 1)
  {
    LineHitValue(query, file, search, lines[j], j + 1);
  }

  /** `_fallback_symbol_search` over the listed files: each of the first 100 that can be read, line by line. */
  method FallbackSearch(query: string, root: string, listed: seq<string>, read: string -> Option<seq<string>>,
                        search: (nat, string) -> Option<string>) returns (symbols: seq<SymbolInfo>)
    ensures symbols == FallbackSymbols(query, root, listed, read, search)
  {
    var files := Take(listed, MaxFallbackFiles);
    symbols := [];
    var i := 0;
    while i < |files|
      invariant 0 <= i <= |files|
      invariant symbols == McpServer.Collect(files, i, FilesHit(query, root, read, search))
    {
      var full := Paths.JoinPath(root, files[i]);
      var content := read(full);
      var found := [];
      if content.Some? {
        found := ScanFile(query, full, content.value, search);
      }
      assert found == FilesHit(query, root, read, search)(files[i], i + 1);
      symbols := symbols + found;
      i := i + 1;
    }
  }

  // ---------------------------------------------------------------------------
  // `_handle_search_symbols`

  /** The search as intended: the server's symbols, or when there are none, the fallback over the session's listing for the pattern. */
  function SessionSearch(query: string, pattern: string, root: string, lsp: Result<Json, Raised>, fnmatch: (string, string) -> bool,
                         rglob: string -> seq<string>, read: string -> Option<seq<string>>,
                         search: (nat, string) -> Option<string>): seq<SymbolInfo>
  {
    var server := ServerSymbols(lsp, pattern, root, fnmatch);
    if server != [] then server else FallbackSymbols(query, root, SessionFiles(root, pattern, rglob), read, search)
  }

  /** The search as written, whose conversion stops at a symbol outside the root. */
  function SessionSearchAsWritten(query: string, pattern: string, root: string, lsp: Result<Json, Raised>, fnmatch: (string, string) -> bool,
                                  rglob: string -> seq<string>, read: string -> Option<seq<string>>,
                                  search: (nat, string) -> Option<string>): seq<SymbolInfo>
  {
    var server := if lsp.Ok? && lsp.value.JArr? then ConvertAsWritten(lsp.value.items, pattern, root, fnmatch) else [];
    if server != [] then server else FallbackSymbols(query, root, SessionFiles(root, pattern, rglob), read, search)
  }

  /** The server's symbols answer whenever there is one; only without any, because the request raised, the answer was not a non-empty list, or no symbol was kept, does the fallback run, and then every symbol names a line of one of the first 100 listed files. */
  lemma SessionSearchSources(query: string, pattern: string, root: string, lsp: Result<Json, Raised>, fnmatch: (string, string) -> bool,
                             rglob: string -> seq<string>, read: string -> Option<seq<string>>,
                             search: (nat, string) -> Option<string>, info: SymbolInfo)
    ensures var r := SessionSearch(query, pattern, root, lsp, fnmatch, rglob, read, search);
      ServerSymbols(lsp, pattern, root, fnmatch) != [] ==> r == ServerSymbols(lsp, pattern, root, fnmatch)
    ensures lsp.Err? || !lsp.value.JArr? ==>
      SessionSearch(query, pattern, root, lsp, fnmatch, rglob, read, search)
      == FallbackSymbols(query, root, SessionFiles(root, pattern, rglob), read, search)
    ensures info in SessionSearch(query, pattern, root, lsp, fnmatch, rglob, read, search) ==>
      (lsp.Ok? && lsp.value.JArr? && exists k :: 0 <= k < |lsp.value.items| && ConvertSymbol(lsp.value.items[k], pattern, root, fnmatch, true) == Ok(Some(info)))
      || (exists k :: 0 <= k < MaxFallbackFiles && k < |SessionFiles(root, pattern, rglob)|
                      && info in FileSymbols(query, root, SessionFiles(root, pattern, rglob)[k], read, search))
  {
    var server := ServerSymbols(lsp, pattern, root, fnmatch);
    if info in SessionSearch(query, pattern, root, lsp, fnmatch, rglob, read, search) {
      if server != [] {
        ConvertedFrom(lsp.value.items, pattern, root, fnmatch, info);
      } else {
        FallbackFiles(query, root, SessionFiles(root, pattern, rglob), read, search, info, []);
      }
    }
  }

  /** As written, a symbol outside the root ahead of one in it sends the search to the text patterns; as intended the server's symbol is the answer. */
  lemma OutsideSymbolForcesFallback(query: string, pattern: string, root: string, outside: Json, inside: Json,
                                    fnmatch: (string, string) -> bool, rglob: string -> seq<string>,
                                    read: string -> Option<seq<string>>, search: (nat, string) -> Option<string>)
    requires pattern != "*"
    requires SymbolFile(outside).Ok? && SymbolFile(outside).value.Some? && !Within(SymbolFile(outside).value.value, root)
    requires ConvertSymbol(inside, pattern, root, fnmatch, true).Ok? && ConvertSymbol(inside, pattern, root, fnmatch, true).value.Some?
    ensures var lsp := Ok(JArr([outside, inside]));
      SessionSearchAsWritten(query, pattern, root, lsp, fnmatch, rglob, read, search)
      == FallbackSymbols(query, root, SessionFiles(root, pattern, rglob), read, search)
      && SessionSearch(query, pattern, root, lsp, fnmatch, rglob, read, search)
         == [ConvertSymbol(inside, pattern, root, fnmatch, true).value.value]
  {
    OutsideSymbolHidesLaterOnes(outside, inside, pattern, root, fnmatch);
  }

  /** The session's `_handle_search_symbols`: the symbols and `total_count`. */
  method SearchSymbols(query: string, pattern: string, root: string, lsp: Result<Json, Raised>, fnmatch: (string, string) -> bool,
                       rglob: string -> seq<string>, read: string -> Option<seq<string>>,
                       search: (nat, string) -> Option<string>) returns (symbols: seq<SymbolInfo>, totalCount: nat)
    ensures symbols == SessionSearch(query, pattern, root, lsp, fnmatch, rglob, read, search)
    ensures totalCount == |symbols|
  {
    symbols := [];
    if lsp.Ok? && lsp.value.JArr? {
      symbols := ConvertSymbols(lsp.value.items, pattern, root, fnmatch);
    }
    if symbols == [] {
      var files, _ := ListFiles(root, pattern, rglob);
      symbols := FallbackSearch(query, root, files, read, search);
    }
    totalCount := |symbols|;
  }
}
