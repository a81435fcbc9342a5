/**
 * The stdio MCP server: message dispatch with its `initialized` flag, tool
 * calls (argument checks, the rewrite of `file` to the resolved path, the
 * per-tool timeout), and the two discovery tools with their caps and the
 * plain-text fallback search.
 *
 * The outside world is passed in: `resolve` and `present` stand for
 * `Path.resolve` and `Path.exists`, `run` for the tool handlers under
 * `asyncio.wait_for`, `dumps` for `json.dumps`, `rglob` for a recursive glob
 * under the project root (paths relative to it), and `read` for reading a
 * file's lines (nothing when it cannot be read). In the fallback search a
 * glob that raises is `rglob(pattern) == []`: the failed listing it gets
 * from `_handle_list_files` has no files, exactly as an empty one.
 */
module McpServer {
  import opened Wrappers
  import opened PyStr
  import opened Json
  import opened Mcp
  import Paths
  import Sorting

  /** The outside world one message is handled in. */
  datatype Env = Env(
    resolve: string -> string,
    present: string -> bool,
    run: (string, Json, real) -> ToolOutcome,
    dumps: Json -> string,
    health: Result<Json, Raised>,
    tools: Json)

  // ---------------------------------------------------------------------------
  // Tool calls

  /** The tools that get the shorter timeout. */
  const FastTools: seq<string> := ["cpp_definition", "cpp_hover", ListFilesTool, SearchTool]

  /** `_execute_tool`'s timeout, in seconds. */
  function TimeoutFor(tool: Json): real
  {
    if tool.JStr? && tool.s in FastTools then 10.0 else 15.0
  }

  /** Definition, hover and the two discovery tools get 10 seconds, every other tool 15. */
  lemma TimeoutChoice(tool: Json)
    ensures TimeoutFor(tool) == 10.0 <==> tool in [JStr("cpp_definition"), JStr("cpp_hover"), JStr(ListFilesTool), JStr(SearchTool)]
    ensures TimeoutFor(tool) != 10.0 ==> TimeoutFor(tool) == 15.0
  {
  }

  /**
   * `_validate_tool_arguments` of the server: the argument rules, then for a
   * position tool the file check, after which `arguments["file"]` holds the
   * resolved path. The new arguments are returned.
   */
  function ValidateArguments(root: string, tool: Json, args: Json, env: Env): (r: Result<Json, Raised>)
    ensures r.Ok? ==> CheckArguments(tool, args).Ok?
    ensures r.Ok? ==> (CheckArguments(tool, args).value.None? ==> r.value == args)
    ensures r.Ok? ==> (CheckArguments(tool, args).value.Some? ==>
      r.value.JObj? && r.value.fields == args.fields["file" := JStr(env.resolve(Paths.JoinPath(root, CheckArguments(tool, args).value.value)))])
    ensures r.Err? <==> CheckArguments(tool, args).Err?
                        || (CheckArguments(tool, args).value.Some?
                            && CheckFile(root, CheckArguments(tool, args).value.value, env.resolve, env.present, "File must be within project root: ").Err?)
  {
    match CheckArguments(tool, args)
    case Err(e) => Err(e)
    case Ok(None) => Ok(args)
    case Ok(Some(file)) =>
      match CheckFile(root, file, env.resolve, env.present, "File must be within project root: ")
      case Err(e) => Err(e)
      case Ok(resolved) => Ok(JObj(args.fields["file" := JStr(resolved)]))
  }

  /** A position tool's arguments are accepted exactly when they pass the argument rules and the file exists within the root, and then the tool sees the resolved path. */
  lemma ValidatedFileIsResolved(root: string, tool: Json, fields: map<string, Json>, env: Env)
    requires tool != JStr(ListFilesTool) && tool != JStr(SearchTool)
    ensures var r := ValidateArguments(root, tool, JObj(fields), env);
      r.Ok? <==> PositionArguments(fields)
                 && env.present(env.resolve(Paths.JoinPath(root, fields["file"].s)))
                 && Within(env.resolve(Paths.JoinPath(root, fields["file"].s)), root)
    ensures var r := ValidateArguments(root, tool, JObj(fields), env);
      r.Ok? ==> r.value.fields["file"] == JStr(env.resolve(Paths.JoinPath(root, fields["file"].s)))
                && Within(r.value.fields["file"].s, root)
    ensures var r := ValidateArguments(root, tool, JObj(fields), env);
      r.Err? ==> r.error.ValueError?
  {
    PositionArgumentsAccepted(tool, fields);
  }

  /** `_handle_tool_call` from the point `params` is known to be a dict. */
  function ToolCall(initialized: bool, root: string, params: Json, id: Json, env: Env): (r: Reply)
    requires params.JObj?
  {
    var tool := GetOr(params, "name", JNull);
    var args := GetOr(params, "arguments", JObj(map[]));
    if !initialized then Reply(id, Failure(NotInitialized, "Server not initialized"))
    else
      match ValidateArguments(root, tool, args, env)
      case Err(e) => ToolReply(id, tool, Threw(e), env.dumps)
      case Ok(checked) => ToolReply(id, tool, Execute(tool, checked, TimeoutFor(tool), env.run), env.dumps)
  }

  // ---------------------------------------------------------------------------
  // Dispatch

  /** The methods the server answers. */
  const Methods: seq<string> := ["initialize", "tools/list", "tools/call", "ping", "resources/list", "prompts/list"]

  /**
   * `_handle_message` with the server's `initialized` flag: the answer (or
   * the exception that escapes when the message is not a dict) and the flag
   * afterwards.
   */
  function Step(initialized: bool, root: string, message: Json, env: Env): (Result<Option<Reply>, Raised>, bool)
  {
    if !message.JObj? then (Err(OtherError("AttributeError")), initialized)
    else
      var name := GetOr(message, "method", JNull);
      var params := GetOr(message, "params", JObj(map[]));
      var id := GetOr(message, "id", JNull);
      if name == JStr("initialize") then
        match InitializeCheck(params)
        case Err(e) => (Ok(Crashed(id, name, e)), initialized)
        case Ok(_) => (Ok(Some(Reply(id, Success(InitializeResult())))), true)
      else if name == JStr("tools/list") then
        (Ok(Some(Reply(id, Success(JObj(map["tools" := env.tools]))))), initialized)
      else if name == JStr("tools/call") then
        if !params.JObj? then (Ok(Crashed(id, name, OtherError("AttributeError"))), initialized)
        else (Ok(Some(ToolCall(initialized, root, params, id, env))), initialized)
      else if name == JStr("ping") then
        match env.health
        case Err(e) => (Ok(Crashed(id, name, e)), initialized)
        case Ok(h) => (Ok(Some(Reply(id, Success(JObj(map["status" := JStr("ok"), "clangd_health" := h]))))), initialized)
      else if name == JStr("resources/list") then
        (Ok(Some(Reply(id, Success(JObj(map["resources" := JArr([])]))))), initialized)
      else if name == JStr("prompts/list") then
        (Ok(Some(Reply(id, Success(JObj(map["prompts" := JArr([])]))))), initialized)
      else
        (Ok(Unknown(id, name)), initialized)
  }

  /** The flag changes only through an `initialize` whose parameters could be read, and then it becomes true. */
  lemma OnlyInitializeSetsInitialized(initialized: bool, root: string, message: Json, env: Env)
    ensures var (_, after) := Step(initialized, root, message, env);
      after != initialized ==> after && message.JObj? && GetOr(message, "method", JNull) == JStr("initialize")
    ensures (message.JObj? && GetOr(message, "method", JNull) == JStr("initialize")
             && InitializeCheck(GetOr(message, "params", JObj(map[]))).Ok?) ==> Step(initialized, root, message, env).1
  {
  }

  /** Before `initialize`, `tools/call` with dict parameters is answered -32002 whatever its id, and no tool runs: the answer does not depend on the tool handlers. */
  lemma ToolCallBeforeInitialize(root: string, message: Json, env: Env, run: (string, Json, real) -> ToolOutcome)
    requires message.JObj? && GetOr(message, "method", JNull) == JStr("tools/call")
    requires GetOr(message, "params", JObj(map[])).JObj?
    ensures Step(false, root, message, env).0
            == Ok(Some(Reply(GetOr(message, "id", JNull), Failure(NotInitialized, "Server not initialized"))))
    ensures Step(false, root, message, env) == Step(false, root, message, env.(run := run))
  {
  }

  /** Any other method is answered -32601 exactly when the id is truthy, and changes nothing. */
  lemma UnknownMethodAnswer(initialized: bool, root: string, message: Json, env: Env)
    requires message.JObj?
    requires var name := GetOr(message, "method", JNull); !(name.JStr? && name.s in Methods)
    ensures var id := GetOr(message, "id", JNull);
      Step(initialized, root, message, env) == (Ok(Unknown(id, GetOr(message, "method", JNull))), initialized)
    ensures Step(initialized, root, message, env).0.value.Some? <==> Truthy(GetOr(message, "id", JNull))
  {
  }

  /** After `initialize`, a position tool whose dict arguments break the rules is answered -32602 and runs nothing. */
  lemma BadPositionArgumentsRejected(root: string, params: map<string, Json>, id: Json, env: Env)
    requires "arguments" in params && params["arguments"].JObj?
    requires var tool := GetOr(JObj(params), "name", JNull); tool != JStr(ListFilesTool) && tool != JStr(SearchTool)
    requires !PositionArguments(params["arguments"].fields)
    ensures ToolCall(true, root, JObj(params), id, env).outcome.Failure?
    ensures ToolCall(true, root, JObj(params), id, env).outcome.code == InvalidParams
  {
    var tool := GetOr(JObj(params), "name", JNull);
    ValidatedFileIsResolved(root, tool, params["arguments"].fields, env);
  }

  /** After `initialize`, accepted arguments run the named tool with the resolved file and the tool's timeout. */
  lemma AcceptedCallRuns(root: string, params: map<string, Json>, id: Json, env: Env)
    requires var tool := GetOr(JObj(params), "name", JNull); tool.JStr? && tool.s in KnownTools
    requires ValidateArguments(root, GetOr(JObj(params), "name", JNull), GetOr(JObj(params), "arguments", JObj(map[])), env).Ok?
    ensures var tool := GetOr(JObj(params), "name", JNull);
      var checked := ValidateArguments(root, tool, GetOr(JObj(params), "arguments", JObj(map[])), env).value;
      ToolCall(true, root, JObj(params), id, env) == ToolReply(id, tool, env.run(tool.s, checked, TimeoutFor(tool)), env.dumps)
  {
  }

  /** The server's state: whether `initialize` has been handled. */
  class Server {
    const root: string
    var initialized: bool

    constructor(root: string)
      ensures this.root == root && !initialized
    {
      this.root := root;
      initialized := false;
    }

    /** `_handle_message`. */
    method HandleMessage(message: Json, env: Env) returns (r: Result<Option<Reply>, Raised>)
      modifies this
      ensures (r, initialized) == Step(old(initialized), root, message, env)
    {
      if !message.JObj? {
        return Err(OtherError("AttributeError"));
      }
      var name := GetOr(message, "method", JNull);
      var params := GetOr(message, "params", JObj(map[]));
      var id := GetOr(message, "id", JNull);
      if name == JStr("initialize") {
        var check := InitializeCheck(params);
        if check.Err? {
          return Ok(Crashed(id, name, check.error));
        }
        initialized := true;
        r := Ok(Some(Reply(id, Success(InitializeResult()))));
      } else if name == JStr("tools/call") {
        if !params.JObj? {
          return Ok(Crashed(id, name, OtherError("AttributeError")));
        }
        r := Ok(Some(ToolCall(initialized, root, params, id, env)));
      } else {
        r := Step(initialized, root, message, env).0;
      }
    }
  }

  // ---------------------------------------------------------------------------
  // `_handle_list_files`

  /** The globs of C and C++ files listed when no pattern is given. */
  const CppGlobs: seq<string> := ["*.cpp", "*.cxx", "*.cc", "*.c", "*.hpp", "*.hxx", "*.h", "*.hh"]
  const MaxListed := 100

  predicate EndsWith(s: string, t: string)
  {
    |t| <= |s| && s[|s| - |t|..] == t
  }

  /** `fnmatch(name, "*" + ext)` for one of the globs: the name ends with the extension. */
  predicate CppName(name: string)
  {
    exists k :: 0 <= k < |CppGlobs| && EndsWith(name, CppGlobs[k][1..])
  }

  /** The files `rglob` yields for each glob in turn. */
  function GlobAll(globs: seq<string>, rglob: string -> seq<string>): seq<string>
  {
    if globs == [] then [] else GlobAll(globs[..|globs| - 1], rglob) + rglob(globs[|globs| - 1])
  }

  /** The files found: all C and C++ files for "*", else the matches of the pattern. */
  function Globbed(pattern: string, rglob: string -> seq<string>): seq<string>
  {
    if pattern == "*" then GlobAll(CppGlobs, rglob) else rglob(pattern)
  }

  /** The filter of the listing: with "*", only names with a C or C++ extension; a custom pattern keeps everything it matched. */
  predicate Listed(pattern: string, rel: string)
  {
    pattern != "*" || CppName(Paths.Name(rel))
  }

  /** `Listed` for one pattern, as a filter. */
  function ListedFilter(pattern: string): string -> bool
  {
    rel => Listed(pattern, rel)
  }

  /** The files reported: the kept ones, sorted, at most 100. */
  function ListedFiles(pattern: string, rglob: string -> seq<string>): seq<string>
  {
    Take(Sorting.SortBy(Filter(Globbed(pattern, rglob), ListedFilter(pattern)), Sorting.StrKey), MaxListed)
  }

  /** The first elements of a sorted list are sorted. */
  lemma TakeSorted<T>(s: seq<T>, n: nat, key: T -> seq<Sorting.KeyPart>)
    requires Sorting.SortedBy(s, key)
    ensures Sorting.SortedBy(Take(s, n), key)
  {
    var t := Take(s, n);
    forall i, j | 0 <= i < j < |t| ensures !Sorting.KeyLt(key(t[j]), key(t[i])) {
      assert t[i] == s[i] && t[j] == s[j];
    }
  }

  /** At most 100 files are listed, in sorted order, each found by the glob and kept by the filter; when no more than 100 qualify, all of them are listed. */
  lemma ListedFilesShape(pattern: string, rglob: string -> seq<string>)
    ensures var files := ListedFiles(pattern, rglob);
      |files| <= MaxListed && Sorting.SortedBy(files, Sorting.StrKey)
      && (forall f :: f in files ==> f in Globbed(pattern, rglob) && Listed(pattern, f))
    ensures var kept := Filter(Globbed(pattern, rglob), ListedFilter(pattern));
      |kept| <= MaxListed ==> multiset(ListedFiles(pattern, rglob)) == multiset(kept)
  {
    var kept := Filter(Globbed(pattern, rglob), ListedFilter(pattern));
    var sorted := Sorting.SortBy(kept, Sorting.StrKey);
    Sorting.SortBySorted(kept, Sorting.StrKey);
    TakeSorted(sorted, MaxListed, Sorting.StrKey);
    var files := ListedFiles(pattern, rglob);
    FilterMembers(Globbed(pattern, rglob), ListedFilter(pattern));
    assert files == Take(sorted, MaxListed);
    forall f | f in files ensures f in Globbed(pattern, rglob) && Listed(pattern, f) {
      assert f in multiset(sorted);
      assert f in kept;
    }
    if |kept| <= MaxListed {
      assert files == sorted;
    }
  }

  /** The glob step of `_handle_list_files`: every C and C++ glob in turn for "*", else the pattern. */
  method GlobFiles(pattern: string, rglob: string -> seq<string>) returns (found: seq<string>)
    ensures found == Globbed(pattern, rglob)
  {
    if pattern != "*" {
      return rglob(pattern);
    }
    found := [];
    var k := 0;
    while k < |CppGlobs|
      invariant 0 <= k <= |CppGlobs|
      invariant found == GlobAll(CppGlobs[..k], rglob)
    {
      assert CppGlobs[..k + 1][..k] == CppGlobs[..k];
      found := found + rglob(CppGlobs[k]);
      k := k + 1;
    }
    assert CppGlobs[..|CppGlobs|] == CppGlobs;
  }

  lemma FilterStep<T(!new)>(xs: seq<T>, i: nat, keep: T -> bool)
    requires i < |xs|
    ensures Filter(xs[..i + 1], keep) == Filter(xs[..i], keep) + (if keep(xs[i]) then [xs[i]] else [])
  {
    assert xs[..i + 1][..i] == xs[..i];
  }

  /** The filter step of `_handle_list_files`. */
  method KeepListed(pattern: string, found: seq<string>) returns (kept: seq<string>)
    ensures kept == Filter(found, ListedFilter(pattern))
  {
    kept := [];
    var i := 0;
    while i < |found|
      invariant 0 <= i <= |found|
      invariant kept == Filter(found[..i], ListedFilter(pattern))
    {
      FilterStep(found, i, ListedFilter(pattern));
      if Listed(pattern, found[i]) {
        kept := kept + [found[i]];
      }
      i := i + 1;
    }
    assert found[..|found|] == found;
  }

  /** `_handle_list_files`: the files, and `total_found`, which counts the files returned. */
  method ListFiles(pattern: string, rglob: string -> seq<string>) returns (files: seq<string>, totalFound: nat)
    ensures files == ListedFiles(pattern, rglob)
    ensures totalFound == |files| <= MaxListed
  {
    var found := GlobFiles(pattern, rglob);
    var kept := KeepListed(pattern, found);
    files := Take(Sorting.SortBy(kept, Sorting.StrKey), MaxListed);
    totalFound := |files|;
  }

  /** The reply of `_handle_list_files`: the listing, or the error text with an empty file list. */
  datatype ListReply = Listing(files: seq<string>, totalFound: nat, patternUsed: string)
                     | ListFailed(error: string, patternUsed: string)
  {
    function Files(): seq<string>
    {
      if Listing? then files else []
    }
  }

  /**
   * `_handle_list_files` with its exception handler: `raised` is the message of the
   * exception the glob raises for this pattern, if it raises one (an empty or absolute
   * pattern, or a file-system error).
   */
  method HandleListFiles(pattern: string, rglob: string -> seq<string>, raised: Option<string>) returns (reply: ListReply)
    ensures reply.patternUsed == pattern
    ensures reply.ListFailed? <==> raised.Some?
    ensures raised.Some? ==> reply.error == raised.value && reply.Files() == []
    ensures raised.None? ==> reply.files == ListedFiles(pattern, rglob) && reply.totalFound == |reply.files| <= MaxListed
  {
    if raised.Some? {
      return ListFailed(raised.value, pattern);
    }
    var files, totalFound := ListFiles(pattern, rglob);
    reply := Listing(files, totalFound, pattern);
  }

  // ---------------------------------------------------------------------------
  // `_handle_search_symbols`

  /** A symbol as the language-server client reports it: its file, and the rest of the entry. */
  datatype FoundSymbol = FoundSymbol(file: string, entry: Json)

  /** A search result: symbols from the language server (the first 50 and the number found), or text matches. */
  datatype SearchResult = FromServer(symbols: seq<FoundSymbol>, totalFound: nat) | FromText(matches: seq<TextMatch>)

  const MaxSymbols := 50

  /** A path relative to the root, for a path within it. */
  function Relative(path: string, root: string): string
    requires Within(path, root)
  {
    if path == root then "." else if root == "/" then path[1..] else path[|root| + 1..]
  }

  /** The file-pattern filter: "*" keeps everything; an absolute file is matched relative to the root and dropped when outside it; a relative one is matched as it is. */
  predicate PatternKeeps(s: FoundSymbol, pattern: string, root: string, fnmatch: (string, string) -> bool)
  {
    pattern == "*"
    || (if |s.file| > 0 && s.file[0] == '/'
        then Within(s.file, root) && fnmatch(Relative(s.file, root), pattern)
        else fnmatch(s.file, pattern))
  }

  /**
   * `_handle_search_symbols`: the language server's symbols that pass the
   * file pattern, capped at 50 with the uncapped count; when there are none,
   * or the request raised, the text fallback over the listed files.
   */
  function SearchSymbols(query: string, pattern: string, root: string, lsp: Result<seq<FoundSymbol>, Raised>,
                         fnmatch: (string, string) -> bool, rglob: string -> seq<string>,
                         read: string -> Option<seq<string>>): SearchResult
  {
    var fallback := FromText(Fallback(query, root, ListedFiles(pattern, rglob), read));
    match lsp
    case Err(_) => fallback
    case Ok(symbols) =>
      var kept := Filter(symbols, s => PatternKeeps(s, pattern, root, fnmatch));
      if kept != [] then FromServer(Take(kept, MaxSymbols), |kept|) else fallback
  }

  /** Server symbols come back at most 50 at a time, the first ones that pass the pattern, with the count before the cap; without any, the text search answers. */
  lemma SearchCaps(query: string, pattern: string, root: string, lsp: Result<seq<FoundSymbol>, Raised>,
                   fnmatch: (string, string) -> bool, rglob: string -> seq<string>, read: string -> Option<seq<string>>)
    ensures var r := SearchSymbols(query, pattern, root, lsp, fnmatch, rglob, read);
      r.FromServer? ==> |r.symbols| <= MaxSymbols && |r.symbols| <= r.totalFound
                        && r.symbols <= Filter(lsp.value, s => PatternKeeps(s, pattern, root, fnmatch))
                        && r.totalFound == |Filter(lsp.value, s => PatternKeeps(s, pattern, root, fnmatch))|
    ensures var r := SearchSymbols(query, pattern, root, lsp, fnmatch, rglob, read);
      r.FromText? <==> lsp.Err? || Filter(lsp.value, s => PatternKeeps(s, pattern, root, fnmatch)) == []
    ensures pattern == "*" && lsp.Ok? && lsp.value != [] ==>
      SearchSymbols(query, pattern, root, lsp, fnmatch, rglob, read) == FromServer(Take(lsp.value, MaxSymbols), |lsp.value|)
  {
    if pattern == "*" && lsp.Ok? {
      FilterAll(lsp.value, s => PatternKeeps(s, pattern, root, fnmatch));
    }
  }

  lemma {:induction false} FilterAll<T(!new)>(xs: seq<T>, keep: T -> bool)
    requires forall k :: 0 <= k < |xs| ==> keep(xs[k])
    ensures Filter(xs, keep) == xs
    decreases |xs|
  {
    if xs != [] {
      var init, last := xs[..|xs| - 1], xs[|xs| - 1];
      forall k | 0 <= k < |init| ensures keep(init[k]) {
        assert init[k] == xs[k];
      }
      FilterAll(init, keep);
      assert Filter(xs, keep) == init + [last];
      assert xs == init + [last];
    }
  }

  // ---------------------------------------------------------------------------
  // `_fallback_symbol_search`

  /**
   * A line containing the query: the query, the file, the 1-based line
   * number and the line itself; the excerpt shown for it is computed from the
   * line when the match is rendered.
   */
  datatype TextMatch = TextMatch(name: string, file: string, line: nat, text: string)

  const MaxSearchedFiles := 20
  const MaxMatches := 20
  /** Lines longer than this are cut to a window around the match. */
  const LongLine := 100
  /** Characters kept on each side of the match. */
  const Margin := 30

  /** Where the window of a long line starts: `Margin` characters before the match, or at 0. */
  function WindowStart(context: string, query: string): int
  {
    var pos := Find(Lower(context), Lower(query));
    if pos - Margin > 0 then pos - Margin else 0
  }

  /** Where the window ends: `Margin` characters after the match, or at the end of the line. */
  function WindowEnd(context: string, query: string): int
  {
    var pos := Find(Lower(context), Lower(query));
    if |context| < pos + |query| + Margin then |context| else pos + |query| + Margin
  }

  /** The excerpt of a matching line: the stripped line, or for a long one the window with "..." on each side that was cut. */
  function Excerpt(line: string, query: string): string
  {
    var context := Strip(line);
    if |context| <= LongLine then context else Window(context, query)
  }

  /** The window of a long line, with "..." on each side that was cut. */
  function Window(context: string, query: string): string
  {
    var start, end := WindowStart(context, query), WindowEnd(context, query);
    Marker(start > 0) + Slice(context, start, end) + Marker(end < |context|)
  }

  /** "..." where text was cut, nothing elsewhere. */
  function Marker(cut: bool): (r: string)
    ensures |r| <= 3
  {
    if cut then "..." else ""
  }

  /** The window holds the match and spans at most the query and `Margin` characters on each side. */
  lemma WindowBounds(context: string, query: string)
    requires Find(Lower(context), Lower(query)) >= 0
    ensures var pos, start, end := Find(Lower(context), Lower(query)), WindowStart(context, query), WindowEnd(context, query);
      0 <= start <= pos && pos + |query| <= end <= |context| && end - start <= |query| + 2 * Margin
  {
    var pos := Find(Lower(context), Lower(query));
    assert pos + |Lower(query)| <= |Lower(context)|;
  }

  /** A line longer than 100 characters once stripped is cut to its window. */
  lemma ExcerptWindow(line: string, query: string)
    requires |Strip(line)| > LongLine
    ensures Excerpt(line, query) == Window(Strip(line), query)
  {
  }

  /** The window is the text between its bounds, marked with "..." exactly where text was cut. */
  lemma WindowSlice(context: string, query: string)
    requires Find(Lower(context), Lower(query)) >= 0
    ensures var start, end := WindowStart(context, query), WindowEnd(context, query);
      0 <= start <= end <= |context|
      && Window(context, query) == Marker(start > 0) + context[start..end] + Marker(end < |context|)
  {
    WindowBounds(context, query);
  }

  /** The excerpt of such a line is at most the window and the two markers long. */
  lemma ExcerptLength(line: string, query: string)
    requires |Strip(line)| > LongLine
    requires Find(Lower(Strip(line)), Lower(query)) >= 0
    ensures |Excerpt(line, query)| <= |query| + 2 * Margin + 6
  {
    ExcerptWindow(line, query);
    var context := Strip(line);
    WindowBounds(context, query);
    WindowSlice(context, query);
    var start, end := WindowStart(context, query), WindowEnd(context, query);
    assert |Excerpt(line, query)| == |Marker(start > 0)| + (end - start) + |Marker(end < |context|)|;
  }

  /** A line of at most 100 characters once stripped is shown whole. */
  lemma ShortLineWhole(line: string, query: string)
    requires |Strip(line)| <= LongLine
    ensures Excerpt(line, query) == Strip(line)
  {
  }

  /** A match as the result lists it, with the excerpt of its line as `context`. */
  function MatchJson(m: TextMatch): (r: Json)
    ensures r.JObj? && r.fields.Keys == {"name", "file", "line", "context", "kind"}
    ensures r.fields["context"] == JStr(Excerpt(m.text, m.name)) && r.fields["kind"] == JStr("text_match")
  {
    JObj(map["name" := JStr(m.name), "file" := JStr(m.file), "line" := JInt(m.line),
             "context" := JStr(Excerpt(m.text, m.name)), "kind" := JStr("text_match")])
  }

  /** `query.lower() in line.lower()`. */
  predicate Mentions(line: string, query: string)
  {
    Contains(Lower(line), Lower(query))
  }

  /** What `hit` gives for each of the first `n` items, with their 1-based positions, in order. */
  function Collect<T>(items: seq<string>, n: nat, hit: (string, nat) -> seq<T>): seq<T>
    requires n <= |items|
  {
    if n == 0 then [] else Collect(items, n - 1, hit) + hit(items[n - 1], n)
  }

  lemma {:induction false} CollectPrefix<T>(items: seq<string>, a: nat, b: nat, hit: (string, nat) -> seq<T>)
    requires a <= b <= |items|
    ensures Collect(items, a, hit) <= Collect(items, b, hit)
    decreases b
  {
    if a < b {
      CollectPrefix(items, a, b - 1, hit);
    }
  }

  lemma {:induction false} CollectHas<T>(items: seq<string>, n: nat, hit: (string, nat) -> seq<T>, k: nat)
    requires k < n <= |items|
    ensures forall x :: x in hit(items[k], k + 1) ==> x in Collect(items, n, hit)
  {
    if k < n - 1 {
      CollectHas(items, n - 1, hit, k);
    }
  }

  lemma {:induction false} CollectHasItem<T>(items: seq<string>, n: nat, hit: (string, nat) -> seq<T>, k: nat, x: T)
    requires k < n <= |items| && x in hit(items[k], k + 1)
    ensures x in Collect(items, n, hit)
  {
    if k < n - 1 {
      CollectHasItem(items, n - 1, hit, k, x);
    }
  }

  lemma {:induction false} CollectFrom<T>(items: seq<string>, n: nat, hit: (string, nat) -> seq<T>, x: T)
    requires n <= |items| && x in Collect(items, n, hit)
    ensures exists k :: 0 <= k < n && x in hit(items[k], k + 1)
  {
    if x !in hit(items[n - 1], n) {
      CollectFrom(items, n - 1, hit, x);
    }
  }

  /** The match a line gives, given its 1-based number: one when it mentions the query, none otherwise. */
  function LineHit(query: string, rel: string): (string, nat) -> seq<TextMatch>
  {
    (line: string, number: nat) => if Mentions(line, query) then [TextMatch(query, rel, number, line)] else []
  }

  /** The matches in one listed file, in line order; a file that cannot be read has none. */
  function FileMatches(query: string, root: string, rel: string, read: string -> Option<seq<string>>): seq<TextMatch>
  {
    match read(Paths.JoinPath(root, rel))
    case None => []
    case Some(lines) => Collect(lines, |lines|, LineHit(query, rel))
  }

  /** Every match in a file names a line that mentions the query, by its 1-based number, with that line's excerpt. */
  lemma FileMatchSound(query: string, root: string, rel: string, read: string -> Option<seq<string>>, m: TextMatch)
    requires m in FileMatches(query, root, rel, read)
    ensures read(Paths.JoinPath(root, rel)).Some?
    ensures var lines := read(Paths.JoinPath(root, rel)).value;
      m.name == query && m.file == rel && 1 <= m.line <= |lines|
      && m.text == lines[m.line - 1] && Mentions(m.text, query)
  {
    var lines := read(Paths.JoinPath(root, rel)).value;
    CollectFrom(lines, |lines|, LineHit(query, rel), m);
    var k :| 0 <= k < |lines| && m in LineHit(query, rel)(lines[k], k + 1);
    LineHitSound(query, rel, lines[k], k + 1, m);
  }

  lemma LineHitValue(query: string, rel: string, line: string, number: nat)
    ensures Mentions(line, query) ==> LineHit(query, rel)(line, number) == [TextMatch(query, rel, number, line)]
    ensures !Mentions(line, query) ==> LineHit(query, rel)(line, number) == []
  {
  }

  lemma LineHitSound(query: string, rel: string, line: string, number: nat, m: TextMatch)
    requires m in LineHit(query, rel)(line, number)
    ensures m == TextMatch(query, rel, number, line) && Mentions(line, query)
  {
  }

  /** No line of a readable file that mentions the query is missed. */
  lemma FileMatchComplete(query: string, root: string, rel: string, read: string -> Option<seq<string>>, k: nat)
    requires read(Paths.JoinPath(root, rel)).Some?
    requires var lines := read(Paths.JoinPath(root, rel)).value; k < |lines| && Mentions(lines[k], query)
    ensures var lines := read(Paths.JoinPath(root, rel)).value;
      TextMatch(query, rel, k + 1, lines[k]) in FileMatches(query, root, rel, read)
  {
    var lines := read(Paths.JoinPath(root, rel)).value;
    CollectHas(lines, |lines|, LineHit(query, rel), k);
    LineHitValue(query, rel, lines[k], k + 1);
  }

  /** The matches of each file in turn. */
  function FilesHit(query: string, root: string, read: string -> Option<seq<string>>): (string, nat) -> seq<TextMatch>
  {
    (rel: string, number: nat) => FileMatches(query, root, rel, read)
  }

  /** The text fallback: the first 20 matches in the first 20 listed files. */
  function Fallback(query: string, root: string, listed: seq<string>, read: string -> Option<seq<string>>): (r: seq<TextMatch>)
    ensures |r| <= MaxMatches
  {
    var files := Take(listed, MaxSearchedFiles);
    Take(Collect(files, |files|, FilesHit(query, root, read)), MaxMatches)
  }

  /** Each fallback result is a match in one of the first 20 listed files; when those files hold fewer than 20 matches, all of them are returned. */
  lemma FallbackMatches(query: string, root: string, listed: seq<string>, read: string -> Option<seq<string>>, m: TextMatch)
    ensures m in Fallback(query, root, listed, read) ==>
      exists k :: 0 <= k < MaxSearchedFiles && k < |listed| && m in FileMatches(query, root, listed[k], read)
    ensures var files := Take(listed, MaxSearchedFiles);
      var all := Collect(files, |files|, FilesHit(query, root, read));
      |all| < MaxMatches ==> Fallback(query, root, listed, read) == all
  {
    var files := Take(listed, MaxSearchedFiles);
    var hit := FilesHit(query, root, read);
    if m in Fallback(query, root, listed, read) {
      CollectFrom(files, |files|, hit, m);
      var k :| 0 <= k < |files| && m in hit(files[k], k + 1);
      assert files[k] == listed[k];
    }
  }

  /** Once the first `n` items give at least `room` results, the first `room` of them are the first `room` results of all the items. */
  lemma CollectStop<T>(items: seq<string>, n: nat, hit: (string, nat) -> seq<T>, room: nat)
    requires n <= |items| && |Collect(items, n, hit)| >= room
    ensures Take(Collect(items, n, hit), room) == Take(Collect(items, |items|, hit), room)
  {
    CollectPrefix(items, n, |items|, hit);
    TakeOfPrefix(Collect(items, n, hit), Collect(items, |items|, hit), room);
  }

  /** A collection stopped after `n` items holds the first `room` results of all the items, once it has `room` of them or has run through every item. */
  lemma CollectDone<T>(items: seq<string>, n: nat, hit: (string, nat) -> seq<T>, room: nat)
    requires n <= |items| && |Collect(items, n, hit)| <= room
    requires |Collect(items, n, hit)| < room ==> n == |items|
    ensures Collect(items, n, hit) == Take(Collect(items, |items|, hit), room)
  {
    if |Collect(items, n, hit)| == room {
      CollectStop(items, n, hit, room);
    }
  }

  /** The inner loop of the fallback: the matches of one file, stopping once `room` of them are found. */
  method ScanLines(query: string, rel: string, lines: seq<string>, room: nat) returns (found: seq<TextMatch>)
    requires room >= 1
    ensures found == Take(Collect(lines, |lines|, LineHit(query, rel)), room)
  {
    found := [];
    var j := 0;
    var full := false;
    while j < |lines| && !full
      invariant 0 <= j <= |lines|
      invariant found == Collect(lines, j, LineHit(query, rel))
      invariant |found| <= room && (full <==> |found| == room)
    {
      found := found + LineHit(query, rel)(lines[j], j + 1);
      full := |found| == room;
      j := j + 1;
    }
    CollectDone(lines, j, LineHit(query, rel), room);
  }

  lemma FilesStep(query: string, root: string, files: seq<string>, read: string -> Option<seq<string>>, i: nat,
                  results: seq<TextMatch>, found: seq<TextMatch>)
    requires i < |files| && results == Collect(files, i, FilesHit(query, root, read)) && |results| < MaxMatches
    requires read(Paths.JoinPath(root, files[i])).None? ==> found == []
    requires read(Paths.JoinPath(root, files[i])).Some? ==>
      found == Take(FileMatches(query, root, files[i], read), MaxMatches - |results|)
    ensures results + found == Take(Collect(files, i + 1, FilesHit(query, root, read)), MaxMatches)
    ensures |results + found| < MaxMatches ==> results + found == Collect(files, i + 1, FilesHit(query, root, read))
    ensures |results + found| >= MaxMatches ==>
      results + found == Take(Collect(files, |files|, FilesHit(query, root, read)), MaxMatches)
  {
    var hit := FilesHit(query, root, read);
    FoundTake(query, root, files[i], read, found, MaxMatches - |results|);
    assert hit(files[i], i + 1) == FileMatches(query, root, files[i], read);
    CollectStep(files, i, hit, results, found, MaxMatches);
  }

  /** One more item's hits, cut to the room left, continue a collection: the cut of all the hits is kept, and reaching the room fixes the result. */
  lemma CollectStep<T>(items: seq<string>, i: nat, hit: (string, nat) -> seq<T>, results: seq<T>, found: seq<T>, room: nat)
    requires i < |items| && results == Collect(items, i, hit) && |results| < room
    requires found == Take(hit(items[i], i + 1), room - |results|)
    ensures results + found == Take(Collect(items, i + 1, hit), room)
    ensures |results + found| < room ==> results + found == Collect(items, i + 1, hit)
    ensures |results + found| >= room ==> results + found == Take(Collect(items, |items|, hit), room)
  {
    CollectNext(items, i, hit);
    TakeStep(results, hit(items[i], i + 1), found, Collect(items, i + 1, hit), room);
    if |results + found| >= room {
      CollectStop(items, i + 1, hit, room);
    }
  }

  /** What the loop body found in one file is what fits of its matches. */
  lemma FoundTake(query: string, root: string, rel: string, read: string -> Option<seq<string>>,
                  found: seq<TextMatch>, room: nat)
    requires read(Paths.JoinPath(root, rel)).None? ==> found == []
    requires read(Paths.JoinPath(root, rel)).Some? ==> found == Take(FileMatches(query, root, rel, read), room)
    ensures found == Take(FileMatches(query, root, rel, read), room)
  {
  }

  /** One more item adds its own hits at the end. */
  lemma CollectNext<T>(items: seq<string>, n: nat, hit: (string, nat) -> seq<T>)
    requires n < |items|
    ensures Collect(items, n + 1, hit) == Collect(items, n, hit) + hit(items[n], n + 1)
  {
  }

  /** Appending what fits of `m` to a collection with room left gives the cut of the whole. */
  lemma TakeStep<T>(results: seq<T>, m: seq<T>, found: seq<T>, all: seq<T>, room: nat)
    requires |results| < room && found == Take(m, room - |results|) && all == results + m
    ensures results + found == Take(all, room)
    ensures |results + found| < room ==> results + found == all
  {
    TakeAppend(results, m, room);
  }

  /** The body of the loop over files: the matches of the i-th file, as many as there is room for. */
  method SearchFile(query: string, root: string, files: seq<string>, read: string -> Option<seq<string>>, i: nat,
                    results: seq<TextMatch>) returns (found: seq<TextMatch>)
    requires i < |files| && results == Collect(files, i, FilesHit(query, root, read)) && |results| < MaxMatches
    ensures |results + found| < MaxMatches ==> results + found == Collect(files, i + 1, FilesHit(query, root, read))
    ensures |results + found| >= MaxMatches ==>
      results + found == Take(Collect(files, |files|, FilesHit(query, root, read)), MaxMatches)
  {
    var content := read(Paths.JoinPath(root, files[i]));
    found := [];
    if content.Some? {
      found := ScanLines(query, files[i], content.value, MaxMatches - |results|);
    }
    FilesStep(query, root, files, read, i, results, found);
  }

  /** `_fallback_symbol_search`: the nested loops over files and lines, leaving both once 20 matches are found. */
  method FallbackSearch(query: string, root: string, listed: seq<string>, read: string -> Option<seq<string>>)
    returns (results: seq<TextMatch>)
    ensures results == Fallback(query, root, listed, read)
  {
    var files := Take(listed, MaxSearchedFiles);
    results := [];
    var i := 0;
    var full := false;
    while i < |files| && !full
      invariant 0 <= i <= |files|
      invariant !full ==> results == Collect(files, i, FilesHit(query, root, read)) && |results| < MaxMatches
      invariant full ==> results == Take(Collect(files, |files|, FilesHit(query, root, read)), MaxMatches)
    {
      var found := SearchFile(query, root, files, read, i, results);
      results := results + found;
      full := |results| >= MaxMatches;
      i := i + 1;
    }
  }
}
