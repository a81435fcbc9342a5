/**
 * The parts of the MCP front end shared by the stdio server and the socket
 * session: JSON-RPC replies and error codes, the answer to an unknown method
 * or a failed handler, the checks on tool arguments, the check that a file
 * lies inside the project, and the reply a tool call ends with.
 */
module Mcp {
  import opened Wrappers
  import opened PyStr
  import opened Json
  import Paths

  /** Error codes of section 5.1 of the JSON-RPC 2.0 specification, and the MCP code for "not initialised". */
  const MethodNotFound := -32601
  const InvalidParams := -32602
  const InternalError := -32603
  const NotInitialized := -32002

  const ProtocolVersion := "2024-11-05"
  /** The version reported in `serverInfo`. */
  const ServerVersion := "0.1.0"

  /** The body of a reply: a result, or an error with its code and message. */
  datatype Outcome = Success(result: Json) | Failure(code: int, message: string)

  /** `{"jsonrpc": "2.0", "id": id, ...}`. */
  datatype Reply = Reply(id: Json, outcome: Outcome)

  /** An exception reaching a handler: a `ValueError` with its message, or any other exception. */
  datatype Raised = ValueError(message: string) | OtherError(message: string)

  /** `str(v)` for the method or tool name put into a message. */
  function Show(j: Json): string
  {
    match IdText(j)
    case Some(s) => s
    case None => "<value>"
  }

  /** `{...} if message_id else None`: the reply is sent only for a truthy id. */
  function IfTruthyId(id: Json, outcome: Outcome): (r: Option<Reply>)
  {
    if Truthy(id) then Some(Reply(id, outcome)) else None
  }

  /** The answer to an unknown method. */
  function Unknown(id: Json, name: Json): Option<Reply>
  {
    IfTruthyId(id, Failure(MethodNotFound, "Method not found: " + Show(name)))
  }

  /** The answer when a handler raised. */
  function Crashed(id: Json, name: Json, e: Raised): Option<Reply>
  {
    IfTruthyId(id, Failure(InternalError, "Error handling " + Show(name) + ": " + e.message))
  }

  /** A notification (no id, or a falsy one) is never answered when its method is unknown or its handler raised; a request with a truthy id always is, with -32601 or -32603. */
  lemma UnansweredIffFalsyId(id: Json, name: Json, e: Raised)
    ensures Unknown(id, name).None? <==> !Truthy(id)
    ensures Crashed(id, name, e).None? <==> !Truthy(id)
    ensures Truthy(id) ==> Unknown(id, name).value.outcome.code == MethodNotFound
                           && Crashed(id, name, e).value.outcome.code == InternalError
                           && Unknown(id, name).value.id == id && Crashed(id, name, e).value.id == id
  {
  }

  // ---------------------------------------------------------------------------
  // Python dict operations on a value that may not be a dict

  /** `j.get(key, default)`: raises for anything but a dict. */
  function DictGet(j: Json, key: string, default: Json): (r: Result<Json, Raised>)
    ensures r.Ok? <==> j.JObj?
    ensures j.JObj? ==> r.value == GetOr(j, key, default)
  {
    if j.JObj? then Ok(GetOr(j, key, default)) else Err(OtherError("AttributeError"))
  }

  /** `key in j`: a key of a dict, an element of a list, a substring of a string; raises for the rest. */
  function Member(j: Json, key: string): Result<bool, Raised>
  {
    match j
    case JObj(fields) => Ok(key in fields)
    case JArr(items) => Ok(JStr(key) in items)
    case JStr(s) => Ok(Contains(s, key))
    case _ => Err(OtherError("TypeError"))
  }

  /** `j[key]` once `key in j` held: the value in a dict; lists and strings cannot be indexed by a string. */
  function Index(j: Json, key: string): Result<Json, Raised>
  {
    if j.JObj? && key in j.fields then Ok(j.fields[key]) else Err(OtherError("TypeError"))
  }

  /** `isinstance(v, int)`, which holds for booleans too. */
  predicate IsInt(j: Json)
  {
    j.JInt? || j.JBool?
  }

  function IntValue(j: Json): int
    requires IsInt(j)
  {
    if j.JInt? then j.i else if j.b then 1 else 0
  }

  // ---------------------------------------------------------------------------
  // `_validate_tool_arguments`

  const ListFilesTool := "cpp_list_files"
  const SearchTool := "cpp_search_symbols"
  /** The arguments every other tool requires, checked in this order. */
  const PositionFields: seq<string> := ["file", "line", "column"]

  /** An optional argument that must be a string when present. */
  function OptionalString(args: Json, key: string): Result<bool, Raised>
  {
    match Member(args, key)
    case Err(e) => Err(e)
    case Ok(false) => Ok(true)
    case Ok(true) =>
      match Index(args, key)
      case Err(e) => Err(e)
      case Ok(v) => if v.JStr? then Ok(true) else Err(ValueError(key + " must be a string"))
  }

  /** The `for field in required_fields` loop: the first field that is missing raises. */
  function RequireAll(args: Json, fields: seq<string>): Result<bool, Raised>
  {
    if fields == [] then Ok(true)
    else
      match Member(args, fields[0])
      case Err(e) => Err(e)
      case Ok(false) => Err(ValueError("Missing required argument: " + fields[0]))
      case Ok(true) => RequireAll(args, fields[1..])
  }

  /** A positive integer argument, as `line` and `column` must be. */
  function PositiveInt(v: Json, key: string): Result<bool, Raised>
  {
    if IsInt(v) && IntValue(v) >= 1 then Ok(true) else Err(ValueError(key + " must be a positive integer"))
  }

  /**
   * The rules on tool arguments, without the file checks: the discovery tools
   * take optional or required strings; every other tool needs a string `file`
   * and positive integers `line` and `column`, and its file is returned for
   * the path check.
   */
  function CheckArguments(tool: Json, args: Json): (r: Result<Option<string>, Raised>)
    ensures r.Ok? && r.value.Some? ==> args.JObj? && PositionArguments(args.fields) && args.fields["file"] == JStr(r.value.value)
    ensures r.Ok? && r.value.None? ==> tool == JStr(ListFilesTool) || tool == JStr(SearchTool)
  {
    if tool == JStr(ListFilesTool) then
      match OptionalString(args, "pattern")
      case Err(e) => Err(e)
      case Ok(_) => Ok(None)
    else if tool == JStr(SearchTool) then
      match Member(args, "query")
      case Err(e) => Err(e)
      case Ok(false) => Err(ValueError("Missing required argument: query"))
      case Ok(true) =>
        match Index(args, "query")
        case Err(e) => Err(e)
        case Ok(q) =>
          if !q.JStr? then Err(ValueError("query must be a string"))
          else
            match OptionalString(args, "file_pattern")
            case Err(e) => Err(e)
            case Ok(_) => Ok(None)
    else
      match RequireAll(args, PositionFields)
      case Err(e) => Err(e)
      case Ok(_) =>
        match Index(args, "file")
        case Err(e) => Err(e)
        case Ok(file) =>
          if !file.JStr? then Err(ValueError("file must be a string"))
          else
            match Index(args, "line")
            case Err(e) => Err(e)
            case Ok(line) =>
              match PositiveInt(line, "line")
              case Err(e) => Err(e)
              case Ok(_) =>
                match Index(args, "column")
                case Err(e) => Err(e)
                case Ok(column) =>
                  match PositiveInt(column, "column")
                  case Err(e) => Err(e)
                  case Ok(_) => Ok(Some(file.s))
  }

  /** Every field of the list is a key of the dict exactly when `RequireAll` passes; otherwise it names the first one missing. */
  lemma {:induction false} RequireAllInDict(fields: map<string, Json>, names: seq<string>)
    ensures RequireAll(JObj(fields), names).Ok? <==> forall k :: 0 <= k < |names| ==> names[k] in fields
    ensures RequireAll(JObj(fields), names).Err? ==>
      exists k :: 0 <= k < |names| && names[k] !in fields && (forall j :: 0 <= j < k ==> names[j] in fields)
                  && RequireAll(JObj(fields), names).error == ValueError("Missing required argument: " + names[k])
  {
    if names != [] && names[0] in fields {
      RequireAllInDict(fields, names[1..]);
      if RequireAll(JObj(fields), names).Err? {
        var k :| 0 <= k < |names[1..]| && names[1..][k] !in fields && (forall j :: 0 <= j < k ==> names[1..][j] in fields)
                 && RequireAll(JObj(fields), names[1..]).error == ValueError("Missing required argument: " + names[1..][k]);
        assert names[k + 1] == names[1..][k];
        forall j | 0 <= j < k + 1 ensures names[j] in fields {
          if j > 0 {
            assert names[j] == names[1..][j - 1];
          }
        }
      } else {
        forall k | 0 <= k < |names| ensures names[k] in fields {
          if k > 0 {
            assert names[k] == names[1..][k - 1];
          }
        }
      }
    }
  }

  /** The arguments of a position tool. */
  predicate PositionArguments(fields: map<string, Json>)
  {
    "file" in fields && "line" in fields && "column" in fields
    && fields["file"].JStr?
    && IsInt(fields["line"]) && IntValue(fields["line"]) >= 1
    && IsInt(fields["column"]) && IntValue(fields["column"]) >= 1
  }

  /** For a dict of arguments, a position tool is accepted exactly when file, line and column are present, the file a string and line and column integers of at least 1; every rejection is a `ValueError`. */
  lemma PositionArgumentsAccepted(tool: Json, fields: map<string, Json>)
    requires tool != JStr(ListFilesTool) && tool != JStr(SearchTool)
    ensures CheckArguments(tool, JObj(fields)).Ok? <==> PositionArguments(fields)
    ensures CheckArguments(tool, JObj(fields)).Ok? ==> CheckArguments(tool, JObj(fields)).value == Some(fields["file"].s)
    ensures CheckArguments(tool, JObj(fields)).Err? ==> CheckArguments(tool, JObj(fields)).error.ValueError?
  {
    RequireAllInDict(fields, PositionFields);
    assert RequireAll(JObj(fields), PositionFields).Ok? <==> "file" in fields && "line" in fields && "column" in fields by {
      assert PositionFields[0] == "file" && PositionFields[1] == "line" && PositionFields[2] == "column";
    }
  }

  /** For a dict of arguments, `cpp_list_files` is accepted exactly when any pattern given is a string, and `cpp_search_symbols` when the query is a string and any file pattern too. */
  lemma DiscoveryArgumentsAccepted(fields: map<string, Json>)
    ensures CheckArguments(JStr(ListFilesTool), JObj(fields)) ==
      if "pattern" in fields && !fields["pattern"].JStr? then Err(ValueError("pattern must be a string")) else Ok(None)
    ensures CheckArguments(JStr(SearchTool), JObj(fields)).Ok? <==>
      "query" in fields && fields["query"].JStr? && ("file_pattern" in fields ==> fields["file_pattern"].JStr?)
    ensures CheckArguments(JStr(SearchTool), JObj(fields)).Ok? ==> CheckArguments(JStr(SearchTool), JObj(fields)).value.None?
  {
    assert "pattern" + " must be a string" == "pattern must be a string";
  }

  /** Arguments that are not a dict never pass a position tool: a list or a string lacks the indexing, anything else the membership test. */
  lemma NonDictArgumentsRejected(tool: Json, args: Json)
    requires tool != JStr(ListFilesTool) && tool != JStr(SearchTool)
    requires !args.JObj?
    ensures CheckArguments(tool, args).Err?
  {
  }

  // ---------------------------------------------------------------------------
  // The file check

  /** `path.relative_to(root)` succeeds: the path is the root or lies below it. */
  predicate Within(path: string, root: string)
  {
    path == root || StartsWith(path, if root == "/" then "/" else root + "/")
  }

  /**
   * The file check of `_validate_tool_arguments`: a relative path is taken
   * from the project root, the path is resolved, and it must exist and lie
   * within the root; `outside` is the message used for a path outside it.
   * Every failure is reported as "Invalid file path: ...".
   */
  function CheckFile(root: string, file: string, resolve: string -> string, present: string -> bool,
                     outside: string): (r: Result<string, Raised>)
    ensures r.Ok? ==> r.value == resolve(Paths.JoinPath(root, file))
    ensures r.Ok? <==> present(resolve(Paths.JoinPath(root, file))) && Within(resolve(Paths.JoinPath(root, file)), root)
    ensures r.Err? ==> r.error.ValueError? && StartsWith(r.error.message, "Invalid file path: ")
  {
    var resolved := resolve(Paths.JoinPath(root, file));
    if !present(resolved) then Err(ValueError("Invalid file path: " + ("File not found: " + file)))
    else if !Within(resolved, root) then Err(ValueError("Invalid file path: " + (outside + file)))
    else Ok(resolved)
  }

  /** A path that resolves to a point outside the root, such as one climbing out with "..", is rejected however it is written. */
  lemma OutsideRootRejected(root: string, file: string, resolve: string -> string, present: string -> bool, outside: string)
    requires !Within(resolve(Paths.JoinPath(root, file)), root)
    ensures CheckFile(root, file, resolve, present, outside).Err?
  {
  }

  // ---------------------------------------------------------------------------
  // Running a tool

  /** The tools the bridge serves. */
  const KnownTools: seq<string> := [ListFilesTool, SearchTool, "cpp_definition", "cpp_references", "cpp_hover",
                                    "cpp_incoming_calls", "cpp_outgoing_calls"]

  /** How a tool run ends: with a value, by the timeout, or by raising. */
  datatype ToolOutcome = Completed(value: Json) | TimedOut | Threw(error: Raised)

  /**
   * `_execute_tool` under `wait_for`: `run` stands for the handler of a known
   * tool, given its arguments and the time allowed; any other name raises
   * "Unknown tool".
   */
  function Execute(tool: Json, args: Json, timeout: real, run: (string, Json, real) -> ToolOutcome): (r: ToolOutcome)
    ensures !(tool.JStr? && tool.s in KnownTools) ==> r == Threw(ValueError("Unknown tool: " + Show(tool)))
  {
    if tool.JStr? && tool.s in KnownTools then run(tool.s, args, timeout)
    else Threw(ValueError("Unknown tool: " + Show(tool)))
  }

  /** The reply to a tool call that ran, timed out or raised (in validation or in the tool). */
  function ToolReply(id: Json, tool: Json, outcome: ToolOutcome, dumps: Json -> string): (r: Reply)
    ensures r.id == id
    ensures r.outcome.Success? <==> outcome.Completed?
    ensures outcome.Threw? && outcome.error.ValueError? ==> r.outcome == Failure(InvalidParams, outcome.error.message)
    ensures outcome.TimedOut? || (outcome.Threw? && outcome.error.OtherError?) ==> r.outcome.Failure? && r.outcome.code == InternalError
  {
    match outcome
    case Completed(v) =>
      Reply(id, Success(JObj(map["content" := JArr([JObj(map["type" := JStr("text"), "text" := JStr(dumps(v))])])])))
    case TimedOut => Reply(id, Failure(InternalError, "Tool " + Show(tool) + " timed out"))
    case Threw(ValueError(m)) => Reply(id, Failure(InvalidParams, m))
    case Threw(OtherError(m)) => Reply(id, Failure(InternalError, "Tool execution failed: " + m))
  }

  /** The result of `initialize`: the protocol version, the tools capability and the server's name and version. */
  function InitializeResult(): Json
  {
    JObj(map["protocolVersion" := JStr(ProtocolVersion),
             "capabilities" := JObj(map["tools" := JObj(map[])]),
             "serverInfo" := JObj(map["name" := JStr("mcp-clangd"), "version" := JStr(ServerVersion)])])
  }

  /** `_handle_initialize` up to setting `initialized`: `params` and its `clientInfo` are read as dicts, and raise otherwise. */
  function InitializeCheck(params: Json): (r: Result<bool, Raised>)
    ensures r.Ok? <==> params.JObj? && GetOr(params, "clientInfo", JObj(map[])).JObj?
  {
    match DictGet(params, "clientInfo", JObj(map[]))
    case Err(e) => Err(e)
    case Ok(info) => if info.JObj? then Ok(true) else Err(OtherError("AttributeError"))
  }

  // ---------------------------------------------------------------------------
  // Lists built by filtering and capping

  /** The elements that `keep` accepts, in their order. */
  function Filter<T(==, !new)>(xs: seq<T>, keep: T -> bool): (r: seq<T>)
    ensures |r| <= |xs|
  {
    if xs == [] then [] else Filter(xs[..|xs| - 1], keep) + (if keep(xs[|xs| - 1]) then [xs[|xs| - 1]] else [])
  }

  /** The filtered list holds exactly the elements `keep` accepts. */
  lemma {:induction false} FilterMembers<T(!new)>(xs: seq<T>, keep: T -> bool)
    ensures forall x :: x in Filter(xs, keep) <==> x in xs && keep(x)
    decreases |xs|
  {
    if xs != [] {
      var init, last := xs[..|xs| - 1], xs[|xs| - 1];
      FilterMembers(init, keep);
      assert xs == init + [last];
    }
  }

  /** Appending what fits of `c` to a list `a` that still has room gives the first `n` elements of `a + c`. */
  lemma TakeAppend<T>(a: seq<T>, c: seq<T>, n: nat)
    requires |a| <= n
    ensures a + Take(c, n - |a|) == Take(a + c, n)
  {
  }

  /** The first `n` elements of a list are those of any longer list it is a prefix of. */
  lemma TakeOfPrefix<T>(a: seq<T>, b: seq<T>, n: nat)
    requires a <= b && n <= |a|
    ensures Take(b, n) == Take(a, n)
  {
  }
}
