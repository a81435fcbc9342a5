/**
 * The request/response side of `LSPClient` in `lsp_client.py`: the guards
 * on a live clangd, counter-generated request ids, the table of pending
 * requests that responses settle, the `$/progress` indexing state machine,
 * and the symbol-kind and URI helpers. Futures, timeouts and clocks are the
 * environment's: a request that times out or fails is abandoned by the
 * caller, and no start time is kept.
 */
module LspClient {
  import opened Wrappers
  import opened PyStr
  import opened Json
  import Clangd

  // ---------------------------------------------------------------------------
  // Guards and outgoing messages

  /** Why `request` and `notify` refuse to send: clangd was never started, or it has exited with a return code. */
  datatype Unavailable = NotStarted | Died(returncode: int)
  {
    /** The text of the `RuntimeError` raised for this reason. */
    function Message(): string
    {
      match this
      case NotStarted => "Clangd process not started - clangd may not be available or failed to start"
      case Died(code) => "Clangd process died with return code: " + IntToString(code)
    }
  }

  /** The reason clangd cannot take a message, or None when it is running. */
  function Unavailability(process: Option<Clangd.ClangdProcess>): (r: Option<Unavailable>)
    ensures r.None? <==> process.Some? && process.value.IsAlive()
    ensures r == Some(NotStarted) <==> process.None?
    ensures r.Some? && r.value.Died? ==> process.Some? && process.value.returncode == Some(r.value.returncode)
  {
    match process
    case None => Some(NotStarted)
    case Some(p) =>
      match p.returncode
      case None => None
      case Some(code) => Some(Died(code))
  }

  /** The message `request` and `notify` refuse with, or None when clangd is running. */
  function Refusal(process: Option<Clangd.ClangdProcess>): (r: Option<string>)
    ensures r.None? <==> process.Some? && process.value.IsAlive()
  {
    match Unavailability(process)
    case None => None
    case Some(why) => Some(why.Message())
  }

  /** The JSON-RPC request `request` sends. */
  function RequestMessage(id: string, lspMethod: string, params: Json): Json
  {
    JObj(map["jsonrpc" := JStr("2.0"), "id" := JStr(id), "method" := JStr(lspMethod), "params" := params])
  }

  /** `notify`: the JSON-RPC notification, which has no id, or the refusal. */
  function Notify(process: Option<Clangd.ClangdProcess>, lspMethod: string, params: Json): (r: Result<Json, string>)
    ensures r.Err? <==> Refusal(process).Some?
    ensures r.Ok? ==> (!Has(r.value, "id") && Get(r.value, "method") == Some(JStr(lspMethod))
      && Get(r.value, "params") == Some(params))
  {
    match Refusal(process)
    case Some(why) => Err(why)
    case None => Ok(JObj(map["jsonrpc" := JStr("2.0"), "method" := JStr(lspMethod), "params" := params]))
  }

  /** The ids `request` has handed out once the counter reached `n`. */
  function IssuedIds(n: nat): set<string>
  {
    set k | 0 <= k < n :: IntToString(k)
  }

  /** The next id is one that was never issued before, so no pending entry can be overwritten. */
  lemma FreshId(n: nat)
    ensures IntToString(n) !in IssuedIds(n)
  {
    if IntToString(n) in IssuedIds(n) {
      var k :| 0 <= k < n && IntToString(k) == IntToString(n);
      IntToStringInjective(k, n);
    }
  }

  lemma IssuedIdsGrow(n: nat)
    ensures IssuedIds(n + 1) == IssuedIds(n) + {IntToString(n)}
  {
    assert forall k :: 0 <= k < n + 1 ==> IntToString(k) in IssuedIds(n) + {IntToString(n)};
  }

  /** Recording the next id keeps every pending id one that was issued, and overwrites no entry. */
  lemma RecordPending(pending: map<string, string>, n: nat, lspMethod: string)
    requires pending.Keys <= IssuedIds(n)
    ensures IntToString(n) !in pending
    ensures pending[IntToString(n) := lspMethod].Keys <= IssuedIds(n + 1)
  {
    FreshId(n);
    IssuedIdsGrow(n);
  }

  // ---------------------------------------------------------------------------
  // Responses

  /** How `_handle_response` settles a pending future. */
  datatype Resolution =
    | Success(result: Json)
      /** `set_exception(RuntimeError(...))` with `error.get('message', 'Unknown error')`. */
    | Failure(detail: Json)
      /** An "error" that is not an object: the lookup raises after the entry is gone, and the future is never settled. */
    | Dropped

  datatype Delivery = Ignored | Resolved(id: string, lspMethod: string, resolution: Resolution)

  /** The text of the `RuntimeError` a failed request raises, for a string error message. */
  function ErrorText(lspMethod: string, detail: string): string
  {
    "LSP error in " + lspMethod + ": " + detail
  }

  /**
   * `_handle_response` on the table of pending requests (id to method). A
   * response for an id that is not pending is ignored and leaves the table
   * as it is; a pending one is removed, with nothing else touched, and
   * settled with an error exactly when the message carries "error".
   */
  function ResponseEffect(pending: map<string, string>, message: Json): (r: (map<string, string>, Delivery))
    requires Has(message, "id")
    ensures var (after, d) := r;
      var id := IdText(message.fields["id"]);
      && (d.Ignored? <==> id.None? || id.value !in pending)
      && (d.Ignored? ==> after == pending)
      && (d.Resolved? ==> (d.id == id.value && d.lspMethod == pending[d.id]
          && after.Keys == pending.Keys - {d.id}
          && (forall k :: k in after ==> after[k] == pending[k])))
      && (d.Resolved? ==> (d.resolution.Success? <==> !Has(message, "error")))
      && (d.Resolved? && !Has(message, "error") ==> d.resolution.result == GetOr(message, "result", JNull))
  {
    var id := IdText(message.fields["id"]);
    if id.None? || id.value !in pending then (pending, Ignored)
    else
      var rest := pending - {id.value};
      var lspMethod := pending[id.value];
      if Has(message, "error") then
        var error := message.fields["error"];
        if error.JObj? then (rest, Resolved(id.value, lspMethod, Failure(GetOr(error, "message", JStr("Unknown error")))))
        else (rest, Resolved(id.value, lspMethod, Dropped))
      else (rest, Resolved(id.value, lspMethod, Success(GetOr(message, "result", JNull))))
  }

  /** The same response delivered twice settles its request once: the second delivery is ignored. */
  lemma SettledOnce(pending: map<string, string>, message: Json)
    requires Has(message, "id")
    ensures var (after, d) := ResponseEffect(pending, message);
      d.Resolved? ==> ResponseEffect(after, message) == (after, Ignored)
  {
  }

  /** A reply that echoes the id of a request just sent settles exactly that request with its result. */
  lemma ReplyToRequest(pending: map<string, string>, id: string, lspMethod: string, result: Json)
    requires id !in pending
    ensures var sent := pending[id := lspMethod];
      var reply := JObj(map["jsonrpc" := JStr("2.0"), "id" := JStr(id), "result" := result]);
      ResponseEffect(sent, reply) == (pending, Resolved(id, lspMethod, Success(result)))
  {
    var sent := pending[id := lspMethod];
    var reply := JObj(map["jsonrpc" := JStr("2.0"), "id" := JStr(id), "result" := result]);
    assert !Has(reply, "error");
    assert sent - {id} == pending;
  }

  // ---------------------------------------------------------------------------
  // Indexing progress

  /** `progress_percentage`: never set, the last reported value, or the 100.0 an "end" sets. */
  datatype Percentage = Unset | Reported(value: Json) | Hundred

  /** `indexing_status` (without its clock fields) and whether `indexing_complete` is set. */
  datatype Indexing = Indexing(isIndexing: bool, percentage: Percentage, currentOperation: string, complete: bool)

  /** The status `wait_for_indexing` starts from. */
  const Idle := Indexing(false, Unset, "", false)

  /** Whether a lowered title or message mentions indexing work. */
  predicate Relevant(title: string, message: string)
  {
    Contains(title, "index") || Contains(message, "index")
    || Contains(title, "parsing") || Contains(message, "parsing")
    || Contains(title, "loading") || Contains(message, "loading")
  }

  /** `value.get(key, "")` when it is a string; None when `.lower()` on it would raise. */
  function TextField(value: Json, key: string): Option<string>
    requires value.JObj?
  {
    if key !in value.fields then Some("")
    else
      match value.fields[key]
      case JStr(s) => Some(s)
      case _ => None
  }

  /**
   * `_handle_progress_notification`. Anything that raises before the first
   * assignment (params or value not objects, a title or message that is not
   * a string) leaves the status as it was.
   */
  function Progress(st: Indexing, params: Json): (r: Indexing)
    ensures (st.complete ==> !st.isIndexing) ==> (r.complete ==> !r.isIndexing)
    ensures r.complete && !st.complete ==> st.isIndexing && !r.isIndexing && r.percentage == Hundred
  {
    if !params.JObj? then st
    else
      var value := GetOr(params, "value", JObj(map[]));
      if !value.JObj? then st
      else
        var title := TextField(value, "title");
        var message := TextField(value, "message");
        if title.None? || message.None? || !Relevant(Lower(title.value), Lower(message.value)) then st
        else
          var kind := GetOr(value, "kind", JStr(""));
          if kind == JStr("begin") then
            var operation := if "title" in value.fields then title.value else "Indexing";
            Indexing(true, st.percentage, operation, false)
          else if kind == JStr("report") then
            if !st.isIndexing then st
            else
              var percentage := GetOr(value, "percentage", JNull);
              var p := if percentage != JNull then Reported(percentage) else st.percentage;
              var operation := if message.value != "" then message.value else st.currentOperation;
              Indexing(true, p, operation, st.complete)
          else if kind == JStr("end") then
            if !st.isIndexing then st
            else Indexing(false, Hundred, st.currentOperation, true)
          else st
  }

  /** A `$/progress` notification with the given value. */
  function ProgressParams(kind: string, title: string): Json
  {
    JObj(map["token" := JStr("t"), "value" := JObj(map["kind" := JStr(kind), "title" := JStr(title)])])
  }

  /** Progress about anything other than indexing, parsing or loading changes nothing. */
  lemma UnrelatedProgressIgnored(st: Indexing, kind: string, title: string)
    requires !Relevant(Lower(title), "")
    ensures Progress(st, ProgressParams(kind, title)) == st
  {
    var value := JObj(map["kind" := JStr(kind), "title" := JStr(title)]);
    assert GetOr(ProgressParams(kind, title), "value", JObj(map[])) == value;
    assert TextField(value, "message") == Some("");
  }

  /** "report" and "end" are ignored while no indexing is in progress. */
  lemma ReportAndEndNeedIndexing(st: Indexing, params: Json)
    requires !st.isIndexing
    requires params.JObj? && "value" in params.fields && params.fields["value"].JObj?
    requires GetOr(params.fields["value"], "kind", JStr("")) in {JStr("report"), JStr("end")}
    ensures Progress(st, params) == st
  {
  }

  /** An indexing "begin" followed by its "end" leaves indexing finished at 100% with completion signalled. */
  lemma BeginThenEnd(st: Indexing, title: string)
    requires Relevant(Lower(title), "")
    ensures var begun := Progress(st, ProgressParams("begin", title));
      begun.isIndexing && !begun.complete && begun.currentOperation == title
      && Progress(begun, ProgressParams("end", title)) == Indexing(false, Hundred, title, true)
  {
    BeginStarts(st, title);
    EndFinishes(Progress(st, ProgressParams("begin", title)), title);
  }

  /** An indexing "begin" starts indexing under its title, keeping the last percentage. */
  lemma BeginStarts(st: Indexing, title: string)
    requires Relevant(Lower(title), "")
    ensures Progress(st, ProgressParams("begin", title)) == Indexing(true, st.percentage, title, false)
  {
    var value := JObj(map["kind" := JStr("begin"), "title" := JStr(title)]);
    assert GetOr(ProgressParams("begin", title), "value", JObj(map[])) == value;
    assert TextField(value, "message") == Some("");
    assert TextField(value, "title") == Some(title);
  }

  /** An indexing "end" while indexing finishes it at 100% and signals completion. */
  lemma EndFinishes(st: Indexing, title: string)
    requires Relevant(Lower(title), "") && st.isIndexing
    ensures Progress(st, ProgressParams("end", title)) == Indexing(false, Hundred, st.currentOperation, true)
  {
    var value := JObj(map["kind" := JStr("end"), "title" := JStr(title)]);
    assert GetOr(ProgressParams("end", title), "value", JObj(map[])) == value;
    assert TextField(value, "message") == Some("");
    assert TextField(value, "title") == Some(title);
  }

  /** The status after a run of progress notifications. */
  function ProgressAll(st: Indexing, notes: seq<Json>): Indexing
    decreases |notes|
  {
    if notes == [] then st else ProgressAll(Progress(st, notes[0]), notes[1..])
  }

  /**
   * Completion is only ever signalled by a notification that ends indexing
   * in progress, and the state keeps `complete ==> !isIndexing` throughout.
   */
  lemma {:induction false} CompletionNeedsEnd(st: Indexing, notes: seq<Json>)
    requires st.complete ==> !st.isIndexing
    ensures var r := ProgressAll(st, notes);
      (r.complete ==> !r.isIndexing)
      && (r.complete && !st.complete ==> exists k :: 0 <= k < |notes| && Progress(ProgressAll(st, notes[..k]), notes[k]).percentage == Hundred)
    decreases |notes|
  {
    if notes != [] {
      var next := Progress(st, notes[0]);
      CompletionNeedsEnd(next, notes[1..]);
      var r := ProgressAll(st, notes);
      if r.complete && !st.complete {
        if next.complete {
          assert notes[..0] == [];
          assert Progress(ProgressAll(st, notes[..0]), notes[0]).percentage == Hundred;
        } else {
          var k :| 0 <= k < |notes[1..]| && Progress(ProgressAll(next, notes[1..][..k]), notes[1..][k]).percentage == Hundred;
          PrefixRun(st, notes, k + 1);
          assert notes[1..][k] == notes[k + 1];
        }
      }
    }
  }

  /** Running a prefix one longer is one more step after the first. */
  lemma PrefixRun(st: Indexing, notes: seq<Json>, k: nat)
    requires 0 < k <= |notes|
    ensures ProgressAll(st, notes[..k]) == ProgressAll(Progress(st, notes[0]), notes[1..][..k - 1])
  {
    assert notes[..k][0] == notes[0];
    assert notes[..k][1..] == notes[1..][..k - 1];
  }

  // ---------------------------------------------------------------------------
  // The client

  /** What `_handle_message` did with an incoming message. */
  datatype Handled = AsResponse(delivery: Delivery) | AsNotification(lspMethod: Json) | Unrecognised

  class Client {
    var requestCounter: nat
    /** `pending_requests`, id to the method of the request. */
    var pending: map<string, string>
    /** `notification_handlers`: only `$/progress` is registered. */
    var handlers: set<string>
    /** The fields of `indexing_status`, and `indexing_complete`. */
    var isIndexing: bool
    var percentage: Percentage
    var currentOperation: string
    var complete: bool

    /** Every pending id is one `request` handed out. */
    predicate Valid()
      reads this
    {
      pending.Keys <= IssuedIds(requestCounter)
    }

    function Status(): Indexing
      reads this
    {
      Indexing(isIndexing, percentage, currentOperation, complete)
    }

    constructor ()
      ensures Valid() && requestCounter == 0 && pending == map[] && handlers == {"$/progress"}
      ensures Status() == Idle
    {
      requestCounter := 0;
      pending := map[];
      handlers := {"$/progress"};
      isIndexing, percentage, currentOperation, complete := false, Unset, "", false;
    }

    /**
     * The synchronous part of `request`: refuse without a live clangd,
     * otherwise take the next id, record the request as pending and return
     * the message to send.
     */
    method BeginRequest(lspMethod: string, params: Json, process: Option<Clangd.ClangdProcess>) returns (r: Result<Json, Unavailable>)
      requires Valid()
      modifies this
      ensures Valid() && handlers == old(handlers) && Status() == old(Status())
      ensures r.Err? <==> Unavailability(process).Some?
      ensures r.Err? ==> r.error == Unavailability(process).value && requestCounter == old(requestCounter) && pending == old(pending)
      ensures r.Ok? ==> var id := IntToString(old(requestCounter));
        && id !in old(pending)
        && requestCounter == old(requestCounter) + 1
        && pending == old(pending)[id := lspMethod]
        && r.value == RequestMessage(id, lspMethod, params)
    {
      var refusal := Unavailability(process);
      if refusal.Some? {
        return Err(refusal.value);
      }
      var id := RecordRequest(lspMethod);
      r := Ok(RequestMessage(id, lspMethod, params));
    }

    /** The bookkeeping of `request`: the counter's text becomes the id, the counter advances, and the id is recorded as pending. */
    method RecordRequest(lspMethod: string) returns (id: string)
      requires Valid()
      modifies this
      ensures Valid() && handlers == old(handlers) && Status() == old(Status())
      ensures id == IntToString(old(requestCounter)) && id !in old(pending)
      ensures requestCounter == old(requestCounter) + 1 && pending == old(pending)[id := lspMethod]
    {
      id := IntToString(requestCounter);
      RecordPending(pending, requestCounter, lspMethod);
      requestCounter := requestCounter + 1;
      pending := pending[id := lspMethod];
    }

    /** The clean-up of a request that timed out or failed: only its own entry goes. */
    method Abandon(id: string)
      requires Valid()
      modifies this
      ensures Valid() && pending == old(pending) - {id}
      ensures requestCounter == old(requestCounter) && handlers == old(handlers) && Status() == old(Status())
    {
      if id in pending {
        pending := pending - {id};
      }
    }

    /** `_handle_response`. */
    method HandleResponse(message: Json) returns (d: Delivery)
      requires Valid() && Has(message, "id")
      modifies this
      ensures Valid() && (pending, d) == ResponseEffect(old(pending), message)
      ensures requestCounter == old(requestCounter) && handlers == old(handlers) && Status() == old(Status())
    {
      var id := IdText(message.fields["id"]);
      if id.None? || id.value !in pending {
        return Ignored;
      }
      var lspMethod := pending[id.value];
      pending := pending - {id.value};
      if "error" in message.fields {
        var error := message.fields["error"];
        if !error.JObj? {
          return Resolved(id.value, lspMethod, Dropped);
        }
        d := Resolved(id.value, lspMethod, Failure(GetOr(error, "message", JStr("Unknown error"))));
      } else {
        d := Resolved(id.value, lspMethod, Success(GetOr(message, "result", JNull)));
      }
    }

    /** `_handle_progress_notification`, field by field. */
    method OnProgress(params: Json)
      modifies this
      ensures Status() == Progress(old(Status()), params)
      ensures requestCounter == old(requestCounter) && pending == old(pending) && handlers == old(handlers)
    {
      if !params.JObj? {
        return;
      }
      var value := GetOr(params, "value", JObj(map[]));
      if !value.JObj? {
        return;
      }
      var title := TextField(value, "title");
      var message := TextField(value, "message");
      if title.None? || message.None? || !Relevant(Lower(title.value), Lower(message.value)) {
        return;
      }
      var kind := GetOr(value, "kind", JStr(""));
      if kind == JStr("begin") {
        isIndexing := true;
        currentOperation := if "title" in value.fields then title.value else "Indexing";
        complete := false;
      } else if kind == JStr("report") {
        if isIndexing {
          var p := GetOr(value, "percentage", JNull);
          if p != JNull {
            percentage := Reported(p);
          }
          if message.value != "" {
            currentOperation := message.value;
          }
        }
      } else if kind == JStr("end") {
        if isIndexing {
          isIndexing := false;
          percentage := Hundred;
          complete := true;
        }
      }
    }

    /** The reset `wait_for_indexing` does before it waits. */
    method ResetIndexing()
      modifies this
      ensures Status() == Idle
      ensures requestCounter == old(requestCounter) && pending == old(pending) && handlers == old(handlers)
    {
      isIndexing, percentage, currentOperation, complete := false, Unset, "", false;
    }

    /**
     * `_handle_message`: a message with an id and no method is a response,
     * one with a method a notification, passed to its registered handler;
     * anything else, and anything that is not an object, changes nothing.
     */
    method HandleMessage(message: Json) returns (h: Handled)
      requires Valid()
      modifies this
      ensures Valid() && requestCounter == old(requestCounter) && handlers == old(handlers)
      ensures Has(message, "id") && !Has(message, "method") ==>
        h.AsResponse? && (pending, h.delivery) == ResponseEffect(old(pending), message) && Status() == old(Status())
      ensures Has(message, "method") ==> h == AsNotification(message.fields["method"]) && pending == old(pending)
      ensures Has(message, "method") && message.fields["method"] == JStr("$/progress") && "$/progress" in handlers ==>
        Status() == Progress(old(Status()), GetOr(message, "params", JObj(map[])))
      ensures Has(message, "method") && !(message.fields["method"].JStr? && message.fields["method"].s in handlers) ==>
        Status() == old(Status())
      ensures !Has(message, "method") && !Has(message, "id") ==> h == Unrecognised && pending == old(pending) && Status() == old(Status())
    {
      if Has(message, "id") && !Has(message, "method") {
        var d := HandleResponse(message);
        return AsResponse(d);
      }
      if !Has(message, "method") {
        return Unrecognised;
      }
      var lspMethod := message.fields["method"];
      var params := GetOr(message, "params", JObj(map[]));
      if lspMethod == JStr("$/progress") && "$/progress" in handlers {
        OnProgress(params);
      }
      h := AsNotification(lspMethod);
    }
  }

  // ---------------------------------------------------------------------------
  // Symbol kinds and URIs

  /** The names of LSP SymbolKind 1 to 26, in order. */
  const SymbolKindNames: seq<string> := [
    "File", "Module", "Namespace", "Package", "Class", "Method", "Property", "Field",
    "Constructor", "Enum", "Interface", "Function", "Variable", "Constant", "String",
    "Number", "Boolean", "Array", "Object", "Key", "Null", "EnumMember", "Struct",
    "Event", "Operator", "TypeParameter"]

  /** `_symbol_kind_to_name`. */
  function SymbolKindName(kind: int): string
  {
    if 1 <= kind <= |SymbolKindNames| then SymbolKindNames[kind - 1]
    else "Unknown(" + IntToString(kind) + ")"
  }

  /** No two kinds share a name, so the name identifies the kind, known or not. */
  lemma SymbolKindNameInjective(a: int, b: int)
    requires SymbolKindName(a) == SymbolKindName(b)
    ensures a == b
  {
    if 1 <= a <= 26 && 1 <= b <= 26 {
      KnownNamesDistinct(a, b);
    } else if !(1 <= a <= 26) && !(1 <= b <= 26) {
      var p := "Unknown(";
      assert SymbolKindName(a)[|p|..|SymbolKindName(a)| - 1] == IntToString(a);
      assert SymbolKindName(b)[|p|..|SymbolKindName(b)| - 1] == IntToString(b);
      IntToStringInjective(a, b);
    } else {
      KnownNameNotUnknown(if 1 <= a <= 26 then a else b);
    }
  }

  /** The 26 names all begin with a letter other than 'U'. */
  lemma KnownNameNotUnknown(k: int)
    requires 1 <= k <= 26
    ensures SymbolKindName(k)[0] != 'U'
  {
  }

  lemma KnownNamesDistinct(a: int, b: int)
    requires 1 <= a <= 26 && 1 <= b <= 26 && SymbolKindNames[a - 1] == SymbolKindNames[b - 1]
    ensures a == b
  {
  }

  const FileScheme: string := "file://"

  /** `path_to_uri`, of a path already resolved to an absolute one. */
  function PathToUri(resolved: string): string
  {
    FileScheme + resolved
  }

  /** `uri_to_path`: drops a "file://" prefix; any other text is taken as a path. */
  function UriToPath(uri: string): (r: string)
    ensures !StartsWith(uri, FileScheme) ==> r == uri
    ensures StartsWith(uri, FileScheme) ==> FileScheme + r == uri
  {
    if StartsWith(uri, FileScheme) then uri[7..] else uri
  }

  /** A path sent as a URI comes back as the same path. */
  lemma UriRoundTrip(resolved: string)
    ensures UriToPath(PathToUri(resolved)) == resolved
  {
    assert StartsWith(PathToUri(resolved), FileScheme);
    assert PathToUri(resolved)[7..] == resolved;
  }
}
