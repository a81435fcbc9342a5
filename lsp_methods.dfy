/**
 * `lsp_methods.py` apart from the call-hierarchy traversal: the set of
 * documents open in clangd, the translation between the tools' 1-based
 * positions and LSP's 0-based ones, the shaping of definition, reference and
 * hover answers, and the type line picked out of hover markdown. Paths are
 * taken as already resolved; file contents and line previews are inputs.
 */
module LspMethods {
  import opened Wrappers
  import opened PyStr
  import opened Json
  import opened Paths
  import Clangd
  import LspClient

  // ---------------------------------------------------------------------------
  // Open documents

  /** What `open_documents` records for an open file. */
  datatype OpenDocument = OpenDocument(version: int, languageId: string, size: nat)

  /** The languageId sent with `didOpen`: "c" for a `.c` file, "cpp" for everything else. */
  function LanguageId(path: string): (r: string)
    ensures r == "c" <==> Lower(Suffix(path)) == ".c"
    ensures r == "c" || r == "cpp"
  {
    if Lower(Suffix(path)) == ".c" then "c" else "cpp"
  }

  class DocumentManager {
    var open: map<string, OpenDocument>

    constructor ()
      ensures open == map[]
    {
      open := map[];
    }

    /**
     * `ensure_document_open`: False for a path already open; otherwise the
     * file (None when it does not exist) is announced with `didOpen` and
     * recorded with version 1. A refused notification leaves nothing recorded.
     */
    method EnsureOpen(path: string, file: Option<string>, process: Option<Clangd.ClangdProcess>) returns (r: Result<bool, string>)
      modifies this
      ensures path in old(open) ==> r == Ok(false) && open == old(open)
      ensures path !in old(open) && file.None? ==> r == Err("File not found: " + path) && open == old(open)
      ensures path !in old(open) && file.Some? && LspClient.Refusal(process).Some? ==>
        r == Err(LspClient.Refusal(process).value) && open == old(open)
      ensures path !in old(open) && file.Some? && LspClient.Refusal(process).None? ==>
        r == Ok(true) && open == old(open)[path := OpenDocument(1, LanguageId(path), |file.value|)]
    {
      if path in open {
        return Ok(false);
      }
      if file.None? {
        return Err("File not found: " + path);
      }
      var languageId := LanguageId(path);
      var sent := LspClient.Notify(process, "textDocument/didOpen", DidOpenParams(path, languageId, file.value));
      if sent.Err? {
        return Err(sent.error);
      }
      open := open[path := OpenDocument(1, languageId, |file.value|)];
      r := Ok(true);
    }

    /** `close_document`: nothing for a path that is not open; otherwise `didClose` and exactly that entry goes. */
    method Close(path: string, process: Option<Clangd.ClangdProcess>) returns (err: Option<string>)
      modifies this
      ensures path !in old(open) ==> err.None? && open == old(open)
      ensures path in old(open) && LspClient.Refusal(process).Some? ==> err == LspClient.Refusal(process) && open == old(open)
      ensures path in old(open) && LspClient.Refusal(process).None? ==> err.None? && open == old(open) - {path}
    {
      if path !in open {
        return None;
      }
      var sent := LspClient.Notify(process, "textDocument/didClose", JObj(map["textDocument" := JObj(map["uri" := JStr(LspClient.PathToUri(path))])]));
      if sent.Err? {
        return Some(sent.error);
      }
      open := open - {path};
      err := None;
    }

    /** `close_all_documents`: with clangd running every document is closed; otherwise the first close raises. */
    method CloseAll(process: Option<Clangd.ClangdProcess>) returns (err: Option<string>)
      modifies this
      ensures LspClient.Refusal(process).None? ==> err.None? && open == map[]
      ensures LspClient.Refusal(process).Some? ==> open == old(open)
      ensures LspClient.Refusal(process).Some? && old(open) != map[] ==> err == LspClient.Refusal(process)
    {
      err := None;
      while open != map[]
        invariant err.None? && (LspClient.Refusal(process).Some? ==> open == old(open))
        invariant open.Keys <= old(open).Keys
        decreases |open.Keys|
      {
        var path :| path in open;
        err := Close(path, process);
        if err.Some? {
          return;
        }
        assert open.Keys < old(open.Keys);
      }
    }
  }

  /** The params of `textDocument/didOpen`. */
  function DidOpenParams(path: string, languageId: string, text: string): Json
  {
    JObj(map["textDocument" := JObj(map[
      "uri" := JStr(LspClient.PathToUri(path)),
      "languageId" := JStr(languageId),
      "version" := JInt(1),
      "text" := JStr(text)])])
  }

  /** Closing whatever is open and then opening it again announces it afresh, still at version 1. */
  method ReopenExample(path: string, text: string) returns (first: Result<bool, string>, again: Result<bool, string>, after: Result<bool, string>)
    ensures first == Ok(true) && again == Ok(false) && after == Ok(true)
  {
    var running := Some(Clangd.ClangdProcess(7, None, 0));
    var docs := new DocumentManager();
    first := docs.EnsureOpen(path, Some(text), running);
    again := docs.EnsureOpen(path, Some(text), running);
    var _ := docs.Close(path, running);
    after := docs.EnsureOpen(path, Some(text), running);
  }

  // ---------------------------------------------------------------------------
  // Positions and locations

  /** An LSP Position: 0-based line and character. */
  datatype Position = Position(line: int, character: int)

  datatype Range = Range(start: Position, end: Position)

  /** An entry of an engine answer: a Location, or an object lacking "uri" or "range". */
  datatype EngineLocation = Located(uri: string, range: Range) | Unlocated

  /** A location as the tools report it: a path and 1-based line and column for both ends. */
  datatype Place = Place(file: string, line: int, column: int, endLine: int, endColumn: int)

  /** The position sent for a 1-based line and column. */
  function ToLsp(line: int, column: int): (p: Position)
    ensures FromLsp(p) == (line, column)
  {
    Position(line - 1, column - 1)
  }

  /** The 1-based line and column reported for an LSP position. */
  function FromLsp(p: Position): (int, int)
  {
    (p.line + 1, p.character + 1)
  }

  function PlaceOf(uri: string, range: Range): Place
  {
    var (line, column) := FromLsp(range.start);
    var (endLine, endColumn) := FromLsp(range.end);
    Place(LspClient.UriToPath(uri), line, column, endLine, endColumn)
  }

  /** A location the engine reports at exactly the requested position comes back at the requested line and column. */
  lemma RequestedPositionMapsBack(path: string, line: int, column: int, end: Position)
    ensures var p := PlaceOf(LspClient.PathToUri(path), Range(ToLsp(line, column), end));
      p.file == path && p.line == line && p.column == column
  {
    LspClient.UriRoundTrip(path);
  }

  /** The places of the entries that are Locations, in order. */
  function Places(locations: seq<EngineLocation>): (r: seq<Place>)
    ensures |r| <= |locations|
    ensures (forall k :: 0 <= k < |locations| ==> locations[k].Unlocated?) <==> r == []
  {
    if locations == [] then []
    else
      var rest := Places(locations[1..]);
      match locations[0]
      case Located(uri, range) => [PlaceOf(uri, range)] + rest
      case Unlocated => assert forall k :: 1 <= k < |locations| ==> locations[k] == locations[1..][k - 1]; rest
  }

  /** The answer to `textDocument/definition`: none, one Location or a list. */
  datatype DefinitionAnswer = NoAnswer | Single(location: EngineLocation) | Many(locations: seq<EngineLocation>)

  /** `get_definition`'s shaping: None when there is nothing usable, else the places. */
  function Definitions(answer: DefinitionAnswer): (r: Option<seq<Place>>)
    ensures r.Some? ==> |r.value| > 0
    ensures r.None? <==> match answer
      case NoAnswer => true
      case Single(l) => l.Unlocated?
      case Many(ls) => forall k :: 0 <= k < |ls| ==> ls[k].Unlocated?
  {
    var places := match answer
      case NoAnswer => []
      case Single(l) => Places([l])
      case Many(ls) => Places(ls);
    if places == [] then None else Some(places)
  }

  /** `MaxReferences`: the cap on `get_references`. */
  const MaxReferences := 150

  datatype Reference = Reference(place: Place, preview: string)

  /** The references for the first 150 entries that are Locations; `preview` reads a 0-based line of a file. */
  function References(locations: seq<EngineLocation>, preview: (string, int) -> string): (r: seq<Reference>)
    ensures |r| <= MaxReferences
    ensures forall k :: 0 <= k < |r| ==> r[k].preview == preview(r[k].place.file, r[k].place.line - 1)
    ensures Places(Take(locations, MaxReferences)) == ReferencePlaces(r)
  {
    WithPreviews(Take(locations, MaxReferences), preview)
  }

  function ReferencePlaces(refs: seq<Reference>): seq<Place>
  {
    if refs == [] then [] else [refs[0].place] + ReferencePlaces(refs[1..])
  }

  function WithPreviews(locations: seq<EngineLocation>, preview: (string, int) -> string): (r: seq<Reference>)
    ensures |r| <= |locations|
    ensures forall k :: 0 <= k < |r| ==> r[k].preview == preview(r[k].place.file, r[k].place.line - 1)
    ensures ReferencePlaces(r) == Places(locations)
  {
    if locations == [] then []
    else
      var rest := WithPreviews(locations[1..], preview);
      match locations[0]
      case Located(uri, range) =>
        var place := PlaceOf(uri, range);
        var r := [Reference(place, preview(place.file, range.start.line))] + rest;
        assert r[1..] == rest;
        r
      case Unlocated => rest
  }

  // ---------------------------------------------------------------------------
  // Hover

  /** The hover result the tools return; the range is passed through. */
  datatype Hover = Hover(typeInfo: string, documentation: string, range: Json)

  /** `s.split('\n')[0]`. */
  function FirstLine(s: string): string
  {
    Split(s, "\n")[0]
  }

  /** The strings of a MarkedString array: objects with "value", and plain strings; other items are skipped. */
  function MarkedParts(items: seq<Json>): (r: seq<Json>)
    ensures |r| <= |items|
  {
    if items == [] then []
    else
      var item := items[0];
      var head := if item.JObj? && "value" in item.fields then [item.fields["value"]]
        else if item.JStr? then [item] else [];
      head + MarkedParts(items[1..])
  }

  /** The texts of parts that are all strings, or None when `'\n'.join` would raise. */
  function Texts(parts: seq<Json>): (r: Option<seq<string>>)
    ensures r.Some? ==> |r.value| == |parts|
    ensures r.Some? ==> forall k :: 0 <= k < |parts| ==> parts[k] == JStr(r.value[k])
  {
    if parts == [] then Some([])
    else if !parts[0].JStr? then None
    else
      match Texts(parts[1..])
      case None => None
      case Some(rest) => Some([parts[0].s] + rest)
  }

  /**
   * `get_hover`'s shaping of a hover answer into type and documentation
   * (both stripped), or None when the answer or its contents are empty.
   * Err stands for the exceptions raised on malformed answers.
   */
  function HoverOf(result: Json): (r: Result<Option<Hover>, string>)
    ensures r == Ok(None) <==> !Truthy(result) || (result.JObj? && !Truthy(GetOr(result, "contents", JNull)))
    ensures r.Ok? && r.value.Some? ==> result.JObj? && r.value.value.range == GetOr(result, "range", JObj(map[]))
  {
    if !Truthy(result) then Ok(None)
    else if !result.JObj? then Err("AttributeError: hover result is not an object")
    else
      var contents := GetOr(result, "contents", JNull);
      if !Truthy(contents) then Ok(None)
      else
        var texts := HoverTexts(contents);
        match texts
        case Err(e) => Err(e)
        case Ok((typeInfo, documentation)) =>
          Ok(Some(Hover(Strip(typeInfo), Strip(documentation), GetOr(result, "range", JObj(map[])))))
  }

  /** The type line and documentation of non-empty hover contents, before stripping. */
  function HoverTexts(contents: Json): (r: Result<(string, string), string>)
    requires Truthy(contents)
    ensures contents.JStr? ==> r == Ok((FirstLine(contents.s), contents.s))
  {
    match contents
    case JObj(fields) =>
      var kind := GetOr(contents, "kind", JNull);
      if kind == JStr("markdown") || kind == JStr("plaintext") then
        if "value" !in fields then Err("KeyError: 'value'")
        else if !fields["value"].JStr? then Err("AttributeError: hover value is not a string")
        else
          var doc := fields["value"].s;
          if kind == JStr("markdown") then Ok((ExtractTypeFromMarkdown(doc), doc))
          else Ok((if doc != "" then FirstLine(doc) else "", doc))
      else Ok(("", ""))
    case JStr(s) => Ok((FirstLine(s), s))
    case JArr(items) =>
      (match Texts(MarkedParts(items))
       case None => Err("TypeError: sequence item is not a string")
       case Some(parts) => Ok((if parts != [] then parts[0] else "", Join(parts, "\n"))))
    case JInt(i) => var s := IntToString(i); Ok((FirstLine(s), s))
    case JBool(_) => Ok(("True", "True"))
    case JNull => Ok(("", ""))
  }

  /** Hover contents that are a plain string give that string, stripped, and its stripped first line. */
  lemma PlainStringHover(result: Json, s: string)
    requires result.JObj? && Has(result, "contents") && result.fields["contents"] == JStr(s) && s != ""
    ensures HoverOf(result) == Ok(Some(Hover(Strip(FirstLine(s)), Strip(s), GetOr(result, "range", JObj(map[])))))
  {
  }

  // ---------------------------------------------------------------------------
  // The type line of hover markdown

  /** A stripped line that starts a code fence. */
  predicate IsFence(line: string)
  {
    StartsWith(line, "```")
  }

  /** A stripped line taken as type information: not empty, not a fence, not a heading or a bullet. */
  predicate TypeLine(line: string)
  {
    line != "" && !IsFence(line) && line[0] != '#' && line[0] != '*'
  }

  /** A stripped line taken when no line qualifies as type information. */
  predicate FallbackLine(line: string)
  {
    line != "" && !IsFence(line) && line[0] != '#'
  }

  /** The line test of the first pass, or with `fallback` of the second. */
  predicate Wanted(line: string, fallback: bool)
  {
    if fallback then FallbackLine(line) else TypeLine(line)
  }

  /** The index of the first line at or after `i` that is wanted, or -1. */
  function FirstLineFrom(lines: seq<string>, i: nat, fallback: bool): (r: int)
    requires i <= |lines|
    ensures r == -1 || (i <= r < |lines| && Wanted(lines[r], fallback))
    ensures forall k :: i <= k < |lines| && (r == -1 || k < r) ==> !Wanted(lines[k], fallback)
    decreases |lines| - i
  {
    if i == |lines| then -1
    else if Wanted(lines[i], fallback) then i
    else FirstLineFrom(lines, i + 1, fallback)
  }

  /** Every line with surrounding whitespace removed. */
  function StripAll(lines: seq<string>): (r: seq<string>)
    ensures |r| == |lines| && forall k :: 0 <= k < |r| ==> r[k] == Strip(lines[k])
  {
    seq(|lines|, k requires 0 <= k < |lines| => Strip(lines[k]))
  }

  /**
   * `_extract_type_from_markdown`: the first stripped line that is type
   * information; failing that the first one that is neither empty, a fence
   * nor a heading; failing that "".
   */
  function ExtractTypeFromMarkdown(markdown: string): string
  {
    TypeOfLines(StripAll(Split(markdown, "\n")))
  }

  /** The choice among already stripped lines. */
  function TypeOfLines(lines: seq<string>): string
  {
    var t := FirstLineFrom(lines, 0, false);
    if t >= 0 then lines[t]
    else
      var f := FirstLineFrom(lines, 0, true);
      if f >= 0 then lines[f] else ""
  }

  /** When some stripped line is type information, the result is the first such line. */
  lemma ExtractTypePrefersTypeLine(lines: seq<string>, k: nat)
    requires k < |lines| && TypeLine(lines[k])
    ensures var r := TypeOfLines(lines);
      exists t :: 0 <= t <= k && lines[t] == r && TypeLine(r)
        && forall j :: 0 <= j < t ==> !TypeLine(lines[j])
  {
    var t := FirstLineFrom(lines, 0, false);
    assert Wanted(lines[k], false);
    assert t >= 0 && Wanted(lines[t], false);
    assert forall j :: 0 <= j < t ==> !Wanted(lines[j], false);
  }

  /**
   * The fallback: when no stripped line is type information, the result is
   * the first line that is not empty, a fence or a heading, and "" exactly
   * when there is none. In every case a nonempty result is such a line.
   */
  lemma ExtractTypeFallsBack(lines: seq<string>)
    ensures var r := TypeOfLines(lines);
      && (r != "" ==> FallbackLine(r) && r in lines)
      && ((forall k :: 0 <= k < |lines| ==> !FallbackLine(lines[k])) ==> r == "")
    ensures var r := TypeOfLines(lines);
      (forall k :: 0 <= k < |lines| ==> !TypeLine(lines[k])) && (exists k :: 0 <= k < |lines| && FallbackLine(lines[k])) ==>
        exists t :: 0 <= t < |lines| && lines[t] == r && FallbackLine(r) && forall j :: 0 <= j < t ==> !FallbackLine(lines[j])
  {
    var t := FirstLineFrom(lines, 0, false);
    var f := FirstLineFrom(lines, 0, true);
    if t >= 0 {
      assert Wanted(lines[t], false);
    } else if f >= 0 {
      assert Wanted(lines[f], true);
      assert forall j :: 0 <= j < f ==> !Wanted(lines[j], true);
    } else {
      forall k | 0 <= k < |lines| ensures !FallbackLine(lines[k]) {
        assert !Wanted(lines[k], true);
      }
    }
  }
}
