/**
 * The context gathered for a summary at each level: the hover text
 * ("minimal"), the lines around the symbol with the enclosing class and
 * function ("local"), and the whole file with its includes and the headers
 * they name ("full").
 *
 * The hover answer, file reads (the empty string when a read fails), the
 * existence test for include candidates and the two line patterns that
 * recognise a class and a function signature are parameters.
 */
module ContextProvider {
  import opened Wrappers
  import opened PyStr
  import Paths
  import AiCache
  import Config
  import LspMethods
  import LlmProvider

  /**
   * The widths of the backward scans, for a class and for a function signature: with
   * the 1-based target line `t`, the scan examines the 0-based indices above `t - width`
   * and below `t`, that is the target line and the `width - 2` lines above it.
   */
  const ClassWindow := 50
  const SignatureWindow := 10
  const MaxImports := 20
  /** Includes whose headers are read, and characters kept of each header. */
  const MaxHeaderIncludes := 5
  const MaxHeaderChars := 5000
  /** Leading lines of the hover text searched for "kind: name". */
  const NameLines := 3
  const IncludeDirs := ["include", "src", "inc", "headers"]

  /** `ContextData`; the optional fields start as None. */
  datatype ContextData = ContextData(primaryContent: string, symbolName: string, symbolKind: string,
                                     contextLevel: string, source: string, surroundingCode: Option<string>,
                                     classContext: Option<string>, functionSignature: Option<string>,
                                     relatedHeaders: Option<seq<string>>, imports: Option<seq<string>>)

  // ---------------------------------------------------------------------------
  // Backward scans

  /**
   * `for i in range(i, stop, -1)` over the stripped lines: the line nearest
   * the start that `accept`s, or an IndexError when the first index is past
   * the end.
   */
  function ScanBack(lines: seq<string>, i: int, stop: int, accept: string -> bool): (r: Result<Option<string>, string>)
    requires stop >= -1
    ensures r.Err? <==> i > stop && i >= |lines|
    ensures r.Ok? && r.value.Some? ==> accept(r.value.value)
    decreases i - stop
  {
    if i <= stop then Ok(None)
    else if i >= |lines| then Err("IndexError: list index out of range")
    else if accept(lines[i]) then Ok(Some(lines[i]))
    else ScanBack(lines, i - 1, stop, accept)
  }

  /** A line found is the nearest accepted one at or below `i` and above `stop`. */
  lemma {:induction false} ScanBackFound(lines: seq<string>, i: int, stop: int, accept: string -> bool)
    requires stop >= -1 && ScanBack(lines, i, stop, accept).Ok? && ScanBack(lines, i, stop, accept).value.Some?
    ensures exists k :: stop < k <= i < |lines| && lines[k] == ScanBack(lines, i, stop, accept).value.value
                        && forall j :: k < j <= i ==> !accept(lines[j])
    decreases i - stop
  {
    if !accept(lines[i]) {
      ScanBackFound(lines, i - 1, stop, accept);
      var k :| stop < k <= i - 1 < |lines| && lines[k] == ScanBack(lines, i - 1, stop, accept).value.value
               && forall j :: k < j <= i - 1 ==> !accept(lines[j]);
      assert forall j :: k < j <= i ==> !accept(lines[j]);
    }
  }

  /** Finding nothing means every line at or below `i` and above `stop` was examined and rejected. */
  lemma {:induction false} ScanBackNone(lines: seq<string>, i: int, stop: int, accept: string -> bool)
    requires stop >= -1 && ScanBack(lines, i, stop, accept) == Ok(None)
    ensures forall k :: stop < k <= i ==> k < |lines| && !accept(lines[k])
    decreases i - stop
  {
    if i > stop {
      ScanBackNone(lines, i - 1, stop, accept);
    }
  }

  /** Lines above `j` that are all rejected are passed over: the scan goes on from `j`. */
  lemma {:induction false} ScanBackRejected(lines: seq<string>, i: int, j: int, stop: int, accept: string -> bool)
    requires -1 <= stop <= j <= i < |lines|
    requires forall k :: j < k <= i ==> !accept(lines[k])
    ensures ScanBack(lines, i, stop, accept) == ScanBack(lines, j, stop, accept)
    decreases i - j
  {
    if i > j {
      ScanBackRejected(lines, i - 1, j, stop, accept);
    }
  }

  /** The scan's exclusive end as written, `max(0, target - window)`: index 0 is never reached. */
  function StopAsWritten(target: int, window: int): int
  {
    if target - window > 0 then target - window else 0
  }

  /** The exclusive end that lets the scan reach the file's first line. */
  function Stop(target: int, window: int): (r: int)
    ensures r >= -1
  {
    if target - window > -1 then target - window else -1
  }

  /** A signature line is one the pattern accepts that is not a `//` comment. */
  function SignatureLine(pattern: string -> bool): string -> bool
  {
    line => pattern(line) && !StartsWith(line, "//")
  }

  /** `_find_function_signature` as written. */
  function FindSignatureAsWritten(lines: seq<string>, target: int, pattern: string -> bool): Result<Option<string>, string>
  {
    ScanBack(LspMethods.StripAll(lines), target - 1, StopAsWritten(target, SignatureWindow), SignatureLine(pattern))
  }

  /** `_find_function_signature` reaching the first line: a signature line that is not a comment. */
  function FindFunctionSignature(lines: seq<string>, target: int, pattern: string -> bool): (r: Result<Option<string>, string>)
    ensures r.Ok? && r.value.Some? ==> !StartsWith(r.value.value, "//") && pattern(r.value.value)
  {
    ScanBack(LspMethods.StripAll(lines), target - 1, Stop(target, SignatureWindow), SignatureLine(pattern))
  }

  /** A scan from the target line up to `window` lines: the line found is the nearest accepted one at or above the target. */
  lemma ScanWindowFound(lines: seq<string>, target: int, window: int, accept: string -> bool)
    requires ScanBack(LspMethods.StripAll(lines), target - 1, Stop(target, window), accept).Ok?
    requires ScanBack(LspMethods.StripAll(lines), target - 1, Stop(target, window), accept).value.Some?
    ensures exists k :: target - window < k < target && 0 <= k < |lines|
                        && Strip(lines[k]) == ScanBack(LspMethods.StripAll(lines), target - 1, Stop(target, window), accept).value.value
                        && forall j :: k < j < target ==> !accept(Strip(lines[j]))
  {
    var stripped := LspMethods.StripAll(lines);
    ScanBackFound(stripped, target - 1, Stop(target, window), accept);
  }

  /** A scan that finds nothing has rejected every line from the target up to `window` lines above it, down to the first. */
  lemma ScanWindowNone(lines: seq<string>, target: int, window: int, accept: string -> bool)
    requires ScanBack(LspMethods.StripAll(lines), target - 1, Stop(target, window), accept) == Ok(None)
    ensures forall k :: 0 <= k < target && target - window < k ==> !accept(Strip(lines[k]))
  {
    var stripped := LspMethods.StripAll(lines);
    ScanBackNone(stripped, target - 1, Stop(target, window), accept);
  }

  /** The signature is looked for among the target line and the 8 above it (1-based target), down to the first line: the nearest one is found, and finding none means none is there. */
  lemma SignatureScanWindow(lines: seq<string>, target: int, pattern: string -> bool)
    requires FindFunctionSignature(lines, target, pattern).Ok?
    ensures var r := FindFunctionSignature(lines, target, pattern);
      (r.value.Some? ==>
         exists k :: target - SignatureWindow < k < target && 0 <= k < |lines| && Strip(lines[k]) == r.value.value
                     && forall j :: k < j < target ==> !SignatureLine(pattern)(Strip(lines[j])))
      && (r.value.None? ==>
            forall k :: 0 <= k < target && target - SignatureWindow < k ==> !SignatureLine(pattern)(Strip(lines[k])))
  {
    if FindFunctionSignature(lines, target, pattern).value.Some? {
      ScanWindowFound(lines, target, SignatureWindow, SignatureLine(pattern));
    } else {
      ScanWindowNone(lines, target, SignatureWindow, SignatureLine(pattern));
    }
  }

  /** `_find_class_definition` reaching the first line: a line the class pattern accepts. */
  function FindClassDefinition(lines: seq<string>, target: int, pattern: string -> bool): (r: Result<Option<string>, string>)
    ensures r.Ok? && r.value.Some? ==> pattern(r.value.value)
  {
    ScanBack(LspMethods.StripAll(lines), target - 1, Stop(target, ClassWindow), pattern)
  }

  /** `_find_class_definition` as written. */
  function FindClassAsWritten(lines: seq<string>, target: int, pattern: string -> bool): Result<Option<string>, string>
  {
    ScanBack(LspMethods.StripAll(lines), target - 1, StopAsWritten(target, ClassWindow), pattern)
  }

  /** The class is looked for among the target line and the 48 above it (1-based target), down to the first line. */
  lemma ClassScanWindow(lines: seq<string>, target: int, pattern: string -> bool)
    requires FindClassDefinition(lines, target, pattern).Ok?
    ensures var r := FindClassDefinition(lines, target, pattern);
      (r.value.Some? ==>
         exists k :: target - ClassWindow < k < target && 0 <= k < |lines| && Strip(lines[k]) == r.value.value
                     && forall j :: k < j < target ==> !pattern(Strip(lines[j])))
      && (r.value.None? ==> forall k :: 0 <= k < target && target - ClassWindow < k ==> !pattern(Strip(lines[k])))
  {
    if FindClassDefinition(lines, target, pattern).value.Some? {
      ScanWindowFound(lines, target, ClassWindow, pattern);
    } else {
      ScanWindowNone(lines, target, ClassWindow, pattern);
    }
  }

  /** Queried at line 1 (1-based), the file's first line holding the signature, the scan as written finds nothing; the corrected scan finds that line. */
  lemma FirstLineNeverScanned(lines: seq<string>, pattern: string -> bool)
    requires |lines| >= 1 && pattern(Strip(lines[0])) && !StartsWith(Strip(lines[0]), "//")
    ensures FindSignatureAsWritten(lines, 1, pattern) == Ok(None)
    ensures FindFunctionSignature(lines, 1, pattern) == Ok(Some(Strip(lines[0])))
  {
  }

  /** With the class header on the file's first line and a 1-based target line from 1 to 49 with no other class line between, the class scan as written finds nothing; the corrected scan finds that line. */
  lemma ClassFirstLineNeverScanned(lines: seq<string>, target: int, pattern: string -> bool)
    requires 1 <= target <= |lines| && target < ClassWindow && pattern(Strip(lines[0]))
    requires forall k :: 0 < k < target ==> !pattern(Strip(lines[k]))
    ensures FindClassAsWritten(lines, target, pattern) == Ok(None)
    ensures FindClassDefinition(lines, target, pattern) == Ok(Some(Strip(lines[0])))
  {
    var stripped := LspMethods.StripAll(lines);
    ScanBackRejected(stripped, target - 1, 0, 0, pattern);
    ScanBackRejected(stripped, target - 1, 0, -1, pattern);
  }

  // ---------------------------------------------------------------------------
  // Local context

  /** What `_extract_local_context` returns. */
  datatype LocalInfo = LocalInfo(surrounding: string, classDefinition: Option<string>, functionSignature: Option<string>)

  /** `_extract_local_context`: the window of 25 lines either side, the class and the signature; fails when the target is past the last line. */
  function ExtractLocalContext(content: string, line: int, classPattern: string -> bool, sigPattern: string -> bool)
    : (r: Result<LocalInfo, string>)
    ensures r.Err? <==> line > |Split(content, "\n")|
    ensures r.Ok? ==> r.value.surrounding == Join(AiCache.LocalWindow(Split(content, "\n"), line), "\n")
  {
    var lines := Split(content, "\n");
    var surrounding := Join(AiCache.LocalWindow(lines, line), "\n");
    match FindClassDefinition(lines, line, classPattern)
    case Err(e) => Err(e)
    case Ok(classDef) =>
      match FindFunctionSignature(lines, line, sigPattern)
      case Err(e) => Err(e)
      case Ok(sig) => Ok(LocalInfo(surrounding, classDef, sig))
  }

  // ---------------------------------------------------------------------------
  // Includes and related headers

  /** The stripped lines that are `#include` directives, in file order. */
  function IncludeLines(stripped: seq<string>): (r: seq<string>)
    ensures |r| <= |stripped|
    ensures forall k :: 0 <= k < |r| ==> StartsWith(r[k], "#include") && r[k] in stripped
    ensures forall k :: 0 <= k < |stripped| && StartsWith(stripped[k], "#include") ==> stripped[k] in r
  {
    if stripped == [] then []
    else (if StartsWith(stripped[0], "#include") then [stripped[0]] else []) + IncludeLines(stripped[1..])
  }

  /** Include lines of consecutive parts of a file come out part after part. */
  lemma {:induction false} IncludeLinesAppend(a: seq<string>, b: seq<string>)
    ensures IncludeLines(a + b) == IncludeLines(a) + IncludeLines(b)
    decreases |a|
  {
    if a == [] {
      assert a + b == b;
    } else {
      assert (a + b)[0] == a[0];
      assert (a + b)[1..] == a[1..] + b;
      IncludeLinesAppend(a[1..], b);
    }
  }

  /** `_extract_imports`: the first 20 `#include` directives of the file, stripped. */
  function ExtractImports(content: string): (r: seq<string>)
    ensures |r| <= MaxImports
    ensures r <= IncludeLines(LspMethods.StripAll(Split(content, "\n")))
    ensures |IncludeLines(LspMethods.StripAll(Split(content, "\n")))| <= MaxImports ==>
      r == IncludeLines(LspMethods.StripAll(Split(content, "\n")))
  {
    Take(IncludeLines(LspMethods.StripAll(Split(content, "\n"))), MaxImports)
  }

  /** The end of the run of whitespace starting at `i`. */
  function SkipSpaces(s: string, i: nat): (r: nat)
    requires i <= |s|
    ensures i <= r <= |s| && (r < |s| ==> !IsSpace(s[r]))
    ensures forall k :: i <= k < r ==> IsSpace(s[k])
    decreases |s| - i
  {
    if i < |s| && IsSpace(s[i]) then SkipSpaces(s, i + 1) else i
  }

  /** The first index at or after `i` holding '>' or '"', or -1. */
  function Closer(s: string, i: nat): (r: int)
    requires i <= |s|
    ensures r == -1 || (i <= r < |s| && (s[r] == '>' || s[r] == '"'))
    ensures forall k :: i <= k < |s| && (r == -1 || k < r) ==> s[k] != '>' && s[k] != '"'
    decreases |s| - i
  {
    if i == |s| then -1 else if s[i] == '>' || s[i] == '"' then i else Closer(s, i + 1)
  }

  /** `#include\s*[<"](.*?)[>"]` matched at position `p`: the name between the brackets. */
  function IncludeNameAt(line: string, p: nat): Option<string>
    requires p <= |line|
  {
    if !(p + 8 <= |line| && line[p..p + 8] == "#include") then None
    else
      var q := SkipSpaces(line, p + 8);
      if q < |line| && (line[q] == '<' || line[q] == '"') then
        var e := Closer(line, q + 1);
        if e < 0 then None else Some(line[q + 1..e])
      else None
  }

  /** `re.search` of the include pattern: the match at the leftmost position where there is one. */
  function IncludeName(line: string, p: nat): (r: Option<string>)
    requires p <= |line|
    ensures r.Some? ==> '>' !in r.value && '"' !in r.value
    decreases |line| - p
  {
    if IncludeNameAt(line, p).Some? then
      var q := SkipSpaces(line, p + 8);
      var e := Closer(line, q + 1);
      assert forall k :: q + 1 <= k < e ==> line[k] != '>' && line[k] != '"';
      IncludeNameAt(line, p)
    else if p == |line| then None
    else IncludeName(line, p + 1)
  }

  /** The places `_resolve_include_path` tries, in order: beside the file, the project root, then four include directories. */
  function IncludeCandidates(root: string, file: string, name: string): (r: seq<string>)
    ensures |r| == 2 + |IncludeDirs|
  {
    [Paths.JoinPath(Paths.JoinPath(root, Paths.Parent(file)), name), Paths.JoinPath(root, name)]
    + seq(|IncludeDirs|, k requires 0 <= k < |IncludeDirs| => Paths.JoinPath(Paths.JoinPath(root, IncludeDirs[k]), name))
  }

  /** `_resolve_include_path`: the first candidate that exists, or None when the line names no file. */
  function ResolveInclude(line: string, root: string, file: string, present: string -> bool): Option<string>
  {
    match IncludeName(line, 0)
    case None => None
    case Some(name) => Config.FirstExisting(IncludeCandidates(root, file, name), present)
  }

  /** One header's entry: the `#include` line as a comment, then at most 5000 characters of the header. */
  function HeaderEntry(inc: string, text: string): (r: string)
    ensures StartsWith(r, "// " + inc + "\n")
    ensures |r| <= |"// " + inc + "\n"| + MaxHeaderChars
  {
    "// " + inc + "\n" + Take(text, MaxHeaderChars)
  }

  /** The entry an `#include` line contributes: none when it does not resolve or the header reads as empty. */
  function HeaderOf(inc: string, root: string, file: string, present: string -> bool, read: string -> string)
    : (r: seq<string>)
    ensures |r| <= 1
    ensures |r| == 1 ==>
      (ResolveInclude(inc, root, file, present).Some?
       && r[0] == HeaderEntry(inc, read(Paths.JoinPath(root, ResolveInclude(inc, root, file, present).value))))
  {
    match ResolveInclude(inc, root, file, present)
    case None => []
    case Some(path) =>
      var text := read(Paths.JoinPath(root, path));
      if text == "" then [] else [HeaderEntry(inc, text)]
  }

  /** The entries of a list of includes, in order. */
  function HeadersOf(includes: seq<string>, root: string, file: string, present: string -> bool, read: string -> string)
    : (r: seq<string>)
    ensures |r| <= |includes|
  {
    if includes == [] then []
    else
      HeadersOf(includes[..|includes| - 1], root, file, present, read)
      + HeaderOf(includes[|includes| - 1], root, file, present, read)
  }

  /** The entry is the header of one of the includes, cut to 5000 characters and labelled with its include line. */
  predicate EntryOf(entry: string, includes: seq<string>, root: string, file: string, present: string -> bool,
                    read: string -> string)
  {
    exists i :: 0 <= i < |includes| && ResolveInclude(includes[i], root, file, present).Some?
                && entry == HeaderEntry(includes[i], read(Paths.JoinPath(root, ResolveInclude(includes[i], root, file, present).value)))
  }

  /** Every entry comes from one of the includes. */
  lemma {:induction false} HeadersFromIncludes(includes: seq<string>, root: string, file: string,
                                                present: string -> bool, read: string -> string)
    ensures forall k :: 0 <= k < |HeadersOf(includes, root, file, present, read)| ==>
      EntryOf(HeadersOf(includes, root, file, present, read)[k], includes, root, file, present, read)
  {
    if includes != [] {
      var init := includes[..|includes| - 1];
      var rest := HeadersOf(init, root, file, present, read);
      var last := HeaderOf(includes[|includes| - 1], root, file, present, read);
      HeadersFromIncludes(init, root, file, present, read);
      var r := HeadersOf(includes, root, file, present, read);
      assert r == rest + last;
      forall k | 0 <= k < |r| ensures EntryOf(r[k], includes, root, file, present, read) {
        if k < |rest| {
          assert EntryOf(rest[k], init, root, file, present, read);
          var i :| 0 <= i < |init| && ResolveInclude(init[i], root, file, present).Some?
                   && rest[k] == HeaderEntry(init[i], read(Paths.JoinPath(root, ResolveInclude(init[i], root, file, present).value)));
          assert init[i] == includes[i];
          assert r[k] == rest[k];
        } else {
          assert r[k] == last[0];
          assert includes[|includes| - 1] in includes;
        }
      }
    }
  }

  /** The loop of `_get_related_headers`: each include that resolves to a readable header adds its entry. */
  method CollectHeaders(includes: seq<string>, root: string, file: string, present: string -> bool, read: string -> string)
    returns (headers: seq<string>)
    ensures headers == HeadersOf(includes, root, file, present, read)
  {
    headers := [];
    var i := 0;
    while i < |includes|
      invariant 0 <= i <= |includes|
      invariant headers == HeadersOf(includes[..i], root, file, present, read)
    {
      assert includes[..i + 1][..i] == includes[..i];
      var entry := ReadHeader(includes[i], root, file, present, read);
      headers := headers + entry;
      i := i + 1;
    }
    assert includes[..|includes|] == includes;
  }

  /** One round of `_get_related_headers`' loop: the entry of one include, if it resolves to a non-empty header. */
  method ReadHeader(inc: string, root: string, file: string, present: string -> bool, read: string -> string)
    returns (entry: seq<string>)
    ensures entry == HeaderOf(inc, root, file, present, read)
  {
    entry := [];
    var path := ResolveInclude(inc, root, file, present);
    if path.Some? {
      var text := read(Paths.JoinPath(root, path.value));
      if text != "" {
        entry := [HeaderEntry(inc, text)];
      }
    }
  }

  /** `_get_related_headers`: the entries of the first five includes. */
  method RelatedHeaders(file: string, content: string, root: string, present: string -> bool, read: string -> string)
    returns (headers: seq<string>)
    ensures headers == HeadersOf(Take(ExtractImports(content), MaxHeaderIncludes), root, file, present, read)
    ensures |headers| <= MaxHeaderIncludes
  {
    headers := CollectHeaders(Take(ExtractImports(content), MaxHeaderIncludes), root, file, present, read);
  }

  // ---------------------------------------------------------------------------
  // Symbol kind

  /** The kinds recognised. */
  datatype Kind = Function | Class | Template | Macro | Variable | Struct | Enum | Typedef

  function KindName(k: Kind): string
  {
    match k
    case Function => "function"
    case Class => "class"
    case Template => "template"
    case Macro => "macro"
    case Variable => "variable"
    case Struct => "struct"
    case Enum => "enum"
    case Typedef => "typedef"
  }

  /** The order in which the kinds are checked. */
  const KindOrder := [Function, Class, Template, Macro, Variable, Struct, Enum, Typedef]

  /** The words that reveal each kind: its name in any case, plus '(' for a function, "#define" for a macro and "var" for a variable. */
  predicate KindShows(k: Kind, doc: string)
  {
    match k
    case Function => Contains(Lower(doc), "function") || '(' in doc
    case Macro => Contains(Lower(doc), "macro") || Contains(doc, "#define")
    case Variable => Contains(Lower(doc), "variable") || Contains(Lower(doc), "var")
    case Class => Contains(Lower(doc), "class")
    case Template => Contains(Lower(doc), "template")
    case Struct => Contains(Lower(doc), "struct")
    case Enum => Contains(Lower(doc), "enum")
    case Typedef => Contains(Lower(doc), "typedef")
  }

  /** `_extract_symbol_kind`. */
  function ExtractSymbolKind(doc: string): (r: string)
    ensures '(' in doc ==> r == "function"
  {
    var lower := Lower(doc);
    if Contains(lower, "function") || '(' in doc then "function"
    else if Contains(lower, "class") then "class"
    else if Contains(lower, "template") then "template"
    else if Contains(lower, "macro") || Contains(doc, "#define") then "macro"
    else if Contains(lower, "variable") || Contains(lower, "var") then "variable"
    else if Contains(lower, "struct") then "struct"
    else if Contains(lower, "enum") then "enum"
    else if Contains(lower, "typedef") then "typedef"
    else "symbol"
  }

  /** The reference reading of the kind: the first of `kinds` the text shows. */
  function FirstShown(kinds: seq<Kind>, doc: string): Option<Kind>
  {
    if kinds == [] then None
    else if KindShows(kinds[0], doc) then Some(kinds[0])
    else FirstShown(kinds[1..], doc)
  }

  /** `FirstShown` gives the first kind shown, and nothing exactly when none is. */
  lemma {:induction false} FirstShownIsFirst(kinds: seq<Kind>, doc: string)
    ensures var r := FirstShown(kinds, doc);
      (r.None? <==> forall i :: 0 <= i < |kinds| ==> !KindShows(kinds[i], doc))
      && (r.Some? ==>
            exists i :: 0 <= i < |kinds| && kinds[i] == r.value && KindShows(r.value, doc)
                        && forall j :: 0 <= j < i ==> !KindShows(kinds[j], doc))
  {
    if kinds != [] && !KindShows(kinds[0], doc) {
      var rest := kinds[1..];
      FirstShownIsFirst(rest, doc);
      if FirstShown(rest, doc).Some? {
        var i :| 0 <= i < |rest| && rest[i] == FirstShown(rest, doc).value && KindShows(rest[i], doc)
                 && forall j :: 0 <= j < i ==> !KindShows(rest[j], doc);
        assert kinds[i + 1] == rest[i];
        forall j | 0 <= j < i + 1 ensures !KindShows(kinds[j], doc) {
          if j > 0 { assert kinds[j] == rest[j - 1]; }
        }
      } else {
        forall i | 0 <= i < |kinds| ensures !KindShows(kinds[i], doc) {
          if i > 0 { assert kinds[i] == rest[i - 1]; }
        }
      }
    }
  }

  /** The kind extracted is the name of the first kind in `KindOrder` that the text shows, and "symbol" when it shows none. */
  lemma SymbolKindFirstMatch(doc: string)
    ensures ExtractSymbolKind(doc) == (match FirstShown(KindOrder, doc) case None => "symbol" case Some(k) => KindName(k))
  {
    assert FirstShown([Typedef], doc) == if KindShows(Typedef, doc) then Some(Typedef) else None;
    assert FirstShown([Enum, Typedef], doc) == if KindShows(Enum, doc) then Some(Enum) else FirstShown([Typedef], doc);
    assert FirstShown([Struct, Enum, Typedef], doc) == if KindShows(Struct, doc) then Some(Struct) else FirstShown([Enum, Typedef], doc);
    assert FirstShown([Variable, Struct, Enum, Typedef], doc) == if KindShows(Variable, doc) then Some(Variable) else FirstShown([Struct, Enum, Typedef], doc);
    assert FirstShown([Macro, Variable, Struct, Enum, Typedef], doc) == if KindShows(Macro, doc) then Some(Macro) else FirstShown([Variable, Struct, Enum, Typedef], doc);
    assert FirstShown([Template, Macro, Variable, Struct, Enum, Typedef], doc) == if KindShows(Template, doc) then Some(Template) else FirstShown([Macro, Variable, Struct, Enum, Typedef], doc);
    assert FirstShown([Class, Template, Macro, Variable, Struct, Enum, Typedef], doc) == if KindShows(Class, doc) then Some(Class) else FirstShown([Template, Macro, Variable, Struct, Enum, Typedef], doc);
    assert FirstShown([Function, Class, Template, Macro, Variable, Struct, Enum, Typedef], doc) == if KindShows(Function, doc) then Some(Function) else FirstShown([Class, Template, Macro, Variable, Struct, Enum, Typedef], doc);
  }

  // ---------------------------------------------------------------------------
  // Symbol name

  predicate IsIdentStart(c: char)
  {
    'a' <= c <= 'z' || 'A' <= c <= 'Z' || c == '_'
  }

  predicate IsWordChar(c: char)
  {
    IsIdentStart(c) || '0' <= c <= '9'
  }

  /** `str.isidentifier` on ASCII text. */
  predicate IsIdentifier(s: string)
  {
    |s| > 0 && IsIdentStart(s[0]) && forall k :: 0 <= k < |s| ==> IsWordChar(s[k])
  }

  /** `re.sub(r'\(.*\).*', '', s)`: everything from the first '(' that a later ')' closes is removed. */
  function CutParams(s: string): (r: string)
    ensures r <= s
  {
    var p := Find(s, "(");
    if p < 0 then s
    else if Find(s[p + 1..], ")") >= 0 then s[..p]
    else s
  }

  /** The end of the run of non-whitespace starting at `i`. */
  function WordEnd(s: string, i: nat): (r: nat)
    requires i <= |s|
    ensures i <= r <= |s|
    decreases |s| - i
  {
    if i < |s| && !IsSpace(s[i]) then WordEnd(s, i + 1) else i
  }

  /** `s.split()[0]` for text that is not all whitespace. */
  function FirstWord(s: string): (r: string)
    requires LStrip(s) != ""
    ensures |r| > 0 && forall k :: 0 <= k < |r| ==> r[k] in s
  {
    var t := LStrip(s);
    WordChars(s, t, WordEnd(t, 0));
    t[..WordEnd(t, 0)]
  }

  /** The first `n` characters of a suffix of `s` all occur in `s`. */
  lemma WordChars(s: string, t: string, n: nat)
    requires |t| <= |s| && t == s[|s| - |t|..] && n <= |t|
    ensures forall k :: 0 <= k < n ==> t[..n][k] in s
  {
    forall k | 0 <= k < n ensures t[..n][k] in s {
      assert t[..n][k] == s[|s| - |t| + k];
    }
  }

  /** The text after the first ':' of a line, stripped and cut before its parameters. */
  function AfterColon(line: string): (r: Option<string>)
    ensures r.Some? ==> forall k :: 0 <= k < |r.value| ==> r.value[k] in line
  {
    if ':' !in line then None
    else
      var parts := Split(line, ":");
      if |parts| < 2 then None
      else
        SplitChars(line, ":", 1);
        StripChars(parts[1]);
        Some(CutParams(Strip(parts[1])))
  }

  /** A line's "kind: name" symbol as written: `split()[0]` raises on a blank remainder. */
  function LineSymbolAsWritten(line: string): Result<Option<string>, string>
  {
    match AfterColon(line)
    case None => Ok(None)
    case Some(symbol) =>
      if LStrip(symbol) == "" then Err("IndexError: list index out of range")
      else
        var word := FirstWord(symbol);
        if IsIdentifier(word) then Ok(Some(word)) else Ok(None)
  }

  /** A line's "kind: name" symbol, skipping a line with nothing after the ':'. */
  function LineSymbol(line: string): (r: Option<string>)
    ensures r.Some? ==> IsIdentifier(r.value) && forall k :: 0 <= k < |r.value| ==> r.value[k] in line
  {
    match AfterColon(line)
    case None => None
    case Some(symbol) =>
      if LStrip(symbol) == "" then None
      else
        var word := FirstWord(symbol);
        if IsIdentifier(word) then Some(word) else None
  }

  /** The end of the run of word characters starting at `i`. */
  function WordRunEnd(s: string, i: nat): (r: nat)
    requires i <= |s|
    ensures i <= r <= |s| && forall k :: i <= k < r ==> IsWordChar(s[k])
    decreases |s| - i
  {
    if i < |s| && IsWordChar(s[i]) then WordRunEnd(s, i + 1) else i
  }

  /** `re.findall(r'\b[a-zA-Z_][a-zA-Z0-9_]*\b', s)[0]` from position `p` on, for ASCII word characters. */
  function FirstIdentifier(s: string, p: nat): (r: Option<string>)
    requires p <= |s|
    ensures r.Some? ==> IsIdentifier(r.value) && forall k :: 0 <= k < |r.value| ==> r.value[k] in s
    decreases |s| - p
  {
    if p == |s| then None
    else if IsIdentStart(s[p]) && (p == 0 || !IsWordChar(s[p - 1])) then
      var w := s[p..WordRunEnd(s, p)];
      assert forall k :: 0 <= k < |w| ==> w[k] == s[p + k];
      Some(w)
    else FirstIdentifier(s, p + 1)
  }

  /** The first "kind: name" symbol among the lines, as written: the first error or name wins. */
  function NamedSymbolAsWritten(lines: seq<string>): Result<Option<string>, string>
  {
    if lines == [] then Ok(None)
    else
      match LineSymbolAsWritten(lines[0])
      case Err(e) => Err(e)
      case Ok(Some(name)) => Ok(Some(name))
      case Ok(None) => NamedSymbolAsWritten(lines[1..])
  }

  function NamedSymbol(lines: seq<string>): (r: Option<string>)
    ensures r.Some? ==> IsIdentifier(r.value)
  {
    if lines == [] then None
    else
      match LineSymbol(lines[0])
      case Some(name) => Some(name)
      case None => NamedSymbol(lines[1..])
  }

  /** The name found comes from one of the lines. */
  lemma {:induction false} NamedSymbolFromLine(lines: seq<string>)
    requires NamedSymbol(lines).Some?
    ensures exists i :: 0 <= i < |lines| && forall k :: 0 <= k < |NamedSymbol(lines).value| ==> NamedSymbol(lines).value[k] in lines[i]
  {
    if LineSymbol(lines[0]).None? {
      var w := NamedSymbol(lines[1..]).value;
      NamedSymbolFromLine(lines[1..]);
      var i :| 0 <= i < |lines[1..]| && forall k :: 0 <= k < |w| ==> w[k] in lines[1..][i];
      assert lines[1..][i] == lines[i + 1];
    }
  }

  /** `_extract_symbol_name` as written: a "kind:" line with nothing after the colon raises. */
  function ExtractSymbolNameAsWritten(doc: string): Result<string, string>
  {
    match NamedSymbolAsWritten(Take(Split(doc, "\n"), NameLines))
    case Err(e) => Err(e)
    case Ok(Some(name)) => Ok(name)
    case Ok(None) => Ok(FirstIdentifier(doc, 0).GetOr("unknown"))
  }

  /** `_extract_symbol_name` skipping such lines: a name from the first three lines, else the first identifier, else "unknown". */
  function ExtractSymbolName(doc: string): (r: string)
    ensures r == "unknown" || IsIdentifier(r)
  {
    match NamedSymbol(Take(Split(doc, "\n"), NameLines))
    case Some(name) => name
    case None => FirstIdentifier(doc, 0).GetOr("unknown")
  }

  /** Every character of a piece of `split` comes from the text split. */
  lemma SplitChars(s: string, sep: string, i: nat)
    requires |sep| > 0 && i < |Split(s, sep)|
    ensures forall k :: 0 <= k < |Split(s, sep)[i]| ==> Split(s, sep)[i][k] in s
    decreases |s|
  {
    var f := Find(s, sep);
    if f >= 0 {
      if i == 0 {
        assert Split(s, sep)[0] == s[..f];
      } else {
        var rest := s[f + |sep|..];
        assert Split(s, sep)[i] == Split(rest, sep)[i - 1];
        SplitChars(rest, sep, i - 1);
        var piece := Split(rest, sep)[i - 1];
        forall k | 0 <= k < |piece| ensures piece[k] in s {
          assert piece[k] in rest;
        }
      }
    }
  }

  lemma StripChars(s: string)
    ensures forall k :: 0 <= k < |Strip(s)| ==> Strip(s)[k] in s
  {
    var t := LStrip(s);
    var u := RStrip(t);
    assert Strip(s) == u;
    var i := |s| - |t|;
    assert t == s[i..] && u == t[..|u|];
    forall k | 0 <= k < |u| ensures u[k] in s {
      assert u[k] == s[i + k];
    }
  }

  /** A text without any letter or '_' gives "unknown". */
  lemma NoIdentifierUnknown(doc: string)
    requires forall k :: 0 <= k < |doc| ==> !IsIdentStart(doc[k])
    ensures ExtractSymbolName(doc) == "unknown"
  {
    ExtractedNameInDoc(doc);
  }

  /** A name other than "unknown" starts with a character of the text. */
  lemma ExtractedNameInDoc(doc: string)
    ensures var r := ExtractSymbolName(doc); r == "unknown" || (|r| > 0 && r[0] in doc)
  {
    var lines := Take(Split(doc, "\n"), NameLines);
    var named := NamedSymbol(lines);
    if named.Some? {
      NamedSymbolFromLine(lines);
      var i :| 0 <= i < |lines| && forall k :: 0 <= k < |named.value| ==> named.value[k] in lines[i];
      SplitChars(doc, "\n", i);
      assert lines[i] == Split(doc, "\n")[i];
    }
  }

  /** The hover text of a qualified name holds no newline. */
  lemma QualifiedOneLine()
    ensures Split("std::string", "\n") == ["std::string"]
  {
    AbsentFirst("std::string", "\n");
    SplitAbsent("std::string", "\n");
  }

  /** A name qualified by a scope splits on ':' into the scope, an empty piece and the name. */
  lemma QualifiedSplits(scope: string, name: string)
    requires ':' !in scope && ':' !in name
    ensures Split(scope + "::" + name, ":") == [scope, "", name]
  {
    var parts := [scope, "", name];
    SplitJoin(parts, ":");
    assert parts[1..] == ["", name] && ["", name][1..] == [name];
    assert Join(["", name], ":") == ":" + name;
    assert Join(parts, ":") == scope + ":" + (":" + name) == scope + "::" + name;
  }

  /** Its text after the first ':' is empty. */
  lemma QualifiedAfterColon()
    ensures AfterColon("std::string") == Some("")
  {
    QualifiedSplits("std", "string");
    assert "std" + "::" + "string" == "std::string";
    assert Strip("") == "";
    assert CutParams("") == "";
  }

  /** Its first identifier is "std". */
  lemma QualifiedIdentifier()
    ensures FirstIdentifier("std::string", 0) == Some("std")
  {
    var doc := "std::string";
    assert !IsWordChar(doc[3]);
    assert WordRunEnd(doc, 3) == 3;
    assert WordRunEnd(doc, 2) == 3;
    assert WordRunEnd(doc, 1) == 3;
    assert WordRunEnd(doc, 0) == 3;
    assert doc[0..3] == "std";
  }

  /** A hover text such as "std::string" makes the extraction as written raise, where skipping the blank remainder gives "std". */
  lemma QualifiedNameRaises()
    ensures ExtractSymbolNameAsWritten("std::string").Err?
    ensures ExtractSymbolName("std::string") == "std"
  {
    var doc := "std::string";
    QualifiedOneLine();
    QualifiedAfterColon();
    QualifiedIdentifier();
    assert Take(Split(doc, "\n"), NameLines) == [doc];
    assert LineSymbol(doc).None?;
  }

  // ---------------------------------------------------------------------------
  // The three levels

  /** `_get_minimal_context` as written: it reads "contents", a key the hover answer never has, so the text is always empty. */
  function MinimalDocAsWritten(hover: Option<LspMethods.Hover>): Result<string, string>
  {
    match hover
    case None => Err("AttributeError: 'NoneType' object has no attribute 'get'")
    case Some(_) => Ok("")
  }

  /** The hover text the minimal context is meant to carry: the hover's documentation. */
  function MinimalDoc(hover: Option<LspMethods.Hover>): Result<string, string>
  {
    match hover
    case None => Err("AttributeError: 'NoneType' object has no attribute 'get'")
    case Some(h) => Ok(h.documentation)
  }

  /** The minimal context built from a hover text. */
  function MinimalContext(doc: string): (r: ContextData)
    ensures r.primaryContent == doc && r.contextLevel == "minimal" && r.source == "clangd_index"
    ensures r.surroundingCode.None? && r.imports.None? && r.relatedHeaders.None?
  {
    ContextData(doc, ExtractSymbolName(doc), ExtractSymbolKind(doc), "minimal", "clangd_index",
                None, None, None, None, None)
  }

  /** `_get_local_context`: the minimal context unchanged when the file reads as empty, otherwise with the local fields. */
  function LocalContext(minimal: ContextData, content: string, line: int, classPattern: string -> bool,
                        sigPattern: string -> bool): (r: Result<ContextData, string>)
    ensures content == "" ==> r == Ok(minimal)
    ensures content != "" && r.Ok? ==>
      (r.value.contextLevel == "local" && r.value.source == "live_file_and_index"
       && r.value.primaryContent == minimal.primaryContent && r.value.symbolName == minimal.symbolName
       && r.value.surroundingCode.Some?)
  {
    if content == "" then Ok(minimal)
    else
      match ExtractLocalContext(content, line, classPattern, sigPattern)
      case Err(e) => Err(e)
      case Ok(info) =>
        Ok(minimal.(surroundingCode := Some(info.surrounding), classContext := info.classDefinition,
                    functionSignature := info.functionSignature, contextLevel := "local",
                    source := "live_file_and_index"))
  }

  /** `_get_full_context` after the local context: the whole file, its includes and headers when it reads. */
  function FullContext(local: ContextData, content: string, headers: seq<string>): (r: ContextData)
    ensures r.contextLevel == "full" && r.source == "live_codebase"
    ensures content != "" ==> r.primaryContent == content && r.imports == Some(ExtractImports(content))
                              && r.relatedHeaders == Some(headers)
    ensures content == "" ==> r.primaryContent == local.primaryContent
  {
    var c := if content != "" then
      local.(primaryContent := content, imports := Some(ExtractImports(content)), relatedHeaders := Some(headers))
    else local;
    c.(contextLevel := "full", source := "live_codebase")
  }

  /** `get_context` given the minimal context's text: dispatch on the level, which must be one of the three. */
  function ContextFromDoc(level: string, doc: string, file: string, line: int, root: string,
                          present: string -> bool, read: string -> string,
                          classPattern: string -> bool, sigPattern: string -> bool): Result<ContextData, string>
  {
    var content := read(Paths.JoinPath(root, file));
    if level == "minimal" then Ok(MinimalContext(doc))
    else if level == "local" then LocalContext(MinimalContext(doc), content, line, classPattern, sigPattern)
    else if level == "full" then
      match LocalContext(MinimalContext(doc), content, line, classPattern, sigPattern)
      case Err(e) => Err(e)
      case Ok(local) =>
        var headers := if content != "" then HeadersOf(Take(ExtractImports(content), MaxHeaderIncludes), root, file, present, read) else [];
        Ok(FullContext(local, content, headers))
    else Err("ValueError: Unknown context level")
  }

  /** `get_context` with the documentation as the hover text. */
  function ContextOf(level: string, hover: Option<LspMethods.Hover>, file: string, line: int, root: string,
                     present: string -> bool, read: string -> string,
                     classPattern: string -> bool, sigPattern: string -> bool): Result<ContextData, string>
  {
    if level != "minimal" && level != "local" && level != "full" then Err("ValueError: Unknown context level")
    else
      match MinimalDoc(hover)
      case Err(e) => Err(e)
      case Ok(doc) => ContextFromDoc(level, doc, file, line, root, present, read, classPattern, sigPattern)
  }

  /** `get_context` as written, with the always-empty hover text. */
  function ContextOfAsWritten(level: string, hover: Option<LspMethods.Hover>, file: string, line: int, root: string,
                              present: string -> bool, read: string -> string,
                              classPattern: string -> bool, sigPattern: string -> bool): Result<ContextData, string>
  {
    if level != "minimal" && level != "local" && level != "full" then Err("ValueError: Unknown context level")
    else
      match MinimalDocAsWritten(hover)
      case Err(e) => Err(e)
      case Ok(doc) => ContextFromDoc(level, doc, file, line, root, present, read, classPattern, sigPattern)
  }

  /** Only the three levels are accepted and a missing hover fails; the level reported is the one asked for, except that a local request on an unreadable file stays minimal. */
  lemma ContextLevels(level: string, hover: Option<LspMethods.Hover>, file: string, line: int, root: string,
                      present: string -> bool, read: string -> string,
                      classPattern: string -> bool, sigPattern: string -> bool)
    ensures var r := ContextOf(level, hover, file, line, root, present, read, classPattern, sigPattern);
      var content := read(Paths.JoinPath(root, file));
      (level != "minimal" && level != "local" && level != "full" ==> r.Err?)
      && (hover.None? ==> r.Err?)
      && (r.Ok? && level == "minimal" ==> r.value.contextLevel == "minimal")
      && (r.Ok? && level == "local" ==> r.value.contextLevel == (if content == "" then "minimal" else "local"))
      && (r.Ok? && level == "full" ==> r.value.contextLevel == "full")
  {
    if hover.Some? && (level == "minimal" || level == "local" || level == "full") {
      var doc := hover.value.documentation;
      assert ContextOf(level, hover, file, line, root, present, read, classPattern, sigPattern)
          == ContextFromDoc(level, doc, file, line, root, present, read, classPattern, sigPattern);
    }
  }

  /** A full context of a readable file keeps at most 20 includes and 5 headers. */
  lemma FullContextBounds(hover: Option<LspMethods.Hover>, file: string, line: int, root: string,
                          present: string -> bool, read: string -> string,
                          classPattern: string -> bool, sigPattern: string -> bool)
    requires read(Paths.JoinPath(root, file)) != ""
    ensures var r := ContextOf("full", hover, file, line, root, present, read, classPattern, sigPattern);
      r.Ok? ==> |r.value.imports.value| <= MaxImports && |r.value.relatedHeaders.value| <= MaxHeaderIncludes
  {
  }

  /** With the text as written, a minimal or local context never asks for a summary. */
  lemma AsWrittenNeverSummarises(level: string, hover: Option<LspMethods.Hover>, file: string, line: int, root: string,
                                 present: string -> bool, read: string -> string,
                                 classPattern: string -> bool, sigPattern: string -> bool)
    requires level == "minimal" || level == "local"
    ensures var r := ContextOfAsWritten(level, hover, file, line, root, present, read, classPattern, sigPattern);
      r.Ok? ==> r.value.primaryContent == "" && !LlmProvider.ShouldSummarize(r.value.primaryContent, r.value.symbolKind)
  {
    assert Strip("") == "";
  }

  /** With the documentation as the text, a minimal context carries it as its primary content. */
  lemma MinimalCarriesDocumentation(h: LspMethods.Hover, file: string, line: int, root: string,
                                    present: string -> bool, read: string -> string,
                                    classPattern: string -> bool, sigPattern: string -> bool)
    ensures var r := ContextOf("minimal", Some(h), file, line, root, present, read, classPattern, sigPattern);
      r.Ok? && r.value.primaryContent == h.documentation
  {
  }

  /** `get_context`: the minimal text from the hover, then the level's reads. */
  method GetContext(level: string, hover: Option<LspMethods.Hover>, file: string, line: int, root: string,
                    present: string -> bool, read: string -> string,
                    classPattern: string -> bool, sigPattern: string -> bool) returns (r: Result<ContextData, string>)
    ensures r == ContextOf(level, hover, file, line, root, present, read, classPattern, sigPattern)
  {
    if level != "minimal" && level != "local" && level != "full" {
      return Err("ValueError: Unknown context level");
    }
    var doc := MinimalDoc(hover);
    if doc.Err? {
      return Err(doc.error);
    }
    var minimal := MinimalContext(doc.value);
    if level == "minimal" {
      return Ok(minimal);
    }
    var content := read(Paths.JoinPath(root, file));
    var local := LocalContext(minimal, content, line, classPattern, sigPattern);
    if level == "local" || local.Err? {
      return local;
    }
    var headers := [];
    if content != "" {
      headers := RelatedHeaders(file, content, root, present, read);
    }
    return Ok(FullContext(local.value, content, headers));
  }
}
