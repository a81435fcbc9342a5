/**
 * The syntax-tree layer: which files get the C++ parser, the per-file cache
 * of parsed trees and the symbol caches that depend on it, and the walks up a
 * node's parent chain that name its scope, its enclosing classes and the
 * block it sits in.
 *
 * Parsing itself is an oracle `parse`; a parsed tree is given as a flat
 * sequence of nodes in which every node's parent comes before it, so that the
 * walk `current = current.parent` visits strictly smaller indices and stops
 * at -1, the parent of the root.
 */
module TreeSitter {
  import opened Wrappers
  import opened PyStr
  import Paths

  // ---------------------------------------------------------------------------
  // Choosing a parser

  /** Suffixes of C and C++ sources and headers. */
  const CppSuffixes: seq<string> := [".cpp", ".cc", ".cxx", ".c++", ".hpp", ".hxx", ".h++", ".c", ".h"]
  /** Template implementation files, also parsed as C++. */
  const TemplateSuffixes: seq<string> := [".tcc", ".inc"]

  /** `_get_parser_for_file`: the C++ parser for a C/C++ or template suffix, in any letter case, and none otherwise. */
  predicate HasParser(path: string)
  {
    var suffix := Lower(Paths.Suffix(path));
    suffix in CppSuffixes || suffix in TemplateSuffixes
  }

  /** A name with one dot, not at its start, has the text from that dot as its suffix. */
  lemma SuffixOfFileName(dir: string, stem: string, ext: string)
    requires |stem| > 0 && |ext| >= 2 && ext[0] == '.'
    requires forall k :: 0 <= k < |stem| ==> stem[k] != '/'
    requires forall k :: 0 <= k < |ext| ==> ext[k] != '/'
    requires forall k :: 1 <= k < |ext| ==> ext[k] != '.'
    ensures Paths.Suffix(dir + "/" + stem + ext) == ext
  {
    var p := dir + "/" + stem + ext;
    var slash := Paths.LastIndexOf(p, '/');
    assert p[|dir|] == '/';
    assert slash == |dir| by {
      forall k | |dir| < k < |p| ensures p[k] != '/' {
        if k < |dir| + 1 + |stem| {
          assert p[k] == stem[k - |dir| - 1];
        } else {
          assert p[k] == ext[k - |dir| - 1 - |stem|];
        }
      }
    }
    var name := Paths.Name(p);
    assert name == stem + ext;
    var dot := Paths.LastIndexOf(name, '.');
    assert name[|stem|] == '.';
    assert dot == |stem| by {
      forall k | |stem| < k < |name| ensures name[k] != '.' {
        assert name[k] == ext[k - |stem|];
      }
    }
    assert name[dot..] == ext;
  }

  /** A file `stem + ext` gets the C++ parser exactly when the lower-cased `ext` is one of the listed suffixes. */
  lemma ParserBySuffix(dir: string, stem: string, ext: string)
    requires |stem| > 0 && |ext| >= 2 && ext[0] == '.'
    requires forall k :: 0 <= k < |stem| ==> stem[k] != '/'
    requires forall k :: 0 <= k < |ext| ==> ext[k] != '/'
    requires forall k :: 1 <= k < |ext| ==> ext[k] != '.'
    ensures HasParser(dir + "/" + stem + ext) <==> Lower(ext) in CppSuffixes || Lower(ext) in TemplateSuffixes
  {
    SuffixOfFileName(dir, stem, ext);
  }

  /** A name without a suffix never gets a parser. */
  lemma NoSuffixNoParser(path: string)
    requires Paths.Suffix(path) == ""
    ensures !HasParser(path)
  {
  }

  // ---------------------------------------------------------------------------
  // Syntax trees

  /** A syntax node: its grammar type, its source text and its children. */
  datatype Node = Node(kind: string, text: string, children: seq<Node>)

  /** A parsed file: its nodes, and for each node the index of its parent, or -1 for the root. */
  datatype Tree = Tree(nodes: seq<Node>, parent: seq<int>)

  /** Every node's parent comes before it, so walking up always ends. */
  predicate ValidTree(t: Tree)
  {
    |t.parent| == |t.nodes| && forall i :: 0 <= i < |t.parent| ==> -1 <= t.parent[i] < i
  }

  /** A node's index, or -1 for "no node". */
  predicate NodeOrNone(t: Tree, c: int)
  {
    -1 <= c < |t.nodes|
  }

  /** The nodes met by `while current: ...; current = current.parent` from `c`: `c` itself, then its ancestors, nearest first. */
  function Chain(t: Tree, c: int): (r: seq<nat>)
    requires ValidTree(t) && NodeOrNone(t, c)
    ensures forall k :: 0 <= k < |r| ==> r[k] <= c
    decreases c + 1
  {
    if c < 0 then [] else [c] + Chain(t, t.parent[c])
  }

  /** The parent chain is a path: each node on it is followed by its parent, and it ends at a root. */
  lemma {:induction false} ChainIsPath(t: Tree, c: int)
    requires ValidTree(t) && NodeOrNone(t, c)
    ensures var ch := Chain(t, c);
      (forall k :: 0 <= k < |ch| - 1 ==> t.parent[ch[k]] == ch[k + 1])
      && (|ch| > 0 ==> t.parent[ch[|ch| - 1]] == -1)
    decreases c + 1
  {
    if c >= 0 {
      ChainIsPath(t, t.parent[c]);
    }
  }

  /** The text of the first child of the given type (`for child in ...: if ...: ...; break`). */
  function FirstChildText(children: seq<Node>, kind: string): (r: Option<string>)
    ensures r.Some? <==> exists k :: 0 <= k < |children| && children[k].kind == kind
  {
    if children == [] then None
    else if children[0].kind == kind then Some(children[0].text)
    else
      var r := FirstChildText(children[1..], kind);
      assert forall k :: 1 <= k < |children| ==> children[k] == children[1..][k - 1];
      r
  }

  /** The first child of that type is the one whose text is returned. */
  lemma {:induction false} FirstChildTextIsFirst(children: seq<Node>, kind: string)
    requires FirstChildText(children, kind).Some?
    ensures exists k :: 0 <= k < |children| && children[k].kind == kind
                        && children[k].text == FirstChildText(children, kind).value
                        && forall j :: 0 <= j < k ==> children[j].kind != kind
  {
    if children[0].kind != kind {
      FirstChildTextIsFirst(children[1..], kind);
      var k :| 0 <= k < |children[1..]| && children[1..][k].kind == kind
               && children[1..][k].text == FirstChildText(children[1..], kind).value
               && forall j :: 0 <= j < k ==> children[1..][j].kind != kind;
      assert children[k + 1] == children[1..][k];
      forall j | 0 <= j < k + 1 ensures children[j].kind != kind {
        if j > 0 {
          assert children[j] == children[1..][j - 1];
        }
      }
    }
  }

  predicate IsClassNode(n: Node)
  {
    n.kind == "class_specifier" || n.kind == "struct_specifier"
  }

  /** The name a class or struct node contributes: the text of its first `type_identifier` child. */
  function ClassName(n: Node): Option<string>
  {
    if IsClassNode(n) then FirstChildText(n.children, "type_identifier") else None
  }

  /** The name a node contributes to a scope: a namespace's first `identifier` child, or a class's name. */
  function ScopeName(n: Node): Option<string>
  {
    if n.kind == "namespace_definition" then FirstChildText(n.children, "identifier") else ClassName(n)
  }

  /** What one node contributes: its name, or nothing. */
  function Piece(name: Option<string>): (r: seq<string>)
    ensures |r| <= 1 && (r == [] <==> name.None?)
  {
    match name
    case Some(x) => [x]
    case None => []
  }

  /** The names the nodes of a chain contribute, in chain order; nodes without one contribute nothing. */
  function Names(t: Tree, chain: seq<nat>, name: Node -> Option<string>): (r: seq<string>)
    requires forall k :: 0 <= k < |chain| ==> chain[k] < |t.nodes|
    ensures |r| <= |chain|
  {
    if chain == [] then []
    else
      Piece(name(t.nodes[chain[0]]))
      + Names(t, chain[1..], name)
  }

  lemma {:induction false} NamesAppend(t: Tree, a: seq<nat>, b: seq<nat>, name: Node -> Option<string>)
    requires forall k :: 0 <= k < |a| ==> a[k] < |t.nodes|
    requires forall k :: 0 <= k < |b| ==> b[k] < |t.nodes|
    ensures Names(t, a + b, name) == Names(t, a, name) + Names(t, b, name)
    decreases |a|
  {
    if a != [] {
      var head := Piece(name(t.nodes[a[0]]));
      assert (a + b)[0] == a[0];
      assert (a + b)[1..] == a[1..] + b;
      assert Names(t, a + b, name) == head + Names(t, a[1..] + b, name);
      forall k | 0 <= k < |a[1..]| ensures a[1..][k] < |t.nodes| {
        assert a[1..][k] == a[k + 1];
      }
      NamesAppend(t, a[1..], b, name);
      assert Names(t, a, name) == head + Names(t, a[1..], name);
      SeqAssoc(head, Names(t, a[1..], name), Names(t, b, name));
    } else {
      assert a + b == b;
    }
  }

  function Reverse<T>(s: seq<T>): (r: seq<T>)
    ensures |r| == |s|
    ensures forall k :: 0 <= k < |s| ==> r[k] == s[|s| - 1 - k]
  {
    if s == [] then [] else Reverse(s[1..]) + [s[0]]
  }

  /** Reversing the chain and then collecting names gives the reversed names: collecting commutes with reversal. */
  lemma {:induction false} NamesReverse(t: Tree, chain: seq<nat>, name: Node -> Option<string>)
    requires forall k :: 0 <= k < |chain| ==> chain[k] < |t.nodes|
    ensures Names(t, Reverse(chain), name) == Reverse(Names(t, chain, name))
    decreases |chain|
  {
    if chain != [] {
      var rest := chain[1..];
      NamesReverse(t, rest, name);
      assert Reverse(chain) == Reverse(rest) + [chain[0]];
      NamesAppend(t, Reverse(rest), [chain[0]], name);
      var head := Piece(name(t.nodes[chain[0]]));
      assert Names(t, [chain[0]], name) == head by {
        assert [chain[0]][1..] == [];
      }
      assert Names(t, chain, name) == head + Names(t, rest, name);
      ReverseAppend(head, Names(t, rest, name));
    }
  }

  lemma ReverseAppend<T>(a: seq<T>, b: seq<T>)
    ensures Reverse(a + b) == Reverse(b) + Reverse(a)
  {
    var l, r := Reverse(a + b), Reverse(b) + Reverse(a);
    assert |l| == |r|;
    forall k | 0 <= k < |l| ensures l[k] == r[k] {
      if k < |b| {
        assert l[k] == (a + b)[|a| + |b| - 1 - k];
      } else {
        assert l[k] == (a + b)[|a| + |b| - 1 - k];
      }
    }
  }

  /** The enclosing class and struct names of node `i`, outermost first: those of its ancestors, read from the root down. */
  function EnclosingClasses(t: Tree, i: nat): (r: seq<string>)
    requires ValidTree(t) && i < |t.nodes|
  {
    Names(t, Reverse(Chain(t, t.parent[i])), ClassName)
  }

  /** The enclosing namespaces and classes of node `i`, outermost first. */
  function ScopeParts(t: Tree, i: nat): (r: seq<string>)
    requires ValidTree(t) && i < |t.nodes|
  {
    Names(t, Reverse(Chain(t, t.parent[i])), ScopeName)
  }

  /** `_get_scope_for_node`'s result: the scope parts joined with "::", or nothing when there are none. */
  function Scope(t: Tree, i: nat): (r: Option<string>)
    requires ValidTree(t) && i < |t.nodes|
  {
    var parts := ScopeParts(t, i);
    if parts == [] then None else Some(Join(parts, "::"))
  }

  /** Where no name holds a ':', splitting the scope at "::" gives back the namespaces and classes, outermost first; the scope is absent exactly when there are none. */
  lemma ScopeSplits(t: Tree, i: nat)
    requires ValidTree(t) && i < |t.nodes|
    requires forall j, k :: 0 <= j < |ScopeParts(t, i)| && 0 <= k < |ScopeParts(t, i)[j]| ==> ScopeParts(t, i)[j][k] != ':'
    ensures Scope(t, i).None? <==> ScopeParts(t, i) == []
    ensures Scope(t, i).Some? ==> Split(Scope(t, i).value, "::") == ScopeParts(t, i)
  {
    if ScopeParts(t, i) != [] {
      SplitJoin(ScopeParts(t, i), "::");
    }
  }

  /** Every enclosing class is a scope part: the class names are the scope parts with the namespaces left out. */
  lemma {:induction false} ClassesWithinScope(t: Tree, chain: seq<nat>)
    requires forall k :: 0 <= k < |chain| ==> chain[k] < |t.nodes|
    ensures multiset(Names(t, chain, ClassName)) <= multiset(Names(t, chain, ScopeName))
    decreases |chain|
  {
    if chain != [] {
      ClassesWithinScope(t, chain[1..]);
    }
  }

  /** One step up the chain: the node's own name, if any, comes before its ancestors' names. */
  lemma NamesStep(t: Tree, c: nat, name: Node -> Option<string>)
    requires ValidTree(t) && c < |t.nodes|
    ensures Names(t, Chain(t, c), name)
            == Piece(name(t.nodes[c])) + Names(t, Chain(t, t.parent[c]), name)
  {
    assert Chain(t, c)[0] == c;
    assert Chain(t, c)[1..] == Chain(t, t.parent[c]);
  }

  /** The loop of `_get_enclosing_classes`: the class names met going up from `start`, nearest first. */
  method WalkClasses(t: Tree, start: int) returns (found: seq<string>)
    requires ValidTree(t) && NodeOrNone(t, start)
    ensures found == Names(t, Chain(t, start), ClassName)
  {
    found := [];
    var current := start;
    while current >= 0
      invariant NodeOrNone(t, current)
      invariant found + Names(t, Chain(t, current), ClassName) == Names(t, Chain(t, start), ClassName)
      decreases current + 1
    {
      var name := NodeName(t.nodes[current], false);
      NamesStep(t, current, ClassName);
      SeqAssoc(found, Piece(name), Names(t, Chain(t, t.parent[current]), ClassName));
      found := found + Piece(name);
      current := t.parent[current];
    }
  }

  /** `_get_enclosing_classes`: the walk from the node's parent, reversed so that the outermost class comes first. */
  method GetEnclosingClasses(t: Tree, i: nat) returns (classes: seq<string>)
    requires ValidTree(t) && i < |t.nodes|
    ensures classes == EnclosingClasses(t, i)
  {
    var found := WalkClasses(t, t.parent[i]);
    classes := Reverse(found);
    NamesReverse(t, Chain(t, t.parent[i]), ClassName);
  }

  /** The loop of `_get_scope_for_node`: the namespace and class names met going up from `start`, nearest first. */
  method WalkScopes(t: Tree, start: int) returns (parts: seq<string>)
    requires ValidTree(t) && NodeOrNone(t, start)
    ensures parts == Names(t, Chain(t, start), ScopeName)
  {
    parts := [];
    var current := start;
    while current >= 0
      invariant NodeOrNone(t, current)
      invariant parts + Names(t, Chain(t, current), ScopeName) == Names(t, Chain(t, start), ScopeName)
      decreases current + 1
    {
      var name := NodeName(t.nodes[current], true);
      NamesStep(t, current, ScopeName);
      SeqAssoc(parts, Piece(name), Names(t, Chain(t, t.parent[current]), ScopeName));
      parts := parts + Piece(name);
      current := t.parent[current];
    }
  }

  /** `_get_scope_for_node`: the walk from the node's parent, joined outermost first with "::", or nothing when it found no name. */
  method GetScopeForNode(t: Tree, i: nat) returns (scope: Option<string>)
    requires ValidTree(t) && i < |t.nodes|
    ensures scope == Scope(t, i)
  {
    var parts := WalkScopes(t, t.parent[i]);
    NamesReverse(t, Chain(t, t.parent[i]), ScopeName);
    if parts == [] {
      scope := None;
    } else {
      scope := Some(Join(Reverse(parts), "::"));
    }
  }

  /** The test each walk makes of one node: a namespace's name (only when scopes are wanted), or a class's name. */
  method NodeName(n: Node, scopes: bool) returns (r: Option<string>)
    ensures r == if scopes then ScopeName(n) else ClassName(n)
  {
    r := None;
    if scopes && n.kind == "namespace_definition" {
      r := FindChild(n.children, "identifier");
    } else if IsClassNode(n) {
      r := FindChild(n.children, "type_identifier");
    }
  }

  /** The inner loop of both walks: the text of the first child of a type. */
  method FindChild(children: seq<Node>, kind: string) returns (r: Option<string>)
    ensures r == FirstChildText(children, kind)
  {
    var k := 0;
    while k < |children|
      invariant 0 <= k <= |children|
      invariant FirstChildText(children, kind) == FirstChildText(children[k..], kind)
    {
      assert children[k..][1..] == children[k + 1..];
      if children[k].kind == kind {
        return Some(children[k].text);
      }
      k := k + 1;
    }
    return None;
  }

  // ---------------------------------------------------------------------------
  // Context blocks

  /** `_get_block_type`: the kind of block a node of each grammar type opens. */
  function BlockType(kind: string): (r: Option<string>)
    ensures r.Some? ==> r.value in {"function", "class", "namespace", "template", "enum"}
  {
    match kind
    case "function_definition" => Some("function")
    case "method_definition" => Some("function")
    case "class_specifier" => Some("class")
    case "struct_specifier" => Some("class")
    case "namespace_definition" => Some("namespace")
    case "template_declaration" => Some("template")
    case "enum_specifier" => Some("enum")
    case _ => None
  }

  /** A block of the wanted type, or of any type for "auto". */
  predicate Wanted(n: Node, contextType: string)
  {
    var b := BlockType(n.kind);
    b.Some? && (contextType == "auto" || b.value == contextType)
  }

  /** The first node of a chain that opens a wanted block. */
  function FirstWanted(t: Tree, chain: seq<nat>, contextType: string): (r: Option<nat>)
    requires forall k :: 0 <= k < |chain| ==> chain[k] < |t.nodes|
  {
    if chain == [] then None
    else if Wanted(t.nodes[chain[0]], contextType) then Some(chain[0])
    else FirstWanted(t, chain[1..], contextType)
  }

  /** The block found is the nearest wanted one on the chain; when none is found, no node of the chain is wanted. */
  lemma {:induction false} FirstWantedIsNearest(t: Tree, chain: seq<nat>, contextType: string)
    requires forall k :: 0 <= k < |chain| ==> chain[k] < |t.nodes|
    ensures var r := FirstWanted(t, chain, contextType);
      (r.None? ==> forall k :: 0 <= k < |chain| ==> !Wanted(t.nodes[chain[k]], contextType))
      && (r.Some? ==> exists k :: 0 <= k < |chain| && chain[k] == r.value && Wanted(t.nodes[r.value], contextType)
                               && forall j :: 0 <= j < k ==> !Wanted(t.nodes[chain[j]], contextType))
    decreases |chain|
  {
    if chain != [] && !Wanted(t.nodes[chain[0]], contextType) {
      FirstWantedIsNearest(t, chain[1..], contextType);
      var r := FirstWanted(t, chain, contextType);
      if r.Some? {
        var k :| 0 <= k < |chain[1..]| && chain[1..][k] == r.value && Wanted(t.nodes[r.value], contextType)
                 && forall j :: 0 <= j < k ==> !Wanted(t.nodes[chain[1..][j]], contextType);
        assert chain[k + 1] == chain[1..][k];
        forall j | 0 <= j < k + 1 ensures !Wanted(t.nodes[chain[j]], contextType) {
          if j > 0 {
            assert chain[j] == chain[1..][j - 1];
          }
        }
      } else {
        forall k | 0 <= k < |chain| ensures !Wanted(t.nodes[chain[k]], contextType) {
          if k > 0 {
            assert chain[k] == chain[1..][k - 1];
          }
        }
      }
    }
  }

  /** The walk in `extract_context_block`: from the target node upwards, the first node opening a wanted block. */
  method FindContextBlock(t: Tree, target: nat, contextType: string) returns (r: Option<nat>)
    requires ValidTree(t) && target < |t.nodes|
    ensures r == FirstWanted(t, Chain(t, target), contextType)
  {
    var current: int := target;
    while current >= 0
      invariant NodeOrNone(t, current)
      invariant FirstWanted(t, Chain(t, target), contextType) == FirstWanted(t, Chain(t, current), contextType)
      decreases current + 1
    {
      var blockType := BlockType(t.nodes[current].kind);
      if blockType.Some? && (contextType == "auto" || blockType.value == contextType) {
        return Some(current);
      }
      current := t.parent[current];
    }
    return None;
  }

  // ---------------------------------------------------------------------------
  // Parameters

  /** A parameter as reported: its name and its type. */
  datatype Param = Param(name: string, paramType: string)

  predicate IsTypeNode(n: Node)
  {
    n.kind == "primitive_type" || n.kind == "type_identifier" || n.kind == "qualified_identifier"
  }

  /** The name after a pointer declarator's children: the last `identifier` among them, or the name so far. */
  function PointerName(subchildren: seq<Node>, name: string): string
  {
    if subchildren == [] then name
    else PointerName(subchildren[1..], if subchildren[0].kind == "identifier" then subchildren[0].text else name)
  }

  /** Type and name after the first `n` children of a parameter declaration. */
  function ParamScan(children: seq<Node>, n: nat): (string, string)
    requires n <= |children|
  {
    if n == 0 then ("", "")
    else
      var (ty, name) := ParamScan(children, n - 1);
      var c := children[n - 1];
      if IsTypeNode(c) then (c.text, name)
      else if c.kind == "identifier" then (ty, c.text)
      else if c.kind == "pointer_declarator" then (ty + "*", PointerName(c.children, name))
      else (ty, name)
  }

  /** `_extract_parameter_info`'s result: the parameter when a type was found, with "unnamed" for a missing name. */
  function ParamInfo(children: seq<Node>): Option<Param>
  {
    var (ty, name) := ParamScan(children, |children|);
    if ty == "" then None else Some(Param(if name == "" then "unnamed" else name, ty))
  }

  /** Where every type child has some text, a type is found exactly when there is a type child or a pointer declarator. */
  lemma {:induction false} ParamTypeFound(children: seq<Node>, n: nat)
    requires n <= |children|
    requires forall k :: 0 <= k < |children| && IsTypeNode(children[k]) ==> children[k].text != ""
    ensures ParamScan(children, n).0 == "" <==>
              forall k :: 0 <= k < n ==> !IsTypeNode(children[k]) && children[k].kind != "pointer_declarator"
  {
    if n > 0 {
      ParamTypeFound(children, n - 1);
    }
  }

  /** A pointer declarator without an identifier leaves the name as it was. */
  lemma {:induction false} PointerNameKept(subchildren: seq<Node>, name: string)
    requires forall k :: 0 <= k < |subchildren| ==> subchildren[k].kind != "identifier"
    ensures PointerName(subchildren, name) == name
  {
    if subchildren != [] {
      PointerNameKept(subchildren[1..], name);
    }
  }

  /** Otherwise the name is the text of its last identifier. */
  lemma {:induction false} PointerNameLast(subchildren: seq<Node>, name: string, k: nat)
    requires k < |subchildren| && subchildren[k].kind == "identifier"
    requires forall j :: k < j < |subchildren| ==> subchildren[j].kind != "identifier"
    ensures PointerName(subchildren, name) == subchildren[k].text
  {
    var next := if subchildren[0].kind == "identifier" then subchildren[0].text else name;
    if k == 0 {
      PointerNameKept(subchildren[1..], next);
    } else {
      PointerNameLast(subchildren[1..], next, k - 1);
    }
  }

  /** A parameter with no identifier, directly or inside a pointer declarator, is reported as "unnamed". */
  lemma {:induction false} ParamUnnamed(children: seq<Node>, n: nat)
    requires n <= |children|
    requires forall k :: 0 <= k < |children| ==> children[k].kind != "identifier"
    requires forall k, j :: 0 <= k < |children| && children[k].kind == "pointer_declarator" && 0 <= j < |children[k].children|
               ==> children[k].children[j].kind != "identifier"
    ensures ParamScan(children, n).1 == ""
    ensures n == |children| && ParamInfo(children).Some? ==> ParamInfo(children).value.name == "unnamed"
  {
    if n > 0 {
      ParamUnnamed(children, n - 1);
      var c := children[n - 1];
      if c.kind == "pointer_declarator" {
        PointerNameKept(c.children, "");
      }
    }
  }

  /** A type followed by a pointer declarator naming `x` is the parameter `x` of that type with a '*' appended. */
  lemma PointerParam(ty: Node, text: string, subchildren: seq<Node>, k: nat)
    requires IsTypeNode(ty) && ty.text != ""
    requires k < |subchildren| && subchildren[k].kind == "identifier" && subchildren[k].text != ""
    requires forall j :: k < j < |subchildren| ==> subchildren[j].kind != "identifier"
    ensures ParamInfo([ty, Node("pointer_declarator", text, subchildren)]) == Some(Param(subchildren[k].text, ty.text + "*"))
  {
    var cs := [ty, Node("pointer_declarator", text, subchildren)];
    assert ParamScan(cs, 1) == (ty.text, "");
    PointerNameLast(subchildren, "", k);
  }

  /** The loop of `_extract_parameter_info`. */
  method ExtractParameterInfo(param: Node) returns (r: Option<Param>)
    ensures r == ParamInfo(param.children)
  {
    var ty, name := "", "";
    var k := 0;
    while k < |param.children|
      invariant 0 <= k <= |param.children|
      invariant (ty, name) == ParamScan(param.children, k)
    {
      var child := param.children[k];
      if IsTypeNode(child) {
        ty := child.text;
      } else if child.kind == "identifier" {
        name := child.text;
      } else if child.kind == "pointer_declarator" {
        ty := ty + "*";
        var before := name;
        var j := 0;
        while j < |child.children|
          invariant 0 <= j <= |child.children|
          invariant PointerName(child.children[j..], name) == PointerName(child.children, before)
        {
          assert child.children[j..][1..] == child.children[j + 1..];
          if child.children[j].kind == "identifier" {
            name := child.children[j].text;
          }
          j := j + 1;
        }
      }
      k := k + 1;
    }
    if ty != "" {
      r := Some(Param(if name == "" then "unnamed" else name, ty));
    } else {
      r := None;
    }
  }

  // ---------------------------------------------------------------------------
  // The parse cache

  /** The default largest file parsed, in bytes (10 MiB). */
  const DefaultMaxFileSize: nat := 10 * 1024 * 1024

  /** What `stat` reports about a regular file: its size and modification time. */
  datatype FileInfo = FileInfo(size: nat, mtime: nat)

  /** A symbol, function or class entry extracted from a parsed file; only its name is kept here. */
  type Extracted = seq<string>

  /**
   * The manager's per-file state: parsed trees with the modification time and
   * content hash they were parsed from, and the three caches of symbols
   * extracted from those trees.
   */
  class TreeSitterManager {
    const maxFileSize: nat
    /** False when the parsing library could not be loaded or initialised. */
    const available: bool
    var syntaxTrees: map<string, Tree>
    var fileMtimes: map<string, nat>
    var fileVersions: map<string, string>
    var symbolCache: map<string, Extracted>
    var functionCache: map<string, Extracted>
    var classCache: map<string, Extracted>

    /** A tree is cached together with the time and hash it was parsed from. */
    ghost predicate Valid()
      reads this
    {
      syntaxTrees.Keys == fileMtimes.Keys == fileVersions.Keys
    }

    constructor(maxFileSize: nat, available: bool)
      ensures Valid()
      ensures this.maxFileSize == maxFileSize && this.available == available
      ensures syntaxTrees == map[] && fileMtimes == map[] && fileVersions == map[]
      ensures symbolCache == map[] && functionCache == map[] && classCache == map[]
    {
      this.maxFileSize := maxFileSize;
      this.available := available;
      syntaxTrees, fileMtimes, fileVersions := map[], map[], map[];
      symbolCache, functionCache, classCache := map[], map[], map[];
    }

    /** The cached tree is still current: it was parsed at or after the file's present modification time. */
    predicate Fresh(path: string, mtime: nat)
      reads this
    {
      path in syntaxTrees && path in fileMtimes && fileMtimes[path] >= mtime
    }

    /** The parser is loaded and the path is an existing regular file no larger than the limit. */
    predicate Admitted(info: Option<FileInfo>)
    {
      available && info.Some? && info.value.size <= maxFileSize
    }

    /** `_clear_caches_for_file`: the file's symbol, function and class entries go, and nothing else. */
    method ClearCachesForFile(path: string)
      modifies this
      ensures symbolCache == old(symbolCache) - {path}
      ensures functionCache == old(functionCache) - {path}
      ensures classCache == old(classCache) - {path}
      ensures syntaxTrees == old(syntaxTrees) && fileMtimes == old(fileMtimes) && fileVersions == old(fileVersions)
    {
      if path in symbolCache {
        symbolCache := symbolCache - {path};
      }
      if path in functionCache {
        functionCache := functionCache - {path};
      }
      if path in classCache {
        classCache := classCache - {path};
      }
    }

    /** `clear_caches`: all six maps are emptied. */
    method ClearCaches()
      modifies this
      ensures Valid()
      ensures syntaxTrees == map[] && fileMtimes == map[] && fileVersions == map[]
      ensures symbolCache == map[] && functionCache == map[] && classCache == map[]
    {
      syntaxTrees := map[];
      fileVersions := map[];
      fileMtimes := map[];
      symbolCache := map[];
      functionCache := map[];
      classCache := map[];
    }

    /**
     * `parse_file`. `info` is what `stat` reports (nothing when the path is
     * not an existing regular file), `content` the decoded text (nothing when
     * reading failed), `parse` the parser and `md5` the content hash.
     */
    method ParseFile(path: string, info: Option<FileInfo>, content: Option<string>,
                     parse: string -> Option<Tree>, md5: string -> string) returns (r: Option<Tree>)
      requires Valid()
      modifies this
      ensures Valid()
      // Nothing is parsed when the library is missing, the file is missing or too large.
      ensures !Admitted(info) ==> r.None? && unchanged(this)
      // A tree parsed at or after the file's modification time is returned as it is.
      ensures Admitted(info) && old(Fresh(path, info.value.mtime))
              ==> r == Some(old(syntaxTrees)[path]) && unchanged(this)
      // A failed read, a file type without a parser, or a failed parse leaves everything as it was.
      ensures Admitted(info) && !old(Fresh(path, info.value.mtime))
              && (content.None? || !HasParser(path) || parse(content.value).None?)
              ==> r.None? && unchanged(this)
      // A fresh parse records the tree, the modification time and the hash, and drops the file's extracted symbols.
      ensures Admitted(info) && !old(Fresh(path, info.value.mtime))
              && content.Some? && HasParser(path) && parse(content.value).Some?
              ==> (r == parse(content.value)
                   && syntaxTrees == old(syntaxTrees)[path := r.value]
                   && fileMtimes == old(fileMtimes)[path := info.value.mtime]
                   && fileVersions == old(fileVersions)[path := md5(content.value)]
                   && symbolCache == old(symbolCache) - {path}
                   && functionCache == old(functionCache) - {path}
                   && classCache == old(classCache) - {path})
    {
      if !available {
        return None;
      }
      if info.None? {
        return None;
      }
      if info.value.size > maxFileSize {
        return None;
      }
      var currentMtime := info.value.mtime;
      if path in syntaxTrees && path in fileMtimes && fileMtimes[path] >= currentMtime {
        return Some(syntaxTrees[path]);
      }
      if content.None? {
        return None;
      }
      if !HasParser(path) {
        return None;
      }
      var tree := parse(content.value);
      if tree.None? {
        return None;
      }
      RecordParse(path, tree.value, currentMtime, md5(content.value));
      return tree;
    }

    /** The bookkeeping after a fresh parse: tree, modification time and hash recorded, the file's extracted symbols dropped. */
    method RecordParse(path: string, tree: Tree, mtime: nat, hash: string)
      requires Valid()
      modifies this
      ensures Valid()
      ensures syntaxTrees == old(syntaxTrees)[path := tree] && fileMtimes == old(fileMtimes)[path := mtime]
      ensures fileVersions == old(fileVersions)[path := hash]
      ensures symbolCache == old(symbolCache) - {path}
      ensures functionCache == old(functionCache) - {path}
      ensures classCache == old(classCache) - {path}
    {
      syntaxTrees := syntaxTrees[path := tree];
      fileMtimes := fileMtimes[path := mtime];
      fileVersions := fileVersions[path := hash];
      ClearCachesForFile(path);
    }
  }

  /** Parsing the same unchanged file twice parses it once: the second call returns the first call's tree and changes nothing. */
  method ParseTwice(m: TreeSitterManager, path: string, info: FileInfo, content: Option<string>,
                    parse: string -> Option<Tree>, md5: string -> string) returns (first: Option<Tree>, second: Option<Tree>)
    requires m.Valid()
    modifies m
    ensures first.Some? ==> second == first
  {
    first := m.ParseFile(path, Some(info), content, parse, md5);
    second := m.ParseFile(path, Some(info), content, parse, md5);
  }
}
