/**
 * The parts of `pathlib.PurePosixPath` the bridge relies on, for normalised
 * paths (no doubled or trailing '/'): the final component, its suffix, the
 * parent and the list of components. The left side of a join is a project
 * or file directory as the bridge builds it: never "", "." or "/" (for those
 * `pathlib` drops the left side or the doubled '/', which `JoinPath` does not).
 */
module Paths {
  import opened PyStr

  /** The index of the last `c` in `s`, or -1 (`s.rfind(c)`). */
  function LastIndexOf(s: string, c: char): (r: int)
    ensures -1 <= r < |s|
    ensures r >= 0 ==> s[r] == c
    ensures forall k :: r < k < |s| ==> s[k] != c
    decreases |s|
  {
    if s == [] then -1
    else if s[|s| - 1] == c then |s| - 1
    else LastIndexOf(s[..|s| - 1], c)
  }

  /** `Path(a) / b`: an absolute `b` replaces `a`, and "" or "." adds nothing. */
  function JoinPath(a: string, b: string): (r: string)
    ensures |b| > 0 && b[0] == '/' ==> r == b
    ensures b != "" && b != "." && b[0] != '/' ==> r == a + "/" + b
  {
    if |b| > 0 && b[0] == '/' then b
    else if b == "" || b == "." then a
    else a + "/" + b
  }

  /** `Path(p).name`: the text after the last '/'. */
  function Name(p: string): (r: string)
    ensures |r| <= |p| && r == p[|p| - |r|..]
    ensures forall k :: 0 <= k < |r| ==> r[k] != '/'
  {
    var i := LastIndexOf(p, '/');
    AfterLastFree(p, i + 1);
    p[i + 1..]
  }

  /** Nothing after the last '/' is a '/'. */
  lemma AfterLastFree(p: string, j: nat)
    requires j <= |p| && forall k :: j <= k < |p| ==> p[k] != '/'
    ensures forall k :: 0 <= k < |p| - j ==> p[j..][k] != '/'
  {
    forall k | 0 <= k < |p| - j ensures p[j..][k] != '/' {
      assert p[j..][k] == p[j + k];
    }
  }

  /** `Path(p).suffix`: the name from its last '.', unless that dot starts or ends the name. */
  function Suffix(p: string): (r: string)
  {
    var name := Name(p);
    var i := LastIndexOf(name, '.');
    if 0 < i < |name| - 1 then name[i..] else ""
  }

  /** A suffix is empty, or a dot followed by at least one other character, ending the name and holding no other dot. */
  lemma SuffixShape(p: string)
    ensures var s := Suffix(p);
      s == "" || (|s| >= 2 && s[0] == '.' && s == Name(p)[|Name(p)| - |s|..]
                  && (forall k :: 0 < k < |s| ==> s[k] != '.') && |s| < |Name(p)|)
  {
  }

  /** `str(Path(p).parent)`. */
  function Parent(p: string): (r: string)
  {
    var i := LastIndexOf(p, '/');
    if i < 0 then "." else if i == 0 then "/" else p[..i]
  }

  /** The parent of a path with a directory part is a prefix of it, ending just before the last '/'. */
  lemma ParentPrefix(p: string)
    requires LastIndexOf(p, '/') > 0
    ensures Parent(p) <= p && p == Parent(p) + "/" + Name(p)
  {
    var i := LastIndexOf(p, '/');
    assert p == p[..i] + [p[i]] + p[i + 1..];
  }

  /** `Path(p).parts`: the root "/" of an absolute path, then the non-empty components. */
  function Parts(p: string): (r: seq<string>)
  {
    (if |p| > 0 && p[0] == '/' then ["/"] else []) + NonEmpty(Split(p, "/"))
  }

  function NonEmpty(parts: seq<string>): (r: seq<string>)
    ensures |r| <= |parts|
    ensures forall k :: 0 <= k < |r| ==> r[k] != "" && r[k] in parts
    ensures forall k :: 0 <= k < |parts| && parts[k] != "" ==> parts[k] in r
  {
    if parts == [] then []
    else (if parts[0] == "" then [] else [parts[0]]) + NonEmpty(parts[1..])
  }

  /** Every component is the root or a non-empty name without '/'. */
  lemma PartsShape(p: string)
    ensures forall k :: 0 <= k < |Parts(p)| ==>
      Parts(p)[k] == "/" || (Parts(p)[k] != "" && !Contains(Parts(p)[k], "/"))
  {
    var split := Split(p, "/");
    var rest := NonEmpty(split);
    forall k | 0 <= k < |rest| ensures !Contains(rest[k], "/") {
      var j :| 0 <= j < |split| && split[j] == rest[k];
    }
  }

  /** Splitting at '/' around one '/' splits each side on its own. */
  lemma {:induction false} SplitAround(a: string, b: string)
    ensures Split(a + "/" + b, "/") == Split(a, "/") + Split(b, "/")
    decreases |a|
  {
    var i := Find(a, "/");
    if i < 0 {
      SplitAroundFree(a, b);
    } else {
      SeqAssoc(a, "/", b);
      FindExtend(a, "/" + b, "/");
      var rest := a[i + 1..];
      SplitAround(rest, b);
      assert (a + "/" + b)[..i] == a[..i];
      assert (a + "/" + b)[i + 1..] == rest + "/" + b;
    }
  }

  /** `SplitAround` when `a` holds no '/'. */
  lemma SplitAroundFree(a: string, b: string)
    requires Find(a, "/") < 0
    ensures Split(a + "/" + b, "/") == [a] + Split(b, "/")
    ensures Split(a, "/") == [a]
  {
    FindAbsentItem(a, '/');
    SplitAbsent(a, "/");
    SeqAssoc(a, "/", b);
    SplitAfterFree(a, "/" + b, "/");
    assert ("/" + b)[1..] == b;
  }

  /** Apart from the root "/", the components of a relative path joined onto a directory are exactly those of the directory and those of the path. */
  lemma PartsOfJoin(dir: string, rel: string)
    requires rel != "" && rel != "." && rel[0] != '/'
    ensures forall p :: p != "/" ==> (p in Parts(JoinPath(dir, rel)) <==> p in Parts(dir) || p in Parts(rel))
  {
    var joined := JoinPath(dir, rel);
    SplitAround(dir, rel);
    assert joined == dir + "/" + rel;
    forall p | p != "/" ensures p in Parts(joined) <==> p in Parts(dir) || p in Parts(rel) {
      assert p in Parts(joined) <==> p in NonEmpty(Split(joined, "/"));
      assert p in Parts(dir) <==> p in NonEmpty(Split(dir, "/"));
      assert p in Parts(rel) <==> p in NonEmpty(Split(rel, "/"));
      assert p in NonEmpty(Split(joined, "/")) <==> p != "" && p in Split(joined, "/") by {
        NonEmptyMember(Split(joined, "/"), p);
      }
      NonEmptyMember(Split(dir, "/"), p);
      NonEmptyMember(Split(rel, "/"), p);
    }
  }

  lemma NonEmptyMember(parts: seq<string>, p: string)
    ensures p in NonEmpty(parts) <==> p != "" && p in parts
  {
    if p != "" && p in parts {
      var k :| 0 <= k < |parts| && parts[k] == p;
    }
    if p in NonEmpty(parts) {
      var k :| 0 <= k < |NonEmpty(parts)| && NonEmpty(parts)[k] == p;
    }
  }

  /** The last '/' of `a + "/" + b` is the one added, unless `b` has one of its own. */
  lemma {:induction false} LastSlashOfJoin(a: string, b: string)
    ensures LastIndexOf(a + "/" + b, '/') == |a| + 1 + LastIndexOf(b, '/')
    decreases |b|
  {
    var s := a + "/" + b;
    if b != [] && b[|b| - 1] != '/' {
      assert s[..|s| - 1] == a + "/" + b[..|b| - 1];
      LastSlashOfJoin(a, b[..|b| - 1]);
    }
  }

  /** A relative path joined onto a directory keeps its own name, and so its suffix. */
  lemma NameOfJoin(dir: string, rel: string)
    requires rel != "" && rel != "." && rel[0] != '/'
    ensures Name(JoinPath(dir, rel)) == Name(rel)
    ensures Suffix(JoinPath(dir, rel)) == Suffix(rel)
  {
    var s := JoinPath(dir, rel);
    assert s == dir + "/" + rel;
    LastSlashOfJoin(dir, rel);
    var i := LastIndexOf(rel, '/');
    assert Name(s) == s[|dir| + 1 + i + 1..];
    assert s[|dir| + 1 + i + 1..] == rel[i + 1..];
  }
}
