/**
 * The handful of Python `str`, `int` and slice operations the bridge relies on,
 * written out so that their edge cases (empty separators, negative slice
 * bounds, signs in `int()`) are the Python ones.
 */
module PyStr {
  import opened Wrappers

  // ---------------------------------------------------------------------------
  // Whitespace, `str.strip`, `str.lower`

  /** The code points for which `str.isspace` holds: the characters `str.strip()` removes. */
  const SpaceCodes: set<int> := {
    9, 10, 11, 12, 13, 28, 29, 30, 31, 32, 0x85, 0xA0, 0x1680,
    0x2000, 0x2001, 0x2002, 0x2003, 0x2004, 0x2005, 0x2006, 0x2007, 0x2008, 0x2009, 0x200A,
    0x2028, 0x2029, 0x202F, 0x205F, 0x3000 }

  /** `str.isspace` for one character. */
  predicate IsSpace(c: char)
  {
    c as int in SpaceCodes
  }

  /** Visible ASCII characters (letters, digits, signs, punctuation) are not whitespace. */
  lemma VisibleNotSpace(c: char)
    requires 33 <= c as int <= 126
    ensures !IsSpace(c)
  {
  }

  /** `s.lstrip()`: the longest suffix of `s` that does not start with whitespace. */
  function LStrip(s: string): (r: string)
    ensures |r| <= |s| && r == s[|s| - |r|..]
    ensures forall k :: 0 <= k < |s| - |r| ==> IsSpace(s[k])
    ensures r == [] || !IsSpace(r[0])
  {
    if |s| > 0 && IsSpace(s[0]) then
      var r := LStrip(s[1..]);
      LStripStep(s, r);
      r
    else s
  }

  /** Dropping one leading blank keeps `LStrip`'s contract for the whole string. */
  lemma LStripStep(s: string, r: string)
    requires |s| > 0 && IsSpace(s[0])
    requires |r| <= |s| - 1 && r == s[1..][|s| - 1 - |r|..]
    requires forall k :: 0 <= k < |s| - 1 - |r| ==> IsSpace(s[1..][k])
    ensures |r| <= |s| && r == s[|s| - |r|..]
    ensures forall k :: 0 <= k < |s| - |r| ==> IsSpace(s[k])
  {
    forall k | 0 < k < |s| - |r| ensures IsSpace(s[k]) {
      assert s[k] == s[1..][k - 1];
    }
  }

  /** `s.rstrip()`: the longest prefix of `s` that does not end with whitespace. */
  function RStrip(s: string): (r: string)
    ensures |r| <= |s| && r == s[..|r|]
    ensures forall k :: |r| <= k < |s| ==> IsSpace(s[k])
    ensures r == [] || !IsSpace(r[|r| - 1])
  {
    if |s| > 0 && IsSpace(s[|s| - 1]) then
      var r := RStrip(s[..|s| - 1]);
      RStripStep(s, s[..|s| - 1], r);
      r
    else s
  }

  /** Dropping one trailing blank keeps `RStrip`'s contract for the whole string. */
  lemma RStripStep(s: string, t: string, r: string)
    requires |s| > 0 && IsSpace(s[|s| - 1]) && t == s[..|s| - 1]
    requires |r| <= |t| && r == t[..|r|]
    requires forall k :: |r| <= k < |t| ==> IsSpace(t[k])
    ensures |r| <= |s| && r == s[..|r|]
    ensures forall k :: |r| <= k < |s| ==> IsSpace(s[k])
  {
    forall k | |r| <= k < |t| ensures IsSpace(s[k]) {
      assert s[k] == t[k];
    }
  }

  /** `s.strip()`. */
  function Strip(s: string): (r: string)
  {
    RStrip(LStrip(s))
  }

  /** Stripping removes exactly the whitespace at both ends and nothing inside. */
  lemma StripIsTrimmedInfix(s: string)
    ensures var i, r := |s| - |LStrip(s)|, Strip(s);
      0 <= i && i + |r| <= |s| && r == s[i..i + |r|]
      && (forall k :: 0 <= k < i ==> IsSpace(s[k]))
      && (forall k :: i + |r| <= k < |s| ==> IsSpace(s[k]))
      && (r == [] || (!IsSpace(r[0]) && !IsSpace(r[|r| - 1])))
  {
    StripInfix(s);
    StripTrailing(s);
    StripEnds(s);
  }

  lemma StripInfix(s: string)
    ensures var i, r := |s| - |LStrip(s)|, Strip(s);
      0 <= i && i + |r| <= |s| && r == s[i..i + |r|]
  {
    var l := LStrip(s);
    var r := RStrip(l);
    var i := |s| - |l|;
    assert l == s[i..];
    assert r == l[..|r|];
  }

  lemma StripTrailing(s: string)
    ensures var i, r := |s| - |LStrip(s)|, Strip(s);
      forall k :: i + |r| <= k < |s| ==> IsSpace(s[k])
  {
    var l := LStrip(s);
    var r := RStrip(l);
    var i := |s| - |l|;
    forall k | i + |r| <= k < |s| ensures IsSpace(s[k]) {
      assert s[k] == l[k - i];
    }
  }

  lemma StripEnds(s: string)
    ensures var r := Strip(s);
      r == [] || (!IsSpace(r[0]) && !IsSpace(r[|r| - 1]))
  {
    var l := LStrip(s);
    var r := RStrip(l);
    if r != [] {
      assert r[0] == l[0];
    }
  }

  /** One leading whitespace character is removed by `lstrip`. */
  lemma LStripSpace(c: char, s: string)
    requires IsSpace(c)
    ensures LStrip([c] + s) == LStrip(s)
  {
    assert ([c] + s)[0] == c && ([c] + s)[1..] == s;
  }

  /** Stripping a string that has no whitespace at either end changes nothing. */
  lemma StripNoOp(s: string)
    requires s == [] || (!IsSpace(s[0]) && !IsSpace(s[|s| - 1]))
    ensures Strip(s) == s
  {
  }

  /** ASCII case folding, the part of `str.lower` the model relies on. */
  function LowerChar(c: char): (r: char)
    ensures 'A' <= c <= 'Z' ==> r as int == c as int + 32
    ensures !('A' <= c <= 'Z') ==> r == c
  {
    if 'A' <= c <= 'Z' then (c as int + 32) as char else c
  }

  function Lower(s: string): (r: string)
    ensures |r| == |s|
    ensures forall k :: 0 <= k < |s| ==> r[k] == LowerChar(s[k])
  {
    if s == [] then [] else [LowerChar(s[0])] + Lower(s[1..])
  }

  // ---------------------------------------------------------------------------
  // Prefixes, substrings, `find`, `split`, `join`

  predicate StartsWith<T(==)>(s: seq<T>, p: seq<T>)
  {
    p <= s
  }

  /** `t` occurs in `s` starting at index `k`. */
  predicate OccursAt<T(==)>(s: seq<T>, t: seq<T>, k: int)
  {
    0 <= k && k + |t| <= |s| && s[k..k + |t|] == t
  }

  /** The first occurrence of `t` in `s` at or after `i`, or -1 (`s.find(t, i)`). */
  function FindFrom<T(==)>(s: seq<T>, t: seq<T>, i: nat): (r: int)
    requires i <= |s|
    ensures r == -1 || (i <= r && OccursAt(s, t, r))
    ensures forall k :: i <= k && (r == -1 || k < r) ==> !OccursAt(s, t, k)
    decreases |s| - i
  {
    if i + |t| > |s| then -1
    else if s[i..i + |t|] == t then i
    else FindFrom(s, t, i + 1)
  }

  /** `s.find(t)` on `str` and `bytes`. */
  function Find<T(==)>(s: seq<T>, t: seq<T>): (r: int)
    ensures r == -1 || OccursAt(s, t, r)
    ensures forall k :: 0 <= k && (r == -1 || k < r) ==> !OccursAt(s, t, k)
  {
    FindFrom(s, t, 0)
  }

  /** Concatenation regroups freely. */
  lemma SeqAssoc<T>(a: seq<T>, b: seq<T>, c: seq<T>)
    ensures a + b + c == a + (b + c)
  {
  }

  /** A one-item sequence that is not found occurs nowhere. */
  lemma FindAbsentItem<T>(s: seq<T>, c: T)
    requires Find(s, [c]) < 0
    ensures forall k :: 0 <= k < |s| ==> s[k] != c
  {
    forall k | 0 <= k < |s| ensures s[k] != c {
      assert !OccursAt(s, [c], k);
      assert s[k..k + 1] == [s[k]];
    }
  }

  /** `t in s` on `str` and `bytes`. */
  predicate Contains<T(==)>(s: seq<T>, t: seq<T>)
  {
    Find(s, t) >= 0
  }

  lemma ContainsIff<T>(s: seq<T>, t: seq<T>)
    ensures Contains(s, t) <==> exists k :: OccursAt(s, t, k)
  {
  }

  /** A string is contained in any string that has it as a prefix. */
  lemma ContainsPrefix<T>(s: seq<T>, p: seq<T>)
    requires p <= s
    ensures Contains(s, p) && Find(s, p) == 0
  {
    assert OccursAt(s, p, 0);
  }

  /** A string that is contained in `t` is contained in any string containing `t`. */
  lemma ContainsShift<T>(s: seq<T>, u: seq<T>, t: seq<T>)
    requires Contains(s, t)
    ensures Contains(u + s, t)
  {
    var k := Find(s, t);
    assert (u + s)[|u| + k..|u| + k + |t|] == s[k..k + |t|];
    assert OccursAt(u + s, t, |u| + k);
  }

  /** Appending to a string does not move an occurrence that is already there. */
  lemma FindExtend<T>(a: seq<T>, b: seq<T>, t: seq<T>)
    requires Find(a, t) >= 0
    ensures Find(a + b, t) == Find(a, t)
  {
    var r := Find(a, t);
    assert (a + b)[r..r + |t|] == a[r..r + |t|];
    assert OccursAt(a + b, t, r);
    var r' := Find(a + b, t);
    if r' < r {
      assert (a + b)[r'..r' + |t|] == a[r'..r' + |t|];
      assert OccursAt(a, t, r');
    }
  }

  /** Where the first occurrence of `t` lies in a prefix `p` of `s`. */
  lemma FindInPrefix<T>(p: seq<T>, s: seq<T>, t: seq<T>)
    requires p <= s && Find(s, t) >= 0
    ensures Find(p, t) == if Find(s, t) + |t| <= |p| then Find(s, t) else -1
  {
    var r := Find(s, t);
    var r' := Find(p, t);
    if r' >= 0 {
      assert p[r'..r' + |t|] == s[r'..r' + |t|];
      assert OccursAt(s, t, r');
    }
    if r + |t| <= |p| {
      assert p[r..r + |t|] == s[r..r + |t|];
      assert OccursAt(p, t, r);
    }
  }

  /** If the first element of `t` does not occur in `p`, the first occurrence of `t` in `p + s` is
      at `|p|` whenever `s` starts with `t`, and nowhere when `s` is empty. */
  lemma FindAfterFree<T>(p: seq<T>, s: seq<T>, t: seq<T>)
    requires |t| > 0 && forall k :: 0 <= k < |p| ==> p[k] != t[0]
    ensures t <= s ==> Find(p + s, t) == |p|
    ensures s == [] ==> Find(p + s, t) == -1
  {
    if s == [] {
      assert p + s == p;
      forall k | 0 <= k && k + |t| <= |p| ensures !OccursAt(p, t, k) {
        assert p[k..k + |t|][0] == p[k];
      }
    }
    if t <= s {
      assert (p + s)[|p|..|p| + |t|] == t;
      assert OccursAt(p + s, t, |p|);
      forall k | 0 <= k < |p| ensures !OccursAt(p + s, t, k) {
        assert (p + s)[k..k + |t|][0] == p[k];
      }
    }
  }

  /** A string without the first element of `t` does not contain `t`. */
  lemma AbsentFirst<T>(s: seq<T>, t: seq<T>)
    requires |t| > 0 && forall k :: 0 <= k < |s| ==> s[k] != t[0]
    ensures !Contains(s, t)
  {
    forall k | 0 <= k && k + |t| <= |s| ensures !OccursAt(s, t, k) {
      assert s[k..k + |t|][0] == s[k];
    }
  }

  /** Splitting a string without the separator gives the string alone. */
  lemma SplitAbsent<T>(s: seq<T>, sep: seq<T>)
    requires |sep| > 0 && !Contains(s, sep)
    ensures Split(s, sep) == [s]
  {
  }

  /** No occurrence of `t` lies wholly before the first one. */
  lemma NotContainsBeforeFind<T>(s: seq<T>, t: seq<T>)
    requires |t| > 0 && Find(s, t) >= 0
    ensures !Contains(s[..Find(s, t)], t)
  {
    var p := s[..Find(s, t)];
    forall k | 0 <= k ensures !OccursAt(p, t, k) {
      if k + |t| <= |p| {
        assert !OccursAt(s, t, k);
        assert p[k..k + |t|] == s[k..k + |t|];
      }
    }
  }

  /** `s.split(sep)` for a non-empty separator. */
  function Split<T(==)>(s: seq<T>, sep: seq<T>): (r: seq<seq<T>>)
    requires |sep| > 0
    ensures |r| >= 1
    ensures forall k :: 0 <= k < |r| ==> !Contains(r[k], sep)
    decreases |s|
  {
    var i := Find(s, sep);
    if i < 0 then [s]
    else
      NotContainsBeforeFind(s, sep);
      [s[..i]] + Split(s[i + |sep|..], sep)
  }

  /** `sep.join(parts)`. */
  function Join<T>(parts: seq<seq<T>>, sep: seq<T>): (r: seq<T>)
  {
    if |parts| == 0 then []
    else if |parts| == 1 then parts[0]
    else parts[0] + sep + Join(parts[1..], sep)
  }

  /** Joining what `split` returned gives back the original string. */
  lemma {:induction false} JoinSplit<T>(s: seq<T>, sep: seq<T>)
    requires |sep| > 0
    ensures Join(Split(s, sep), sep) == s
    decreases |s|
  {
    var i := Find(s, sep);
    if i >= 0 {
      var rest := s[i + |sep|..];
      var tail := Split(rest, sep);
      assert Join(Split(s, sep), sep) == s[..i] + sep + Join(tail, sep) by {
        assert Split(s, sep) == [s[..i]] + tail;
        JoinCons(s[..i], tail, sep);
      }
      JoinSplit(rest, sep);
      assert s == s[..i] + sep + rest by {
        assert s[i..i + |sep|] == sep;
      }
    }
  }

  lemma JoinCons<T>(p: seq<T>, parts: seq<seq<T>>, sep: seq<T>)
    requires |parts| > 0
    ensures Join([p] + parts, sep) == p + sep + Join(parts, sep)
  {
    assert ([p] + parts)[1..] == parts;
  }

  /** `s.split(sep, 1)`: at most one cut, at the first occurrence. */
  function SplitOnce<T(==)>(s: seq<T>, sep: seq<T>): (r: seq<seq<T>>)
    requires |sep| > 0
    ensures 1 <= |r| <= 2
    ensures |r| == 1 <==> !Contains(s, sep)
    ensures |r| == 1 ==> r[0] == s
    ensures |r| == 2 ==> s == r[0] + sep + r[1] && !Contains(r[0], sep)
  {
    var i := Find(s, sep);
    if i < 0 then [s]
    else
      var r := [s[..i], s[i + |sep|..]];
      assert s == s[..i] + s[i..i + |sep|] + s[i + |sep|..];
      NotContainsBeforeFind(s, sep);
      r
  }
  /** Where the first element of the separator does not occur before it, `split(sep, 1)` cuts there. */
  lemma SplitOnceAfterFree<T>(p: seq<T>, s: seq<T>, sep: seq<T>)
    requires |sep| > 0 && sep <= s && forall k :: 0 <= k < |p| ==> p[k] != sep[0]
    ensures SplitOnce(p + s, sep) == [p, s[|sep|..]]
  {
    FindAfterFree(p, s, sep);
    assert (p + s)[..|p|] == p && (p + s)[|p| + |sep|..] == s[|sep|..];
  }


  /** Splitting text that starts with a part free of the separator's first element cuts that part off first. */
  lemma SplitAfterFree<T>(p: seq<T>, s: seq<T>, sep: seq<T>)
    requires |sep| > 0 && sep <= s && forall k :: 0 <= k < |p| ==> p[k] != sep[0]
    ensures Split(p + s, sep) == [p] + Split(s[|sep|..], sep)
  {
    FindAfterFree(p, s, sep);
    assert (p + s)[..|p|] == p && (p + s)[|p| + |sep|..] == s[|sep|..];
  }

  /** Splitting parts joined with a separator none of them holds gives the parts back. */
  lemma {:induction false} SplitJoin<T>(parts: seq<seq<T>>, sep: seq<T>)
    requires |sep| > 0 && |parts| > 0
    requires forall i, k :: 0 <= i < |parts| && 0 <= k < |parts[i]| ==> parts[i][k] != sep[0]
    ensures Split(Join(parts, sep), sep) == parts
    decreases |parts|
  {
    if |parts| == 1 {
      AbsentFirst(parts[0], sep);
      SplitAbsent(parts[0], sep);
    } else {
      var rest := Join(parts[1..], sep);
      assert parts[0] + sep + rest == parts[0] + (sep + rest);
      SplitAfterFree(parts[0], sep + rest, sep);
      assert (sep + rest)[|sep|..] == rest;
      SplitJoin(parts[1..], sep);
      assert parts == [parts[0]] + parts[1..];
    }
  }

  // ---------------------------------------------------------------------------
  // Python slices with negative and out-of-range bounds

  /** The index a Python slice bound `i` denotes in a sequence of length `n`. */
  function SliceIndex(i: int, n: nat): (r: nat)
    ensures r <= n
    ensures i >= 0 ==> r == if i <= n then i else n
    ensures i < 0 ==> r == if n + i >= 0 then n + i else 0
  {
    if i < 0 then (if n + i >= 0 then n + i else 0) else (if i <= n then i else n)
  }

  /** `s[i:j]`. */
  function Slice<T>(s: seq<T>, i: int, j: int): (r: seq<T>)
    ensures var a, b := SliceIndex(i, |s|), SliceIndex(j, |s|);
      r == if a <= b then s[a..b] else []
  {
    var a, b := SliceIndex(i, |s|), SliceIndex(j, |s|);
    if a <= b then s[a..b] else []
  }

  /** `s[:n]`. */
  function Take<T>(s: seq<T>, n: int): (r: seq<T>)
    ensures r <= s
    ensures n >= 0 ==> |r| == if n <= |s| then n else |s|
    ensures n < 0 ==> |r| == if |s| + n >= 0 then |s| + n else 0
  {
    s[..SliceIndex(n, |s|)]
  }

  /** `s[i:]`. */
  function Drop<T>(s: seq<T>, i: int): (r: seq<T>)
    ensures |r| <= |s| && r == s[|s| - |r|..]
    ensures i >= 0 ==> |r| == if i <= |s| then |s| - i else 0
    ensures i < 0 ==> |r| == if |s| + i >= 0 then -i else |s|
  {
    s[SliceIndex(i, |s|)..]
  }

  // ---------------------------------------------------------------------------
  // `str(int)` and `int(str)`

  predicate IsDigit(c: char) { '0' <= c <= '9' }

  function DigitChar(d: nat): (c: char)
    requires d < 10
    ensures IsDigit(c) && c as int - '0' as int == d
  {
    ('0' as int + d) as char
  }

  function DigitValue(c: char): (d: nat)
    requires IsDigit(c)
    ensures d < 10 && DigitChar(d) == c
  {
    c as int - '0' as int
  }

  /** `str(n)` for a natural number. */
  function NatToString(n: nat): (r: string)
    ensures |r| >= 1
    ensures forall k :: 0 <= k < |r| ==> IsDigit(r[k])
    ensures r[0] == '0' ==> n == 0
  {
    if n < 10 then [DigitChar(n)] else NatToString(n / 10) + [DigitChar(n % 10)]
  }

  /** The value of a non-empty run of ASCII digits (leading zeros allowed, as in `int("007")`). */
  function DigitsValue(s: string): (n: nat)
    requires forall k :: 0 <= k < |s| ==> IsDigit(s[k])
  {
    if s == [] then 0 else DigitsValue(s[..|s| - 1]) * 10 + DigitValue(s[|s| - 1])
  }

  lemma {:induction false} DigitsValueOfNat(n: nat)
    ensures DigitsValue(NatToString(n)) == n
  {
    if n >= 10 {
      DigitsValueOfNat(n / 10);
      var s := NatToString(n);
      assert s[..|s| - 1] == NatToString(n / 10);
    }
  }

  /** Distinct numbers print differently. */
  lemma NatToStringInjective(a: nat, b: nat)
    requires NatToString(a) == NatToString(b)
    ensures a == b
  {
    DigitsValueOfNat(a);
    DigitsValueOfNat(b);
  }

  /** `str(i)` for any integer. */
  function IntToString(i: int): (r: string)
    ensures |r| >= 1
    ensures forall k :: 0 <= k < |r| ==> IsDigit(r[k]) || (k == 0 && r[k] == '-')
    ensures r[0] == '-' <==> i < 0
  {
    if i < 0 then "-" + NatToString(-i) else NatToString(i)
  }

  predicate AllDigits(s: string)
  {
    forall k :: 0 <= k < |s| ==> IsDigit(s[k])
  }

  /** `int(s)` for an already stripped string: an optional sign and ASCII digits. */
  function ParseInt(s: string): (r: Option<int>)
    ensures r.Some? <==> (|s| > 0 && AllDigits(s)) || (|s| > 1 && (s[0] == '-' || s[0] == '+') && AllDigits(s[1..]))
  {
    if |s| > 1 && s[0] == '-' && AllDigits(s[1..]) then
      var v: int := DigitsValue(s[1..]); Some(-v)
    else if |s| > 1 && s[0] == '+' && AllDigits(s[1..]) then Some(DigitsValue(s[1..]))
    else if |s| > 0 && AllDigits(s) then Some(DigitsValue(s))
    else None
  }

  /** `int(str(i)) == i`. */
  lemma ParseIntOfString(i: int)
    ensures ParseInt(IntToString(i)) == Some(i)
  {
    if i < 0 {
      var t := NatToString(-i);
      var s := IntToString(i);
      assert s == "-" + t && s[1..] == t;
      assert AllDigits(t);
      DigitsValueOfNat(-i);
      var v: int := DigitsValue(t);
      assert ParseInt(s) == Some(-v);
    } else {
      var s := NatToString(i);
      assert IntToString(i) == s && AllDigits(s);
      assert s[0] != '-' && s[0] != '+';
      DigitsValueOfNat(i);
      assert ParseInt(s) == Some(DigitsValue(s));
    }
  }

  lemma IntToStringInjective(a: int, b: int)
    requires IntToString(a) == IntToString(b)
    ensures a == b
  {
    ParseIntOfString(a);
    ParseIntOfString(b);
  }
}
