/**
 * Python's `list.sort(key=...)` and `sorted(...)` for the keys this code
 * base sorts by: strings, and tuples of ints and strings. Keys compare
 * lexicographically, as Python compares tuples and strings; the sort is a
 * stable insertion sort, proved to order its output and to permute its input.
 */
module Sorting {

  /** Python's `<` on `str`: code point by code point, a proper prefix first. */
  predicate StrLt(a: string, b: string)
    decreases |a|
  {
    |b| > 0 && (|a| == 0 || a[0] < b[0] || (a[0] == b[0] && StrLt(a[1..], b[1..])))
  }

  /** One element of a sort-key tuple. */
  datatype KeyPart = KInt(i: int) | KStr(s: string)

  /** `<` on two tuple elements of the same kind (the keys sorted here never mix kinds at one position). */
  predicate PartLt(a: KeyPart, b: KeyPart)
  {
    match (a, b)
    case (KInt(x), KInt(y)) => x < y
    case (KStr(x), KStr(y)) => StrLt(x, y)
    case (KInt(_), KStr(_)) => true
    case (KStr(_), KInt(_)) => false
  }

  /** Python's `<` on tuples: element by element, a proper prefix first. */
  predicate KeyLt(a: seq<KeyPart>, b: seq<KeyPart>)
    decreases |a|
  {
    |b| > 0 && (|a| == 0 || PartLt(a[0], b[0]) || (a[0] == b[0] && KeyLt(a[1..], b[1..])))
  }

  lemma {:induction false} StrLtIrreflexive(a: string)
    ensures !StrLt(a, a)
    decreases |a|
  {
    if |a| > 0 {
      StrLtIrreflexive(a[1..]);
    }
  }

  lemma {:induction false} StrLtTrans(a: string, b: string, c: string)
    requires StrLt(a, b) && StrLt(b, c)
    ensures StrLt(a, c)
    decreases |a|
  {
    if |a| > 0 && a[0] == b[0] && b[0] == c[0] {
      StrLtTrans(a[1..], b[1..], c[1..]);
    }
  }

  lemma {:induction false} StrLtTotal(a: string, b: string)
    requires a != b
    ensures StrLt(a, b) || StrLt(b, a)
    decreases |a|
  {
    if |a| > 0 && |b| > 0 && a[0] == b[0] {
      assert a == [a[0]] + a[1..] && b == [b[0]] + b[1..];
      StrLtTotal(a[1..], b[1..]);
    }
  }

  lemma PartLtOrder(a: KeyPart, b: KeyPart, c: KeyPart)
    ensures !PartLt(a, a)
    ensures PartLt(a, b) && PartLt(b, c) ==> PartLt(a, c)
    ensures a != b ==> PartLt(a, b) || PartLt(b, a)
  {
    if a.KStr? {
      StrLtIrreflexive(a.s);
      if b.KStr? && a != b {
        StrLtTotal(a.s, b.s);
      }
      if b.KStr? && c.KStr? && PartLt(a, b) && PartLt(b, c) {
        StrLtTrans(a.s, b.s, c.s);
      }
    }
  }

  lemma {:induction false} KeyLtIrreflexive(a: seq<KeyPart>)
    ensures !KeyLt(a, a)
    decreases |a|
  {
    if |a| > 0 {
      PartLtOrder(a[0], a[0], a[0]);
      KeyLtIrreflexive(a[1..]);
    }
  }

  lemma {:induction false} KeyLtTrans(a: seq<KeyPart>, b: seq<KeyPart>, c: seq<KeyPart>)
    requires KeyLt(a, b) && KeyLt(b, c)
    ensures KeyLt(a, c)
    decreases |a|
  {
    if |a| > 0 {
      PartLtOrder(a[0], b[0], c[0]);
      if a[0] == b[0] && b[0] == c[0] {
        KeyLtTrans(a[1..], b[1..], c[1..]);
      }
    }
  }

  lemma {:induction false} KeyLtTotal(a: seq<KeyPart>, b: seq<KeyPart>)
    requires a != b
    ensures KeyLt(a, b) || KeyLt(b, a)
    decreases |a|
  {
    if |a| > 0 && |b| > 0 {
      PartLtOrder(a[0], b[0], b[0]);
      if a[0] == b[0] {
        assert a == [a[0]] + a[1..] && b == [b[0]] + b[1..];
        KeyLtTotal(a[1..], b[1..]);
      }
    }
  }

  /** "Not greater than" chains: the order is a total preorder. */
  lemma NotLtTrans(a: seq<KeyPart>, b: seq<KeyPart>, c: seq<KeyPart>)
    requires !KeyLt(b, a) && !KeyLt(c, b)
    ensures !KeyLt(c, a)
  {
    if KeyLt(c, a) && a != b && b != c {
      KeyLtTotal(a, b);
      KeyLtTotal(b, c);
      KeyLtTrans(a, b, c);
      KeyLtTrans(c, a, c);
      KeyLtIrreflexive(c);
    }
  }

  lemma KeyLtAsymmetric(a: seq<KeyPart>, b: seq<KeyPart>)
    requires KeyLt(a, b)
    ensures !KeyLt(b, a)
  {
    if KeyLt(b, a) {
      KeyLtTrans(a, b, a);
      KeyLtIrreflexive(a);
    }
  }

  /** No element is followed by one with a smaller key. */
  predicate SortedBy<T>(s: seq<T>, key: T -> seq<KeyPart>)
  {
    forall i, j :: 0 <= i < j < |s| ==> !KeyLt(key(s[j]), key(s[i]))
  }

  /** Insert `x` after every element whose key is not greater than its own. */
  function Insert<T>(sorted: seq<T>, x: T, key: T -> seq<KeyPart>): (r: seq<T>)
    ensures multiset(r) == multiset(sorted) + multiset{x}
    decreases |sorted|
  {
    if sorted == [] || !KeyLt(key(x), key(sorted[|sorted| - 1])) then sorted + [x]
    else
      var last := sorted[|sorted| - 1];
      assert sorted == sorted[..|sorted| - 1] + [last];
      Insert(sorted[..|sorted| - 1], x, key) + [last]
  }

  /** `sorted(s, key=key)`: a stable insertion sort. */
  function SortBy<T>(s: seq<T>, key: T -> seq<KeyPart>): (r: seq<T>)
    ensures multiset(r) == multiset(s)
    decreases |s|
  {
    if s == [] then []
    else
      assert s == s[..|s| - 1] + [s[|s| - 1]];
      Insert(SortBy(s[..|s| - 1], key), s[|s| - 1], key)
  }

  lemma {:induction false} InsertSorted<T>(sorted: seq<T>, x: T, key: T -> seq<KeyPart>)
    requires SortedBy(sorted, key)
    ensures SortedBy(Insert(sorted, x, key), key)
    decreases |sorted|
  {
    if sorted == [] {
    } else if !KeyLt(key(x), key(sorted[|sorted| - 1])) {
      AppendNotSmaller(sorted, x, key);
    } else {
      var init := sorted[..|sorted| - 1];
      var last := sorted[|sorted| - 1];
      InsertSorted(init, x, key);
      var ins := Insert(init, x, key);
      KeyLtAsymmetric(key(x), key(last));
      forall i | 0 <= i < |ins| ensures !KeyLt(key(last), key(ins[i])) {
        assert ins[i] in multiset(init) + multiset{x};
        if ins[i] != x {
          var k :| 0 <= k < |init| && init[k] == ins[i];
          assert sorted[k] == init[k];
        }
      }
      AppendAfter(ins, last, key);
    }
  }

  /** Appending an element whose key is not smaller than the last one's keeps a sorted sequence sorted. */
  lemma AppendNotSmaller<T>(sorted: seq<T>, x: T, key: T -> seq<KeyPart>)
    requires SortedBy(sorted, key) && |sorted| > 0 && !KeyLt(key(x), key(sorted[|sorted| - 1]))
    ensures SortedBy(sorted + [x], key)
  {
    var r := sorted + [x];
    forall i | 0 <= i < |sorted| ensures !KeyLt(key(x), key(sorted[i])) {
      if i < |sorted| - 1 {
        NotLtTrans(key(sorted[i]), key(sorted[|sorted| - 1]), key(x));
      }
    }
    AppendAfter(sorted, x, key);
  }

  lemma AppendAfter<T>(s: seq<T>, x: T, key: T -> seq<KeyPart>)
    requires SortedBy(s, key)
    requires forall i :: 0 <= i < |s| ==> !KeyLt(key(x), key(s[i]))
    ensures SortedBy(s + [x], key)
  {
    var r := s + [x];
    forall i, j | 0 <= i < j < |r| ensures !KeyLt(key(r[j]), key(r[i])) {
      if j < |s| {
        assert r[i] == s[i] && r[j] == s[j];
      } else {
        assert r[i] == s[i];
      }
    }
  }

  /** The sort orders its output by key. */
  lemma {:induction false} SortBySorted<T>(s: seq<T>, key: T -> seq<KeyPart>)
    ensures SortedBy(SortBy(s, key), key)
    decreases |s|
  {
    if s != [] {
      SortBySorted(s[..|s| - 1], key);
      InsertSorted(SortBy(s[..|s| - 1], key), s[|s| - 1], key);
    }
  }

  /** Two sorted arrangements of the same elements agree when no two different elements share a key. */
  lemma {:induction false} SortedUnique<T>(s: seq<T>, t: seq<T>, key: T -> seq<KeyPart>)
    requires SortedBy(s, key) && SortedBy(t, key) && multiset(s) == multiset(t)
    requires forall x, y :: x in s && y in s && key(x) == key(y) ==> x == y
    ensures s == t
    decreases |s|
  {
    assert |s| == |multiset(s)| == |multiset(t)| == |t|;
    if s != [] {
      SortedHeads(s, t, key);
      SortedTail(s, key);
      SortedTail(t, key);
      assert multiset(s) == multiset([s[0]]) + multiset(s[1..]) by {
        assert s == [s[0]] + s[1..];
      }
      assert multiset(t) == multiset([t[0]]) + multiset(t[1..]) by {
        assert t == [t[0]] + t[1..];
      }
      assert multiset(s[1..]) == multiset(s) - multiset([s[0]]);
      assert multiset(t[1..]) == multiset(t) - multiset([t[0]]);
      assert forall x :: x in s[1..] ==> x in s;
      SortedUnique(s[1..], t[1..], key);
    }
  }

  /** Two sorted arrangements of the same elements, no two sharing a key, start with the same element. */
  lemma SortedHeads<T>(s: seq<T>, t: seq<T>, key: T -> seq<KeyPart>)
    requires SortedBy(s, key) && SortedBy(t, key) && multiset(s) == multiset(t) && s != []
    requires forall x, y :: x in s && y in s && key(x) == key(y) ==> x == y
    ensures t != [] && s[0] == t[0]
  {
    assert s[0] in multiset(t) && t[0] in multiset(s);
    var i :| 0 <= i < |s| && s[i] == t[0];
    var j :| 0 <= j < |t| && t[j] == s[0];
    assert !KeyLt(key(t[0]), key(s[0])) by {
      if i > 0 {
        assert !KeyLt(key(s[i]), key(s[0]));
      } else {
        KeyLtIrreflexive(key(s[0]));
      }
    }
    assert !KeyLt(key(s[0]), key(t[0])) by {
      if j > 0 {
        assert !KeyLt(key(t[j]), key(t[0]));
      } else {
        KeyLtIrreflexive(key(t[0]));
      }
    }
    if key(s[0]) != key(t[0]) {
      KeyLtTotal(key(s[0]), key(t[0]));
    }
  }

  /** Dropping the first element keeps a sequence sorted. */
  lemma SortedTail<T>(s: seq<T>, key: T -> seq<KeyPart>)
    requires SortedBy(s, key) && s != []
    ensures SortedBy(s[1..], key)
  {
    forall i, j | 0 <= i < j < |s| - 1 ensures !KeyLt(key(s[1..][j]), key(s[1..][i])) {
      assert s[1..][j] == s[j + 1] && s[1..][i] == s[i + 1];
    }
  }

  /** The key `sorted` uses for a list of strings. */
  function StrKey(s: string): seq<KeyPart>
  {
    [KStr(s)]
  }
}
