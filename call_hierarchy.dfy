/**
 * The recursive call-hierarchy traversal behind the incoming- and
 * outgoing-calls tools: starting from the items `prepareCallHierarchy`
 * returned, expand level by level, asking the engine for each item's calls,
 * recording one entry per call site, skipping items whose "uri:line" key was
 * already expanded, and stopping at the depth, per-level and total limits.
 * The collected entries are then sorted by (depth, file, line) and capped.
 *
 * The engine is a function from an item to its calls (incoming or outgoing);
 * an engine error, a timeout and an empty answer all read as no calls.
 */
module CallHierarchy {
  import opened PyStr
  import opened Sorting
  import opened LspMethods

  /** At most this many call sites are recorded per call. */
  const MaxRangesPerCall := 5
  /** `call_hierarchy_max_per_level` when no configuration is reachable. */
  const DefaultMaxPerLevel := 25
  /** `call_hierarchy_max_calls` when no configuration is reachable. */
  const DefaultMaxTotal := 100

  /** A CallHierarchyItem: absent "detail" and "kind" read as "" and 0. */
  datatype Item = Item(name: string, uri: string, range: Range, detail: string, kind: int)

  /** One incoming or outgoing call: the item at the other end and the call sites. */
  datatype Call = Call(peer: Item, ranges: seq<Range>)

  /** One entry of the result: the peer's place, one call site (1-based) and the level it was found at. */
  datatype CallRecord = CallRecord(name: string, place: Place, detail: string, kind: int,
                                   callLine: int, callColumn: int, depth: int)

  function Max(a: int, b: int): int
  {
    if a < b then b else a
  }

  // ---------------------------------------------------------------------------
  // Visited keys

  /** The key an item is remembered by: its uri, ':', and its 0-based start line. */
  function ItemKey(item: Item): string
  {
    item.uri + ":" + IntToString(item.range.start.line)
  }

  /** Two items share a key exactly when they share the uri and the start line, so the visited set identifies items by both. */
  lemma ItemKeyInjective(a: Item, b: Item)
    ensures ItemKey(a) == ItemKey(b) <==> a.uri == b.uri && a.range.start.line == b.range.start.line
  {
    if ItemKey(a) == ItemKey(b) {
      var sa, sb := IntToString(a.range.start.line), IntToString(b.range.start.line);
      KeyTailUnique(a.uri, sa, b.uri, sb);
      IntToStringInjective(a.range.start.line, b.range.start.line);
    }
  }

  /** A string ending in ':' then text without ':' splits there in only one way. */
  lemma KeyTailUnique(u1: string, s1: string, u2: string, s2: string)
    requires u1 + ":" + s1 == u2 + ":" + s2
    requires ':' !in s1 && ':' !in s2
    ensures u1 == u2 && s1 == s2
  {
    var key := u1 + ":" + s1;
    assert key == u2 + ":" + s2;
    assert key[|u1|] == ':' && key[|u2|] == ':';
    assert forall k :: |u1| < k < |key| ==> key[k] == s1[k - |u1| - 1];
    assert forall k :: |u2| < k < |key| ==> key[k] == s2[k - |u2| - 1];
    assert |u1| == |u2|;
    assert u1 == key[..|u1|] == u2;
    assert s1 == key[|u1| + 1..] == s2;
  }

  /** No element occurs twice. */
  predicate Distinct<T(==)>(s: seq<T>)
  {
    forall i, j :: 0 <= i < j < |s| ==> s[i] != s[j]
  }

  /** The levels' keys one after the other. */
  function Flatten<T>(levels: seq<seq<T>>): seq<T>
  {
    if levels == [] then [] else levels[0] + Flatten(levels[1..])
  }

  function Elements<T(==)>(s: seq<T>): set<T>
  {
    set x | x in s
  }

  lemma FlattenCons<T>(first: seq<T>, rest: seq<seq<T>>)
    ensures Flatten([first] + rest) == first + Flatten(rest)
  {
    assert ([first] + rest)[1..] == rest;
  }

  lemma DistinctAppend<T>(a: seq<T>, b: seq<T>)
    requires Distinct(a) && Distinct(b)
    requires forall k :: 0 <= k < |b| ==> b[k] !in a
    ensures Distinct(a + b)
  {
    var s := a + b;
    forall i, j | 0 <= i < j < |s| ensures s[i] != s[j] {
      if j >= |a| && i < |a| {
        assert s[j] == b[j - |a|];
      }
    }
  }

  // ---------------------------------------------------------------------------
  // The entries one call contributes

  /** The entry for the call site `site` of a call whose other end is `peer`. */
  function Record(peer: Item, site: Range, depth: int): CallRecord
  {
    var (callLine, callColumn) := FromLsp(site.start);
    CallRecord(peer.name, PlaceOf(peer.uri, peer.range), peer.detail, peer.kind, callLine, callColumn, depth)
  }

  /** The entries for the given call sites, in order. */
  function SiteRecords(peer: Item, sites: seq<Range>, depth: int): seq<CallRecord>
  {
    seq(|sites|, k requires 0 <= k < |sites| => Record(peer, sites[k], depth))
  }

  /** The entries for the given calls: at most five call sites each, all at `depth`. */
  function CallsRecords(calls: seq<Call>, depth: int): (r: seq<CallRecord>)
    ensures |r| <= MaxRangesPerCall * |calls|
    ensures forall k :: 0 <= k < |r| ==> r[k].depth == depth
  {
    if calls == [] then []
    else
      var last := calls[|calls| - 1];
      CallsRecords(calls[..|calls| - 1], depth) + SiteRecords(last.peer, Take(last.ranges, MaxRangesPerCall), depth)
  }

  lemma {:induction false} CallsRecordsPrefix(calls: seq<Call>, i: nat, depth: int)
    requires i <= |calls|
    ensures CallsRecords(calls[..i], depth) <= CallsRecords(calls, depth)
    decreases |calls|
  {
    if i < |calls| {
      var init := calls[..|calls| - 1];
      assert calls[..i] == init[..i];
      CallsRecordsPrefix(init, i, depth);
    } else {
      assert calls[..i] == calls;
    }
  }

  /** Stopping after `m` sites of call `i` leaves a prefix of all the calls' entries. */
  lemma CutInsideCall(calls: seq<Call>, i: nat, depth: int, all0: seq<CallRecord>, all: seq<CallRecord>, m: nat)
    requires i < |calls|
    requires var sites := SiteRecords(calls[i].peer, Take(calls[i].ranges, MaxRangesPerCall), depth);
      m <= |sites| && all == all0 + CallsRecords(calls[..i], depth) + sites[..m]
    ensures all[..|all0|] == all0 && all[|all0|..] <= CallsRecords(calls, depth)
    ensures forall k :: |all0| <= k < |all| ==> all[k].depth == depth
  {
    var done := CallsRecords(calls[..i], depth);
    var sites := SiteRecords(calls[i].peer, Take(calls[i].ranges, MaxRangesPerCall), depth);
    NextCall(calls, i, depth);
    CallsRecordsPrefix(calls, i + 1, depth);
    assert done + sites[..m] <= done + sites;
    SeqAssoc(all0, done, sites[..m]);
    WithinCalls(calls, depth, all0, done + sites[..m], all);
  }

  /** Extending `all0` with a prefix of the calls' entries keeps `all0` in front and adds only entries of this depth. */
  lemma WithinCalls(calls: seq<Call>, depth: int, all0: seq<CallRecord>, added: seq<CallRecord>, all: seq<CallRecord>)
    requires all == all0 + added && added <= CallsRecords(calls, depth)
    ensures all[..|all0|] == all0 && all[|all0|..] <= CallsRecords(calls, depth)
    ensures forall k :: |all0| <= k < |all| ==> all[k].depth == depth
  {
    assert all[|all0|..] == added;
    assert forall k :: |all0| <= k < |all| ==> all[k] == CallsRecords(calls, depth)[k - |all0|];
  }

  /** Taking one more call adds its entries and its peer at the end. */
  lemma NextCall(calls: seq<Call>, i: nat, depth: int)
    requires i < |calls|
    ensures CallsRecords(calls[..i + 1], depth)
      == CallsRecords(calls[..i], depth) + SiteRecords(calls[i].peer, Take(calls[i].ranges, MaxRangesPerCall), depth)
    ensures Peers(calls[..i + 1]) == Peers(calls[..i]) + [calls[i].peer]
  {
    assert calls[..i + 1][..i] == calls[..i];
  }

  /** The items at the other end of the calls, in order. */
  function Peers(calls: seq<Call>): (r: seq<Item>)
    ensures |r| == |calls|
    ensures forall k :: 0 <= k < |r| ==> r[k] == calls[k].peer
  {
    seq(|calls|, k requires 0 <= k < |calls| => calls[k].peer)
  }

  // ---------------------------------------------------------------------------
  // The traversal as a recursive definition

  /** What expanding a list of items gives: the entries, the keys visited afterwards, and the items for the next level. */
  datatype Expansion = Expansion(records: seq<CallRecord>, visited: set<string>, next: seq<Item>)

  /**
   * One level, without the total limit: each item whose key is not yet
   * visited is marked visited and contributes the entries of its first
   * `perLevel` calls, and their peers when a next level exists; an item
   * already visited contributes nothing.
   */
  function ExpandItems(engine: Item -> seq<Call>, items: seq<Item>, visited: set<string>,
                       depth: int, maxDepth: int, perLevel: int): (e: Expansion)
    ensures forall k :: 0 <= k < |e.records| ==> e.records[k].depth == depth + 1
    ensures depth + 1 >= maxDepth ==> e.next == []
    decreases |items|
  {
    if items == [] then Expansion([], visited, [])
    else
      var key := ItemKey(items[0]);
      if key in visited then ExpandItems(engine, items[1..], visited, depth, maxDepth, perLevel)
      else
        var calls := Take(engine(items[0]), perLevel);
        var rest := ExpandItems(engine, items[1..], visited + {key}, depth, maxDepth, perLevel);
        Expansion(CallsRecords(calls, depth + 1) + rest.records, rest.visited,
                  (if depth + 1 < maxDepth then Peers(calls) else []) + rest.next)
  }

  /**
   * The whole traversal from `items` at `depth`, without the total limit:
   * the entries of the first `perLevel` items, then those of the level their
   * calls lead to, down to `maxDepth`.
   */
  function Traverse(engine: Item -> seq<Call>, items: seq<Item>, visited: set<string>,
                    depth: int, maxDepth: int, perLevel: int): (r: seq<CallRecord>)
    ensures forall k :: 0 <= k < |r| ==> depth + 1 <= r[k].depth <= maxDepth
    decreases maxDepth - depth
  {
    if depth >= maxDepth then []
    else
      var e := ExpandItems(engine, Take(items, perLevel), visited, depth, maxDepth, perLevel);
      e.records + if e.next == [] then [] else Traverse(engine, e.next, e.visited, depth + 1, maxDepth, perLevel)
  }

  /** Expanding from item `i` on: a visited item is skipped, a new one contributes its calls' entries and peers ahead of the rest. */
  lemma ExpandItemsAt(engine: Item -> seq<Call>, level: seq<Item>, i: nat, visited: set<string>,
                      depth: int, maxDepth: int, perLevel: int)
    requires i < |level|
    ensures ItemKey(level[i]) in visited ==>
      ExpandItems(engine, level[i..], visited, depth, maxDepth, perLevel)
      == ExpandItems(engine, level[i + 1..], visited, depth, maxDepth, perLevel)
    ensures ItemKey(level[i]) !in visited ==>
      var calls := Take(engine(level[i]), perLevel);
      var rest := ExpandItems(engine, level[i + 1..], visited + {ItemKey(level[i])}, depth, maxDepth, perLevel);
      ExpandItems(engine, level[i..], visited, depth, maxDepth, perLevel)
      == Expansion(CallsRecords(calls, depth + 1) + rest.records, rest.visited,
                   (if depth + 1 < maxDepth then Peers(calls) else []) + rest.next)
  {
    assert level[i..][0] == level[i] && level[i..][1..] == level[i + 1..];
  }

  /** `part` occurs in `whole` as a run of consecutive elements. */
  predicate HasRun<T(==)>(whole: seq<T>, part: seq<T>)
  {
    exists i :: 0 <= i <= |whole| && part <= whole[i..]
  }

  /** A run of `whole` is a run of anything that ends with `whole`. */
  lemma RunAfter<T>(head: seq<T>, whole: seq<T>, part: seq<T>)
    requires HasRun(whole, part)
    ensures HasRun(head + whole, part)
  {
    var i :| 0 <= i <= |whole| && part <= whole[i..];
    assert (head + whole)[|head| + i..] == whole[i..];
  }

  /** A run of `whole` is a run of anything that starts with `whole`. */
  lemma RunBefore<T>(whole: seq<T>, tail: seq<T>, part: seq<T>)
    requires HasRun(whole, part)
    ensures HasRun(whole + tail, part)
  {
    var i :| 0 <= i <= |whole| && part <= whole[i..];
    assert (whole + tail)[i..] == whole[i..] + tail;
  }

  /**
   * Every item of a level whose key is neither visited nor held by an earlier
   * item of the level is expanded: all the entries of its first `perLevel`
   * calls appear, together and in order, in what the level gives.
   */
  lemma {:induction false} ItemExpanded(engine: Item -> seq<Call>, items: seq<Item>, k: nat, visited: set<string>,
                                        depth: int, maxDepth: int, perLevel: int)
    requires k < |items| && ItemKey(items[k]) !in visited
    requires forall j :: 0 <= j < k ==> ItemKey(items[j]) != ItemKey(items[k])
    ensures HasRun(ExpandItems(engine, items, visited, depth, maxDepth, perLevel).records,
                   CallsRecords(Take(engine(items[k]), perLevel), depth + 1))
    decreases k
  {
    var mine := CallsRecords(Take(engine(items[k]), perLevel), depth + 1);
    var key := ItemKey(items[0]);
    var e := ExpandItems(engine, items, visited, depth, maxDepth, perLevel);
    if k == 0 {
      var rest := ExpandItems(engine, items[1..], visited + {key}, depth, maxDepth, perLevel);
      assert e.records == mine + rest.records;
      assert mine <= e.records[0..];
    } else {
      var tail := items[1..];
      assert tail[k - 1] == items[k];
      assert forall j :: 0 <= j < k - 1 ==> tail[j] == items[j + 1];
      var v := if key in visited then visited else visited + {key};
      assert key != ItemKey(items[k]);
      ItemExpanded(engine, tail, k - 1, v, depth, maxDepth, perLevel);
      var rest := ExpandItems(engine, tail, v, depth, maxDepth, perLevel);
      if key !in visited {
        RunAfter(CallsRecords(Take(engine(items[0]), perLevel), depth + 1), rest.records, mine);
      }
    }
  }

  /**
   * Every item among the first `perLevel` of a level within the depth limit
   * whose key is new is expanded: its calls' entries appear, together and in
   * order, in the traversal.
   */
  lemma TraverseExpands(engine: Item -> seq<Call>, items: seq<Item>, k: nat, visited: set<string>,
                        depth: int, maxDepth: int, perLevel: int)
    requires depth < maxDepth && k < |items| && k < perLevel
    requires ItemKey(items[k]) !in visited
    requires forall j :: 0 <= j < k ==> ItemKey(items[j]) != ItemKey(items[k])
    ensures HasRun(Traverse(engine, items, visited, depth, maxDepth, perLevel),
                   CallsRecords(Take(engine(items[k]), perLevel), depth + 1))
  {
    var level := Take(items, perLevel);
    assert level[k] == items[k];
    assert forall j :: 0 <= j < k ==> level[j] == items[j];
    ItemExpanded(engine, level, k, visited, depth, maxDepth, perLevel);
    var e := ExpandItems(engine, level, visited, depth, maxDepth, perLevel);
    var deeper := if e.next == [] then [] else Traverse(engine, e.next, e.visited, depth + 1, maxDepth, perLevel);
    RunBefore(e.records, deeper, CallsRecords(Take(engine(items[k]), perLevel), depth + 1));
  }

  /** Cutting a list that starts with `a` after at least `|a|` elements keeps `a` in front. */
  lemma TakeAfter<T>(a: seq<T>, b: seq<T>, n: int)
    requires |a| <= n
    ensures Take(a + b, n) == a + Take(b, n - |a|)
  {
    var t := Take(a + b, n);
    assert t == (a + b)[..|t|];
  }

  /** A prefix of `n` elements is the cut at `n`. */
  lemma PrefixIsTake<T>(a: seq<T>, t: seq<T>, n: int)
    requires a <= t && |a| == n
    ensures Take(t, n) == a
  {
  }

  // ---------------------------------------------------------------------------
  // The traversal

  /**
   * The inner loop over one call's sites: append an entry per site, and stop
   * as soon as the collected list reaches `maxTotal`.
   */
  method AppendSites(peer: Item, sites: seq<Range>, depth: int, maxTotal: int, all0: seq<CallRecord>)
    returns (all: seq<CallRecord>, full: bool)
    requires |all0| < maxTotal || all0 == []
    ensures |all| <= Max(maxTotal, 1)
    ensures full ==> (|all0| < |all| <= |all0| + |sites| && |all| >= maxTotal
      && all == all0 + SiteRecords(peer, sites, depth)[..|all| - |all0|])
    ensures !full ==> all == all0 + SiteRecords(peer, sites, depth) && (|all| < maxTotal || all == [])
  {
    ghost var records := SiteRecords(peer, sites, depth);
    all, full := all0, false;
    var j := 0;
    while j < |sites|
      invariant 0 <= j <= |sites|
      invariant all == all0 + records[..j]
      invariant |all| < maxTotal || all == []
    {
      assert records[..j + 1] == records[..j] + [Record(peer, sites[j], depth)];
      all := all + [Record(peer, sites[j], depth)];
      if |all| >= maxTotal {
        full := true;
        return;
      }
      j := j + 1;
    }
    assert records[..j] == records;
  }

  /**
   * The loop over one item's calls (already cut to the per-level limit):
   * append the entries of each call, and collect the peers for the next level
   * when there is one.
   */
  method ExpandCalls(calls: seq<Call>, depth: int, maxDepth: int, maxTotal: int, all0: seq<CallRecord>)
    returns (all: seq<CallRecord>, peers: seq<Item>, full: bool)
    requires |all0| < maxTotal || all0 == []
    ensures |all0| <= |all| <= Max(maxTotal, 1)
    ensures all[..|all0|] == all0 && all[|all0|..] <= CallsRecords(calls, depth + 1)
    ensures forall k :: |all0| <= k < |all| ==> all[k].depth == depth + 1
    ensures full ==> |all0| < |all| && |all| >= maxTotal
    ensures !full ==> all == all0 + CallsRecords(calls, depth + 1) && (|all| < maxTotal || all == [])
    ensures !full ==> peers == if depth + 1 < maxDepth then Peers(calls) else []
  {
    all, peers, full := all0, [], false;
    var i := 0;
    assert calls[..0] == [];
    while i < |calls|
      invariant 0 <= i <= |calls|
      invariant CallsSoFar(calls, i, depth, maxDepth, maxTotal, all0, all, peers)
    {
      all, peers, full := ExpandCall(calls, i, depth, maxDepth, maxTotal, all0, all, peers);
      if full {
        return;
      }
      i := i + 1;
    }
    CallsDone(calls, depth, maxDepth, maxTotal, all0, all, peers);
  }

  /** The invariant of the loop over one item's calls: the first `i` calls' entries and peers are added. */
  ghost predicate CallsSoFar(calls: seq<Call>, i: nat, depth: int, maxDepth: int, maxTotal: int,
                             all0: seq<CallRecord>, all: seq<CallRecord>, peers: seq<Item>)
    requires i <= |calls|
  {
    all == all0 + CallsRecords(calls[..i], depth + 1)
    && (|all| < maxTotal || all == [])
    && peers == if depth + 1 < maxDepth then Peers(calls[..i]) else []
  }

  /** After the last call, the loop has added every call's entries and peers. */
  lemma CallsDone(calls: seq<Call>, depth: int, maxDepth: int, maxTotal: int,
                  all0: seq<CallRecord>, all: seq<CallRecord>, peers: seq<Item>)
    requires |all0| < maxTotal || all0 == []
    requires CallsSoFar(calls, |calls|, depth, maxDepth, maxTotal, all0, all, peers)
    ensures |all0| <= |all| <= Max(maxTotal, 1)
    ensures all[..|all0|] == all0 && all[|all0|..] <= CallsRecords(calls, depth + 1)
    ensures forall k :: |all0| <= k < |all| ==> all[k].depth == depth + 1
    ensures all == all0 + CallsRecords(calls, depth + 1) && (|all| < maxTotal || all == [])
    ensures peers == if depth + 1 < maxDepth then Peers(calls) else []
  {
    assert calls[..|calls|] == calls;
    WithinCalls(calls, depth + 1, all0, CallsRecords(calls, depth + 1), all);
  }


  /** One round of `ExpandCalls`' loop: the entries of call `i`, and its peer when there is a next level. */
  method ExpandCall(calls: seq<Call>, i: nat, depth: int, maxDepth: int, maxTotal: int, all0: seq<CallRecord>,
                    all: seq<CallRecord>, peers: seq<Item>)
    returns (all': seq<CallRecord>, peers': seq<Item>, full: bool)
    requires i < |calls|
    requires CallsSoFar(calls, i, depth, maxDepth, maxTotal, all0, all, peers)
    ensures full ==> (|all0| < |all'| <= Max(maxTotal, 1) && |all'| >= maxTotal
      && all'[..|all0|] == all0 && all'[|all0|..] <= CallsRecords(calls, depth + 1)
      && forall k :: |all0| <= k < |all'| ==> all'[k].depth == depth + 1)
    ensures !full ==> CallsSoFar(calls, i + 1, depth, maxDepth, maxTotal, all0, all', peers')
  {
    var call := calls[i];
    NextCall(calls, i, depth + 1);
    ghost var done := CallsRecords(calls[..i], depth + 1);
    ghost var sites := SiteRecords(call.peer, Take(call.ranges, MaxRangesPerCall), depth + 1);
    all', full := AppendSites(call.peer, Take(call.ranges, MaxRangesPerCall), depth + 1, maxTotal, all);
    peers' := peers;
    if full {
      CutInsideCall(calls, i, depth + 1, all0, all', |all'| - |all|);
      return;
    }
    SeqAssoc(all0, done, sites);
    if depth + 1 < maxDepth {
      peers' := peers + [call.peer];
    }
  }

  /** Marking a new key visited keeps the level's keys distinct, unseen before, and the visited set their union with the old one. */
  lemma MarkVisited(keys: seq<string>, key: string, visited0: set<string>, visited: set<string>)
    requires Distinct(keys) && forall k :: 0 <= k < |keys| ==> keys[k] !in visited0
    requires visited == visited0 + Elements(keys) && key !in visited
    ensures Distinct(keys + [key]) && forall k :: 0 <= k < |keys| + 1 ==> (keys + [key])[k] !in visited0
    ensures visited + {key} == visited0 + Elements(keys + [key])
  {
    assert Elements(keys + [key]) == Elements(keys) + {key};
  }

  /** Appending entries at one depth to a list that extends `all0` with entries at that depth. */
  lemma Extend(all0: seq<CallRecord>, all: seq<CallRecord>, more: seq<CallRecord>, depth: int)
    requires |all0| <= |all| && all[..|all0|] == all0
    requires forall k :: |all0| <= k < |all| ==> all[k].depth == depth
    requires |all| <= |more| && more[..|all|] == all
    requires forall k :: |all| <= k < |more| ==> more[k].depth == depth
    ensures |all0| <= |more| && more[..|all0|] == all0
    ensures forall k :: |all0| <= k < |more| ==> more[k].depth == depth
  {
    assert forall k :: |all0| <= k < |all| ==> more[k] == all[k];
  }

  /** A call cut short by the total limit leaves a prefix of what the level gives. */
  lemma CutWithin(all0: seq<CallRecord>, all: seq<CallRecord>, more: seq<CallRecord>,
                  added: seq<CallRecord>, rest: seq<CallRecord>)
    requires |all0| <= |all| && all[..|all0|] == all0
    requires |all| <= |more| && more[..|all|] == all && more[|all|..] <= added
    ensures more[|all0|..] <= all[|all0|..] + (added + rest)
  {
    assert more[|all0|..] == all[|all0|..] + more[|all|..];
  }

  /** A call expanded in full moves its entries from what is still to come to what was collected. */
  lemma StepWithin(all0: seq<CallRecord>, all: seq<CallRecord>, added: seq<CallRecord>,
                   rest: seq<CallRecord>, total: seq<CallRecord>)
    requires |all0| <= |all| && all[..|all0|] == all0
    requires total == all[|all0|..] + (added + rest)
    ensures (all + added)[..|all0|] == all0 && total == (all + added)[|all0|..] + rest
  {
    assert (all + added)[|all0|..] == all[|all0|..] + added;
  }

  /**
   * Where the loop over a level stands after `i` items: what was collected
   * since `all0` and the peers kept, followed by what the remaining items
   * give, make up what the whole level gives.
   */
  ghost predicate LevelSoFar(engine: Item -> seq<Call>, level: seq<Item>, i: nat, visited0: set<string>,
                             depth: int, maxDepth: int, perLevel: int, all0: seq<CallRecord>,
                             all: seq<CallRecord>, visited: set<string>, toRecurse: seq<Item>)
    requires i <= |level| && |all0| <= |all|
  {
    var e0 := ExpandItems(engine, level, visited0, depth, maxDepth, perLevel);
    var rest := ExpandItems(engine, level[i..], visited, depth, maxDepth, perLevel);
    e0.records == all[|all0|..] + rest.records && e0.next == toRecurse + rest.next && e0.visited == rest.visited
  }

  /** The loop's bookkeeping of visited keys after some items. */
  ghost predicate KeysSoFar(keys: seq<string>, bound: int, visited0: set<string>, visited: set<string>)
  {
    |keys| <= bound && Distinct(keys)
    && (forall k :: 0 <= k < |keys| ==> keys[k] !in visited0)
    && visited == visited0 + Elements(keys)
  }

  /**
   * One round of `ExpandLevel`'s loop: skip item `i` if its key was visited,
   * otherwise mark it visited and append its calls' entries and peers.
   */
  method ExpandItem(engine: Item -> seq<Call>, level: seq<Item>, i: nat, depth: int, maxDepth: int,
                    perLevel: int, maxTotal: int, all0: seq<CallRecord>, visited0: set<string>,
                    all: seq<CallRecord>, visited: set<string>, keys: seq<string>, toRecurse: seq<Item>)
    returns (all': seq<CallRecord>, visited': set<string>, keys': seq<string>, toRecurse': seq<Item>, full: bool)
    requires i < |level|
    requires |all0| <= |all| <= Max(maxTotal, 1) && all[..|all0|] == all0
    requires |all| < maxTotal || all == []
    requires KeysSoFar(keys, i, visited0, visited)
    requires LevelSoFar(engine, level, i, visited0, depth, maxDepth, perLevel, all0, all, visited, toRecurse)
    ensures |all0| <= |all'| <= Max(maxTotal, 1) && all'[..|all0|] == all0
    ensures KeysSoFar(keys', i + 1, visited0, visited')
    ensures full ==> (|all'| >= maxTotal
      && all'[|all0|..] <= ExpandItems(engine, level, visited0, depth, maxDepth, perLevel).records)
    ensures !full ==> ((|all'| < maxTotal || all' == [])
      && LevelSoFar(engine, level, i + 1, visited0, depth, maxDepth, perLevel, all0, all', visited', toRecurse'))
  {
    ghost var e0 := ExpandItems(engine, level, visited0, depth, maxDepth, perLevel);
    all', visited', keys', toRecurse', full := all, visited, keys, toRecurse, false;
    var key := ItemKey(level[i]);
    ExpandItemsAt(engine, level, i, visited, depth, maxDepth, perLevel);
    if key in visited {
      return;
    }
    ghost var rest := ExpandItems(engine, level[i + 1..], visited + {key}, depth, maxDepth, perLevel);
    MarkVisited(keys, key, visited0, visited);
    visited' := visited + {key};
    keys' := keys + [key];
    var calls := Take(engine(level[i]), perLevel);
    var peers;
    all', peers, full := ExpandCalls(calls, depth, maxDepth, maxTotal, all);
    if full {
      CutWithin(all0, all, all', CallsRecords(calls, depth + 1), rest.records);
      return;
    }
    StepWithin(all0, all, CallsRecords(calls, depth + 1), rest.records, e0.records);
    SeqAssoc(toRecurse, peers, rest.next);
    toRecurse' := toRecurse + peers;
  }

  /**
   * The loop over one level's items (already cut to the per-level limit):
   * skip an item whose key was visited, otherwise mark it visited, ask the
   * engine for its calls (cut to the per-level limit) and append their
   * entries. `full` reports that the total limit was reached; until then the
   * level gives exactly what `ExpandItems` describes, and when it is reached
   * the entries added are a prefix of those.
   */
  method ExpandLevel(engine: Item -> seq<Call>, level: seq<Item>, depth: int, maxDepth: int,
                     perLevel: int, maxTotal: int, all0: seq<CallRecord>, visited0: set<string>)
    returns (all: seq<CallRecord>, visited: set<string>, keys: seq<string>, toRecurse: seq<Item>, full: bool)
    requires |all0| < maxTotal || all0 == []
    ensures |all0| <= |all| <= Max(maxTotal, 1) && all[..|all0|] == all0
    ensures full ==> (|all| >= maxTotal
      && all[|all0|..] <= ExpandItems(engine, level, visited0, depth, maxDepth, perLevel).records)
    ensures !full ==> ((|all| < maxTotal || all == [])
      && all == all0 + ExpandItems(engine, level, visited0, depth, maxDepth, perLevel).records
      && visited == ExpandItems(engine, level, visited0, depth, maxDepth, perLevel).visited
      && toRecurse == ExpandItems(engine, level, visited0, depth, maxDepth, perLevel).next)
    ensures |keys| <= |level| && Distinct(keys)
    ensures forall k :: 0 <= k < |keys| ==> keys[k] !in visited0
    ensures visited == visited0 + Elements(keys)
  {
    all, visited, keys, toRecurse, full := all0, visited0, [], [], false;
    LevelStart(engine, level, visited0, depth, maxDepth, perLevel, all0);
    var i := 0;
    while i < |level|
      invariant 0 <= i <= |level|
      invariant |all0| <= |all| <= Max(maxTotal, 1) && all[..|all0|] == all0
      invariant |all| < maxTotal || all == []
      invariant KeysSoFar(keys, i, visited0, visited)
      invariant LevelSoFar(engine, level, i, visited0, depth, maxDepth, perLevel, all0, all, visited, toRecurse)
    {
      all, visited, keys, toRecurse, full := ExpandItem(engine, level, i, depth, maxDepth, perLevel, maxTotal,
                                                        all0, visited0, all, visited, keys, toRecurse);
      if full {
        return;
      }
      i := i + 1;
    }
    LevelDone(engine, level, visited0, depth, maxDepth, perLevel, all0, all, visited, toRecurse);
  }

  /** Before the first item nothing is collected and the whole level is still to come. */
  lemma LevelStart(engine: Item -> seq<Call>, level: seq<Item>, visited0: set<string>,
                   depth: int, maxDepth: int, perLevel: int, all0: seq<CallRecord>)
    ensures LevelSoFar(engine, level, 0, visited0, depth, maxDepth, perLevel, all0, all0, visited0, [])
  {
    assert level[0..] == level;
    assert all0[|all0|..] == [];
  }

  /** After the last item the collected entries, the visited keys and the peers are those of the whole level. */
  lemma LevelDone(engine: Item -> seq<Call>, level: seq<Item>, visited0: set<string>, depth: int, maxDepth: int,
                  perLevel: int, all0: seq<CallRecord>, all: seq<CallRecord>, visited: set<string>, toRecurse: seq<Item>)
    requires |all0| <= |all| && all[..|all0|] == all0
    requires LevelSoFar(engine, level, |level|, visited0, depth, maxDepth, perLevel, all0, all, visited, toRecurse)
    ensures all == all0 + ExpandItems(engine, level, visited0, depth, maxDepth, perLevel).records
    ensures visited == ExpandItems(engine, level, visited0, depth, maxDepth, perLevel).visited
    ensures toRecurse == ExpandItems(engine, level, visited0, depth, maxDepth, perLevel).next
  {
    assert level[|level|..] == [];
    assert all == all[..|all0|] + all[|all0|..];
  }

  /**
   * One level of the traversal (`_get_calls_at_depth`): expand the first
   * `perLevel` items not yet visited, then go one level deeper with the peers
   * found, while the depth and total limits allow. What it adds is a prefix
   * of the unlimited traversal, and with a total limit of at least one it is
   * exactly the part of that traversal the limit leaves room for. `expanded`
   * lists, level by level, the keys of the items whose calls were asked for.
   */
  method CallsAtDepth(engine: Item -> seq<Call>, items: seq<Item>, depth: nat, maxDepth: int,
                      perLevel: int, maxTotal: int, all0: seq<CallRecord>, visited0: set<string>)
    returns (all: seq<CallRecord>, visited: set<string>, expanded: seq<seq<string>>)
    requires |all0| < maxTotal || all0 == []
    ensures |all0| <= |all| <= Max(maxTotal, 1) && all[..|all0|] == all0
    ensures all[|all0|..] <= Traverse(engine, items, visited0, depth, maxDepth, perLevel)
    ensures maxTotal >= 1 ==> all == all0 + Take(Traverse(engine, items, visited0, depth, maxDepth, perLevel), maxTotal - |all0|)
    ensures |expanded| <= Max(maxDepth - depth, 0)
    ensures perLevel >= 0 ==> forall l :: 0 <= l < |expanded| ==> |expanded[l]| <= perLevel
    ensures Distinct(Flatten(expanded))
    ensures forall k :: 0 <= k < |Flatten(expanded)| ==> Flatten(expanded)[k] !in visited0
    ensures visited == visited0 + Elements(Flatten(expanded))
    decreases maxDepth - depth
  {
    all, visited, expanded := all0, visited0, [];
    if depth >= maxDepth {
      assert all[|all0|..] == [];
      return;
    }
    var keys, toRecurse, full;
    all, visited, keys, toRecurse, full := ExpandLevel(engine, Take(items, perLevel), depth, maxDepth,
                                                       perLevel, maxTotal, all0, visited0);
    expanded := [keys];
    ExpandedJoin(keys, [], visited0, visited, visited);
    if full {
      FullLevel(engine, items, visited0, depth, maxDepth, perLevel, maxTotal, all0, all);
    } else if toRecurse != [] && depth + 1 < maxDepth && |all| < maxTotal {
      var deeper;
      ghost var here, hereVisited := all, visited;
      all, visited, deeper := CallsAtDepth(engine, toRecurse, depth + 1, maxDepth, perLevel, maxTotal, all, visited);
      expanded := [keys] + deeper;
      ExpandedJoin(keys, deeper, visited0, hereVisited, visited);
      DeeperLevel(engine, items, visited0, depth, maxDepth, perLevel, maxTotal, all0, here, all);
    } else {
      LastLevel(engine, items, visited0, depth, maxDepth, perLevel, maxTotal, all0, all, toRecurse);
    }
  }

  /** The total limit reached inside the first level: what was added is the limit's share of the traversal. */
  lemma FullLevel(engine: Item -> seq<Call>, items: seq<Item>, visited0: set<string>, depth: int, maxDepth: int,
                  perLevel: int, maxTotal: int, all0: seq<CallRecord>, all: seq<CallRecord>)
    requires depth < maxDepth
    requires |all0| <= |all| <= Max(maxTotal, 1) && all[..|all0|] == all0 && |all| >= maxTotal
    requires all[|all0|..] <= ExpandItems(engine, Take(items, perLevel), visited0, depth, maxDepth, perLevel).records
    ensures all[|all0|..] <= Traverse(engine, items, visited0, depth, maxDepth, perLevel)
    ensures maxTotal >= 1 ==> all == all0 + Take(Traverse(engine, items, visited0, depth, maxDepth, perLevel), maxTotal - |all0|)
  {
    var e := ExpandItems(engine, Take(items, perLevel), visited0, depth, maxDepth, perLevel);
    CutAtLimit(all0, all, e.records, Traverse(engine, items, visited0, depth, maxDepth, perLevel), maxTotal);
  }

  /** A first level with no peers to follow, or that exhausts the limit: what was added is all of it. */
  lemma LastLevel(engine: Item -> seq<Call>, items: seq<Item>, visited0: set<string>, depth: int, maxDepth: int,
                  perLevel: int, maxTotal: int, all0: seq<CallRecord>, all: seq<CallRecord>, toRecurse: seq<Item>)
    requires depth < maxDepth
    requires all == all0 + ExpandItems(engine, Take(items, perLevel), visited0, depth, maxDepth, perLevel).records
    requires toRecurse == ExpandItems(engine, Take(items, perLevel), visited0, depth, maxDepth, perLevel).next
    requires |all| < maxTotal || all == []
    requires !(toRecurse != [] && depth + 1 < maxDepth && |all| < maxTotal)
    ensures all[|all0|..] <= Traverse(engine, items, visited0, depth, maxDepth, perLevel)
    ensures maxTotal >= 1 ==> all == all0 + Take(Traverse(engine, items, visited0, depth, maxDepth, perLevel), maxTotal - |all0|)
  {
    var e := ExpandItems(engine, Take(items, perLevel), visited0, depth, maxDepth, perLevel);
    StopHere(all0, all, e.records, maxTotal);
  }

  /** A first level below the limit followed by the deeper levels: what was added is the limit's share of both. */
  lemma DeeperLevel(engine: Item -> seq<Call>, items: seq<Item>, visited0: set<string>, depth: int, maxDepth: int,
                    perLevel: int, maxTotal: int, all0: seq<CallRecord>, here: seq<CallRecord>, all: seq<CallRecord>)
    requires depth < maxDepth
    requires here == all0 + ExpandItems(engine, Take(items, perLevel), visited0, depth, maxDepth, perLevel).records
    requires |here| < maxTotal && ExpandItems(engine, Take(items, perLevel), visited0, depth, maxDepth, perLevel).next != []
    requires |here| <= |all| && all[..|here|] == here
    requires var e := ExpandItems(engine, Take(items, perLevel), visited0, depth, maxDepth, perLevel);
      all[|here|..] <= Traverse(engine, e.next, e.visited, depth + 1, maxDepth, perLevel)
      && all == here + Take(Traverse(engine, e.next, e.visited, depth + 1, maxDepth, perLevel), maxTotal - |here|)
    ensures all[..|all0|] == all0
    ensures all[|all0|..] <= Traverse(engine, items, visited0, depth, maxDepth, perLevel)
    ensures all == all0 + Take(Traverse(engine, items, visited0, depth, maxDepth, perLevel), maxTotal - |all0|)
  {
    var e := ExpandItems(engine, Take(items, perLevel), visited0, depth, maxDepth, perLevel);
    JoinDeeper(all0, here, all, e.records, Traverse(engine, e.next, e.visited, depth + 1, maxDepth, perLevel), maxTotal);
  }

  /** The keys of one level, then those of the deeper levels: still distinct, unseen before, and all visited. */
  lemma ExpandedJoin(keys: seq<string>, deeper: seq<seq<string>>, visited0: set<string>, mid: set<string>, visited: set<string>)
    requires Distinct(keys) && (forall k :: 0 <= k < |keys| ==> keys[k] !in visited0) && mid == visited0 + Elements(keys)
    requires Distinct(Flatten(deeper)) && forall k :: 0 <= k < |Flatten(deeper)| ==> Flatten(deeper)[k] !in mid
    requires visited == mid + Elements(Flatten(deeper))
    ensures Distinct(Flatten([keys] + deeper))
    ensures forall k :: 0 <= k < |Flatten([keys] + deeper)| ==> Flatten([keys] + deeper)[k] !in visited0
    ensures visited == visited0 + Elements(Flatten([keys] + deeper))
  {
    FlattenCons(keys, deeper);
    DistinctAppend(keys, Flatten(deeper));
    assert Elements(keys + Flatten(deeper)) == Elements(keys) + Elements(Flatten(deeper));
  }

  /** The total limit reached inside a level: what was added is the limit's share of the traversal. */
  lemma CutAtLimit(all0: seq<CallRecord>, all: seq<CallRecord>, level: seq<CallRecord>, total: seq<CallRecord>, maxTotal: int)
    requires |all0| <= |all| <= Max(maxTotal, 1) && all[..|all0|] == all0 && |all| >= maxTotal
    requires all[|all0|..] <= level && level <= total
    ensures all[|all0|..] <= total
    ensures maxTotal >= 1 ==> all == all0 + Take(total, maxTotal - |all0|)
  {
    if maxTotal >= 1 {
      PrefixIsTake(all[|all0|..], total, maxTotal - |all0|);
      assert all == all[..|all0|] + all[|all0|..];
    }
  }

  /** A level that ends the traversal below the limit: what was added is all of it. */
  lemma StopHere(all0: seq<CallRecord>, all: seq<CallRecord>, level: seq<CallRecord>, maxTotal: int)
    requires all == all0 + level && (|all| < maxTotal || all == [])
    ensures all[|all0|..] == level
    ensures maxTotal >= 1 ==> all == all0 + Take(level, maxTotal - |all0|)
  {
    assert all[|all0|..] == level;
  }

  /** A level below the limit followed by the deeper levels: what was added is the limit's share of both. */
  lemma JoinDeeper(all0: seq<CallRecord>, here: seq<CallRecord>, all: seq<CallRecord>,
                   level: seq<CallRecord>, deeper: seq<CallRecord>, maxTotal: int)
    requires here == all0 + level && |here| < maxTotal
    requires |here| <= |all| && all[..|here|] == here && all[|here|..] <= deeper
    requires all == here + Take(deeper, maxTotal - |here|)
    ensures all[..|all0|] == all0 && all[|all0|..] <= level + deeper
    ensures all == all0 + Take(level + deeper, maxTotal - |all0|)
  {
    TakeAfter(level, deeper, maxTotal - |all0|);
    assert all[|all0|..] == level + all[|here|..];
  }

  /** The order of the result: by depth, then file, then line. */
  function RecordKey(c: CallRecord): seq<KeyPart>
  {
    [KInt(c.depth), KStr(c.place.file), KInt(c.place.line)]
  }

  /**
   * `_get_recursive_incoming_calls` and `_get_recursive_outgoing_calls`
   * after the prepare step: traverse from the prepared items, sort the
   * collected entries by (depth, file, line) and keep the first `maxTotal`.
   * `collected` is what the traversal gathered: the first `maxTotal` entries
   * of the unlimited traversal `Traverse`. `expanded` lists the keys asked for.
   */
  method RecursiveCalls(engine: Item -> seq<Call>, prepared: seq<Item>, maxDepth: int,
                        perLevel: int, maxTotal: int)
    returns (r: seq<CallRecord>, collected: seq<CallRecord>, expanded: seq<seq<string>>)
    ensures maxDepth <= 0 || prepared == [] ==> r == [] && collected == [] && expanded == []
    ensures collected <= Traverse(engine, prepared, {}, 0, maxDepth, perLevel)
    ensures maxTotal >= 1 ==> collected == Take(Traverse(engine, prepared, {}, 0, maxDepth, perLevel), maxTotal)
    ensures r == Take(SortBy(collected, RecordKey), maxTotal)
    ensures maxTotal <= 0 ==> r == []
    ensures maxTotal >= 1 ==> multiset(r) == multiset(collected)
    ensures SortedBy(r, RecordKey)
    ensures forall k :: 0 <= k < |r| ==> 1 <= r[k].depth <= maxDepth
    ensures |expanded| <= Max(maxDepth, 0)
    ensures perLevel >= 0 ==> forall l :: 0 <= l < |expanded| ==> |expanded[l]| <= perLevel
    ensures Distinct(Flatten(expanded))
  {
    collected, expanded := CollectCalls(engine, prepared, maxDepth, perLevel, maxTotal);
    r := Take(SortBy(collected, RecordKey), maxTotal);
    SortAndCut(collected, maxTotal, maxDepth);
  }

  /** The traversal step of `RecursiveCalls`: nothing without depth or items, else the limit's share of `Traverse`. */
  method CollectCalls(engine: Item -> seq<Call>, prepared: seq<Item>, maxDepth: int, perLevel: int, maxTotal: int)
    returns (collected: seq<CallRecord>, expanded: seq<seq<string>>)
    ensures maxDepth <= 0 || prepared == [] ==> collected == [] && expanded == []
    ensures collected <= Traverse(engine, prepared, {}, 0, maxDepth, perLevel)
    ensures maxTotal >= 1 ==> collected == Take(Traverse(engine, prepared, {}, 0, maxDepth, perLevel), maxTotal)
    ensures |collected| <= Max(maxTotal, 1)
    ensures forall k :: 0 <= k < |collected| ==> 1 <= collected[k].depth <= maxDepth
    ensures |expanded| <= Max(maxDepth, 0)
    ensures perLevel >= 0 ==> forall l :: 0 <= l < |expanded| ==> |expanded[l]| <= perLevel
    ensures Distinct(Flatten(expanded))
  {
    if maxDepth <= 0 || prepared == [] {
      NothingToTraverse(engine, prepared, maxDepth, perLevel);
      return [], [];
    }
    var visited;
    collected, visited, expanded := CallsAtDepth(engine, prepared, 0, maxDepth, perLevel, maxTotal, [], {});
    FromEmpty(collected, Traverse(engine, prepared, {}, 0, maxDepth, perLevel), maxTotal);
  }


  /** Without depth or prepared items there is nothing to traverse. */
  lemma NothingToTraverse(engine: Item -> seq<Call>, prepared: seq<Item>, maxDepth: int, perLevel: int)
    requires maxDepth <= 0 || prepared == []
    ensures Traverse(engine, prepared, {}, 0, maxDepth, perLevel) == []
  {
    if maxDepth > 0 {
      assert Take(prepared, perLevel) == [];
    }
  }

  /** A traversal started from an empty list collects the limit's share of the unlimited traversal. */
  lemma FromEmpty(collected: seq<CallRecord>, total: seq<CallRecord>, maxTotal: int)
    requires collected[0..] <= total
    requires maxTotal >= 1 ==> collected == [] + Take(total, maxTotal - 0)
    ensures collected <= total
    ensures maxTotal >= 1 ==> collected == Take(total, maxTotal)
  {
    assert collected[0..] == collected;
  }

  /** The final cut: sorted, drawn from the collected entries, all of them when they fit, and none for a limit below one. */
  lemma SortAndCut(collected: seq<CallRecord>, maxTotal: int, maxDepth: int)
    requires |collected| <= Max(maxTotal, 1)
    requires forall k :: 0 <= k < |collected| ==> 1 <= collected[k].depth <= maxDepth
    ensures var r := Take(SortBy(collected, RecordKey), maxTotal);
      SortedBy(r, RecordKey) && multiset(r) <= multiset(collected)
      && (maxTotal >= 1 ==> multiset(r) == multiset(collected))
      && (maxTotal <= 0 || collected == [] ==> r == [])
      && forall k :: 0 <= k < |r| ==> 1 <= r[k].depth <= maxDepth
  {
    var sorted := SortBy(collected, RecordKey);
    SortBySorted(collected, RecordKey);
    var r := Take(sorted, maxTotal);
    TakeKeeps(sorted, maxTotal);
    forall k | 0 <= k < |r| ensures 1 <= r[k].depth <= maxDepth {
      assert r[k] in multiset(collected);
    }
  }

  /** A prefix of a sorted list is sorted and holds a sub-multiset of it; a cut at one or more keeps all of a list no longer than that. */
  lemma TakeKeeps(sorted: seq<CallRecord>, n: int)
    requires SortedBy(sorted, RecordKey)
    ensures SortedBy(Take(sorted, n), RecordKey)
    ensures multiset(Take(sorted, n)) <= multiset(sorted)
    ensures n >= |sorted| ==> Take(sorted, n) == sorted
  {
    var t := Take(sorted, n);
    assert sorted == t + sorted[|t|..];
  }
}
