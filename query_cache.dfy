/**
 * The cache of engine answers: a table from key to (result, file hash,
 * timestamp). A key names the tool, a hash of the file's stat data, the
 * position and the remaining parameters in sorted order; a lookup hits only
 * an entry younger than the time-to-live.
 *
 * The clock (`now`, whole seconds), the file system's stat results and md5
 * are parameters; `fault` says that the storage call raised.
 */
module QueryCache {
  import opened Wrappers
  import opened PyStr
  import opened Sorting
  import opened Json

  /** Entries live for 24 hours. */
  const Ttl := 86400
  /** The file hash of a file that cannot be stat'ed. */
  const Missing := "missing"
  /** The number of hex digits of md5 kept in a file hash. */
  const HashLength := 12

  predicate IsHexChar(c: char)
  {
    '0' <= c <= '9' || 'a' <= c <= 'f'
  }

  /** What `hexdigest()` of md5 returns: 32 lower-case hex digits. */
  type HexDigest = s: string | |s| == 32 && forall k :: 0 <= k < |s| ==> IsHexChar(s[k])
    witness "00000000000000000000000000000000"

  /** The stat fields the hash reads: modification time and size. */
  datatype FileStat = FileStat(mtime: nat, size: nat)

  /** `_get_file_hash`: "missing" when stat fails, else the first 12 hex digits of md5 of "mtime:size:path". */
  function FileHash(path: string, stat: string -> Option<FileStat>, md5: string -> HexDigest): (r: string)
    ensures r == Missing <==> stat(path).None?
    ensures stat(path).Some? ==> |r| == HashLength && forall k :: 0 <= k < |r| ==> IsHexChar(r[k])
    ensures ':' !in r
  {
    match stat(path)
    case None => Missing
    case Some(st) =>
      var digest := md5(IntToString(st.mtime) + ":" + IntToString(st.size) + ":" + path);
      assert !IsHexChar(Missing[0]);
      digest[..HashLength]
  }

  // ---------------------------------------------------------------------------
  // Keys

  /** A tool call's parameters as a dict: names with the `str()` of their values, in insertion order. */
  type Params = seq<(string, string)>

  /** A dict holds each name once. */
  predicate DistinctNames(params: Params)
  {
    forall i, j :: 0 <= i < j < |params| ==> params[i].0 != params[j].0
  }

  /** `params[name]`, or None where Python raises KeyError. */
  function Lookup(params: Params, name: string): (r: Option<string>)
  {
    if params == [] then None
    else if params[0].0 == name then Some(params[0].1)
    else Lookup(params[1..], name)
  }

  /** In a dict, a name is bound to exactly the value of its pair. */
  lemma {:induction false} LookupFinds(params: Params, name: string, value: string)
    requires DistinctNames(params)
    ensures Lookup(params, name) == Some(value) <==> (name, value) in params
  {
    if params != [] {
      if params[0].0 != name {
        LookupFinds(params[1..], name, value);
        assert (name, value) in params <==> (name, value) in params[1..];
      }
    }
  }

  /** The names `make_key` takes apart from the extra parameters. */
  predicate Positional(name: string)
  {
    name == "file" || name == "line" || name == "column"
  }

  /** The parameters other than file, line and column, in dict order. */
  function Others(params: Params): (r: Params)
    ensures forall x :: multiset(r)[x] == if Positional(x.0) then 0 else multiset(params)[x]
  {
    if params == [] then []
    else
      assert params == [params[0]] + params[1..];
      (if Positional(params[0].0) then [] else [params[0]]) + Others(params[1..])
  }

  function NameKey(p: (string, string)): seq<KeyPart>
  {
    StrKey(p.0)
  }

  /** "name:value" for each pair, in order. */
  function Rendered(params: Params): (r: seq<string>)
    ensures |r| == |params|
  {
    if params == [] then [] else [params[0].0 + ":" + params[0].1] + Rendered(params[1..])
  }

  /** The extra key parts: the other parameters sorted by name. */
  function Extras(params: Params): seq<string>
  {
    Rendered(SortBy(Others(params), NameKey))
  }

  /**
   * `make_key`: tool, file hash, line and column, then "name:value" for every
   * other parameter in sorted name order, joined with ':'. None where a
   * positional parameter is missing.
   */
  function MakeKey(tool: string, params: Params, stat: string -> Option<FileStat>, md5: string -> HexDigest)
    : Option<string>
  {
    match (Lookup(params, "file"), Lookup(params, "line"), Lookup(params, "column"))
    case (Some(file), Some(line), Some(column)) => Some(KeyOf(tool, FileHash(file, stat, md5), line, column, Extras(params)))
    case _ => None
  }

  /** The parts of a key joined with ':'. */
  function KeyOf(tool: string, hash: string, line: string, column: string, extras: seq<string>): string
  {
    Join([tool, hash, line, column] + extras, ":")
  }

  /** The key does not depend on the order in which the parameters were inserted. */
  lemma MakeKeyOrderFree(tool: string, p: Params, q: Params, stat: string -> Option<FileStat>,
                         md5: string -> HexDigest)
    requires DistinctNames(p) && DistinctNames(q) && multiset(p) == multiset(q)
    ensures MakeKey(tool, p, stat, md5) == MakeKey(tool, q, stat, md5)
  {
    SameLookup(p, q, "file");
    SameLookup(p, q, "line");
    SameLookup(p, q, "column");
    ExtrasOrderFree(p, q);
  }

  lemma ExtrasOrderFree(p: Params, q: Params)
    requires DistinctNames(p) && multiset(p) == multiset(q)
    ensures Extras(p) == Extras(q)
  {
    var op, oq := Others(p), Others(q);
    OthersOrderFree(p, q);
    var sp, sq := SortBy(op, NameKey), SortBy(oq, NameKey);
    SortBySorted(op, NameKey);
    SortBySorted(oq, NameKey);
    SortedOthersUnique(p);
    SortedUnique(sp, sq, NameKey);
  }

  /** The same pairs in another order leave the same other parameters, up to order. */
  lemma OthersOrderFree(p: Params, q: Params)
    requires multiset(p) == multiset(q)
    ensures multiset(Others(p)) == multiset(Others(q))
  {
    forall x ensures multiset(Others(p))[x] == multiset(Others(q))[x] {
    }
  }

  /** The sorted other parameters of a dict never hold two pairs with one name. */
  lemma SortedOthersUnique(p: Params)
    requires DistinctNames(p)
    ensures var sp := SortBy(Others(p), NameKey);
      forall x, y :: x in sp && y in sp && NameKey(x) == NameKey(y) ==> x == y
  {
    var sp := SortBy(Others(p), NameKey);
    forall x | x in sp ensures x in p {
      assert x in multiset(sp);
      assert multiset(p)[x] > 0;
    }
    forall x, y | x in p && y in p && x.0 == y.0 ensures x == y {
      var i :| 0 <= i < |p| && p[i] == x;
      var j :| 0 <= j < |p| && p[j] == y;
    }
  }

  lemma SameLookup(p: Params, q: Params, name: string)
    requires DistinctNames(p) && DistinctNames(q) && multiset(p) == multiset(q)
    ensures Lookup(p, name) == Lookup(q, name)
  {
    var r := Lookup(p, name);
    if r.Some? {
      LookupFinds(p, name, r.value);
      assert (name, r.value) in multiset(q);
      LookupFinds(q, name, r.value);
    } else if Lookup(q, name).Some? {
      var v := Lookup(q, name).value;
      LookupFinds(q, name, v);
      assert (name, v) in multiset(p);
      LookupFinds(p, name, v);
    }
  }

  /** `set`'s reading of a key: its second ':'-separated field, or "unknown". */
  function StoredHash(key: string): string
  {
    var parts := Split(key, ":");
    if |parts| > 1 then parts[1] else "unknown"
  }

  /** The shape of a key: tool, ':', hash, ':', and the rest. */
  lemma KeyShape(tool: string, hash: string, line: string, column: string, extras: seq<string>)
    ensures KeyOf(tool, hash, line, column, extras) == tool + ":" + (hash + ":" + Join([line, column] + extras, ":"))
  {
    assert [tool, hash, line, column] + extras == [tool, hash] + ([line, column] + extras);
    JoinKey(tool, hash, [line, column] + extras);
  }

  lemma JoinKey(tool: string, hash: string, tail: seq<string>)
    requires |tail| > 0
    ensures Join([tool, hash] + tail, ":") == tool + ":" + (hash + ":" + Join(tail, ":"))
  {
    assert [tool, hash] + tail == [tool] + ([hash] + tail);
    JoinCons(tool, [hash] + tail, ":");
    JoinCons(hash, tail, ":");
  }

  /** Splitting "part:rest" at ':' when the part holds no ':' yields the part, then the pieces of the rest. */
  lemma SplitField(part: string, rest: string)
    requires ':' !in part
    ensures Split(part + ":" + rest, ":") == [part] + Split(rest, ":")
  {
    assert part + ":" + rest == part + (":" + rest);
    SplitAfterFree(part, ":" + rest, ":");
    assert (":" + rest)[1..] == rest;
  }

  /** The second ':'-field of "tool:hash:rest" is the hash when neither tool nor hash holds ':'. */
  lemma SecondField(tool: string, hash: string, rest: string)
    requires ':' !in tool && ':' !in hash
    ensures var parts := Split(tool + ":" + (hash + ":" + rest), ":"); |parts| > 1 && parts[1] == hash
  {
    SplitField(tool, hash + ":" + rest);
    SplitField(hash, rest);
  }

  /** Keys with the same tool and rest but different hashes differ, wherever ':' occurs in the tool. */
  lemma DifferentHash(tool: string, h1: string, h2: string, rest: string)
    requires ':' !in h1 && ':' !in h2 && h1 != h2
    ensures tool + ":" + (h1 + ":" + rest) != tool + ":" + (h2 + ":" + rest)
  {
    var x1, x2 := h1 + ":" + rest, h2 + ":" + rest;
    SplitField(h1, rest);
    SplitField(h2, rest);
    assert Split(x1, ":")[0] == h1 && Split(x2, ":")[0] == h2;
    assert x1 == (tool + ":" + x1)[|tool| + 1..];
    assert x2 == (tool + ":" + x2)[|tool| + 1..];
  }

  /** For a tool name without ':', the field `set` stores as the file hash is exactly the file's hash. */
  lemma StoredHashOfKey(tool: string, params: Params, stat: string -> Option<FileStat>, md5: string -> HexDigest)
    requires ':' !in tool && MakeKey(tool, params, stat, md5).Some?
    ensures StoredHash(MakeKey(tool, params, stat, md5).value) == FileHash(Lookup(params, "file").value, stat, md5)
  {
    var file, line, column := Lookup(params, "file").value, Lookup(params, "line").value, Lookup(params, "column").value;
    var hash := FileHash(file, stat, md5);
    KeyShape(tool, hash, line, column, Extras(params));
    SecondField(tool, hash, Join([line, column] + Extras(params), ":"));
  }

  /** Keys built for the same call under two different file hashes differ, so a changed file never hits an entry made before the change. */
  lemma KeysSeparateHashes(tool: string, params: Params, stat1: string -> Option<FileStat>,
                           stat2: string -> Option<FileStat>, md5: string -> HexDigest)
    requires MakeKey(tool, params, stat1, md5).Some?
    requires var file := Lookup(params, "file").value;
      FileHash(file, stat1, md5) != FileHash(file, stat2, md5)
    ensures MakeKey(tool, params, stat1, md5) != MakeKey(tool, params, stat2, md5)
  {
    var file, line, column := Lookup(params, "file").value, Lookup(params, "line").value, Lookup(params, "column").value;
    KeyShape(tool, FileHash(file, stat1, md5), line, column, Extras(params));
    KeyShape(tool, FileHash(file, stat2, md5), line, column, Extras(params));
    DifferentHash(tool, FileHash(file, stat1, md5), FileHash(file, stat2, md5), Join([line, column] + Extras(params), ":"));
  }

  // ---------------------------------------------------------------------------
  // The table

  /** A row of the `cache` table. */
  datatype Row = Row(result: Json, fileHash: string, timestamp: int)

  type Table = map<string, Row>

  /** `get`'s query: the result of an entry younger than the time-to-live. */
  function Hit(table: Table, key: string, now: int): (r: Option<Json>)
  {
    if key in table && table[key].timestamp > now - Ttl then Some(table[key].result) else None
  }

  /** `invalidate_file`'s deletion: every row carrying `hash`. */
  function WithoutHash(table: Table, hash: string): (r: Table)
  {
    map k | k in table && table[k].fileHash != hash :: table[k]
  }

  /** `_periodic_cleanup`'s deletion: every row older than the cutoff. */
  function Expire(table: Table, now: int): (r: Table)
  {
    map k | k in table && table[k].timestamp >= now - Ttl :: table[k]
  }

  /** After a store, the key hits with the stored result until the time-to-live runs out, and every other key answers as before. */
  lemma StoreThenHit(table: Table, key: string, result: Json, hash: string, stored: int, other: string, now: int)
    ensures Hit(table[key := Row(result, hash, stored)], key, now) == if now < stored + Ttl then Some(result) else None
    ensures other != key ==> Hit(table[key := Row(result, hash, stored)], other, now) == Hit(table, other, now)
  {
  }

  /** Cleanup never changes what a lookup at or after the cleanup time answers. */
  lemma ExpireKeepsHits(table: Table, cleanup: int, key: string, now: int)
    requires cleanup <= now
    ensures Hit(Expire(table, cleanup), key, now) == Hit(table, key, now)
  {
  }

  /** Invalidation removes exactly the rows with the given hash and keeps every other row as it was. */
  lemma WithoutHashExact(table: Table, hash: string, key: string)
    ensures key in WithoutHash(table, hash) <==> key in table && table[key].fileHash != hash
    ensures key in WithoutHash(table, hash) ==> WithoutHash(table, hash)[key] == table[key]
  {
  }

  /**
   * `CacheManager`: `connected` is whether a database connection exists;
   * without one every operation is a no-op or a miss.
   */
  class CacheManager {
    var connected: bool
    var table: Table

    constructor(connected: bool)
      ensures this.connected == connected && table == map[]
    {
      this.connected := connected;
      table := map[];
    }

    /** `get`: a hit only on a connection, without a fault, for an entry younger than the time-to-live. */
    method Get(key: string, now: int, fault: bool) returns (r: Option<Json>)
      ensures r.Some? <==> connected && !fault && key in table && now - Ttl < table[key].timestamp
      ensures r.Some? ==> r.value == table[key].result
    {
      if !connected || fault {
        return None;
      }
      r := Hit(table, key, now);
    }

    /** `set`: an upsert stamped with `now`, storing the key's second field as its file hash. */
    method Set(key: string, result: Json, now: int, fault: bool)
      modifies this
      ensures connected == old(connected)
      ensures table == if connected && !fault then old(table)[key := Row(result, StoredHash(key), now)] else old(table)
    {
      if !connected || fault {
        return;
      }
      table := table[key := Row(result, StoredHash(key), now)];
    }

    /** `invalidate_file`: delete the rows whose stored hash is the file's current hash. */
    method InvalidateFile(path: string, stat: string -> Option<FileStat>, md5: string -> HexDigest, fault: bool)
      modifies this
      ensures connected == old(connected)
      ensures table == if connected && !fault then WithoutHash(old(table), FileHash(path, stat, md5)) else old(table)
    {
      if !connected || fault {
        return;
      }
      table := WithoutHash(table, FileHash(path, stat, md5));
    }

    /** One round of `_periodic_cleanup`: delete the rows older than the time-to-live; `fault` is a failed `DELETE`, which the loop logs and survives with the table as it was. */
    method Cleanup(now: int, fault: bool)
      modifies this
      ensures connected == old(connected)
      ensures table == if connected && !fault then Expire(old(table), now) else old(table)
    {
      if !connected || fault {
        return;
      }
      table := Expire(table, now);
    }
  }

  /**
   * A stored answer is dropped by invalidating its file while the file is
   * unchanged: the stored hash is the one the invalidation computes.
   */
  lemma InvalidateDropsCurrent(table: Table, tool: string, params: Params, stat: string -> Option<FileStat>,
                               md5: string -> HexDigest, result: Json, stored: int, now: int)
    requires ':' !in tool && MakeKey(tool, params, stat, md5).Some?
    ensures var key := MakeKey(tool, params, stat, md5).value;
      var after := WithoutHash(table[key := Row(result, StoredHash(key), stored)],
                               FileHash(Lookup(params, "file").value, stat, md5));
      Hit(after, key, now).None?
  {
    StoredHashOfKey(tool, params, stat, md5);
  }
}
