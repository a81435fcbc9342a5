/**
 * The cache of generated summaries and call analyses: keys that capture the
 * context a summary was made from, and two tables whose rows expire seven
 * days after they were written.
 *
 * The clock (`now`, whole seconds), stat, file reads, md5 and sha256 are
 * parameters.
 */
module AiCache {
  import opened Wrappers
  import opened PyStr
  import QueryCache
  import Paths

  /** Rows live for seven days. */
  const Ttl := 7 * 24 * 3600
  /** Lines taken on each side of the target for the local hash. */
  const WindowRadius := 25
  /** At most this many related headers enter the full-context hash. */
  const MaxHeaders := 5
  /** Hex digits of sha256 kept in a legacy key, and of a calls hash in a call key. */
  const LegacyDigits := 16
  const CallsHashDigits := 16

  type HexDigest = QueryCache.HexDigest
  type FileStat = QueryCache.FileStat

  /** What `hexdigest()` of sha256 returns: 64 lower-case hex digits. */
  type Sha256Digest = s: string | |s| == 64 && forall k :: 0 <= k < |s| ==> QueryCache.IsHexChar(s[k])
    witness seq(64, k => '0')

  // ---------------------------------------------------------------------------
  // Summary keys

  /** `_get_file_hash`: the query cache's hash of the file resolved against the project root. */
  function FileHash(root: string, file: string, stat: string -> Option<FileStat>, md5: string -> HexDigest): string
  {
    QueryCache.FileHash(Paths.JoinPath(root, file), stat, md5)
  }

  /** `lines[max(0, line - 25) : min(len(lines), line + 25)]`. */
  function LocalWindow<T>(lines: seq<T>, line: int): (r: seq<T>)
  {
    var start := if line - WindowRadius < 0 then 0 else line - WindowRadius;
    var end := if |lines| < line + WindowRadius then |lines| else line + WindowRadius;
    Slice(lines, start, end)
  }

  /** The window holds at most 50 lines, consecutive ones of the file, and for a line of the file it holds that line (0-based `line - 1`). */
  lemma LocalWindowShape<T>(lines: seq<T>, line: int)
    ensures line >= -WindowRadius ==> |LocalWindow(lines, line)| <= 2 * WindowRadius
    ensures 1 <= line <= |lines| ==>
      var start := if line - WindowRadius < 0 then 0 else line - WindowRadius;
      LocalWindow(lines, line) == lines[start..if |lines| < line + WindowRadius then |lines| else line + WindowRadius]
      && start <= line - 1 < start + |LocalWindow(lines, line)|
  {
  }

  /** `"".join(lines)`. */
  function Concat(lines: seq<string>): string
  {
    if lines == [] then [] else lines[0] + Concat(lines[1..])
  }

  /** `_get_local_content_hash`: md5 of the mtime and the window's text; "error" when reading or stat fails. */
  function LocalContentHash(root: string, file: string, line: int, read: string -> Option<seq<string>>,
                            stat: string -> Option<FileStat>, md5: string -> HexDigest): string
  {
    var path := Paths.JoinPath(root, file);
    match (read(path), stat(path))
    case (Some(lines), Some(st)) =>
      md5(IntToString(st.mtime) + ":" + Concat(LocalWindow(lines, line)))[..QueryCache.HashLength]
    case _ => "error"
  }

  /** `_get_full_context_hash`: md5 of the file's stat data and of the first five headers' hashes; "error" when stat fails. */
  function FullContextHash(root: string, file: string, headers: seq<string>,
                           stat: string -> Option<FileStat>, md5: string -> HexDigest): string
  {
    var path := Paths.JoinPath(root, file);
    match stat(path)
    case None => "error"
    case Some(st) =>
      var deps := HeaderHashes(Take(headers, MaxHeaders), md5);
      md5(IntToString(st.mtime) + ":" + IntToString(st.size) + ":" + Join(deps, "|"))[..QueryCache.HashLength]
  }

  /** The first eight hex digits of md5 of each header. */
  function HeaderHashes(headers: seq<string>, md5: string -> HexDigest): (r: seq<string>)
    ensures |r| == |headers|
    ensures forall k :: 0 <= k < |r| ==> r[k] == md5(headers[k])[..8] && |r[k]| == 8
  {
    if headers == [] then [] else [md5(headers[0])[..8]] + HeaderHashes(headers[1..], md5)
  }

  /** The loop of `_get_full_context_hash` over the first five headers: one eight-digit hash each, in order. */
  method DependencyHashes(headers: seq<string>, md5: string -> HexDigest) returns (deps: seq<string>)
    ensures deps == HeaderHashes(Take(headers, MaxHeaders), md5)
    ensures |deps| <= MaxHeaders
  {
    var taken := Take(headers, MaxHeaders);
    deps := [];
    var i := 0;
    while i < |taken|
      invariant 0 <= i <= |taken|
      invariant |deps| == i && forall k :: 0 <= k < i ==> deps[k] == md5(taken[k])[..8]
    {
      deps := deps + [md5(taken[i])[..8]];
      i := i + 1;
    }
  }

  /** The context levels a summary can be made at. */
  predicate KnownLevel(level: string)
  {
    level == "minimal" || level == "local" || level == "full"
  }

  /** The key's tag: the level itself, or "unknown" for any other level. */
  function LevelTag(level: string): string
  {
    if KnownLevel(level) then level else "unknown"
  }

  /** The hash a level's key carries: local and full contexts have their own, every other level uses the file's. */
  function LevelHash(root: string, file: string, line: int, level: string, headers: seq<string>,
                     read: string -> Option<seq<string>>, stat: string -> Option<FileStat>,
                     md5: string -> HexDigest): (r: string)
    ensures ':' !in r
    ensures !KnownLevel(level) ==> r == FileHash(root, file, stat, md5)
  {
    if level == "local" then LocalContentHash(root, file, line, read, stat, md5)
    else if level == "full" then FullContextHash(root, file, headers, stat, md5)
    else FileHash(root, file, stat, md5)
  }

  /** `_generate_cache_key`: "ai_summary:<tag>:<hash>:<line>:<column>"; an unknown level is hashed like "minimal". */
  function CacheKey(root: string, file: string, line: int, column: int, level: string, headers: seq<string>,
                    read: string -> Option<seq<string>>, stat: string -> Option<FileStat>,
                    md5: string -> HexDigest): string
  {
    KeyOfFields(LevelTag(level), LevelHash(root, file, line, level, headers, read, stat, md5), line, column)
  }

  function KeyOfFields(tag: string, hash: string, line: int, column: int): string
  {
    Join(["ai_summary", tag, hash, IntToString(line), IntToString(column)], ":")
  }

  /** A key's fields: prefix, tag, hash, line and column, in that order. */
  lemma CacheKeyFields(root: string, file: string, line: int, column: int, level: string, headers: seq<string>,
                       read: string -> Option<seq<string>>, stat: string -> Option<FileStat>,
                       md5: string -> HexDigest)
    ensures var key := CacheKey(root, file, line, column, level, headers, read, stat, md5);
      var parts := Split(key, ":");
      |parts| == 5 && parts[0] == "ai_summary" && parts[1] == LevelTag(level)
      && parts[3] == IntToString(line) && parts[4] == IntToString(column)
      && (!KnownLevel(level) ==> parts[2] == FileHash(root, file, stat, md5))
  {
    var h := LevelHash(root, file, line, level, headers, read, stat, md5);
    KeyOfFieldsSplits(LevelTag(level), h, line, column);
  }

  lemma KeyOfFieldsSplits(tag: string, hash: string, line: int, column: int)
    requires ':' !in tag && ':' !in hash
    ensures Split(KeyOfFields(tag, hash, line, column), ":") == ["ai_summary", tag, hash, IntToString(line), IntToString(column)]
  {
    var parts := ["ai_summary", tag, hash, IntToString(line), IntToString(column)];
    assert forall i, k :: 0 <= i < |parts| && 0 <= k < |parts[i]| ==> parts[i][k] != ':';
    SplitJoin(parts, ":");
  }

  /** Summaries made at different levels never share a key, so one level never answers for another. */
  lemma LevelsSeparate(root: string, file: string, line: int, column: int, l1: string, l2: string,
                       headers: seq<string>, read: string -> Option<seq<string>>,
                       stat: string -> Option<FileStat>, md5: string -> HexDigest)
    requires LevelTag(l1) != LevelTag(l2)
    ensures CacheKey(root, file, line, column, l1, headers, read, stat, md5)
         != CacheKey(root, file, line, column, l2, headers, read, stat, md5)
  {
    CacheKeyFields(root, file, line, column, l1, headers, read, stat, md5);
    CacheKeyFields(root, file, line, column, l2, headers, read, stat, md5);
  }

  /** `_hash_content`: the legacy key, "ai_summary:legacy:" and 16 hex digits of sha256 of "level:symbol:content". */
  function HashContent(content: string, symbol: string, level: string, sha256: string -> Sha256Digest): (r: string)
    ensures |r| == |"ai_summary:legacy:"| + LegacyDigits && StartsWith(r, "ai_summary:legacy:")
    ensures forall k :: |"ai_summary:legacy:"| <= k < |r| ==> QueryCache.IsHexChar(r[k])
  {
    "ai_summary:legacy:" + sha256(level + ":" + symbol + ":" + content)[..LegacyDigits]
  }

  /** A legacy key is never a context-aware key: the second field is "legacy", never a level tag. */
  lemma LegacyKeysSeparate(content: string, symbol: string, level: string, sha256: string -> Sha256Digest,
                           root: string, file: string, line: int, column: int, headers: seq<string>,
                           read: string -> Option<seq<string>>, stat: string -> Option<FileStat>,
                           md5: string -> HexDigest)
    ensures HashContent(content, symbol, level, sha256)
         != CacheKey(root, file, line, column, level, headers, read, stat, md5)
  {
    var legacy := HashContent(content, symbol, level, sha256);
    var rest := legacy[|"ai_summary:legacy:"|..];
    assert legacy == "ai_summary" + ":" + ("legacy" + ":" + rest);
    QueryCache.SecondField("ai_summary", "legacy", rest);
    CacheKeyFields(root, file, line, column, level, headers, read, stat, md5);
  }

  // ---------------------------------------------------------------------------
  // Call-analysis keys

  /** `_generate_call_cache_key`: six ':'-joined parts, mtime 0 when stat fails, the calls hash cut to 16 characters. */
  function CallCacheKey(root: string, functionName: string, file: string, analysisType: string, analysisLevel: string,
                        callsHash: string, stat: string -> Option<FileStat>): string
  {
    var mtime := match stat(Paths.JoinPath(root, file)) case None => 0 case Some(st) => st.mtime;
    Join(CallKeyParts(functionName, analysisType, analysisLevel, mtime, callsHash), ":")
  }

  function CallKeyParts(functionName: string, analysisType: string, analysisLevel: string, mtime: nat,
                        callsHash: string): seq<string>
  {
    ["call_analysis", analysisType, analysisLevel, functionName, IntToString(mtime), Take(callsHash, CallsHashDigits)]
  }

  /** When no part holds ':', the key splits back into exactly its six parts. */
  lemma CallCacheKeyParts(root: string, functionName: string, file: string, analysisType: string, analysisLevel: string,
                          callsHash: string, stat: string -> Option<FileStat>)
    requires ':' !in functionName && ':' !in analysisType && ':' !in analysisLevel && ':' !in callsHash
    ensures var mtime := match stat(Paths.JoinPath(root, file)) case None => 0 case Some(st) => st.mtime;
      Split(CallCacheKey(root, functionName, file, analysisType, analysisLevel, callsHash, stat), ":")
        == CallKeyParts(functionName, analysisType, analysisLevel, mtime, callsHash)
      && |CallKeyParts(functionName, analysisType, analysisLevel, mtime, callsHash)[5]| <= CallsHashDigits
  {
    var mtime := match stat(Paths.JoinPath(root, file)) case None => 0 case Some(st) => st.mtime;
    var parts := CallKeyParts(functionName, analysisType, analysisLevel, mtime, callsHash);
    assert ':' !in IntToString(mtime);
    assert forall k :: 0 <= k < |parts[5]| ==> parts[5][k] == callsHash[k];
    SplitJoin(parts, ":");
  }

  // ---------------------------------------------------------------------------
  // The summary table

  /** `SummaryResponse`. */
  datatype SummaryResponse = SummaryResponse(summary: string, tokensUsed: int, cached: bool, provider: string,
                                             contextLevel: string)

  /** The fields of `ContextData` a stored row keeps. */
  datatype ContextTag = ContextTag(symbolName: string, symbolKind: string, contextLevel: string)

  /** A row of `ai_summaries`. */
  datatype SummaryRow = SummaryRow(summary: string, symbolName: string, symbolKind: string, contextLevel: string,
                                   tokensUsed: int, provider: string, createdAt: int, accessedAt: int)

  /** Whether a row is still served at `now`. */
  predicate Live(createdAt: int, now: int)
  {
    createdAt > now - Ttl
  }

  /** The response a hit returns: marked cached, with the row's context level. */
  function FromRow(row: SummaryRow): SummaryResponse
  {
    SummaryResponse(row.summary, row.tokensUsed, true, row.provider, row.contextLevel)
  }

  /** The row `store_with_key` writes. */
  function ToRow(response: SummaryResponse, context: ContextTag, now: int): SummaryRow
  {
    SummaryRow(response.summary, context.symbolName, context.symbolKind, context.contextLevel,
               response.tokensUsed, response.provider, now, now)
  }

  /** A stored summary comes back, marked cached, while it is younger than seven days; the context level read back is the context's, not the response's. */
  lemma StoredSummaryReturns(response: SummaryResponse, context: ContextTag, stored: int, now: int)
    ensures Live(ToRow(response, context, stored).createdAt, now) <==> now < stored + Ttl
    ensures FromRow(ToRow(response, context, stored))
         == SummaryResponse(response.summary, response.tokensUsed, true, response.provider, context.contextLevel)
  {
  }

  /** `_summaries`' expiry: keep the rows created at or after the cutoff. */
  function ExpireSummaries(table: map<string, SummaryRow>, now: int): map<string, SummaryRow>
  {
    map k | k in table && table[k].createdAt >= now - Ttl :: table[k]
  }

  /** Expiry deletes exactly the rows older than seven days and keeps the others unchanged. */
  lemma ExpireSummariesExact(table: map<string, SummaryRow>, now: int, key: string)
    ensures key in ExpireSummaries(table, now) <==> key in table && table[key].createdAt >= now - Ttl
    ensures key in ExpireSummaries(table, now) ==> ExpireSummaries(table, now)[key] == table[key]
  {
  }

  // ---------------------------------------------------------------------------
  // The call-analysis table

  /** A pattern as the stored JSON holds it: each field may be absent. */
  datatype StoredPattern = StoredPattern(patternType: Option<string>, description: Option<string>,
                                         confidence: Option<real>)

  /** `CallPattern`; `calls` holds the calls that show the pattern. */
  datatype CallPattern = CallPattern(patternType: string, calls: seq<string>, description: string, confidence: real)

  /** The JSON `store_call_analysis` writes for the patterns: type, description and confidence of each. */
  function SerializePatterns(patterns: seq<CallPattern>): (r: seq<StoredPattern>)
    ensures |r| == |patterns|
  {
    if patterns == [] then []
    else
      var p := patterns[0];
      [StoredPattern(Some(p.patternType), Some(p.description), Some(p.confidence))] + SerializePatterns(patterns[1..])
  }

  /** `get_call_analysis`'s reading: defaults "unknown", "" and 0.5, no calls; text that is not JSON gives no patterns. */
  function ParsePatterns(stored: Option<seq<StoredPattern>>): seq<CallPattern>
  {
    match stored
    case None => []
    case Some(items) => ParseItems(items)
  }

  function ParseItems(items: seq<StoredPattern>): (r: seq<CallPattern>)
    ensures |r| == |items|
  {
    if items == [] then []
    else
      var item := items[0];
      [CallPattern(item.patternType.GetOr("unknown"), [], item.description.GetOr(""), item.confidence.GetOr(0.5))]
        + ParseItems(items[1..])
  }

  /** Saved patterns come back with the same type, description and confidence, and no calls. */
  lemma {:induction false} PatternsRoundTrip(patterns: seq<CallPattern>)
    ensures var back := ParsePatterns(Some(SerializePatterns(patterns)));
      |back| == |patterns| && forall k :: 0 <= k < |back| ==>
        back[k] == CallPattern(patterns[k].patternType, [], patterns[k].description, patterns[k].confidence)
  {
    if patterns != [] {
      PatternsRoundTrip(patterns[1..]);
      var back := ParsePatterns(Some(SerializePatterns(patterns)));
      var tail := ParsePatterns(Some(SerializePatterns(patterns[1..])));
      assert back == [back[0]] + tail;
    }
  }

  /** `CallAnalysisResponse`. */
  datatype CallAnalysis = CallAnalysis(summary: string, patterns: seq<CallPattern>, insights: string,
                                       dataFlow: string, performance: string, tokensUsed: int, cached: bool,
                                       provider: string)

  /** A row of `call_analysis_cache`. */
  datatype CallRow = CallRow(summary: string, patterns: Option<seq<StoredPattern>>, insights: string,
                             dataFlow: string, performance: string, target: string, analysisType: string,
                             analysisLevel: string, tokensUsed: int, provider: string,
                             createdAt: int, accessedAt: int)

  function CallFromRow(row: CallRow): CallAnalysis
  {
    CallAnalysis(row.summary, ParsePatterns(row.patterns), row.insights, row.dataFlow, row.performance,
                 row.tokensUsed, true, row.provider)
  }

  function CallToRow(response: CallAnalysis, target: string, analysisType: string, analysisLevel: string,
                     now: int): CallRow
  {
    CallRow(response.summary, Some(SerializePatterns(response.patterns)), response.insights, response.dataFlow,
            response.performance, target, analysisType, analysisLevel, response.tokensUsed, response.provider,
            now, now)
  }

  function ExpireCalls(table: map<string, CallRow>, now: int): map<string, CallRow>
  {
    map k | k in table && table[k].createdAt >= now - Ttl :: table[k]
  }

  /** Expiry of call analyses deletes exactly the rows older than seven days. */
  lemma ExpireCallsExact(table: map<string, CallRow>, now: int, key: string)
    ensures key in ExpireCalls(table, now) <==> key in table && table[key].createdAt >= now - Ttl
    ensures key in ExpireCalls(table, now) ==> ExpireCalls(table, now)[key] == table[key]
  {
  }

  /** `EnhancedAISummaryCache` over its two tables. */
  class SummaryCache {
    var summaries: map<string, SummaryRow>
    var analyses: map<string, CallRow>

    constructor()
      ensures summaries == map[] && analyses == map[]
    {
      summaries := map[];
      analyses := map[];
    }

    /** `get_by_key`: a live row is returned marked cached and its access time refreshed. */
    method GetByKey(key: string, now: int) returns (r: Option<SummaryResponse>)
      modifies this
      ensures analyses == old(analyses)
      ensures r.Some? <==> key in old(summaries) && Live(old(summaries)[key].createdAt, now)
      ensures r.Some? ==> (r.value == FromRow(old(summaries)[key])
                           && summaries == old(summaries)[key := old(summaries)[key].(accessedAt := now)])
      ensures r.None? ==> summaries == old(summaries)
    {
      if key in summaries && Live(summaries[key].createdAt, now) {
        var row := summaries[key];
        summaries := summaries[key := row.(accessedAt := now)];
        return Some(FromRow(row));
      }
      return None;
    }

    /** `store_with_key`: an upsert with both times set to `now`. */
    method StoreWithKey(key: string, response: SummaryResponse, context: ContextTag, now: int)
      modifies this
      ensures analyses == old(analyses)
      ensures summaries == old(summaries)[key := ToRow(response, context, now)]
    {
      summaries := summaries[key := ToRow(response, context, now)];
    }

    /** The legacy `get`: a lookup under the content hash. */
    method Get(content: string, symbol: string, level: string, now: int, sha256: string -> Sha256Digest)
      returns (r: Option<SummaryResponse>)
      modifies this
      ensures analyses == old(analyses)
      ensures var key := HashContent(content, symbol, level, sha256);
        (r.Some? <==> key in old(summaries) && Live(old(summaries)[key].createdAt, now))
        && (r.Some? ==> r.value == FromRow(old(summaries)[key])
                        && summaries == old(summaries)[key := old(summaries)[key].(accessedAt := now)])
        && (r.None? ==> summaries == old(summaries))
    {
      r := GetByKey(HashContent(content, symbol, level, sha256), now);
    }

    /** The legacy `store`: the key uses the response's context level. */
    method Store(content: string, symbol: string, kind: string, response: SummaryResponse, now: int,
                 sha256: string -> Sha256Digest)
      modifies this
      ensures analyses == old(analyses)
      ensures summaries == old(summaries)[HashContent(content, symbol, response.contextLevel, sha256)
                                          := ToRow(response, ContextTag(symbol, kind, response.contextLevel), now)]
    {
      StoreWithKey(HashContent(content, symbol, response.contextLevel, sha256), response,
                   ContextTag(symbol, kind, response.contextLevel), now);
    }

    /** `cleanup_expired`. */
    method CleanupExpired(now: int)
      modifies this
      ensures analyses == old(analyses)
      ensures summaries == ExpireSummaries(old(summaries), now)
    {
      summaries := ExpireSummaries(summaries, now);
    }

    /** `get_call_analysis`: a live row is returned with its patterns parsed and its access time refreshed. */
    method GetCallAnalysis(root: string, functionName: string, file: string, analysisType: string,
                           analysisLevel: string, callsHash: string, now: int,
                           stat: string -> Option<FileStat>) returns (r: Option<CallAnalysis>)
      modifies this
      ensures summaries == old(summaries)
      ensures var key := CallCacheKey(root, functionName, file, analysisType, analysisLevel, callsHash, stat);
        (r.Some? <==> key in old(analyses) && Live(old(analyses)[key].createdAt, now))
        && (r.Some? ==> r.value == CallFromRow(old(analyses)[key])
                        && analyses == old(analyses)[key := old(analyses)[key].(accessedAt := now)])
        && (r.None? ==> analyses == old(analyses))
    {
      var key := CallCacheKey(root, functionName, file, analysisType, analysisLevel, callsHash, stat);
      if key in analyses && Live(analyses[key].createdAt, now) {
        var row := analyses[key];
        analyses := analyses[key := row.(accessedAt := now)];
        return Some(CallFromRow(row));
      }
      return None;
    }

    /** `store_call_analysis`: an upsert with both times set to `now`. */
    method StoreCallAnalysis(root: string, functionName: string, file: string, analysisType: string,
                             analysisLevel: string, callsHash: string, response: CallAnalysis, now: int,
                             stat: string -> Option<FileStat>)
      modifies this
      ensures summaries == old(summaries)
      ensures analyses == old(analyses)[CallCacheKey(root, functionName, file, analysisType, analysisLevel, callsHash, stat)
                                        := CallToRow(response, functionName, analysisType, analysisLevel, now)]
    {
      var key := CallCacheKey(root, functionName, file, analysisType, analysisLevel, callsHash, stat);
      analyses := analyses[key := CallToRow(response, functionName, analysisType, analysisLevel, now)];
    }

    /** `cleanup_expired_call_analysis`. */
    method CleanupExpiredCallAnalysis(now: int)
      modifies this
      ensures summaries == old(summaries)
      ensures analyses == ExpireCalls(old(analyses), now)
    {
      analyses := ExpireCalls(analyses, now);
    }
  }

  /** A stored analysis read back before it expires has the same text fields and patterns without calls, marked cached. */
  lemma StoredAnalysisReturns(response: CallAnalysis, target: string, analysisType: string, analysisLevel: string,
                              stored: int, now: int)
    ensures Live(CallToRow(response, target, analysisType, analysisLevel, stored).createdAt, now) <==> now < stored + Ttl
    ensures var back := CallFromRow(CallToRow(response, target, analysisType, analysisLevel, stored));
      back.summary == response.summary && back.insights == response.insights && back.dataFlow == response.dataFlow
      && back.performance == response.performance && back.tokensUsed == response.tokensUsed
      && back.provider == response.provider && back.cached
      && |back.patterns| == |response.patterns|
      && forall k :: 0 <= k < |back.patterns| ==>
           back.patterns[k] == CallPattern(response.patterns[k].patternType, [], response.patterns[k].description,
                                           response.patterns[k].confidence)
  {
    PatternsRoundTrip(response.patterns);
  }
}
