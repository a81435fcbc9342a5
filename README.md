# mcp_clangd, modelled in Dafny

mcp_clangd connects tool calls from a Model Context Protocol (MCP) client to a
clangd language server. A request comes in as JSON-RPC over standard input or
a socket. It is checked, routed to a tool (definition, references, hover,
call hierarchy, listing files, symbol search and so on), and answered from
clangd or from a text scan of the project. The server speaks the Language
Server Protocol 3.17 to clangd over Content-Length framed stdio. Results are
cached in SQLite tables keyed by file hash.

This project models the sequential, state-carrying core of that system. Its
modules follow the Python files:

- `LspFraming` and `LspClient` (`lsp_client.py`):
  - Content-Length framing out, and the incremental parse loop over the incoming byte buffer.
  - The pending-request table keyed by counter-generated ids.
  - The `$/progress` indexing state machine.
  - Symbol-kind names and `file://` URIs.
- `LspMethods` and `CallHierarchy` (`lsp_methods.py`):
  - The open-document set.
  - 1-based to 0-based positions.
  - Definition, reference and hover shaping.
  - Type extraction from markdown.
  - The bounded, visited-set-guarded, level-by-level expansion of incoming and outgoing calls, over an engine given as a function from item to calls.
- `QueryCache` (`cache.py`) and `AiCache` (`ai_cache.py`):
  - Cache keys as string functions.
  - Each table as a map from key to row.
  - TTL-gated lookup, upsert, delete by hash and expiry, with the clock as a parameter.
- `Clangd` (`clangd_manager.py`): the clangd supervisor, its restart counter, stop, health check and health monitor.
- `Mcp` and `McpServer` (`server.py`), and `Session` (`session.py`):
  - JSON-RPC dispatch with the initialised and running flags.
  - Tool-argument validation and timeouts.
  - File listing and symbol search with their caps, filters and text fallbacks.
- `Backend` (`backend.py`): the per-key computation cache behind the session's listing and search.
- `Config` (`config.py`), `ContextProvider` (`context_provider.py`), `LlmProvider` (`llm_provider.py`), `IndexWarmup` (`index_warmup.py`) and `TreeSitter` (`tree_sitter_manager.py`):
  - Validators.
  - Context windows.
  - The summarisation rule.
  - Warm-up file selection.
  - Syntax-tree cache bookkeeping and parent-chain walks over a flat node tree.
- Shared helpers:
  - `PyStr`: Python's `strip`, `lower`, `find`, `split`, `int` and slices.
  - `Utf8`: a strict UTF-8 codec.
  - `Json`: JSON values with Python truthiness.
  - `Paths`: the parts of `pathlib` the core uses.
  - `Sorting`: a stable sort by tuple keys.
  - `Wrappers`: `Option` and `Result`.

State that the Python code updates in place is modelled that way:

- Classes whose methods change fields: `LspFraming.MessageReader`, `LspClient.Client`, `LspMethods.DocumentManager`, `QueryCache.CacheManager`, `AiCache.SummaryCache`, `Clangd.ClangdManager`, `McpServer.Server`, `Session.ClientSession`, `Config.Config` and `TreeSitter.TreeSitterManager`.
- Loops become methods with loop invariants, each proved against a function that states its result.

The environment enters as parameters:

- file contents and stat results;
- glob results;
- hash functions;
- the clock;
- the parser;
- the engine's answers, including failures and timeouts.

## Model

| member | source | states |
|---|---|---|
| LspFraming.ScanHeader | mcp_clangd/lsp_client.py:461-481 | a header is found exactly when the buffer holds "\r\n\r\n", and the body starts 4 bytes after its first occurrence |
| LspFraming.Step | mcp_clangd/lsp_client.py:461-500 | as intended (Findings row 1): every pass that does not stop drops a nonempty prefix of the buffer and keeps the rest |
| LspFraming.StepOfAnnounced | mcp_clangd/lsp_client.py:480-493 | a complete body of the announced positive length is handed on when it decodes; when it does not, the header is dropped and the body bytes stay in the buffer |
| LspFraming.HeaderTextChars | mcp_clangd/lsp_client.py:429 | the header line is ASCII and holds no carriage return |
| LspFraming.FieldValueOfHeader | mcp_clangd/lsp_client.py:471 | the value part of the written header line parses back to the length |
| LspFraming.HeaderValuePart | mcp_clangd/lsp_client.py:471 | what follows the first colon of the header line, stripped, is the decimal length |
| LspFraming.ContentLengthOfHeader | mcp_clangd/lsp_client.py:468-472 | a header written by the sender reads back as the length it announces |
| LspFraming.EncodeAsciiCodes | mcp_clangd/lsp_client.py:430 | the UTF-8 bytes of an ASCII text are its character codes, one per character |
| LspFraming.FrameLayout | mcp_clangd/lsp_client.py:428-430 | a frame is the encoded header, the terminator and the encoded content, and its first terminator ends the header |
| LspFraming.ScanFramed | mcp_clangd/lsp_client.py:464-472 | a buffer that starts with a header free of carriage returns reads with that header's length, or as unreadable |
| LspFraming.ScanHeaderAt | mcp_clangd/lsp_client.py:464-472 | a buffer whose first terminator ends a decodable header reads with that header's length |
| LspFraming.StepFrame | mcp_clangd/lsp_client.py:425-493 | parsing a sent frame followed by anything hands on the content and leaves exactly what followed |
| LspFraming.RoundTrip | mcp_clangd/lsp_client.py:425-493 | one sent frame parses back to exactly its content and leaves the buffer empty |
| LspFraming.DrainEmpty | mcp_clangd/lsp_client.py:461 | an empty buffer yields nothing |
| LspFraming.DrainFrameThen | mcp_clangd/lsp_client.py:461-493 | a frame followed by more bytes hands on its content first, then whatever the rest yields |
| LspFraming.FramesInOrder | mcp_clangd/lsp_client.py:425-493 | frames sent back to back come out in the order sent, with nothing left over |
| LspFraming.PartialFrameWaits | mcp_clangd/lsp_client.py:461-495 | any proper prefix of a frame yields nothing and stays in the buffer until more data arrives |
| LspFraming.NonPositiveLengthSkipped | mcp_clangd/lsp_client.py:474-477 | a header without a positive length yields nothing and is dropped with its terminator |
| LspFraming.StepExtend | mcp_clangd/lsp_client.py:458-495 | more data never changes a pass that already made progress |
| LspFraming.ScanExtend | mcp_clangd/lsp_client.py:461-472 | once the buffer holds a terminator, more data does not change how its header reads |
| LspFraming.DrainAppend | mcp_clangd/lsp_client.py:458-495 | feeding two pieces one after the other hands on the same contents as feeding them at once |
| LspFraming.DrainLeavesSuffix | mcp_clangd/lsp_client.py:461-500 | what the parse loop leaves is a suffix of the buffer: bytes are only dropped from the front |
| LspFraming.DrainLeavesStopped | mcp_clangd/lsp_client.py:461-495 | what the parse loop leaves yields nothing more until new data arrives |
| LspFraming.AsWrittenStallsOnNegativeLength | mcp_clangd/lsp_client.py:474-485 | as written, a negative length that cancels the header size leaves the buffer unchanged, so the loop never ends; the corrected step drops the header |
| LspFraming.NegativeLengthExample | mcp_clangd/lsp_client.py:474-485 | the 23 bytes "Content-Length: -23\r\n\r\n" stall the loop as written and are dropped by the corrected step |
| LspFraming.MessageReader.constructor | mcp_clangd/lsp_client.py:438 | the buffer starts empty |
| LspFraming.MessageReader.Feed | mcp_clangd/lsp_client.py:458-500 | as intended (Findings row 1): the contents handed on and the bytes kept are those the parse loop gives for the old buffer plus the data |
| LspFraming.ParsePass | mcp_clangd/lsp_client.py:462-500 | as intended (Findings row 1): one pass of the loop over a buffer holding a terminator is the corrected parse step |
| LspFraming.DrainNoTerminator | mcp_clangd/lsp_client.py:461 | without a terminator the buffer yields nothing and is kept |
| LspFraming.ReadContentLength | mcp_clangd/lsp_client.py:468-472 | the header loop finds the value of the first Content-Length line, 0 without one, and fails where `int` raises |
| LspFraming.ChunkingIrrelevant | mcp_clangd/lsp_client.py:447-500 | as intended (Findings row 1): however the stream is cut into reads, the contents handed on are those of the whole stream |
| LspFraming.UntilEof | mcp_clangd/lsp_client.py:452-454 | the reads taken are the nonempty ones before the first empty read |
| LspFraming.ReadMessages | mcp_clangd/lsp_client.py:435-504 | as intended (Findings row 1): the contents handed on and the bytes kept are those of the stream up to the first empty read |
| LspFraming.FeedNext | mcp_clangd/lsp_client.py:458-461 | reading one more chunk continues from the buffer the earlier chunks left |
| LspClient.Unavailability | mcp_clangd/lsp_client.py:221-227 | clangd cannot take a message exactly when there is no process or it is not alive; no process is the "not started" reason, and an exited one is reported with its own return code |
| LspClient.Refusal | mcp_clangd/lsp_client.py:221-278 | the refusal text is present exactly when there is no clangd process or it is not alive |
| LspClient.Notify | mcp_clangd/lsp_client.py:264-286 | refused exactly when clangd is not running; otherwise a message without an id, carrying the method and the params |
| LspClient.FreshId | mcp_clangd/lsp_client.py:229-230 | the next request id was never issued before |
| LspClient.RecordPending | mcp_clangd/lsp_client.py:229-246 | recording the next id overwrites no pending request and keeps every pending id one that was issued |
| LspClient.ResponseEffect | mcp_clangd/lsp_client.py:522-543 | a response is ignored, leaving the table unchanged, exactly when its id is not pending; otherwise exactly that request is removed and settled, with an error exactly when the message has "error", and with the message's result otherwise |
| LspClient.SettledOnce | mcp_clangd/lsp_client.py:527-532 | a duplicated response settles its request only once |
| LspClient.ReplyToRequest | mcp_clangd/lsp_client.py:522-543 | a reply echoing a just-sent request's id settles exactly that request with its result and restores the table |
| LspClient.Progress | mcp_clangd/lsp_client.py:313-363 | keeps the invariant "complete implies not indexing", and signals completion only on an "end" while indexing, setting 100% |
| LspClient.UnrelatedProgressIgnored | mcp_clangd/lsp_client.py:321-325 | progress whose title and message mention none of index, parsing or loading changes nothing |
| LspClient.ReportAndEndNeedIndexing | mcp_clangd/lsp_client.py:338-358 | "report" and "end" are ignored while no indexing is in progress |
| LspClient.BeginThenEnd | mcp_clangd/lsp_client.py:329-358 | an indexing "begin" followed by its "end" leaves indexing finished at 100% with completion signalled |
| LspClient.BeginStarts | mcp_clangd/lsp_client.py:329-334 | "begin" starts indexing under its title, keeps the percentage and clears completion |
| LspClient.EndFinishes | mcp_clangd/lsp_client.py:353-358 | "end" while indexing stops indexing at 100% and signals completion |
| LspClient.CompletionNeedsEnd | mcp_clangd/lsp_client.py:313-363 | over any sequence of notifications the invariant holds, and completion newly signalled comes from a notification that set 100% |
| LspClient.Client.constructor | mcp_clangd/lsp_client.py:89-106 | a new client has counter 0, no pending requests, only the progress handler, and idle indexing |
| LspClient.Client.BeginRequest | mcp_clangd/lsp_client.py:205-246 | refused exactly when clangd is not running, with the reason of the RuntimeError and changing nothing; otherwise the counter's text becomes a fresh id, the counter advances by one, exactly that id is recorded pending, and the message carries it |
| LspClient.Client.Abandon | mcp_clangd/lsp_client.py:252-262 | a timed-out or failed request removes only its own entry |
| LspClient.Client.HandleResponse | mcp_clangd/lsp_client.py:522-543 | the table and delivery are those of the response rule; the counter, handlers and indexing state are unchanged |
| LspClient.Client.OnProgress | mcp_clangd/lsp_client.py:313-363 | the indexing state becomes its progress step; nothing else changes |
| LspClient.Client.ResetIndexing | mcp_clangd/lsp_client.py:300-302 | indexing returns to idle with completion cleared; nothing else changes |
| LspClient.Client.HandleMessage | mcp_clangd/lsp_client.py:506-579 | a message with an id and no method is a response; one with a method is a notification whose registered handler runs (progress updates indexing) and leaves pending requests alone; anything else is unrecognised and changes nothing |
| LspClient.SymbolKindNameInjective | mcp_clangd/lsp_client.py:413-423 | no two kinds share a name, known or unknown |
| LspClient.KnownNameNotUnknown | mcp_clangd/lsp_client.py:415-422 | none of the 26 known names looks like an unknown-kind name |
| LspClient.UriToPath | mcp_clangd/lsp_client.py:587-591 | a "file://" URI loses exactly that prefix; any other text is kept as it is |
| LspClient.UriRoundTrip | mcp_clangd/lsp_client.py:582-591 | a resolved path sent as a URI comes back as the same path |
| LspMethods.LanguageId | mcp_clangd/lsp_methods.py:52-62 | the language is "c" exactly for a ".c" suffix in any case, otherwise "cpp" |
| LspMethods.DocumentManager.constructor | mcp_clangd/lsp_methods.py:21-23 | a new manager has no open documents |
| LspMethods.DocumentManager.EnsureOpen | mcp_clangd/lsp_methods.py:25-81 | an open path gives False and changes nothing; a missing file gives the not-found error and changes nothing; a failed didOpen changes nothing; otherwise True and exactly that path is recorded at version 1 with its language and size |
| LspMethods.DocumentManager.Close | mcp_clangd/lsp_methods.py:83-98 | closing a path that is not open changes nothing; closing an open path removes exactly that entry, unless didClose fails |
| LspMethods.DocumentManager.CloseAll | mcp_clangd/lsp_methods.py:100-104 | with clangd running the open set ends empty; otherwise the first close raises and nothing changes |
| LspMethods.ReopenExample | mcp_clangd/lsp_methods.py:25-104 | open gives True, a second open gives False, and after closing everything the same file opens again with True |
| LspMethods.ToLsp | mcp_clangd/lsp_methods.py:198-219 | the 0-based position sent converts back to the 1-based line and column requested |
| LspMethods.RequestedPositionMapsBack | mcp_clangd/lsp_methods.py:196-222 | an engine location at exactly the requested position comes back with the requested file, line and column |
| LspMethods.Places | mcp_clangd/lsp_methods.py:213-222 | at most one place per entry, and none exactly when no entry has a uri and a range |
| LspMethods.Definitions | mcp_clangd/lsp_methods.py:205-224 | None exactly when the answer is empty or has no usable location (a single location counts as a list of one); otherwise a nonempty list |
| LspMethods.References | mcp_clangd/lsp_methods.py:252-275 | at most 150 references: the places of the usable entries among the first 150, each with the preview of its own line |
| LspMethods.WithPreviews | mcp_clangd/lsp_methods.py:257-272 | one reference per usable location, in order, each with the preview of its 0-based line |
| LspMethods.MarkedParts | mcp_clangd/lsp_methods.py:323-330 | at most one part per marked-string item |
| LspMethods.Texts | mcp_clangd/lsp_methods.py:331 | the join succeeds exactly on parts that are all strings, giving those strings in order |
| LspMethods.HoverOf | mcp_clangd/lsp_methods.py:304-341 | no hover exactly when the answer or its contents are empty; otherwise the hover carries the answer's range, or {} when it has none |
| LspMethods.HoverTexts | mcp_clangd/lsp_methods.py:313-335 | plain-string contents give the string and its first line |
| LspMethods.PlainStringHover | mcp_clangd/lsp_methods.py:320-341 | a plain-string hover gives the stripped first line as its type and the stripped string as its documentation |
| LspMethods.FirstLineFrom | mcp_clangd/lsp_methods.py:455-471 | the index found is the first wanted line at or after the start, or -1 when no such line exists |
| LspMethods.StripAll | mcp_clangd/lsp_methods.py:456-469 | every line stripped, one for one |
| LspMethods.ExtractTypePrefersTypeLine | mcp_clangd/lsp_methods.py:454-465 | when a stripped line is neither a fence nor empty nor starts with '#' or '*', the result is the first such line |
| LspMethods.ExtractTypeFallsBack | mcp_clangd/lsp_methods.py:467-473 | otherwise a nonempty result is a fallback line (stripped, nonempty, starting with neither a fence nor '#') among the lines, and "" exactly when no line is one; when no line is a type line and some line is a fallback, the result is the first fallback line |
| CallHierarchy.ItemKeyInjective | mcp_clangd/lsp_methods.py:777-781 | two items share a visited key exactly when they share the uri and the start line |
| CallHierarchy.KeyTailUnique | mcp_clangd/lsp_methods.py:777 | a key "uri:line" with a colon-free line part splits back into its uri and line |
| CallHierarchy.CallsRecords | mcp_clangd/lsp_methods.py:790-810 | the entries for a level's calls number at most five per call and all carry the next depth |
| CallHierarchy.CallsRecordsPrefix | mcp_clangd/lsp_methods.py:790-810 | the entries of a prefix of the calls are a prefix of the entries of all of them |
| CallHierarchy.NextCall | mcp_clangd/lsp_methods.py:790-819 | one more call appends its sites' entries and its peer, in that order |
| CallHierarchy.Peers | mcp_clangd/lsp_methods.py:817-819 | the items to recurse into are the calls' peers, one per call, in order |
| CallHierarchy.AppendSites | mcp_clangd/lsp_methods.py:795-815 | the list never exceeds max(max_total, 1); when the limit is reached the list is the old list plus a nonempty prefix of the site entries, otherwise it is the old list plus all of them and stays below the limit |
| CallHierarchy.ExpandCalls | mcp_clangd/lsp_methods.py:790-819 | the old list stays in front and only entries of the next depth, forming a prefix of the calls' entries, are added; without reaching the limit all entries are added and the peers are collected exactly when a next level exists |
| CallHierarchy.ExpandCall | mcp_clangd/lsp_methods.py:791-819 | one call adds its site entries (or a prefix of them when the limit is hit) and its peer when a next level exists |
| CallHierarchy.MarkVisited | mcp_clangd/lsp_methods.py:777-781 | marking a new key keeps the level's keys distinct and unseen before it |
| CallHierarchy.ExpandLevel | mcp_clangd/lsp_methods.py:774-825 | one level either fills the total limit with a prefix of the reference expansion of the level, or adds exactly the records of that expansion and returns its visited set and its items to recurse into; each item key is expanded at most once and only when not visited before |
| CallHierarchy.ExpandItems | mcp_clangd/lsp_methods.py:774-825 | the reference expansion of one level: every record it adds is at the next depth, and nothing is kept to recurse into once the next depth reaches max_depth |
| CallHierarchy.Traverse | mcp_clangd/lsp_methods.py:767-829 | the reference traversal, level by level: every entry lies between the next depth and max_depth |
| CallHierarchy.ItemExpanded | mcp_clangd/lsp_methods.py:776-825 | an item whose key is unvisited and not repeated earlier in the level contributes its calls (the first max_calls_per_level, each with up to five ranges) as one run of the level's records |
| CallHierarchy.TraverseExpands | mcp_clangd/lsp_methods.py:767-829 | below max_depth, an unvisited item among the first max_calls_per_level of the level, not repeated before it, has all its call records in the traversal as one run |
| CallHierarchy.ExpandItem | mcp_clangd/lsp_methods.py:777-825 | one item of the level loop: either the total limit is reached with a prefix of the level's reference expansion, or the state matches the expansion of the items so far |
| CallHierarchy.LevelDone | mcp_clangd/lsp_methods.py:776-825 | a level loop that ran to the end without hitting the limit has added exactly the level's reference expansion |
| CallHierarchy.CallsAtDepth | mcp_clangd/lsp_methods.py:767-829 | the entries added are a prefix of the reference traversal `Traverse` from these items, and when max_total >= 1 they are exactly its first max_total - len(all_calls) entries; at most max_calls_per_level items are expanded per level and no item twice |
| CallHierarchy.RecursiveCalls | mcp_clangd/lsp_methods.py:719-963 | empty for max_depth <= 0 or no prepared item; the collected entries are the first max_total entries of the reference traversal `Traverse` from the prepared items; the result is those entries sorted by (depth, file, line) and cut to max_total (empty when max_total <= 0, a permutation of them otherwise), each at a depth from 1 to max_depth, and no item is expanded twice |
| CallHierarchy.CollectCalls | mcp_clangd/lsp_methods.py:767-833 | nothing is collected without depth or prepared items; otherwise the collected entries are the first max_total entries of `Traverse`, each at a depth from 1 to max_depth, and no item is expanded twice |
| CallHierarchy.TakeKeeps | mcp_clangd/lsp_methods.py:836-840 | the final cut of the sorted list stays sorted, keeps a sub-multiset, and keeps everything when the list is no longer than the limit |
| QueryCache.FileHash | mcp_clangd/cache.py:125-143 | "missing" exactly when the file cannot be stat'ed; otherwise 12 lower-case hex digits; never contains ':' |
| QueryCache.LookupFinds | mcp_clangd/cache.py:107-115 | in a dict, `params[name]` is a value exactly when that (name, value) pair is present |
| QueryCache.Others | mcp_clangd/cache.py:119-121 | the extra parameters are exactly the pairs other than file, line and column, each with its multiplicity |
| QueryCache.MakeKeyOrderFree | mcp_clangd/cache.py:96-123 | the key is the same for any insertion order of the same parameters |
| QueryCache.ExtrasOrderFree | mcp_clangd/cache.py:119-121 | the sorted extra parts do not depend on the parameters' insertion order |
| QueryCache.SortedOthersUnique | mcp_clangd/cache.py:119 | after sorting by name, two extra pairs with the same name are the same pair |
| QueryCache.SameLookup | mcp_clangd/cache.py:107-115 | the positional parameters read the same in any insertion order |
| QueryCache.KeyShape | mcp_clangd/cache.py:111-123 | a key is the tool, ':', the file hash, ':', then line, column and extras joined with ':' |
| QueryCache.SecondField | mcp_clangd/cache.py:190-191 | splitting a key whose tool and hash hold no ':' yields the hash as its second field |
| QueryCache.StoredHashOfKey | mcp_clangd/cache.py:107-191 | the hash `set` stores for a `make_key` key is the file hash the key was made from |
| QueryCache.KeysSeparateHashes | mcp_clangd/cache.py:107-143 | when the file's hash changes, the same call gets a different key, so stale answers are never hit |
| QueryCache.StoreThenHit | mcp_clangd/cache.py:145-205 | after a store, the key hits with the stored result until 24 hours have passed, and other keys answer as before |
| QueryCache.ExpireKeepsHits | mcp_clangd/cache.py:289-293 | a cleanup never changes what a later lookup answers |
| QueryCache.WithoutHashExact | mcp_clangd/cache.py:218-223 | invalidation deletes exactly the rows with the file's hash and keeps every other row unchanged |
| QueryCache.CacheManager.constructor | mcp_clangd/cache.py:24-77 | a new cache has an empty table and is connected or not as given |
| QueryCache.CacheManager.Get | mcp_clangd/cache.py:145-175 | a result exactly when connected, the query does not fail, and the key's row is younger than the time-to-live; that row's result is returned |
| QueryCache.CacheManager.Set | mcp_clangd/cache.py:177-205 | when connected and the write succeeds, an upsert stamped now storing the key's second field as the hash; otherwise nothing changes |
| QueryCache.CacheManager.InvalidateFile | mcp_clangd/cache.py:207-234 | when connected and the delete succeeds, the rows with the file's current hash go; otherwise nothing changes |
| QueryCache.CacheManager.Cleanup | mcp_clangd/cache.py:278-311 | when connected and the `DELETE` succeeds, the rows older than the cutoff go; without a connection or when it fails, nothing changes |
| QueryCache.InvalidateDropsCurrent | mcp_clangd/cache.py:107-223 | invalidating an unchanged file removes every answer stored for it |
| AiCache.LocalWindowShape | mcp_clangd/ai_cache.py:122-125 | the local hash window holds at most 50 lines, is the slice from max(0, line-25) to min(len, line+25), and contains the target line |
| AiCache.HeaderHashes | mcp_clangd/ai_cache.py:147-151 | one dependency hash per header taken, in order: entry k is the first eight hex digits of the md5 of header k |
| AiCache.DependencyHashes | mcp_clangd/ai_cache.py:145-150 | the loop gives, in order, the eight-digit hash of each of the first five headers, and no more than five |
| AiCache.LevelHash | mcp_clangd/ai_cache.py:84-156 | the hash field of a summary key never contains ':', and an unknown level falls back to the file hash |
| AiCache.CacheKeyFields | mcp_clangd/ai_cache.py:81-102 | a summary key splits on ':' into exactly "ai_summary", the level tag ("unknown" for any other level), the level's hash (the file hash for an unknown level), the line and the column |
| AiCache.KeyOfFieldsSplits | mcp_clangd/ai_cache.py:88-101 | a key built from colon-free fields splits back into those five fields |
| AiCache.LevelsSeparate | mcp_clangd/ai_cache.py:81-102 | keys for two levels with different tags never collide |
| AiCache.HashContent | mcp_clangd/ai_cache.py:252-255 | a legacy key is "ai_summary:legacy:" followed by 16 hexadecimal digits |
| AiCache.LegacyKeysSeparate | mcp_clangd/ai_cache.py:252-255 | a legacy content key never equals a position-based summary key |
| AiCache.CallCacheKeyParts | mcp_clangd/ai_cache.py:417-449 | a call-analysis key splits into its six parts: "call_analysis", type, level, function name, the modification time (0 when stat fails) and at most the first 16 characters of the calls hash |
| AiCache.StoredSummaryReturns | mcp_clangd/ai_cache.py:158-202 | a stored summary is live exactly until the time-to-live of 7 days has passed, and reads back with the same text, tokens and provider, marked cached, at the stored context level |
| AiCache.ExpireSummariesExact | mcp_clangd/ai_cache.py:257-264 | expiry keeps exactly the rows created no earlier than now minus the time-to-live, unchanged |
| AiCache.SerializePatterns | mcp_clangd/ai_cache.py:395-401 | one stored entry per pattern |
| AiCache.ParseItems | mcp_clangd/ai_cache.py:347-358 | one pattern per stored entry |
| AiCache.PatternsRoundTrip | mcp_clangd/ai_cache.py:347-401 | saved patterns read back with the same type, description and confidence, in order, with an empty call list |
| AiCache.ExpireCallsExact | mcp_clangd/ai_cache.py:451-458 | call-analysis expiry keeps exactly the rows created no earlier than now minus the time-to-live, unchanged |
| AiCache.SummaryCache.constructor | mcp_clangd/ai_cache.py:20-23 | a new cache holds no rows |
| AiCache.SummaryCache.GetByKey | mcp_clangd/ai_cache.py:158-186 | a hit exactly when the key is stored and live; a hit returns the row as a cached response and refreshes only that row's access time; a miss changes nothing |
| AiCache.SummaryCache.StoreWithKey | mcp_clangd/ai_cache.py:188-202 | upsert of the row under the key, created and accessed now; nothing else changes |
| AiCache.SummaryCache.Get | mcp_clangd/ai_cache.py:204-233 | the lookup of `get_by_key` under the legacy content hash |
| AiCache.SummaryCache.Store | mcp_clangd/ai_cache.py:235-250 | upsert under the legacy content hash of the response's context level |
| AiCache.SummaryCache.CleanupExpired | mcp_clangd/ai_cache.py:257-269 | the summary table becomes its expired-rows-removed form; call analyses are untouched |
| AiCache.SummaryCache.GetCallAnalysis | mcp_clangd/ai_cache.py:305-372 | a hit exactly when the call key is stored and live; a hit returns the parsed row and refreshes its access time; a miss changes nothing |
| AiCache.SummaryCache.StoreCallAnalysis | mcp_clangd/ai_cache.py:374-415 | upsert of the serialised analysis under the call key, created and accessed now |
| AiCache.SummaryCache.CleanupExpiredCallAnalysis | mcp_clangd/ai_cache.py:451-463 | the call-analysis table loses exactly its expired rows; summaries are untouched |
| AiCache.StoredAnalysisReturns | mcp_clangd/ai_cache.py:305-415 | a stored analysis is live until the time-to-live passes and reads back with the same texts, tokens and provider, marked cached, its patterns round-tripped |
| Clangd.NextRestartCount | mcp_clangd/clangd_manager.py:121-129 | a restart is refused exactly when the current process has a restart count of at least 3; otherwise the new count is the old one plus 1 (at most 3), or 0 without a process |
| Clangd.ChainedRestarts | mcp_clangd/clangd_manager.py:50-140 | from a first process, a run of k successive restarts succeeds exactly when k <= 3, and then ends at restart count k |
| Clangd.RefusalIsFinal | mcp_clangd/clangd_manager.py:121-124 | once one restart in a chain has been refused, every longer chain is refused too |
| Clangd.ClangdManager.constructor | mcp_clangd/clangd_manager.py:46-54 | a new manager has no process, a free lock, no monitoring tasks and no shutdown signalled |
| Clangd.ClangdManager.HealthCheck | mcp_clangd/clangd_manager.py:246-267 | "stopped" exactly without a process (no pid, restart count 0); otherwise "running" or "dead" exactly as the process is alive or not, with its pid, its restart count and the limit 3 |
| Clangd.ClangdManager.Start | mcp_clangd/clangd_manager.py:56-69 | a held lock blocks and changes nothing; otherwise the lock is free again afterwards, an alive process is returned unchanged, and a dead or missing one is replaced by a spawned process with restart count 0, or the call raises when spawning fails |
| Clangd.ClangdManager.StartHoldingLock | mcp_clangd/clangd_manager.py:67-109 | the body of `start`: an alive process comes back as it is; otherwise a successful spawn installs a process with restart count 0 and both monitoring tasks, and a failed one raises "Failed to start clangd" and changes nothing |
| Clangd.ClangdManager.StopInternal | mcp_clangd/clangd_manager.py:155-196 | no-op without a process; otherwise the process and both monitoring tasks are cleared, an alive process gets terminate, then kill only when it has not exited within the grace period, and a dead one gets no signal |
| Clangd.ClangdManager.Stop | mcp_clangd/clangd_manager.py:144-153 | shutdown is always signalled; a held lock blocks; otherwise the process is gone and the lock free |
| Clangd.ClangdManager.RestartAsWritten | mcp_clangd/clangd_manager.py:111-142 | past the limit check the call never returns: the restart holds the lock when it awaits `start`, and is left blocked with the lock held and the process stopped |
| Clangd.ClangdManager.Restart | mcp_clangd/clangd_manager.py:111-142 | with the intended locking: over the limit it raises and changes nothing; otherwise the new process carries the next restart count (0 without a previous process), or the call raises with no process when spawning fails; the lock is free afterwards |
| Clangd.ClangdManager.HealthMonitor | mcp_clangd/clangd_manager.py:224-244 | as intended (Findings row 2): the monitor leaves the lock free and does nothing once shut down; its log is traced poll by poll from the process it started with, each poll doing what `Stepped` says (a dead process found exactly when there is one and it has exited, restarted exactly when the budget and the spawn allow); it acts exactly at the polls that find the process dead, counts its restarts, and stops only after a restart that fails, which is then its last poll; at most 3 restarts ever happen |
| Clangd.ClangdManager.Watch | mcp_clangd/clangd_manager.py:230-241 | one poll, as `Stepped` states it for the process before and after: the poll finds the process dead exactly when there is a process and, with the exit the poll observed, it has exited; otherwise it waits and the process is left as the poll found it; a dead process is restarted, which succeeds exactly when the restart count allows another restart and the spawn yields a pid, and then runs that pid with the count raised by one, to at most 3; a failed restart leaves the dead process when the count is spent and no process when the spawn failed; the lock is free afterwards |
| Clangd.AfterPoll | mcp_clangd/clangd_manager.py:233-234 | the process as a poll finds it: the same pid and restart count, and alive exactly when it was alive and the poll observed no exit |
| Clangd.ClangdManager.MonitorPoll | mcp_clangd/clangd_manager.py:228-241 | one iteration of the monitor loop extends its record by that poll; a poll that does not fail a restart keeps the restart count within the budget, and a failed one closes the record with the failure as its only failed entry |
| Clangd.TracedActsWhenDead | mcp_clangd/clangd_manager.py:233-241 | in a traced log every poll acts exactly when it found the process dead |
| Clangd.MonitorStep | mcp_clangd/clangd_manager.py:233-241 | a poll that waits or restarts keeps the trace, counts its restart, and keeps the restart count within 3 |
| Clangd.Restarts | mcp_clangd/clangd_manager.py:236-237 | the restarts of a poll log: the number of polls that restarted the process, never more than the polls logged |
| Clangd.RestartDeadlockExample | mcp_clangd/clangd_manager.py:66-138 | a fresh manager that is started and then restarted as written stays blocked, with the lock held |
| Clangd.RestartExample | mcp_clangd/clangd_manager.py:111-142 | the same sequence with the corrected restart returns the new process with restart count 1 and a free lock |
| Mcp.UnansweredIffFalsyId | mcp_clangd/server.py:184-204 | an unknown method or a raising handler gets no reply exactly when the id is falsy; otherwise the reply carries the id and code -32601 or -32603 |
| Mcp.DictGet | mcp_clangd/server.py:433-434 | `get` succeeds exactly on a dict, giving the value or the default |
| Mcp.CheckArguments | mcp_clangd/server.py:501-539 | arguments accepted for a position tool are a dict with file, line and column whose file is the string returned; the discovery tools return no file |
| Mcp.RequireAllInDict | mcp_clangd/server.py:523-526 | the required fields pass exactly when all are present; otherwise the error names the first missing one |
| Mcp.PositionArgumentsAccepted | mcp_clangd/server.py:522-539 | a position tool's dict is accepted exactly when file is a string and line and column are integers of at least 1; a rejection is a ValueError |
| Mcp.DiscoveryArgumentsAccepted | mcp_clangd/server.py:504-520 | `cpp_list_files` is accepted unless a pattern is given that is not a string; `cpp_search_symbols` exactly when the query is a string and any file pattern is one |
| Mcp.NonDictArgumentsRejected | mcp_clangd/server.py:522-526 | arguments that are not a dict never pass a position tool |
| Mcp.CheckFile | mcp_clangd/server.py:541-561 | a file is accepted exactly when its resolved path, taken from the project root when relative, exists and lies within the root; the path passed on is the resolved one; a rejection is a ValueError starting "Invalid file path: " |
| Mcp.OutsideRootRejected | mcp_clangd/server.py:551-555 | a path that resolves outside the root is rejected however it is written |
| Mcp.Execute | mcp_clangd/server.py:563-619 | a name other than the seven tools raises "Unknown tool: " and its name |
| Mcp.ToolReply | mcp_clangd/server.py:449-499 | the reply carries the request id; it succeeds exactly when the tool completed; a ValueError gives -32602 with its message; a timeout or any other exception gives -32603 |
| Mcp.InitializeCheck | mcp_clangd/server.py:206-214 | initialisation succeeds exactly when params and its clientInfo are dicts |
| Mcp.FilterMembers | mcp_clangd/server.py:670-679 | the filtered list holds exactly the elements the test accepts |
| McpServer.TimeoutChoice | mcp_clangd/server.py:566-572 | definition, hover and the two discovery tools get 10 seconds, every other tool 15 |
| McpServer.ValidateArguments | mcp_clangd/server.py:501-561 | fails exactly when the argument rules fail or a position tool's file check fails; on success a discovery tool's arguments are unchanged and a position tool's "file" is replaced by the resolved path |
| McpServer.ValidatedFileIsResolved | mcp_clangd/server.py:522-561 | a position tool's arguments pass exactly when the rules hold and the resolved file exists within the root; the tool then sees the resolved path, which lies within the root; a failure is a ValueError |
| McpServer.OnlyInitializeSetsInitialized | mcp_clangd/server.py:162-229 | the initialised flag changes only through an `initialize` whose parameters can be read, and then becomes true |
| McpServer.ToolCallBeforeInitialize | mcp_clangd/server.py:430-444 | before `initialize`, a tool call is answered -32002 "Server not initialized" and no tool runs |
| McpServer.UnknownMethodAnswer | mcp_clangd/server.py:184-193 | any other method changes nothing and is answered -32601 exactly when the id is truthy |
| McpServer.BadPositionArgumentsRejected | mcp_clangd/server.py:480-539 | after `initialize`, a position tool whose arguments break the rules is answered -32602 |
| McpServer.AcceptedCallRuns | mcp_clangd/server.py:449-619 | after `initialize`, accepted arguments run the named tool with the resolved file and that tool's timeout, and the reply is shaped from its outcome |
| McpServer.Server.constructor | mcp_clangd/server.py:29-43 | a new server is not initialised and keeps its project root |
| McpServer.Server.HandleMessage | mcp_clangd/server.py:162-204 | the reply and the new initialised flag are those of the dispatch rule |
| McpServer.TakeSorted | mcp_clangd/server.py:682-684 | cutting a sorted list keeps it sorted |
| McpServer.ListedFilesShape | mcp_clangd/server.py:650-691 | at most 100 files, sorted, each found by the glob and kept by the filter; all that qualify when there are no more than 100 |
| McpServer.GlobFiles | mcp_clangd/server.py:659-667 | the glob step gives every C and C++ extension's matches in turn for "*", else the pattern's |
| McpServer.KeepListed | mcp_clangd/server.py:670-679 | the filter step keeps exactly the files the filter accepts, in order |
| McpServer.ListFiles | mcp_clangd/server.py:650-691 | the files listed are the sorted, capped filter result, and `total_found` counts the files returned |
| McpServer.HandleListFiles | mcp_clangd/server.py:649-700 | the reply names the pattern used; an exception from the glob gives exactly the error reply with its message and no files, and otherwise the listing of `ListFiles` |
| McpServer.SearchCaps | mcp_clangd/server.py:701-744 | server symbols come back at most 50, the first that pass the file pattern, with the count before the cap; the text search answers exactly when the server fails or nothing passes; with pattern "*" the server list is cut at 50 unchanged |
| McpServer.FilterAll | mcp_clangd/server.py:709 | a filter that accepts everything keeps the list as it is |
| McpServer.Marker | mcp_clangd/server.py:774-777 | a cut marker is at most three characters |
| McpServer.WindowBounds | mcp_clangd/server.py:770-773 | the window holds the match and spans at most the query and 30 characters either side |
| McpServer.ExcerptWindow | mcp_clangd/server.py:767-777 | a line longer than 100 characters once stripped is cut to its window |
| McpServer.WindowSlice | mcp_clangd/server.py:770-777 | the window is the text between its bounds, with "..." exactly where text was cut |
| McpServer.ExcerptLength | mcp_clangd/server.py:767-777 | the excerpt of a long line is at most the query plus 60 characters and two markers |
| McpServer.ShortLineWhole | mcp_clangd/server.py:767-768 | a line of at most 100 characters once stripped is shown whole |
| McpServer.MatchJson | mcp_clangd/server.py:779-785 | a match is listed with exactly the keys name, file, line, context and kind, its context the excerpt of its line and its kind "text_match" |
| McpServer.FileMatchSound | mcp_clangd/server.py:758-785 | every match names a line that mentions the query, in any case, by its 1-based number |
| McpServer.FileMatchComplete | mcp_clangd/server.py:764-785 | no line of a readable file that mentions the query is missed |
| McpServer.Fallback | mcp_clangd/server.py:746-803 | the fallback returns at most 20 matches |
| McpServer.FallbackMatches | mcp_clangd/server.py:754-795 | each fallback result is a match in one of the first 20 listed files; when those hold fewer than 20 matches, all are returned |
| McpServer.CollectStop | mcp_clangd/server.py:787-795 | stopping once 20 matches are found keeps the first 20 matches of all the files |
| McpServer.CollectDone | mcp_clangd/server.py:787-795 | a search stopped early or run to the end holds the first matches of all the files, up to the limit |
| McpServer.ScanLines | mcp_clangd/server.py:764-788 | the inner loop finds the first matches of one file, as many as there is room for |
| McpServer.FilesStep | mcp_clangd/server.py:758-795 | one more file extends the matches in order, and reaching the limit leaves the first 20 matches of all the files |
| McpServer.SearchFile | mcp_clangd/server.py:759-792 | one file's matches continue the collection, up to the first 20 of all the files |
| McpServer.FallbackSearch | mcp_clangd/server.py:746-803 | the nested loops return exactly the fallback's matches |
| Session.ToolTimeout | mcp_clangd/session.py:355-360 | a tool gets twice the configured `lsp_timeout`, 10 seconds when none is set |
| Session.ValidateArguments | mcp_clangd/session.py:407-464 | the arguments pass exactly when the shared rules pass and, for a position tool, the resolved file exists within the root |
| Session.AcceptedCallRunsUnchanged | mcp_clangd/session.py:332-405 | after `initialize`, accepted arguments reach the tool unchanged with twice `lsp_timeout` to run, and the reply is shaped from its outcome |
| Session.OutsideFileRefused | mcp_clangd/session.py:332-464 | a position tool naming an existing file outside the root is answered -32602 "Invalid file path: File is outside project root: " and the file |
| Session.OutsideFileInvalid | mcp_clangd/session.py:447-464 | validation rejects an existing file outside the root with the session's wrapped message |
| Session.ShutdownAnswered | mcp_clangd/session.py:81-83 | `shutdown` is always answered with a null result under its id and stops the session; no other method stops it |
| Session.UnknownRequestAnswer | mcp_clangd/session.py:96-105 | any other method changes nothing and is answered -32601 exactly when the id is truthy |
| Session.SessionToolCallBeforeInitialize | mcp_clangd/session.py:332-346 | before `initialize`, a tool call is answered -32002 and no tool runs |
| Session.ServeBound | mcp_clangd/session.py:27-43 | each request gets at most one answer |
| Session.NothingAfterShutdown | mcp_clangd/session.py:27-83 | whatever follows a `shutdown`, the session's answers are the same |
| Session.ResumeStops | mcp_clangd/session.py:31-33 | a missing or empty request ends the session |
| Session.ResumeAnswered | mcp_clangd/session.py:31-42 | a request handled adds its answer, if any; one whose handling raises ends the session |
| Session.ServeFirst | mcp_clangd/session.py:27-43 | the answers are the first request's answer, then, while the session runs, the answers to the rest |
| Session.ClientSession.constructor | mcp_clangd/session.py:19-25 | a new session runs, is not initialised, and keeps its root |
| Session.ClientSession.HandleRequest | mcp_clangd/session.py:72-116 | the reply and the new flags are those of the dispatch rule |
| Session.ClientSession.Close | mcp_clangd/session.py:725-729 | the session stops running |
| Session.ClientSession.Run | mcp_clangd/session.py:27-43 | a running session answers the requests as the serve rule says and ends stopped; a stopped one answers nothing |
| Session.KeptByFileAlone | mcp_clangd/session.py:558-574 | as intended, a file is kept exactly when no component below the root is hidden or a build directory and, for a custom pattern, its suffix is a C or C++ one |
| Session.KeptAsWrittenIff | mcp_clangd/session.py:561-564 | as written, a file is kept exactly when the intended filter keeps it and the root's own path has no hidden or build component |
| Session.HiddenRootListsNothing | mcp_clangd/session.py:561-564 | as written, a project under a hidden or build directory lists no file at all |
| Session.SessionFilesExact | mcp_clangd/session.py:535-585 | the listing is sorted, keeps each kept file as often as found, and holds exactly the found files without a hidden or build component below the root (with a C or C++ suffix for a custom pattern) |
| Session.KeepFiles | mcp_clangd/session.py:557-576 | the filter loop keeps exactly the files the intended filter accepts, in order |
| Session.ListFiles | mcp_clangd/session.py:535-585 | as intended (Findings row 4): the files listed are the sorted kept files, and `total_count` counts them |
| Session.KindNameAgrees | mcp_clangd/session.py:712-723 | kinds 1 to 26 get the client's names, never "Unknown"; any other number gives "Unknown"; a list or dict kind raises |
| Session.SymbolFile | mcp_clangd/session.py:606-609 | a file is read from a symbol only when the symbol and its location are dicts, and it is the uri after "file://" |
| Session.ConvertSymbolSound | mcp_clangd/session.py:605-624 | an entry has the uri's file, lies within the root and matches a custom pattern, and carries the symbol's name, container, kind name and 1-based position; a file outside the root under a custom pattern raises as written and is skipped as intended |
| Session.Outcomes | mcp_clangd/session.py:605-624 | one turn per symbol, each the conversion of its symbol |
| Session.GatherFrom | mcp_clangd/session.py:605-626 | each entry gathered comes from one of the turns |
| Session.GatherStopped | mcp_clangd/session.py:625-626 | once a turn raises, later symbols change nothing |
| Session.GatherSkipInstead | mcp_clangd/session.py:605-626 | a loop that raises where another skips stops with a prefix of what the other gathers |
| Session.GatherSame | mcp_clangd/session.py:605-624 | loops whose turns agree gather the same |
| Session.SkipInsteadOfRaise | mcp_clangd/session.py:611-615 | the loop as written and as intended differ only for a file outside the root, which raises as written and is skipped as intended |
| Session.ConvertedFrom | mcp_clangd/session.py:605-624 | every entry is the conversion of one of the symbols |
| Session.AsWrittenPrefix | mcp_clangd/session.py:597-626 | as written the loop gives a prefix of the intended entries, and all of them with pattern "*" or when no file lies outside the root |
| Session.OutsideSymbolHidesLaterOnes | mcp_clangd/session.py:605-626 | as written, a symbol outside the root ahead of one inside leaves no entry; as intended the inside one is kept |
| Session.ConvertSymbols | mcp_clangd/session.py:603-626 | the conversion loop gives exactly the intended entries |
| Session.PatternHit | mcp_clangd/session.py:688-704 | the pattern chosen is the first whose captured name contains the query, ignoring case; none means no pattern's name does |
| Session.LineSymbolSound | mcp_clangd/session.py:680-704 | a line's symbol names the query, ignoring case, in a line that mentions it, with the first matching pattern's kind, the first column of the name, and no container |
| Session.LineSymbolComplete | mcp_clangd/session.py:680-704 | a line gives at most one symbol, and one exactly when it mentions the query and some pattern's name holds it |
| Session.FileSymbolsBound | mcp_clangd/session.py:674-708 | an unreadable file gives nothing; a readable one at most one symbol per line |
| Session.FileSymbolsExact | mcp_clangd/session.py:676-704 | a readable file's symbols are exactly those its lines give, with 1-based line numbers |
| Session.FallbackFiles | mcp_clangd/session.py:674 | the fallback reads at most the first 100 listed files: every symbol comes from one of them, and later files change nothing |
| Session.MatchLine | mcp_clangd/session.py:688-704 | the pattern loop stops at the first pattern whose name holds the query |
| Session.ScanLine | mcp_clangd/session.py:680-704 | one line gives its symbol, searched only when the line mentions the query |
| Session.ScanFile | mcp_clangd/session.py:680-704 | the loop over a file's lines collects each line's symbol in order |
| Session.FallbackSearch | mcp_clangd/session.py:641-710 | the loops give exactly the fallback symbols of the first 100 listed files |
| Session.SessionSearchSources | mcp_clangd/session.py:589-637 | the server's entries answer whenever there is one; when the request raises or the answer is not a list, the text fallback answers; every symbol comes from the server or one of the first 100 listed files |
| Session.OutsideSymbolForcesFallback | mcp_clangd/session.py:605-630 | as written, a symbol outside the root ahead of one inside sends the search to the text fallback; as intended the inside symbol is the answer |
| Session.SearchSymbols | mcp_clangd/session.py:589-637 | as intended (Findings row 8): the symbols are the search result and `total_count` counts them |
| Backend.Serve | mcp_clangd/backend.py:172-198 | a key with a stored answer is answered from the cache, which stays as it is; any other key gets its computation's result, which is stored exactly when it succeeded; no stored answer is removed or changed |
| Backend.StoredStays | mcp_clangd/backend.py:177-179 | an answer stored under a key stays, unchanged, through any run of calls, and every call with that key gets it |
| Backend.FirstSuccessIsKept | mcp_clangd/backend.py:172-198 | once a call for a key has succeeded, every later call with that key gets the same answer, whatever its own computation would yield |
| Backend.FailureIsRetried | mcp_clangd/backend.py:192-196 | a failed computation leaves the cache unchanged, so the next call with that key computes again |
| Backend.Backend.GetOrCompute | mcp_clangd/backend.py:172-198 | the answer and the new cache are those of `Serve` on the old cache |
| Config.CallHierarchyError | mcp_clangd/config.py:216-230 | the call-hierarchy options pass exactly when depth, calls and per-level bound are all positive; the first non-positive one names the error, and large values (above 10 or 500) are not errors |
| Config.LargeBoundsAccepted | mcp_clangd/config.py:221-227 | depths above 10 and call limits above 500 are accepted (they only produce a warning) |
| Config.IndexingError | mcp_clangd/config.py:136-153 | the indexing options pass exactly when the index path is not an existing non-directory and the timeout and warm-up limit are positive |
| Config.AiValueError | mcp_clangd/config.py:187-204 | the numeric and level checks of the AI options pass exactly when cache days, max tokens and minimum content length are positive, the monthly limit is non-negative and both levels are among the allowed names |
| Config.CheckAi | mcp_clangd/config.py:165-204 | disabled AI is not checked at all; an unknown provider is an error; a missing key, also absent from the environment, turns AI off without an error; the options change in no other way than that or by taking the key from the environment |
| Config.AiCheckedUsable | mcp_clangd/config.py:165-204 | whenever the check passes and AI stays on, the options have a key, a valid provider and valid values |
| Config.MissingKeyDisables | mcp_clangd/config.py:176-185 | with AI on, a valid provider and no key anywhere, the check reports no error and switches AI off |
| Config.BuildCandidates | mcp_clangd/config.py:99-106 | every candidate of the build-directory search is a compile database path |
| Config.EntryCandidates | mcp_clangd/config.py:108-114 | every candidate of the "build*" sub-directory search is a compile database path |
| Config.FirstExistingIsFirst | mcp_clangd/config.py:90-120 | the search finds nothing exactly when no candidate exists, and otherwise finds an existing candidate before which none exists |
| Config.FirstExistingAppend | mcp_clangd/config.py:90-120 | searching one list of candidates after another finds the first list's hit if it has one, else the second list's |
| Config.SearchBuildDirs | mcp_clangd/config.py:99-106 | the loop over the four build directories returns the first existing database among them |
| Config.SearchEntries | mcp_clangd/config.py:108-114 | the loop over the project's entries returns the first existing database in a "build*" directory |
| Config.SearchOrder | mcp_clangd/config.py:93-106 | a database in the project root wins; failing that, one in a build directory wins over any "build*" sub-directory |
| Config.Config.constructor | mcp_clangd/config.py:16-54 | a new configuration keeps its root and AI options and has no compile database yet |
| Config.Config.ValidateAiOptions | mcp_clangd/config.py:165-214 | the error and the new AI options are those `CheckAi` gives, and nothing else changes |
| Config.Config.FindCompileCommands | mcp_clangd/config.py:90-120 | reports whether the search found a database and records the one found, in the order root, build directories, "build*" entries |
| Config.Config.DefaultClangdArgs | mcp_clangd/config.py:235-261 | seven arguments: the five fixed flags first, "--background-index" exactly once, and last the compile-commands directory, the parent of the database; XDG_CACHE_HOME is set, to the parent of the index directory, exactly when an index directory is configured |
| Config.ClangdArgsShape | mcp_clangd/config.py:246-261 | the argument list built from the fixed flags, the background-index flag and the compile-commands flag has seven entries, the fixed flags first, the background-index flag exactly once and the compile-commands directory last |
| ContextProvider.ScanBack | mcp_clangd/context_provider.py:136-150 | the backward scan raises IndexError exactly when its first index is past the last line; a line it returns is one the pattern accepts |
| ContextProvider.ScanBackFound | mcp_clangd/context_provider.py:136-150 | a line found is the nearest accepted line at or below the start and above the stop |
| ContextProvider.ScanBackNone | mcp_clangd/context_provider.py:136-150 | finding nothing means every line from the start down to just above the stop exists and was rejected |
| ContextProvider.FindFunctionSignature | mcp_clangd/context_provider.py:142-150 | as intended (Findings row 5): a signature returned matches the pattern and is not a `//` comment |
| ContextProvider.SignatureScanWindow | mcp_clangd/context_provider.py:145-150 | as intended (Findings row 5): the signature found is the nearest matching line among the target line and the 8 above it (1-based target line); none found means none of those lines matches |
| ContextProvider.FindClassDefinition | mcp_clangd/context_provider.py:133-140 | as intended (Findings row 9): a class line returned matches the class pattern |
| ContextProvider.ClassScanWindow | mcp_clangd/context_provider.py:136-140 | as intended (Findings row 9): the class found is the nearest matching line among the target line and the 48 above it (1-based target line); none found means none of those lines matches |
| ContextProvider.ClassFirstLineNeverScanned | mcp_clangd/context_provider.py:136-140 | as written, a class header on the file's first line is never found from a 1-based target line from 1 to 49 with no other class line between; the corrected scan finds it |
| ContextProvider.FirstLineNeverScanned | mcp_clangd/context_provider.py:145 | as written, a signature on the file's first line is never found when the target is that line (line 1, 1-based); the corrected scan finds it |
| ContextProvider.ExtractLocalContext | mcp_clangd/context_provider.py:112-131 | as intended (Findings rows 5 and 9): fails exactly when the target line is past the last line; the surrounding code is the lines from max(0, line-25) to min(len, line+25) joined with newlines |
| ContextProvider.IncludeLines | mcp_clangd/context_provider.py:155-158 | the result holds exactly the stripped lines that start with "#include", and only those |
| ContextProvider.IncludeLinesAppend | mcp_clangd/context_provider.py:155-158 | the include lines of consecutive parts of a file come out part after part, in file order |
| ContextProvider.ExtractImports | mcp_clangd/context_provider.py:152-159 | at most 20 includes, a prefix of all the file's include lines, and all of them when there are at most 20 |
| ContextProvider.IncludeName | mcp_clangd/context_provider.py:178-182 | a name extracted from an include line holds neither '>' nor '"' |
| ContextProvider.IncludeCandidates | mcp_clangd/context_provider.py:184-200 | the places tried are beside the file, the project root, and the four include directories: six in all |
| ContextProvider.HeaderEntry | mcp_clangd/context_provider.py:171 | an entry starts with the include line as a comment and carries at most 5000 characters of the header |
| ContextProvider.HeaderOf | mcp_clangd/context_provider.py:167-171 | an include adds at most one entry, and only when it resolves, with the resolved header's text |
| ContextProvider.HeadersOf | mcp_clangd/context_provider.py:166-173 | at most one entry per include |
| ContextProvider.HeadersFromIncludes | mcp_clangd/context_provider.py:166-173 | every entry comes from one of the includes, resolved and read |
| ContextProvider.CollectHeaders | mcp_clangd/context_provider.py:164-173 | the loop collects exactly the entries of the includes, in order |
| ContextProvider.ReadHeader | mcp_clangd/context_provider.py:167-171 | one round of the loop gives the include's entry, or none |
| ContextProvider.RelatedHeaders | mcp_clangd/context_provider.py:161-173 | the headers are the entries of the first five imports, so at most five |
| ContextProvider.ExtractSymbolKind | mcp_clangd/context_provider.py:229-230 | a text with '(' is a function |
| ContextProvider.FirstShownIsFirst | mcp_clangd/context_provider.py:228-246 | the kind chosen is the first in priority order that the text shows, and none exactly when it shows none |
| ContextProvider.SymbolKindFirstMatch | mcp_clangd/context_provider.py:224-246 | the kind is the name of the first kind the text shows, in the order function, class, template, macro, variable, struct, enum, typedef, and "symbol" when it shows none |
| ContextProvider.CutParams | mcp_clangd/context_provider.py:215 | cutting the parameters leaves a prefix of the text |
| ContextProvider.FirstWord | mcp_clangd/context_provider.py:216 | the first word of a text that is not blank is nonempty and made of the text's characters |
| ContextProvider.AfterColon | mcp_clangd/context_provider.py:210-215 | the symbol after the first ':' is made of the line's characters |
| ContextProvider.LineSymbol | mcp_clangd/context_provider.py:210-218 | a symbol taken from a line is an identifier made of the line's characters |
| ContextProvider.FirstIdentifier | mcp_clangd/context_provider.py:221-222 | the first identifier found is an identifier made of the text's characters |
| ContextProvider.NamedSymbol | mcp_clangd/context_provider.py:208-218 | a name from the first three lines is an identifier |
| ContextProvider.NamedSymbolFromLine | mcp_clangd/context_provider.py:208-218 | the name comes from one of the lines |
| ContextProvider.ExtractSymbolName | mcp_clangd/context_provider.py:204-222 | as intended (Findings row 6): the name is an identifier, or "unknown" |
| ContextProvider.NoIdentifierUnknown | mcp_clangd/context_provider.py:221-222 | a text without a letter or '_' gives "unknown" |
| ContextProvider.ExtractedNameInDoc | mcp_clangd/context_provider.py:204-222 | a name other than "unknown" starts with a character of the text |
| ContextProvider.QualifiedNameRaises | mcp_clangd/context_provider.py:211-216 | as written, "std::string" raises IndexError at `split()[0]`; the corrected extraction gives "std" |
| ContextProvider.MinimalContext | mcp_clangd/context_provider.py:56-62 | as intended (Findings row 3): the minimal context carries the text as primary content, level "minimal", source "clangd_index" and no local or full fields |
| ContextProvider.LocalContext | mcp_clangd/context_provider.py:64-83 | an unreadable file leaves the minimal context as it is; otherwise the level is "local", the source "live_file_and_index", the text and name are kept and surrounding code is set |
| ContextProvider.FullContext | mcp_clangd/context_provider.py:85-100 | the level is "full" and the source "live_codebase"; a readable file replaces the primary content with the file and sets its imports and headers; otherwise the primary content is kept |
| ContextProvider.ContextLevels | mcp_clangd/context_provider.py:23-100 | only the three levels are accepted and a missing hover fails; the level reported is the one requested, except that a local request on an unreadable file stays minimal |
| ContextProvider.FullContextBounds | mcp_clangd/context_provider.py:94-166 | a full context keeps at most 20 imports and 5 headers |
| ContextProvider.AsWrittenNeverSummarises | mcp_clangd/context_provider.py:46-62 | as written, a minimal or local context reads "contents", which the hover result never has, so its text is empty and it never asks for a summary |
| ContextProvider.MinimalCarriesDocumentation | mcp_clangd/context_provider.py:46-62 | with the documentation read, a minimal context carries the hover's documentation as its text |
| ContextProvider.GetContext | mcp_clangd/context_provider.py:23-44 | as intended (Findings row 3): the context returned is that of the requested level |
| LlmProvider.SummariseRule | mcp_clangd/llm_provider.py:181-207 | a symbol is summarised exactly when its stripped content has at least 100 characters, its kind is not getter, setter or destructor, and it is a template or macro or its text does not open with a "@brief" line shorter than 80 characters |
| LlmProvider.FirstLineShorter | mcp_clangd/llm_provider.py:204 | the first line is shorter than n exactly when the text is, or it has a newline before index n |
| LlmProvider.BriefSkipsOnlyShortFirstLine | mcp_clangd/llm_provider.py:181-207 | for substantial content of an ordinary kind, a "@brief" text is skipped exactly when a newline comes within its first 80 characters |
| LlmProvider.EstimateTokens | mcp_clangd/llm_provider.py:209-220 | the estimate is the largest count whose four characters per token fit in the prompt and response together |
| LlmProvider.EstimateMonotone | mcp_clangd/llm_provider.py:219-220 | more text never gives a smaller estimate |
| IndexWarmup.CandidatesAppend | mcp_clangd/index_warmup.py:85-122 | the matches of consecutive groups of patterns come out group after group, so priority order is kept |
| IndexWarmup.UniqueMembers | mcp_clangd/index_warmup.py:124-130 | the de-duplicated list holds exactly the candidates that are files, each once |
| IndexWarmup.UniqueOrder | mcp_clangd/index_warmup.py:124-130 | files keep the order of their first occurrence among the candidates |
| IndexWarmup.UniquePrefix | mcp_clangd/index_warmup.py:124-130 | de-duplicating a longer list extends the result for its prefix |
| IndexWarmup.CompiledPath | mcp_clangd/index_warmup.py:150-156 | an absolute "file" entry is taken as it is |
| IndexWarmup.KeepRelevant | mcp_clangd/index_warmup.py:159-164 | as intended (Findings row 7): the filter never adds files |
| IndexWarmup.KeepRelevantMembers | mcp_clangd/index_warmup.py:159-164 | exactly the relevant files are kept |
| IndexWarmup.KeepRelevantAppend | mcp_clangd/index_warmup.py:159-164 | filtering consecutive parts of the list filters part after part, so the order is kept |
| IndexWarmup.KeepRelevantSubsequence | mcp_clangd/index_warmup.py:159-164 | distinct files stay distinct after filtering |
| IndexWarmup.FilterByCompileCommands | mcp_clangd/index_warmup.py:168-171 | as intended (Findings row 7): a database that cannot be read keeps every file |
| IndexWarmup.SiblingDirectoryKept | mcp_clangd/index_warmup.py:162-163 | as written, a file in a sibling directory "dir2" passes the prefix test for a compiled file in "dir"; the directory-tree test rejects it |
| IndexWarmup.CollectCompiled | mcp_clangd/index_warmup.py:148-156 | the loop collects every entry's compiled file |
| IndexWarmup.KeepFiles | mcp_clangd/index_warmup.py:159-166 | as intended (Findings row 7): the loop keeps exactly the relevant files, in order |
| IndexWarmup.FilterFiles | mcp_clangd/index_warmup.py:138-171 | as intended (Findings row 7): the files the database covers, in order; all of them when it cannot be read |
| IndexWarmup.KeyFilesShape | mcp_clangd/index_warmup.py:62-136 | the key files are existing files matched by some pattern, each once |
| IndexWarmup.EntryPointsFirst | mcp_clangd/index_warmup.py:78-133 | with an unreadable database, the existing entry points come first, in pattern order |
| IndexWarmup.FindKeyFiles | mcp_clangd/index_warmup.py:62-136 | as intended (Findings row 7): the pattern loop, the de-duplicating loop and the filter give the key-file list |
| IndexWarmup.WarmupProject | mcp_clangd/index_warmup.py:24-60 | nothing is opened when warm-up is off; at most the first `limit` key files are opened, already-open documents stay open and nothing else is added; while clangd runs the open documents become exactly the old ones plus every one of those files that was closed and readable, at version 1 with its language and size; while it does not they are unchanged; the count is the number of files for which `ensure_document_open` returned, which is all of them when all are readable |
| IndexWarmup.OpenInOrder | mcp_clangd/index_warmup.py:41-55 | the loop opens the files in order: the open documents and the count are those of `OpenedInOrder` and `Succeeded` over the files, a failed open skipping only that file |
| IndexWarmup.Readable | mcp_clangd/lsp_methods.py:40-79 | a file has a document to record exactly when its contents can be read |
| IndexWarmup.WarmedUp | mcp_clangd/index_warmup.py:35-55 | the documents a warm-up adds are exactly the listed files that were closed and have a document |
| IndexWarmup.OpenedInOrder | mcp_clangd/index_warmup.py:41-55 | opening files in order only adds documents, for listed files with a document and only while clangd runs, and keeps every old document as it was |
| IndexWarmup.Succeeded | mcp_clangd/index_warmup.py:40-44 | the count of returned opens is at most the number of files, all of them while clangd runs and all are readable, and none while it does not and none was open |
| IndexWarmup.OpenedInOrderStep | mcp_clangd/index_warmup.py:41-44 | one more file changes the documents and the count by that file alone |
| IndexWarmup.WarmedUpAppend | mcp_clangd/index_warmup.py:41-44 | the warm-up over one more file adds that file exactly when it was closed and has a document |
| IndexWarmup.OpenedInOrderIsWarmedUp | mcp_clangd/index_warmup.py:35-55 | while clangd runs, opening the files in order yields exactly the old documents plus the warm-up's |
| TreeSitter.SuffixOfFileName | mcp_clangd/tree_sitter_manager.py:245 | the suffix of a name with one dot is the text from that dot |
| TreeSitter.ParserBySuffix | mcp_clangd/tree_sitter_manager.py:243-255 | a file gets the C++ parser exactly when its lower-cased suffix is one of the nine C/C++ suffixes or .tcc/.inc |
| TreeSitter.NoSuffixNoParser | mcp_clangd/tree_sitter_manager.py:243-255 | a name without a suffix never gets a parser |
| TreeSitter.Chain | mcp_clangd/tree_sitter_manager.py:441-451 | the nodes visited going up from a node are that node and its ancestors |
| TreeSitter.ChainIsPath | mcp_clangd/tree_sitter_manager.py:441-451 | each node visited is followed by its parent, and the walk ends at a root |
| TreeSitter.FirstChildText | mcp_clangd/tree_sitter_manager.py:445-449 | a name is found exactly when some child has the type looked for |
| TreeSitter.FirstChildTextIsFirst | mcp_clangd/tree_sitter_manager.py:445-449 | the name found is the text of the first child of that type |
| TreeSitter.NamesReverse | mcp_clangd/tree_sitter_manager.py:453 | collecting names from the reversed walk gives the reversed names |
| TreeSitter.ScopeSplits | mcp_clangd/tree_sitter_manager.py:455-475 | the scope is absent exactly when no enclosing namespace or class has a name, and splitting it at "::" gives those names outermost first |
| TreeSitter.ClassesWithinScope | mcp_clangd/tree_sitter_manager.py:439-475 | every enclosing class name is also a part of the scope |
| TreeSitter.NamesStep | mcp_clangd/tree_sitter_manager.py:443-451 | one step of the walk puts the node's own name before its ancestors' names |
| TreeSitter.WalkClasses | mcp_clangd/tree_sitter_manager.py:443-451 | the walk collects the enclosing class and struct names, nearest first |
| TreeSitter.GetEnclosingClasses | mcp_clangd/tree_sitter_manager.py:439-453 | the enclosing classes are listed outermost first |
| TreeSitter.WalkScopes | mcp_clangd/tree_sitter_manager.py:460-473 | the walk collects the enclosing namespace, class and struct names, nearest first |
| TreeSitter.GetScopeForNode | mcp_clangd/tree_sitter_manager.py:455-475 | the scope is the enclosing names joined outermost first with "::", or nothing when there are none |
| TreeSitter.NodeName | mcp_clangd/tree_sitter_manager.py:460-472 | a namespace gives its identifier only in the scope walk; a class or struct gives its type name |
| TreeSitter.FindChild | mcp_clangd/tree_sitter_manager.py:445-449 | the inner loop stops at the first child of the type |
| TreeSitter.BlockType | mcp_clangd/tree_sitter_manager.py:633-645 | a node opens a function, class, namespace, template or enum block, or none |
| TreeSitter.FirstWantedIsNearest | mcp_clangd/tree_sitter_manager.py:621-629 | the block found is the nearest ancestor-or-self of the wanted type; none found means no node on the way is wanted |
| TreeSitter.FindContextBlock | mcp_clangd/tree_sitter_manager.py:621-629 | the upward walk stops at the first wanted block |
| TreeSitter.ParamTypeFound | mcp_clangd/tree_sitter_manager.py:404-428 | a parameter has a type exactly when it has a type child or a pointer declarator; without one there is no result |
| TreeSitter.PointerNameKept | mcp_clangd/tree_sitter_manager.py:416-420 | a pointer declarator without an identifier keeps the name found so far |
| TreeSitter.PointerNameLast | mcp_clangd/tree_sitter_manager.py:416-420 | a pointer declarator holding identifiers names the parameter after its last one |
| TreeSitter.ParamUnnamed | mcp_clangd/tree_sitter_manager.py:422-423 | a parameter without an identifier is reported as "unnamed" |
| TreeSitter.PointerParam | mcp_clangd/tree_sitter_manager.py:410-423 | a type then a pointer declarator naming x is parameter x of that type with "*" appended |
| TreeSitter.ExtractParameterInfo | mcp_clangd/tree_sitter_manager.py:404-428 | the loop gives the parameter the scan rule describes |
| TreeSitter.TreeSitterManager.constructor | mcp_clangd/tree_sitter_manager.py:119-162 | a new manager has the given size limit and availability and all six maps empty |
| TreeSitter.TreeSitterManager.ClearCachesForFile | mcp_clangd/tree_sitter_manager.py:257-264 | only the file's symbol, function and class entries go; trees, mtimes and hashes stay |
| TreeSitter.TreeSitterManager.ClearCaches | mcp_clangd/tree_sitter_manager.py:727-735 | all six maps are emptied |
| TreeSitter.TreeSitterManager.ParseFile | mcp_clangd/tree_sitter_manager.py:168-241 | nothing is parsed when the library is missing or the file is missing or too large; a tree parsed at or after the file's mtime is returned unchanged; a failed read, no parser or a failed parse change nothing; a fresh parse records tree, mtime and hash and drops the file's symbol caches |
| TreeSitter.TreeSitterManager.RecordParse | mcp_clangd/tree_sitter_manager.py:226-234 | a fresh parse records tree, mtime and hash and drops that file's three symbol caches |
| TreeSitter.ParseTwice | mcp_clangd/tree_sitter_manager.py:194-199 | parsing an unchanged file a second time returns the first tree |
| Utf8.DecodeEncode | mcp_clangd/lsp_client.py:430-484 | decoding the UTF-8 encoding of a text gives the text back |
| Utf8.EncodeLengthAscii | mcp_clangd/lsp_client.py:429-430 | a text's UTF-8 encoding has one byte per character exactly when the text is ASCII, and then the bytes are the character codes |
| PyStr.ParseIntOfString | mcp_clangd/lsp_client.py:471 | `int` reads back any integer's decimal text |
| PyStr.StripEnds | mcp_clangd/session.py:51 | a stripped text is empty or starts and ends with a non-space |
| Sorting.SortBySorted | mcp_clangd/session.py:579 | the sort leaves its input in non-decreasing key order |
| Sorting.SortedUnique | mcp_clangd/lsp_methods.py:837 | two sorted arrangements of the same elements with distinct keys are equal, so the sorted order does not depend on the input order |

## Left out

- Process, socket, daemon and command-line plumbing (`proxy.py`, `daemon.py`, `daemon_wrapper.py`, `__main__.py`, the socket helpers in `utils.py`): they spawn processes and open sockets, and hold no rule of their own.
- `backend.py`: `start`/`shutdown` only sequence I/O, and the futures of `get_or_compute` that let concurrent callers share one computation are scheduling. Its memo is modelled in `Backend`: a successful answer is kept for the key for the life of the backend, and only failures are dropped.
- Session.ListFiles, Session.SearchSymbols: they state what one computation returns. In the source they run through `get_or_compute` with the pattern (and query) as key, so a repeated identical call gets the first successful answer again (`Backend.FirstSuccessIsKept`), even after the files have changed.
- `providers/gemini_provider.py`, the prompts and the remote LLM call: the summariser is modelled only through `LlmProvider`'s decision rule and token estimate.
- Logging, `PerformanceTimer`, the tool schema lists of `tools/list`, and the wording of exception messages beyond the fixed texts the contracts name.
- asyncio tasks, futures, `wait_for` and sleeps: a request's outcome (result, error or timeout) is chosen by the environment and passed in. The reader task's polling and clangd's stderr task are not modelled.
- SQLite: each table is a map from key to row. `VACUUM`, `get_stats` (`cache.py:236-276`) and the AI cache's statistics are not modelled.
- File reads, `stat`, `glob`/`rglob`, `exists`/`is_file`, `Path.resolve` and environment lookup are parameters. `resolve` is a function from path to absolute path, not `pathlib`'s normalisation.
- md5, sha1 and sha256 are parameters returning fixed-length hex strings. Their collision resistance is not modelled.
- Regular-expression and `fnmatch` matching, and tree-sitter parsing and queries, are predicates or functions given as parameters. `lower()` is ASCII-only.
- PyStr.ParseInt, ContextProvider.IsIdentifier, ContextProvider.FirstIdentifier: ASCII only. `int()` here takes no `_` separators and no non-ASCII digits, and an identifier is ASCII letters, digits and `_`, where Python's `isidentifier`, `\w` and `int()` also accept Unicode letters and digits.
- Paths.JoinPath: the left side is taken to be a directory other than "", "." and "/", as every join in the bridge has it. For those `pathlib` drops the "." or the doubled '/', and `JoinPath` does not.
- Floating point: indexing `elapsed_time`/`estimated_remaining`, timing averages and `get_performance_stats` (`tree_sitter_manager.py:701-725`). Modification times are naturals. Timeouts and TTLs are reals or naturals with the source's constants. The indexing percentage is an integer.
- The rest of `tree_sitter_manager.py` (`get_functions`, `get_classes`, `find_symbols`, `_extract_function_info`, `_extract_class_info`, `_has_keyword`, `_create_context_block`) consists of queries over parsed trees. Only the parent-chain walks, block types, parameter scan and cache bookkeeping are modelled.
- The `__post_init__` checks of `config.py` on the project root, clangd executable and index path are not modelled. The validators and the compile-database search are.
- Config.Config.FindCompileCommands: reports `found == false` where the source raises ValueError. The error message is not modelled.
- LlmProvider.ShouldSummarize: the decision is stated through `SummariseRule` and `BriefSkipsOnlyShortFirstLine`, not by its own contract.
- Session.ClientSession.Run: a failed write of a response is not modelled. Every produced answer is taken as delivered.
- Session.ToolTimeout: `lsp_timeout` is a real read from the configuration. A value that is not a number is not modelled.
- The `readlines` results keep their "\n". The fallback searches work on lines given as strings, with or without it.
- The context excerpt of a server fallback match is computed when the match is rendered, not stored in the match.

## Findings

| source | as written | input that shows it | evidently intended | confidence | as-written member | corrected member |
|---|---|---|---|---|---|---|
| mcp_clangd/lsp_client.py:474-485 | only a Content-Length of exactly 0 is skipped; a negative one makes the loop cut the buffer at a point before the header's end | a buffer holding "Content-Length: -23\r\n\r\n": the body ends at offset 0, so the buffer stays as it is and the loop never ends | a length that is not positive is skipped like 0, and the header is dropped | not executed | LspFraming.AsWrittenStallsOnNegativeLength | LspFraming.NonPositiveLengthSkipped |
| mcp_clangd/clangd_manager.py:121-138 | `restart` holds `self.lock` and then calls `start`, which takes the same non-reentrant `asyncio.Lock` (line 66) | any `restart` of a process that has restarts left | the inner start runs under the lock already held | not executed | Clangd.RestartDeadlockExample | Clangd.RestartExample |
| mcp_clangd/context_provider.py:46-62 | the minimal context reads the hover's "contents" key, which `get_hover` never returns, so the documentation is always empty and no hover text is summarised | any hover `{"type": "int", "documentation": "counts calls"}` | the hover's "documentation" is used | not executed | ContextProvider.AsWrittenNeverSummarises | ContextProvider.MinimalCarriesDocumentation |
| mcp_clangd/session.py:561-564 | the hidden and build-directory filter looks at every part of the absolute path, including the project root's own | a project rooted at `/work/build/app`: every file is dropped and the listing is empty | only the parts below the project root are tested | not executed | Session.HiddenRootListsNothing | Session.SessionFilesExact |
| mcp_clangd/context_provider.py:142-150 | the backward scan stops at `max(0, line - 10)` as an exclusive bound, so line 0 is never examined | a signature on the file's first line, with the target on that same line (line 1, 1-based): `range(0, 0, -1)` is empty | the scan reaches line 0 | not executed | ContextProvider.FirstLineNeverScanned | ContextProvider.SignatureScanWindow |
| mcp_clangd/context_provider.py:211-216 | a line holding ':' has its text after the first ':' split on whitespace and `[0]` taken, which raises IndexError when that text is empty | the hover text "std::string": the part after the first ':' is empty | an empty part is passed over and the first identifier of the text, "std", is the name | not executed | ContextProvider.QualifiedNameRaises | ContextProvider.ExtractedNameInDoc |
| mcp_clangd/index_warmup.py:162-163 | a file is kept when its path string starts with a compiled file's directory, with no separator, so a sibling directory sharing the prefix also matches | compiled `/p/src/a.cpp`, candidate `/p/src2/b.h` | only files inside the compiled file's directory are kept | not executed | IndexWarmup.SiblingDirectoryKept | IndexWarmup.KeepRelevantMembers |
| mcp_clangd/session.py:605-630 | `relative_to` (line 613) raises for a symbol outside the project root under a custom pattern; the exception aborts the whole conversion, so the search falls back to the text scan | pattern "src/*", symbols from `/elsewhere/x.h` then `/root/src/y.cpp` | an outside symbol is skipped and the rest are converted | not executed | Session.OutsideSymbolHidesLaterOnes | Session.ConvertSymbols |
| mcp_clangd/context_provider.py:133-140 | the class scan stops at `max(0, line - 50)` as an exclusive bound, so line 0 is never examined | a class header on the file's first line, with the target on that same line (line 1, 1-based): `range(0, 0, -1)` is empty | the scan reaches line 0 | not executed | ContextProvider.ClassFirstLineNeverScanned | ContextProvider.ClassScanWindow |
