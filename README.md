# Cronos search core in Dafny

Cronos is the search backend of discordlist.gg. It keeps two tantivy indexes,
one of bots and one of packs. A single writer actor per index applies
changes, and staged fuzzy queries read from it. The data comes from a Scylla
cluster, and the routes sit behind a keyed rate limiter and a logging
middleware. This project models the parts of that program that are its own
logic:

- **The writer actor** (`search/writer.rs`). It is a state machine over the
  events "an op arrived", "15 seconds of quiet" and "the channel
  disconnected". It carries a dirty flag, pending and committed documents,
  and the pings it acknowledged. The loop is also written as an imperative
  method over an `IndexWriter` class, proved equal to the state machine. The
  sending side is a `Writer` class that logs the ops it sent. An actor that
  lives for a given number of ops is an input, so callers can be shown to stop
  at the first failed send.
- **The index clients** (`index_impls/bots.rs`, `index_impls/packs.rs`). Each
  operation is the sequence of writer ops it emits, plus the live-data calls
  it makes. The schemas are built with a `SchemaBuilder` class.
- **Query staging and paging** (`queries.rs`, `readers/mod.rs`,
  `readers/bots.rs`).
  - A sequence of at most 10 tokens becomes up to three fuzzy stages, with
    byte-length cut-offs 0, 4 and 8.
  - The stages are collected in order, with one cap of `limit + offset` for
    every stage.
  - `offset` addresses are then skipped, and the rest are loaded in order.
  - Sorted collection ranks by the key `(cb(id), score)`, or by
    `(-cb(id), score)` for `Asc`. tantivy's `TopDocs` is shown as "the `k`
    largest keys, largest first".
- **The models layer** (`models/utils.rs`, `models/tags.rs`,
  `models/connection.rs`).
  - `process_rows`, `VoteStats`, and the SELECT strings.
  - The tag maps and how they are refreshed.
  - How the CQL script splits into statements, and the order of the steps in
    `connect`.
- **Request rules** (`main.rs`, `routes/*.rs`).
  - How the rate-limit environment variables are parsed, and which quota wins.
  - The 429 rule and the pass-through rule of the rate limiter.
  - How `log` masks 5xx bodies.
  - The search payload: its bounds and defaults, and the response it echoes.
  - How a bot or pack becomes a hit, and the bot id listing.

Calls into code that is not part of this model are parameters:
- the library answers (tantivy `Result`s, the Scylla driver's rows and errors);
- the live-data lookups (`get_bot_data`, `get_bot_votes`, `get_pack_data`,
  `get_pack_likes`, `all_bots`, `all_packs`);
- the searcher (what a query matches, and each document's stored fields);
- the value of the environment;
- governor's verdict on a key.

Numbers are unbounded integers. The casts `as u64` and `as i64` are written
out modulo 2^64 (module `Ints`).

## Model

| member | source | states |
|---|---|---|
| SearchWriter.Without | src/search/writer.rs:119-121 | `delete_term` keeps exactly the documents that do not hold the term, and never adds one |
| SearchWriter.ExitIsFinal | src/search/writer.rs:70-109 | once the actor has ended, no later event changes it |
| SearchWriter.RunSplit | src/search/writer.rs:74-103 | running over a stream is running over a prefix and then over the rest |
| SearchWriter.EndedOnPrefix | src/search/writer.rs:79 | once a prefix of the stream ends the actor, the remaining events change nothing |
| SearchWriter.ParkedIgnoresTime | src/search/writer.rs:75-86 | while clean, the loop blocks in `recv` without a timeout: silence changes nothing and does not commit |
| SearchWriter.ReceiveMakesDirty | src/search/writer.rs:75-85 | a clean actor that receives any op, a ping included, applies it and becomes dirty, without committing |
| SearchWriter.QuietCommits | src/search/writer.rs:88-94 | when dirty, the auto-commit timeout commits the pending documents and clears the flag |
| SearchWriter.CommitsOnlyOnQuietOrShutdown | src/search/writer.rs:88-106 | the committed documents change only after silence while dirty, or at disconnection |
| SearchWriter.BusyStreamNeverCommits | src/search/writer.rs:88-101 | when ops keep arriving with no pause between them, a dirty actor never commits and stays dirty |
| SearchWriter.DisconnectCommits | src/search/writer.rs:80-106 | disconnection, clean or dirty, commits the pending documents, then ends with the result of `wait_merging_threads` |
| SearchWriter.ErrorEndsActor | src/search/writer.rs:74-103 | a library error while handling an op ends the actor with that error; no later op is processed |
| SearchWriter.CommitErrorEndsActor | src/search/writer.rs:88-106 | a failing commit, after a quiet period while dirty or at disconnection, ends the actor with that error; no later event changes it |
| SearchWriter.DeliveredInOrder | src/search/writer.rs:111-127 | ops delivered without error are applied in channel order, and their pings are acknowledged in the same order |
| SearchWriter.StartupPingAcked | src/search/writer.rs:113-115 | the startup ping is acknowledged exactly when the actor managed to open its index writer |
| SearchWriter.StartupPingLeadsToCommit | src/search/writer.rs:75-94 | the startup ping alone makes the actor dirty, so the first silence after start-up commits |
| SearchWriter.IndexWriter.AddDocument | src/search/writer.rs:117 | the document is pending exactly when the library accepted it; committed documents are unchanged |
| SearchWriter.IndexWriter.DeleteTerm | src/search/writer.rs:120 | the pending documents lose exactly the documents holding the term |
| SearchWriter.IndexWriter.DeleteAllDocuments | src/search/writer.rs:123 | nothing is pending after an accepted clear; a refused clear changes nothing |
| SearchWriter.IndexWriter.Commit | src/search/writer.rs:92-105 | an accepted commit makes the pending documents the committed ones |
| SearchWriter.HandleMessage | src/search/writer.rs:111-128 | the dispatch: a ping is acknowledged through its waker, an add or a clear returns the library's result, a delete always succeeds; on success the op's effect is applied to the pending documents |
| SearchWriter.RunWriter | src/search/writer.rs:70-109 | the loop, with its dirty flag, `break`, `continue` and `?`, ends in exactly the state the actor state machine reaches on the same events |
| SearchWriter.Taken | src/search/writer.rs:41-46 | how many of a run of sends get through to an actor that stops receiving after a number of ops: all are sent before it stops, none after |
| SearchWriter.AddOps | src/search/index_impls/bots.rs:108-112 | one `AddDocument` per document, in document order |
| SearchWriter.ClearThenAddRebuilds | src/search/index_impls/bots.rs:104-115 | a clear followed by one add per document leaves exactly those documents, in order, whatever was pending |
| SearchWriter.Writer.SendOp | src/search/writer.rs:41-46 | a send while the actor holds the receiver appends the op; afterwards it fails with "Writer actor has shutdown." and sends nothing |
| SearchWriter.Writer.AddDocument | src/search/writer.rs:48-50 | sends exactly one `AddDocument`, or fails with the shutdown error |
| SearchWriter.Writer.RemoveDocs | src/search/writer.rs:52-54 | sends exactly one `RemoveDocuments` of the term, or fails with the shutdown error |
| SearchWriter.Writer.ClearAllDocs | src/search/writer.rs:56-58 | sends exactly one `ClearAll`, or fails with the shutdown error |
| SearchWriter.ClearThenAddPrefix | src/search/index_impls/bots.rs:104-115 | once the clear gets through, the sends that get through after it are a prefix of the adds |
| SearchWriter.AddEach | src/search/index_impls/bots.rs:108-112 | the `for` loop of a refresh sends the adds in order and stops at the first failed send, which it reports |
| SearchWriter.StartWriter | src/search/writer.rs:12-34 | `Ok(Writer)` exactly when the startup ping was sent and acknowledged; otherwise the joined thread's error, or the start-up error when the thread ended cleanly |
| BotIndexes.DefaultSchema | src/search/index_impls/bots.rs:118-129 | six fields in this order: `id` i64 indexed, fast and stored; `features` and `premium` u64 indexed and fast; text `username` and `brief_description`; text `tags`, also fast |
| BotIndexes.SearchFields | src/search/index_impls/bots.rs:60-64 | the search fields are the handles of `username`, `brief_description` and `tags`, in that order |
| BotIndexes.FreshSearchFields | src/search/index_impls/bots.rs:56-64 | the fresh schema has every field `create` looks up, and the search fields are fields 3, 4 and 5 |
| BotIndexes.UsernameBoostedMost | src/search/index_impls/bots.rs:60-64 | in every stage of a bot query, the `username` clause comes first and has the largest boost |
| SearchWriter.Documents | src/search/index_impls/bots.rs:108-110 | one document per entity, in the order given; the pack refresh (`index_impls/packs.rs:116-119`) uses it for `all_packs` too |
| BotIndexes.BotIndex.RemoveBot | src/search/index_impls/bots.rs:82-89 | emits exactly one `RemoveDocuments` of the bot's id term; the bot leaves the live data only when that send succeeded |
| BotIndexes.BotIndex.UpsertBot | src/search/index_impls/bots.rs:91-102 | a fetch error or a missing bot ("Bot does not exist!") sends nothing and touches no live data; otherwise exactly one `AddDocument` of the bot's document is sent, and the live data is updated only when the send succeeded |
| BotIndexes.BotIndex.UpsertBotReplacing | src/search/index_impls/bots.rs:91-102 | the corrected upsert: the same error cases, then a delete of the id term before the add |
| BotIndexes.BotIndex.FullRefresh | src/search/index_impls/bots.rs:104-115 | sends `ClearAll`, refreshes the live data, then one add per bot in `all_bots` order, and stops at the first failure with its error |
| BotIndexes.FullRefreshRebuilds | src/search/index_impls/bots.rs:104-115 | once applied, a full refresh leaves the index holding exactly the documents of `all_bots`, in order |
| BotIndexes.UpsertKeepsOldDocuments | src/search/index_impls/bots.rs:96-97 | as written, an upsert keeps every pending document, the bot's old one included |
| BotIndexes.UpsertDuplicatesBot | src/search/index_impls/bots.rs:96-97 | an index holding a bot's document that receives an upsert of that bot holds two documents with its id |
| BotIndexes.ReplacingUpsertKeepsOneCopy | src/search/index_impls/bots.rs:91-102 | after the corrected upsert the new document is pending once, and no other pending document holds the id term |
| BotIndexes.Create | src/search/index_impls/bots.rs:48-80 | an open error is returned as it is; otherwise the index keeps the id field, the writer and the schema, and the reader gets the field context and the search fields |
| BotIndexes.InitIndex | src/search/index_impls/bots.rs:26-35 | creates the index, stores it only when the cell is empty, and ignores a second store |
| BotIndexes.WriterOf | src/search/index_impls/bots.rs:37-39 | hands back the stored index; it is only callable after `init_index` |
| PackIndexes.DefaultSchema | src/search/index_impls/packs.rs:126-143 | five fields in this order: `id` i64 indexed, fast and stored; text `name` and `description`; text `tag`, also fast; `tag_agg`, fast, with the raw tokenizer and basic indexing |
| PackIndexes.SearchFields | src/search/index_impls/packs.rs:69-73 | the search fields are the handles of `name`, `description` and `tag`, in that order |
| PackIndexes.FreshSearchFields | src/search/index_impls/packs.rs:66-73 | the fresh schema has every field `create` looks up; the search fields are 1, 2 and 3, the id field is 0 and `tag_agg` is 4 |
| PackIndexes.NameBoostedMost | src/search/index_impls/packs.rs:69-73 | in every stage of a pack query, the `name` clause comes first and has the largest boost |
| PackIndexes.PackIndex.RemovePack | src/search/index_impls/packs.rs:89-96 | emits exactly one `RemoveDocuments` of the pack's id term, and drops the pack from the live data only when that send succeeded |
| PackIndexes.PackIndex.UpsertPack | src/search/index_impls/packs.rs:98-110 | a fetch error, or a missing pack reported as "Bot does not exist!", writes nothing and touches no live data; otherwise the call is `add_and_replace_document` of the pack's id term and document |
| PackIndexes.PackIndex.FullRefresh | src/search/index_impls/packs.rs:112-123 | sends `ClearAll`, refreshes, then one add per pack in `all_packs` order, stopping at the first failure |
| PackIndexes.FullRefreshRebuilds | src/search/index_impls/packs.rs:112-123 | once applied, a full refresh leaves exactly the documents of `all_packs`, in order |
| PackIndexes.Create | src/search/index_impls/packs.rs:58-87 | an open error is returned as it is; otherwise the index keeps the id field, the writer and the schema, and the reader gets the id and `tag_agg` fields and the search fields |
| PackIndexes.InitIndex | src/search/index_impls/packs.rs:36-45 | creates the index and stores it only when the cell is empty; a second store is ignored |
| PackIndexes.WriterOf | src/search/index_impls/packs.rs:47-49 | hands back the stored index; it is only callable after `init_index` |
| SearchQueries.Utf8Len | src/search/queries.rs:39 | a token's byte length lies between its number of characters and four times that number |
| SearchQueries.FieldClauses | src/search/queries.rs:43-49 | one `Should` fuzzy-prefix clause per kept token, at the stage's distance |
| SearchQueries.KeptExactly | src/search/queries.rs:38-41 | a stage keeps exactly the tokens whose UTF-8 byte length reaches its cut-off; with cut-off 0 it keeps them all |
| SearchQueries.KeptAntitone | src/search/queries.rs:20-41 | a higher cut-off keeps no more tokens than a lower one, and a token kept at the higher one means some token is kept at the lower one |
| SearchQueries.StagesArePrefix | src/search/queries.rs:15-25 | at most three stages; a stage present means every earlier stage is present; no tokens give no stages |
| SearchQueries.StageShape | src/search/queries.rs:28-68 | a built stage has one `Should` clause per field; field `i`'s clause has boost `10 - i` tenths and holds one fuzzy-prefix query per kept token, on that field, at the stage's distance |
| SearchQueries.ThreeFieldStage | src/search/queries.rs:57-65 | a stage over three fields has boosts 1.0, 0.9 and 0.8, and its first clause is on the first field |
| SearchQueries.TokenStream.Next | src/search/queries.rs:38 | yields the next token and advances, or yields nothing at the end |
| SearchQueries.TokenStream.Reset | src/search/queries.rs:51 | rewinds the stream to its first token |
| SearchQueries.BuildFuzzyStage | src/search/queries.rs:28-68 | the nested loops build exactly the stage `Stage` describes, or `None` when no token is kept; the stream is rewound afterwards |
| SearchQueries.ParseQuery | src/search/queries.rs:15-25 | the stages at (distance 0, cut-off 0), (1, 4) and (2, 8), each kept when present, in that order |
| SearchReaders.OrderKey | src/search/readers/mod.rs:61-98 | `Desc` ranks by `(cb(id), score)`, `Asc` by `(-cb(id), score)`, where `id` is the document's i64 fast-field value |
| SearchReaders.Keyed | src/search/readers/mod.rs:61-70 | every match is keyed by the order's tweaked score of its own document |
| SearchReaders.SortedHitsFromMatches | src/search/readers/mod.rs:72-73 | every collected hit is one of the matches, carrying its own tweaked key |
| SearchReaders.KeyedMembers | src/search/readers/mod.rs:61-70 | every keyed entry comes from one of the matches |
| SearchReaders.SortedRanking | src/search/readers/mod.rs:61-101 | the collected hits are ranked largest key first, each primary key is the callback value signed by the order, and a match left out ranks no higher than one kept |
| SearchReaders.CollectorForIdDesc | src/search/readers/mod.rs:50-76 | a search error leaves `results` unchanged and is returned; otherwise the addresses of at most `limit` top hits by `(cb(id), score)` are appended after the old entries |
| SearchReaders.CollectorForIdAsc | src/search/readers/mod.rs:78-104 | the same, ranking by `(Reverse(cb(id)), score)` |
| SearchReaders.ExecuteSearch | src/search/readers/mod.rs:28-48 | `Desc` goes to the descending collector and `Asc` to the ascending one, with the other arguments unchanged |
| TopDocs.Insert | src/search/readers/mod.rs:72 | inserting into a ranked list keeps it ranked and adds exactly that entry |
| TopDocs.Rank | src/search/readers/mod.rs:72 | all matches, largest key first, a permutation of the input |
| TopDocs.Top | src/search/readers/bots.rs:163-167 | `TopDocs::with_limit(k)`: `min(k, n)` entries, ranked, drawn from the matches |
| TopDocs.TopKeepsLargest | src/search/readers/bots.rs:163 | every match left out of the top `k` ranks no higher than every match kept |
| TopDocs.TopMembers | src/search/readers/bots.rs:167-168 | the collector keeps only matches it was given |
| TopDocs.Addresses | src/search/readers/bots.rs:168 | the addresses of the collected hits, in rank order |
| BotsReaders.RelevanceKeyed | src/search/readers/bots.rs:166-169 | a relevance search ranks by the score alone |
| BotsReaders.StageHits | src/search/readers/bots.rs:154-210 | at most `limit` addresses per stage; only a relevance search reports a search error, because the sorted searches' result is dropped and an error there gives no hits |
| BotsReaders.Skip | src/search/readers/bots.rs:142 | `skip(n)`: the entries after the first `n`, in order |
| BotsReaders.SearchDocs | src/search/readers/bots.rs:154-210 | extends the caller's addresses with the stage's hits (by relevance, or through the sorted collector with the sort's lookup), or returns the relevance search's error with the addresses unchanged |
| BotsReaders.GatherTakesStagePrefix | src/search/readers/bots.rs:126-140 | the collected addresses are the concatenated hits of a prefix of the stages, cut short only right after a stage that left exactly `limit + offset` addresses |
| BotsReaders.GatherStep | src/search/readers/bots.rs:137-139 | a stage that succeeds without reaching the cap passes its addresses to the next stage |
| BotsReaders.GatherStages | src/search/readers/bots.rs:126-140 | the stage loop with its equality `break` collects exactly what `Gather` describes |
| BotsReaders.LoadedInOrder | src/search/readers/bots.rs:144-151 | loading succeeds only when every address loads and converts, and the page keeps the addresses' order |
| BotsReaders.LoadSucceedsWhenAllLoad | src/search/readers/bots.rs:144-151 | when every address loads and converts, loading succeeds |
| BotsReaders.LoadedLength | src/search/readers/bots.rs:146-149 | a loaded page has one hit per address |
| BotsReaders.LoadAll | src/search/readers/bots.rs:144-151 | the loading loop builds exactly the page `LoadFrom` describes, stopping at the first failure |
| BotsReaders.ExecuteBotSearch | src/search/readers/bots.rs:113-152 | parse into stages, collect with the cap `limit + offset`, skip `offset` and load the rest, as `SearchOutcome` describes |
| BotsReaders.Search | src/search/readers/bots.rs:75-110 | the reader's search is `execute_search` on its own searcher, id field and search fields |
| BotsReaders.OneTokenThreeStages | src/search/queries.rs:15-25 | one token of ten bytes yields all three stages |
| BotsReaders.TwoDocStage | src/search/readers/bots.rs:163-168 | a stage over a searcher that matches two documents yields both |
| BotsReaders.OneDocStage | src/search/readers/bots.rs:163-168 | a stage over a searcher that matches one document yields it |
| BotsReaders.LoadsEverything | src/search/readers/bots.rs:144-151 | when every document loads, the page is as long as the address list |
| BotsReaders.OverlongGather | src/search/readers/bots.rs:137 | three stages of two hits each overshoot a cap of 3 and collect six addresses |
| BotsReaders.OverlongPage | src/search/readers/bots.rs:113-152 | a search for 3 hits from offset 0 returns 6 hits |
| BotsReaders.RepeatedGather | src/search/readers/bots.rs:126-140 | stages that all match the same document collect it once per stage |
| BotsReaders.RepeatedHit | src/search/readers/bots.rs:113-152 | a search for 2 hits returns the same document twice |
| BotsReaders.Fresh | src/search/readers/bots.rs:126-140 | the corrected loop adds only addresses not yet collected, each once |
| BotsReaders.GatherCappedBounded | src/search/readers/bots.rs:126-140 | the corrected loop keeps what it collected, holds at most the cap and never repeats an address |
| BotsReaders.SkipWithinLimit | src/search/readers/bots.rs:142 | at most `limit + offset` distinct addresses, less the first `offset`, leave at most `limit` distinct ones |
| BotsReaders.CappedPage | src/search/readers/bots.rs:126-142 | the corrected loop leaves at most `limit` distinct addresses after the skip |
| BotsReaders.PageWithinLimit | src/search/readers/bots.rs:113-152 | the corrected search returns at most `limit` hits, from distinct addresses |
| ModelUtils.FirstComma | src/models/utils.rs:18 | the position of the first comma, or the length when there is none |
| ModelUtils.ColumnsRoundTrip | src/models/utils.rs:18 | a non-empty list of comma-free column names, joined with ", ", splits back into the same list |
| ModelUtils.SelectNamesColumns | src/models/utils.rs:16-47 | the SELECT head is `SELECT `, the joined columns and ` FROM <table>`; `fetch` appends ` WHERE id = ?` and `iter_rows` appends `;` |
| ModelUtils.FetchFirst | src/models/utils.rs:22-30 | a driver error is returned; no rows give `None`; otherwise the first row's conversion, as a value or as an error |
| ModelUtils.FetchIgnoresLaterRows | src/models/utils.rs:28 | rows after the first change nothing |
| ModelUtils.VoteStats.New | src/models/utils.rs:65-70 | `as u64`: a non-negative counter is kept as it is, a negative one becomes `v + 2^64`, and casting back gives each counter again |
| ModelUtils.VoteStats.Default | src/models/utils.rs:58 | both counters are zero |
| ModelUtils.DefaultIsNewOfZero | src/models/utils.rs:58-70 | the default is what `new(0, 0)` builds |
| ModelUtils.GoodPrefix | src/models/utils.rs:87 | how many rows convert before the first failure: all rows before it convert, and the next one fails |
| ModelUtils.Entries | src/models/utils.rs:89 | one entry `id -> VoteStats::new(votes, all_time_votes)` per row, in row order |
| ModelUtils.ProcessRows | src/models/utils.rs:83-93 | the `while let Some(Ok(..))` loop builds the map of the rows before the first failure, inserted in order |
| ModelUtils.ProcessedKeys | src/models/utils.rs:86-92 | the keys are exactly the ids of the rows before the first failure |
| ModelUtils.ProcessedLastRow | src/models/utils.rs:89 | an id holds the stats of its last row before the first failure |
| ModelUtils.IgnoresRowsAfterFailure | src/models/utils.rs:87 | nothing after a failed row is processed |
| ModelUtils.GoodPrefixOfFailure | src/models/utils.rs:87 | the first failed row ends the good prefix |
| ModelUtils.EntriesAgree | src/models/utils.rs:86-92 | streams that agree on their first `n` rows have the same first `n` entries |
| Maps.FromPairsKeys | src/models/tags.rs:28-33 | the keys of a map built by inserting pairs are exactly the inserted keys |
| Maps.FromPairsLast | src/models/tags.rs:28-33 | a key maps to the value of its last pair |
| Tags.CollectRows | src/models/tags.rs:26 | every row when all convert, or the error of the first row that does not |
| Tags.RowsOf | src/models/tags.rs:22-26 | a driver error is returned, absent rows are no rows, and otherwise the rows are collected |
| Tags.BotPairs | src/models/tags.rs:29-33 | one `name -> Flag { category }` pair per row, in row order |
| Tags.FetchBotTags | src/models/tags.rs:19-36 | the loop builds exactly the map `BotTags` describes |
| Tags.BotTagsKeys | src/models/tags.rs:28-33 | when every row converts, the keys are exactly the names of the rows |
| Tags.BotTagsLastCategory | src/models/tags.rs:28-33 | a name maps to the category of its last row |
| Tags.PackPairs | src/models/tags.rs:48-52 | one `name -> Flag { category: "" }` pair per row, in row order |
| Tags.FetchPackTags | src/models/tags.rs:38-54 | the loop builds exactly the map `PackTags` describes |
| Tags.PackTagsUncategorised | src/models/tags.rs:47-52 | the keys are exactly the names, and every tag has the empty category |
| Tags.BadRowFailsFetch | src/models/tags.rs:26 | a row that fails to convert fails the whole fetch with its error; no partial map comes back |
| Tags.AbsentRowsGiveNoTags | src/models/tags.rs:24 | no rows at all give an empty map |
| Tags.RefreshBotTags | src/models/tags.rs:5-10 | installs the bot tags only when the fetch succeeded; otherwise returns the error and leaves the registry alone |
| Tags.RefreshPackTags | src/models/tags.rs:12-17 | installs the pack tags only when the fetch succeeded; otherwise returns the error and leaves the registry alone |
| Connection.TrimStartSpec | src/models/connection.rs:40 | `trim_start` drops exactly the leading whitespace |
| Connection.TrimEndSpec | src/models/connection.rs:40 | `trim_end` drops exactly the trailing whitespace |
| Connection.Trim | src/models/connection.rs:40 | the result is empty exactly when every character is whitespace, and otherwise neither starts nor ends with whitespace |
| Connection.TrimKeepsCharacters | src/models/connection.rs:40 | trimming only removes characters |
| Connection.TrimEmptyWhenBlank | src/models/connection.rs:40-41 | a blank piece trims to the empty string |
| Connection.Split | src/models/connection.rs:39 | `split(';')` gives at least one piece, and no piece holds a `;` |
| Connection.SplitGlue | src/models/connection.rs:39 | the pieces glued back with `;` give the script again |
| Connection.StatementsAreClean | src/models/connection.rs:39-44 | every statement run is non-empty, holds no `;`, and neither starts nor ends with whitespace |
| Connection.Session.Query | src/models/connection.rs:61-71 | runs exactly that statement and returns the cluster's answer |
| Connection.Session.UseKeyspace | src/models/connection.rs:25 | selects the keyspace exactly when the cluster accepts it |
| Connection.FirstFailure | src/models/connection.rs:45 | the index of the first rejected statement: every earlier one passes |
| Connection.CreateTables | src/models/connection.rs:38-49 | runs the trimmed non-empty pieces in script order, up to and including the first rejected one, and returns that rejection |
| Connection.FailureAfter | src/models/connection.rs:45 | a rejected statement after accepted ones is the first failure, and the run ends with it |
| Connection.StopsAt | src/models/connection.rs:39-46 | a piece whose statement is rejected after accepted ones ends the run there |
| Connection.NoFailure | src/models/connection.rs:45-48 | when every statement is accepted, all of them run and the result is success |
| Connection.Connect | src/models/connection.rs:19-36 | a connection error or a refused keyspace stops early; the keyspace-creation answer is ignored; the session is stored once; tables are created only when asked, after the keyspace is selected |
| Server.Show | src/main.rs:224 | `to_string()` of a number is a non-empty string of decimal digits |
| Server.ShowValue | src/main.rs:224 | the digits `Show` writes denote the number again |
| Server.ParseU32 | src/main.rs:164 | `parse::<u32>()`: an optional `+`, then one or more digits whose value fits in 32 bits |
| Server.ParseShow | src/main.rs:164 | every `u32`, printed with or without a `+`, parses back to itself |
| Server.ParseOverflow | src/main.rs:164 | a printed number of 2^32 or more does not parse |
| Server.ParseRejectsSigns | src/main.rs:164 | a leading `-` or a lone `+` does not parse |
| Server.GetLimit | src/main.rs:161-171 | a limit exactly when the variable is set, parses as a `u32` and is not zero |
| Server.GetLimitOfShown | src/main.rs:161-171 | a variable set to a printed positive number yields it; one set to zero yields nothing |
| Server.ChooseQuota | src/main.rs:177-199 | per-second, then per-minute, then per-hour, then 120 a minute; a burst, when set, overrides the quota's burst |
| Server.DefaultQuota | src/main.rs:194 | with nothing configured the quota is 120 per minute with a burst of 120 |
| Server.UnusableLimitIgnored | src/main.rs:161-171 | a variable whose value is unusable counts as unset |
| Server.PerSecondWins | src/main.rs:187-188 | a usable per-second limit wins over the per-minute and per-hour ones |
| Server.Endpoint.Call | src/main.rs:216 | the downstream endpoint is asked once with the request and answers with its reply |
| Server.Rejection | src/main.rs:207-210 | status 429 with the limiter's explanation as the body |
| Server.WithRateHeaders | src/main.rs:219-237 | keeps the status and body, adds the two rate-limit headers and keeps every other header |
| Server.GlobalRatelimiter | src/main.rs:173-244 | the limiter is built on the first request only; a request without `CF-Connecting-IP` passes through untouched; a rejected key gets the 429 and the endpoint is not called; an admitted key is passed on, and the rate headers are added |
| Server.Settle | src/main.rs:254-257 | an error becomes a response with its own status and message |
| Server.Mask | src/main.rs:259-284 | a status of 500 or more keeps the status and headers, but the body becomes "An internal server error has occurred."; any other response is unchanged |
| Server.MaskIdempotent | src/main.rs:259-284 | masking twice is masking once |
| Server.RejectionNotMasked | src/main.rs:259 | a rate-limit rejection passes `log` unchanged |
| Server.Log | src/main.rs:246-287 | asks the endpoint once, then returns its masked, settled response |
| BotRoutes.HitOf | src/routes/bots.rs:68-88 | the bot's fields, with `flags == features` and `votes` the monthly votes cast to `i64` |
| BotRoutes.HitKeepsBot | src/routes/bots.rs:68-88 | a hit loses nothing of the bot except whether it may join packs, and its votes cast back give `get_bot_votes` |
| BotRoutes.DocId | src/routes/bots.rs:92 | the first value of the id field, when it is an i64 |
| BotRoutes.FromDoc | src/routes/bots.rs:90-97 | nothing when the id is missing or not an i64, or the bot is unknown; otherwise the bot's hit |
| BotRoutes.FromDocReadsFirstId | src/routes/bots.rs:92-95 | a document whose first id entry is an i64 shows the bot stored for it, whatever follows |
| BotRoutes.FromDocNeedsI64 | src/routes/bots.rs:92 | an id stored as a u64 is no id |
| BotRoutes.CheckPayload | src/routes/bots.rs:105-128 | accepted exactly when a present query has 1 to 50 characters, a present limit is 1 to 50 and a present offset is at most 40000; the defaults are offset 0, the sort's default and `Desc` |
| BotRoutes.AcceptedPayloadBounds | src/routes/bots.rs:105-116 | an accepted payload asks for 1 to 50 hits after skipping at most 40000 |
| BotRoutes.EmptyPayload | src/routes/bots.rs:115-128 | an empty body is the wildcard search for 20 hits from the start, by default sort and order |
| BotRoutes.EmptyBotPayload | src/search/readers/bots.rs:34-38 | an empty bot search ranks by relevance, descending |
| BotRoutes.SearchResponse | src/routes/bots.rs:198-227 | the reader is asked with the payload and the limit defaulted to 20; its error is the route's error; otherwise the response echoes the limit and offset used and the query, `"*"` when absent |
| BotRoutes.ResponseEchoesBounds | src/routes/bots.rs:202-224 | a response to an accepted payload echoes a limit of 1 to 50, an offset of at most 40000, and a query of 1 to 50 characters |
| BotRoutes.GetBotIds | src/routes/bots.rs:161-168 | the ids of `all_bots`, in that order |
| BotRoutes.GetBotIdsAppend | src/routes/bots.rs:161-168 | listing two runs of bots lists their ids one after the other |
| PackRoutes.PackBots | src/routes/packs.rs:56-62 | a pack hit never shows more bots than the pack lists |
| PackRoutes.PackBotsFromIds | src/routes/packs.rs:56-62 | every bot shown is the hit of a packable bot with data that the pack lists |
| PackRoutes.ShowableBotsKept | src/routes/packs.rs:56-62 | every packable bot with data that the pack lists is shown |
| PackRoutes.PackBotsAppend | src/routes/packs.rs:56-62 | pack order is kept: the bots of two runs of ids are those of the first run, then those of the second |
| PackRoutes.NoShowableBots | src/routes/packs.rs:59-60 | a pack whose bots all lack data or are not packable shows no bots |
| PackRoutes.AllShowableKept | src/routes/packs.rs:56-62 | when every bot may be shown, the hit shows all of them, one per id, in pack order |
| PackRoutes.FromDoc | src/routes/packs.rs:51-76 | nothing when the id is missing or not an i64, or the pack is unknown; otherwise the pack's fields, its showable bots, and its likes cast to `i64` |
| PackRoutes.CheckPackPayload | src/routes/packs.rs:84-107 | the bot search's bounds and defaults, sorting by relevance by default |
| PackRoutes.PackSearch | src/routes/packs.rs:170-199 | the reader's error, or its hits, hit estimate and tag distribution, with the limit used (20 by default), the offset, and the query or `"*"` |
| OnceCells.OnceCell.Set | src/search/index_impls/bots.rs:32 | stores the value only into an empty cell; otherwise it hands the value back and keeps the stored one |
| OnceCells.OnceCell.GetOrInit | src/main.rs:177 | the stored value; the initial value is used only on the first call |
| Ints.CastsRoundTrip | src/routes/bots.rs:84 | casting `i64 -> u64 -> i64` and `u64 -> i64 -> u64` gives the value back |
| Tantivy.Doc.GetFirst | src/routes/bots.rs:92 | the first value stored for the field, present exactly when the field has a value |
| Tantivy.GetField | src/search/index_impls/bots.rs:56-63 | the handle of the first field of that name, or nothing when no field has it |
| Tantivy.SchemaBuilder.AddI64Field | src/search/index_impls/bots.rs:121 | fields are numbered in the order they are added |
| Tantivy.SchemaBuilder.AddTextField | src/search/index_impls/bots.rs:124-126 | fields are numbered in the order they are added |
| Models.LiveData.RemoveFromLive | src/search/index_impls/bots.rs:86 | records one removal from the live data |
| Models.LiveData.UpdateLiveData | src/search/index_impls/bots.rs:99 | records one update of the live data |

## Left out

- The tokenizer (`search::tokenizer`) is not part of this model. `parse_query` and the reader take its output as a `seq<string>` of at most 10 tokens.
- tantivy's internals are not modelled: segments, merging, reload on commit, fuzzy matching and relevance scoring. A searcher is a function from query to integer-scored matches, plus each document's stored fields and i64 fast field.
- Floating point is not modelled. Scores and sort keys are integers, boosts are integer tenths (`10 - i` for field `i`), and `Reverse` on a key is negation.
- Concurrency is not modelled: the reader's semaphore, `rayon::spawn` and the oneshot channel, the writer thread, and the blocking of the bounded channel of capacity 4. The channel is a FIFO sequence of ops. The writer actor's lifetime, i.e. how many ops it takes before it drops its receiver, is an input.
- SearchWriter.StartWriter: takes the send's and the ack's success, and the joined thread's result, as inputs. It does not model the thread running `run_writer`.
- The 15-second timer is modelled as a `Timeout` event. Real time is not modelled.
- governor's rate-limiting algorithm is not modelled. The verdict on a key is an input, either a snapshot or the text of a rejection. The `ratelimit-burst-replenished-in` value is an input string, because it is an `f32` printed by Rust.
- Server.GlobalRatelimiter: HTTP headers are a map keyed by exact header names. Case-insensitive lookup is not modelled.
- `to_string_lossy` of an environment value is not modelled. The environment maps names to strings.
- Server setup is not modelled: CORS, OpenAPI, redoc, the listener and graceful shutdown (`src/main.rs:113-158`). The log lines themselves are not modelled either.
- `src/search/index.rs` (opening an index on disk) is not part of this model. Its result is an input to `create`.
- `src/tasks.rs` (periodic vote and live-data tasks) is not part of this model. Neither is `src/search/collectors.rs`, which is unfinished.
- The Scylla driver, `CachingSession` and the cluster are not modelled. Each statement's answer is a function of the statement, and the keyspace answer is an input. The keyspace-creation statement is recorded as run, but its answer is ignored (`src/models/connection.rs:24`).
- The live data (`models::bots`, `models::packs`) is not modelled; it is declaration-only here. Lookups are functions, and updates are recorded as calls.
- `Bot::as_tantivy_doc` and `Pack::as_tantivy_doc` (how a bot or pack becomes a document) are not part of this model. They are parameters.
- PackIndexes.PackIndex.UpsertPack: `Writer` does not define `add_and_replace_document`, so the model returns the call it makes and gives it no effect on the index. The live update is modelled as happening whenever that call is made.
- The update, remove and refresh route handlers (`routes/bots.rs:173-194`, `routes/packs.rs:141-166`) are not given members of their own. Each casts the path id `as i64` and forwards to the index operation modelled above.
- `filter` in the search payload is not modelled; the readers in this model take no filter. The pack reader's search (`readers/packs.rs`) is given to the pack route as a function. The tag distribution and the hit estimate are part of the reader's answer.
- Two library panics are not modelled: `fast_fields().i64(field).unwrap()` (`src/search/readers/mod.rs:63`, `:91`), where `Searcher.fastI64` is total, and `TopDocs::with_limit(0)`, which tantivy rejects, where `Top(_, 0)` is `[]`. Neither happens from the routes: the id field is an i64 fast field, and an accepted limit is at least 1.
- A query's length in the payload validator counts characters. How poem counts UTF-8 length is not modelled.
- The order in which poem reports several invalid payload fields is not modelled. The model reports the first invalid field in declaration order.
- `Trim` uses Rust's `char::is_whitespace`, i.e. the Unicode `White_Space` property, over Dafny's `char`.

## Findings

| source | as written | input that shows it | evidently intended | confidence | as-written member | corrected member |
|---|---|---|---|---|---|---|
| src/search/readers/bots.rs:137 | the stage loop stops only when it holds exactly `limit + offset` addresses, and later stages append with no dedup, so a total that overshoots is kept | one token of ten bytes, so three stages; a searcher whose every query matches the same two documents; `limit` 3 and `offset` 0: the search returns 6 hits, each document three times | at most `limit` hits, each document once | not executed | BotsReaders.OverlongPage | BotsReaders.PageWithinLimit |
| src/search/index_impls/bots.rs:96-97 | `upsert_bot` only adds the new document and never deletes the bot's old one | an index holding a bot's document, then an upsert of the same bot: two documents carry its id | one document per bot, as the pack upsert's `add_and_replace_document` suggests | not executed | BotIndexes.UpsertDuplicatesBot | BotIndexes.ReplacingUpsertKeepsOneCopy |
