/**
 * The bot search reader (src/search/readers/bots.rs): a search runs the fuzzy
 * stages of the query in turn, collecting up to `limit + offset` addresses per
 * stage, stops once the collected count equals `limit + offset`, drops the first
 * `offset` addresses and loads the remaining stored documents in order.
 */
module BotsReaders {
  import opened Wrappers
  import opened Ints
  import opened Tantivy
  import opened TopDocs
  import opened SearchQueries
  import opened SearchReaders

  datatype BotsSortBy = Relevance | Votes | Trending | Popularity | Premium {
    /** `impl Default for BotsSortBy`. */
    static function Default(): BotsSortBy {
      Relevance
    }
  }

  /**
   * The per-bot live-data lookups the sorted searches rank by
   * (`get_bot_guild_count`, `get_bot_premium`, `get_bot_trending_score`,
   * `get_bot_votes`), keyed by the bot id.
   */
  datatype BotLookups = BotLookups(guildCount: i64 -> int, premium: i64 -> int, trendingScore: i64 -> int, votes: i64 -> int)

  /** The lookup a non-relevance sort passes to the sorted collectors. */
  function Callback(lookups: BotLookups, sortBy: BotsSortBy): i64 -> int
    requires !sortBy.Relevance?
  {
    match sortBy
    case Votes => lookups.votes
    case Trending => lookups.trendingScore
    case Popularity => lookups.guildCount
    case Premium => lookups.premium
  }

  /** Plain `TopDocs`: the relevance score alone. */
  function RelevanceKeyed(ms: seq<Match>): (r: seq<Scored>)
    ensures |r| == |ms|
    ensures forall k :: 0 <= k < |ms| ==> r[k] == Scored(Key(ms[k].score, 0), ms[k].addr)
  {
    if ms == [] then [] else [Scored(Key(ms[0].score, 0), ms[0].addr)] + RelevanceKeyed(ms[1..])
  }

  /**
   * What `search_docs` appends for one stage, or the error it returns. Only a
   * relevance search reports a failed search; the sorted searches drop the
   * collector's result, so a failure there appends nothing and passes.
   */
  function StageHits(searcher: Searcher, idField: Field, lookups: BotLookups, query: Query, limit: nat,
                     sortBy: BotsSortBy, order: Order): (r: Result<seq<DocAddress>, string>)
    ensures r.Err? <==> sortBy.Relevance? && searcher.search(query).Err?
    ensures r.Err? ==> r.error == searcher.search(query).error
    ensures r.Ok? ==> |r.value| <= limit
    ensures r.Ok? && searcher.search(query).Err? ==> r.value == []
  {
    match searcher.search(query)
    case Err(e) => if sortBy.Relevance? then Err(e) else Ok([])
    case Ok(ms) =>
      if sortBy.Relevance? then Ok(Addresses(Top(RelevanceKeyed(ms), limit)))
      else Ok(SortedHits(order, searcher, idField, Callback(lookups, sortBy), ms, limit))
  }

  /** `StageHits` as the function value the stage loop applies to every stage. */
  function StageHitsOf(searcher: Searcher, idField: Field, lookups: BotLookups, limit: nat,
                       sortBy: BotsSortBy, order: Order): Query -> Result<seq<DocAddress>, string>
  {
    q => StageHits(searcher, idField, lookups, q, limit, sortBy, order)
  }

  /**
   * The stage loop of `execute_search` as written: after each stage the
   * collected addresses are compared with `cap` for equality.
   */
  function Gather(stages: seq<Query>, acc: seq<DocAddress>, cap: nat,
                  hits: Query -> Result<seq<DocAddress>, string>): Result<seq<DocAddress>, string>
    decreases |stages|
  {
    if stages == [] then Ok(acc)
    else match hits(stages[0])
      case Err(e) => Err(e)
      case Ok(h) =>
        if |acc + h| == cap then Ok(acc + h) else Gather(stages[1..], acc + h, cap, hits)
  }

  /** The hits of every stage in turn, concatenated, or the first error. */
  function AllHits(stages: seq<Query>, hits: Query -> Result<seq<DocAddress>, string>): Result<seq<DocAddress>, string>
    decreases |stages|
  {
    if stages == [] then Ok([])
    else match hits(stages[0])
      case Err(e) => Err(e)
      case Ok(h) =>
        match AllHits(stages[1..], hits)
        case Err(e) => Err(e)
        case Ok(t) => Ok(h + t)
  }

  /** `Iterator::skip(n)`. */
  function Skip<T>(s: seq<T>, n: nat): (r: seq<T>)
    ensures |r| == if n < |s| then |s| - n else 0
    ensures forall k :: 0 <= k < |r| ==> r[k] == s[n + k]
  {
    if n < |s| then s[n..] else []
  }

  /** The loading loop: each address in order, stopping at the first document that fails to load or convert. */
  function LoadFrom<T>(addrs: seq<DocAddress>, loaded: seq<T>, docOf: DocAddress -> Result<Doc, string>,
                       fromDoc: Doc -> Result<T, string>): Result<seq<T>, string>
    decreases |addrs|
  {
    if addrs == [] then Ok(loaded)
    else match docOf(addrs[0])
      case Err(e) => Err(e)
      case Ok(d) =>
        match fromDoc(d)
        case Err(e) => Err(e)
        case Ok(t) => LoadFrom(addrs[1..], loaded + [t], docOf, fromDoc)
  }

  /** `execute_search` on the searcher, for the tokens the query string splits into. */
  function SearchOutcome<T>(idField: Field, fields: seq<Field>, searcher: Searcher, tokens: seq<string>,
                            limit: nat, offset: nat, sortBy: BotsSortBy, order: Order, lookups: BotLookups,
                            fromDoc: Doc -> Result<T, string>): Result<seq<T>, string>
  {
    var cap := limit + offset;
    match Gather(Stages(tokens, fields), [], cap, StageHitsOf(searcher, idField, lookups, cap, sortBy, order))
    case Err(e) => Err(e)
    case Ok(addrs) => LoadFrom(Skip(addrs, offset), [], searcher.doc, fromDoc)
  }

  // ---------------------------------------------------------------- properties

  /**
   * The page collected so far extends the caller's addresses by the hits of
   * the first `n` stages; it stops before the last stage only when it holds
   * exactly `cap` addresses.
   */
  lemma {:induction false} GatherTakesStagePrefix(stages: seq<Query>, acc: seq<DocAddress>, cap: nat,
                                                  hits: Query -> Result<seq<DocAddress>, string>)
    ensures Gather(stages, acc, cap, hits).Ok? ==>
      var out := Gather(stages, acc, cap, hits).value;
      acc <= out &&
      exists n :: 0 <= n <= |stages| && AllHits(stages[..n], hits) == Ok(out[|acc|..]) &&
        (n < |stages| ==> |out| == cap)
    decreases |stages|
  {
    if stages == [] || hits(stages[0]).Err? {
      if stages == [] {
        assert stages[..0] == [] && acc[|acc|..] == [];
      }
      return;
    }
    var h := hits(stages[0]).value;
    assert stages[..1][1..] == [];
    assert AllHits(stages[..1], hits) == Ok(h + []);
    if |acc + h| == cap {
      assert (acc + h)[|acc|..] == h + [];
      return;
    }
    GatherTakesStagePrefix(stages[1..], acc + h, cap, hits);
    if Gather(stages, acc, cap, hits).Ok? {
      var out := Gather(stages, acc, cap, hits).value;
      var n :| 0 <= n <= |stages[1..]| && AllHits(stages[1..][..n], hits) == Ok(out[|acc + h|..]) &&
        (n < |stages[1..]| ==> |out| == cap);
      assert stages[..n + 1][1..] == stages[1..][..n];
      assert out[|acc|..] == h + out[|acc + h|..];
      assert AllHits(stages[..n + 1], hits) == Ok(out[|acc|..]);
    }
  }

  /** Loading succeeds only when every address loads and converts, and keeps their order. */
  lemma {:induction false} LoadedInOrder<T>(addrs: seq<DocAddress>, loaded: seq<T>, docOf: DocAddress -> Result<Doc, string>,
                                            fromDoc: Doc -> Result<T, string>)
    ensures LoadFrom(addrs, loaded, docOf, fromDoc).Ok? ==>
      var out := LoadFrom(addrs, loaded, docOf, fromDoc).value;
      |out| == |loaded| + |addrs| && out[..|loaded|] == loaded &&
      forall k :: 0 <= k < |addrs| ==>
        docOf(addrs[k]).Ok? && fromDoc(docOf(addrs[k]).value) == Ok(out[|loaded| + k])
    decreases |addrs|
  {
    if addrs == [] || docOf(addrs[0]).Err? || fromDoc(docOf(addrs[0]).value).Err? {
      return;
    }
    var t := fromDoc(docOf(addrs[0]).value).value;
    LoadedInOrder(addrs[1..], loaded + [t], docOf, fromDoc);
    if LoadFrom(addrs, loaded, docOf, fromDoc).Ok? {
      var out := LoadFrom(addrs, loaded, docOf, fromDoc).value;
      assert out[..|loaded| + 1][..|loaded|] == out[..|loaded|];
      forall k | 0 <= k < |addrs|
        ensures docOf(addrs[k]).Ok? && fromDoc(docOf(addrs[k]).value) == Ok(out[|loaded| + k])
      {
        if k > 0 {
          assert addrs[1..][k - 1] == addrs[k];
        }
      }
    }
  }

  /** When every address loads and converts, loading succeeds. */
  lemma {:induction false} LoadSucceedsWhenAllLoad<T>(addrs: seq<DocAddress>, loaded: seq<T>, docOf: DocAddress -> Result<Doc, string>,
                                                      fromDoc: Doc -> Result<T, string>)
    requires forall k :: 0 <= k < |addrs| ==> docOf(addrs[k]).Ok? && fromDoc(docOf(addrs[k]).value).Ok?
    ensures LoadFrom(addrs, loaded, docOf, fromDoc).Ok?
    decreases |addrs|
  {
    if addrs != [] {
      assert docOf(addrs[0]).Ok? && fromDoc(docOf(addrs[0]).value).Ok?;
      var t := fromDoc(docOf(addrs[0]).value).value;
      forall k | 0 <= k < |addrs[1..]|
        ensures docOf(addrs[1..][k]).Ok? && fromDoc(docOf(addrs[1..][k]).value).Ok?
      {
        assert addrs[1..][k] == addrs[k + 1];
      }
      LoadSucceedsWhenAllLoad(addrs[1..], loaded + [t], docOf, fromDoc);
    }
  }

  // ---------------------------------------------------------------- imperative model

  /** `search_docs`: extends `results` with one stage's hits. */
  method SearchDocs(idField: Field, results: seq<DocAddress>, searcher: Searcher, query: Query, limit: nat,
                    sortBy: BotsSortBy, order: Order, lookups: BotLookups)
    returns (out: seq<DocAddress>, r: Outcome<string>)
    ensures StageHits(searcher, idField, lookups, query, limit, sortBy, order).Err? ==>
      r == Fail(StageHits(searcher, idField, lookups, query, limit, sortBy, order).error) && out == results
    ensures StageHits(searcher, idField, lookups, query, limit, sortBy, order).Ok? ==>
      r == Pass && out == results + StageHits(searcher, idField, lookups, query, limit, sortBy, order).value
  {
    var collector := TopDocsCollector(limit);
    if sortBy.Relevance? {
      var docs := searcher.search(query);
      if docs.Err? {
        return results, Fail(docs.error);
      }
      out := results + Addresses(Top(RelevanceKeyed(docs.value), limit));
    } else {
      var ignored;
      out, ignored := ExecuteSearch(searcher, query, results, idField, collector, Callback(lookups, sortBy), order);
      assert results + [] == results;
    }
    r := Pass;
  }

  /** One step of `Gather` at stage `i`. */
  lemma GatherAt(stages: seq<Query>, i: nat, acc: seq<DocAddress>, cap: nat, hits: Query -> Result<seq<DocAddress>, string>)
    requires i < |stages|
    ensures hits(stages[i]).Err? ==> Gather(stages[i..], acc, cap, hits) == Err(hits(stages[i]).error)
    ensures hits(stages[i]).Ok? ==>
      Gather(stages[i..], acc, cap, hits) ==
        if |acc + hits(stages[i]).value| == cap then Ok(acc + hits(stages[i]).value)
        else Gather(stages[i + 1..], acc + hits(stages[i]).value, cap, hits)
  {
    assert stages[i..][0] == stages[i] && stages[i..][1..] == stages[i + 1..];
  }

  /** The stage loop of `execute_search`: each stage's hits in turn, stopping at an error or at exactly `cap` addresses. */
  method GatherStages(idField: Field, searcher: Searcher, stages: seq<Query>, cap: nat,
                      sortBy: BotsSortBy, order: Order, lookups: BotLookups)
    returns (r: Result<seq<DocAddress>, string>)
    ensures r == Gather(stages, [], cap, StageHitsOf(searcher, idField, lookups, cap, sortBy, order))
  {
    ghost var hits := StageHitsOf(searcher, idField, lookups, cap, sortBy, order);
    var results: seq<DocAddress> := [];
    var i := 0;
    while i < |stages|
      invariant 0 <= i <= |stages|
      invariant Gather(stages, [], cap, hits) == Gather(stages[i..], results, cap, hits)
    {
      GatherAt(stages, i, results, cap, hits);
      assert hits(stages[i]) == StageHits(searcher, idField, lookups, stages[i], cap, sortBy, order);
      var out, res := SearchDocs(idField, results, searcher, stages[i], cap, sortBy, order, lookups);
      if res.Fail? {
        return Err(res.error);
      }
      results := out;
      if |results| == cap {
        return Ok(results);
      }
      i := i + 1;
    }
    return Ok(results);
  }

  /** The loading loop of `execute_search`. */
  method LoadAll<T>(docs: seq<DocAddress>, searcher: Searcher, fromDoc: Doc -> Result<T, string>)
    returns (r: Result<seq<T>, string>)
    ensures r == LoadFrom(docs, [], searcher.doc, fromDoc)
  {
    var loaded: seq<T> := [];
    var k := 0;
    while k < |docs|
      invariant 0 <= k <= |docs|
      invariant LoadFrom(docs, [], searcher.doc, fromDoc) == LoadFrom(docs[k..], loaded, searcher.doc, fromDoc)
    {
      assert docs[k..][1..] == docs[k + 1..];
      var doc := searcher.doc(docs[k]);
      if doc.Err? {
        return Err(doc.error);
      }
      var t := fromDoc(doc.value);
      if t.Err? {
        return Err(t.error);
      }
      loaded := loaded + [t.value];
      k := k + 1;
    }
    return Ok(loaded);
  }

  /** `execute_search`: parse into stages, gather `limit + offset` addresses, skip `offset`, load the rest. */
  method ExecuteBotSearch<T>(idField: Field, fields: seq<Field>, searcher: Searcher, tokens: seq<string>,
                             limit: nat, offset: nat, sortBy: BotsSortBy, order: Order, lookups: BotLookups,
                             fromDoc: Doc -> Result<T, string>)
    returns (r: Result<seq<T>, string>)
    requires |tokens| <= TOKEN_LIMIT
    requires |fields| > 0
    ensures r == SearchOutcome(idField, fields, searcher, tokens, limit, offset, sortBy, order, lookups, fromDoc)
  {
    var stages := ParseQuery(tokens, fields);
    var gathered := GatherStages(idField, searcher, stages, limit + offset, sortBy, order, lookups);
    ghost var outcome := SearchOutcome(idField, fields, searcher, tokens, limit, offset, sortBy, order, lookups, fromDoc);
    if gathered.Err? {
      assert outcome == Err(gathered.error);
      return Err(gathered.error);
    }
    assert outcome == LoadFrom(Skip(gathered.value, offset), [], searcher.doc, fromDoc);
    r := LoadAll(Skip(gathered.value, offset), searcher, fromDoc);
  }

  /** A bot reader: the id field, the searcher of the current reader generation and the fields queries search. */
  datatype BotsReader = BotsReader(idField: Field, searcher: Searcher, searchFields: seq<Field>)

  /** `InnerReader::search`: runs `execute_search` on the reader's searcher and hands back its answer. */
  method Search<T>(reader: BotsReader, tokens: seq<string>, limit: nat, offset: nat, sortBy: BotsSortBy,
                   order: Order, lookups: BotLookups, fromDoc: Doc -> Result<T, string>)
    returns (r: Result<seq<T>, string>)
    requires |tokens| <= TOKEN_LIMIT
    requires |reader.searchFields| > 0
    ensures r == SearchOutcome(reader.idField, reader.searchFields, reader.searcher, tokens, limit, offset,
                               sortBy, order, lookups, fromDoc)
  {
    r := ExecuteBotSearch(reader.idField, reader.searchFields, reader.searcher, tokens, limit, offset,
                          sortBy, order, lookups, fromDoc);
  }

  // ---------------------------------------------------------------- paging as written, and as intended

  /** A stage that succeeds without reaching `cap` hands the collected addresses to the next stage. */
  lemma GatherStep(stages: seq<Query>, acc: seq<DocAddress>, cap: nat, hits: Query -> Result<seq<DocAddress>, string>)
    requires stages != [] && hits(stages[0]).Ok? && |acc + hits(stages[0]).value| != cap
    ensures Gather(stages, acc, cap, hits) == Gather(stages[1..], acc + hits(stages[0]).value, cap, hits)
  {
  }

  function TwoMatches(q: Query): Result<seq<Match>, string> {
    Ok([Match(DocAddress(0, 0), 1), Match(DocAddress(0, 1), 1)])
  }

  function OneMatch(q: Query): Result<seq<Match>, string> {
    Ok([Match(DocAddress(0, 7), 1)])
  }

  function ZeroId(a: DocAddress, f: Field): i64 {
    0
  }

  function ZeroLookup(id: i64): int {
    0
  }

  function StoredDoc(a: DocAddress): Result<Doc, string> {
    Ok(Doc([(0, U64(0))]))
  }

  function AsIs(d: Doc): Result<Doc, string> {
    Ok(d)
  }

  /** A searcher whose every query matches the same two documents. */
  function TwoDocSearcher(): Searcher {
    Searcher(TwoMatches, ZeroId, StoredDoc)
  }

  /** A searcher whose every query matches the same single document. */
  function OneDocSearcher(): Searcher {
    Searcher(OneMatch, ZeroId, StoredDoc)
  }

  function NoLookups(): BotLookups {
    BotLookups(ZeroLookup, ZeroLookup, ZeroLookup, ZeroLookup)
  }

  lemma OneTokenThreeStages()
    ensures |Stages(["discordbot"], [0])| == 3
  {
    assert Utf8Len("discordbot") == 10;
    assert Kept(["discordbot"], 8) == ["discordbot"];
    KeptAntitone(["discordbot"], 0, 8);
    KeptAntitone(["discordbot"], 4, 8);
    StagesArePrefix(["discordbot"], [0]);
  }

  lemma TwoDocStage(q: Query)
    ensures var h := StageHitsOf(TwoDocSearcher(), 0, NoLookups(), 3, Relevance, Desc)(q);
      h.Ok? && |h.value| == 2
  {
  }

  lemma OneDocStage(q: Query)
    ensures StageHitsOf(OneDocSearcher(), 0, NoLookups(), 2, Relevance, Desc)(q) == Ok([DocAddress(0, 7)])
  {
    var keyed := RelevanceKeyed(OneMatch(q).value);
    assert keyed == [Scored(Key(1, 0), DocAddress(0, 7))];
    var t := Top(keyed, 2);
    assert t[0] in multiset(t);
    assert Addresses(t) == [DocAddress(0, 7)];
    assert StageHitsOf(OneDocSearcher(), 0, NoLookups(), 2, Relevance, Desc)(q)
      == StageHits(OneDocSearcher(), 0, NoLookups(), q, 2, Relevance, Desc);
  }

  /** Every address loads, so the loaded page is as long as the address list. */
  lemma LoadsEverything(addrs: seq<DocAddress>)
    ensures var r := LoadFrom(addrs, [], StoredDoc, AsIs); r.Ok? && |r.value| == |addrs|
  {
    LoadSucceedsWhenAllLoad(addrs, [], StoredDoc, AsIs);
    LoadedInOrder(addrs, [], StoredDoc, AsIs);
  }

  /** Three stages that each find the same two documents collect six addresses for a `cap` of 3. */
  lemma OverlongGather(stages: seq<Query>)
    requires |stages| == 3
    ensures var g := Gather(stages, [], 3, StageHitsOf(TwoDocSearcher(), 0, NoLookups(), 3, Relevance, Desc));
      g.Ok? && |g.value| == 6
  {
    var hits := StageHitsOf(TwoDocSearcher(), 0, NoLookups(), 3, Relevance, Desc);
    TwoDocStage(stages[0]);
    TwoDocStage(stages[1]);
    TwoDocStage(stages[2]);
    var h0, h1, h2 := hits(stages[0]).value, hits(stages[1]).value, hits(stages[2]).value;
    GatherStep(stages, [], 3, hits);
    assert [] + h0 == h0;
    GatherStep(stages[1..], h0, 3, hits);
    GatherStep(stages[1..][1..], h0 + h1, 3, hits);
    assert stages[1..][1..][1..] == [];
    assert Gather(stages, [], 3, hits) == Ok(h0 + h1 + h2);
  }

  /**
   * As written, a page can hold more than `limit` hits: the query
   * "discordbot" has three stages, each finds the same two documents, and
   * the collected count (2, 4, 6) never equals `limit + offset` = 3.
   */
  lemma OverlongPage()
    ensures var r := SearchOutcome(0, [0], TwoDocSearcher(), ["discordbot"], 3, 0, Relevance, Desc, NoLookups(), AsIs);
      r.Ok? && |r.value| == 6
  {
    OneTokenThreeStages();
    var stages := Stages(["discordbot"], [0]);
    OverlongGather(stages);
    LoadsEverything(Skip(Gather(stages, [], 3, StageHitsOf(TwoDocSearcher(), 0, NoLookups(), 3, Relevance, Desc)).value, 0));
  }

  /** Two or more stages that each find the same one document collect it twice for a `cap` of 2. */
  lemma RepeatedGather(stages: seq<Query>)
    requires |stages| >= 2
    ensures Gather(stages, [], 2, StageHitsOf(OneDocSearcher(), 0, NoLookups(), 2, Relevance, Desc))
      == Ok([DocAddress(0, 7), DocAddress(0, 7)])
  {
    var hits := StageHitsOf(OneDocSearcher(), 0, NoLookups(), 2, Relevance, Desc);
    OneDocStage(stages[0]);
    OneDocStage(stages[1]);
    GatherStep(stages, [], 2, hits);
    assert [] + [DocAddress(0, 7)] == [DocAddress(0, 7)];
    assert stages[1..][0] == stages[1];
    assert [DocAddress(0, 7)] + [DocAddress(0, 7)] == [DocAddress(0, 7), DocAddress(0, 7)];
    assert Gather(stages[1..], [DocAddress(0, 7)], 2, hits) == Ok([DocAddress(0, 7), DocAddress(0, 7)]);
  }

  /**
   * As written, a page can list the same document twice: with one matching
   * document and `limit` 2, the first stage collects it once (1 is not 2) and
   * the second collects it again (2 is 2).
   */
  lemma RepeatedHit()
    ensures Gather(Stages(["discordbot"], [0]), [], 2, StageHitsOf(OneDocSearcher(), 0, NoLookups(), 2, Relevance, Desc))
      == Ok([DocAddress(0, 7), DocAddress(0, 7)])
    ensures var r := SearchOutcome(0, [0], OneDocSearcher(), ["discordbot"], 2, 0, Relevance, Desc, NoLookups(), AsIs);
      r.Ok? && |r.value| == 2
  {
    OneTokenThreeStages();
    RepeatedGather(Stages(["discordbot"], [0]));
    LoadsEverything(Skip([DocAddress(0, 7), DocAddress(0, 7)], 0));
  }

  predicate NoRepeats(s: seq<DocAddress>) {
    forall i, j :: 0 <= i < j < |s| ==> s[i] != s[j]
  }

  /** The addresses of `h` not already in `acc`, each once, in the order `h` lists them. */
  function Fresh(acc: seq<DocAddress>, h: seq<DocAddress>): (r: seq<DocAddress>)
    ensures forall x :: x in r <==> x in h && x !in acc
    ensures NoRepeats(acc) ==> NoRepeats(acc + r)
    decreases |h|
  {
    if h == [] then []
    else
      var r0 := Fresh(acc, h[..|h| - 1]);
      var x := h[|h| - 1];
      assert h == h[..|h| - 1] + [x];
      if x in acc || x in r0 then r0 else
        assert acc + (r0 + [x]) == (acc + r0) + [x];
        r0 + [x]
  }

  /**
   * The intended stage loop: a stage adds only addresses not collected yet,
   * the loop stops once at least `cap` are collected, and the page keeps the
   * first `cap`.
   */
  function GatherCapped(stages: seq<Query>, acc: seq<DocAddress>, cap: nat,
                        hits: Query -> Result<seq<DocAddress>, string>): Result<seq<DocAddress>, string>
    decreases |stages|
  {
    if stages == [] then Ok(acc)
    else match hits(stages[0])
      case Err(e) => Err(e)
      case Ok(h) =>
        var next := acc + Fresh(acc, h);
        if |next| >= cap then Ok(next[..cap]) else GatherCapped(stages[1..], next, cap, hits)
  }

  /** The intended loop keeps what was collected, holds at most `cap` addresses and never repeats one. */
  lemma {:induction false} GatherCappedBounded(stages: seq<Query>, acc: seq<DocAddress>, cap: nat,
                                               hits: Query -> Result<seq<DocAddress>, string>)
    requires |acc| <= cap && NoRepeats(acc)
    ensures GatherCapped(stages, acc, cap, hits).Ok? ==>
      var out := GatherCapped(stages, acc, cap, hits).value;
      acc <= out && |out| <= cap && NoRepeats(out)
    decreases |stages|
  {
    if stages != [] && hits(stages[0]).Ok? {
      var next := acc + Fresh(acc, hits(stages[0]).value);
      if |next| >= cap {
        assert next[..cap][..|acc|] == acc;
      } else {
        GatherCappedBounded(stages[1..], next, cap, hits);
      }
    }
  }

  /** Dropping `offset` addresses from at most `limit + offset` leaves at most `limit`, none repeated. */
  lemma SkipWithinLimit(addrs: seq<DocAddress>, limit: nat, offset: nat)
    requires |addrs| <= limit + offset && NoRepeats(addrs)
    ensures |Skip(addrs, offset)| <= limit && NoRepeats(Skip(addrs, offset))
  {
  }

  /** The addresses the intended stage loop collects for a search. */
  function CappedAddresses(idField: Field, fields: seq<Field>, searcher: Searcher, tokens: seq<string>,
                           cap: nat, sortBy: BotsSortBy, order: Order, lookups: BotLookups): Result<seq<DocAddress>, string>
  {
    GatherCapped(Stages(tokens, fields), [], cap, StageHitsOf(searcher, idField, lookups, cap, sortBy, order))
  }

  /** `execute_search` with the intended stage loop. */
  function SearchOutcomeCapped<T>(idField: Field, fields: seq<Field>, searcher: Searcher, tokens: seq<string>,
                                  limit: nat, offset: nat, sortBy: BotsSortBy, order: Order, lookups: BotLookups,
                                  fromDoc: Doc -> Result<T, string>): Result<seq<T>, string>
  {
    match CappedAddresses(idField, fields, searcher, tokens, limit + offset, sortBy, order, lookups)
    case Err(e) => Err(e)
    case Ok(addrs) => LoadFrom(Skip(addrs, offset), [], searcher.doc, fromDoc)
  }

  /** A loaded page has one hit per address. */
  lemma {:induction false} LoadedLength<T>(addrs: seq<DocAddress>, loaded: seq<T>, docOf: DocAddress -> Result<Doc, string>,
                                           fromDoc: Doc -> Result<T, string>)
    ensures LoadFrom(addrs, loaded, docOf, fromDoc).Ok? ==> |LoadFrom(addrs, loaded, docOf, fromDoc).value| == |loaded| + |addrs|
    decreases |addrs|
  {
    if addrs != [] && docOf(addrs[0]).Ok? && fromDoc(docOf(addrs[0]).value).Ok? {
      LoadedLength(addrs[1..], loaded + [fromDoc(docOf(addrs[0]).value).value], docOf, fromDoc);
    }
  }

  /** The intended loop leaves at most `limit` addresses, all different, once the first `offset` are dropped. */
  lemma CappedPage(stages: seq<Query>, limit: nat, offset: nat, hits: Query -> Result<seq<DocAddress>, string>)
    ensures var g := GatherCapped(stages, [], limit + offset, hits);
      g.Ok? ==> |Skip(g.value, offset)| <= limit && NoRepeats(Skip(g.value, offset))
  {
    GatherCappedBounded(stages, [], limit + offset, hits);
    var g := GatherCapped(stages, [], limit + offset, hits);
    if g.Ok? {
      SkipWithinLimit(g.value, limit, offset);
    }
  }

  /**
   * With the intended loop the page keeps at most `limit` addresses after the
   * `offset` skipped ones, all different, and loads one hit per address.
   */
  lemma PageWithinLimit<T>(idField: Field, fields: seq<Field>, searcher: Searcher, tokens: seq<string>,
                           limit: nat, offset: nat, sortBy: BotsSortBy, order: Order, lookups: BotLookups,
                           fromDoc: Doc -> Result<T, string>)
    ensures var g := CappedAddresses(idField, fields, searcher, tokens, limit + offset, sortBy, order, lookups);
      g.Ok? ==> |Skip(g.value, offset)| <= limit && NoRepeats(Skip(g.value, offset))
    ensures var r := SearchOutcomeCapped(idField, fields, searcher, tokens, limit, offset, sortBy, order, lookups, fromDoc);
      r.Ok? ==> |r.value| <= limit
  {
    var g := CappedAddresses(idField, fields, searcher, tokens, limit + offset, sortBy, order, lookups);
    CappedPage(Stages(tokens, fields), limit, offset, StageHitsOf(searcher, idField, lookups, limit + offset, sortBy, order));
    if g.Ok? {
      LoadedLength(Skip(g.value, offset), [], searcher.doc, fromDoc);
    }
  }
}
