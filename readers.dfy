/**
 * Sorted collection (src/search/readers/mod.rs): for the non-relevance sorts,
 * `TopDocs` ranks the matches of a query by a tweaked score built from the i64
 * fast field of each document passed through a callback `cb`: `(cb(id), score)`
 * largest first for `Desc`, `(Reverse(cb(id)), score)` for `Asc`. Relevance
 * scores and callback values are integers in this model.
 */
module SearchReaders {
  import opened Wrappers
  import opened Ints
  import opened Tantivy
  import opened TopDocs
  import opened SearchQueries

  datatype Order = Desc | Asc {
    /** `impl Default for Order`. */
    static function Default(): Order {
      Desc
    }
  }

  /** A document a query matched, with its relevance score. */
  datatype Match = Match(addr: DocAddress, score: int)

  /**
   * The searcher of one reader generation: the matches of a query (or the
   * library's error), the i64 fast-field value of a document, and stored
   * document loading.
   */
  datatype Searcher = Searcher(
    search: Query -> Result<seq<Match>, string>,
    fastI64: (DocAddress, Field) -> i64,
    doc: DocAddress -> Result<Doc, string>)

  /** `TopDocs::with_limit(limit)`. */
  datatype TopDocsCollector = TopDocsCollector(limit: nat)

  /** The tweaked score of `collector_for_id_desc`. */
  function DescKey(s: Searcher, field: Field, cb: i64 -> int, m: Match): Key {
    Key(cb(s.fastI64(m.addr, field)), m.score)
  }

  /** The tweaked score of `collector_for_id_asc`; `Reverse` on integers is negation. */
  function AscKey(s: Searcher, field: Field, cb: i64 -> int, m: Match): Key {
    Key(-cb(s.fastI64(m.addr, field)), m.score)
  }

  /** The key an order ranks by. */
  function OrderKey(order: Order, s: Searcher, field: Field, cb: i64 -> int, m: Match): Key {
    if order.Desc? then DescKey(s, field, cb, m) else AscKey(s, field, cb, m)
  }

  function Keyed(order: Order, s: Searcher, field: Field, cb: i64 -> int, ms: seq<Match>): (r: seq<Scored>)
    ensures |r| == |ms|
    ensures forall k :: 0 <= k < |ms| ==> r[k] == Scored(OrderKey(order, s, field, cb, ms[k]), ms[k].addr)
  {
    if ms == [] then [] else [Scored(OrderKey(order, s, field, cb, ms[0]), ms[0].addr)] + Keyed(order, s, field, cb, ms[1..])
  }

  /** The addresses a sorted collection appends for a successful search. */
  function SortedHits(order: Order, s: Searcher, field: Field, cb: i64 -> int, ms: seq<Match>, limit: nat): seq<DocAddress> {
    Addresses(Top(Keyed(order, s, field, cb, ms), limit))
  }

  // ---------------------------------------------------------------- properties

  /** The callback value of `x`'s document, signed by the order, is its primary key. */
  predicate PrimaryIsCallback(order: Order, s: Searcher, field: Field, cb: i64 -> int, x: Scored) {
    x.key.primary == (if order.Desc? then cb(s.fastI64(x.addr, field)) else -cb(s.fastI64(x.addr, field)))
  }

  /** Every hit of a sorted collection is one of the matches, keyed by the order's tweaked score. */
  lemma SortedHitsFromMatches(order: Order, s: Searcher, field: Field, cb: i64 -> int, ms: seq<Match>, limit: nat)
    ensures var r := Top(Keyed(order, s, field, cb, ms), limit);
      |r| <= limit && |r| <= |ms| &&
      forall i :: 0 <= i < |r| ==> exists m :: m in ms && r[i] == Scored(OrderKey(order, s, field, cb, m), m.addr)
  {
    var scored := Keyed(order, s, field, cb, ms);
    var r := Top(scored, limit);
    TopMembers(scored, limit);
    KeyedMembers(order, s, field, cb, ms);
    forall i | 0 <= i < |r|
      ensures exists m :: m in ms && r[i] == Scored(OrderKey(order, s, field, cb, m), m.addr)
    {
      assert r[i] in scored;
    }
  }

  /** Every keyed entry comes from one of the matches. */
  lemma KeyedMembers(order: Order, s: Searcher, field: Field, cb: i64 -> int, ms: seq<Match>)
    ensures forall x :: x in Keyed(order, s, field, cb, ms) ==>
      exists m :: m in ms && x == Scored(OrderKey(order, s, field, cb, m), m.addr)
  {
    var scored := Keyed(order, s, field, cb, ms);
    forall x | x in scored
      ensures exists m :: m in ms && x == Scored(OrderKey(order, s, field, cb, m), m.addr)
    {
      var k :| 0 <= k < |scored| && scored[k] == x;
      assert ms[k] in ms;
    }
  }

  /**
   * For `Desc` the callback values never increase along the hits; for `Asc`
   * they never decrease. Either way, hits with equal callback values appear
   * highest score first, each hit's primary key is its document's callback
   * value signed by the order, and a match left out ranks no higher than any
   * hit kept.
   */
  lemma SortedRanking(order: Order, s: Searcher, field: Field, cb: i64 -> int, ms: seq<Match>, limit: nat)
    ensures var r := Top(Keyed(order, s, field, cb, ms), limit);
      forall i, j :: 0 <= i < j < |r| ==>
        var ci, cj := cb(s.fastI64(r[i].addr, field)), cb(s.fastI64(r[j].addr, field));
        (if order.Desc? then ci >= cj else ci <= cj) &&
        (ci == cj ==> r[i].key.secondary >= r[j].key.secondary)
    ensures var r := Top(Keyed(order, s, field, cb, ms), limit);
      forall i :: 0 <= i < |r| ==> PrimaryIsCallback(order, s, field, cb, r[i])
    ensures var scored := Keyed(order, s, field, cb, ms);
      var r := Top(scored, limit); var dropped := Rank(scored)[|r|..];
      multiset(scored) == multiset(r) + multiset(dropped) &&
      (forall y :: y in dropped ==> PrimaryIsCallback(order, s, field, cb, y)) &&
      forall x, y :: x in r && y in dropped ==> KeyLe(y.key, x.key)
  {
    KeptByCallback(order, s, field, cb, ms, limit);
    LeftOutRankLower(order, s, field, cb, ms, limit);
  }

  /** The kept hits are ordered by their callback values, and each is keyed by its own. */
  lemma KeptByCallback(order: Order, s: Searcher, field: Field, cb: i64 -> int, ms: seq<Match>, limit: nat)
    ensures var r := Top(Keyed(order, s, field, cb, ms), limit);
      forall i, j :: 0 <= i < j < |r| ==>
        var ci, cj := cb(s.fastI64(r[i].addr, field)), cb(s.fastI64(r[j].addr, field));
        (if order.Desc? then ci >= cj else ci <= cj) &&
        (ci == cj ==> r[i].key.secondary >= r[j].key.secondary)
    ensures var r := Top(Keyed(order, s, field, cb, ms), limit);
      forall i :: 0 <= i < |r| ==> PrimaryIsCallback(order, s, field, cb, r[i])
  {
    var scored := Keyed(order, s, field, cb, ms);
    var r := Top(scored, limit);
    forall i | 0 <= i < |r|
      ensures PrimaryIsCallback(order, s, field, cb, r[i])
    {
      assert r[i] in multiset(r);
      KeyedPrimary(order, s, field, cb, ms, r[i]);
    }
  }

  /** The matches the collector leaves out are keyed by their callback values and rank no higher than any hit kept. */
  lemma LeftOutRankLower(order: Order, s: Searcher, field: Field, cb: i64 -> int, ms: seq<Match>, limit: nat)
    ensures var scored := Keyed(order, s, field, cb, ms);
      var r := Top(scored, limit); var dropped := Rank(scored)[|r|..];
      multiset(scored) == multiset(r) + multiset(dropped) &&
      (forall y :: y in dropped ==> PrimaryIsCallback(order, s, field, cb, y)) &&
      forall x, y :: x in r && y in dropped ==> KeyLe(y.key, x.key)
  {
    var scored := Keyed(order, s, field, cb, ms);
    var r := Top(scored, limit);
    TopKeepsLargest(scored, limit);
    var dropped := Rank(scored)[|r|..];
    forall y | y in dropped
      ensures PrimaryIsCallback(order, s, field, cb, y)
    {
      assert y in multiset(dropped);
      KeyedPrimary(order, s, field, cb, ms, y);
    }
  }

  /** Every keyed match carries its document's callback value, signed by the order, as its primary key. */
  lemma KeyedPrimary(order: Order, s: Searcher, field: Field, cb: i64 -> int, ms: seq<Match>, x: Scored)
    requires x in multiset(Keyed(order, s, field, cb, ms))
    ensures PrimaryIsCallback(order, s, field, cb, x)
  {
    var scored := Keyed(order, s, field, cb, ms);
    var k :| 0 <= k < |scored| && scored[k] == x;
  }

  // ---------------------------------------------------------------- imperative model

  /** `collector_for_id_desc`: extends the caller's results with the ranked hits; a search error leaves them as they were. */
  method CollectorForIdDesc(searcher: Searcher, query: Query, results: seq<DocAddress>, field: Field,
                            collector: TopDocsCollector, cb: i64 -> int)
    returns (out: seq<DocAddress>, r: Outcome<string>)
    ensures searcher.search(query).Err? ==> r == Fail(searcher.search(query).error) && out == results
    ensures searcher.search(query).Ok? ==>
      r == Pass && out == results + SortedHits(Desc, searcher, field, cb, searcher.search(query).value, collector.limit)
  {
    var docs := searcher.search(query);
    if docs.Err? {
      return results, Fail(docs.error);
    }
    var top := Top(Keyed(Desc, searcher, field, cb, docs.value), collector.limit);
    out := results + Addresses(top);
    r := Pass;
  }

  /** `collector_for_id_asc`: as the descending collector, ranking by `(Reverse(cb(id)), score)`. */
  method CollectorForIdAsc(searcher: Searcher, query: Query, results: seq<DocAddress>, field: Field,
                           collector: TopDocsCollector, cb: i64 -> int)
    returns (out: seq<DocAddress>, r: Outcome<string>)
    ensures searcher.search(query).Err? ==> r == Fail(searcher.search(query).error) && out == results
    ensures searcher.search(query).Ok? ==>
      r == Pass && out == results + SortedHits(Asc, searcher, field, cb, searcher.search(query).value, collector.limit)
  {
    var docs := searcher.search(query);
    if docs.Err? {
      return results, Fail(docs.error);
    }
    var top := Top(Keyed(Asc, searcher, field, cb, docs.value), collector.limit);
    out := results + Addresses(top);
    r := Pass;
  }

  /** `execute_search`: `Desc` goes to the descending collector and `Asc` to the ascending one, with the same arguments. */
  method ExecuteSearch(searcher: Searcher, query: Query, results: seq<DocAddress>, field: Field,
                       collector: TopDocsCollector, cb: i64 -> int, order: Order)
    returns (out: seq<DocAddress>, r: Outcome<string>)
    ensures searcher.search(query).Err? ==> r == Fail(searcher.search(query).error) && out == results
    ensures searcher.search(query).Ok? ==>
      r == Pass && out == results + SortedHits(order, searcher, field, cb, searcher.search(query).value, collector.limit)
  {
    match order
    case Desc =>
      out, r := CollectorForIdDesc(searcher, query, results, field, collector, cb);
    case Asc =>
      out, r := CollectorForIdAsc(searcher, query, results, field, collector, cb);
  }
}
