/**
 * The pack routes of src/routes/packs.rs: the `PackHit` a pack is shown as
 * (`from_doc`, with the pack's bots reduced to those that may be shown in a
 * pack), the pack sort order, and the pack search with the same payload
 * rules as the bot search. `get_pack_data`, `get_pack_likes`,
 * `get_bot_data` and `get_bot_votes` are given as functions.
 */
module PackRoutes {
  import opened Wrappers
  import opened Ints
  import opened Tantivy
  import opened Models
  import opened SearchReaders
  import opened BotRoutes

  /** `PacksSortBy` (src/search/readers/packs.rs). */
  datatype PacksSortBy = Relevance | Likes | Trending | NumBots | Premium {
    /** `impl Default for PacksSortBy`. */
    static function Default(): PacksSortBy {
      Relevance
    }
  }

  /** What a pack search returns per pack. */
  datatype PackHit = PackHit(
    id: i64,
    name: string,
    description: string,
    createdOn: int,
    tag: string,
    bots: seq<BotHit>,
    ownerId: i64,
    coOwnerIds: set<i64>,
    likes: i64)

  /** Whether the bot with this id has data and may be shown in a pack. */
  predicate Showable(id: i64, botData: i64 -> Option<Bot>) {
    botData(id).Some? && botData(id).value.isPackable
  }

  /**
   * The `bots` of a pack hit: the pack's bot ids with data (`filter_map`),
   * kept when packable (`filter`), each shown as a `BotHit`.
   */
  function PackBots(ids: seq<i64>, botData: i64 -> Option<Bot>, votesOf: i64 -> u64): (r: seq<BotHit>)
    ensures |r| <= |ids|
  {
    if ids == [] then []
    else
      var init := PackBots(ids[..|ids| - 1], botData, votesOf);
      var last := ids[|ids| - 1];
      if Showable(last, botData) then init + [HitOf(botData(last).value, votesOf)] else init
  }

  /** Whether `h` is the hit of a showable bot listed in `ids`. */
  predicate HitOfShowable(h: BotHit, ids: seq<i64>, botData: i64 -> Option<Bot>, votesOf: i64 -> u64) {
    exists i :: 0 <= i < |ids| && Showable(ids[i], botData) && h == HitOf(botData(ids[i]).value, votesOf)
  }

  /** Every bot of the hit is the hit of a showable bot of the pack. */
  lemma {:induction false} PackBotsFromIds(ids: seq<i64>, botData: i64 -> Option<Bot>, votesOf: i64 -> u64)
    ensures var r := PackBots(ids, botData, votesOf);
      forall k :: 0 <= k < |r| ==> HitOfShowable(r[k], ids, botData, votesOf)
    decreases |ids|
  {
    if ids != [] {
      var init, last := ids[..|ids| - 1], ids[|ids| - 1];
      PackBotsFromIds(init, botData, votesOf);
      var front := PackBots(init, botData, votesOf);
      assert forall k :: 0 <= k < |PackBots(init, botData, votesOf)| ==>
        HitOfShowable(PackBots(init, botData, votesOf)[k], init, botData, votesOf);
      var r := PackBots(ids, botData, votesOf);
      forall k | 0 <= k < |r|
        ensures HitOfShowable(r[k], ids, botData, votesOf)
      {
        if k < |front| {
          assert r[k] == front[k] && HitOfShowable(front[k], init, botData, votesOf);
          var i :| 0 <= i < |init| && Showable(init[i], botData) && front[k] == HitOf(botData(init[i]).value, votesOf);
          assert init[i] == ids[i];
        } else {
          assert Showable(last, botData) && r == front + [HitOf(botData(last).value, votesOf)];
          assert r[k] == HitOf(botData(ids[|ids| - 1]).value, votesOf);
        }
      }
    }
  }

  /** The bots of two runs of ids are those of the first run, then those of the second: pack order is kept. */
  lemma {:induction false} PackBotsAppend(a: seq<i64>, b: seq<i64>, botData: i64 -> Option<Bot>, votesOf: i64 -> u64)
    ensures PackBots(a + b, botData, votesOf) == PackBots(a, botData, votesOf) + PackBots(b, botData, votesOf)
    decreases |b|
  {
    if b != [] {
      var init := b[..|b| - 1];
      PackBotsAppend(a, init, botData, votesOf);
      assert (a + b)[..|a + b| - 1] == a + init;
    } else {
      assert a + b == a;
    }
  }

  /** Every showable bot of the pack is in the hit. */
  lemma {:induction false} ShowableBotsKept(ids: seq<i64>, i: nat, botData: i64 -> Option<Bot>, votesOf: i64 -> u64)
    requires i < |ids| && Showable(ids[i], botData)
    ensures HitOf(botData(ids[i]).value, votesOf) in PackBots(ids, botData, votesOf)
    decreases |ids|
  {
    if i < |ids| - 1 {
      ShowableBotsKept(ids[..|ids| - 1], i, botData, votesOf);
    }
  }

  /** A pack of bots none of which may be shown has no bots in its hit, however many ids it lists. */
  lemma {:induction false} NoShowableBots(ids: seq<i64>, botData: i64 -> Option<Bot>, votesOf: i64 -> u64)
    requires forall k :: 0 <= k < |ids| ==> !Showable(ids[k], botData)
    ensures PackBots(ids, botData, votesOf) == []
    decreases |ids|
  {
    if ids != [] {
      NoShowableBots(ids[..|ids| - 1], botData, votesOf);
    }
  }

  /**
   * `PackHit::from_doc`: nothing without an i64 id or without data for that
   * pack; otherwise the pack's fields, its showable bots and its likes
   * (`get_pack_likes`, a `u64`) cast to `i64`.
   */
  function FromDoc(idField: Field, doc: Doc, packData: i64 -> Option<Pack>, likesOf: i64 -> u64,
                   botData: i64 -> Option<Bot>, votesOf: i64 -> u64): (r: Option<PackHit>)
    ensures r.Some? <==> DocId(doc, idField).Some? && packData(DocId(doc, idField).value).Some?
    ensures r.Some? ==>
      var id := DocId(doc, idField).value;
      var pack := packData(id).value;
      r.value.id == pack.id && r.value.name == pack.name && r.value.description == pack.description &&
      r.value.createdOn == pack.createdOn && r.value.tag == pack.tag && r.value.ownerId == pack.ownerId &&
      r.value.coOwnerIds == pack.coOwnerIds && r.value.likes == U64AsI64(likesOf(id)) &&
      r.value.bots == PackBots(pack.bots, botData, votesOf)
  {
    match DocId(doc, idField)
    case None => None
    case Some(id) =>
      var likes := likesOf(id);
      match packData(id)
      case None => None
      case Some(pack) =>
        Some(PackHit(pack.id, pack.name, pack.description, pack.createdOn, pack.tag,
                     PackBots(pack.bots, botData, votesOf), pack.ownerId, pack.coOwnerIds, U64AsI64(likes)))
  }

  /** When every bot of the pack may be shown, the hit shows all of them, one per id, in pack order. */
  lemma {:induction false} AllShowableKept(ids: seq<i64>, botData: i64 -> Option<Bot>, votesOf: i64 -> u64)
    requires forall k :: 0 <= k < |ids| ==> Showable(ids[k], botData)
    ensures var r := PackBots(ids, botData, votesOf);
      |r| == |ids| &&
      forall k :: 0 <= k < |ids| ==> Showable(ids[k], botData) && r[k] == HitOf(botData(ids[k]).value, votesOf)
    decreases |ids|
  {
    if ids != [] {
      var init := ids[..|ids| - 1];
      var last := ids[|ids| - 1];
      assert forall k :: 0 <= k < |init| ==> init[k] == ids[k];
      AllShowableKept(init, botData, votesOf);
      assert Showable(last, botData);
      var front := PackBots(init, botData, votesOf);
      assert PackBots(ids, botData, votesOf) == front + [HitOf(botData(last).value, votesOf)];
    }
  }

  /** The pack search payload: the bot search's bounds, sorting by `PacksSortBy`. */
  function CheckPackPayload(raw: RawPayload<PacksSortBy>): (r: Result<SearchPayload<PacksSortBy>, PayloadError>)
    ensures r.Ok? <==> CheckPayload(raw, Relevance).Ok?
    ensures r.Ok? ==> r.value.sort == raw.sort.GetOr(Relevance) && r.value.offset <= MAX_OFFSET
  {
    CheckPayload(raw, PacksSortBy.Default())
  }

  /** The pack search response: the reader's hits, the limit used (20 by default) and the query or `"*"`. */
  function PackSearch(p: SearchPayload<PacksSortBy>,
                      reader: (Option<string>, nat, nat, PacksSortBy, Order) -> ReaderAnswer<PackHit>)
    : (r: Result<SearchResult<PackHit>, string>)
    ensures r.Ok? <==> reader(p.query, p.limit.GetOr(DEFAULT_LIMIT), p.offset, p.sort, p.order).Ok?
    ensures var answer := reader(p.query, p.limit.GetOr(DEFAULT_LIMIT), p.offset, p.sort, p.order);
      (answer.Err? ==> r == Err(answer.error)) &&
      (answer.Ok? ==>
        r.value.hits == answer.value.2 && r.value.nbHits == answer.value.0 &&
        r.value.tagDistribution == answer.value.1 && r.value.offset == p.offset)
    ensures r.Ok? ==> r.value.limit == p.limit.GetOr(DEFAULT_LIMIT) && r.value.query == p.query.GetOr(WILDCARD)
  {
    SearchResponse(p, reader)
  }
}
