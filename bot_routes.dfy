/**
 * The bot routes of src/routes/bots.rs: the `BotHit` a bot is shown as, how
 * a stored search document becomes one (`from_doc`), the search payload's
 * bounds and defaults, the search response, and the bot id listing. The
 * live-data lookups (`get_bot_data`, `get_bot_votes`) and the reader's
 * search are given as functions.
 */
module BotRoutes {
  import opened Wrappers
  import opened Ints
  import opened Tantivy
  import opened Models
  import opened SearchReaders
  import opened BotsReaders

  // ---------------------------------------------------------------- hits

  /** What a bot search returns per bot. */
  datatype BotHit = BotHit(
    id: i64,
    username: string,
    avatar: Option<string>,
    discriminator: int,
    prefix: Option<string>,
    flags: i64,
    features: i64,
    tags: seq<string>,
    createdOn: int,
    ownerId: i64,
    coOwnerIds: set<i64>,
    guildCount: Option<int>,
    briefDescription: string,
    votes: i64,
    inviteUrl: string)

  /**
   * `impl From<Bot> for BotHit`: the bot's own fields, `flags` set from the
   * features, and the monthly votes (`get_bot_votes`, a `u64`) cast to `i64`.
   */
  function HitOf(bot: Bot, votesOf: i64 -> u64): (h: BotHit)
    ensures h.id == bot.id && h.flags == bot.features && h.features == bot.features
    ensures h.votes == U64AsI64(votesOf(bot.id))
  {
    BotHit(bot.id, bot.username, bot.avatar, bot.discriminator, bot.prefix, bot.features, bot.features,
           bot.tags, bot.createdOn, bot.ownerId, bot.coOwnerIds, bot.guildCount, bot.briefDescription,
           U64AsI64(votesOf(bot.id)), bot.inviteUrl)
  }

  /** The bot a hit shows, given the one field a hit does not carry. */
  function BotOf(h: BotHit, isPackable: bool): Bot {
    Bot(h.id, h.username, h.avatar, h.discriminator, h.prefix, h.features, h.tags, h.createdOn,
        h.ownerId, h.coOwnerIds, h.guildCount, h.briefDescription, h.inviteUrl, isPackable)
  }

  /** A hit loses nothing of the bot except whether it may join packs. */
  lemma HitKeepsBot(bot: Bot, votesOf: i64 -> u64)
    ensures BotOf(HitOf(bot, votesOf), bot.isPackable) == bot
    ensures HitOf(bot, votesOf).votes as int % TWO_TO_THE_64 == votesOf(bot.id)
  {
  }

  /** `doc.get_first(field)?.as_i64()`: the first value of the field, when it is an i64. */
  function DocId(doc: Doc, field: Field): (r: Option<i64>)
    ensures r.Some? <==> doc.GetFirst(field).Some? && doc.GetFirst(field).value.I64?
    ensures r.Some? ==> doc.GetFirst(field) == Some(I64(r.value))
  {
    match doc.GetFirst(field)
    case Some(I64(i)) => Some(i)
    case _ => None
  }

  /** `BotHit::from_doc`: nothing without an i64 id or without data for that bot. */
  function FromDoc(idField: Field, doc: Doc, botData: i64 -> Option<Bot>, votesOf: i64 -> u64): (r: Option<BotHit>)
    ensures r.Some? <==> DocId(doc, idField).Some? && botData(DocId(doc, idField).value).Some?
    ensures r.Some? ==> r.value == HitOf(botData(DocId(doc, idField).value).value, votesOf)
  {
    match DocId(doc, idField)
    case None => None
    case Some(id) =>
      match botData(id)
      case None => None
      case Some(bot) => Some(HitOf(bot, votesOf))
  }

  /** A document whose first id entry is `I64(id)` shows the bot stored for `id`, whatever follows. */
  lemma FromDocReadsFirstId(idField: Field, id: i64, rest: seq<(Field, Value)>,
                            botData: i64 -> Option<Bot>, votesOf: i64 -> u64)
    ensures var r := FromDoc(idField, Doc([(idField, I64(id))] + rest), botData, votesOf);
      r == if botData(id).Some? then Some(HitOf(botData(id).value, votesOf)) else None
  {
    assert Doc([(idField, I64(id))] + rest).GetFirst(idField) == Some(I64(id));
  }

  /** An id stored under another type is no id: the document shows nothing. */
  lemma FromDocNeedsI64(idField: Field, u: u64, rest: seq<(Field, Value)>,
                        botData: i64 -> Option<Bot>, votesOf: i64 -> u64)
    ensures FromDoc(idField, Doc([(idField, U64(u))] + rest), botData, votesOf) == None
  {
    assert Doc([(idField, U64(u))] + rest).GetFirst(idField) == Some(U64(u));
  }

  // ---------------------------------------------------------------- search payload

  const MIN_QUERY_LENGTH: nat := 1
  const MAX_QUERY_LENGTH: nat := 50
  const MIN_LIMIT: nat := 1
  const MAX_LIMIT: nat := 50
  const MAX_OFFSET: nat := 40000
  const DEFAULT_LIMIT: nat := 20
  const WILDCARD: string := "*"

  /** The JSON body of a search request as it arrives: every field may be absent. */
  datatype RawPayload<S> = RawPayload(query: Option<string>, limit: Option<nat>, offset: Option<nat>,
                                      sort: Option<S>, order: Option<Order>)

  /** A search payload that passed its validators, with the `default` fields filled in. */
  datatype SearchPayload<S> = SearchPayload(query: Option<string>, limit: Option<nat>, offset: nat, sort: S, order: Order)

  /** The field whose validator rejected a payload. */
  datatype PayloadError = Invalid(field: string)

  /**
   * The validators of a search payload, checked in field order: a query of
   * 1 to 50 characters, a limit of 1 to 50 and an offset of at most 40000,
   * each only when present; an absent offset is 0, an absent sort the sort's
   * default and an absent order `Desc`.
   */
  function CheckPayload<S>(raw: RawPayload<S>, defaultSort: S): (r: Result<SearchPayload<S>, PayloadError>)
    ensures r.Ok? <==>
      (raw.query.Some? ==> MIN_QUERY_LENGTH <= |raw.query.value| <= MAX_QUERY_LENGTH) &&
      (raw.limit.Some? ==> MIN_LIMIT <= raw.limit.value <= MAX_LIMIT) &&
      (raw.offset.Some? ==> raw.offset.value <= MAX_OFFSET)
    ensures r.Ok? ==>
      r.value.query == raw.query && r.value.limit == raw.limit && r.value.offset == raw.offset.GetOr(0) &&
      r.value.sort == raw.sort.GetOr(defaultSort) && r.value.order == raw.order.GetOr(Order.Default())
    ensures r.Err? ==> r.error.field in {"query", "limit", "offset"}
  {
    if raw.query.Some? && !(MIN_QUERY_LENGTH <= |raw.query.value| <= MAX_QUERY_LENGTH) then Err(Invalid("query"))
    else if raw.limit.Some? && !(MIN_LIMIT <= raw.limit.value <= MAX_LIMIT) then Err(Invalid("limit"))
    else if raw.offset.Some? && raw.offset.value > MAX_OFFSET then Err(Invalid("offset"))
    else Ok(SearchPayload(raw.query, raw.limit, raw.offset.GetOr(0), raw.sort.GetOr(defaultSort), raw.order.GetOr(Order.Default())))
  }

  /** `payload.limit.unwrap_or(20)`. */
  function SearchLimit<S>(p: SearchPayload<S>): nat {
    p.limit.GetOr(DEFAULT_LIMIT)
  }

  /** An accepted payload asks for 1 to 50 hits after skipping at most 40000. */
  lemma AcceptedPayloadBounds<S>(raw: RawPayload<S>, defaultSort: S)
    requires CheckPayload(raw, defaultSort).Ok?
    ensures var p := CheckPayload(raw, defaultSort).value;
      MIN_LIMIT <= SearchLimit(p) <= MAX_LIMIT && p.offset <= MAX_OFFSET &&
      SearchLimit(p) + p.offset <= MAX_LIMIT + MAX_OFFSET
  {
  }

  /** An empty body is accepted: the wildcard search for 20 hits from the start, by default sort and order. */
  lemma EmptyPayload<S>(defaultSort: S)
    ensures var r := CheckPayload(RawPayload(None, None, None, None, None), defaultSort);
      r == Ok(SearchPayload(None, None, 0, defaultSort, Desc)) && SearchLimit(r.value) == DEFAULT_LIMIT
  {
  }

  /** The bot search of an empty body ranks by relevance, largest first. */
  lemma EmptyBotPayload()
    ensures var r := CheckPayload(RawPayload(None, None, None, None, None), BotsSortBy.Default());
      r.Ok? && r.value.sort == Relevance && r.value.order == Desc
  {
  }

  // ---------------------------------------------------------------- search response

  /** The search response body. */
  datatype SearchResult<H> = SearchResult(hits: seq<H>, limit: nat, offset: nat, query: string,
                                          nbHits: nat, tagDistribution: map<string, nat>)

  /** What the reader's `search` answers: an estimated hit count, the tag distribution and the hits. */
  type ReaderAnswer<H> = Result<(nat, map<string, nat>, seq<H>), string>

  /**
   * `search` of a route: the reader is asked with the payload's query, the
   * defaulted limit, the offset, the sort and the order; its error is the
   * route's error, and otherwise the response echoes the limit and offset it
   * used and the query, `"*"` when there was none.
   */
  function SearchResponse<S, H>(p: SearchPayload<S>, reader: (Option<string>, nat, nat, S, Order) -> ReaderAnswer<H>)
    : (r: Result<SearchResult<H>, string>)
    ensures var answer := reader(p.query, SearchLimit(p), p.offset, p.sort, p.order);
      (answer.Err? ==> r == Err(answer.error)) &&
      (answer.Ok? ==>
        r.Ok? && r.value.hits == answer.value.2 && r.value.nbHits == answer.value.0 &&
        r.value.tagDistribution == answer.value.1 &&
        r.value.limit == SearchLimit(p) && r.value.offset == p.offset && r.value.query == p.query.GetOr(WILDCARD))
  {
    match reader(p.query, SearchLimit(p), p.offset, p.sort, p.order)
    case Err(e) => Err(e)
    case Ok((nbHits, dist, hits)) =>
      Ok(SearchResult(hits, SearchLimit(p), p.offset, p.query.GetOr(WILDCARD), nbHits, dist))
  }

  /**
   * For an accepted payload the response echoes a limit of 1 to 50, an
   * offset of at most 40000 and a query of 1 to 50 characters.
   */
  lemma ResponseEchoesBounds<S, H>(raw: RawPayload<S>, defaultSort: S,
                                   reader: (Option<string>, nat, nat, S, Order) -> ReaderAnswer<H>)
    requires CheckPayload(raw, defaultSort).Ok?
    ensures var r := SearchResponse(CheckPayload(raw, defaultSort).value, reader);
      r.Ok? ==>
        MIN_LIMIT <= r.value.limit <= MAX_LIMIT && r.value.offset <= MAX_OFFSET &&
        MIN_QUERY_LENGTH <= |r.value.query| <= MAX_QUERY_LENGTH
  {
    AcceptedPayloadBounds(raw, defaultSort);
  }

  // ---------------------------------------------------------------- bot ids

  /** `get_bot_ids`: the ids of `all_bots`, in that order. */
  function GetBotIds(bots: seq<Bot>): (ids: seq<i64>)
    ensures |ids| == |bots|
    ensures forall k :: 0 <= k < |bots| ==> ids[k] == bots[k].id
  {
    if bots == [] then [] else GetBotIds(bots[..|bots| - 1]) + [bots[|bots| - 1].id]
  }

  /** Listing two runs of bots lists their ids one after the other. */
  lemma GetBotIdsAppend(a: seq<Bot>, b: seq<Bot>)
    ensures GetBotIds(a + b) == GetBotIds(a) + GetBotIds(b)
  {
  }
}
