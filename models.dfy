/**
 * The entities the index implementations and the routes exchange with the
 * models layer: a bot and a pack as stored in the database, and the in-memory
 * live data (`update_live_data`, `remove_*_from_live`, `refresh_latest_data`),
 * whose implementation is not part of this model. The live data is recorded as
 * the log of calls made to it.
 */
module Models {
  import opened Wrappers
  import opened Ints

  /** A bot row; `JsSafeBigInt` ids and counters are i64, timestamps are integers. */
  datatype Bot = Bot(
    id: i64,
    username: string,
    avatar: Option<string>,
    discriminator: int,
    prefix: Option<string>,
    features: i64,
    tags: seq<string>,
    createdOn: int,
    ownerId: i64,
    coOwnerIds: set<i64>,
    guildCount: Option<int>,
    briefDescription: string,
    inviteUrl: string,
    isPackable: bool)

  /** A pack row (src/models/packs.rs); `tag` is the category name. */
  datatype Pack = Pack(
    id: i64,
    name: string,
    description: string,
    createdOn: int,
    tag: string,
    bots: seq<i64>,
    isHidden: bool,
    isForcedIntoHiding: bool,
    ownerId: i64,
    coOwnerIds: set<i64>)

  /** One call into the live data of entities of type `T`. */
  datatype LiveCall<T> = RemovedFromLive(id: i64) | UpdatedLive(item: T) | RefreshedLatest

  /** The live data, observed through the calls made to it, oldest first. */
  class LiveData<T> {
    var calls: seq<LiveCall<T>>

    constructor ()
      ensures calls == []
    {
      calls := [];
    }

    /** `remove_*_from_live(id)`. */
    method RemoveFromLive(id: i64)
      modifies this
      ensures calls == old(calls) + [RemovedFromLive(id)]
    {
      calls := calls + [RemovedFromLive(id)];
    }

    /** `update_live_data(item)`. */
    method UpdateLiveData(item: T)
      modifies this
      ensures calls == old(calls) + [UpdatedLive(item)]
    {
      calls := calls + [UpdatedLive(item)];
    }

    /** `refresh_latest_data()`: reloads from the database; `answer` is its result. */
    method RefreshLatestData(answer: Outcome<string>) returns (r: Outcome<string>)
      modifies this
      ensures r == answer && calls == old(calls) + [RefreshedLatest]
    {
      calls := calls + [RefreshedLatest];
      r := answer;
    }
  }
}
