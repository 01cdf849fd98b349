/**
 * The tag store of src/models/tags.rs: `fetch_bot_tags` and `fetch_pack_tags`
 * read a tag table and build a name-to-`Flag` map, and `refresh_*_tags`
 * install the map in the shared tag registry when the fetch succeeded. The
 * driver's answer to the SELECT is given as a value: the query error, or the
 * optional rows, each of which converts or fails.
 */
module Tags {
  import opened Wrappers
  import opened Maps

  const BOT_TAGS_QUERY: string := "SELECT name, category FROM bot_tags;"
  const PACK_TAGS_QUERY: string := "SELECT name FROM pack_tags;"

  /** `backend_common::tags::Flag`. */
  datatype Flag = Flag(category: string)

  /** The driver's answer to a SELECT of rows of type `T`. */
  type Answer<T> = Result<Option<seq<Result<T, string>>>, string>

  /** `collect::<Result<Vec<_>, _>>()`: every row, or the first conversion failure. */
  function CollectRows<T>(rows: seq<Result<T, string>>): (r: Result<seq<T>, string>)
    ensures r.Ok? <==> forall i :: 0 <= i < |rows| ==> rows[i].Ok?
    ensures r.Ok? ==> |r.value| == |rows| && forall i :: 0 <= i < |rows| ==> rows[i] == Ok(r.value[i])
    ensures r.Err? ==> exists i :: 0 <= i < |rows| && rows[i] == Err(r.error) && forall j :: 0 <= j < i ==> rows[j].Ok?
  {
    if rows == [] then Ok([])
    else match rows[0]
      case Err(e) => Err(e)
      case Ok(x) =>
        match CollectRows(rows[1..])
        case Err(e) =>
          var i :| 0 <= i < |rows| - 1 && rows[1..][i] == Err(e) && forall j :: 0 <= j < i ==> rows[1..][j].Ok?;
          assert rows[i + 1] == Err(e);
          Err(e)
        case Ok(xs) => Ok([x] + xs)
  }

  /** The rows of an answer, or its error; absent rows are no rows. */
  function RowsOf<T>(answer: Answer<T>): (r: Result<seq<T>, string>)
    ensures answer.Err? ==> r == Err(answer.error)
    ensures answer.Ok? && answer.value.None? ==> r == Ok([])
    ensures answer.Ok? && answer.value.Some? ==> r == CollectRows(answer.value.value)
  {
    match answer
    case Err(e) => Err(e)
    case Ok(rows) => CollectRows(rows.GetOr([]))
  }

  // ---------------------------------------------------------------- bot tags

  /** The pairs the bot-tag loop inserts, in row order. */
  function BotPairs(items: seq<(string, string)>): (r: seq<(string, Flag)>)
    ensures |r| == |items|
    ensures forall i :: 0 <= i < |items| ==> r[i] == (items[i].0, Flag(items[i].1))
  {
    if items == [] then [] else BotPairs(items[..|items| - 1]) + [(items[|items| - 1].0, Flag(items[|items| - 1].1))]
  }

  /** What `fetch_bot_tags` returns for the answer to `BOT_TAGS_QUERY`. */
  function BotTags(answer: Answer<(string, string)>): Result<map<string, Flag>, string> {
    match RowsOf(answer)
    case Err(e) => Err(e)
    case Ok(items) => Ok(FromPairs(BotPairs(items)))
  }

  /** `fetch_bot_tags`: collects the rows, then inserts `name -> Flag { category }` for each. */
  method FetchBotTags(answer: Answer<(string, string)>) returns (r: Result<map<string, Flag>, string>)
    ensures r == BotTags(answer)
  {
    var rows := RowsOf(answer);
    if rows.Err? {
      return Err(rows.error);
    }
    var items := rows.value;
    var m := map[];
    var i := 0;
    while i < |items|
      invariant i <= |items|
      invariant m == FromPairs(BotPairs(items[..i]))
    {
      var (name, category) := items[i];
      assert items[..i + 1] == items[..i] + [items[i]];
      assert BotPairs(items[..i + 1]) == BotPairs(items[..i]) + [(name, Flag(category))];
      FromPairsSnoc(BotPairs(items[..i]), (name, Flag(category)));
      m := m[name := Flag(category)];
      i := i + 1;
    }
    assert items[..i] == items;
    r := Ok(m);
  }

  /** When every row converts, the keys are exactly the names of the rows. */
  lemma BotTagsKeys(rows: seq<Result<(string, string), string>>)
    requires forall i :: 0 <= i < |rows| ==> rows[i].Ok?
    ensures BotTags(Ok(Some(rows))).Ok?
    ensures forall name :: name in BotTags(Ok(Some(rows))).value <==>
      exists i :: 0 <= i < |rows| && rows[i].value.0 == name
  {
    var items := CollectRows(rows).value;
    var ps := BotPairs(items);
    FromPairsKeys(ps);
    forall name
      ensures name in FromPairs(ps) <==> exists i :: 0 <= i < |rows| && rows[i].value.0 == name
    {
      if exists i :: 0 <= i < |rows| && rows[i].value.0 == name {
        var i :| 0 <= i < |rows| && rows[i].value.0 == name;
        assert ps[i].0 == name;
      }
      if name in FromPairs(ps) {
        var i :| 0 <= i < |ps| && ps[i].0 == name;
        assert rows[i].value.0 == name;
      }
    }
  }

  /** When every row converts, a name maps to the category of its last row. */
  lemma BotTagsLastCategory(rows: seq<Result<(string, string), string>>, i: nat)
    requires forall k :: 0 <= k < |rows| ==> rows[k].Ok?
    requires i < |rows| && forall j :: i < j < |rows| ==> rows[j].value.0 != rows[i].value.0
    ensures BotTags(Ok(Some(rows))).Ok?
    ensures rows[i].value.0 in BotTags(Ok(Some(rows))).value
    ensures BotTags(Ok(Some(rows))).value[rows[i].value.0] == Flag(rows[i].value.1)
  {
    var items := CollectRows(rows).value;
    FromPairsLast(BotPairs(items), i);
  }

  // ---------------------------------------------------------------- pack tags

  /** The pairs the pack-tag loop inserts: every name with the empty category. */
  function PackPairs(names: seq<string>): (r: seq<(string, Flag)>)
    ensures |r| == |names|
    ensures forall i :: 0 <= i < |names| ==> r[i] == (names[i], Flag(""))
  {
    if names == [] then [] else PackPairs(names[..|names| - 1]) + [(names[|names| - 1], Flag(""))]
  }

  /** What `fetch_pack_tags` returns for the answer to `PACK_TAGS_QUERY`. */
  function PackTags(answer: Answer<string>): Result<map<string, Flag>, string> {
    match RowsOf(answer)
    case Err(e) => Err(e)
    case Ok(names) => Ok(FromPairs(PackPairs(names)))
  }

  /** `fetch_pack_tags`: collects the rows, then inserts `name -> Flag { category: "" }` for each. */
  method FetchPackTags(answer: Answer<string>) returns (r: Result<map<string, Flag>, string>)
    ensures r == PackTags(answer)
  {
    var rows := RowsOf(answer);
    if rows.Err? {
      return Err(rows.error);
    }
    var names := rows.value;
    var m := map[];
    var i := 0;
    while i < |names|
      invariant i <= |names|
      invariant m == FromPairs(PackPairs(names[..i]))
    {
      assert names[..i + 1] == names[..i] + [names[i]];
      assert PackPairs(names[..i + 1]) == PackPairs(names[..i]) + [(names[i], Flag(""))];
      FromPairsSnoc(PackPairs(names[..i]), (names[i], Flag("")));
      m := m[names[i] := Flag("")];
      i := i + 1;
    }
    assert names[..i] == names;
    r := Ok(m);
  }

  /** When every row converts, the keys are exactly the names and every value has the empty category. */
  lemma PackTagsUncategorised(rows: seq<Result<string, string>>)
    requires forall i :: 0 <= i < |rows| ==> rows[i].Ok?
    ensures PackTags(Ok(Some(rows))).Ok?
    ensures forall name :: name in PackTags(Ok(Some(rows))).value <==>
      exists i :: 0 <= i < |rows| && rows[i].value == name
    ensures forall name :: name in PackTags(Ok(Some(rows))).value ==> PackTags(Ok(Some(rows))).value[name] == Flag("")
  {
    var names := CollectRows(rows).value;
    var ps := PackPairs(names);
    FromPairsKeys(ps);
    forall name | name in FromPairs(ps)
      ensures (exists i :: 0 <= i < |rows| && rows[i].value == name) && FromPairs(ps)[name] == Flag("")
    {
      var i :| 0 <= i < |ps| && ps[i].0 == name;
      assert rows[i].value == name;
      var last := LastIndexOf(names, i);
      FromPairsLast(ps, last);
    }
    forall name | exists i :: 0 <= i < |rows| && rows[i].value == name
      ensures name in FromPairs(ps)
    {
      var i :| 0 <= i < |rows| && rows[i].value == name;
      assert ps[i].0 == name;
    }
  }

  /** The last position holding the same name as position `i`. */
  lemma LastIndexOf(names: seq<string>, i: nat) returns (last: nat)
    requires i < |names|
    ensures i <= last < |names| && names[last] == names[i]
    ensures forall j :: last < j < |names| ==> names[j] != names[i]
    decreases |names| - i
  {
    if exists j :: i < j < |names| && names[j] == names[i] {
      var j :| i < j < |names| && names[j] == names[i];
      last := LastIndexOf(names, j);
    } else {
      last := i;
    }
  }

  // ---------------------------------------------------------------- failures

  /** A row that fails to convert fails the whole fetch, with its error; no partial map comes back. */
  lemma BadRowFailsFetch(good: seq<Result<(string, string), string>>, e: string, more: seq<Result<(string, string), string>>)
    requires forall i :: 0 <= i < |good| ==> good[i].Ok?
    ensures BotTags(Ok(Some(good + [Err(e)] + more))) == Err(e)
  {
    var rows := good + [Err(e)] + more;
    var c := CollectRows(rows);
    assert rows[|good|] == Err(e);
    assert !(forall i :: 0 <= i < |rows| ==> rows[i].Ok?);
    var i :| 0 <= i < |rows| && rows[i] == Err(c.error) && forall j :: 0 <= j < i ==> rows[j].Ok?;
    assert i == |good|;
  }

  /** No rows at all give an empty map. */
  lemma AbsentRowsGiveNoTags()
    ensures BotTags(Ok(None)) == Ok(map[])
    ensures PackTags(Ok(None)) == Ok(map[])
  {
    assert BotPairs([]) == [];
    assert PackPairs([]) == [];
  }

  // ---------------------------------------------------------------- refresh

  /** The process-wide tag registry of `backend_common::tags`. */
  class TagRegistry {
    var botTags: map<string, Flag>
    var packTags: map<string, Flag>

    constructor ()
      ensures botTags == map[] && packTags == map[]
    {
      botTags := map[];
      packTags := map[];
    }
  }

  /** `refresh_bot_tags`: installs the fetched bot tags, or leaves the registry alone and returns the error. */
  method RefreshBotTags(registry: TagRegistry, answer: Answer<(string, string)>) returns (r: Outcome<string>)
    modifies registry
    ensures BotTags(answer).Ok? ==> r == Pass && registry.botTags == BotTags(answer).value
    ensures BotTags(answer).Err? ==> r == Fail(BotTags(answer).error) && registry.botTags == old(registry.botTags)
    ensures registry.packTags == old(registry.packTags)
  {
    var tags := FetchBotTags(answer);
    if tags.Err? {
      return Fail(tags.error);
    }
    registry.botTags := tags.value;
    r := Pass;
  }

  /** `refresh_pack_tags`: installs the fetched pack tags, or leaves the registry alone and returns the error. */
  method RefreshPackTags(registry: TagRegistry, answer: Answer<string>) returns (r: Outcome<string>)
    modifies registry
    ensures PackTags(answer).Ok? ==> r == Pass && registry.packTags == PackTags(answer).value
    ensures PackTags(answer).Err? ==> r == Fail(PackTags(answer).error) && registry.packTags == old(registry.packTags)
    ensures registry.botTags == old(registry.botTags)
  {
    var tags := FetchPackTags(answer);
    if tags.Err? {
      return Fail(tags.error);
    }
    registry.packTags := tags.value;
    r := Pass;
  }
}
