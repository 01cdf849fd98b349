/**
 * The bot index (src/search/index_impls/bots.rs): its schema, the fields the
 * reader searches, and the writer ops each maintenance operation sends. The
 * database and the live data are parameters: `fetched` is what `Bot::fetch`
 * returned, `refreshed` what `refresh_latest_data` returned, `allBots` what
 * `all_bots` returned, and `toDoc` is `Bot::as_tantivy_doc`.
 */
module BotIndexes {
  import opened Wrappers
  import opened Ints
  import opened Tantivy
  import opened SearchQueries
  import opened SearchWriter
  import opened OnceCells
  import opened Models
  import opened Seqs

  const ID_FIELD := "id"
  const PREMIUM_FIELD := "premium"
  const FEATURES_FIELD := "features"
  const USERNAME_FIELD := "username"
  const DESCRIPTION_FIELD := "brief_description"
  const TAGS_FIELD := "tags"
  const MISSING_BOT := "Bot does not exist!"

  /** The schema `default_schema` builds. */
  const BOT_SCHEMA: Schema := [
    NumericEntry(ID_FIELD, I64Type, INDEXED_FAST_STORED),
    NumericEntry(FEATURES_FIELD, U64Type, INDEXED_FAST),
    NumericEntry(PREMIUM_FIELD, U64Type, INDEXED_FAST),
    TextEntry(USERNAME_FIELD, TEXT),
    TextEntry(DESCRIPTION_FIELD, TEXT),
    TextEntry(TAGS_FIELD, TEXT_FAST)]

  /** `default_schema`. */
  method DefaultSchema() returns (s: Schema)
    ensures |s| == 6
    ensures s[0] == FieldEntry(ID_FIELD, I64Type, NumericIndexed, true, true)
    ensures s[1] == FieldEntry(FEATURES_FIELD, U64Type, NumericIndexed, true, false)
    ensures s[2] == FieldEntry(PREMIUM_FIELD, U64Type, NumericIndexed, true, false)
    ensures s[3] == FieldEntry(USERNAME_FIELD, TextType, TextIndexed("default", WithFreqsAndPositions), false, false)
    ensures s[4] == FieldEntry(DESCRIPTION_FIELD, TextType, TextIndexed("default", WithFreqsAndPositions), false, false)
    ensures s[5] == FieldEntry(TAGS_FIELD, TextType, TextIndexed("default", WithFreqsAndPositions), true, false)
    ensures s == BOT_SCHEMA
  {
    var builder := new SchemaBuilder();
    var id := builder.AddI64Field(ID_FIELD, INDEXED_FAST_STORED);
    var features := builder.AddU64Field(FEATURES_FIELD, INDEXED_FAST);
    var premium := builder.AddU64Field(PREMIUM_FIELD, INDEXED_FAST);
    var username := builder.AddTextField(USERNAME_FIELD, TEXT);
    var description := builder.AddTextField(DESCRIPTION_FIELD, TEXT);
    var tags := builder.AddTextField(TAGS_FIELD, TEXT_FAST);
    s := builder.Build();
  }

  /** The schema names every field `create` looks up (each `get_field(..).unwrap()`). */
  predicate HasBotFields(s: Schema) {
    GetField(s, ID_FIELD).Some? && GetField(s, PREMIUM_FIELD).Some? && GetField(s, FEATURES_FIELD).Some? &&
    GetField(s, USERNAME_FIELD).Some? && GetField(s, DESCRIPTION_FIELD).Some? && GetField(s, TAGS_FIELD).Some?
  }

  /** The bot reader's `FieldContext`. */
  datatype FieldContext = FieldContext(idField: Field, premiumField: Field, tagsField: Field, featuresField: Field)

  /** What `create` hands to the bot reader's `init`: its field context and the fields queries search. */
  datatype ReaderSetup = ReaderSetup(ctx: FieldContext, searchFields: seq<Field>)

  /** The fields a bot query searches, in the order their clauses are boosted. */
  function SearchFields(s: Schema): (r: seq<Field>)
    requires HasBotFields(s)
    ensures |r| == 3 && r[0] < |s| && r[1] < |s| && r[2] < |s|
    ensures s[r[0]].name == USERNAME_FIELD && s[r[1]].name == DESCRIPTION_FIELD && s[r[2]].name == TAGS_FIELD
  {
    [GetField(s, USERNAME_FIELD).value, GetField(s, DESCRIPTION_FIELD).value, GetField(s, TAGS_FIELD).value]
  }

  function SetupFor(s: Schema): ReaderSetup
    requires HasBotFields(s)
  {
    ReaderSetup(FieldContext(GetField(s, ID_FIELD).value, GetField(s, PREMIUM_FIELD).value,
                             GetField(s, TAGS_FIELD).value, GetField(s, FEATURES_FIELD).value),
                SearchFields(s))
  }

  /** The term that names a bot's document. */
  function IdTerm(idField: Field, botId: i64): Term {
    Term(idField, I64(botId))
  }

  class BotIndex {
    const idField: Field
    const writer: Writer
    const schema: Schema

    constructor (idField: Field, writer: Writer, schema: Schema)
      ensures this.idField == idField && this.writer == writer && this.schema == schema
    {
      this.idField := idField;
      this.writer := writer;
      this.schema := schema;
    }

    /** `remove_bot`: deletes the bot's documents, then drops it from the live data if the op was sent. */
    method RemoveBot(botId: i64, live: LiveData<Bot>) returns (r: Outcome<string>)
      modifies writer, live
      ensures old(writer.Open()) ==> r == Pass && writer.sent == old(writer.sent) + [RemoveDocuments(IdTerm(idField, botId))]
                                     && live.calls == old(live.calls) + [RemovedFromLive(botId)]
      ensures !old(writer.Open()) ==> r == Fail(SHUTDOWN_ERROR) && writer.sent == old(writer.sent)
                                      && live.calls == old(live.calls)
    {
      var sent := writer.RemoveDocs(IdTerm(idField, botId));
      if sent.Fail? {
        return sent;
      }
      live.RemoveFromLive(botId);
      r := Pass;
    }

    /**
     * `upsert_bot` as written: adds the bot's current document without
     * deleting the one already indexed for its id, then updates the live data.
     */
    method UpsertBot(botId: i64, fetched: Result<Option<Bot>, string>, toDoc: (Schema, Bot) -> Doc, live: LiveData<Bot>)
      returns (r: Outcome<string>)
      modifies writer, live
      ensures fetched.Err? ==> r == Fail(fetched.error) && writer.sent == old(writer.sent) && live.calls == old(live.calls)
      ensures fetched == Ok(None) ==> r == Fail(MISSING_BOT) && writer.sent == old(writer.sent) && live.calls == old(live.calls)
      ensures fetched.Ok? && fetched.value.Some? && old(writer.Open()) ==>
        r == Pass && writer.sent == old(writer.sent) + [WriterOp.AddDocument(toDoc(schema, fetched.value.value))]
        && live.calls == old(live.calls) + [UpdatedLive(fetched.value.value)]
      ensures fetched.Ok? && fetched.value.Some? && !old(writer.Open()) ==>
        r == Fail(SHUTDOWN_ERROR) && writer.sent == old(writer.sent) && live.calls == old(live.calls)
    {
      if fetched.Err? {
        return Fail(fetched.error);
      }
      if fetched.value.None? {
        return Fail(MISSING_BOT);
      }
      var bot := fetched.value.value;
      var sent := writer.AddDocument(toDoc(schema, bot));
      if sent.Fail? {
        return sent;
      }
      live.UpdateLiveData(bot);
      r := Pass;
    }

    /** `upsert_bot` as intended: delete by the id term, then add, so the index keeps one document per bot. */
    method UpsertBotReplacing(botId: i64, fetched: Result<Option<Bot>, string>, toDoc: (Schema, Bot) -> Doc, live: LiveData<Bot>)
      returns (r: Outcome<string>)
      modifies writer, live
      ensures fetched.Err? ==> r == Fail(fetched.error) && writer.sent == old(writer.sent) && live.calls == old(live.calls)
      ensures fetched == Ok(None) ==> r == Fail(MISSING_BOT) && writer.sent == old(writer.sent) && live.calls == old(live.calls)
      ensures fetched.Ok? && fetched.value.Some? ==>
        var plan := [RemoveDocuments(IdTerm(idField, botId)), WriterOp.AddDocument(toDoc(schema, fetched.value.value))];
        var n := Taken(writer.lifetime, |old(writer.sent)|, 2);
        writer.sent == old(writer.sent) + plan[..n] &&
        (n == 2 ==> r == Pass && live.calls == old(live.calls) + [UpdatedLive(fetched.value.value)]) &&
        (n < 2 ==> r == Fail(SHUTDOWN_ERROR) && live.calls == old(live.calls))
    {
      if fetched.Err? {
        return Fail(fetched.error);
      }
      if fetched.value.None? {
        return Fail(MISSING_BOT);
      }
      var bot := fetched.value.value;
      ghost var plan := [RemoveDocuments(IdTerm(idField, botId)), WriterOp.AddDocument(toDoc(schema, bot))];
      var removed := writer.RemoveDocs(IdTerm(idField, botId));
      if removed.Fail? {
        assert plan[..0] == [];
        return removed;
      }
      var added := writer.AddDocument(toDoc(schema, bot));
      if added.Fail? {
        assert plan[..1] == [plan[0]];
        return added;
      }
      assert plan[..2] == plan;
      live.UpdateLiveData(bot);
      r := Pass;
    }

    /**
     * `full_refresh`: clear the index, reload the live data, then add one
     * document per bot in `all_bots` order; the first failure ends it. The
     * ops sent are the prefix of that plan the writer accepted.
     */
    method FullRefresh(refreshed: Outcome<string>, allBots: seq<Bot>, toDoc: (Schema, Bot) -> Doc, live: LiveData<Bot>)
      returns (r: Outcome<string>)
      modifies writer, live
      ensures var plan := [ClearAll] + (if refreshed.Pass? then AddOps(Documents(schema, allBots, toDoc)) else []);
        var n := Taken(writer.lifetime, |old(writer.sent)|, |plan|);
        writer.sent == old(writer.sent) + plan[..n] &&
        live.calls == old(live.calls) + (if n > 0 then [RefreshedLatest] else []) &&
        r == (if n == 0 then Fail(SHUTDOWN_ERROR)
              else if refreshed.Fail? then refreshed
              else if n == |plan| then Pass
              else Fail(SHUTDOWN_ERROR))
    {
      ghost var sent0 := writer.sent;
      var docs := Documents(schema, allBots, toDoc);
      ghost var plan := [ClearAll] + (if refreshed.Pass? then AddOps(docs) else []);
      var cleared := writer.ClearAllDocs();
      if cleared.Fail? {
        assert plan[..0] == [];
        return cleared;
      }
      assert writer.sent == sent0 + plan[..1];
      assert writer.lifetime.None? || |sent0| < writer.lifetime.value;
      var reloaded := live.RefreshLatestData(refreshed);
      ClearThenAddPrefix(writer.lifetime, |sent0|, docs);
      if reloaded.Fail? {
        assert plan == [ClearAll] && Taken(writer.lifetime, |sent0|, |plan|) == 1;
        return reloaded;
      }
      ghost var n := Taken(writer.lifetime, |sent0|, |plan|);
      assert plan == [ClearAll] + AddOps(docs);
      ghost var m := Taken(writer.lifetime, |sent0| + 1, |docs|);
      r := AddEach(writer, docs);
      assert writer.sent == (sent0 + [ClearAll]) + AddOps(docs)[..m];
      assert plan[..n] == [ClearAll] + AddOps(docs)[..m];
      ConcatAssoc(sent0, [ClearAll], AddOps(docs)[..m]);
      assert r == (if n == |plan| then Pass else Fail(SHUTDOWN_ERROR));
    }
  }

  /** `BotIndex::create`, given what `open_or_create` returned: the index's schema and writer, or its error. */
  method Create(openResult: Result<(Schema, Writer), string>) returns (r: Result<BotIndex, string>, setup: Option<ReaderSetup>)
    requires openResult.Ok? ==> HasBotFields(openResult.value.0)
    ensures openResult.Err? ==> r == Err(openResult.error) && setup == None
    ensures openResult.Ok? ==>
      r.Ok? && fresh(r.value) && r.value.schema == openResult.value.0 && r.value.writer == openResult.value.1 &&
      r.value.idField == GetField(openResult.value.0, ID_FIELD).value && setup == Some(SetupFor(openResult.value.0))
  {
    if openResult.Err? {
      return Err(openResult.error), None;
    }
    var (schema, writer) := openResult.value;
    var index := new BotIndex(GetField(schema, ID_FIELD).value, writer, schema);
    r := Ok(index);
    setup := Some(SetupFor(schema));
  }

  /** `init_index`: creates the index and stores it in the process-wide cell; a second store is ignored. */
  method InitIndex(cell: OnceCell<BotIndex>, openResult: Result<(Schema, Writer), string>)
    returns (r: Outcome<string>, setup: Option<ReaderSetup>)
    requires openResult.Ok? ==> HasBotFields(openResult.value.0)
    modifies cell
    ensures openResult.Err? ==> r == Fail(openResult.error) && cell.value == old(cell.value) && setup == None
    ensures openResult.Ok? ==> r == Pass && setup == Some(SetupFor(openResult.value.0))
    ensures openResult.Ok? && old(cell.value).Some? ==> cell.value == old(cell.value)
    ensures openResult.Ok? && old(cell.value).None? ==>
      cell.value.Some? && fresh(cell.value.value) && cell.value.value.schema == openResult.value.0 &&
      cell.value.value.writer == openResult.value.1
  {
    var created;
    created, setup := Create(openResult);
    if created.Err? {
      return Fail(created.error), setup;
    }
    var ignored := cell.Set(created.value);
    r := Pass;
  }

  /** `writer()`: the stored index; it panics before `init_index`, hence the precondition. */
  method WriterOf(cell: OnceCell<BotIndex>) returns (index: BotIndex)
    requires cell.value.Some?
    ensures index == cell.value.value
  {
    index := cell.Get();
  }

  // ---------------------------------------------------------------- properties

  /** A freshly built schema has every field `create` looks up; the search fields are username, brief description, tags. */
  lemma FreshSearchFields()
    ensures HasBotFields(BOT_SCHEMA) && SearchFields(BOT_SCHEMA) == [3, 4, 5]
  {
    assert BOT_SCHEMA[0].name == ID_FIELD && BOT_SCHEMA[1].name == FEATURES_FIELD && BOT_SCHEMA[2].name == PREMIUM_FIELD;
    assert BOT_SCHEMA[3].name == USERNAME_FIELD && BOT_SCHEMA[4].name == DESCRIPTION_FIELD && BOT_SCHEMA[5].name == TAGS_FIELD;
    assert GetField(BOT_SCHEMA, USERNAME_FIELD) == Some(3);
    assert GetField(BOT_SCHEMA, DESCRIPTION_FIELD) == Some(4);
    assert GetField(BOT_SCHEMA, TAGS_FIELD) == Some(5);
    assert GetField(BOT_SCHEMA, ID_FIELD) == Some(0);
    assert GetField(BOT_SCHEMA, FEATURES_FIELD) == Some(1);
    assert GetField(BOT_SCHEMA, PREMIUM_FIELD) == Some(2);
  }

  /**
   * On any schema with the bot fields, every query stage boosts the clause on
   * the username field most (1.0), then the description (0.9), then the tags
   * (0.8).
   */
  lemma UsernameBoostedMost(s: Schema, tokens: seq<string>)
    requires HasBotFields(s)
    ensures var stages := Stages(tokens, SearchFields(s));
      forall k :: 0 <= k < |stages| ==>
        stages[k].BooleanQuery? && |stages[k].clauses| == 3 &&
        BoostOf(stages[k].clauses[0]) == FIRST_BOOST_TENTHS &&
        BoostOf(stages[k].clauses[0]) > BoostOf(stages[k].clauses[1]) > BoostOf(stages[k].clauses[2]) &&
        FirstTermField(stages[k].clauses[0]) == Some(GetField(s, USERNAME_FIELD).value)
  {
    var fields := SearchFields(s);
    forall k | 0 <= k < |Stages(tokens, fields)|
      ensures var q := Stages(tokens, fields)[k];
        q.BooleanQuery? && |q.clauses| == 3 &&
        BoostOf(q.clauses[0]) == FIRST_BOOST_TENTHS &&
        BoostOf(q.clauses[0]) > BoostOf(q.clauses[1]) > BoostOf(q.clauses[2]) &&
        FirstTermField(q.clauses[0]) == Some(fields[0])
    {
      ThreeFieldStage(tokens, fields, k);
    }
  }

  /**
   * When the writer accepts the whole refresh, applying its ops leaves the
   * index holding exactly one document per bot, in `all_bots` order, whatever
   * it held before.
   */
  lemma FullRefreshRebuilds(pending: seq<Doc>, s: Schema, allBots: seq<Bot>, toDoc: (Schema, Bot) -> Doc)
    ensures ApplyAll(pending, [ClearAll] + AddOps(Documents(s, allBots, toDoc))) == Documents(s, allBots, toDoc)
  {
    ClearThenAddRebuilds(pending, Documents(s, allBots, toDoc));
  }

  /** As written, an upsert keeps every document already pending, the bot's old one included. */
  lemma UpsertKeepsOldDocuments(pending: seq<Doc>, doc: Doc)
    ensures ApplyAll(pending, [WriterOp.AddDocument(doc)]) == pending + [doc]
  {
    assert [WriterOp.AddDocument(doc)][..0] == [];
  }

  /**
   * The input that shows it: bot 1 is indexed and is upserted with a new
   * username; afterwards two documents carry the id term of bot 1.
   */
  lemma UpsertDuplicatesBot()
    ensures var before := Doc([(0, I64(1)), (3, Str("old"))]);
      var after := Doc([(0, I64(1)), (3, Str("new"))]);
      var docs := ApplyAll([before], [WriterOp.AddDocument(after)]);
      docs == [before, after] && docs[0].HasTerm(IdTerm(0, 1)) && docs[1].HasTerm(IdTerm(0, 1))
  {
    var before := Doc([(0, I64(1)), (3, Str("old"))]);
    var after := Doc([(0, I64(1)), (3, Str("new"))]);
    UpsertKeepsOldDocuments([before], after);
    assert before.entries[0] == (0, I64(1));
    assert after.entries[0] == (0, I64(1));
  }

  /**
   * The intended upsert (delete by id term, then add) leaves the new
   * document as the only one carrying the bot's id term.
   */
  lemma ReplacingUpsertKeepsOneCopy(pending: seq<Doc>, t: Term, doc: Doc)
    requires doc.HasTerm(t)
    ensures var docs := ApplyAll(pending, [RemoveDocuments(t), WriterOp.AddDocument(doc)]);
      docs == Without(pending, t) + [doc] &&
      forall k :: 0 <= k < |docs| && docs[k].HasTerm(t) ==> k == |docs| - 1
  {
    var ops := [RemoveDocuments(t), WriterOp.AddDocument(doc)];
    assert ops[..1][..0] == [];
    assert ops[..1] == [RemoveDocuments(t)];
    assert ApplyAll(pending, ops[..1]) == Apply(ApplyAll(pending, []), RemoveDocuments(t));
    assert ApplyAll(pending, ops[..1]) == Without(pending, t);
    var docs := ApplyAll(pending, ops);
    assert docs == Apply(ApplyAll(pending, ops[..1]), ops[1]);
  }
}
