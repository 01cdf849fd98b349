/**
 * The pack index (src/search/index_impls/packs.rs): its schema, the fields the
 * reader searches, and what each maintenance operation sends. As for bots, the
 * database and the live data are parameters: `fetched` is what `Pack::fetch`
 * returned, `refreshed` what `refresh_latest_data` returned, `allPacks` what
 * `all_packs` returned, and `toDoc` is `Pack::as_tantivy_doc`.
 */
module PackIndexes {
  import opened Wrappers
  import opened Ints
  import opened Tantivy
  import opened SearchQueries
  import opened SearchWriter
  import opened OnceCells
  import opened Models
  import opened Seqs

  const ID_FIELD := "id"
  const NAME_FIELD := "name"
  const DESCRIPTION_FIELD := "description"
  const TAG_FIELD := "tag"
  const TAG_AGG_FIELD := "tag_agg"
  /** The message a missing pack is reported with (it names bots). */
  const MISSING_PACK := "Bot does not exist!"

  /** `TextOptions::default().set_fast()` indexed with the raw tokenizer and `IndexRecordOption::Basic`. */
  const RAW_FAST := TextOptions(Some(("raw", Basic)), true, false)

  /** The schema `default_schema` builds. */
  const PACK_SCHEMA: Schema := [
    NumericEntry(ID_FIELD, I64Type, INDEXED_FAST_STORED),
    TextEntry(NAME_FIELD, TEXT),
    TextEntry(DESCRIPTION_FIELD, TEXT),
    TextEntry(TAG_FIELD, TEXT_FAST),
    TextEntry(TAG_AGG_FIELD, RAW_FAST)]

  /** `default_schema`. */
  method DefaultSchema() returns (s: Schema)
    ensures |s| == 5
    ensures s[0] == FieldEntry(ID_FIELD, I64Type, NumericIndexed, true, true)
    ensures s[1] == FieldEntry(NAME_FIELD, TextType, TextIndexed("default", WithFreqsAndPositions), false, false)
    ensures s[2] == FieldEntry(DESCRIPTION_FIELD, TextType, TextIndexed("default", WithFreqsAndPositions), false, false)
    ensures s[3] == FieldEntry(TAG_FIELD, TextType, TextIndexed("default", WithFreqsAndPositions), true, false)
    ensures s[4] == FieldEntry(TAG_AGG_FIELD, TextType, TextIndexed("raw", Basic), true, false)
    ensures s == PACK_SCHEMA
  {
    var builder := new SchemaBuilder();
    var id := builder.AddI64Field(ID_FIELD, INDEXED_FAST_STORED);
    var name := builder.AddTextField(NAME_FIELD, TEXT);
    var description := builder.AddTextField(DESCRIPTION_FIELD, TEXT);
    var tag := builder.AddTextField(TAG_FIELD, TEXT_FAST);
    var tagAgg := builder.AddTextField(TAG_AGG_FIELD, RAW_FAST);
    s := builder.Build();
  }

  /** The schema names every field `create` looks up (each `get_field(..).unwrap()`). */
  predicate HasPackFields(s: Schema) {
    GetField(s, ID_FIELD).Some? && GetField(s, NAME_FIELD).Some? && GetField(s, DESCRIPTION_FIELD).Some? &&
    GetField(s, TAG_FIELD).Some? && GetField(s, TAG_AGG_FIELD).Some?
  }

  /** The pack reader's `FieldContext`. */
  datatype FieldContext = FieldContext(idField: Field, tagAggField: Field)

  /** What `create` hands to the pack reader's `init`: its field context and the fields queries search. */
  datatype ReaderSetup = ReaderSetup(ctx: FieldContext, searchFields: seq<Field>)

  /** The fields a pack query searches, in the order their clauses are boosted. */
  function SearchFields(s: Schema): (r: seq<Field>)
    requires HasPackFields(s)
    ensures |r| == 3 && r[0] < |s| && r[1] < |s| && r[2] < |s|
    ensures s[r[0]].name == NAME_FIELD && s[r[1]].name == DESCRIPTION_FIELD && s[r[2]].name == TAG_FIELD
  {
    [GetField(s, NAME_FIELD).value, GetField(s, DESCRIPTION_FIELD).value, GetField(s, TAG_FIELD).value]
  }

  function SetupFor(s: Schema): ReaderSetup
    requires HasPackFields(s)
  {
    ReaderSetup(FieldContext(GetField(s, ID_FIELD).value, GetField(s, TAG_AGG_FIELD).value), SearchFields(s))
  }

  /** The term that names a pack's document. */
  function IdTerm(idField: Field, packId: i64): Term {
    Term(idField, I64(packId))
  }

  /**
   * A call of `Writer::add_and_replace_document(term, doc)`. The writer in
   * src/search/writer.rs defines no such method, so the model records the
   * call and takes its answer as given.
   */
  datatype ReplaceCall = ReplaceCall(term: Term, doc: Doc)

  class PackIndex {
    const idField: Field
    const writer: Writer
    const schema: Schema

    constructor (idField: Field, writer: Writer, schema: Schema)
      ensures this.idField == idField && this.writer == writer && this.schema == schema
    {
      this.idField := idField;
      this.writer := writer;
      this.schema := schema;
    }

    /** `remove_pack`: deletes the pack's documents, then drops it from the live data if the op was sent. */
    method RemovePack(packId: i64, live: LiveData<Pack>) returns (r: Outcome<string>)
      modifies writer, live
      ensures old(writer.Open()) ==> r == Pass && writer.sent == old(writer.sent) + [RemoveDocuments(IdTerm(idField, packId))]
                                     && live.calls == old(live.calls) + [RemovedFromLive(packId)]
      ensures !old(writer.Open()) ==> r == Fail(SHUTDOWN_ERROR) && writer.sent == old(writer.sent)
                                      && live.calls == old(live.calls)
    {
      var sent := writer.RemoveDocs(IdTerm(idField, packId));
      if sent.Fail? {
        return sent;
      }
      live.RemoveFromLive(packId);
      r := Pass;
    }

    /**
     * `upsert_pack`: replaces the document under the pack's id term through
     * `add_and_replace_document`, then updates the live data if that call
     * succeeded. `replaced` is that call's answer.
     */
    method UpsertPack(packId: i64, fetched: Result<Option<Pack>, string>, toDoc: (Schema, Pack) -> Doc,
                      replaced: Outcome<string>, live: LiveData<Pack>)
      returns (r: Outcome<string>, call: Option<ReplaceCall>)
      modifies live
      ensures fetched.Err? ==> r == Fail(fetched.error) && call == None && live.calls == old(live.calls)
      ensures fetched == Ok(None) ==> r == Fail(MISSING_PACK) && call == None && live.calls == old(live.calls)
      ensures fetched.Ok? && fetched.value.Some? ==>
        r == replaced &&
        call == Some(ReplaceCall(IdTerm(idField, packId), toDoc(schema, fetched.value.value))) &&
        live.calls == old(live.calls) + (if replaced.Pass? then [UpdatedLive(fetched.value.value)] else [])
    {
      if fetched.Err? {
        return Fail(fetched.error), None;
      }
      if fetched.value.None? {
        return Fail(MISSING_PACK), None;
      }
      var pack := fetched.value.value;
      call := Some(ReplaceCall(IdTerm(idField, packId), toDoc(schema, pack)));
      if replaced.Fail? {
        return replaced, call;
      }
      live.UpdateLiveData(pack);
      r := Pass;
    }

    /**
     * `full_refresh`: clear the index, reload the live data, then add one
     * document per pack in `all_packs` order; the first failure ends it. The
     * ops sent are the prefix of that plan the writer accepted.
     */
    method FullRefresh(refreshed: Outcome<string>, allPacks: seq<Pack>, toDoc: (Schema, Pack) -> Doc, live: LiveData<Pack>)
      returns (r: Outcome<string>)
      modifies writer, live
      ensures var plan := [ClearAll] + (if refreshed.Pass? then AddOps(Documents(schema, allPacks, toDoc)) else []);
        var n := Taken(writer.lifetime, |old(writer.sent)|, |plan|);
        writer.sent == old(writer.sent) + plan[..n] &&
        live.calls == old(live.calls) + (if n > 0 then [RefreshedLatest] else []) &&
        r == (if n == 0 then Fail(SHUTDOWN_ERROR)
              else if refreshed.Fail? then refreshed
              else if n == |plan| then Pass
              else Fail(SHUTDOWN_ERROR))
    {
      ghost var sent0 := writer.sent;
      var docs := Documents(schema, allPacks, toDoc);
      ghost var plan := [ClearAll] + (if refreshed.Pass? then AddOps(docs) else []);
      var cleared := writer.ClearAllDocs();
      if cleared.Fail? {
        assert plan[..0] == [];
        return cleared;
      }
      assert writer.sent == sent0 + plan[..1];
      assert writer.lifetime.None? || |sent0| < writer.lifetime.value;
      var reloaded := live.RefreshLatestData(refreshed);
      ClearThenAddPrefix(writer.lifetime, |sent0|, docs);
      if reloaded.Fail? {
        assert plan == [ClearAll] && Taken(writer.lifetime, |sent0|, |plan|) == 1;
        return reloaded;
      }
      ghost var n := Taken(writer.lifetime, |sent0|, |plan|);
      assert plan == [ClearAll] + AddOps(docs);
      ghost var m := Taken(writer.lifetime, |sent0| + 1, |docs|);
      r := AddEach(writer, docs);
      assert writer.sent == (sent0 + [ClearAll]) + AddOps(docs)[..m];
      assert plan[..n] == [ClearAll] + AddOps(docs)[..m];
      ConcatAssoc(sent0, [ClearAll], AddOps(docs)[..m]);
      assert r == (if n == |plan| then Pass else Fail(SHUTDOWN_ERROR));
    }
  }

  /** `PackIndex::create`, given what `open_or_create` returned: the index's schema and writer, or its error. */
  method Create(openResult: Result<(Schema, Writer), string>) returns (r: Result<PackIndex, string>, setup: Option<ReaderSetup>)
    requires openResult.Ok? ==> HasPackFields(openResult.value.0)
    ensures openResult.Err? ==> r == Err(openResult.error) && setup == None
    ensures openResult.Ok? ==>
      r.Ok? && fresh(r.value) && r.value.schema == openResult.value.0 && r.value.writer == openResult.value.1 &&
      r.value.idField == GetField(openResult.value.0, ID_FIELD).value && setup == Some(SetupFor(openResult.value.0))
  {
    if openResult.Err? {
      return Err(openResult.error), None;
    }
    var (schema, writer) := openResult.value;
    var index := new PackIndex(GetField(schema, ID_FIELD).value, writer, schema);
    r := Ok(index);
    setup := Some(SetupFor(schema));
  }

  /** `init_index`: creates the index and stores it in the process-wide cell; a second store is ignored. */
  method InitIndex(cell: OnceCell<PackIndex>, openResult: Result<(Schema, Writer), string>)
    returns (r: Outcome<string>, setup: Option<ReaderSetup>)
    requires openResult.Ok? ==> HasPackFields(openResult.value.0)
    modifies cell
    ensures openResult.Err? ==> r == Fail(openResult.error) && cell.value == old(cell.value) && setup == None
    ensures openResult.Ok? ==> r == Pass && setup == Some(SetupFor(openResult.value.0))
    ensures openResult.Ok? && old(cell.value).Some? ==> cell.value == old(cell.value)
    ensures openResult.Ok? && old(cell.value).None? ==>
      cell.value.Some? && fresh(cell.value.value) && cell.value.value.schema == openResult.value.0 &&
      cell.value.value.writer == openResult.value.1
  {
    var created;
    created, setup := Create(openResult);
    if created.Err? {
      return Fail(created.error), setup;
    }
    var ignored := cell.Set(created.value);
    r := Pass;
  }

  /** `writer()`: the stored index; it panics before `init_index`, hence the precondition. */
  method WriterOf(cell: OnceCell<PackIndex>) returns (index: PackIndex)
    requires cell.value.Some?
    ensures index == cell.value.value
  {
    index := cell.Get();
  }

  // ---------------------------------------------------------------- properties

  /** A freshly built schema has every field `create` looks up; the search fields are name, description, tag. */
  lemma FreshSearchFields()
    ensures HasPackFields(PACK_SCHEMA) && SearchFields(PACK_SCHEMA) == [1, 2, 3]
    ensures GetField(PACK_SCHEMA, ID_FIELD) == Some(0) && GetField(PACK_SCHEMA, TAG_AGG_FIELD) == Some(4)
  {
    assert PACK_SCHEMA[0].name == ID_FIELD && PACK_SCHEMA[1].name == NAME_FIELD && PACK_SCHEMA[2].name == DESCRIPTION_FIELD;
    assert PACK_SCHEMA[3].name == TAG_FIELD && PACK_SCHEMA[4].name == TAG_AGG_FIELD;
    assert GetField(PACK_SCHEMA, ID_FIELD) == Some(0);
    assert GetField(PACK_SCHEMA, NAME_FIELD) == Some(1);
    assert GetField(PACK_SCHEMA, DESCRIPTION_FIELD) == Some(2);
    assert GetField(PACK_SCHEMA, TAG_FIELD) == Some(3);
    assert GetField(PACK_SCHEMA, TAG_AGG_FIELD) == Some(4);
  }

  /**
   * On any schema with the pack fields, every query stage boosts the clause on
   * the name field most (1.0), then the description (0.9), then the tag (0.8).
   */
  lemma NameBoostedMost(s: Schema, tokens: seq<string>)
    requires HasPackFields(s)
    ensures var stages := Stages(tokens, SearchFields(s));
      forall k :: 0 <= k < |stages| ==>
        stages[k].BooleanQuery? && |stages[k].clauses| == 3 &&
        BoostOf(stages[k].clauses[0]) == FIRST_BOOST_TENTHS &&
        BoostOf(stages[k].clauses[0]) > BoostOf(stages[k].clauses[1]) > BoostOf(stages[k].clauses[2]) &&
        FirstTermField(stages[k].clauses[0]) == Some(GetField(s, NAME_FIELD).value)
  {
    var fields := SearchFields(s);
    forall k | 0 <= k < |Stages(tokens, fields)|
      ensures var q := Stages(tokens, fields)[k];
        q.BooleanQuery? && |q.clauses| == 3 &&
        BoostOf(q.clauses[0]) == FIRST_BOOST_TENTHS &&
        BoostOf(q.clauses[0]) > BoostOf(q.clauses[1]) > BoostOf(q.clauses[2]) &&
        FirstTermField(q.clauses[0]) == Some(fields[0])
    {
      ThreeFieldStage(tokens, fields, k);
    }
  }

  /**
   * When the writer accepts the whole refresh, applying its ops leaves the
   * index holding exactly one document per pack, in `all_packs` order,
   * whatever it held before.
   */
  lemma FullRefreshRebuilds(pending: seq<Doc>, s: Schema, allPacks: seq<Pack>, toDoc: (Schema, Pack) -> Doc)
    ensures ApplyAll(pending, [ClearAll] + AddOps(Documents(s, allPacks, toDoc))) == Documents(s, allPacks, toDoc)
  {
    ClearThenAddRebuilds(pending, Documents(s, allPacks, toDoc));
  }
}
