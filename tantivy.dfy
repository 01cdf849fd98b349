/**
 * The parts of the tantivy library the core relies on, reduced to the values it
 * exchanges with them: fields, field values, terms, documents, document addresses
 * and schemas. Indexing, segments and scoring stay outside the model.
 */
module Tantivy {
  import opened Wrappers
  import opened Ints

  /** A field handle: its position in the schema. */
  type Field = nat

  datatype Value = I64(i: i64) | U64(u: u64) | Str(s: string)

  /** `Term::from_field_i64` / `Term::from_field_text`. */
  datatype Term = Term(field: Field, value: Value)

  /** A document: its (field, value) pairs in insertion order. */
  datatype Doc = Doc(entries: seq<(Field, Value)>) {

    /** `Document::get_first`: the first value stored for `f`. */
    function GetFirst(f: Field): (r: Option<Value>)
      ensures r.Some? <==> exists k :: 0 <= k < |entries| && entries[k].0 == f
      ensures r.Some? ==> exists k :: 0 <= k < |entries| && entries[k] == (f, r.value)
                            && forall j :: 0 <= j < k ==> entries[j].0 != f
      decreases |entries|
    {
      if entries == [] then None
      else if entries[0].0 == f then Some(entries[0].1)
      else
        var r := Doc(entries[1..]).GetFirst(f);
        assert forall k :: 1 <= k < |entries| ==> entries[k] == entries[1..][k - 1];
        r
    }

    /** The document holds the term, so `delete_term(term)` removes it. */
    predicate HasTerm(t: Term) {
      (t.field, t.value) in entries
    }
  }

  /** `DocAddress`: segment ordinal and document id within it. */
  datatype DocAddress = DocAddress(segment: nat, doc: nat)

  datatype FieldType = I64Type | U64Type | TextType

  datatype IndexRecordOption = Basic | WithFreqs | WithFreqsAndPositions

  /** How a field is indexed: not at all, as a number, or tokenized text. */
  datatype Indexing = NotIndexed | NumericIndexed | TextIndexed(tokenizer: string, record: IndexRecordOption)

  datatype FieldEntry = FieldEntry(name: string, fieldType: FieldType, indexing: Indexing, fast: bool, stored: bool)

  /** Numeric options: the flags `INDEXED`, `FAST`, `STORED` combined with `|`. */
  datatype NumericOptions = NumericOptions(indexed: bool, fast: bool, stored: bool)

  /** Text options: `TEXT` (default tokenizer, positions), optionally with `FAST`/`STORED`. */
  datatype TextOptions = TextOptions(indexing: Option<(string, IndexRecordOption)>, fast: bool, stored: bool)

  const INDEXED_FAST_STORED := NumericOptions(true, true, true)
  const INDEXED_FAST := NumericOptions(true, true, false)
  const TEXT := TextOptions(Some(("default", WithFreqsAndPositions)), false, false)
  const TEXT_FAST := TextOptions(Some(("default", WithFreqsAndPositions)), true, false)

  type Schema = seq<FieldEntry>

  /** `Schema::get_field`: the handle of the first field with that name. */
  function GetField(schema: Schema, name: string): (r: Option<Field>)
    ensures r.Some? ==> r.value < |schema| && schema[r.value].name == name
                        && forall j :: 0 <= j < r.value ==> schema[j].name != name
    ensures r.None? ==> forall j :: 0 <= j < |schema| ==> schema[j].name != name
    decreases |schema|
  {
    if schema == [] then None
    else if schema[0].name == name then Some(0)
    else match GetField(schema[1..], name)
      case None => None
      case Some(f) => Some(f + 1)
  }

  /** `SchemaBuilder`: fields are numbered in the order they are added. */
  class SchemaBuilder {
    var fields: seq<FieldEntry>

    constructor ()
      ensures fields == []
    {
      fields := [];
    }

    method AddI64Field(name: string, opts: NumericOptions) returns (f: Field)
      modifies this
      ensures f == |old(fields)|
      ensures fields == old(fields) + [NumericEntry(name, I64Type, opts)]
    {
      f := |fields|;
      fields := fields + [NumericEntry(name, I64Type, opts)];
    }

    method AddU64Field(name: string, opts: NumericOptions) returns (f: Field)
      modifies this
      ensures f == |old(fields)|
      ensures fields == old(fields) + [NumericEntry(name, U64Type, opts)]
    {
      f := |fields|;
      fields := fields + [NumericEntry(name, U64Type, opts)];
    }

    method AddTextField(name: string, opts: TextOptions) returns (f: Field)
      modifies this
      ensures f == |old(fields)|
      ensures fields == old(fields) + [TextEntry(name, opts)]
    {
      f := |fields|;
      fields := fields + [TextEntry(name, opts)];
    }

    method Build() returns (s: Schema)
      ensures s == fields
    {
      s := fields;
    }
  }

  function NumericEntry(name: string, t: FieldType, opts: NumericOptions): FieldEntry {
    FieldEntry(name, t, if opts.indexed then NumericIndexed else NotIndexed, opts.fast, opts.stored)
  }

  function TextEntry(name: string, opts: TextOptions): FieldEntry {
    var indexing := match opts.indexing
      case None => NotIndexed
      case Some((tokenizer, record)) => TextIndexed(tokenizer, record);
    FieldEntry(name, TextType, indexing, opts.fast, opts.stored)
  }
}
