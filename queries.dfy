/**
 * Query staging (src/search/queries.rs). The tokens of a query become up to
 * three fuzzy stages. Stage k keeps the tokens at least CUT_OFFS[k] bytes long
 * and, for each search field, builds one `Should` fuzzy prefix clause per kept
 * token. Field i's clause list is boosted by 1.0 - 0.10 * i, written here in
 * tenths as 10 - i.
 */
module SearchQueries {
  import opened Wrappers
  import opened Tantivy

  /** `SimpleUnicodeTokenizer::with_limit(10)`. */
  const TOKEN_LIMIT: nat := 10
  const FIRST_BOOST_TENTHS: int := 10

  datatype Occur = Should

  datatype Query =
    | FuzzyPrefix(term: Term, distance: nat, transpositionCostOne: bool)
    | BooleanQuery(clauses: seq<Clause>)
    | BoostQuery(inner: Query, boostTenths: int)

  datatype Clause = Clause(occur: Occur, query: Query)

  /** The number of bytes of the UTF-8 encoding of `c` (Rust's `char::len_utf8`). */
  function Utf8CharLen(c: char): nat {
    if c as int < 0x80 then 1 else if c as int < 0x800 then 2 else if c as int < 0x10000 then 3 else 4
  }

  /** Rust's `str::len`: the byte length of the UTF-8 encoding. */
  function Utf8Len(s: string): (n: nat)
    ensures |s| <= n <= 4 * |s|
  {
    if s == [] then 0 else Utf8CharLen(s[0]) + Utf8Len(s[1..])
  }

  /** The tokens a stage with this cut-off uses, in token order. */
  function Kept(tokens: seq<string>, cutOff: nat): seq<string>
    decreases |tokens|
  {
    if tokens == [] then []
    else
      var last := tokens[|tokens| - 1];
      Kept(tokens[..|tokens| - 1], cutOff) + (if Utf8Len(last) >= cutOff then [last] else [])
  }

  /** The clauses of one field: a fuzzy prefix query per kept token. */
  function FieldClauses(field: Field, kept: seq<string>, dist: nat): (r: seq<Clause>)
    ensures |r| == |kept|
    decreases |kept|
  {
    if kept == [] then []
    else FieldClauses(field, kept[..|kept| - 1], dist) + [TokenClause(field, kept[|kept| - 1], dist)]
  }

  function TokenClause(field: Field, token: string, dist: nat): Clause {
    Clause(Should, FuzzyPrefix(Term(field, Str(token)), dist, true))
  }

  /** The outer clause of field number i. */
  function FieldQuery(clauses: seq<Clause>, i: nat): Clause {
    Clause(Should, BoostQuery(BooleanQuery(clauses), FIRST_BOOST_TENTHS - i))
  }

  /** The query `build_fuzzy_stage` returns, or None when no token reaches the cut-off. */
  function Stage(dist: nat, cutOff: nat, fields: seq<Field>, tokens: seq<string>): Option<Query> {
    var kept := Kept(tokens, cutOff);
    if kept == [] then None
    else Some(BooleanQuery(seq(|fields|, i requires 0 <= i < |fields| => FieldQuery(FieldClauses(fields[i], kept, dist), i))))
  }

  const DISTANCES: seq<nat> := [0, 1, 2]
  const CUT_OFFS: seq<nat> := [0, 4, 8]

  function Present(q: Option<Query>): seq<Query> {
    if q.Some? then [q.value] else []
  }

  /** The stages `parse_query` returns. */
  function Stages(tokens: seq<string>, fields: seq<Field>): seq<Query> {
    Present(Stage(0, 0, fields, tokens)) + Present(Stage(1, 4, fields, tokens)) + Present(Stage(2, 8, fields, tokens))
  }

  // ---------------------------------------------------------------- properties

  /** A stage keeps exactly the tokens whose byte length reaches the cut-off, and never more tokens than it got. */
  lemma {:induction false} KeptExactly(tokens: seq<string>, cutOff: nat)
    ensures forall t :: t in Kept(tokens, cutOff) <==> t in tokens && Utf8Len(t) >= cutOff
    ensures |Kept(tokens, cutOff)| <= |tokens|
    ensures cutOff == 0 ==> Kept(tokens, cutOff) == tokens
    decreases |tokens|
  {
    if tokens != [] {
      var m := |tokens| - 1;
      KeptExactly(tokens[..m], cutOff);
      assert tokens == tokens[..m] + [tokens[m]];
    }
  }

  /** A token kept at a higher cut-off is kept at every lower one. */
  lemma {:induction false} KeptAntitone(tokens: seq<string>, lo: nat, hi: nat)
    requires lo <= hi
    ensures Kept(tokens, hi) != [] ==> Kept(tokens, lo) != []
    ensures |Kept(tokens, hi)| <= |Kept(tokens, lo)|
    decreases |tokens|
  {
    if tokens != [] {
      KeptAntitone(tokens[..|tokens| - 1], lo, hi);
    }
  }

  /**
   * `parse_query` yields at most three stages. They are a prefix of the stages
   * (dist 0, cut-off 0), (1, 4), (2, 8): a later stage present means every earlier
   * one is, and no tokens means no stages.
   */
  lemma StagesArePrefix(tokens: seq<string>, fields: seq<Field>)
    ensures var s := Stages(tokens, fields);
      |s| <= 3 &&
      (forall k :: 0 <= k < |s| ==> Stage(DISTANCES[k], CUT_OFFS[k], fields, tokens) == Some(s[k])) &&
      (forall k :: |s| <= k < 3 ==> Stage(DISTANCES[k], CUT_OFFS[k], fields, tokens).None?)
    ensures tokens == [] ==> Stages(tokens, fields) == []
  {
    KeptAntitone(tokens, 0, 4);
    KeptAntitone(tokens, 4, 8);
    KeptAntitone(tokens, 0, 8);
    assert Kept([], 0) == [];
  }

  /** The boost of clause i of a stage. */
  function BoostOf(c: Clause): int {
    if c.query.BoostQuery? then c.query.boostTenths else 0
  }

  /**
   * A stage has one clause per field, in field order. Field i's clause is boost
   * 10 - i (in tenths) over `|kept|` fuzzy prefix clauses on that field, one per
   * kept token in token order, each with the stage's distance and transposition
   * cost one. Boosts strictly decrease, so the first field weighs most.
   */
  lemma StageShape(dist: nat, cutOff: nat, fields: seq<Field>, tokens: seq<string>, i: nat, j: nat)
    requires Stage(dist, cutOff, fields, tokens).Some?
    requires i < |fields|
    ensures var q := Stage(dist, cutOff, fields, tokens).value; var kept := Kept(tokens, cutOff);
      q.BooleanQuery? && |q.clauses| == |fields| &&
      q.clauses[i].occur == Should &&
      q.clauses[i].query == BoostQuery(BooleanQuery(q.clauses[i].query.inner.clauses), 10 - i) &&
      |q.clauses[i].query.inner.clauses| == |kept| > 0 &&
      (j < |kept| ==> q.clauses[i].query.inner.clauses[j] == Clause(Should, FuzzyPrefix(Term(fields[i], Str(kept[j])), dist, true))) &&
      (forall k :: 0 <= k < i ==> BoostOf(q.clauses[k]) > BoostOf(q.clauses[i]))
  {
    var kept := Kept(tokens, cutOff);
    if j < |kept| {
      FieldClausesAt(fields[i], kept, dist, j);
    }
  }

  /** The field of the first fuzzy term under a boosted per-field clause. */
  function FirstTermField(c: Clause): Option<Field> {
    match c.query
    case BoostQuery(BooleanQuery(cs), _) =>
      if cs != [] && cs[0].query.FuzzyPrefix? then Some(cs[0].query.term.field) else None
    case _ => None
  }

  /** Stage `k` of a query over three fields has one clause per field, boosted 1.0, 0.9 and 0.8, the first on `fields[0]`. */
  lemma ThreeFieldStage(tokens: seq<string>, fields: seq<Field>, k: nat)
    requires |fields| == 3 && k < |Stages(tokens, fields)|
    ensures var q := Stages(tokens, fields)[k];
      q.BooleanQuery? && |q.clauses| == 3 &&
      BoostOf(q.clauses[0]) == FIRST_BOOST_TENTHS &&
      BoostOf(q.clauses[0]) > BoostOf(q.clauses[1]) > BoostOf(q.clauses[2]) &&
      FirstTermField(q.clauses[0]) == Some(fields[0])
  {
    StagesArePrefix(tokens, fields);
    StageShape(DISTANCES[k], CUT_OFFS[k], fields, tokens, 0, 0);
    StageShape(DISTANCES[k], CUT_OFFS[k], fields, tokens, 1, 0);
    StageShape(DISTANCES[k], CUT_OFFS[k], fields, tokens, 2, 0);
  }

  lemma {:induction false} FieldClausesAt(field: Field, kept: seq<string>, dist: nat, j: nat)
    requires j < |kept|
    ensures FieldClauses(field, kept, dist)[j] == TokenClause(field, kept[j], dist)
    decreases |kept|
  {
    if j < |kept| - 1 {
      FieldClausesAt(field, kept[..|kept| - 1], dist, j);
    }
  }

  // ---------------------------------------------------------------- imperative model

  /** The tokenizer's stream over a query: consumed by `next`, rewound by `reset`. */
  class TokenStream {
    const tokens: seq<string>
    var pos: nat

    constructor (tokens: seq<string>)
      ensures this.tokens == tokens && pos == 0
    {
      this.tokens := tokens;
      pos := 0;
    }

    method Next() returns (t: Option<string>)
      requires pos <= |tokens|
      modifies this
      ensures old(pos) < |tokens| ==> t == Some(tokens[old(pos)]) && pos == old(pos) + 1
      ensures old(pos) == |tokens| ==> t == None && pos == old(pos)
    {
      if pos < |tokens| {
        t := Some(tokens[pos]);
        pos := pos + 1;
      } else {
        t := None;
      }
    }

    method Reset()
      modifies this
      ensures pos == 0
    {
      pos := 0;
    }
  }

  /** `build_fuzzy_stage`: the stream is consumed and then reset, so every stage sees the same tokens. */
  method BuildFuzzyStage(dist: nat, cutOff: nat, fields: seq<Field>, stream: TokenStream) returns (q: Option<Query>)
    requires |fields| > 0
    requires stream.pos == 0
    modifies stream
    ensures stream.pos == 0
    ensures q == Stage(dist, cutOff, fields, stream.tokens)
  {
    var stage: seq<seq<Clause>> := [];
    for n := 0 to |fields|
      invariant |stage| == n
      invariant forall k :: 0 <= k < n ==> stage[k] == []
    {
      stage := stage + [[]];
    }
    assert stream.tokens[..0] == [];
    while true
      invariant stream.pos <= |stream.tokens|
      invariant |stage| == |fields|
      invariant forall k :: 0 <= k < |fields| ==>
        stage[k] == FieldClauses(fields[k], Kept(stream.tokens[..stream.pos], cutOff), dist)
      decreases |stream.tokens| - stream.pos
    {
      var token := stream.Next();
      if token.None? {
        break;
      }
      ghost var seen := stream.tokens[..stream.pos];
      assert seen[..|seen| - 1] == stream.tokens[..stream.pos - 1];
      assert seen[|seen| - 1] == token.value;
      if Utf8Len(token.value) < cutOff {
        assert Kept(seen, cutOff) == Kept(stream.tokens[..stream.pos - 1], cutOff);
        continue;
      }
      ghost var kept := Kept(seen, cutOff);
      assert kept == Kept(stream.tokens[..stream.pos - 1], cutOff) + [token.value];
      assert kept[..|kept| - 1] == Kept(stream.tokens[..stream.pos - 1], cutOff);
      for i := 0 to |fields|
        invariant |stage| == |fields|
        invariant forall k :: 0 <= k < i ==> stage[k] == FieldClauses(fields[k], kept, dist)
        invariant forall k :: i <= k < |fields| ==> stage[k] == FieldClauses(fields[k], kept[..|kept| - 1], dist)
      {
        stage := stage[i := stage[i] + [TokenClause(fields[i], token.value, dist)]];
      }
    }
    assert stream.tokens[..stream.pos] == stream.tokens;
    stream.Reset();

    assert |stage[0]| == |Kept(stream.tokens, cutOff)|;
    if stage[0] == [] {
      return None;
    }

    var boost := FIRST_BOOST_TENTHS;
    var built: seq<Clause> := [];
    for i := 0 to |stage|
      invariant |built| == i
      invariant boost == FIRST_BOOST_TENTHS - i
      invariant forall k :: 0 <= k < i ==> built[k] == FieldQuery(stage[k], k)
    {
      built := built + [Clause(Should, BoostQuery(BooleanQuery(stage[i]), boost))];
      boost := boost - 1;
    }
    ghost var kept := Kept(stream.tokens, cutOff);
    ghost var spec := seq(|fields|, i requires 0 <= i < |fields| => FieldQuery(FieldClauses(fields[i], kept, dist), i));
    assert forall k :: 0 <= k < |fields| ==> built[k] == spec[k];
    assert built == spec;
    q := Some(BooleanQuery(built));
  }

  /** `parse_query`: the stages that have at least one kept token, in order. */
  method ParseQuery(tokens: seq<string>, fields: seq<Field>) returns (stages: seq<Query>)
    requires |tokens| <= TOKEN_LIMIT
    requires |fields| > 0
    ensures stages == Stages(tokens, fields)
  {
    var stream := new TokenStream(tokens);
    stages := [];
    var s0 := BuildFuzzyStage(0, 0, fields, stream);
    if s0.Some? { stages := stages + [s0.value]; }
    var s1 := BuildFuzzyStage(1, 4, fields, stream);
    if s1.Some? { stages := stages + [s1.value]; }
    var s2 := BuildFuzzyStage(2, 8, fields, stream);
    if s2.Some? { stages := stages + [s2.value]; }
  }
}
