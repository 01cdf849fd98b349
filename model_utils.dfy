/**
 * The helpers of the models layer (src/models/utils.rs): the SELECT strings of
 * `derive_fetch_by_id!` and `derive_fetch_iter!`, reading the first row of a
 * fetch, `VoteStats`, and `process_rows`, which folds a stream of vote rows
 * into a map. The database driver is not part of this model: its answers are
 * given as values.
 */
module ModelUtils {
  import opened Wrappers
  import opened Ints
  import opened Maps

  // ---------------------------------------------------------------- query strings

  /** `parts.join(sep)`. */
  function Join(parts: seq<string>, sep: string): string
  {
    if parts == [] then ""
    else if |parts| == 1 then parts[0]
    else parts[0] + sep + Join(parts[1..], sep)
  }

  /** The position of the first comma of `s`, or `|s|` when it has none. */
  function FirstComma(s: string): (i: nat)
    ensures i <= |s|
    ensures forall k :: 0 <= k < i ==> s[k] != ','
    ensures i < |s| ==> s[i] == ','
  {
    if s == [] || s[0] == ',' then 0 else 1 + FirstComma(s[1..])
  }

  /** Reads a `", "`-separated column list back into its columns. */
  function SplitColumns(s: string): seq<string>
    decreases |s|
  {
    var i := FirstComma(s);
    if i == |s| then [s]
    else if i + 2 <= |s| then [s[..i]] + SplitColumns(s[i + 2..])
    else [s[..i]] + SplitColumns(s[i + 1..])
  }

  /** Column names such as `FIELD_NAMES_AS_ARRAY` holds: none contains a comma. */
  predicate PlainColumns(fields: seq<string>) {
    forall k :: 0 <= k < |fields| ==> ',' !in fields[k]
  }

  /** A non-empty list of plain columns survives being joined with `", "` and split again. */
  lemma {:induction false} ColumnsRoundTrip(fields: seq<string>)
    requires |fields| > 0 && PlainColumns(fields)
    ensures SplitColumns(Join(fields, ", ")) == fields
    decreases |fields|
  {
    var s := Join(fields, ", ");
    var f := fields[0];
    if |fields| == 1 {
      assert ',' !in f;
      assert FirstComma(f) == |f|;
    } else {
      var rest := Join(fields[1..], ", ");
      assert s == f + ", " + rest;
      assert ',' !in f;
      assert s[|f|] == ',';
      assert forall k :: 0 <= k < |f| ==> s[k] == f[k];
      assert FirstComma(s) == |f|;
      assert s[..|f|] == f;
      assert s[|f| + 2..] == rest;
      ColumnsRoundTrip(fields[1..]);
      assert fields == [f] + fields[1..];
    }
  }

  /** The `SELECT <fields> FROM <table>` head both query builders share. */
  function SelectFrom(fields: seq<string>, table: string): string {
    "SELECT " + Join(fields, ", ") + " FROM " + table
  }

  /** The statement `fetch(id)` prepares: one row by id. */
  function FetchByIdQuery(fields: seq<string>, table: string): string {
    SelectFrom(fields, table) + " WHERE id = ?"
  }

  /** The statement `iter_rows()` pages through: every row of the table. */
  function IterRowsQuery(fields: seq<string>, table: string): string {
    SelectFrom(fields, table) + ";"
  }

  /**
   * Both statements name the table after ` FROM `, and the text between
   * `SELECT ` and ` FROM ` reads back as exactly the requested columns; the
   * fetch statement then filters on the id, the iteration statement does not.
   */
  lemma SelectNamesColumns(fields: seq<string>, table: string)
    requires |fields| > 0 && PlainColumns(fields)
    ensures var q := SelectFrom(fields, table); var tail := " FROM " + table;
      q[..7] == "SELECT " && q[|q| - |tail|..] == tail &&
      SplitColumns(q[7..|q| - |tail|]) == fields
    ensures var q := SelectFrom(fields, table); var f := FetchByIdQuery(fields, table);
      |q| < |f| && f[..|q|] == q && f[|q|..] == " WHERE id = ?"
    ensures var q := SelectFrom(fields, table); var i := IterRowsQuery(fields, table);
      |q| < |i| && i[..|q|] == q && i[|q|..] == ";"
  {
    var cols := Join(fields, ", ");
    var q := SelectFrom(fields, table);
    assert q == "SELECT " + cols + (" FROM " + table);
    assert q[7..|q| - |" FROM " + table|] == cols;
    ColumnsRoundTrip(fields);
  }

  /**
   * What `fetch` returns for the driver's answer: the query error, no row
   * (`rows` absent or empty), or the first row, whose conversion may fail.
   */
  function FetchFirst<T>(answer: Result<Option<seq<Result<T, string>>>, string>): (r: Result<Option<T>, string>)
    ensures answer.Err? ==> r == Err(answer.error)
    ensures r == Ok(None) <==> answer.Ok? && (answer.value.None? || answer.value.value == [])
    ensures r.Ok? && r.value.Some? ==>
      (answer.Ok? && answer.value.Some? && answer.value.value != [] && answer.value.value[0] == Ok(r.value.value))
    ensures r.Err? && answer.Ok? ==>
      (answer.value.Some? && answer.value.value != [] && answer.value.value[0] == Err(r.error))
  {
    match answer
    case Err(e) => Err(e)
    case Ok(rows) =>
      var all := rows.GetOr([]);
      if all == [] then Ok(None)
      else match all[0]
        case Ok(x) => Ok(Some(x))
        case Err(e) => Err(e)
  }

  /** Only the first row counts: rows after it change nothing. */
  lemma FetchIgnoresLaterRows<T>(rows: seq<Result<T, string>>, more: seq<Result<T, string>>)
    requires rows != []
    ensures FetchFirst(Ok(Some(rows + more))) == FetchFirst(Ok(Some(rows)))
  {
    assert (rows + more)[0] == rows[0];
  }

  // ---------------------------------------------------------------- vote stats

  /** A bot's vote counters. `votes` and `allTimeVotes` are also the accessors, which return them unchanged. */
  datatype VoteStats = VoteStats(votes: u64, allTimeVotes: u64) {

    /** `VoteStats::new`: stores both counters `as u64`. */
    static function New(votes: i64, allTimeVotes: i64): (r: VoteStats)
      ensures votes >= 0 ==> r.votes == votes
      ensures allTimeVotes >= 0 ==> r.allTimeVotes == allTimeVotes
      ensures votes < 0 ==> r.votes == votes + TWO_TO_THE_64
      ensures allTimeVotes < 0 ==> r.allTimeVotes == allTimeVotes + TWO_TO_THE_64
      ensures U64AsI64(r.votes) == votes && U64AsI64(r.allTimeVotes) == allTimeVotes
    {
      CastsRoundTrip(votes, 0);
      CastsRoundTrip(allTimeVotes, 0);
      VoteStats(I64AsU64(votes), I64AsU64(allTimeVotes))
    }

    /** `#[derive(Default)]`: both counters zero. */
    static function Default(): (r: VoteStats)
      ensures r.votes == 0 && r.allTimeVotes == 0
    {
      VoteStats(0, 0)
    }
  }

  /** The default is what `new` makes of two zero counters. */
  lemma DefaultIsNewOfZero()
    ensures VoteStats.Default() == VoteStats.New(0, 0)
  {
  }

  // ---------------------------------------------------------------- process_rows

  /** A converted `(id, Counter(votes), Counter(all_time_votes))` row. */
  datatype VoteRow = VoteRow(id: i64, votes: i64, allTimeVotes: i64)

  /** How many rows at the front of the stream converted; the rest start with a failure or are absent. */
  function GoodPrefix(rows: seq<Result<VoteRow, string>>): (n: nat)
    ensures n <= |rows|
    ensures forall i :: 0 <= i < n ==> rows[i].Ok?
    ensures n < |rows| ==> rows[n].Err?
  {
    if rows == [] || rows[0].Err? then 0 else 1 + GoodPrefix(rows[1..])
  }

  /** The map entry a converted row is inserted as. */
  function Entry(row: VoteRow): (i64, VoteStats) {
    (row.id, VoteStats.New(row.votes, row.allTimeVotes))
  }

  /** The entries of the first `n` rows, all of which converted. */
  function Entries(rows: seq<Result<VoteRow, string>>, n: nat): (r: seq<(i64, VoteStats)>)
    requires n <= |rows| && forall i :: 0 <= i < n ==> rows[i].Ok?
    ensures |r| == n
    ensures forall i :: 0 <= i < n ==> r[i] == Entry(rows[i].value)
  {
    if n == 0 then [] else Entries(rows, n - 1) + [Entry(rows[n - 1].value)]
  }

  /** The map `process_rows` builds: the rows before the first failure, inserted in order. */
  function Processed(rows: seq<Result<VoteRow, string>>): map<i64, VoteStats> {
    FromPairs(Entries(rows, GoodPrefix(rows)))
  }

  /** `process_rows`: `while let Some(Ok(row))`, inserting each row's stats under its id. */
  method ProcessRows(rows: seq<Result<VoteRow, string>>) returns (m: map<i64, VoteStats>)
    ensures m == Processed(rows)
  {
    m := map[];
    var i := 0;
    while i < |rows| && rows[i].Ok?
      invariant i <= |rows|
      invariant forall k :: 0 <= k < i ==> rows[k].Ok?
      invariant m == FromPairs(Entries(rows, i))
    {
      var row := rows[i].value;
      InsertStep(rows, i);
      m := m[row.id := VoteStats.New(row.votes, row.allTimeVotes)];
      i := i + 1;
    }
    StopIsGoodPrefix(rows, i);
  }

  /** Inserting row `i` extends the map of the rows before it. */
  lemma InsertStep(rows: seq<Result<VoteRow, string>>, i: nat)
    requires i < |rows| && forall k :: 0 <= k <= i ==> rows[k].Ok?
    ensures FromPairs(Entries(rows, i + 1)) ==
      FromPairs(Entries(rows, i))[rows[i].value.id := VoteStats.New(rows[i].value.votes, rows[i].value.allTimeVotes)]
  {
    FromPairsSnoc(Entries(rows, i), Entry(rows[i].value));
  }

  /** The loop stops exactly at the end of the good prefix. */
  lemma StopIsGoodPrefix(rows: seq<Result<VoteRow, string>>, i: nat)
    requires i <= |rows| && forall k :: 0 <= k < i ==> rows[k].Ok?
    requires i == |rows| || rows[i].Err?
    ensures i == GoodPrefix(rows)
  {
  }

  /** The keys are the ids of the rows before the first failure. */
  lemma ProcessedKeys(rows: seq<Result<VoteRow, string>>)
    ensures forall id :: id in Processed(rows) <==> exists i :: 0 <= i < GoodPrefix(rows) && rows[i].value.id == id
  {
    var n := GoodPrefix(rows);
    var es := Entries(rows, n);
    FromPairsKeys(es);
    forall id
      ensures id in Processed(rows) <==> exists i :: 0 <= i < n && rows[i].value.id == id
    {
      if exists i :: 0 <= i < n && rows[i].value.id == id {
        var i :| 0 <= i < n && rows[i].value.id == id;
        assert es[i].0 == id;
      }
      if id in Processed(rows) {
        var i :| 0 <= i < |es| && es[i].0 == id;
        assert rows[i].value.id == id;
      }
    }
  }

  /** An id holds the stats of its last row before the first failure. */
  lemma ProcessedLastRow(rows: seq<Result<VoteRow, string>>, i: nat)
    requires i < GoodPrefix(rows)
    requires forall j :: i < j < GoodPrefix(rows) ==> rows[j].value.id != rows[i].value.id
    ensures rows[i].value.id in Processed(rows)
    ensures Processed(rows)[rows[i].value.id] == VoteStats.New(rows[i].value.votes, rows[i].value.allTimeVotes)
  {
    var es := Entries(rows, GoodPrefix(rows));
    FromPairsLast(es, i);
  }

  /** Nothing after a failed row is processed. */
  lemma {:induction false} IgnoresRowsAfterFailure(rows: seq<Result<VoteRow, string>>, e: string,
                                                   more: seq<Result<VoteRow, string>>)
    requires forall i :: 0 <= i < |rows| ==> rows[i].Ok?
    ensures Processed(rows + [Err(e)] + more) == Processed(rows)
  {
    var all := rows + [Err(e)] + more;
    assert GoodPrefix(all) == |rows| by {
      GoodPrefixOfFailure(rows, e, more);
    }
    assert GoodPrefix(rows) == |rows|;
    EntriesAgree(all, rows, |rows|);
  }

  lemma {:induction false} GoodPrefixOfFailure(rows: seq<Result<VoteRow, string>>, e: string,
                                               more: seq<Result<VoteRow, string>>)
    requires forall i :: 0 <= i < |rows| ==> rows[i].Ok?
    ensures GoodPrefix(rows + [Err(e)] + more) == |rows|
    decreases |rows|
  {
    if rows != [] {
      assert (rows + [Err(e)] + more)[1..] == rows[1..] + [Err(e)] + more;
      GoodPrefixOfFailure(rows[1..], e, more);
    }
  }

  /** Two streams that agree on their first `n` rows have the same first `n` entries. */
  lemma {:induction false} EntriesAgree(a: seq<Result<VoteRow, string>>, b: seq<Result<VoteRow, string>>, n: nat)
    requires n <= |a| && n <= |b| && forall i :: 0 <= i < n ==> a[i] == b[i] && a[i].Ok?
    ensures Entries(a, n) == Entries(b, n)
  {
    if n > 0 {
      EntriesAgree(a, b, n - 1);
    }
  }
}
