/**
 * The database connection of src/models/connection.rs: `connect` opens a
 * session, creates and selects the keyspace, stores the session once in the
 * process-wide `CONN` cell and, when asked, runs the table script statement by
 * statement (`create_tables`). The cluster is not part of this model: a
 * session answers each statement with a given outcome and records what it ran.
 */
module Connection {
  import opened Wrappers
  import opened OnceCells
  import opened Seqs

  const KEYSPACE: string := "discordlist"
  const CREATE_KEYSPACE: string :=
    "CREATE KEYSPACE discordlist WITH replication = {'class': 'SimpleStrategy', 'replication_factor' : 1};"

  // ---------------------------------------------------------------- splitting the script

  /** Rust's `char::is_whitespace`: the Unicode `White_Space` characters. */
  predicate IsWhitespace(c: char) {
    ('\t' <= c <= '\r') || c == ' ' || c == '\U{0085}' || c == '\U{00A0}' || c == '\U{1680}' ||
    ('\U{2000}' <= c <= '\U{200A}') || c == '\U{2028}' || c == '\U{2029}' || c == '\U{202F}' ||
    c == '\U{205F}' || c == '\U{3000}'
  }

  /** `s.trim_start()`. */
  function TrimStart(s: string): string {
    if s != [] && IsWhitespace(s[0]) then TrimStart(s[1..]) else s
  }

  /** `s.trim_end()`. */
  function TrimEnd(s: string): string {
    if s != [] && IsWhitespace(s[|s| - 1]) then TrimEnd(s[..|s| - 1]) else s
  }

  /** `trim_start` drops exactly the leading whitespace: what is left is a suffix not starting with it. */
  lemma {:induction false} TrimStartSpec(s: string)
    ensures var r := TrimStart(s);
      |r| <= |s| && r == s[|s| - |r|..] &&
      (forall k :: 0 <= k < |s| - |r| ==> IsWhitespace(s[k])) &&
      (r != [] ==> !IsWhitespace(r[0]))
    decreases |s|
  {
    if s != [] && IsWhitespace(s[0]) {
      TrimStartSpec(s[1..]);
    }
  }

  /** `trim_end` drops exactly the trailing whitespace: what is left is a prefix not ending with it. */
  lemma {:induction false} TrimEndSpec(s: string)
    ensures var r := TrimEnd(s);
      |r| <= |s| && r == s[..|r|] &&
      (forall k :: |r| <= k < |s| ==> IsWhitespace(s[k])) &&
      (r != [] ==> !IsWhitespace(r[|r| - 1]))
    decreases |s|
  {
    if s != [] && IsWhitespace(s[|s| - 1]) {
      TrimEndSpec(s[..|s| - 1]);
    }
  }

  /** `s.trim()`: `s` without its leading and trailing whitespace. */
  function Trim(s: string): (r: string)
    ensures |r| <= |s|
    ensures r == "" <==> forall k :: 0 <= k < |s| ==> IsWhitespace(s[k])
    ensures r != "" ==> !IsWhitespace(r[0]) && !IsWhitespace(r[|r| - 1])
  {
    TrimEmptyWhenBlank(s);
    TrimEnd(TrimStart(s))
  }

  /** Trimming only removes characters: what is left is a stretch of `s`. */
  lemma TrimKeepsCharacters(s: string)
    ensures forall c :: c in Trim(s) ==> c in s
  {
    var t := TrimStart(s);
    var r := TrimEnd(t);
    TrimStartSpec(s);
    TrimEndSpec(t);
    forall c | c in r
      ensures c in s
    {
      var k :| 0 <= k < |r| && r[k] == c;
      assert t[k] == c;
      assert s[|s| - |t| + k] == c;
    }
  }

  lemma TrimEmptyWhenBlank(s: string)
    ensures var r := TrimEnd(TrimStart(s));
      |r| <= |s| &&
      (r == "" <==> forall k :: 0 <= k < |s| ==> IsWhitespace(s[k])) &&
      (r != "" ==> !IsWhitespace(r[0]) && !IsWhitespace(r[|r| - 1]))
  {
    var t := TrimStart(s);
    var r := TrimEnd(t);
    TrimStartSpec(s);
    TrimEndSpec(t);
    var d := |s| - |t|;
    if r != "" {
      assert r[0] == t[0];
      assert s[d] == t[0];
    }
  }

  /** `s.split(c)`: the pieces between occurrences of `c`; there is always at least one. */
  function Split(s: string, c: char): (r: seq<string>)
    ensures |r| >= 1
    ensures forall k :: 0 <= k < |r| ==> c !in r[k]
    decreases |s|
  {
    if c !in s then [s]
    else
      var i := Position(s, c);
      [s[..i]] + Split(s[i + 1..], c)
  }

  /** The position of the first `c` in `s`. */
  function Position(s: string, c: char): (i: nat)
    requires c in s
    ensures i < |s| && s[i] == c && c !in s[..i]
  {
    if s[0] == c then 0 else
      assert c in s[1..];
      1 + Position(s[1..], c)
  }

  /** The pieces glued back together with `c` between them. */
  function Glue(pieces: seq<string>, c: char): string
    requires |pieces| >= 1
  {
    if |pieces| == 1 then pieces[0] else pieces[0] + [c] + Glue(pieces[1..], c)
  }

  /** Splitting loses nothing: the pieces glue back into the script. */
  lemma {:induction false} SplitGlue(s: string, c: char)
    ensures Glue(Split(s, c), c) == s
    decreases |s|
  {
    if c in s {
      var i := Position(s, c);
      SplitGlue(s[i + 1..], c);
      assert s == s[..i] + [c] + s[i + 1..];
    }
  }

  /** What one piece of the script contributes: its trimmed text, or nothing when that is empty. */
  function Contribution(piece: string): seq<string> {
    var t := Trim(piece);
    if t == "" then [] else [t]
  }

  /** The statements `create_tables` runs for the pieces of its script, in order. */
  function Statements(pieces: seq<string>): seq<string> {
    Flatten(pieces, Contribution)
  }

  /** The outputs `f` gives for `xs`, one after another. */
  function Flatten<T, U>(xs: seq<T>, f: T -> seq<U>): seq<U> {
    if xs == [] then [] else Flatten(xs[..|xs| - 1], f) + f(xs[|xs| - 1])
  }

  lemma FlattenStep<T, U>(xs: seq<T>, i: nat, f: T -> seq<U>)
    requires i < |xs|
    ensures Flatten(xs[..i + 1], f) == Flatten(xs[..i], f) + f(xs[i])
  {
    var front := xs[..i + 1];
    assert front[..|front| - 1] == xs[..i];
  }

  lemma {:induction false} FlattenAppend<T, U>(a: seq<T>, b: seq<T>, f: T -> seq<U>)
    ensures Flatten(a + b, f) == Flatten(a, f) + Flatten(b, f)
    decreases |b|
  {
    if b != [] {
      var init := b[..|b| - 1];
      var ab := a + b;
      FlattenAppend(a, init, f);
      assert ab[..|ab| - 1] == a + init;
    } else {
      assert a + b == a;
    }
  }

  /** Every statement run is non-empty, has no `;`, and neither starts nor ends with whitespace. */
  lemma StatementsAreClean(script: string)
    ensures forall k :: 0 <= k < |Statements(Split(script, ';'))| ==>
      var st := Statements(Split(script, ';'))[k];
      st != "" && ';' !in st && !IsWhitespace(st[0]) && !IsWhitespace(st[|st| - 1])
  {
    CleanPieces(Split(script, ';'));
  }

  lemma {:induction false} CleanPieces(pieces: seq<string>)
    requires forall k :: 0 <= k < |pieces| ==> ';' !in pieces[k]
    ensures forall k :: 0 <= k < |Statements(pieces)| ==>
      var st := Statements(pieces)[k];
      st != "" && ';' !in st && !IsWhitespace(st[0]) && !IsWhitespace(st[|st| - 1])
    decreases |pieces|
  {
    if pieces != [] {
      var init := pieces[..|pieces| - 1];
      var last := pieces[|pieces| - 1];
      CleanPieces(init);
      TrimKeepsCharacters(last);
      assert ';' !in last;
      assert Statements(pieces) == Statements(init) + Contribution(last);
    }
  }

  // ---------------------------------------------------------------- sessions

  /** A session: a log of the statements it was asked to run and the cluster's answer to each. */
  class Session {
    var executed: seq<string>
    var keyspace: Option<string>
    const answer: string -> Outcome<string>
    const keyspaceAnswer: Outcome<string>

    constructor (answer0: string -> Outcome<string>, keyspaceAnswer0: Outcome<string>)
      ensures executed == [] && keyspace == None && answer == answer0 && keyspaceAnswer == keyspaceAnswer0
    {
      executed := [];
      keyspace := None;
      answer := answer0;
      keyspaceAnswer := keyspaceAnswer0;
    }

    /** `query`: runs one statement. */
    method Query(statement: string) returns (r: Outcome<string>)
      modifies this
      ensures executed == old(executed) + [statement] && r == answer(statement)
      ensures keyspace == old(keyspace)
    {
      executed := executed + [statement];
      r := answer(statement);
    }

    /** `use_keyspace`: selects the keyspace when the cluster accepts it. */
    method UseKeyspace(name: string) returns (r: Outcome<string>)
      modifies this
      ensures r == keyspaceAnswer && executed == old(executed)
      ensures keyspace == if r.Pass? then Some(name) else old(keyspace)
    {
      r := keyspaceAnswer;
      if r.Pass? {
        keyspace := Some(name);
      }
    }
  }

  /** The index of the first statement the cluster rejects, or `|stmts|` when it accepts them all. */
  function FirstFailure(stmts: seq<string>, answer: string -> Outcome<string>): (k: nat)
    ensures k <= |stmts|
    ensures forall j :: 0 <= j < k ==> answer(stmts[j]).Pass?
    ensures k < |stmts| ==> answer(stmts[k]).Fail?
  {
    if stmts == [] || answer(stmts[0]).Fail? then 0 else 1 + FirstFailure(stmts[1..], answer)
  }

  /** How many statements run: all up to and including the first rejected one. */
  function RunCount(stmts: seq<string>, answer: string -> Outcome<string>): nat {
    var k := FirstFailure(stmts, answer);
    if k < |stmts| then k + 1 else k
  }

  /**
   * `create_tables`: runs the trimmed, non-empty pieces of the script in
   * order and stops at the first statement the cluster rejects, returning its
   * error.
   */
  method CreateTables(session: Session, script: string) returns (r: Outcome<string>)
    modifies session
    ensures var stmts := Statements(Split(script, ';'));
      var k := FirstFailure(stmts, session.answer);
      session.executed == old(session.executed) + stmts[..RunCount(stmts, session.answer)] &&
      r == (if k < |stmts| then session.answer(stmts[k]) else Pass)
    ensures session.keyspace == old(session.keyspace)
  {
    var pieces := Split(script, ';');
    ghost var all := Statements(pieces);
    ghost var done0 := session.executed;
    ghost var done: seq<string> := [];
    var i := 0;
    while i < |pieces|
      invariant i <= |pieces| && done == Statements(pieces[..i])
      invariant session.executed == done0 + done
      invariant AllPass(done, session.answer)
      invariant session.keyspace == old(session.keyspace)
    {
      var table := Trim(pieces[i]);
      FlattenStep(pieces, i, Contribution);
      if table != "" {
        var res := session.Query(table);
        if res.Fail? {
          StopsAt(pieces, i, done, session.answer);
          return res;
        }
        AllPassExtend(done, table, session.answer);
        ConcatAssoc(done0, done, [table]);
        done := done + [table];
      }
      i := i + 1;
    }
    assert pieces[..i] == pieces;
    NoFailure(all, session.answer);
    r := Pass;
  }

  predicate AllPass(stmts: seq<string>, answer: string -> Outcome<string>) {
    forall j :: 0 <= j < |stmts| ==> answer(stmts[j]).Pass?
  }

  lemma AllPassExtend(stmts: seq<string>, t: string, answer: string -> Outcome<string>)
    requires AllPass(stmts, answer) && answer(t).Pass?
    ensures AllPass(stmts + [t], answer)
  {
  }

  /** The statements of a prefix extended by one piece. */
  lemma {:induction false} StatementsSplit(pieces: seq<string>, i: nat)
    requires i < |pieces|
    ensures Statements(pieces) ==
      Statements(pieces[..i]) + Contribution(pieces[i]) + Statements(pieces[i + 1..])
  {
    FlattenStep(pieces, i, Contribution);
    FlattenAppend(pieces[..i + 1], pieces[i + 1..], Contribution);
    TakeDrop(pieces, i + 1);
  }

  /** A rejected statement after accepted ones is the first failure of the whole run. */
  lemma {:induction false} FailureAfter(before: seq<string>, t: string, after: seq<string>, answer: string -> Outcome<string>)
    requires AllPass(before, answer)
    requires answer(t).Fail?
    ensures FirstFailure(before + [t] + after, answer) == |before|
    ensures (before + [t] + after)[..RunCount(before + [t] + after, answer)] == before + [t]
    decreases |before|
  {
    if before != [] {
      assert (before + [t] + after)[1..] == before[1..] + [t] + after;
      FailureAfter(before[1..], t, after, answer);
    }
    var all := before + [t] + after;
    assert all[..|before| + 1] == before + [t];
  }

  /** A piece whose statement is rejected after accepted ones ends the run there. */
  lemma StopsAt(pieces: seq<string>, i: nat, done: seq<string>, answer: string -> Outcome<string>)
    requires i < |pieces| && done == Statements(pieces[..i]) && AllPass(done, answer)
    requires Trim(pieces[i]) != "" && answer(Trim(pieces[i])).Fail?
    ensures var all := Statements(pieces);
      FirstFailure(all, answer) == |done| < |all| && all[|done|] == Trim(pieces[i]) &&
      all[..RunCount(all, answer)] == done + [Trim(pieces[i])]
  {
    var t := Trim(pieces[i]);
    var after := Statements(pieces[i + 1..]);
    StatementsSplit(pieces, i);
    assert Contribution(pieces[i]) == [t];
    FailureAfter(done, t, after, answer);
  }

  /** When every statement is accepted, there is no failure and all of them run. */
  lemma {:induction false} NoFailure(stmts: seq<string>, answer: string -> Outcome<string>)
    requires AllPass(stmts, answer)
    ensures FirstFailure(stmts, answer) == |stmts| && RunCount(stmts, answer) == |stmts|
    decreases |stmts|
  {
    if stmts != [] {
      NoFailure(stmts[1..], answer);
    }
  }

  // ---------------------------------------------------------------- connect

  /**
   * `connect(nodes, init_tables)`, given the session `Session::connect`
   * opened (or its error). The keyspace creation's result is ignored, a
   * keyspace that cannot be selected is an error, a second session is not
   * stored, and the table script runs on the stored session, only when
   * `initTables` is set.
   */
  method Connect(cell: OnceCell<Session>, connected: Result<Session, string>, initTables: bool, script: string)
    returns (r: Outcome<string>)
    modifies cell, if connected.Ok? then {connected.value} else {}, if cell.value.Some? then {cell.value.value} else {}
    ensures connected.Err? ==> r == Fail(connected.error) && cell.value == old(cell.value)
    ensures connected.Ok? && connected.value.keyspaceAnswer.Fail? ==>
      r == Fail(connected.value.keyspaceAnswer.error) && cell.value == old(cell.value) &&
      connected.value.executed == old(connected.value.executed) + [CREATE_KEYSPACE]
    ensures connected.Ok? && connected.value.keyspaceAnswer.Pass? ==>
      connected.value.keyspace == Some(KEYSPACE) &&
      cell.value == (if old(cell.value).Some? then old(cell.value) else Some(connected.value))
    ensures connected.Ok? && connected.value.keyspaceAnswer.Pass? && !initTables ==>
      r == Pass && connected.value.executed == old(connected.value.executed) + [CREATE_KEYSPACE]
    ensures connected.Ok? && connected.value.keyspaceAnswer.Pass? && initTables ==>
      var s := cell.value.value;
      var stmts := Statements(Split(script, ';'));
      var k := FirstFailure(stmts, s.answer);
      r == (if k < |stmts| then s.answer(stmts[k]) else Pass) &&
      s.executed == old(s.executed) + (if s == connected.value then [CREATE_KEYSPACE] else []) +
                    stmts[..RunCount(stmts, s.answer)] &&
      (s != connected.value ==> connected.value.executed == old(connected.value.executed) + [CREATE_KEYSPACE])
  {
    if connected.Err? {
      return Fail(connected.error);
    }
    var session := connected.value;
    var _ := session.Query(CREATE_KEYSPACE);
    var used := session.UseKeyspace(KEYSPACE);
    if used.Fail? {
      return used;
    }
    var _ := cell.Set(session);
    if initTables {
      var current := cell.Get();
      r := CreateTables(current, script);
      return;
    }
    r := Pass;
  }
}
