/**
 * The index writer actor (src/search/writer.rs). One thread owns tantivy's
 * `IndexWriter` and drains a FIFO channel of `WriterOp`s, one at a time. It keeps
 * the dirty flag `op_since_last_commit`, commits after AUTO_COMMIT_SECS without a
 * new op, and commits once more when every sender is gone.
 *
 * The index is abstract: `pending` is the writer's current document list,
 * `committed` the snapshot readers see; a commit makes the pending list the
 * snapshot. The library's answers (tantivy may fail to add, clear or commit) ride
 * on the events the loop observes.
 */
module SearchWriter {
  import opened Wrappers
  import opened Tantivy

  const MEMORY_ARENA: nat := 300 * 0x10_0000
  const AUTO_COMMIT_SECS: nat := 15
  const CHANNEL_CAPACITY: nat := 4
  const SHUTDOWN_ERROR := "Writer actor has shutdown."
  const START_ERROR := "Failed to start writer due to unknown error."

  /** The channel's messages; a ping carries the id of the channel its acknowledgement goes to. */
  datatype WriterOp = AddDocument(doc: Doc) | RemoveDocuments(term: Term) | ClearAll | Ping(waker: nat)

  /**
   * What one iteration of the loop observes: an op taken from the channel (with
   * the library's answer to applying it), AUTO_COMMIT_SECS of silence (with the
   * answer to the commit), or the channel disconnected (with the answers to the
   * final commit and to waiting for the merging threads).
   */
  datatype Event =
    | Recv(op: WriterOp, applied: Outcome<string>)
    | Timeout(committing: Outcome<string>)
    | Disconnected(committing: Outcome<string>, merging: Outcome<string>)

  datatype Status = Running | Exited(result: Outcome<string>)

  /** The actor: index contents, the dirty flag, the pings acknowledged, and whether the loop has ended. */
  datatype Actor = Actor(pending: seq<Doc>, committed: seq<Doc>, dirty: bool, acks: seq<nat>, status: Status)

  /** The documents left after `delete_term(t)`. */
  function Without(docs: seq<Doc>, t: Term): (r: seq<Doc>)
    ensures forall d :: d in r <==> d in docs && !d.HasTerm(t)
    ensures |r| <= |docs|
  {
    if docs == [] then []
    else (if docs[0].HasTerm(t) then [] else [docs[0]]) + Without(docs[1..], t)
  }

  /** The effect of a successfully handled op on the pending documents. */
  function Apply(pending: seq<Doc>, op: WriterOp): seq<Doc> {
    match op
    case AddDocument(d) => pending + [d]
    case RemoveDocuments(t) => Without(pending, t)
    case ClearAll => []
    case Ping(_) => pending
  }

  /** The effect of a sequence of ops, applied in channel order. */
  function ApplyAll(pending: seq<Doc>, ops: seq<WriterOp>): seq<Doc>
    decreases |ops|
  {
    if ops == [] then pending else Apply(ApplyAll(pending, ops[..|ops| - 1]), ops[|ops| - 1])
  }

  /** Only `add_document` and `delete_all_documents` return a `Result`. */
  predicate Fallible(op: WriterOp) {
    op.AddDocument? || op.ClearAll?
  }

  /** `handle_message` within the loop: `?` ends the actor on a library error. */
  function Handle(a: Actor, op: WriterOp, applied: Outcome<string>): Actor {
    if Fallible(op) && applied.Fail? then a.(status := Exited(applied))
    else a.(pending := Apply(a.pending, op), acks := if op.Ping? then a.acks + [op.waker] else a.acks)
  }

  /** Leaving the loop: the final `commit()?`, then `wait_merging_threads()?`. */
  function Shutdown(a: Actor, committing: Outcome<string>, merging: Outcome<string>): Actor {
    if committing.Fail? then a.(status := Exited(committing))
    else a.(committed := a.pending, status := Exited(merging))
  }

  /** One iteration of `run_writer`'s loop. */
  function Step(a: Actor, e: Event): Actor {
    if a.status.Exited? then a
    else if !a.dirty then
      // parked in `recv()`, which has no timeout
      match e
      case Recv(op, applied) => Handle(a.(dirty := true), op, applied)
      case Timeout(_) => a
      case Disconnected(c, m) => Shutdown(a, c, m)
    else
      match e
      case Recv(op, applied) => Handle(a, op, applied)
      case Timeout(c) =>
        if c.Fail? then a.(status := Exited(c)) else a.(committed := a.pending, dirty := false)
      case Disconnected(c, m) => Shutdown(a, c, m)
  }

  /** The actor after observing `events` in order. */
  function Run(a: Actor, events: seq<Event>): Actor
    decreases |events|
  {
    if events == [] then a else Step(Run(a, events[..|events| - 1]), events[|events| - 1])
  }

  /** The actor as `run_writer` begins: `index.writer(MEMORY_ARENA)?` either opens a writer on the committed documents or ends the actor. */
  function Start(openResult: Outcome<string>, docs: seq<Doc>): Actor {
    Actor(docs, docs, false, [], if openResult.Fail? then Exited(openResult) else Running)
  }

  function Delivered(ops: seq<WriterOp>): (es: seq<Event>)
    ensures |es| == |ops|
    ensures forall k :: 0 <= k < |ops| ==> es[k] == Recv(ops[k], Pass)
  {
    seq(|ops|, k requires 0 <= k < |ops| => Recv(ops[k], Pass))
  }

  function PingsOf(ops: seq<WriterOp>): seq<nat>
    decreases |ops|
  {
    if ops == [] then []
    else PingsOf(ops[..|ops| - 1]) + (match ops[|ops| - 1] case Ping(k) => [k] case _ => [])
  }

  // ---------------------------------------------------------------- properties

  lemma RunOne(a: Actor, events: seq<Event>, i: nat)
    requires i < |events|
    ensures Run(a, events[..i + 1]) == Step(Run(a, events[..i]), events[i])
  {
    assert events[..i + 1][..i] == events[..i];
  }

  /** An actor that has ended ignores every later event. */
  lemma {:induction false} ExitIsFinal(a: Actor, events: seq<Event>)
    requires a.status.Exited?
    ensures Run(a, events) == a
    decreases |events|
  {
    if events != [] {
      ExitIsFinal(a, events[..|events| - 1]);
    }
  }

  /** Running over a stream is running over a prefix, then over the rest. */
  lemma {:induction false} RunSplit(a: Actor, events: seq<Event>, n: nat)
    requires n <= |events|
    ensures Run(a, events) == Run(Run(a, events[..n]), events[n..])
    decreases |events|
  {
    if n == |events| {
      assert events[..n] == events;
      assert events[n..] == [];
    } else {
      var m := |events| - 1;
      RunSplit(a, events[..m], n);
      assert events[..m][..n] == events[..n];
      assert events[n..][..|events[n..]| - 1] == events[..m][n..];
      assert events[n..][|events[n..]| - 1] == events[m];
    }
  }

  /** Once the actor has ended on a prefix, the events after it change nothing. */
  lemma EndedOnPrefix(a: Actor, events: seq<Event>, n: nat)
    requires n <= |events|
    requires Run(a, events[..n]).status.Exited?
    ensures Run(a, events) == Run(a, events[..n])
  {
    RunSplit(a, events, n);
    ExitIsFinal(Run(a, events[..n]), events[n..]);
  }

  /** While clean the loop blocks in `recv()`: silence neither commits nor changes anything. */
  lemma ParkedIgnoresTime(a: Actor, c: Outcome<string>)
    requires a.status.Running? && !a.dirty
    ensures Step(a, Timeout(c)) == a
  {
  }

  /** A clean actor that receives any op, a ping included, handles it and becomes dirty, without committing. */
  lemma ReceiveMakesDirty(a: Actor, op: WriterOp, applied: Outcome<string>)
    requires a.status.Running?
    requires !Fallible(op) || applied.Pass?
    ensures var b := Step(a, Recv(op, applied));
      b.dirty && b.status.Running? && b.committed == a.committed && b.pending == Apply(a.pending, op)
  {
  }

  /** When dirty, AUTO_COMMIT_SECS of silence commits the pending documents and clears the flag. */
  lemma QuietCommits(a: Actor)
    requires a.status.Running? && a.dirty
    ensures var b := Step(a, Timeout(Pass));
      b == a.(committed := a.pending, dirty := false)
  {
  }

  /** A commit happens only after silence while dirty, or at shutdown. */
  lemma CommitsOnlyOnQuietOrShutdown(a: Actor, e: Event)
    requires Step(a, e).committed != a.committed
    ensures a.status.Running?
    ensures (a.dirty && e.Timeout?) || e.Disconnected?
  {
  }

  /** A stream of ops with no pause between them never commits: the auto-commit waits for quiet. */
  lemma {:induction false} BusyStreamNeverCommits(a: Actor, events: seq<Event>)
    requires a.status.Running? && a.dirty
    requires forall k :: 0 <= k < |events| ==> events[k].Recv?
    ensures Run(a, events).committed == a.committed
    ensures Run(a, events).dirty
    decreases |events|
  {
    if events != [] {
      var m := |events| - 1;
      BusyStreamNeverCommits(a, events[..m]);
    }
  }

  /** Disconnection, clean or dirty, commits the pending documents and ends the loop with the merge result. */
  lemma DisconnectCommits(a: Actor, merging: Outcome<string>)
    requires a.status.Running?
    ensures Step(a, Disconnected(Pass, merging)) == a.(committed := a.pending, status := Exited(merging))
  {
  }

  /** A library error while handling an op ends the actor with that error; no later op is processed. */
  lemma ErrorEndsActor(a: Actor, op: WriterOp, err: string, rest: seq<Event>)
    requires a.status.Running? && Fallible(op)
    ensures Run(a, [Recv(op, Fail(err))] + rest) ==
      a.(dirty := true, status := Exited(Fail(err)))
  {
    var events := [Recv(op, Fail(err))] + rest;
    assert events[..1] == [Recv(op, Fail(err))];
    RunOne(a, events, 0);
    assert events[..0] == [];
    EndedOnPrefix(a, events, 1);
  }

  /**
   * A failing `commit` ends the actor with that error and nothing later is
   * processed: the commit after a quiet period while dirty, and the final
   * commit at disconnection whether dirty or not.
   */
  lemma CommitErrorEndsActor(a: Actor, err: string, merging: Outcome<string>, rest: seq<Event>)
    requires a.status.Running?
    ensures a.dirty ==> Run(a, [Timeout(Fail(err))] + rest) == a.(status := Exited(Fail(err)))
    ensures Run(a, [Disconnected(Fail(err), merging)] + rest) == a.(status := Exited(Fail(err)))
  {
    var quiet := [Timeout(Fail(err))] + rest;
    if a.dirty {
      assert quiet[..1] == [Timeout(Fail(err))];
      RunOne(a, quiet, 0);
      assert quiet[..0] == [];
      EndedOnPrefix(a, quiet, 1);
    }
    var closed := [Disconnected(Fail(err), merging)] + rest;
    assert closed[..1] == [Disconnected(Fail(err), merging)];
    RunOne(a, closed, 0);
    assert closed[..0] == [];
    EndedOnPrefix(a, closed, 1);
  }

  /** Ops delivered without error are applied in channel order, and pings are acknowledged in that order. */
  lemma {:induction false} DeliveredInOrder(a: Actor, ops: seq<WriterOp>)
    requires a.status.Running?
    ensures var b := Run(a, Delivered(ops));
      b.status.Running? && b.pending == ApplyAll(a.pending, ops) && b.acks == a.acks + PingsOf(ops)
      && b.dirty == (a.dirty || ops != []) && b.committed == a.committed
    decreases |ops|
  {
    if ops != [] {
      var m := |ops| - 1;
      var es := Delivered(ops);
      DeliveredInOrder(a, ops[..m]);
      assert es[..m] == Delivered(ops[..m]);
      assert es[..m + 1] == es;
      RunOne(a, es, m);
      var prev := Run(a, es[..m]);
      assert Run(a, es) == Step(prev, Recv(ops[m], Pass));
      assert Run(a, es) == prev.(pending := Apply(prev.pending, ops[m]), dirty := true,
                                 acks := if ops[m].Ping? then prev.acks + [ops[m].waker] else prev.acks);
    }
  }

  /** The startup ping is acknowledged exactly when the actor opened its index writer. */
  lemma StartupPingAcked(openResult: Outcome<string>, docs: seq<Doc>, k: nat, applied: Outcome<string>)
    ensures var b := Run(Start(openResult, docs), [Recv(Ping(k), applied)]);
      (b.acks == [k] <==> openResult.Pass?) && (openResult.Fail? ==> b.status == Exited(openResult))
  {
    var events := [Recv(Ping(k), applied)];
    RunOne(Start(openResult, docs), events, 0);
    assert events[..1] == events && events[..0] == [];
  }

  /** The startup ping on its own makes the actor dirty, so the first silence after start-up commits. */
  lemma StartupPingLeadsToCommit(docs: seq<Doc>, k: nat)
    ensures var b := Run(Start(Pass, docs), [Recv(Ping(k), Pass), Timeout(Pass)]);
      b == Actor(docs, docs, false, [k], Running)
  {
    var events := [Recv(Ping(k), Pass), Timeout(Pass)];
    RunOne(Start(Pass, docs), events, 0);
    RunOne(Start(Pass, docs), events, 1);
    assert events[..0] == [] && events[..2] == events;
  }

  // ---------------------------------------------------------------- imperative model

  /** tantivy's `IndexWriter`, reduced to its pending and committed documents. */
  class IndexWriter {
    var pending: seq<Doc>
    var committed: seq<Doc>

    /** A writer openResult on an index: nothing is pending beyond what is committed. */
    constructor Open(docs: seq<Doc>)
      ensures pending == docs && committed == docs
    {
      pending := docs;
      committed := docs;
    }

    method AddDocument(doc: Doc, answer: Outcome<string>) returns (r: Outcome<string>)
      modifies this
      ensures r == answer && committed == old(committed)
      ensures pending == if answer.Pass? then old(pending) + [doc] else old(pending)
    {
      r := answer;
      if answer.Pass? {
        pending := pending + [doc];
      }
    }

    method DeleteTerm(t: Term)
      modifies this
      ensures pending == Without(old(pending), t) && committed == old(committed)
    {
      pending := Without(pending, t);
    }

    method DeleteAllDocuments(answer: Outcome<string>) returns (r: Outcome<string>)
      modifies this
      ensures r == answer && committed == old(committed)
      ensures pending == if answer.Pass? then [] else old(pending)
    {
      r := answer;
      if answer.Pass? {
        pending := [];
      }
    }

    method Commit(answer: Outcome<string>) returns (r: Outcome<string>)
      modifies this
      ensures r == answer && pending == old(pending)
      ensures committed == if answer.Pass? then old(pending) else old(committed)
    {
      r := answer;
      if answer.Pass? {
        committed := pending;
      }
    }

    method WaitMergingThreads(answer: Outcome<string>) returns (r: Outcome<string>)
      ensures r == answer
    {
      r := answer;
    }
  }

  /** `handle_message`: dispatch on the op; a ping is acknowledged through its waker. */
  method HandleMessage(op: WriterOp, applied: Outcome<string>, w: IndexWriter) returns (r: Outcome<string>, ack: Option<nat>)
    modifies w
    ensures r == if Fallible(op) then applied else Pass
    ensures w.pending == if r.Pass? then Apply(old(w.pending), op) else old(w.pending)
    ensures w.committed == old(w.committed)
    ensures ack == if op.Ping? then Some(op.waker) else None
  {
    ack := None;
    r := Pass;
    match op
    case Ping(waker) =>
      ack := Some(waker);
    case AddDocument(doc) =>
      r := w.AddDocument(doc, applied);
    case RemoveDocuments(term) =>
      w.DeleteTerm(term);
    case ClearAll =>
      r := w.DeleteAllDocuments(applied);
  }

  /**
   * `run_writer` over the events observed so far. When the events run out while
   * the loop is still running, the result is the state it waits in.
   */
  method RunWriter(w: IndexWriter, openResult: Outcome<string>, events: seq<Event>)
    returns (dirty: bool, acks: seq<nat>, status: Status)
    requires w.pending == w.committed
    modifies w
    ensures Actor(w.pending, w.committed, dirty, acks, status) == Run(Start(openResult, old(w.committed)), events)
  {
    ghost var init := Start(openResult, w.committed);
    dirty, acks := false, [];
    if openResult.Fail? {
      status := Exited(openResult);
      ExitIsFinal(init, events);
      return;
    }
    status := Running;
    var shutdown: Option<Event> := None;
    var i := 0;
    while i < |events|
      invariant 0 <= i <= |events|
      invariant status == Running && shutdown == None
      invariant Actor(w.pending, w.committed, dirty, acks, status) == Run(init, events[..i])
    {
      var e := events[i];
      RunOne(init, events, i);
      if !dirty {
        if e.Recv? {
          dirty := true;
          var r, ack := HandleMessage(e.op, e.applied, w);
          if ack.Some? {
            acks := acks + [ack.value];
          }
          if r.Fail? {
            status := Exited(r);
            EndedOnPrefix(init, events, i + 1);
            return;
          }
        } else if e.Disconnected? {
          shutdown := Some(e);
          break;
        }
      } else {
        match e
        case Timeout(committing) =>
          var r := w.Commit(committing);
          if r.Fail? {
            status := Exited(r);
            EndedOnPrefix(init, events, i + 1);
            return;
          }
          dirty := false;
        case Disconnected(_, _) =>
          shutdown := Some(e);
          break;
        case Recv(op, applied) =>
          var r, ack := HandleMessage(op, applied, w);
          if ack.Some? {
            acks := acks + [ack.value];
          }
          if r.Fail? {
            status := Exited(r);
            EndedOnPrefix(init, events, i + 1);
            return;
          }
      }
      i := i + 1;
    }
    if shutdown.Some? {
      var r := w.Commit(shutdown.value.committing);
      if r.Fail? {
        status := Exited(r);
      } else {
        var m := w.WaitMergingThreads(shutdown.value.merging);
        status := Exited(m);
      }
      EndedOnPrefix(init, events, i + 1);
    } else {
      assert events[..i] == events;
    }
  }

  // ---------------------------------------------------------------- the clients' view

  /** How many of `want` further ops the channel accepts once `already` were sent to an actor that takes `lifetime`. */
  function Taken(lifetime: Option<nat>, already: nat, want: nat): (n: nat)
    ensures n <= want
    ensures lifetime.None? ==> n == want
    ensures lifetime.Some? && n < want ==> lifetime.value <= already + n
    ensures lifetime.Some? && n > 0 ==> already + n <= lifetime.value
  {
    if lifetime.None? then want
    else if lifetime.value <= already then 0
    else if lifetime.value - already < want then lifetime.value - already
    else want
  }

  /** The documents a full refresh indexes: one per entity, in order. */
  function Documents<T>(s: Schema, xs: seq<T>, toDoc: (Schema, T) -> Doc): (docs: seq<Doc>)
    ensures |docs| == |xs|
    ensures forall k :: 0 <= k < |xs| ==> docs[k] == toDoc(s, xs[k])
  {
    seq(|xs|, k requires 0 <= k < |xs| => toDoc(s, xs[k]))
  }

  /** `AddDocument` for each document, in order. */
  function AddOps(docs: seq<Doc>): (ops: seq<WriterOp>)
    ensures |ops| == |docs|
    ensures forall k :: 0 <= k < |docs| ==> ops[k] == WriterOp.AddDocument(docs[k])
  {
    if docs == [] then [] else AddOps(docs[..|docs| - 1]) + [WriterOp.AddDocument(docs[|docs| - 1])]
  }

  /** A clear followed by one add per document leaves exactly those documents, in order, whatever was pending. */
  lemma {:induction false} ClearThenAddRebuilds(pending: seq<Doc>, docs: seq<Doc>)
    ensures ApplyAll(pending, [ClearAll] + AddOps(docs)) == docs
    decreases |docs|
  {
    if docs == [] {
      assert [ClearAll] + AddOps(docs) == [ClearAll];
      assert ([ClearAll] + AddOps(docs))[..0] == [];
    } else {
      var m := |docs| - 1;
      var ops := [ClearAll] + AddOps(docs);
      ClearThenAddRebuilds(pending, docs[..m]);
      assert AddOps(docs) == AddOps(docs[..m]) + [WriterOp.AddDocument(docs[m])];
      assert ops[..|ops| - 1] == [ClearAll] + AddOps(docs[..m]);
      assert docs == docs[..m] + [docs[m]];
    }
  }

  /**
   * The sending half held by `Writer`: the ops the channel accepted so far, in
   * FIFO order. The actor thread may exit at any point, after which every send
   * fails; `lifetime` is how many ops it takes before that happens (`None`: it
   * runs as long as the program).
   */
  class Writer {
    var sent: seq<WriterOp>
    const lifetime: Option<nat>

    constructor (sent0: seq<WriterOp>, lifetime0: Option<nat>)
      ensures sent == sent0 && lifetime == lifetime0
    {
      sent := sent0;
      lifetime := lifetime0;
    }

    /** The actor still holds the receiver. */
    predicate Open()
      reads this
    {
      lifetime.None? || |sent| < lifetime.value
    }

    /** `send_op`: fails with SHUTDOWN_ERROR once the actor has dropped the receiver. */
    method SendOp(op: WriterOp) returns (r: Outcome<string>)
      modifies this
      ensures old(Open()) ==> r == Pass && sent == old(sent) + [op]
      ensures !old(Open()) ==> r == Fail(SHUTDOWN_ERROR) && sent == old(sent) && !Open()
    {
      if Open() {
        sent := sent + [op];
        r := Pass;
      } else {
        r := Fail(SHUTDOWN_ERROR);
      }
    }

    method AddDocument(doc: Doc) returns (r: Outcome<string>)
      modifies this
      ensures old(Open()) ==> r == Pass && sent == old(sent) + [WriterOp.AddDocument(doc)]
      ensures !old(Open()) ==> r == Fail(SHUTDOWN_ERROR) && sent == old(sent) && !Open()
    {
      r := SendOp(WriterOp.AddDocument(doc));
    }

    method RemoveDocs(term: Term) returns (r: Outcome<string>)
      modifies this
      ensures old(Open()) ==> r == Pass && sent == old(sent) + [RemoveDocuments(term)]
      ensures !old(Open()) ==> r == Fail(SHUTDOWN_ERROR) && sent == old(sent) && !Open()
    {
      r := SendOp(RemoveDocuments(term));
    }

    method ClearAllDocs() returns (r: Outcome<string>)
      modifies this
      ensures old(Open()) ==> r == Pass && sent == old(sent) + [ClearAll]
      ensures !old(Open()) ==> r == Fail(SHUTDOWN_ERROR) && sent == old(sent) && !Open()
    {
      r := SendOp(ClearAll);
    }
  }

  /** Once one op got through, the rest of a plan is accepted as if it had been sent on its own. */
  lemma TakenStep(lifetime: Option<nat>, already: nat, want: nat)
    requires lifetime.None? || already < lifetime.value
    ensures Taken(lifetime, already, want + 1) == 1 + Taken(lifetime, already + 1, want)
  {
  }

  /** A cleared writer followed by `docs`: what gets through is the clear and the first documents. */
  lemma ClearThenAddPrefix(lifetime: Option<nat>, already: nat, docs: seq<Doc>)
    requires lifetime.None? || already < lifetime.value
    ensures var plan := [ClearAll] + AddOps(docs);
      var n := Taken(lifetime, already, |plan|);
      n == 1 + Taken(lifetime, already + 1, |docs|) && plan[..n] == [ClearAll] + AddOps(docs)[..n - 1]
  {
    TakenStep(lifetime, already, |docs|);
    var plan := [ClearAll] + AddOps(docs);
    var n := Taken(lifetime, already, |plan|);
    assert plan[..n] == [ClearAll] + AddOps(docs)[..n - 1];
  }

  /** The `for` loop of a full refresh: one `add_document` per document, in order, stopping at the first failure. */
  method AddEach(w: Writer, docs: seq<Doc>) returns (r: Outcome<string>)
    modifies w
    ensures var n := Taken(w.lifetime, |old(w.sent)|, |docs|);
      w.sent == old(w.sent) + AddOps(docs)[..n] && r == (if n == |docs| then Pass else Fail(SHUTDOWN_ERROR))
  {
    var i := 0;
    while i < |docs|
      invariant 0 <= i <= |docs|
      invariant w.sent == old(w.sent) + AddOps(docs)[..i]
      invariant i > 0 ==> w.lifetime.None? || |w.sent| <= w.lifetime.value
    {
      var added := w.AddDocument(docs[i]);
      if added.Fail? {
        return added;
      }
      assert AddOps(docs)[..i + 1] == AddOps(docs)[..i] + [WriterOp.AddDocument(docs[i])];
      i := i + 1;
    }
    assert AddOps(docs)[..|docs|] == AddOps(docs);
    r := Pass;
  }

  /**
   * `start_writer`: sends the startup ping and waits for its acknowledgement.
   * The ping is accepted when the actor takes at least one op; `acked` is what
   * the oneshot reports; `joined` is the actor thread's result, read only when
   * the send or the acknowledgement failed.
   */
  method StartWriter(lifetime: Option<nat>, acked: bool, joined: Outcome<string>) returns (r: Result<Writer, string>)
    ensures r.Ok? <==> (lifetime.None? || lifetime.value > 0) && acked
    ensures r.Ok? ==> fresh(r.value) && r.value.sent == [Ping(0)] && r.value.lifetime == lifetime
    ensures r.Err? ==> r.error == if joined.Fail? then joined.error else START_ERROR
  {
    var w := new Writer([], lifetime);
    var sent := w.SendOp(Ping(0));
    if sent.Fail? || !acked {
      if joined.Fail? {
        return Err(joined.error);
      }
      return Err(START_ERROR);
    }
    r := Ok(w);
  }
}
