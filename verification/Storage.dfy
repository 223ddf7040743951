// The storage worker of two-phase commit (sqlchain/storage/storage.go): one SQL transaction at a
// time, filled when it is committed.

module Storage {
  import opened Common

  datatype TxID = TxID(connectionID: uint64, seqNo: uint64, timestamp: int)

  const NO_ID := TxID(0, 0, 0)

  datatype Error = NoError | Inconsistent | NotPrepared | BeginFailed | ExecFailed

  // The database, the content of the open transaction if any, and what it is about.
  datatype State<D, Q> = State(db: D, tx: Option<D>, id: TxID, queries: seq<Q>)

  // What the database engine does with a query; None when it refuses it.
  type Engine<!D, !Q> = (D, Q) -> Option<D>

  datatype Call<Q> =
    | Prepare(id: TxID, queries: seq<Q>, begins: bool)        // begins: whether a transaction can be begun
    | Commit(id: TxID, reach: nat, durable: bool)             // queries from reach on fail; durable: the SQL commit works
    | Rollback(id: TxID)

  // ----- the worker -----

  function PrepareStep<D, Q>(s: State<D, Q>, id: TxID, queries: seq<Q>, begins: bool): (State<D, Q>, Error) {
    if s.tx.Some? then
      if s.id == id then (s.(queries := queries), NoError) else (s, Inconsistent)
    else if begins then (State(s.db, Some(s.db), id, queries), NoError) else (s, BeginFailed)
  }

  // The queries one after the other, as far as they are reached.
  function Execute<D, Q>(run: Engine<D, Q>, d: D, queries: seq<Q>, reach: nat): Option<D>
    decreases |queries|
  {
    if queries == [] then Some(d) else
    if reach == 0 then None else
    var e := run(d, queries[0]);
    if e.None? then None else Execute(run, e.value, queries[1..], reach - 1)
  }

  // The result of the SQL commit is not looked at.
  function CommitStep<D, Q>(run: Engine<D, Q>, s: State<D, Q>, id: TxID, reach: nat, durable: bool): (State<D, Q>, Error) {
    if s.tx.None? then (s, NotPrepared) else
    if s.id != id then (s, Inconsistent) else
    var w := Execute(run, s.tx.value, s.queries, reach);
    if w.None? then (State(s.db, None, s.id, []), ExecFailed) else
    (State(if durable then w.value else s.db, None, s.id, []), NoError)
  }

  // The id is compared even when no transaction is open.
  function RollbackStep<D, Q>(s: State<D, Q>, id: TxID): (State<D, Q>, Error) {
    if s.id != id then (s, Inconsistent) else
    if s.tx.Some? then (State(s.db, None, s.id, []), NoError) else (s, NoError)
  }

  function Step<D, Q>(run: Engine<D, Q>, s: State<D, Q>, c: Call<Q>): (State<D, Q>, Error) {
    match c
    case Prepare(id, queries, begins) => PrepareStep(s, id, queries, begins)
    case Commit(id, reach, durable) => CommitStep(run, s, id, reach, durable)
    case Rollback(id) => RollbackStep(s, id)
  }

  // The state after a sequence of calls, and what each was told.
  function Run<D, Q>(run: Engine<D, Q>, s: State<D, Q>, calls: seq<Call<Q>>): (r: (State<D, Q>, seq<Error>))
    ensures |r.1| == |calls|
    decreases |calls|
  {
    if calls == [] then (s, []) else
    var n := |calls| - 1;
    var (t, errs) := Run(run, s, calls[..n]);
    var (u, err) := Step(run, t, calls[n]);
    (u, errs + [err])
  }

  // ----- what it is for -----

  // The queries of the last successful Prepare of this id.
  function LastPrepared<Q>(calls: seq<Call<Q>>, errs: seq<Error>, id: TxID): seq<Q>
    requires |calls| == |errs|
    decreases |calls|
  {
    if calls == [] then [] else
    var n := |calls| - 1;
    if calls[n].Prepare? && calls[n].id == id && errs[n] == NoError then calls[n].queries
    else LastPrepared(calls[..n], errs[..n], id)
  }

  // The batches of the commits that reported success, in their order; only the durable ones when
  // lost commits are left out.
  function Committed<Q>(calls: seq<Call<Q>>, errs: seq<Error>, withLost: bool): seq<seq<Q>>
    requires |calls| == |errs|
    decreases |calls|
  {
    if calls == [] then [] else
    var n := |calls| - 1;
    var before := Committed(calls[..n], errs[..n], withLost);
    if calls[n].Commit? && errs[n] == NoError && (calls[n].durable || withLost)
    then before + [LastPrepared(calls[..n], errs[..n], calls[n].id)] else before
  }

  // Whole batches, one after the other, with nothing failing.
  function Replay<D, Q>(run: Engine<D, Q>, d: D, batches: seq<seq<Q>>): Option<D>
    decreases |batches|
  {
    if batches == [] then Some(d) else
    var n := |batches| - 1;
    var e := Replay(run, d, batches[..n]);
    if e.None? then None else Execute(run, e.value, batches[n], |batches[n]|)
  }

  // A database for the beginning and one behind each query.
  ghost predicate Trace<D(!new), Q>(run: Engine<D, Q>, queries: seq<Q>, dbs: seq<D>) {
    |dbs| == |queries| + 1 && forall i :: 0 <= i < |queries| ==> run(dbs[i], queries[i]) == Some(dbs[i + 1])
  }

  // A batch goes through exactly when all of it is reached and every query is accepted in turn.
  lemma {:induction false} ExecuteIff<D(!new), Q>(run: Engine<D, Q>, d: D, queries: seq<Q>, reach: nat, e: D)
    ensures Execute(run, d, queries, reach) == Some(e) <==>
            |queries| <= reach && exists dbs :: Trace(run, queries, dbs) && dbs[0] == d && dbs[|queries|] == e
    decreases |queries|
  {
    if queries == [] {
      assert Trace(run, queries, [d]);
    } else if reach > 0 {
      var next := run(d, queries[0]);
      if next.Some? {
        ExecuteIff(run, next.value, queries[1..], reach - 1, e);
        if rest :| Trace(run, queries[1..], rest) && rest[0] == next.value && rest[|queries| - 1] == e {
          var dbs := [d] + rest;
          assert forall i :: 0 < i < |queries| ==> queries[1..][i - 1] == queries[i] && dbs[i] == rest[i - 1];
          assert Trace(run, queries, dbs);
        }
      }
      if dbs :| Trace(run, queries, dbs) && dbs[0] == d && dbs[|queries|] == e {
        assert run(dbs[0], queries[0]) == Some(dbs[1]);
        assert Trace(run, queries[1..], dbs[1..]) && dbs[1..][0] == next.value;
      }
    }
  }

  // A batch that went through would go through without any limit as well.
  lemma {:induction false} ReachDoesNotMatter<D, Q>(run: Engine<D, Q>, d: D, queries: seq<Q>, reach: nat)
    requires Execute(run, d, queries, reach).Some?
    ensures Execute(run, d, queries, |queries|) == Execute(run, d, queries, reach)
    decreases |queries|
  {
    if queries != [] {
      ReachDoesNotMatter(run, run(d, queries[0]).value, queries[1..], reach - 1);
    }
  }

  // An open transaction stands for the last prepared batch of its id, and starts from the database.
  ghost predicate Tracks<D(!new), Q>(s: State<D, Q>, calls: seq<Call<Q>>, errs: seq<Error>)
    requires |calls| == |errs|
  {
    s.tx.Some? ==> s.tx.value == s.db && s.queries == LastPrepared(calls, errs, s.id)
  }

  lemma StepTracks<D(!new), Q>(run: Engine<D, Q>, s: State<D, Q>, calls: seq<Call<Q>>, errs: seq<Error>, c: Call<Q>)
    requires |calls| == |errs| && Tracks(s, calls, errs)
    ensures var (t, err) := Step(run, s, c); Tracks(t, calls + [c], errs + [err])
  {
    var err := Step(run, s, c).1;
    assert (calls + [c])[..|calls|] == calls && (errs + [err])[..|calls|] == errs;
  }

  lemma NothingReplayed<D(!new), Q>(run: Engine<D, Q>, d: D)
    ensures Replay(run, d, []) == Some(d)
  {
  }

  lemma ReplaySnoc<D(!new), Q>(run: Engine<D, Q>, d: D, batches: seq<seq<Q>>, b: seq<Q>, e: D)
    requires Replay(run, d, batches) == Some(e)
    ensures Replay(run, d, batches + [b]) == Execute(run, e, b, |b|)
  {
    assert (batches + [b])[..|batches|] == batches;
  }

  // For every sequence of calls the database holds exactly the batches whose Commit reported
  // success and took effect, whole and in that order.
  lemma {:induction false} DatabaseIsReplay<D(!new), Q>(run: Engine<D, Q>, d: D, calls: seq<Call<Q>>)
    ensures var (s, errs) := Run(run, State(d, None, NO_ID, []), calls);
            && Tracks(s, calls, errs)
            && Replay(run, d, Committed(calls, errs, false)) == Some(s.db)
    decreases |calls|
  {
    hide Replay, Execute;
    NothingReplayed(run, d);
    var start := State(d, None, NO_ID, []);
    if calls != [] {
      var n := |calls| - 1;
      var c := calls[n];
      var (s, errs) := Run(run, start, calls[..n]);
      DatabaseIsReplay(run, d, calls[..n]);
      StepTracks(run, s, calls[..n], errs, c);
      var (t, err) := Step(run, s, c);
      assert calls == calls[..n] + [c] && (errs + [err])[..n] == errs;
      var before := Committed(calls[..n], errs, false);
      if c.Commit? && err == NoError && c.durable {
        ReachDoesNotMatter(run, s.db, s.queries, c.reach);
        ReplaySnoc(run, d, before, s.queries, s.db);
      }
    }
  }

  lemma {:induction false} NothingLost<Q>(calls: seq<Call<Q>>, errs: seq<Error>)
    requires |calls| == |errs| && forall c :: c in calls && c.Commit? ==> c.durable
    ensures Committed(calls, errs, true) == Committed(calls, errs, false)
    decreases |calls|
  {
    if calls != [] { NothingLost(calls[..|calls| - 1], errs[..|calls| - 1]); }
  }

  // When every SQL commit works, the database holds all batches whose Commit reported success.
  lemma ReportedIsReplay<D(!new), Q>(run: Engine<D, Q>, d: D, calls: seq<Call<Q>>)
    requires forall c :: c in calls && c.Commit? ==> c.durable
    ensures var (s, errs) := Run(run, State(d, None, NO_ID, []), calls);
            Replay(run, d, Committed(calls, errs, true)) == Some(s.db)
  {
    DatabaseIsReplay(run, d, calls);
    NothingLost(calls, Run(run, State(d, None, NO_ID, []), calls).1);
  }

  // A commit that reports success has applied its batch exactly when the SQL commit worked, or
  // the batch changes nothing.
  lemma ReportedCommitIff<D, Q>(run: Engine<D, Q>, s: State<D, Q>, id: TxID, reach: nat, durable: bool)
    requires CommitStep(run, s, id, reach, durable).1 == NoError
    ensures s.tx.Some?
    ensures var applied := Execute(run, s.tx.value, s.queries, |s.queries|);
            Some(CommitStep(run, s, id, reach, durable).0.db) == applied <==> durable || applied == Some(s.db)
  {
    ReachDoesNotMatter(run, s.tx.value, s.queries, reach);
  }

  // While a batch is open, any calls under other ids are refused one and all and leave it as it is.
  lemma {:induction false} OneAtATime<D, Q>(run: Engine<D, Q>, s: State<D, Q>, calls: seq<Call<Q>>)
    requires s.tx.Some? && forall i :: 0 <= i < |calls| ==> calls[i].id != s.id
    ensures Run(run, s, calls).0 == s && forall i :: 0 <= i < |calls| ==> Run(run, s, calls).1[i] == Inconsistent
    decreases |calls|
  {
    if calls != [] {
      OneAtATime(run, s, calls[..|calls| - 1]);
    }
  }

  // ----- which batch is open, and what each call is told -----

  // Read off the calls and their answers alone: the id of the last successful Prepare, unless a
  // successful Rollback or a Commit that succeeded or failed on a query came after it.
  function Open<Q>(calls: seq<Call<Q>>, errs: seq<Error>): Option<TxID>
    requires |calls| == |errs|
    decreases |calls|
  {
    if calls == [] then None else
    var n := |calls| - 1;
    match calls[n]
    case Prepare(id, _, _) => if errs[n] == NoError then Some(id) else Open(calls[..n], errs[..n])
    case Commit(_, _, _) => if errs[n] in {NoError, ExecFailed} then None else Open(calls[..n], errs[..n])
    case Rollback(_) => if errs[n] == NoError then None else Open(calls[..n], errs[..n])
  }

  // The id of the last successful Prepare.
  function LastId<Q>(calls: seq<Call<Q>>, errs: seq<Error>): TxID
    requires |calls| == |errs|
    decreases |calls|
  {
    if calls == [] then NO_ID else
    var n := |calls| - 1;
    if calls[n].Prepare? && errs[n] == NoError then calls[n].id else LastId(calls[..n], errs[..n])
  }

  lemma {:induction false} OpenIs<D, Q>(run: Engine<D, Q>, d: D, calls: seq<Call<Q>>)
    ensures var (s, errs) := Run(run, State(d, None, NO_ID, []), calls);
            Open(calls, errs) == (if s.tx.Some? then Some(s.id) else None) && LastId(calls, errs) == s.id
    decreases |calls|
  {
    if calls != [] {
      var n := |calls| - 1;
      OpenIs(run, d, calls[..n]);
      var (s, errs) := Run(run, State(d, None, NO_ID, []), calls[..n]);
      assert (errs + [Step(run, s, calls[n]).1])[..n] == errs;
    }
  }

  // The answer to one more call, from what was called and answered before and what the batches
  // committed so far make of the database. A Rollback goes by the last id, open or not.
  function Answer<D, Q>(run: Engine<D, Q>, d: D, calls: seq<Call<Q>>, errs: seq<Error>, c: Call<Q>): Error
    requires |calls| == |errs|
  {
    var open := Open(calls, errs);
    match c
    case Prepare(id, _, begins) =>
      if open == Some(id) || (open.None? && begins) then NoError else if open.None? then BeginFailed else Inconsistent
    case Commit(id, reach, _) =>
      if open.None? then NotPrepared else if open != Some(id) then Inconsistent else
      var db := Replay(run, d, Committed(calls, errs, false));
      if db.Some? && Execute(run, db.value, LastPrepared(calls, errs, id), reach).Some? then NoError else ExecFailed
    case Rollback(id) => if LastId(calls, errs) == id then NoError else Inconsistent
  }

  // Every answer of every sequence of calls is that one.
  lemma {:induction false} AnswersAre<D(!new), Q>(run: Engine<D, Q>, d: D, calls: seq<Call<Q>>, i: nat)
    requires i < |calls|
    ensures var errs := Run(run, State(d, None, NO_ID, []), calls).1;
            errs[i] == Answer(run, d, calls[..i], errs[..i], calls[i])
    decreases |calls|
  {
    var start := State(d, None, NO_ID, []);
    var n := |calls| - 1;
    var (s, errs) := Run(run, start, calls[..n]);
    var all := Run(run, start, calls).1;
    assert all[..n] == errs;
    if i < n {
      AnswersAre(run, d, calls[..n], i);
      assert calls[..n][..i] == calls[..i] && all[..i] == errs[..i];
    } else {
      OpenIs(run, d, calls[..n]);
      DatabaseIsReplay(run, d, calls[..n]);
    }
  }

  // No later call opens the batch again.
  predicate NotAgain<Q>(calls: seq<Call<Q>>, errs: seq<Error>, id: TxID, from: nat)
    requires |calls| == |errs|
  {
    forall i :: from <= i < |calls| ==> !(calls[i].Prepare? && calls[i].id == id && errs[i] == NoError)
  }

  lemma {:induction false} StaysClosed<Q>(calls: seq<Call<Q>>, errs: seq<Error>, id: TxID, from: nat)
    requires from <= |calls| == |errs| && Open(calls[..from], errs[..from]) != Some(id) && NotAgain(calls, errs, id, from)
    ensures Open(calls, errs) != Some(id)
    decreases |calls|
  {
    var n := |calls| - 1;
    if from <= n {
      assert calls[..n][..from] == calls[..from] && errs[..n][..from] == errs[..from];
      assert NotAgain(calls[..n], errs[..n], id, from);
      StaysClosed(calls[..n], errs[..n], id, from);
    } else {
      assert calls[..from] == calls && errs[..from] == errs;
    }
  }

  // A batch that was rolled back is not committed, unless it is prepared again.
  lemma RolledBackIsGone<D(!new), Q>(run: Engine<D, Q>, d: D, calls: seq<Call<Q>>, i: nat, j: nat)
    requires i < j < |calls| && calls[i].Rollback? && calls[j].Commit? && calls[j].id == calls[i].id
    requires var errs := Run(run, State(d, None, NO_ID, []), calls).1;
             errs[i] == NoError && NotAgain(calls[..j], errs[..j], calls[i].id, i)
    ensures Run(run, State(d, None, NO_ID, []), calls).1[j] in {NotPrepared, Inconsistent}
  {
    var errs := Run(run, State(d, None, NO_ID, []), calls).1;
    AnswersAre(run, d, calls, j);
    assert calls[..i + 1][..i] == calls[..i] && errs[..i + 1][..i] == errs[..i];
    assert calls[..j][..i + 1] == calls[..i + 1] && errs[..j][..i + 1] == errs[..i + 1];
    assert Open(calls[..i + 1], errs[..i + 1]) == None;
    StaysClosed(calls[..j], errs[..j], calls[i].id, i + 1);
  }

  class Storage<D, Q> {
    var db: D
    var tx: Option<D>
    var id: TxID
    var queries: seq<Q>

    ghost function View(): State<D, Q>
      reads this
    {
      State(db, tx, id, queries)
    }

    constructor (db: D)
      ensures View() == State(db, None, NO_ID, [])
    {
      this.db, tx, id, queries := db, None, NO_ID, [];
    }

    method Prepare(id: TxID, queries: seq<Q>, begins: bool) returns (err: Error)
      modifies this
      ensures (View(), err) == PrepareStep(old(View()), id, queries, begins)
    {
      if tx.Some? {
        if this.id == id {
          this.queries := queries;
          return NoError;
        }
        return Inconsistent;
      }
      if !begins {
        return BeginFailed;
      }
      tx := Some(db);
      this.id := id;
      this.queries := queries;
      return NoError;
    }

    method Commit(run: Engine<D, Q>, id: TxID, reach: nat, durable: bool) returns (err: Error)
      modifies this
      ensures (View(), err) == CommitStep(run, old(View()), id, reach, durable)
    {
      if tx.None? {
        return NotPrepared;
      }
      if this.id != id {
        return Inconsistent;
      }
      var w, n := tx.value, 0;
      while n < |queries|
        invariant n <= |queries| && n <= reach && unchanged(this)
        invariant Execute(run, w, queries[n..], reach - n) == Execute(run, tx.value, queries, reach)
      {
        assert queries[n..][0] == queries[n] && queries[n..][1..] == queries[n + 1..];
        var e := if n < reach then run(w, queries[n]) else None;
        if e.None? {
          tx := None;
          queries := [];
          return ExecFailed;
        }
        w := e.value;
        n := n + 1;
      }
      if durable {
        db := w;
      }
      tx := None;
      queries := [];
      return NoError;
    }

    method Rollback(id: TxID) returns (err: Error)
      modifies this
      ensures (View(), err) == RollbackStep(old(View()), id)
    {
      if this.id != id {
        return Inconsistent;
      }
      if tx.Some? {
        tx := None;
        queries := [];
      }
      return NoError;
    }
  }
}
