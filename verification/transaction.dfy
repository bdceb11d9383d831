/** The warehouse transaction of `load`: open it, submit every batch, and once
    all batches have succeeded run the upsert procedure and commit; any batch
    or upsert failure rolls back instead. The warehouse's answers are given
    up front, so a run is a pure function of them. */
module Transaction {
  import opened Wrappers

  /** Driver payloads (insert metadata, error objects) are opaque here. */
  type Meta = string
  type Error = string

  /** What the warehouse answers to one request. */
  datatype Reply = Ok(meta: Meta) | Fail(error: Error)

  /** Requests sent to the warehouse, in the order they are issued. */
  datatype Call =
    | Begin            // `sqlDWH.transaction()`
    | Insert(batch: nat)  // `insertQuery(…, sqlQuery, t)` for one batch
    | Upsert           // `exec DL_UPSERT_FACT_MONITORING_EVENT`
    | Commit           // `t.commit()`
    | Rollback         // `t.rollback()`

  /** The warehouse's answer to each request of one run. */
  datatype Warehouse = Warehouse(begin: Reply, insert: nat -> Reply, upsert: Reply, commit: Reply, rollback: Reply)

  /** Where a run of n batches stands. */
  datatype State =
    | Opening
    | Inserting(next: nat, replies: seq<Reply>)  // batches below `next` submitted
    | Upserting(results: seq<Meta>)
    | Committing(results: seq<Meta>)
    | RollingBack(cause: Error)
    | Committed(results: seq<Meta>)
    | Rejected(error: Error)

  predicate Terminal(s: State) {
    s.Committed? || s.Rejected?
  }

  /** The error `Promise.all` rejects with: the first failed batch's. */
  function FirstFailure(rs: seq<Reply>): (r: Option<Error>)
    ensures r.None? <==> forall i :: 0 <= i < |rs| ==> rs[i].Ok?
    ensures r.Some? ==> exists i :: 0 <= i < |rs| && rs[i] == Fail(r.value) && forall j :: 0 <= j < i ==> rs[j].Ok?
  {
    if |rs| == 0 then None
    else if rs[0].Fail? then Some(rs[0].error)
    else
      var r := FirstFailure(rs[1..]);
      assert forall i :: 1 <= i < |rs| ==> rs[i] == rs[1..][i - 1];
      if r.Some? then
        var i :| 0 <= i < |rs[1..]| && rs[1..][i] == Fail(r.value) && forall j :: 0 <= j < i ==> rs[1..][j].Ok?;
        assert rs[i + 1] == Fail(r.value);
        r
      else r
  }

  /** The metadata `Promise.all` resolves with, in submission order. */
  function Metas(rs: seq<Reply>): (r: seq<Meta>)
    requires forall i :: 0 <= i < |rs| ==> rs[i].Ok?
    ensures |r| == |rs| && forall i :: 0 <= i < |rs| ==> r[i] == rs[i].meta
  {
    seq(|rs|, i requires 0 <= i < |rs| => rs[i].meta)
  }

  /** How far a run of n batches is from finishing. */
  function Rank(n: nat, s: State): nat {
    match s
    case Opening => n + 4
    case Inserting(i, _) => if i <= n then n - i + 3 else 3
    case Upserting(_) => 2
    case Committing(_) => 1
    case RollingBack(_) => 1
    case Committed(_) => 0
    case Rejected(_) => 0
  }

  /** One step of a run of n batches: the next state and the request issued on
      the way. All batches are submitted before any reply is looked at; the
      upsert runs only when none failed; a failed upsert rolls back; a failed
      commit rejects without rolling back; a failed rollback reports its own
      error in place of the cause. */
  function Step(w: Warehouse, n: nat, s: State): (r: (State, seq<Call>))
    ensures !Terminal(s) ==> Rank(n, r.0) < Rank(n, s)
    ensures Terminal(s) ==> r == (s, [])
    ensures |r.1| <= 1
  {
    match s
    case Opening =>
      (if w.begin.Ok? then Inserting(0, []) else Rejected(w.begin.error), [Begin])
    case Inserting(i, rs) =>
      if i < n then (Inserting(i + 1, rs + [w.insert(i)]), [Insert(i)])
      else
        var failure := FirstFailure(rs);
        if failure.Some? then (RollingBack(failure.value), []) else (Upserting(Metas(rs)), [])
    case Upserting(results) =>
      (if w.upsert.Ok? then Committing(results) else RollingBack(w.upsert.error), [Upsert])
    case Committing(results) =>
      (if w.commit.Ok? then Committed(results) else Rejected(w.commit.error), [Commit])
    case RollingBack(cause) =>
      (if w.rollback.Ok? then Rejected(cause) else Rejected(w.rollback.error), [Rollback])
    case Committed(_) => (s, [])
    case Rejected(_) => (s, [])
  }

  /** Steps from s until the run is over: the final state and every request issued. */
  function Drive(w: Warehouse, n: nat, s: State): (r: (State, seq<Call>))
    ensures Terminal(r.0)
    decreases Rank(n, s)
  {
    if Terminal(s) then (s, [])
    else
      var step := Step(w, n, s);
      var rest := Drive(w, n, step.0);
      (rest.0, step.1 + rest.1)
  }

  /** What `load` settles with: the batch results, or the error it rejects with. */
  function Outcome(s: State): Result<seq<Meta>, Error>
    requires Terminal(s)
  {
    if s.Committed? then Success(s.results) else Failure(s.error)
  }

  /** A whole transaction for n batches. */
  function Run(w: Warehouse, n: nat): (Result<seq<Meta>, Error>, seq<Call>) {
    var d := Drive(w, n, Opening);
    (Outcome(d.0), d.1)
  }

  /** The replies to the n batch inserts, in submission order. */
  function Replies(w: Warehouse, n: nat): (r: seq<Reply>)
    ensures |r| == n && forall i :: 0 <= i < n ==> r[i] == w.insert(i)
  {
    seq(n, i requires 0 <= i => w.insert(i))
  }

  /** The n insert requests, in submission order. */
  function Inserts(n: nat): (r: seq<Call>)
    ensures |r| == n && forall i :: 0 <= i < n ==> r[i] == Insert(i)
  {
    seq(n, i requires 0 <= i => Insert(i))
  }

  /** The error a rollback after `cause` reports. */
  function AfterRollback(w: Warehouse, cause: Error): Error {
    if w.rollback.Ok? then cause else w.rollback.error
  }

  /** The transaction's outcome and requests, read off the warehouse's answers
      case by case instead of step by step. */
  function Expected(w: Warehouse, n: nat): (Result<seq<Meta>, Error>, seq<Call>) {
    if w.begin.Fail? then (Failure(w.begin.error), [Begin])
    else
      var submitted := [Begin] + Inserts(n);
      var failure := FirstFailure(Replies(w, n));
      if failure.Some? then
        (Failure(AfterRollback(w, failure.value)), submitted + [Rollback])
      else if w.upsert.Fail? then
        (Failure(AfterRollback(w, w.upsert.error)), submitted + [Upsert, Rollback])
      else if w.commit.Fail? then
        (Failure(w.commit.error), submitted + [Upsert, Commit])
      else
        (Success(Metas(Replies(w, n))), submitted + [Upsert, Commit])
  }

  /** The state once every batch has been submitted and the replies awaited. */
  function Settled(w: Warehouse, n: nat): State {
    var failure := FirstFailure(Replies(w, n));
    if failure.Some? then RollingBack(failure.value) else Upserting(Metas(Replies(w, n)))
  }

  /** From batch i on, the run submits the remaining batches in order and
      then settles on the replies to all of them. */
  lemma {:induction false} InsertPhase(w: Warehouse, n: nat, i: nat)
    requires i <= n
    ensures Drive(w, n, Inserting(i, Replies(w, i))) ==
              (Drive(w, n, Settled(w, n)).0, Inserts(n)[i..] + Drive(w, n, Settled(w, n)).1)
    decreases n - i
  {
    var fin := Drive(w, n, Settled(w, n));
    if i < n {
      InsertStep(w, n, i);
      InsertPhase(w, n, i + 1);
      assert Inserts(n)[i..] == [Insert(i)] + Inserts(n)[i + 1..];
      assert [Insert(i)] + (Inserts(n)[i + 1..] + fin.1) == Inserts(n)[i..] + fin.1;
    } else {
      DriveStep(w, n, Inserting(i, Replies(w, i)));
      assert Step(w, n, Inserting(i, Replies(w, i))) == (Settled(w, n), []);
      assert Inserts(n)[i..] == [];
    }
  }

  /** Submitting batch i records its reply after the first i. */
  lemma InsertStep(w: Warehouse, n: nat, i: nat)
    requires i < n
    ensures Drive(w, n, Inserting(i, Replies(w, i))) ==
              (Drive(w, n, Inserting(i + 1, Replies(w, i + 1))).0,
               [Insert(i)] + Drive(w, n, Inserting(i + 1, Replies(w, i + 1))).1)
  {
    DriveStep(w, n, Inserting(i, Replies(w, i)));
    assert Replies(w, i) + [w.insert(i)] == Replies(w, i + 1);
  }

  /** Unfolding one step of a run that is not over. */
  lemma DriveStep(w: Warehouse, n: nat, s: State)
    requires !Terminal(s)
    ensures Drive(w, n, s) == (Drive(w, n, Step(w, n, s).0).0, Step(w, n, s).1 + Drive(w, n, Step(w, n, s).0).1)
  {
  }

  /** A rollback ends the run with the rollback's report. */
  lemma RollbackTail(w: Warehouse, n: nat, cause: Error)
    ensures Drive(w, n, RollingBack(cause)) == (Rejected(AfterRollback(w, cause)), [Rollback])
  {
    var last := Rejected(AfterRollback(w, cause));
    assert Step(w, n, RollingBack(cause)) == (last, [Rollback]);
    assert Drive(w, n, last) == (last, []);
    DriveStep(w, n, RollingBack(cause));
    assert [Rollback] + [] == [Rollback];
  }

  /** A commit ends the run committed, or rejected with the commit's error. */
  lemma CommitTail(w: Warehouse, n: nat, results: seq<Meta>)
    ensures Drive(w, n, Committing(results)) ==
              (if w.commit.Ok? then Committed(results) else Rejected(w.commit.error), [Commit])
  {
    var last := if w.commit.Ok? then Committed(results) else Rejected(w.commit.error);
    assert Step(w, n, Committing(results)) == (last, [Commit]);
    assert Drive(w, n, last) == (last, []);
    DriveStep(w, n, Committing(results));
    assert [Commit] + [] == [Commit];
  }

  /** Once the batch replies are in, the rest of the run is the rollback, or
      the upsert followed by the commit or the rollback. */
  lemma SettledTail(w: Warehouse, n: nat)
    ensures var last, rest := Drive(w, n, Settled(w, n)).0, Drive(w, n, Settled(w, n)).1;
            var failure := FirstFailure(Replies(w, n));
            if failure.Some? then last == Rejected(AfterRollback(w, failure.value)) && rest == [Rollback]
            else if w.upsert.Fail? then last == Rejected(AfterRollback(w, w.upsert.error)) && rest == [Upsert, Rollback]
            else if w.commit.Fail? then last == Rejected(w.commit.error) && rest == [Upsert, Commit]
            else last == Committed(Metas(Replies(w, n))) && rest == [Upsert, Commit]
  {
    var failure := FirstFailure(Replies(w, n));
    if failure.Some? {
      RollbackTail(w, n, failure.value);
    } else {
      var ms := Metas(Replies(w, n));
      DriveStep(w, n, Upserting(ms));
      if w.upsert.Fail? {
        RollbackTail(w, n, w.upsert.error);
      } else {
        CommitTail(w, n, ms);
      }
    }
  }

  /** Stepping the state machine agrees with the case-by-case reading. */
  lemma {:induction false} RunMatchesExpected(w: Warehouse, n: nat)
    ensures Run(w, n) == Expected(w, n)
  {
    if w.begin.Fail? {
      DriveStep(w, n, Opening);
      assert Drive(w, n, Rejected(w.begin.error)) == (Rejected(w.begin.error), []);
      assert [Begin] + [] == [Begin];
    } else {
      DriveStep(w, n, Opening);
      assert Step(w, n, Opening) == (Inserting(0, Replies(w, 0)), [Begin]);
      InsertPhase(w, n, 0);
      SettledTail(w, n);
      assert Inserts(n)[0..] == Inserts(n);
      var tail := Drive(w, n, Settled(w, n)).1;
      assert Run(w, n).1 == [Begin] + (Inserts(n) + tail);
      assert [Begin] + (Inserts(n) + tail) == ([Begin] + Inserts(n)) + tail;
    }
  }

  /** The upsert is requested only after the transaction opened and every
      batch succeeded, and the commit only after the upsert succeeded. */
  lemma UpsertOnlyAfterAllBatches(w: Warehouse, n: nat)
    ensures Upsert in Run(w, n).1 <==> w.begin.Ok? && forall i :: 0 <= i < n ==> w.insert(i).Ok?
    ensures Commit in Run(w, n).1 <==> w.begin.Ok? && (forall i :: 0 <= i < n ==> w.insert(i).Ok?) && w.upsert.Ok?
  {
    RunMatchesExpected(w, n);
    var calls := Run(w, n).1;
    if w.begin.Ok? && FirstFailure(Replies(w, n)).Some? {
      assert forall k :: 0 <= k < |calls| ==> calls[k] != Upsert && calls[k] != Commit;
    }
    if w.begin.Fail? {
      assert calls == [Begin];
    }
  }

  /** A rollback is requested exactly when the transaction opened and then a
      batch or the upsert failed; commit and rollback are never both requested. */
  lemma RollbackExactlyOnFailure(w: Warehouse, n: nat)
    ensures Rollback in Run(w, n).1 <==>
              w.begin.Ok? && ((exists i :: 0 <= i < n && w.insert(i).Fail?) || w.upsert.Fail?)
    ensures !(Commit in Run(w, n).1 && Rollback in Run(w, n).1)
  {
    RunMatchesExpected(w, n);
    var calls := Run(w, n).1;
    var submitted := [Begin] + Inserts(n);
    assert Rollback !in submitted;
    assert Commit !in submitted;
    if w.begin.Fail? {
      assert calls == [Begin];
    } else if FirstFailure(Replies(w, n)).Some? {
      assert calls == submitted + [Rollback];
      var i :| 0 <= i < n && Replies(w, n)[i].Fail?;
      assert w.insert(i).Fail?;
    } else if w.upsert.Fail? {
      assert calls == submitted + [Upsert, Rollback];
    } else {
      assert calls == submitted + [Upsert, Commit];
    }
  }

  /** The run resolves exactly when every request succeeded, and then with each
      batch's metadata in submission order. */
  lemma SuccessExactlyWhenAllSucceed(w: Warehouse, n: nat)
    ensures Run(w, n).0.Success? <==>
              w.begin.Ok? && (forall i :: 0 <= i < n ==> w.insert(i).Ok?) && w.upsert.Ok? && w.commit.Ok?
    ensures Run(w, n).0.Success? ==>
              |Run(w, n).0.value| == n && forall i :: 0 <= i < n ==> Run(w, n).0.value[i] == w.insert(i).meta
  {
    RunMatchesExpected(w, n);
  }

  /** Every batch is submitted once, in order, right after the transaction
      opens, whatever the replies turn out to be. */
  lemma AllBatchesSubmitted(w: Warehouse, n: nat)
    requires w.begin.Ok?
    ensures |Run(w, n).1| > n + 1
    ensures Run(w, n).1[..n + 1] == [Begin] + Inserts(n)
    ensures forall k :: n + 1 <= k < |Run(w, n).1| ==> !Run(w, n).1[k].Insert?
  {
    RunMatchesExpected(w, n);
  }

  /** The error `load` rejects with: a failed rollback's own error, else the
      first failed batch's, else the upsert's, else the commit's. */
  lemma RejectionCause(w: Warehouse, n: nat)
    requires Run(w, n).0.Failure?
    ensures var e := Run(w, n).0.error;
            if w.begin.Fail? then e == w.begin.error
            else if (exists i :: 0 <= i < n && w.insert(i).Fail?) || w.upsert.Fail? then
              (w.rollback.Fail? ==> e == w.rollback.error)
              && (w.rollback.Ok? && (exists i :: 0 <= i < n && w.insert(i).Fail?) ==>
                    exists i :: 0 <= i < n && w.insert(i) == Fail(e) && forall j :: 0 <= j < i ==> w.insert(j).Ok?)
              && (w.rollback.Ok? && (forall i :: 0 <= i < n ==> w.insert(i).Ok?) ==> e == w.upsert.error)
            else w.commit == Fail(e)
  {
    RunMatchesExpected(w, n);
    if w.begin.Ok? {
      var rs := Replies(w, n);
      var failure := FirstFailure(rs);
      if failure.Some? && w.rollback.Ok? {
        var i :| 0 <= i < |rs| && rs[i] == Fail(failure.value) && forall j :: 0 <= j < i ==> rs[j].Ok?;
        assert w.insert(i) == Fail(failure.value);
      }
      if (exists i :: 0 <= i < n && w.insert(i).Fail?) {
        var i :| 0 <= i < n && w.insert(i).Fail?;
        assert rs[i].Fail?;
      }
    }
  }

  /** With no rows there are no batches, yet the upsert still runs and the
      transaction commits, resolving with no results. */
  lemma NoBatches(w: Warehouse)
    requires w.begin.Ok? && w.upsert.Ok? && w.commit.Ok?
    ensures Run(w, 0) == (Success([]), [Begin, Upsert, Commit])
  {
    RunMatchesExpected(w, 0);
    assert Inserts(0) == [] && Replies(w, 0) == [];
    assert [Begin] + [] + [Upsert, Commit] == [Begin, Upsert, Commit];
  }
}
