/** WithTx: a transaction body runs statement by statement on a working copy and is
    published as a whole or not at all. */
module Transactions {
  import opened Text
  import opened Security
  import opened Schema

  /** A transaction body: statements, each followed by whatever its answer selects. */
  datatype Prog<R> =
    | Return(value: R)
    | Raise(error: Error)
    | Query(stmt: Stmt, next: Answer -> Prog<R>)

  /** The body issues at most n statements whatever it is answered. */
  ghost predicate AtMost<R>(p: Prog<R>, n: nat)
    decreases n
  {
    p.Query? ==> n > 0 && forall a: Answer :: AtMost(p.next(a), n - 1)
  }

  ghost predicate Finite<R>(p: Prog<R>) {
    exists n: nat :: AtMost(p, n)
  }

  ghost function Bound<R>(p: Prog<R>): (n: nat)
    requires Finite(p)
    ensures AtMost(p, n)
  {
    var n: nat :| AtMost(p, n); n
  }

  /** Where the infrastructure fails: opening, the k-th statement, rolling back, a definite commit failure. */
  datatype Faults = Faults(begin: bool, stmt: Option<nat>, rollback: bool, commit: bool)

  const NO_FAULTS := Faults(false, None, false, false)

  /** The working copy, whether the server has aborted the transaction, and the body's result. */
  datatype Attempt<R> = Attempt(work: Db, aborted: bool, result: Result<R>)

  function Later(fail: Option<nat>): Option<nat> {
    if fail.Some? && fail.value > 0 then Some(fail.value - 1) else None
  }

  /** The body inside an open transaction.  A failed statement aborts the transaction:
      it and all later ones answer with an error and leave the working copy alone. */
  function RunBody<R>(sql: Chars, work: Db, aborted: bool, p: Prog<R>, n: nat, fail: Option<nat>): Attempt<R>
    requires AtMost(p, n)
    decreases n
  {
    match p
    case Return(v) => Attempt(work, aborted, Ok(v))
    case Raise(e) => Attempt(work, aborted, Err(e))
    case Query(st, next) =>
      if aborted || fail == Some(0) then
        RunBody(sql, work, true, next(Failure(Aborted)), n - 1, Later(fail))
      else
        var (work', a) := Execute(sql, work, st);
        RunBody(sql, work', a.Failure? && a.error != NotFound, next(a), n - 1, Later(fail))
  }

  /** Rollback keeps the body's error inside its own when it fails too. */
  ghost function WithTx<R>(sql: Chars, db: Db, p: Prog<R>, f: Faults): (Db, Result<R>)
    requires Finite(p)
  {
    if f.begin then (db, Err(BeginFailed)) else Close(db, RunBody(sql, db, false, p, Bound(p), f.stmt), f)
  }

  /** Commit or roll back.  Committing an aborted transaction rolls it back and is an error. */
  function Close<R>(db: Db, t: Attempt<R>, f: Faults): (Db, Result<R>) {
    match t.result
    case Err(e) => (db, Err(if f.rollback then RollbackFailed(e) else e))
    case Ok(v) => if t.aborted || f.commit then (db, Err(CommitFailed)) else (t.work, Ok(v))
  }

  // ---- Reference: the same body with every statement committed on its own ----

  /** The database reached, the statements issued, whether the server failed none of them, and the body's result. */
  datatype Script<R> = Script(db: Db, stmts: seq<Stmt>, clean: bool, result: Result<R>)

  function Alone<R>(sql: Chars, db: Db, p: Prog<R>, n: nat): Script<R>
    requires AtMost(p, n)
    decreases n
  {
    match p
    case Return(v) => Script(db, [], true, Ok(v))
    case Raise(e) => Script(db, [], true, Err(e))
    case Query(st, next) =>
      var (db', a) := Execute(sql, db, st);
      var rest := Alone(sql, db', next(a), n - 1);
      Script(rest.db, [st] + rest.stmts, (a.Failure? ==> a.error == NotFound) && rest.clean, rest.result)
  }

  /** The effect of a list of statements run one after the other. */
  function Replay(sql: Chars, db: Db, stmts: seq<Stmt>): Db
    decreases |stmts|
  {
    if stmts == [] then db else Replay(sql, Execute(sql, db, stmts[0]).0, stmts[1..])
  }

  lemma {:induction false} RunAborted<R>(sql: Chars, work: Db, p: Prog<R>, n: nat, fail: Option<nat>)
    requires AtMost(p, n)
    ensures RunBody(sql, work, true, p, n, fail).aborted
    decreases n
  {
    if p.Query? { RunAborted(sql, work, p.next(Failure(Aborted)), n - 1, Later(fail)); }
  }

  /** Inside a transaction that never aborts, the body does what it does alone. */
  lemma {:induction false} RunIsAlone<R>(sql: Chars, db: Db, p: Prog<R>, n: nat, fail: Option<nat>)
    requires AtMost(p, n)
    ensures var t := RunBody(sql, db, false, p, n, fail); var s := Alone(sql, db, p, n);
      && (!t.aborted <==> s.clean && !(fail.Some? && fail.value < |s.stmts|))
      && (!t.aborted ==> t.result == s.result && t.work == s.db)
    decreases n
  {
    if p.Query? {
      var (db', a) := Execute(sql, db, p.stmt);
      var s := Alone(sql, db, p, n);
      if fail == Some(0) {
        RunAborted(sql, db, p.next(Failure(Aborted)), n - 1, Later(fail));
      } else if a.Failure? && a.error != NotFound {
        RunAborted(sql, db', p.next(a), n - 1, Later(fail));
      } else {
        RunIsAlone(sql, db', p.next(a), n - 1, Later(fail));
      }
    }
  }

  lemma {:induction false} AloneIsReplay<R>(sql: Chars, db: Db, p: Prog<R>, n: nat)
    requires AtMost(p, n)
    ensures var s := Alone(sql, db, p, n); s.db == Replay(sql, db, s.stmts)
    decreases n
  {
    if p.Query? {
      var (db', a) := Execute(sql, db, p.stmt);
      AloneIsReplay(sql, db', p.next(a), n - 1);
      assert Alone(sql, db, p, n).stmts[1..] == Alone(sql, db', p.next(a), n - 1).stmts;
    }
  }

  /** How large a bound is used does not matter. */
  lemma {:induction false} RunBodySame<R>(sql: Chars, work: Db, aborted: bool, p: Prog<R>, m: nat, n: nat,
          fail: Option<nat>)
    requires AtMost(p, m) && AtMost(p, n)
    ensures RunBody(sql, work, aborted, p, m, fail) == RunBody(sql, work, aborted, p, n, fail)
    decreases n
  {
    if p.Query? {
      if aborted || fail == Some(0) {
        RunBodySame(sql, work, true, p.next(Failure(Aborted)), m - 1, n - 1, Later(fail));
      } else {
        var (work', a) := Execute(sql, work, p.stmt);
        RunBodySame(sql, work', a.Failure? && a.error != NotFound, p.next(a), m - 1, n - 1, Later(fail));
      }
    }
  }

  lemma WithTxIs<R>(sql: Chars, db: Db, p: Prog<R>, n: nat, f: Faults)
    requires AtMost(p, n)
    ensures Finite(p)
    ensures WithTx(sql, db, p, f) ==
      if f.begin then (db, Err(BeginFailed)) else Close(db, RunBody(sql, db, false, p, n, f.stmt), f)
  {
    RunBodySame(sql, db, false, p, Bound(p), n, f.stmt);
  }

  /** All or nothing, for every body, database and failure point: a nil error is reported
      exactly when nothing failed and the body returned, and then the database is the
      sequential effect of the statements it issued; with an error it is the old one. */
  lemma AllOrNothing<R>(sql: Chars, db: Db, p: Prog<R>, n: nat, f: Faults)
    requires AtMost(p, n)
    ensures Finite(p)
    ensures var (db', r) := WithTx(sql, db, p, f); var s := Alone(sql, db, p, n);
      && (r.Ok? <==> s.result.Ok? && s.clean && !f.begin && !f.commit && !(f.stmt.Some? && f.stmt.value < |s.stmts|))
      && (r.Ok? ==> r == s.result && db' == s.db == Replay(sql, db, s.stmts))
      && (r.Err? ==> db' == db)
  {
    WithTxIs(sql, db, p, n, f);
    RunIsAlone(sql, db, p, n, f.stmt);
    AloneIsReplay(sql, db, p, n);
  }

  lemma {:induction false} ReplayKeepsTables(sql: Chars, db: Db, stmts: seq<Stmt>)
    requires TablesOk(sql, db)
    ensures TablesOk(sql, Replay(sql, db, stmts))
    decreases |stmts|
  {
    if stmts != [] {
      ExecuteKeepsTables(sql, db, stmts[0]);
      ReplayKeepsTables(sql, Execute(sql, db, stmts[0]).0, stmts[1..]);
    }
  }

  /** Whatever the body and wherever it fails, the table constraints survive. */
  lemma WithTxKeepsTables<R>(sql: Chars, db: Db, p: Prog<R>, f: Faults)
    requires Finite(p) && TablesOk(sql, db)
    ensures TablesOk(sql, WithTx(sql, db, p, f).0)
  {
    AllOrNothing(sql, db, p, Bound(p), f);
    ReplayKeepsTables(sql, db, Alone(sql, db, p, Bound(p)).stmts);
  }
}
