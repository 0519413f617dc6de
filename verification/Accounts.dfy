/** Single use, version counting, registration and password reset over whole runs. */
module Accounts {
  import opened Text
  import opened Security
  import opened Schema
  import opened Transactions
  import opened Bodies
  import opened Protocol
  import opened Effects
  import opened Invariant
  import opened Runs

  // ---- Refresh tokens are used once ----

  /** In any interleaving of refreshes and logouts, at most one commit consumes a given refresh token. */
  lemma SingleUse(cfg: Config, s: State, i: nat, j: nat, d: Digest)
    requires Reachable(cfg, s) && i < |s.w.log| && j < |s.w.log|
    requires Consumed(s.w.log[i]) == Some(d) && Consumed(s.w.log[j]) == Some(d)
    ensures i == j && d in s.w.db.tokens && s.w.db.tokens[d].revoked
  {
    ReachableCommits(cfg, s);
    assert SpentRow(s.w.db.tokens, d);
  }

  /** A refresh row is never deleted, moved to another user or org, re-dated, or un-revoked. */
  lemma RowsOnlyGetRevoked(cfg: Config, s: State, steps: seq<Step>, d: Digest)
    requires Reachable(cfg, s) && Exec(cfg, s, steps).Some? && d in s.w.db.tokens
    ensures var t' := Exec(cfg, s, steps).value.w.db.tokens; d in t' && KeepsRow(s.w.db.tokens[d], t'[d])
  {
    RunGoesOn(cfg, s, steps);
  }

  /** A refresh that reports an error from its transaction left every table as it was. */
  lemma FailedRefreshChangesNothing(cfg: Config, w: World, id: nat, secret: string, ch: Choice)
    ensures var (w', ph') := Advance(cfg, w, id, RefreshRotate(secret), ch); ph'.Done? ==> w' == w && ph'.outcome.Err?
  {
  }

  // ---- Versions ----

  /** A user's token_version is the number of committed logouts, password changes and resets. */
  lemma VersionCountsRevocations(cfg: Config, s: State, u: Uuid)
    requires Reachable(cfg, s) && u in s.w.db.users
    ensures s.w.db.users[u].version == Revocations(s.w.log, u) <= MAX_INT32
  {
    ReachableVersions(cfg, s);
    ReachableTables(cfg, s);
  }

  /** The revoking step a phase is about to take, if any, is aimed at this user. */
  predicate AboutToRevoke(w: World, ph: Phase, u: Uuid) {
    match ph
    case LogoutRevoke(secret) =>
      Consumable(w.db, HashOpaqueToken(secret), w.now) && w.db.tokens[HashOpaqueToken(secret)].user == u
    case ResetCommit(_, v, _) => u == v
    case ChangeCommit(v, _) => u == v
    case _ => false
  }

  /** Users other than u and their refresh rows are as they were. */
  ghost predicate OthersKept(db: Db, db': Db, u: Uuid) {
    && db'.users.Keys == db.users.Keys && (forall v :: v in db.users && v != u ==> db'.users[v] == db.users[v])
    && db'.tokens.Keys == db.tokens.Keys
    && forall d :: d in db.tokens && db.tokens[d].user != u ==> db'.tokens[d] == db.tokens[d]
  }

  /** w' is w with one more commit, which revoked u and nobody else: next version, no live refresh row. */
  ghost predicate RevokedNow(w: World, w': World, u: Uuid) {
    && u in w.db.users && u in w'.db.users && w'.db.users[u].version == w.db.users[u].version + 1
    && LiveRows(w'.db.tokens, u) == {}
    && OthersKept(w.db, w'.db, u)
    && |w'.log| == |w.log| + 1 && w.log <= w'.log && RevokesUser(w'.log[|w.log|], u)
  }

  lemma RevokingRevokes(w: World, db: Db, id: nat, u: Uuid, cause: Cause)
    requires u in w.db.users && u in db.users && db.users[u].version == w.db.users[u].version
    requires OthersKept(w.db, db, u)
    ensures RevokedNow(w, Committed(w, Revoking(db, u), id, Revoked(u, cause)), u)
  {
    LiveRowsAfterRevoke(db.tokens, u, u);
  }

  /** A fault-free revoking step: all of the revocation, or at the largest version none of it. */
  ghost predicate RevokesOrRefuses(w: World, step: (World, Phase), u: Uuid)
    requires u in w.db.users
  {
    if w.db.users[u].version == MAX_INT32 then step.0 == w && step.1.Done? && step.1.outcome.Err?
    else step.1 == Done(Ok(NoTokens)) && RevokedNow(w, step.0, u)
  }

  lemma SetPasswordRevokes(cfg: Config, w: World, id: nat, u: Uuid, hash: string, cause: Cause)
    requires u in w.db.users
    ensures RevokesOrRefuses(w, SetPassword(cfg, w, id, u, hash, cause, NO_FAULTS), u)
  {
    PasswordTx(cfg.sql, w.db, u, hash, NO_FAULTS);
    RevokingRevokes(w, WithPassword(w.db, u, hash), id, u, cause);
  }

  lemma LogoutRevokes(cfg: Config, w: World, id: nat, secret: string, ch: Choice, u: Uuid)
    requires ch.faults == NO_FAULTS && Consumable(w.db, HashOpaqueToken(secret), w.now)
    requires w.db.tokens[HashOpaqueToken(secret)].user == u && u in w.db.users
    ensures RevokesOrRefuses(w, ConsumeAndRevoke(cfg, w, id, secret, ch), u)
  {
    LogoutTx(cfg.sql, w.db, HashOpaqueToken(secret), w.now, ch.faults);
    RevokingRevokes(w, w.db, id, u, ByLogout(HashOpaqueToken(secret)));
  }

  /** Without faults a revoking transaction commits exactly when the version is not the largest int32;
      there it fails and takes the password write and the revocations with it instead of wrapping. */
  lemma RevokesUnlessAtMaximum(cfg: Config, w: World, id: nat, ph: Phase, ch: Choice, u: Uuid)
    requires AboutToRevoke(w, ph, u) && ch.faults == NO_FAULTS && u in w.db.users
    ensures RevokesOrRefuses(w, Advance(cfg, w, id, ph, ch), u)
  {
    match ph
    case LogoutRevoke(secret) => LogoutRevokes(cfg, w, id, secret, ch, u);
    case ResetCommit(key, _, _) => SetPasswordRevokes(cfg, w, id, u, ch.hash, ByReset(key, ch.hash));
    case ChangeCommit(_, _) => SetPasswordRevokes(cfg, w, id, u, ch.hash, ByChange(ch.hash));
  }

  /** The stored hash is the one the last committed sign-up or password change set. */
  lemma HashIsLastCommitted(cfg: Config, s: State, u: Uuid)
    requires Reachable(cfg, s) && u in s.w.db.users
    ensures LastHash(s.w.log, u) == Some(s.w.db.users[u].hash)
  {
    ReachableVersions(cfg, s);
  }

  /** Live refresh rows of u: one for each session opened since u was last revoked, no more and no fewer. */
  lemma LiveRowsAreOpenSessions(cfg: Config, s: State, u: Uuid)
    requires Reachable(cfg, s)
    ensures |LiveRows(s.w.db.tokens, u)| == OpenSessions(s.w.log, u)
  {
    ReachableVersions(cfg, s);
  }

  // ---- Registration ----

  /** No two users share LOWER(email). */
  lemma EmailsStayUnique(cfg: Config, s: State, u: Uuid, v: Uuid)
    requires Reachable(cfg, s) && u in s.w.db.users && v in s.w.db.users
    requires SameEmail(cfg.sql, s.w.db.users[u].email, s.w.db.users[v].email)
    ensures u == v
  {
    ReachableTables(cfg, s);
  }

  lemma {:induction false} TwoSignUpsCountTwo(log: seq<Commit>, i: nat, j: nat, u: Uuid)
    requires i < j < |log|
    requires log[i].event.SignedUp? && log[i].event.user == u && log[j].event.SignedUp? && log[j].event.user == u
    ensures SignUpCount(log, u) >= 2
    decreases |log|
  {
    var init := log[..|log| - 1];
    if j < |log| - 1 {
      TwoSignUpsCountTwo(init, i, j, u);
    } else {
      OneSignUpCountsOne(init, i, u);
    }
  }

  lemma {:induction false} OneSignUpCountsOne(log: seq<Commit>, i: nat, u: Uuid)
    requires i < |log| && log[i].event.SignedUp? && log[i].event.user == u
    ensures SignUpCount(log, u) >= 1
    decreases |log|
  {
    if i < |log| - 1 { OneSignUpCountsOne(log[..|log| - 1], i, u); }
  }

  /** Among any number of concurrent registrations, at most one commit ever creates a user for an
      email, and the user it creates keeps that email and the admin membership of the same commit. */
  lemma OneSignUpPerEmail(cfg: Config, s: State, i: nat, j: nat)
    requires Reachable(cfg, s) && i < |s.w.log| && j < |s.w.log|
    requires s.w.log[i].event.SignedUp? && s.w.log[j].event.SignedUp?
    requires SameEmail(cfg.sql, s.w.log[i].event.email, s.w.log[j].event.email)
    ensures i == j
    ensures var e := s.w.log[i].event;
      && e.user in s.w.db.users && s.w.db.users[e.user].email == e.email
      && (e.user, e.org) in s.w.db.members && s.w.db.members[(e.user, e.org)] == "admin"
  {
    ReachableCommits(cfg, s);
    ReachableTables(cfg, s);
    var e, f := s.w.log[i].event, s.w.log[j].event;
    assert SignUpOk(s.w, e) && SignUpOk(s.w, f);
    assert e.user == f.user;
    if i < j { TwoSignUpsCountTwo(s.w.log, i, j, e.user); }
    if j < i { TwoSignUpsCountTwo(s.w.log, j, i, e.user); }
  }

  /** Every stored user signed up. */
  lemma {:induction false} SignUpExists(log: seq<Commit>, u: Uuid)
    requires SignUpCount(log, u) > 0
    ensures exists i :: 0 <= i < |log| && log[i].event.SignedUp? && log[i].event.user == u
    decreases |log|
  {
    var init := log[..|log| - 1];
    if SignUpCount(init, u) > 0 {
      SignUpExists(init, u);
      var i :| 0 <= i < |init| && init[i].event.SignedUp? && init[i].event.user == u;
      assert log[i].event.SignedUp?;
    } else {
      assert log[|log| - 1].event.SignedUp?;
    }
  }

  lemma UsersSignedUp(cfg: Config, s: State, u: Uuid)
    requires Reachable(cfg, s) && u in s.w.db.users
    ensures exists i :: 0 <= i < |s.w.log| && s.w.log[i].event.SignedUp? && s.w.log[i].event.user == u
  {
    ReachableCommits(cfg, s);
    SignUpExists(s.w.log, u);
  }

  /** The call that passed the lookup but lost the race for the unique index reports ErrEmailExists; so
      does one whose generated user id is taken, and no other. */
  lemma RaceLoserReportsEmailExists(cfg: Config, w: World, id: nat, ph: Phase, ch: Choice)
    requires ph.RegisterInsert? && ch.faults == NO_FAULTS
    ensures var (w', ph') := Advance(cfg, w, id, ph, ch);
      && (ph' == Done(Err(EmailExists)) <==> ch.uid in w.db.users || EmailTaken(cfg.sql, w.db, ph.email))
      && (ph'.Done? ==> w' == w)
      && (ph'.IssueSign? <==> CanRegister(cfg.sql, w.db, ch.uid, ch.oid, ph.email))
  {
    RegisterTx(cfg.sql, w.db, ch.uid, ch.oid, ph.email, ch.hash, ph.fullName, ch.faults);
    EmailExistsReported(cfg.sql, w.db, ch.uid, ch.oid, ph.email, ch.hash, ph.fullName);
  }

  // ---- Password reset ----

  predicate ResetsWith(c: Commit, k: CacheKey) {
    c.event.Revoked? && c.event.cause.ByReset? && c.event.cause.key == k
  }

  /** A reset token drives at most one password change, of the user whose email asked for it, by the
      request that took it, less than an hour after it was stored. */
  lemma ResetTokenOnce(cfg: Config, s: State, i: nat, j: nat, k: CacheKey)
    requires Reachable(cfg, s) && i < |s.w.log| && j < |s.w.log|
    requires ResetsWith(s.w.log[i], k) && ResetsWith(s.w.log[j], k)
    ensures i == j
    ensures k in s.w.keys && k !in s.w.resets
    ensures var h := s.w.keys[k]; var u := s.w.log[i].event.user;
      && h.user == u && u in s.w.db.users && SameEmail(cfg.sql, s.w.db.users[u].email, h.email)
      && h.taken.Some? && h.taken.value.req == s.w.log[i].req && h.taken.value.at < h.storedAt + HOUR
  {
    ReachableKeys(cfg, s);
    ReachableCommits(cfg, s);
    assert ResetOk(s.w, s.w.log[i]) && ResetOk(s.w, s.w.log[j]) && KeyOk(cfg, s.w, s.w.keys[k]);
  }

  /** A weak password is refused before the token is looked at. */
  lemma WeakResetKeepsToken(cfg: Config, s: State, id: nat, token: string, password: string)
    requires id !in s.reqs && !StrongPassword(cfg.go, password)
    ensures var s' := Apply(cfg, s, Start(id, ResetPassword(token, password)));
      s'.Some? && s'.value.w == s.w && s'.value.reqs[id] == Done(Err(WeakPassword))
  {
  }

  /** A token that was taken is gone for good: whatever became of the request that took it,
      presenting it again is refused. */
  lemma TakenTokenIsGone(cfg: Config, s: State, steps: seq<Step>, k: CacheKey, id: nat, token: string,
          password: string, ch: Choice)
    requires Reachable(cfg, s) && Exec(cfg, s, steps).Some?
    requires k in s.w.keys && s.w.keys[k].taken.Some? && PasswordResetCacheKey(token) == k
    ensures var w' := Exec(cfg, s, steps).value.w;
      Advance(cfg, w', id, ResetTake(token, password), ch) == (w', Done(Err(InvalidToken)))
  {
    RunGoesOn(cfg, s, steps);
    ReachableKeys(cfg, Exec(cfg, s, steps).value);
  }

  /** A reset that fails after its key was taken, as when bcrypt refuses a password that is strong but too
      long, burns its token: presenting it again is refused for good. */
  lemma LostResetBurnsToken(cfg: Config, s: State, id: nat, steps: seq<Step>, other: nat, token: string,
          password: string, ch: Choice)
    requires Reachable(cfg, s) && id in s.reqs && s.reqs[id].ResetCommit?
    requires s.reqs[id].key == PasswordResetCacheKey(token)
    requires Exec(cfg, s, [Crash(id)] + steps).Some?
    ensures var s' := Exec(cfg, s, [Crash(id)] + steps).value;
      Advance(cfg, s'.w, other, ResetTake(token, password), ch) == (s'.w, Done(Err(InvalidToken)))
  {
    ReachablePhase(cfg, s, id);
    TakenTokenIsGone(cfg, s, [Crash(id)] + steps, s.reqs[id].key, other, token, password, ch);
  }

  /** The reset keys whose commits changed u's password. */
  function UsedKeys(log: seq<Commit>, u: Uuid): set<CacheKey> {
    if log == [] then {}
    else
      var c := log[|log| - 1];
      UsedKeys(log[..|log| - 1], u) + if RevokesUser(c, u) && c.event.cause.ByReset? then {c.event.cause.key} else {}
  }

  /** How many resets of u have committed. */
  function ResetCount(log: seq<Commit>, u: Uuid): nat {
    if log == [] then 0
    else
      var c := log[|log| - 1];
      ResetCount(log[..|log| - 1], u) + if RevokesUser(c, u) && c.event.cause.ByReset? then 1 else 0
  }

  lemma {:induction false} UsedKeysFrom(log: seq<Commit>, u: Uuid, k: CacheKey)
    ensures k in UsedKeys(log, u) <==> exists i :: 0 <= i < |log| && RevokesUser(log[i], u) && ResetsWith(log[i], k)
    decreases |log|
  {
    if log != [] {
      var init := log[..|log| - 1];
      UsedKeysFrom(init, u, k);
      assert forall i :: 0 <= i < |init| ==> init[i] == log[i];
    }
  }

  lemma {:induction false} ResetsUseDistinctKeys(log: seq<Commit>, u: Uuid)
    requires forall i, j, k :: 0 <= i < j < |log| && ResetsWith(log[i], k) ==> !ResetsWith(log[j], k)
    ensures |UsedKeys(log, u)| == ResetCount(log, u)
    decreases |log|
  {
    if log != [] {
      var init, c := log[..|log| - 1], log[|log| - 1];
      assert forall i :: 0 <= i < |init| ==> init[i] == log[i];
      ResetsUseDistinctKeys(init, u);
      if RevokesUser(c, u) && c.event.cause.ByReset? {
        var k := c.event.cause.key;
        UsedKeysFrom(init, u, k);
        assert k !in UsedKeys(init, u);
      }
    }
  }

  /** Successful resets of u never outnumber the reset keys stored for u. */
  lemma ResetsBoundedByKeys(cfg: Config, s: State, u: Uuid)
    requires Reachable(cfg, s)
    ensures ResetCount(s.w.log, u) <= |set k | k in s.w.keys && s.w.keys[k].user == u|
  {
    ReachableKeys(cfg, s);
    var log, stored := s.w.log, set k | k in s.w.keys && s.w.keys[k].user == u;
    forall i, j, k | 0 <= i < j < |log| && ResetsWith(log[i], k) ensures !ResetsWith(log[j], k) {
      if ResetsWith(log[j], k) { ResetTokenOnce(cfg, s, i, j, k); }
    }
    ResetsUseDistinctKeys(log, u);
    forall k | k in UsedKeys(log, u) ensures k in stored {
      UsedKeysFrom(log, u, k);
      var i :| 0 <= i < |log| && RevokesUser(log[i], u) && ResetsWith(log[i], k);
      assert ResetOk(s.w, log[i]);
    }
    SubsetSize(UsedKeys(log, u), stored);
  }

  lemma {:induction false} SubsetSize<T>(a: set<T>, b: set<T>)
    requires a <= b
    ensures |a| <= |b|
  {
    if a != {} {
      var x :| x in a;
      SubsetSize(a - {x}, b - {x});
    }
  }
}
