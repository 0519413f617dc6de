/** The four transaction bodies of the auth service and, for each, its exact effect. */
module Bodies {
  import opened Text
  import opened Security
  import opened Schema
  import opened Transactions

  function Wrap(e: SqlError): Error {
    if e == NotFound then NoRows else Internal
  }

  // ---- Register ----

  datatype Registered = Registered(user: User)

  function FoundingBody(uid: Uuid, oid: Uuid, user: User): (p: Prog<Registered>)
    ensures AtMost(p, 2) && Finite(p)
  {
    Query(InsertOrg(oid), (b: Answer) =>
      match b
      case Failure(e) => Raise(Wrap(e))
      case Rows(_) =>
        Query(InsertMember(uid, oid, "admin"), (c: Answer) =>
          match c
          case Failure(e) => Raise(Wrap(e))
          case Rows(_) => Return(Registered(user))))
  }

  function RegisterBody(uid: Uuid, oid: Uuid, email: string, hash: string, fullName: string): (p: Prog<Registered>)
    ensures AtMost(p, 3) && Finite(p)
  {
    Query(InsertUser(uid, email, hash, fullName), (a: Answer) =>
      match a
      // any 23505 counts as an email clash
      case Failure(e) => Raise(if e == UniqueViolation then EmailExists else Wrap(e))
      case Rows(reply) =>
        if !reply.UserReply? then Raise(Internal) else FoundingBody(uid, oid, reply.user))
  }

  predicate CanRegister(sql: Chars, db: Db, uid: Uuid, oid: Uuid, email: string) {
    uid !in db.users && !EmailTaken(sql, db, email) && oid !in db.orgs && (uid, oid) !in db.members
  }

  function Registering(db: Db, uid: Uuid, user: User, oid: Uuid): Db {
    Db(db.users[uid := user], db.orgs + {oid}, db.members[(uid, oid) := "admin"], db.tokens)
  }

  lemma RegisterAlone(sql: Chars, db: Db, uid: Uuid, oid: Uuid, email: string, hash: string, fullName: string)
    ensures var s := Alone(sql, db, RegisterBody(uid, oid, email, hash, fullName), 3);
      var user := User(email, hash, fullName, 0);
      if CanRegister(sql, db, uid, oid, email) then
        s.clean && |s.stmts| == 3 && s.result == Ok(Registered(user)) && s.db == Registering(db, uid, user, oid)
      else s.result.Err?
  {
  }

  /** The whole registration commits, or none of it; losing the email to another user is ErrEmailExists. */
  lemma RegisterTx(sql: Chars, db: Db, uid: Uuid, oid: Uuid, email: string, hash: string, fullName: string, f: Faults)
    ensures var (db', r) := WithTx(sql, db, RegisterBody(uid, oid, email, hash, fullName), f);
      var user := User(email, hash, fullName, 0);
      && (r.Ok? ==>
            && CanRegister(sql, db, uid, oid, email) && r.value.user == user
            && db' == Registering(db, uid, user, oid))
      && (r.Err? ==> db' == db)
      && (f == NO_FAULTS ==> (r.Ok? <==> CanRegister(sql, db, uid, oid, email)))
      && (f == NO_FAULTS && EmailTaken(sql, db, email) ==> r == Err(EmailExists))
  {
    var p := RegisterBody(uid, oid, email, hash, fullName);
    RegisterAlone(sql, db, uid, oid, email, hash, fullName);
    AllOrNothing(sql, db, p, 3, f);
    if f == NO_FAULTS && EmailTaken(sql, db, email) {
      var (db1, a) := Execute(sql, db, p.stmt);
      WithTxIs(sql, db, p, 3, f);
      assert RunBody(sql, db1, true, p.next(a), 2, None).result == Err(EmailExists);
    }
  }

  // ---- Refresh ----

  datatype Refreshed = Refreshed(uid: Uuid, user: User, org: Uuid, role: string)

  function RefreshBody(presented: Digest, minted: Digest, now: int, expires: int): (p: Prog<Refreshed>)
    ensures AtMost(p, 4) && Finite(p)
  {
    Query(ConsumeToken(presented, now), (a: Answer) =>
      match a
      case Failure(e) => Raise(if e == NotFound then InvalidToken else Wrap(e))
      case Rows(rt) =>
        if !rt.TokenReply? then Raise(Internal) else
        Query(SelectUser(rt.row.user), (b: Answer) =>
          match b
          case Failure(e) => Raise(if e == NotFound then InvalidToken else Wrap(e))
          case Rows(u) =>
            if !u.UserReply? then Raise(Internal) else
            Query(SelectMember(u.id, rt.row.org), (c: Answer) =>
              match c
              case Failure(e) => Raise(if e == NotFound then InvalidToken else Wrap(e))
              case Rows(m) =>
                if !m.MemberReply? then Raise(Internal) else
                Query(InsertToken(minted, u.id, rt.row.org, expires), (d: Answer) =>
                  match d
                  case Failure(e) => Raise(Wrap(e))
                  case Rows(_) => Return(Refreshed(u.id, u.user, rt.row.org, m.role))))))
  }

  predicate CanRefresh(db: Db, presented: Digest, minted: Digest, now: int) {
    && Consumable(db, presented, now)
    && minted !in db.tokens
    && var row := db.tokens[presented];
       row.user in db.users && row.org in db.orgs && (row.user, row.org) in db.members
  }

  function RotatedRows(tokens: map<Digest, Row>, presented: Digest, minted: Digest, expires: int): map<Digest, Row>
    requires presented in tokens
  {
    var row := tokens[presented];
    tokens[presented := row.(revoked := true)][minted := Row(row.user, row.org, expires, false)]
  }

  function Rotating(db: Db, presented: Digest, minted: Digest, expires: int): Db
    requires presented in db.tokens
  {
    db.(tokens := RotatedRows(db.tokens, presented, minted, expires))
  }

  function RefreshValue(db: Db, presented: Digest): Refreshed
    requires presented in db.tokens
    requires var row := db.tokens[presented]; row.user in db.users && (row.user, row.org) in db.members
  {
    var row := db.tokens[presented];
    Refreshed(row.user, db.users[row.user], row.org, db.members[(row.user, row.org)])
  }

  lemma RefreshAlone(sql: Chars, db: Db, presented: Digest, minted: Digest, now: int, expires: int)
    ensures var s := Alone(sql, db, RefreshBody(presented, minted, now, expires), 4);
      if CanRefresh(db, presented, minted, now) then
        && s.clean && |s.stmts| == 4 && s.result == Ok(RefreshValue(db, presented))
        && s.db == Rotating(db, presented, minted, expires)
      else s.result.Err?
  {
  }

  /** Rotation is one commit: the presented token is spent exactly when its replacement is stored. */
  lemma RefreshTx(sql: Chars, db: Db, presented: Digest, minted: Digest, now: int, expires: int, f: Faults)
    ensures var (db', r) := WithTx(sql, db, RefreshBody(presented, minted, now, expires), f);
      && (r.Ok? ==>
            && CanRefresh(db, presented, minted, now) && r.value == RefreshValue(db, presented)
            && db' == Rotating(db, presented, minted, expires))
      && (r.Err? ==> db' == db)
      && (f == NO_FAULTS ==> (r.Ok? <==> CanRefresh(db, presented, minted, now)))
      && (f == NO_FAULTS && !Consumable(db, presented, now) ==> r == Err(InvalidToken))
  {
    var p := RefreshBody(presented, minted, now, expires);
    RefreshAlone(sql, db, presented, minted, now, expires);
    AllOrNothing(sql, db, p, 4, f);
    if f == NO_FAULTS && !Consumable(db, presented, now) {
      WithTxIs(sql, db, p, 4, f);
      assert RunBody(sql, db, false, p.next(Failure(NotFound)), 3, None).result == Err(InvalidToken);
    }
  }

  // ---- Logout, and the body shared by ResetPassword and ChangePassword ----

  /** Bump the version, then revoke every refresh token of the user. */
  function RevokeBody<R>(u: Uuid, value: R): (p: Prog<R>)
    ensures AtMost(p, 2) && Finite(p)
  {
    Query(IncrementVersion(u), (a: Answer) =>
      match a
      case Failure(e) => Raise(Wrap(e))
      case Rows(_) =>
        Query(RevokeAll(u), (b: Answer) =>
          match b
          case Failure(e) => Raise(Wrap(e))
          case Rows(_) => Return(value)))
  }

  predicate CanRevoke(db: Db, u: Uuid) {
    u in db.users ==> db.users[u].version != MAX_INT32
  }

  function Revoking(db: Db, u: Uuid): Db {
    var db' := WithNextVersion(db, u);
    db'.(tokens := RevokedRows(db.tokens, u))
  }

  lemma RevokeAlone<R>(sql: Chars, db: Db, u: Uuid, value: R)
    ensures var s := Alone(sql, db, RevokeBody(u, value), 2);
      if CanRevoke(db, u) then s.clean && |s.stmts| == 2 && s.result == Ok(value) && s.db == Revoking(db, u)
      else s.result.Err?
  {
  }

  function LogoutBody(presented: Digest, now: int): (p: Prog<Option<Uuid>>)
    ensures AtMost(p, 3) && Finite(p)
  {
    Query(ConsumeToken(presented, now), (a: Answer) =>
      match a
      case Failure(e) => if e == NotFound then Return(None) else Raise(Wrap(e))
      case Rows(rt) => if !rt.TokenReply? then Raise(Internal) else RevokeBody(rt.row.user, Some(rt.row.user)))
  }

  /** Logging out a live token; spending it is absorbed by revoking every row of its user. */
  lemma LogoutAlone(sql: Chars, db: Db, presented: Digest, now: int)
    ensures var s := Alone(sql, db, LogoutBody(presented, now), 3);
      if !Consumable(db, presented, now) then s.clean && s.result == Ok(None) && s.db == db && |s.stmts| == 1
      else var u := db.tokens[presented].user;
        if CanRevoke(db, u) then s.clean && |s.stmts| == 3 && s.result == Ok(Some(u)) && s.db == Revoking(db, u)
        else s.result.Err?
  {
    var p := LogoutBody(presented, now);
    var (db1, a) := Execute(sql, db, p.stmt);
    if Consumable(db, presented, now) {
      var u := db.tokens[presented].user;
      RevokeAlone(sql, db1, u, Some(u));
      assert p.next(a) == RevokeBody(u, Some(u));
      assert RevokedRows(db1.tokens, u) == RevokedRows(db.tokens, u);
    } else {
      assert Alone(sql, db1, p.next(a), 2).result == Ok(None);
    }
  }

  /** A logout revokes every session of the token's user in one commit, or changes nothing. */
  lemma LogoutTx(sql: Chars, db: Db, presented: Digest, now: int, f: Faults)
    ensures var (db', r) := WithTx(sql, db, LogoutBody(presented, now), f);
      && (r.Ok? && r.value.Some? ==>
            && Consumable(db, presented, now) && r.value.value == db.tokens[presented].user
            && CanRevoke(db, r.value.value) && db' == Revoking(db, r.value.value))
      && (!(r.Ok? && r.value.Some?) ==> db' == db)
      && (r.Ok? && r.value.None? ==> !Consumable(db, presented, now))
      && (f == NO_FAULTS ==> (r.Ok? <==> (Consumable(db, presented, now) ==> CanRevoke(db, db.tokens[presented].user))))
  {
    LogoutAlone(sql, db, presented, now);
    AllOrNothing(sql, db, LogoutBody(presented, now), 3, f);
  }

  /** ResetPassword and ChangePassword: new hash, new version, no live refresh token. */
  function PasswordBody(u: Uuid, hash: string): (p: Prog<()>)
    ensures AtMost(p, 3) && Finite(p)
  {
    Query(UpdatePassword(u, hash), (a: Answer) =>
      match a
      case Failure(e) => Raise(Wrap(e))
      case Rows(_) => RevokeBody(u, ()))
  }

  /** At the largest version the increment fails and takes the password write with it. */
  lemma PasswordTx(sql: Chars, db: Db, u: Uuid, hash: string, f: Faults)
    ensures var (db', r) := WithTx(sql, db, PasswordBody(u, hash), f);
      && (r.Ok? ==> CanRevoke(db, u) && db' == Revoking(WithPassword(db, u, hash), u))
      && (r.Err? ==> db' == db)
      && (f == NO_FAULTS ==> (r.Ok? <==> CanRevoke(db, u)))
  {
    var p := PasswordBody(u, hash);
    var (db1, a) := Execute(sql, db, p.stmt);
    RevokeAlone(sql, db1, u, ());
    assert p.next(a) == RevokeBody(u, ());
    AllOrNothing(sql, db, p, 3, f);
  }

  // ---- Exact results under every failure plan ----

  /** The failure plan hits one of the first n statements. */
  predicate Hits(f: Faults, n: nat) {
    f.stmt.Some? && f.stmt.value < n
  }

  function Rolled(f: Faults, e: Error): Error {
    if f.rollback then RollbackFailed(e) else e
  }

  /** What a registration transaction reports: the first statement alone can report ErrEmailExists. */
  function RegisterReport(sql: Chars, db: Db, uid: Uuid, oid: Uuid, user: User, f: Faults): Result<Registered> {
    if f.begin then Err(BeginFailed)
    else if Hits(f, 1) then Err(Rolled(f, Internal))
    else if uid in db.users || EmailTaken(sql, db, user.email) then Err(Rolled(f, EmailExists))
    else if Hits(f, 3) || oid in db.orgs || (uid, oid) in db.members then Err(Rolled(f, Internal))
    else if f.commit then Err(CommitFailed)
    else Ok(Registered(user))
  }

  lemma RegisterReports(sql: Chars, db: Db, uid: Uuid, oid: Uuid, email: string, hash: string, fullName: string,
          f: Faults)
    ensures WithTx(sql, db, RegisterBody(uid, oid, email, hash, fullName), f).1 ==
      RegisterReport(sql, db, uid, oid, User(email, hash, fullName, 0), f)
  {
    var p := RegisterBody(uid, oid, email, hash, fullName);
    WithTxIs(sql, db, p, 3, f);
    if f.stmt != Some(0) {
      var (db1, a) := Execute(sql, db, p.stmt);
      assert RunBody(sql, db, false, p, 3, f.stmt) == RunBody(sql, db1, a.Failure?, p.next(a), 2, Later(f.stmt));
      if a.Rows? { FoundingRuns(sql, db1, uid, oid, a.reply.user, Later(f.stmt)); }
    }
  }

  /** The rest of the body, once the user is in. */
  lemma FoundingRuns(sql: Chars, db: Db, uid: Uuid, oid: Uuid, user: User, fail: Option<nat>)
    requires uid in db.users
    ensures var t := RunBody(sql, db, false, FoundingBody(uid, oid, user), 2, fail);
      if oid in db.orgs || (uid, oid) in db.members || (fail.Some? && fail.value < 2) then t.result == Err(Internal)
      else t.result == Ok(Registered(user)) && !t.aborted
  {
    var p := FoundingBody(uid, oid, user);
    if fail != Some(0) {
      var (db1, b) := Execute(sql, db, p.stmt);
      assert RunBody(sql, db, false, p, 2, fail) == RunBody(sql, db1, b.Failure?, p.next(b), 1, Later(fail));
    }
  }

  /** ErrEmailExists is reported exactly when the email is taken or the generated id is. */
  lemma EmailExistsReported(sql: Chars, db: Db, uid: Uuid, oid: Uuid, email: string, hash: string, fullName: string)
    ensures WithTx(sql, db, RegisterBody(uid, oid, email, hash, fullName), NO_FAULTS).1 == Err(EmailExists)
      <==> uid in db.users || EmailTaken(sql, db, email)
  {
    RegisterReports(sql, db, uid, oid, email, hash, fullName, NO_FAULTS);
  }

  /** So a clash of ids is reported as a clash of emails, though nobody has the email. */
  lemma IdClashReportsEmailExists(sql: Chars, hash: string, fullName: string)
    ensures var db := Db(map["a" := User("ann@example.com", "", "", 0)], {}, map[], map[]);
      && !EmailTaken(sql, db, "bo@example.com")
      && WithTx(sql, db, RegisterBody("a", "b", "bo@example.com", hash, fullName), NO_FAULTS).1 == Err(EmailExists)
  {
    var db := Db(map["a" := User("ann@example.com", "", "", 0)], {}, map[], map[]);
    assert |ToLower(sql, "ann@example.com")| != |ToLower(sql, "bo@example.com")|;
    EmailExistsReported(sql, db, "a", "b", "bo@example.com", hash, fullName);
  }

  /** What a refresh transaction reports, given whether its token is consumable. */
  function RefreshReport(consumable: bool, v: Refreshed, f: Faults): Result<Refreshed> {
    if f.begin then Err(BeginFailed)
    else if Hits(f, if consumable then 4 else 1) then Err(Rolled(f, Internal))
    else if !consumable then Err(Rolled(f, InvalidToken))
    else if f.commit then Err(CommitFailed)
    else Ok(v)
  }

  lemma RefreshReports(sql: Chars, db: Db, presented: Digest, minted: Digest, now: int, expires: int, f: Faults,
          v: Refreshed)
    requires Consumable(db, presented, now) ==>
      CanRefresh(db, presented, minted, now) && v == RefreshValue(db, presented)
    ensures WithTx(sql, db, RefreshBody(presented, minted, now, expires), f).1 ==
      RefreshReport(Consumable(db, presented, now), v, f)
  {
    var p := RefreshBody(presented, minted, now, expires);
    RefreshTx(sql, db, presented, minted, now, expires, f);
    RefreshAlone(sql, db, presented, minted, now, expires);
    AllOrNothing(sql, db, p, 4, f);
    WithTxIs(sql, db, p, 4, f);
    var t := RunBody(sql, db, false, p, 4, f.stmt);
    if !Consumable(db, presented, now) {
      assert t.result == Err(if f.stmt == Some(0) then Internal else InvalidToken);
    } else if Hits(f, 4) {
      RefreshHit(sql, db, presented, minted, now, expires, f.stmt.value);
    } else {
      RunIsAlone(sql, db, p, 4, f.stmt);
    }
  }

  /** A refresh whose k-th statement fails stops there with an internal error. */
  lemma RefreshHit(sql: Chars, db: Db, presented: Digest, minted: Digest, now: int, expires: int, k: nat)
    requires CanRefresh(db, presented, minted, now) && k < 4
    ensures RunBody(sql, db, false, RefreshBody(presented, minted, now, expires), 4, Some(k)).result == Err(Internal)
  {
    var p := RefreshBody(presented, minted, now, expires);
    if k > 0 {
      var (db1, a) := Execute(sql, db, p.stmt);
      var p1 := p.next(a);
      assert RunBody(sql, db, false, p, 4, Some(k)) == RunBody(sql, db1, false, p1, 3, Some(k - 1));
      if k > 1 {
        var (db2, b) := Execute(sql, db1, p1.stmt);
        var p2 := p1.next(b);
        assert RunBody(sql, db1, false, p1, 3, Some(k - 1)) == RunBody(sql, db2, false, p2, 2, Some(k - 2));
        if k > 2 {
          var (db3, c) := Execute(sql, db2, p2.stmt);
          assert RunBody(sql, db2, false, p2, 2, Some(k - 2)) == RunBody(sql, db3, false, p2.next(c), 1, Some(k - 3));
        }
      }
    }
  }

  /** What the shared revoking body reports inside a transaction. */
  lemma RevokeRuns<R>(sql: Chars, db: Db, u: Uuid, value: R, fail: Option<nat>)
    requires u in db.users
    ensures var t := RunBody(sql, db, false, RevokeBody(u, value), 2, fail);
      var full := db.users[u].version == MAX_INT32;
      && (t.result == if full || (fail.Some? && fail.value < 2) then Err(Internal) else Ok(value))
      && (t.result.Ok? ==> !t.aborted)
  {
  }

  function PasswordReport(atMaximum: bool, f: Faults): Result<()> {
    if f.begin then Err(BeginFailed)
    else if Hits(f, 3) || atMaximum then Err(Rolled(f, Internal))
    else if f.commit then Err(CommitFailed)
    else Ok(())
  }

  lemma PasswordReports(sql: Chars, db: Db, u: Uuid, hash: string, f: Faults)
    requires u in db.users
    ensures WithTx(sql, db, PasswordBody(u, hash), f).1 == PasswordReport(db.users[u].version == MAX_INT32, f)
  {
    var p := PasswordBody(u, hash);
    WithTxIs(sql, db, p, 3, f);
    if f.stmt != Some(0) {
      var (db1, a) := Execute(sql, db, p.stmt);
      assert p.next(a) == RevokeBody(u, ());
      assert RunBody(sql, db, false, p, 3, f.stmt) == RunBody(sql, db1, false, p.next(a), 2, Later(f.stmt));
      RevokeRuns(sql, db1, u, (), Later(f.stmt));
    }
  }

  function LogoutReport(user: Option<Uuid>, atMaximum: bool, f: Faults): Result<Option<Uuid>> {
    if f.begin then Err(BeginFailed)
    else if Hits(f, if user.Some? then 3 else 1) || (user.Some? && atMaximum) then Err(Rolled(f, Internal))
    else if f.commit then Err(CommitFailed)
    else Ok(user)
  }

  lemma LogoutReports(sql: Chars, db: Db, presented: Digest, now: int, f: Faults)
    requires Consumable(db, presented, now) ==> db.tokens[presented].user in db.users
    ensures WithTx(sql, db, LogoutBody(presented, now), f).1 ==
      if Consumable(db, presented, now) then
        LogoutReport(Some(db.tokens[presented].user), db.users[db.tokens[presented].user].version == MAX_INT32, f)
      else LogoutReport(None, false, f)
  {
    var p := LogoutBody(presented, now);
    WithTxIs(sql, db, p, 3, f);
    if f.stmt != Some(0) {
      var (db1, a) := Execute(sql, db, p.stmt);
      assert RunBody(sql, db, false, p, 3, f.stmt) == RunBody(sql, db1, false, p.next(a), 2, Later(f.stmt));
      if Consumable(db, presented, now) {
        var u := db.tokens[presented].user;
        assert p.next(a) == RevokeBody(u, Some(u));
        RevokeRuns(sql, db1, u, Some(u), Later(f.stmt));
      }
    }
  }
}
