/** The four Postgres tables after all migrations, their constraints, and the
    generated queries as functions from a database to a database and a reply. */
module Schema {
  import opened Text
  import opened Security

  /** A UUID in its canonical text form. */
  type Uuid = s: string | s != "" witness "0"

  const MAX_INT32 := 0x7fff_ffff

  datatype User = User(email: string, hash: string, fullName: string, version: int)

  datatype Row = Row(user: Uuid, org: Uuid, expires: int, revoked: bool)

  /** UNIQUE (user_id, org_id) is the key of `members`. */
  datatype Db = Db(
    users: map<Uuid, User>,
    orgs: set<Uuid>,
    members: map<(Uuid, Uuid), string>,
    tokens: map<Digest, Row>)

  const EMPTY := Db(map[], {}, map[], map[])

  /** LOWER(email) = LOWER($1). */
  predicate SameEmail(sql: Chars, a: string, b: string) {
    ToLower(sql, a) == ToLower(sql, b)
  }

  predicate RoleAllowed(role: string) {
    role == "admin" || role == "member"
  }

  ghost predicate EmailsUnique(sql: Chars, db: Db) {
    forall u, v :: u in db.users && v in db.users && u != v
      ==> !SameEmail(sql, db.users[u].email, db.users[v].email)
  }

  ghost predicate VersionsInRange(db: Db) {
    forall u :: u in db.users ==> 0 <= db.users[u].version <= MAX_INT32
  }

  ghost predicate MembersValid(db: Db) {
    forall k :: k in db.members ==> k.0 in db.users && k.1 in db.orgs && RoleAllowed(db.members[k])
  }

  ghost predicate TokensValid(db: Db) {
    forall d :: d in db.tokens ==> db.tokens[d].user in db.users && db.tokens[d].org in db.orgs
  }

  /** Every constraint the three migrations declare. */
  ghost predicate TablesOk(sql: Chars, db: Db) {
    EmailsUnique(sql, db) && VersionsInRange(db) && MembersValid(db) && TokensValid(db)
  }

  datatype SqlError = NotFound | UniqueViolation | CheckViolation | ForeignKeyViolation | OutOfRange | Aborted

  /** The statements a transaction can run.  Generated ids and clock readings are arguments. */
  datatype Stmt =
    | InsertUser(id: Uuid, email: string, hash: string, fullName: string)
    | InsertOrg(id: Uuid)
    | InsertMember(user: Uuid, org: Uuid, role: string)
    | InsertToken(digest: Digest, user: Uuid, org: Uuid, expires: int)
    | ConsumeToken(digest: Digest, now: int)
    | SelectUser(user: Uuid)
    | SelectMember(user: Uuid, org: Uuid)
    | UpdatePassword(user: Uuid, hash: string)
    | IncrementVersion(user: Uuid)
    | RevokeAll(user: Uuid)

  datatype Reply =
    | NoReply
    | UserReply(id: Uuid, user: User)
    | MemberReply(role: string)
    | TokenReply(row: Row)

  datatype Answer = Rows(reply: Reply) | Failure(error: SqlError)

  predicate EmailTaken(sql: Chars, db: Db, email: string) {
    exists u :: u in db.users && SameEmail(sql, db.users[u].email, email)
  }

  function WithPassword(db: Db, u: Uuid, hash: string): Db {
    if u in db.users then db.(users := db.users[u := db.users[u].(hash := hash)]) else db
  }

  function WithNextVersion(db: Db, u: Uuid): Db {
    if u in db.users then db.(users := db.users[u := db.users[u].(version := db.users[u].version + 1)]) else db
  }

  function RevokedRows(tokens: map<Digest, Row>, u: Uuid): map<Digest, Row> {
    map d | d in tokens :: if tokens[d].user == u then tokens[d].(revoked := true) else tokens[d]
  }

  predicate Consumable(db: Db, d: Digest, now: int) {
    d in db.tokens && !db.tokens[d].revoked && now < db.tokens[d].expires
  }

  function Spend(db: Db, d: Digest): Db
    requires d in db.tokens
  {
    db.(tokens := db.tokens[d := db.tokens[d].(revoked := true)])
  }

  /** One statement, run alone.  A failing statement changes nothing. */
  function Execute(sql: Chars, db: Db, st: Stmt): (r: (Db, Answer))
    ensures r.1.Failure? ==> r.0 == db
  {
    match st
    case InsertUser(id, email, hash, fullName) =>
      if id in db.users || EmailTaken(sql, db, email) then (db, Failure(UniqueViolation))
      else
        var user := User(email, hash, fullName, 0);
        (db.(users := db.users[id := user]), Rows(UserReply(id, user)))
    case InsertOrg(id) =>
      if id in db.orgs then (db, Failure(UniqueViolation))
      else (db.(orgs := db.orgs + {id}), Rows(NoReply))
    case InsertMember(u, o, role) =>
      if !RoleAllowed(role) then (db, Failure(CheckViolation))
      else if (u, o) in db.members then (db, Failure(UniqueViolation))
      else if u !in db.users || o !in db.orgs then (db, Failure(ForeignKeyViolation))
      else (db.(members := db.members[(u, o) := role]), Rows(MemberReply(role)))
    case InsertToken(d, u, o, expires) =>
      if d in db.tokens then (db, Failure(UniqueViolation))
      else if u !in db.users || o !in db.orgs then (db, Failure(ForeignKeyViolation))
      else (db.(tokens := db.tokens[d := Row(u, o, expires, false)]), Rows(NoReply))
    case ConsumeToken(d, now) =>
      if Consumable(db, d, now) then (Spend(db, d), Rows(TokenReply(Spend(db, d).tokens[d])))
      else (db, Failure(NotFound))
    case SelectUser(u) =>
      if u in db.users then (db, Rows(UserReply(u, db.users[u]))) else (db, Failure(NotFound))
    case SelectMember(u, o) =>
      if (u, o) in db.members then (db, Rows(MemberReply(db.members[(u, o)]))) else (db, Failure(NotFound))
    case UpdatePassword(u, hash) =>
      (WithPassword(db, u, hash), Rows(NoReply))
    case IncrementVersion(u) =>
      if u in db.users && db.users[u].version == MAX_INT32 then (db, Failure(OutOfRange))
      else (WithNextVersion(db, u), Rows(NoReply))
    case RevokeAll(u) =>
      (db.(tokens := RevokedRows(db.tokens, u)), Rows(NoReply))
  }

  lemma ExecuteKeepsEmails(sql: Chars, db: Db, st: Stmt)
    requires EmailsUnique(sql, db)
    ensures EmailsUnique(sql, Execute(sql, db, st).0)
  {
    var db' := Execute(sql, db, st).0;
    forall u, v | u in db'.users && v in db'.users && u != v
      ensures !SameEmail(sql, db'.users[u].email, db'.users[v].email)
    {
      if u in db.users && v in db.users {
        assert !SameEmail(sql, db.users[u].email, db.users[v].email);
      } else if u in db.users {
        assert !SameEmail(sql, db.users[u].email, st.email);
      } else {
        assert !SameEmail(sql, db.users[v].email, st.email);
      }
    }
  }

  lemma ExecuteKeepsRows(sql: Chars, db: Db, st: Stmt)
    requires VersionsInRange(db) && MembersValid(db) && TokensValid(db)
    ensures var db' := Execute(sql, db, st).0; VersionsInRange(db') && MembersValid(db') && TokensValid(db')
  {
  }

  /** Every statement keeps every table constraint. */
  lemma ExecuteKeepsTables(sql: Chars, db: Db, st: Stmt)
    requires TablesOk(sql, db)
    ensures TablesOk(sql, Execute(sql, db, st).0)
  {
    ExecuteKeepsEmails(sql, db, st);
    ExecuteKeepsRows(sql, db, st);
  }

  /** GetUserByEmail; TablesOk leaves at most one candidate. */
  ghost function UserByEmail(sql: Chars, db: Db, email: string): (r: Option<Uuid>)
    ensures r.Some? ==> r.value in db.users && SameEmail(sql, db.users[r.value].email, email)
    ensures r.None? <==> !EmailTaken(sql, db, email)
  {
    if EmailTaken(sql, db, email) then
      var u :| u in db.users && SameEmail(sql, db.users[u].email, email);
      Some(u)
    else None
  }

  lemma UserByEmailUnique(sql: Chars, db: Db, email: string, u: Uuid)
    requires EmailsUnique(sql, db)
    requires u in db.users && SameEmail(sql, db.users[u].email, email)
    ensures UserByEmail(sql, db, email) == Some(u)
  {
  }

  /** The rows ListOrgMembershipsByUser may return: every membership of the user once, in any order. */
  ghost predicate Lists(db: Db, u: Uuid, rows: seq<(Uuid, string)>) {
    && (forall i :: 0 <= i < |rows| ==> (u, rows[i].0) in db.members && db.members[(u, rows[i].0)] == rows[i].1)
    && (forall o: Uuid :: (u, o) in db.members ==> exists i :: 0 <= i < |rows| && rows[i].0 == o)
    && (forall i, j :: 0 <= i < j < |rows| ==> rows[i].0 != rows[j].0)
  }
}
