/** The database pool as an object: the four tables, one method per generated query, and WithTx. */
module Store {
  import opened Text
  import opened Security
  import opened Schema
  import opened Transactions

  class Pool {
    const sql: Chars
    var users: map<Uuid, User>
    var orgs: set<Uuid>
    var members: map<(Uuid, Uuid), string>
    var tokens: map<Digest, Row>

    ghost function Contents(): Db
      reads this
    {
      Db(users, orgs, members, tokens)
    }

    /** The constraints of the schema. */
    ghost predicate Valid()
      reads this
    {
      TablesOk(sql, Contents())
    }

    /** What a statement promises: it did what the schema says, answer and tables both. */
    twostate predicate Did(st: Stmt, a: Answer)
      reads this
    {
      Valid() && (Contents(), a) == Execute(sql, old(Contents()), st)
    }

    constructor (sql: Chars)
      ensures Valid() && Contents() == EMPTY && this.sql == sql
    {
      this.sql := sql;
      users, orgs, members, tokens := map[], {}, map[], map[];
    }

    // ---- Queries ----

    method CreateUser(id: Uuid, email: string, hash: string, fullName: string) returns (a: Answer)
      requires Valid()
      modifies this`users
      ensures Did(InsertUser(id, email, hash, fullName), a)
    {
      ExecuteKeepsTables(sql, Contents(), InsertUser(id, email, hash, fullName));
      if id in users || exists u :: u in users && SameEmail(sql, users[u].email, email) {
        return Failure(UniqueViolation);
      }
      var user := User(email, hash, fullName, 0);
      users := users[id := user];
      return Rows(UserReply(id, user));
    }

    method CreateOrg(id: Uuid) returns (a: Answer)
      requires Valid()
      modifies this`orgs
      ensures Did(InsertOrg(id), a)
    {
      ExecuteKeepsTables(sql, Contents(), InsertOrg(id));
      if id in orgs {
        return Failure(UniqueViolation);
      }
      orgs := orgs + {id};
      return Rows(NoReply);
    }

    method CreateOrgMembership(u: Uuid, o: Uuid, role: string) returns (a: Answer)
      requires Valid()
      modifies this`members
      ensures Did(InsertMember(u, o, role), a)
    {
      ExecuteKeepsTables(sql, Contents(), InsertMember(u, o, role));
      if !RoleAllowed(role) {
        return Failure(CheckViolation);
      }
      if (u, o) in members {
        return Failure(UniqueViolation);
      }
      if u !in users || o !in orgs {
        return Failure(ForeignKeyViolation);
      }
      members := members[(u, o) := role];
      return Rows(MemberReply(role));
    }

    method CreateRefreshToken(d: Digest, u: Uuid, o: Uuid, expires: int) returns (a: Answer)
      requires Valid()
      modifies this`tokens
      ensures Did(InsertToken(d, u, o, expires), a)
    {
      ExecuteKeepsTables(sql, Contents(), InsertToken(d, u, o, expires));
      if d in tokens {
        return Failure(UniqueViolation);
      }
      if u !in users || o !in orgs {
        return Failure(ForeignKeyViolation);
      }
      tokens := tokens[d := Row(u, o, expires, false)];
      return Rows(NoReply);
    }

    /** UPDATE ... SET revoked WHERE token = $1 AND NOT revoked AND expires_at > NOW() RETURNING. */
    method ConsumeRefreshToken(d: Digest, now: int) returns (a: Answer)
      requires Valid()
      modifies this`tokens
      ensures Did(ConsumeToken(d, now), a)
    {
      ExecuteKeepsTables(sql, Contents(), ConsumeToken(d, now));
      if d !in tokens || tokens[d].revoked || tokens[d].expires <= now {
        return Failure(NotFound);
      }
      tokens := tokens[d := tokens[d].(revoked := true)];
      return Rows(TokenReply(tokens[d]));
    }

    method GetUserByID(u: Uuid) returns (a: Answer)
      requires Valid()
      ensures (Contents(), a) == Execute(sql, Contents(), SelectUser(u))
    {
      if u !in users {
        return Failure(NotFound);
      }
      return Rows(UserReply(u, users[u]));
    }

    method GetOrgMembershipByUser(u: Uuid, o: Uuid) returns (a: Answer)
      requires Valid()
      ensures (Contents(), a) == Execute(sql, Contents(), SelectMember(u, o))
    {
      if (u, o) !in members {
        return Failure(NotFound);
      }
      return Rows(MemberReply(members[(u, o)]));
    }

    method UpdateUserPassword(u: Uuid, hash: string) returns (a: Answer)
      requires Valid()
      modifies this`users
      ensures Did(UpdatePassword(u, hash), a)
    {
      ExecuteKeepsTables(sql, Contents(), UpdatePassword(u, hash));
      if u in users {
        users := users[u := users[u].(hash := hash)];
      }
      return Rows(NoReply);
    }

    /** token_version is an int32: past its largest value the statement fails. */
    method IncrementUserTokenVersion(u: Uuid) returns (a: Answer)
      requires Valid()
      modifies this`users
      ensures Did(IncrementVersion(u), a)
    {
      ExecuteKeepsTables(sql, Contents(), IncrementVersion(u));
      if u in users {
        if users[u].version == MAX_INT32 {
          return Failure(OutOfRange);
        }
        users := users[u := users[u].(version := users[u].version + 1)];
      }
      return Rows(NoReply);
    }

    method RevokeAllUserRefreshTokens(u: Uuid) returns (a: Answer)
      requires Valid()
      modifies this`tokens
      ensures Did(RevokeAll(u), a)
    {
      ExecuteKeepsTables(sql, Contents(), RevokeAll(u));
      tokens := map d | d in tokens :: if tokens[d].user == u then tokens[d].(revoked := true) else tokens[d];
      return Rows(NoReply);
    }

    /** WHERE LOWER(email) = LOWER($1): the unique index leaves one candidate. */
    method GetUserByEmail(email: string) returns (r: Option<Uuid>)
      requires Valid()
      ensures r == UserByEmail(sql, Contents(), email)
    {
      if u :| u in users && SameEmail(sql, users[u].email, email) {
        UserByEmailUnique(sql, Contents(), email, u);
        return Some(u);
      }
      return None;
    }

    /** The rows come in any order. */
    method ListOrgMembershipsByUser(u: Uuid) returns (rows: seq<(Uuid, string)>)
      ensures Lists(Contents(), u, rows)
    {
      rows := [];
      var todo := members.Keys;
      while todo != {}
        invariant todo <= members.Keys
        invariant forall i :: 0 <= i < |rows| ==>
          (u, rows[i].0) in members && (u, rows[i].0) !in todo && members[(u, rows[i].0)] == rows[i].1
        invariant forall o: Uuid :: (u, o) in members && (u, o) !in todo ==>
          exists i :: 0 <= i < |rows| && rows[i].0 == o
        invariant forall i, j :: 0 <= i < j < |rows| ==> rows[i].0 != rows[j].0
        decreases |todo|
      {
        var k :| k in todo;
        todo := todo - {k};
        if k.0 == u {
          ghost var before := rows;
          rows := rows + [(k.1, members[k])];
          assert rows[|before|].0 == k.1 && k == (u, k.1);
          assert forall i :: 0 <= i < |before| ==> rows[i] == before[i];
        }
      }
    }

    // ---- Transactions ----

    /** The query a statement of a transaction body stands for. */
    method Query(st: Stmt) returns (a: Answer)
      requires Valid()
      modifies this
      ensures Did(st, a)
    {
      match st
      case InsertUser(id, email, hash, fullName) => a := CreateUser(id, email, hash, fullName);
      case InsertOrg(id) => a := CreateOrg(id);
      case InsertMember(u, o, role) => a := CreateOrgMembership(u, o, role);
      case InsertToken(d, u, o, expires) => a := CreateRefreshToken(d, u, o, expires);
      case ConsumeToken(d, now) => a := ConsumeRefreshToken(d, now);
      case SelectUser(u) => a := GetUserByID(u);
      case SelectMember(u, o) => a := GetOrgMembershipByUser(u, o);
      case UpdatePassword(u, hash) => a := UpdateUserPassword(u, hash);
      case IncrementVersion(u) => a := IncrementUserTokenVersion(u);
      case RevokeAll(u) => a := RevokeAllUserRefreshTokens(u);
    }

    method Restore(users: map<Uuid, User>, orgs: set<Uuid>, members: map<(Uuid, Uuid), string>,
            tokens: map<Digest, Row>)
      modifies this
      ensures Contents() == Db(users, orgs, members, tokens)
    {
      this.users, this.orgs, this.members, this.tokens := users, orgs, members, tokens;
    }

    /** Run the body on the tables; put them back unless it returns and the commit goes through. */
    method WithTx<R>(p: Prog<R>, ghost n: nat, f: Faults) returns (r: Result<R>)
      requires Valid() && AtMost(p, n) && Finite(p)
      modifies this
      ensures Valid() && (Contents(), r) == Transactions.WithTx(sql, old(Contents()), p, f)
    {
      ghost var before := Contents();
      WithTxIs(sql, before, p, n, f);
      if f.begin {
        return Err(BeginFailed);
      }
      var users, orgs, members, tokens := users, orgs, members, tokens;
      var body, aborted, fail := p, false, f.stmt;
      ghost var left := n;
      while body.Query?
        invariant Valid() && AtMost(body, left)
        invariant RunBody(sql, Contents(), aborted, body, left, fail) == RunBody(sql, before, false, p, n, f.stmt)
        decreases left
      {
        if aborted || fail == Some(0) {
          aborted := true;
          body := body.next(Failure(Aborted));
        } else {
          var a := Query(body.stmt);
          aborted := a.Failure? && a.error != NotFound;
          body := body.next(a);
        }
        fail := Later(fail);
        left := left - 1;
      }
      if body.Raise? {
        Restore(users, orgs, members, tokens);
        return Err(if f.rollback then RollbackFailed(body.error) else body.error);
      }
      if aborted || f.commit {
        Restore(users, orgs, members, tokens);
        return Err(CommitFailed);
      }
      return Ok(body.value);
    }
  }
}
