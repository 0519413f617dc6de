/** The two migrations that rewrite rows: from any database the first schema allows they abort,
    leaving it alone, or establish the constraints the service relies on. */
module Migrations {
  import opened Text
  import opened Security
  import opened Schema

  /** None stands for a column that is not there yet, or is NULL. */
  datatype UserRow = UserRow(email: string, hash: string, fullName: string, version: Option<int>)
  datatype TokenRow = TokenRow(user: Uuid, org: Option<Uuid>, expires: int, revoked: bool)

  function Normal(sql: Chars, email: string): string {
    ToLower(sql, Trim(sql, email))
  }

  /** LOWER and TRIM as the migration needs them. */
  ghost predicate Lawful(sql: Chars) {
    LowerKeepsSpaces(sql) && LowerIdempotent(sql)
  }

  ghost predicate NormalsDistinct(sql: Chars, users: map<Uuid, UserRow>) {
    forall u, v :: u in users && v in users && u != v ==> Normal(sql, users[u].email) != Normal(sql, users[v].email)
  }

  function Secured(sql: Chars, users: map<Uuid, UserRow>): map<Uuid, UserRow> {
    map u | u in users :: users[u].(email := Normal(sql, users[u].email), version := Some(0))
  }

  function WithVersion(users: map<Uuid, UserRow>): map<Uuid, UserRow> {
    map u | u in users :: users[u].(version := Some(0))
  }

  /** The table in the middle of the update: the rows in `todo` are still as before. */
  function Rewritten(sql: Chars, before: map<Uuid, UserRow>, todo: set<Uuid>): map<Uuid, UserRow> {
    map u | u in before :: if u in todo then before[u] else before[u].(email := Normal(sql, before[u].email))
  }

  ghost predicate DistinctOutside(sql: Chars, before: map<Uuid, UserRow>, todo: set<Uuid>) {
    forall u, v :: u in before && v in before && u !in todo && v !in todo && u != v ==>
      Normal(sql, before[u].email) != Normal(sql, before[v].email)
  }

  /** A row that clashes in the middle of the update clashes for good, rewritten yet or not. */
  lemma ClashIsReal(sql: Chars, before: map<Uuid, UserRow>, todo: set<Uuid>, u: Uuid)
    requires Lawful(sql) && u in before && Clashes(Rewritten(sql, before, todo), u, Normal(sql, before[u].email))
    ensures !NormalsDistinct(sql, before)
  {
    var now := Rewritten(sql, before, todo);
    var v :| v in now && v != u && now[v].email == Normal(sql, before[u].email);
    LowerTrimIdempotent(sql, before[u].email);
    assert Normal(sql, before[v].email) == Normal(sql, before[u].email);
  }

  lemma NoClash(sql: Chars, before: map<Uuid, UserRow>, todo: set<Uuid>, u: Uuid)
    requires u in before && DistinctOutside(sql, before, todo)
    requires !Clashes(Rewritten(sql, before, todo), u, Normal(sql, before[u].email))
    ensures DistinctOutside(sql, before, todo - {u})
  {
    forall v | v in before && v !in todo && v != u
      ensures Normal(sql, before[v].email) != Normal(sql, before[u].email)
    {
      assert Rewritten(sql, before, todo)[v].email == Normal(sql, before[v].email);
    }
  }

  lemma SecuredIs(sql: Chars, users: map<Uuid, UserRow>)
    ensures Rewritten(sql, WithVersion(users), {}) == Secured(sql, users)
    ensures NormalsDistinct(sql, WithVersion(users)) <==> NormalsDistinct(sql, users)
  {
    var w := WithVersion(users);
    assert forall u :: u in users ==> w[u].email == users[u].email;
    if !NormalsDistinct(sql, w) {
      var u, v :| u in w && v in w && u != v && Normal(sql, w[u].email) == Normal(sql, w[v].email);
      assert Normal(sql, users[u].email) == Normal(sql, users[v].email);
    }
  }

  lemma RewriteRow(sql: Chars, before: map<Uuid, UserRow>, todo: set<Uuid>, u: Uuid)
    requires u in todo && todo <= before.Keys
    ensures var now := Rewritten(sql, before, todo);
      now[u := now[u].(email := Normal(sql, now[u].email))] == Rewritten(sql, before, todo - {u})
  {
  }

  /** Another row has this email. */
  ghost predicate Clashes(users: map<Uuid, UserRow>, u: Uuid, email: string) {
    exists v :: v in users && v != u && users[v].email == email
  }

  ghost predicate LowersDistinct(sql: Chars, users: map<Uuid, UserRow>) {
    forall u, v :: u in users && v in users && u != v ==> !SameEmail(sql, users[u].email, users[v].email)
  }

  ghost predicate IsMember(members: map<(Uuid, Uuid), string>, u: Uuid) {
    exists k :: k in members && k.0 == u
  }

  /** What the first schema's foreign keys and checks say of the tables the migrations read. */
  ghost predicate LegacyValid(users: map<Uuid, UserRow>, orgs: set<Uuid>, members: map<(Uuid, Uuid), string>,
          tokens: map<Digest, TokenRow>)
  {
    && (forall k :: k in members ==> k.0 in users && k.1 in orgs && RoleAllowed(members[k]))
    && (forall d :: d in tokens ==> tokens[d].user in users)
  }

  /** Every token row keeps what it had and is for some organisation its user belongs to. */
  ghost predicate Backfilled(tokens: map<Digest, TokenRow>, before: map<Digest, TokenRow>, members: map<(Uuid, Uuid),
          string>)
  {
    && tokens.Keys == before.Keys
    && (forall d :: d in tokens ==>
          && tokens[d].org.Some? && (tokens[d].user, tokens[d].org.value) in members
          && tokens[d] == before[d].(org := tokens[d].org))
  }

  /** The immediate check of UNIQUE (email). */
  method HasOther(users: map<Uuid, UserRow>, u: Uuid, email: string) returns (r: bool)
    ensures r <==> Clashes(users, u, email)
  {
    if v :| v in users && v != u && users[v].email == email {
      return true;
    }
    return false;
  }

  /** The join half done: rows outside `todo` have an organisation if their user has any. */
  ghost predicate Filling(tokens: map<Digest, TokenRow>, before: map<Digest, TokenRow>, members: map<(Uuid, Uuid),
          string>, todo: set<Digest>)
  {
    && tokens.Keys == before.Keys
    && (forall d :: d in tokens ==>
          && tokens[d] == before[d].(org := tokens[d].org)
          && (tokens[d].org.Some? <==> d !in todo && IsMember(members, tokens[d].user))
          && (tokens[d].org.Some? ==> (tokens[d].user, tokens[d].org.value) in members))
  }

  lemma FillRow(tokens: map<Digest, TokenRow>, before: map<Digest, TokenRow>, members: map<(Uuid, Uuid), string>,
          todo: set<Digest>, d: Digest, o: Option<Uuid>)
    requires Filling(tokens, before, members, todo) && d in tokens && d in todo
    requires if o.Some? then (tokens[d].user, o.value) in members else !IsMember(members, tokens[d].user)
    ensures Filling(tokens[d := tokens[d].(org := o)], before, members, todo - {d})
  {
    if o.Some? { assert (tokens[d].user, o.value).0 == tokens[d].user; }
  }

  method HomeOf(members: map<(Uuid, Uuid), string>, u: Uuid) returns (o: Option<Uuid>)
    ensures if o.Some? then (u, o.value) in members else !IsMember(members, u)
  {
    if k :| k in members && k.0 == u {
      assert k == (u, k.1);
      return Some(k.1);
    }
    return None;
  }

  /** ALTER COLUMN org_id SET NOT NULL. */
  method NoNulls(tokens: map<Digest, TokenRow>) returns (ok: bool)
    ensures ok <==> forall d :: d in tokens ==> tokens[d].org.Some?
  {
    if d :| d in tokens && tokens[d].org.None? {
      return false;
    }
    return true;
  }

  lemma JoinDone(tokens: map<Digest, TokenRow>, before: map<Digest, TokenRow>, members: map<(Uuid, Uuid), string>)
    requires Filling(tokens, before, members, {})
    ensures (forall d :: d in tokens ==> tokens[d].org.Some?) <==> EachUserBelongs(before, members)
    ensures EachUserBelongs(before, members) ==> Backfilled(tokens, before, members)
  {
    assert forall d :: d in tokens ==> tokens[d].user == before[d].user;
  }

  ghost predicate EachUserBelongs(tokens: map<Digest, TokenRow>, members: map<(Uuid, Uuid), string>) {
    forall d :: d in tokens ==> IsMember(members, tokens[d].user)
  }

  class Database {
    const sql: Chars
    var users: map<Uuid, UserRow>
    var orgs: set<Uuid>
    var members: map<(Uuid, Uuid), string>
    var tokens: map<Digest, TokenRow>

    constructor (sql: Chars, users: map<Uuid, UserRow>, orgs: set<Uuid>, members: map<(Uuid, Uuid), string>,
            tokens: map<Digest, TokenRow>)
      ensures this.sql == sql && this.users == users && this.orgs == orgs && this.members == members
      ensures this.tokens == tokens
    {
      this.sql, this.users, this.orgs, this.members, this.tokens := sql, users, orgs, members, tokens;
    }

    /** UPDATE users SET email = LOWER(TRIM(email)): row by row in any order, each new value checked
        at once against the values the other rows have by then. */
    method NormalizeEmails() returns (ok: bool)
      requires Lawful(sql)
      modifies this`users
      ensures ok <==> NormalsDistinct(sql, old(users))
      ensures ok ==> users == Rewritten(sql, old(users), {})
    {
      var todo := users.Keys;
      ghost var before := users;
      while todo != {}
        invariant todo <= before.Keys && users == Rewritten(sql, before, todo)
        invariant DistinctOutside(sql, before, todo)
        decreases |todo|
      {
        var u :| u in todo;
        var email := Normal(sql, users[u].email);
        var clash := HasOther(users, u, email);
        if clash {
          ClashIsReal(sql, before, todo, u);
          return false;
        }
        NoClash(sql, before, todo, u);
        RewriteRow(sql, before, todo, u);
        users := users[u := users[u].(email := email)];
        todo := todo - {u};
      }
      return true;
    }

    /** CREATE UNIQUE INDEX on LOWER(email). */
    method IndexLowerEmails() returns (ok: bool)
      ensures ok <==> LowersDistinct(sql, users)
    {
      if u, v :| u in users && v in users && u != v && SameEmail(sql, users[u].email, users[v].email) {
        return false;
      }
      return true;
    }

    /** 00003: the version column, the emails, and the index, which can no longer fail. */
    method AuthSecurity() returns (ok: bool)
      requires Lawful(sql)
      modifies this`users
      ensures ok <==> NormalsDistinct(sql, old(users))
      ensures users == if ok then Secured(sql, old(users)) else old(users)
    {
      var saved := users;
      users := WithVersion(users);
      SecuredIs(sql, saved);
      ok := NormalizeEmails();
      if ok {
        SecuredEmails(sql, saved);
        ok := IndexLowerEmails();
      }
      if !ok {
        users := saved;
      }
    }

    /** 00004: the column, the join, and NOT NULL.  Which of several memberships a row gets is open. */
    method RefreshTokenOrgScope() returns (ok: bool)
      modifies this`tokens
      ensures ok <==> EachUserBelongs(old(tokens), members)
      ensures if ok then Backfilled(tokens, old(tokens), members) else tokens == old(tokens)
    {
      var saved := tokens;
      tokens := map d | d in tokens :: tokens[d].(org := None);
      var todo := tokens.Keys;
      while todo != {}
        invariant todo <= saved.Keys && Filling(tokens, saved, members, todo)
        decreases |todo|
      {
        var d :| d in todo;
        var home := HomeOf(members, tokens[d].user);
        FillRow(tokens, saved, members, todo, d, home);
        tokens := tokens[d := tokens[d].(org := home)];
        todo := todo - {d};
      }
      JoinDone(tokens, saved, members);
      ok := NoNulls(tokens);
      if !ok {
        tokens := saved;
      }
    }

    /** Both migrations in order, from any database of the first schema.  They succeed exactly when no two
        emails become one and no token's user is without membership; then every constraint holds, emails
        are in normal form, versions are zero and every token is for one of its user's memberships. */
    method Upgrade() returns (ok: bool)
      requires Lawful(sql) && LegacyValid(users, orgs, members, tokens)
      modifies this`users, this`tokens
      ensures ok <==> NormalsDistinct(sql, old(users)) && EachUserBelongs(old(tokens), members)
      ensures ok ==> Established(sql, View(users, orgs, members, tokens))
      ensures ok ==> Carried(sql, View(users, orgs, members, tokens), old(users), old(tokens))
    {
      var first := AuthSecurity();
      if !first {
        return false;
      }
      var second := RefreshTokenOrgScope();
      if !second {
        return false;
      }
      Ready(sql, old(users), orgs, members, tokens, old(tokens));
      return true;
    }
  }

  /** Normal emails that differ also differ under LOWER, and stay as they are. */
  lemma SecuredEmails(sql: Chars, users: map<Uuid, UserRow>)
    requires Lawful(sql) && NormalsDistinct(sql, users)
    ensures var after := Secured(sql, users);
      && (forall u :: u in after ==> Canonical(sql, after[u].email))
      && LowersDistinct(sql, after)
  {
    var after := Secured(sql, users);
    forall u | u in after ensures Canonical(sql, after[u].email) {
      NormalIsCanonical(sql, users[u].email);
    }
    forall u, v | u in after && v in after && u != v ensures !SameEmail(sql, after[u].email, after[v].email) {
      NormalIsCanonical(sql, users[u].email);
      NormalIsCanonical(sql, users[v].email);
    }
  }

  lemma NormalIsCanonical(sql: Chars, email: string)
    requires Lawful(sql)
    ensures Canonical(sql, Normal(sql, email))
  {
    LowerTrimIdempotent(sql, email);
  }

  function UserOf(row: UserRow): User
    requires row.version.Some?
  {
    User(row.email, row.hash, row.fullName, row.version.value)
  }

  function RowOf(row: TokenRow): Row
    requires row.org.Some?
  {
    Row(row.user, row.org.value, row.expires, row.revoked)
  }

  /** The upgraded tables as the service sees them. */
  ghost function View(users: map<Uuid, UserRow>, orgs: set<Uuid>, members: map<(Uuid, Uuid), string>,
          tokens: map<Digest, TokenRow>): Db
  {
    Db(map u | u in users && users[u].version.Some? :: UserOf(users[u]), orgs, members,
       map d | d in tokens && tokens[d].org.Some? :: RowOf(tokens[d]))
  }

  /** Nothing left to lower or to trim. */
  predicate Canonical(sql: Chars, email: string) {
    ToLower(sql, email) == email && Trim(sql, email) == email
  }

  /** What an email becomes: its characters between the outer spaces, each lowered. */
  lemma NormalIs(sql: Chars, email: string) returns (i: nat, j: nat)
    ensures Core(sql, email, i, j) && |Normal(sql, email)| == j - i
    ensures forall k :: i <= k < j ==> Normal(sql, email)[k - i] == sql.lower(email[k])
  {
    i, j := TrimIsCore(sql, email);
  }

  ghost predicate Established(sql: Chars, db: Db) {
    && TablesOk(sql, db)
    && (forall u :: u in db.users ==> Canonical(sql, db.users[u].email) && db.users[u].version == 0)
    && (forall d :: d in db.tokens ==> (db.tokens[d].user, db.tokens[d].org) in db.members)
  }

  /** No row is lost or added, and only the emails and the new columns differ. */
  ghost predicate Carried(sql: Chars, db: Db, users: map<Uuid, UserRow>, tokens: map<Digest, TokenRow>) {
    && db.users.Keys == users.Keys && db.tokens.Keys == tokens.Keys
    && (forall u :: u in users ==>
          db.users[u] == User(Normal(sql, users[u].email), users[u].hash, users[u].fullName, 0))
    && (forall d :: d in tokens ==>
          db.tokens[d] == Row(tokens[d].user, db.tokens[d].org, tokens[d].expires, tokens[d].revoked))
  }

  lemma Ready(sql: Chars, users: map<Uuid, UserRow>, orgs: set<Uuid>, members: map<(Uuid, Uuid), string>,
          tokens: map<Digest, TokenRow>, was: map<Digest, TokenRow>)
    requires Lawful(sql) && NormalsDistinct(sql, users) && LegacyValid(users, orgs, members, was)
    requires Backfilled(tokens, was, members)
    ensures var db := View(Secured(sql, users), orgs, members, tokens);
      Established(sql, db) && Carried(sql, db, users, was)
  {
    var after := Secured(sql, users);
    var db := View(after, orgs, members, tokens);
    SecuredEmails(sql, users);
    assert EmailsUnique(sql, db) by {
      assert forall u :: u in db.users ==> u in after && db.users[u].email == after[u].email;
    }
    ReadyRows(sql, users, orgs, members, tokens, was);
  }

  lemma ReadyRows(sql: Chars, users: map<Uuid, UserRow>, orgs: set<Uuid>, members: map<(Uuid, Uuid), string>,
          tokens: map<Digest, TokenRow>, was: map<Digest, TokenRow>)
    requires LegacyValid(users, orgs, members, was) && Backfilled(tokens, was, members)
    ensures var db := View(Secured(sql, users), orgs, members, tokens);
      && VersionsInRange(db) && MembersValid(db) && TokensValid(db) && Carried(sql, db, users, was)
  {
    var db := View(Secured(sql, users), orgs, members, tokens);
    assert db.users.Keys == users.Keys && db.tokens.Keys == tokens.Keys;
    forall d | d in db.tokens ensures db.tokens[d].user in db.users && db.tokens[d].org in db.orgs {
      assert (tokens[d].user, tokens[d].org.value) in members;
    }
  }
}
