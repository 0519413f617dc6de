/** What steps do to the shared world, sorted by kind.  Every step is one permitted effect;
    the invariants are then proved effect by effect. */
module Effects {
  import opened Text
  import opened Security
  import opened Schema
  import opened Bodies
  import opened Protocol

  // ---- Reading the log ----

  predicate RevokesUser(c: Commit, u: Uuid) {
    c.event.Revoked? && c.event.user == u
  }

  /** How many revoking transactions of u have committed. */
  function Revocations(log: seq<Commit>, u: Uuid): nat {
    if log == [] then 0
    else Revocations(log[..|log| - 1], u) + if RevokesUser(log[|log| - 1], u) then 1 else 0
  }

  ghost predicate RevokedSince(log: seq<Commit>, from: nat, u: Uuid) {
    exists i :: from <= i < |log| && RevokesUser(log[i], u)
  }

  /** The two ways of asking whether u was revoked since: by count and by search. */
  lemma {:induction false} RevocationsSince(log: seq<Commit>, from: nat, u: Uuid)
    requires from <= |log|
    ensures Revocations(log[..from], u) <= Revocations(log, u)
    ensures Revocations(log[..from], u) == Revocations(log, u) <==> !RevokedSince(log, from, u)
    decreases |log|
  {
    if from == |log| {
      assert log[..from] == log;
    } else {
      var init := log[..|log| - 1];
      RevocationsSince(init, from, u);
      assert init[..from] == log[..from];
      assert forall i :: 0 <= i < |init| ==> init[i] == log[i];
      assert RevokedSince(log, from, u) <==> RevokedSince(init, from, u) || RevokesUser(log[|log| - 1], u);
    }
  }

  lemma RevocationsAppend(log: seq<Commit>, c: Commit, u: Uuid)
    ensures Revocations(log + [c], u) == Revocations(log, u) + if RevokesUser(c, u) then 1 else 0
  {
  }

  // ---- Effects ----

  datatype Effect =
    | Idle
    | Pass(delta: nat)
    | AddMember(user: Uuid, org: Uuid, role: string)
    | SignUp(uid: Uuid, account: User, home: Uuid)
    | Open(digest: Digest, owner: Uuid, scope: Uuid, expires: int)
    | Rotate(spent: Digest, minted: Digest, deadline: int)
    | Revoke(victim: Uuid, cause: Cause)
    | Issue(text: string, token: Signed)
    | StoreKey(key: CacheKey, holder: Uuid, email: string)
    | TakeKey(taken: CacheKey)

  // What each table and each part of the history becomes.

  function Changed(user: User, cause: Cause): User {
    User(user.email, if cause.ByLogout? then user.hash else cause.hash, user.fullName, user.version + 1)
  }

  function UsersAfter(users: map<Uuid, User>, e: Effect): map<Uuid, User> {
    if e.SignUp? then users[e.uid := e.account]
    else if e.Revoke? && e.victim in users then users[e.victim := Changed(users[e.victim], e.cause)]
    else users
  }

  function MembersAfter(members: map<(Uuid, Uuid), string>, e: Effect): map<(Uuid, Uuid), string> {
    if e.SignUp? then members[(e.uid, e.home) := "admin"]
    else if e.AddMember? then members[(e.user, e.org) := e.role]
    else members
  }

  function TokensAfter(tokens: map<Digest, Row>, e: Effect): map<Digest, Row> {
    if e.Open? then tokens[e.digest := Row(e.owner, e.scope, e.expires, false)]
    else if e.Rotate? && e.spent in tokens then RotatedRows(tokens, e.spent, e.minted, e.deadline)
    else if e.Revoke? then RevokedRows(tokens, e.victim)
    else tokens
  }

  function DbAfter(db: Db, e: Effect): Db {
    Db(UsersAfter(db.users, e),
       if e.SignUp? then db.orgs + {e.home} else db.orgs,
       MembersAfter(db.members, e),
       TokensAfter(db.tokens, e))
  }

  function EventOf(w: World, e: Effect): Option<Event> {
    if e.SignUp? then Some(SignedUp(e.uid, e.home, e.account.email, e.account.hash))
    else if e.Open? then Some(Opened(e.digest, e.owner, e.scope))
    else if e.Rotate? && e.spent in w.db.tokens then Some(Rotated(e.spent, e.minted, w.db.tokens[e.spent].user))
    else if e.Revoke? then Some(Revoked(e.victim, e.cause))
    else None
  }

  function LogAfter(w: World, id: nat, e: Effect): seq<Commit> {
    var ev := EventOf(w, e);
    if ev.Some? then w.log + [Commit(id, ev.value)] else w.log
  }

  function LineageAfter(w: World, e: Effect): map<Digest, Origin> {
    if e.Open? then w.lineage[e.digest := Origin(e.digest, |w.log|, None, 0, |w.log|)]
    else if e.Rotate? && e.spent in w.lineage then
      var o := w.lineage[e.spent];
      w.lineage[e.minted := Origin(o.root, o.since, Some(e.spent), o.gen + 1, |w.log|)]
    else w.lineage
  }

  function ResetsAfter(w: World, e: Effect): map<CacheKey, Entry> {
    if e.StoreKey? then w.resets[e.key := Entry(e.holder, w.now + HOUR)]
    else if e.TakeKey? then w.resets - {e.taken}
    else w.resets
  }

  function KeysAfter(w: World, id: nat, e: Effect): map<CacheKey, KeyHistory> {
    if e.StoreKey? then w.keys[e.key := KeyHistory(e.holder, e.email, id, w.now, None)]
    else if e.TakeKey? && e.taken in w.keys then w.keys[e.taken := w.keys[e.taken].(taken := Some(Taken(w.now, id)))]
    else w.keys
  }

  function Perform(w: World, id: nat, e: Effect): World {
    World(DbAfter(w.db, e), ResetsAfter(w, e), if e.Pass? then w.now + e.delta else w.now,
          if e.Issue? then w.signed[e.text := e.token] else w.signed,
          LogAfter(w, id, e), LineageAfter(w, e), KeysAfter(w, id, e))
  }

  /** The token says truthfully whose membership and which version it was minted from. */
  ghost predicate SignedOk(cfg: Config, w: World, t: Signed) {
    && t.claims.sub in w.db.users
    && (t.claims.sub, t.claims.org) in w.db.members
    && w.db.members[(t.claims.sub, t.claims.org)] == t.claims.role
    && t.readAt <= |w.log|
    && t.claims.version == Revocations(w.log[..t.readAt], t.claims.sub)
    && CanSign(cfg) && t.claims.issuer == cfg.issuer && t.claims.audience == cfg.audience
    && t.at <= w.now && t.claims.expires == NumericDate(t.at + cfg.jwtExpiry)
  }

  /** When an effect may happen. */
  ghost predicate Permitted(cfg: Config, w: World, id: nat, e: Effect) {
    match e
    case Idle => true
    case Pass(_) => true
    case AddMember(u, o, role) => u in w.db.users && o in w.db.orgs && (u, o) !in w.db.members && RoleAllowed(role)
    case SignUp(u, user, o) => CanRegister(cfg.sql, w.db, u, o, user.email) && user.version == 0
    case Open(d, u, o, expires) => d !in w.db.tokens && u in w.db.users && o in w.db.orgs && (u, o) in w.db.members
    case Rotate(spent, minted, _) => CanRefresh(w.db, spent, minted, w.now)
    case Revoke(u, cause) =>
      && u in w.db.users && CanRevoke(w.db, u)
      && (forall i :: 0 <= i < |w.log| && w.log[i].req == id ==> !w.log[i].event.Revoked?)
      && (cause.ByLogout? ==> Consumable(w.db, cause.digest, w.now) && w.db.tokens[cause.digest].user == u)
      && (cause.ByReset? ==>
            && cause.key in w.keys && w.keys[cause.key].user == u
            && w.keys[cause.key].taken.Some? && w.keys[cause.key].taken.value.req == id)
    case Issue(text, token) => text !in w.signed && token.req == id && SignedOk(cfg, w, token)
    case StoreKey(key, u, email) =>
      key !in w.keys && u in w.db.users && SameEmail(cfg.sql, w.db.users[u].email, email)
    case TakeKey(key) => key in w.keys && key in w.resets && w.now < w.resets[key].expires
  }

  /** Nothing committed is ever undone, and the past is never rewritten. */
  ghost predicate Extends(w: World, w': World) {
    && ExtendsDb(w.db, w'.db)
    && w.log <= w'.log && w.now <= w'.now
    && (forall t :: t in w.signed ==> t in w'.signed && w'.signed[t] == w.signed[t])
    && (forall d :: d in w.lineage ==> d in w'.lineage && w'.lineage[d] == w.lineage[d])
    && (forall k :: k in w.keys ==> k in w'.keys && KeepsKey(w.keys[k], w'.keys[k]))
  }

  ghost predicate ExtendsDb(db: Db, db': Db) {
    && (forall u :: u in db.users ==> u in db'.users && db'.users[u].email == db.users[u].email)
    && db.orgs <= db'.orgs
    && (forall k :: k in db.members ==> k in db'.members && db'.members[k] == db.members[k])
    && (forall d :: d in db.tokens ==> d in db'.tokens && KeepsRow(db.tokens[d], db'.tokens[d]))
  }

  /** A row keeps its user, org and expiry, and a revoked flag never returns to false. */
  predicate KeepsRow(r: Row, r': Row) {
    r'.user == r.user && r'.org == r.org && r'.expires == r.expires && (r.revoked ==> r'.revoked)
  }

  predicate KeepsKey(h: KeyHistory, h': KeyHistory) {
    && h'.user == h.user && h'.email == h.email && h'.asker == h.asker && h'.storedAt == h.storedAt
    && (h.taken.Some? ==> h'.taken == h.taken)
  }
}
