/** User isolation: what other users' requests do leaves no trace in one user's verdicts. */
module Isolation {
  import opened Security
  import opened Schema
  import opened Transactions
  import opened Bodies
  import opened Protocol
  import opened Effects
  import opened Invariant
  import opened Steps
  import opened Runs
  import opened Gate

  // ---- What is u's ----

  predicate RowOf(tokens: map<Digest, Row>, d: Digest, u: Uuid) {
    d in tokens && tokens[d].user == u
  }

  predicate TokenOf(signed: map<string, Signed>, t: string, u: Uuid) {
    t in signed && signed[t].claims.sub == u
  }

  predicate ResetOf(resets: map<CacheKey, Entry>, k: CacheKey, u: Uuid) {
    k in resets && resets[k].user == u
  }

  /** The request's next statement is about u. */
  predicate Mine(cfg: Config, w: World, ph: Phase, u: Uuid)
    requires u in w.db.users
  {
    match ph
    case LoginLookup(email, _, _) => SameEmail(cfg.sql, w.db.users[u].email, email)
    case ForgotLookup(email) => SameEmail(cfg.sql, w.db.users[u].email, email)
    case RefreshRotate(secret) => RowOf(w.db.tokens, HashOpaqueToken(secret), u)
    case LogoutRevoke(secret) => RowOf(w.db.tokens, HashOpaqueToken(secret), u)
    case ResetTake(token, _) => ResetOf(w.resets, PasswordResetCacheKey(token), u)
    case RegisterLookup(_, _, _) => false
    case RegisterInsert(_, _, _) => false
    case Done(_) => false
    case _ => !Foreign(ph, u)
  }

  /** The request is for another user, for a new one, or finished; it can never be about u again. */
  predicate Foreign(ph: Phase, u: Uuid) {
    match ph
    case RegisterLookup(_, _, _) => true
    case RegisterInsert(_, _, _) => true
    case Done(_) => true
    case LoginMembers(snap, _) => snap.id != u
    case IssueSign(snap, _, _) => snap.id != u
    case IssueStore(snap, _, _) => snap.id != u
    case RefreshSign(snap, _, _, _) => snap.id != u
    case ForgotStore(v, _) => v != u
    case ResetCommit(_, v, _) => v != u
    case ChangeLookup(v, _, _) => v != u
    case ChangeCommit(v, _) => v != u
    case _ => false
  }

  // ---- Two worlds that look the same to u ----

  ghost predicate UserAgrees(u: Uuid, a: map<Uuid, User>, b: map<Uuid, User>) {
    u in a && u in b && a[u] == b[u]
  }

  ghost predicate MembersAgree(u: Uuid, a: map<(Uuid, Uuid), string>, b: map<(Uuid, Uuid), string>) {
    && (forall o: Uuid :: (u, o) in a <==> (u, o) in b)
    && (forall o: Uuid :: (u, o) in a && (u, o) in b ==> a[(u, o)] == b[(u, o)])
  }

  ghost predicate TokensAgree(u: Uuid, a: map<Digest, Row>, b: map<Digest, Row>) {
    && (forall d :: RowOf(a, d, u) <==> RowOf(b, d, u))
    && (forall d :: RowOf(a, d, u) && RowOf(b, d, u) ==> a[d] == b[d])
    && b.Keys <= a.Keys
  }

  ghost predicate DbAgree(u: Uuid, a: Db, b: Db) {
    UserAgrees(u, a.users, b.users) && MembersAgree(u, a.members, b.members) && TokensAgree(u, a.tokens, b.tokens)
  }

  ghost predicate SignedAgree(u: Uuid, a: map<string, Signed>, b: map<string, Signed>) {
    && (forall t :: TokenOf(a, t, u) <==> TokenOf(b, t, u))
    && (forall t :: TokenOf(a, t, u) && TokenOf(b, t, u) ==> a[t].claims == b[t].claims)
    && b.Keys <= a.Keys
  }

  ghost predicate ResetsAgree(u: Uuid, a: map<CacheKey, Entry>, b: map<CacheKey, Entry>) {
    && (forall k :: ResetOf(a, k, u) <==> ResetOf(b, k, u))
    && (forall k :: ResetOf(a, k, u) && ResetOf(b, k, u) ==> a[k] == b[k])
  }

  /** The same user row, memberships, refresh rows, reset keys and access tokens, at the same time;
      and b has used no generated value that a has not. */
  ghost predicate WorldAgree(u: Uuid, a: World, b: World) {
    && DbAgree(u, a.db, b.db) && a.now == b.now
    && SignedAgree(u, a.signed, b.signed) && ResetsAgree(u, a.resets, b.resets) && b.keys.Keys <= a.keys.Keys
  }

  /** A phase without the log position of its read, which counts other users' commits too. */
  function Strip(ph: Phase): Phase {
    match ph
    case LoginMembers(snap, sel) => LoginMembers(snap.(readAt := 0), sel)
    case IssueSign(snap, org, role) => IssueSign(snap.(readAt := 0), org, role)
    case IssueStore(snap, org, text) => IssueStore(snap.(readAt := 0), org, text)
    case RefreshSign(snap, org, role, secret) => RefreshSign(snap.(readAt := 0), org, role, secret)
    case _ => ph
  }

  /** Auth gives u's tokens the same verdict in both. */
  lemma SameAuth(cfg: Config, a: World, b: World, u: Uuid, header: string)
    requires WorldAgree(u, a, b)
    requires BearerToken(header).Some? ==> TokenOf(a.signed, BearerToken(header).value, u)
    ensures Auth(cfg, a, header) == Auth(cfg, b, header)
  {
  }

  // ---- Effects that spare u ----

  predicate Spares(w: World, e: Effect, u: Uuid) {
    match e
    case Idle => true
    case Pass(_) => false
    case AddMember(v, _, _) => v != u
    case SignUp(v, _, _) => v != u
    case Open(_, v, _, _) => v != u
    case Rotate(spent, _, _) => spent in w.db.tokens && w.db.tokens[spent].user != u
    case Revoke(v, _) => v != u
    case Issue(_, t) => t.claims.sub != u
    case StoreKey(_, v, _) => v != u
    case TakeKey(k) => k in w.resets && w.resets[k].user != u
  }

  lemma SparedDb(cfg: Config, w: World, id: nat, e: Effect, u: Uuid, b: Db)
    requires DbAgree(u, w.db, b) && Spares(w, e, u) && RowsReady(w.db.tokens, e)
    requires e.SignUp? ==> e.uid !in w.db.users
    ensures DbAgree(u, DbAfter(w.db, e), b)
  {
  }

  /** What an effect needs of the signed texts and the reset keys. */
  predicate HistoryReady(w: World, e: Effect) {
    (e.Issue? ==> e.text !in w.signed) && (e.StoreKey? ==> e.key !in w.resets)
  }

  lemma SparedWorld(cfg: Config, w: World, id: nat, e: Effect, u: Uuid, b: World)
    requires WorldAgree(u, w, b) && Spares(w, e, u) && DbAgree(u, DbAfter(w.db, e), b.db) && HistoryReady(w, e)
    ensures WorldAgree(u, Perform(w, id, e), b)
  {
    var w' := Perform(w, id, e);
    assert forall t :: TokenOf(w'.signed, t, u) <==> TokenOf(w.signed, t, u);
    assert forall k :: ResetOf(w'.resets, k, u) <==> ResetOf(w.resets, k, u);
  }

  lemma TransactionSpares(cfg: Config, w: World, id: nat, ph: Phase, ch: Choice, u: Uuid)
    requires ph.RegisterInsert? || ph.RefreshRotate? || ph.LogoutRevoke?
    requires u in w.db.users && !Mine(cfg, w, ph, u)
    ensures Spares(w, EffectOf(cfg, w, id, ph, ch), u) && Foreign(Advance(cfg, w, id, ph, ch).1, u)
  {
    if ph.RegisterInsert? {
      RegisterTx(cfg.sql, w.db, ch.uid, ch.oid, ph.email, ch.hash, ph.fullName, ch.faults);
    } else if ph.RefreshRotate? {
      RotateOutcome(cfg, w, id, ph.secret, ch);
    } else {
      LogoutTx(cfg.sql, w.db, HashOpaqueToken(ph.secret), w.now, ch.faults);
    }
  }

  lemma OthersSpare(cfg: Config, w: World, id: nat, ph: Phase, ch: Choice, u: Uuid)
    requires u in w.db.users && !ph.Done? && !Mine(cfg, w, ph, u)
    ensures Spares(w, EffectOf(cfg, w, id, ph, ch), u) && Foreign(Advance(cfg, w, id, ph, ch).1, u)
  {
    if ph.RegisterInsert? || ph.RefreshRotate? || ph.LogoutRevoke? { TransactionSpares(cfg, w, id, ph, ch, u); }
  }

  /** A step that is not about u changes nothing u can see, and leaves its request never to be about u. */
  lemma OthersStep(cfg: Config, s: State, id: nat, ch: Choice, u: Uuid, b: World)
    requires Reachable(cfg, s) && Apply(cfg, s, Next(id, ch)).Some? && WorldAgree(u, s.w, b)
    requires !Mine(cfg, s.w, s.reqs[id], u)
    ensures var s' := Apply(cfg, s, Next(id, ch)).value; WorldAgree(u, s'.w, b) && Foreign(s'.reqs[id], u)
  {
    NextIsEffect(cfg, s, id, ch);
    OthersSpare(cfg, s.w, id, s.reqs[id], ch, u);
    var e := EffectOf(cfg, s.w, id, s.reqs[id], ch);
    SparedDb(cfg, s.w, id, e, u, b.db);
    SparedWorld(cfg, s.w, id, e, u, b);
  }

  lemma NextIsEffect(cfg: Config, s: State, id: nat, ch: Choice)
    requires Reachable(cfg, s) && Apply(cfg, s, Next(id, ch)).Some?
    ensures var e := EffectOf(cfg, s.w, id, s.reqs[id], ch);
      && Advance(cfg, s.w, id, s.reqs[id], ch).0 == Perform(s.w, id, e)
      && RowsReady(s.w.db.tokens, e) && HistoryReady(s.w, e) && (e.SignUp? ==> e.uid !in s.w.db.users)
      && (e.TakeKey? ==> e.taken in s.w.keys)
  {
    ReachableOk(cfg, s);
    RequestIsEffect(cfg, s, id, ch);
    PermittedReady(cfg, s.w, id, EffectOf(cfg, s.w, id, s.reqs[id], ch));
  }

  lemma PermittedReady(cfg: Config, w: World, id: nat, e: Effect)
    requires LiveKeysOk(w) && Permitted(cfg, w, id, e)
    ensures RowsReady(w.db.tokens, e) && HistoryReady(w, e) && (e.SignUp? ==> e.uid !in w.db.users)
    ensures e.TakeKey? ==> e.taken in w.keys
  {
  }

  // ---- Steps about u ----

  /** The same effect on u, whatever the log length. */
  predicate SameEffect(e: Effect, f: Effect) {
    if e.Issue? && f.Issue? then e.text == f.text && e.token.claims == f.token.claims else e == f
  }

  /** The effect is on u's things. */
  predicate Owns(w: World, e: Effect, u: Uuid) {
    match e
    case Idle => true
    case Pass(_) => true
    case AddMember(v, _, _) => v == u
    case SignUp(_, _, _) => false
    case Open(_, v, _, _) => v == u
    case Rotate(spent, _, _) => RowOf(w.db.tokens, spent, u)
    case Revoke(v, _) => v == u
    case Issue(_, t) => t.claims.sub == u
    case StoreKey(_, v, _) => v == u
    case TakeKey(k) => ResetOf(w.resets, k, u)
  }

  lemma OwnedUsers(a: map<Uuid, User>, b: map<Uuid, User>, e: Effect, u: Uuid)
    requires UserAgrees(u, a, b) && !e.SignUp? && (e.Revoke? ==> e.victim == u)
    ensures UserAgrees(u, UsersAfter(a, e), UsersAfter(b, e))
  {
  }

  lemma OwnedTokens(a: map<Digest, Row>, b: map<Digest, Row>, e: Effect, u: Uuid)
    requires TokensAgree(u, a, b)
    requires e.Open? ==> e.owner == u && e.digest !in a
    requires e.Rotate? ==> RowOf(a, e.spent, u) && e.minted !in a
    requires e.Revoke? ==> e.victim == u
    ensures TokensAgree(u, TokensAfter(a, e), TokensAfter(b, e))
  {
    var a', b' := TokensAfter(a, e), TokensAfter(b, e);
    forall d ensures RowOf(a', d, u) <==> RowOf(b', d, u) {
      assert RowOf(a, d, u) <==> RowOf(b, d, u);
    }
    forall d | RowOf(a', d, u) && RowOf(b', d, u) ensures a'[d] == b'[d] {
      assert RowOf(a, d, u) <==> RowOf(b, d, u);
    }
  }

  lemma OwnedMembers(a: map<(Uuid, Uuid), string>, b: map<(Uuid, Uuid), string>, e: Effect, u: Uuid)
    requires MembersAgree(u, a, b) && !e.SignUp? && (e.AddMember? ==> e.user == u)
    ensures MembersAgree(u, MembersAfter(a, e), MembersAfter(b, e))
  {
  }

  lemma OwnedDb(a: World, b: World, e: Effect, f: Effect, u: Uuid)
    requires DbAgree(u, a.db, b.db) && SameEffect(e, f) && Owns(a, e, u) && RowsReady(a.db.tokens, e)
    ensures DbAgree(u, DbAfter(a.db, e), DbAfter(b.db, f))
  {
    OwnedUsers(a.db.users, b.db.users, e, u);
    OwnedMembers(a.db.members, b.db.members, e, u);
    OwnedTokens(a.db.tokens, b.db.tokens, e, u);
  }

  lemma OwnedSigned(a: World, b: World, id: nat, e: Effect, f: Effect, u: Uuid)
    requires SignedAgree(u, a.signed, b.signed) && SameEffect(e, f) && Owns(a, e, u) && HistoryReady(a, e)
    ensures SignedAgree(u, Perform(a, id, e).signed, Perform(b, id, f).signed)
  {
    var a', b' := Perform(a, id, e).signed, Perform(b, id, f).signed;
    forall t ensures TokenOf(a', t, u) <==> TokenOf(b', t, u) {
      assert TokenOf(a.signed, t, u) <==> TokenOf(b.signed, t, u);
    }
    forall t | TokenOf(a', t, u) && TokenOf(b', t, u) ensures a'[t].claims == b'[t].claims {
      assert TokenOf(a.signed, t, u) <==> TokenOf(b.signed, t, u);
    }
  }

  lemma OwnedResets(a: World, b: World, e: Effect, u: Uuid)
    requires ResetsAgree(u, a.resets, b.resets) && a.now == b.now && Owns(a, e, u) && HistoryReady(a, e)
    ensures ResetsAgree(u, ResetsAfter(a, e), ResetsAfter(b, e))
  {
    var a', b' := ResetsAfter(a, e), ResetsAfter(b, e);
    forall k ensures ResetOf(a', k, u) <==> ResetOf(b', k, u) {
      assert ResetOf(a.resets, k, u) <==> ResetOf(b.resets, k, u);
    }
    forall k | ResetOf(a', k, u) && ResetOf(b', k, u) ensures a'[k] == b'[k] {
      assert ResetOf(a.resets, k, u) <==> ResetOf(b.resets, k, u);
    }
  }

  lemma OwnedWorld(a: World, b: World, id: nat, e: Effect, f: Effect, u: Uuid)
    requires WorldAgree(u, a, b) && SameEffect(e, f) && Owns(a, e, u) && HistoryReady(a, e)
    requires DbAgree(u, DbAfter(a.db, e), DbAfter(b.db, f))
    requires e.TakeKey? ==> e.taken in a.keys && e.taken in b.keys
    ensures WorldAgree(u, Perform(a, id, e), Perform(b, id, f))
  {
    OwnedSigned(a, b, id, e, f, u);
    OwnedResets(a, b, e, u);
  }

  /** Both worlds do the same to u and lead the request to the same phase. */
  ghost predicate SameStep(cfg: Config, a: World, b: World, id: nat, pa: Phase, pb: Phase, ch: Choice, u: Uuid)
    requires !pa.Done? && !pb.Done?
  {
    && SameEffect(EffectOf(cfg, a, id, pa, ch), EffectOf(cfg, b, id, pb, ch))
    && Owns(a, EffectOf(cfg, a, id, pa, ch), u)
    && Strip(Advance(cfg, a, id, pa, ch).1) == Strip(Advance(cfg, b, id, pb, ch).1)
  }

  predicate RowAtHome(db: Db, d: Digest)
    requires d in db.tokens
  {
    var row := db.tokens[d];
    row.user in db.users && row.org in db.orgs && (row.user, row.org) in db.members
  }

  /** A rotation sees its own row, its user's row and one membership, and nothing else. */
  lemma RotationSees(cfg: Config, w: World, id: nat, secret: string, ch: Choice, u: Uuid)
    requires RowOf(w.db.tokens, HashOpaqueToken(secret), u) && RowAtHome(w.db, HashOpaqueToken(secret))
    requires HashOpaqueToken(ch.secret) !in w.db.tokens
    ensures var d := HashOpaqueToken(secret); var org := w.db.tokens[d].org;
      && var v := Refreshed(u, w.db.users[u], org, w.db.members[(u, org)]);
         var r := RefreshReport(Consumable(w.db, d, w.now), v, ch.faults);
      && RotateEffect(cfg, w, secret, ch) ==
           (if r.Ok? then Rotate(d, HashOpaqueToken(ch.secret), w.now + cfg.refreshExpiry) else Idle)
      && Strip(RotateRefreshToken(cfg, w, id, secret, ch).1) ==
           (if r.Ok? then RefreshSign(Snapshot(u, v.user, 0), org, v.role, ch.secret) else Done(Err(r.error)))
  {
    var d, minted, expires := HashOpaqueToken(secret), HashOpaqueToken(ch.secret), w.now + cfg.refreshExpiry;
    RefreshReports(cfg.sql, w.db, d, minted, w.now, expires, ch.faults, RefreshValue(w.db, d));
  }

  lemma SameRefresh(cfg: Config, a: World, b: World, id: nat, secret: string, ch: Choice, u: Uuid)
    requires DbAgree(u, a.db, b.db) && a.now == b.now
    requires var d := HashOpaqueToken(secret);
      RowOf(a.db.tokens, d, u) && RowOf(b.db.tokens, d, u) && RowAtHome(a.db, d) && RowAtHome(b.db, d)
    requires HashOpaqueToken(ch.secret) !in a.db.tokens
    ensures SameStep(cfg, a, b, id, RefreshRotate(secret), RefreshRotate(secret), ch, u)
  {
    RotationSees(cfg, a, id, secret, ch, u);
    RotationSees(cfg, b, id, secret, ch, u);
    SameSight(u, a.db, b.db, HashOpaqueToken(secret), a.now);
  }

  lemma SameSight(u: Uuid, a: Db, b: Db, d: Digest, now: int)
    requires DbAgree(u, a, b) && RowOf(a.tokens, d, u) && RowOf(b.tokens, d, u) && RowAtHome(a, d) && RowAtHome(b, d)
    ensures a.tokens[d] == b.tokens[d] && a.users[u] == b.users[u]
    ensures a.members[(u, a.tokens[d].org)] == b.members[(u, b.tokens[d].org)]
    ensures Consumable(a, d, now) == Consumable(b, d, now)
  {
  }

  lemma SameLogout(cfg: Config, a: World, b: World, id: nat, secret: string, ch: Choice, u: Uuid)
    requires DbAgree(u, a.db, b.db) && a.now == b.now && RowOf(a.db.tokens, HashOpaqueToken(secret), u)
    ensures SameStep(cfg, a, b, id, LogoutRevoke(secret), LogoutRevoke(secret), ch, u)
  {
    var d := HashOpaqueToken(secret);
    assert RowOf(b.db.tokens, d, u);
    LogoutReports(cfg.sql, a.db, d, a.now, ch.faults);
    LogoutReports(cfg.sql, b.db, d, a.now, ch.faults);
  }

  lemma SamePassword(cfg: Config, a: World, b: World, id: nat, hash: string, cause: Cause, f: Faults, u: Uuid)
    requires DbAgree(u, a.db, b.db)
    ensures PasswordEffect(cfg, a, u, hash, cause, f) == PasswordEffect(cfg, b, u, hash, cause, f)
    ensures SetPassword(cfg, a, id, u, hash, cause, f).1 == SetPassword(cfg, b, id, u, hash, cause, f).1
    ensures Owns(a, PasswordEffect(cfg, a, u, hash, cause, f), u)
  {
    PasswordReports(cfg.sql, a.db, u, hash, f);
    PasswordReports(cfg.sql, b.db, u, hash, f);
  }

  lemma SameLookup(cfg: Config, a: World, b: World, id: nat, pa: Phase, ch: Choice, u: Uuid)
    requires DbAgree(u, a.db, b.db) && (pa.LoginLookup? || pa.ForgotLookup? || pa.ChangeLookup?) && Mine(cfg, a, pa, u)
    requires EmailsUnique(cfg.sql, a.db) && EmailsUnique(cfg.sql, b.db)
    ensures SameStep(cfg, a, b, id, pa, pa, ch, u)
  {
    if !pa.ChangeLookup? {
      UserByEmailUnique(cfg.sql, a.db, pa.email, u);
      UserByEmailUnique(cfg.sql, b.db, pa.email, u);
    }
  }

  lemma SameSign(cfg: Config, a: World, b: World, id: nat, pa: Phase, pb: Phase, ch: Choice, u: Uuid)
    requires a.now == b.now && Strip(pa) == Strip(pb) && (pa.IssueSign? || pa.RefreshSign?) && !Foreign(pa, u)
    ensures SameStep(cfg, a, b, id, pa, pb, ch, u)
  {
  }

  lemma SameSelect(cfg: Config, a: World, b: World, id: nat, pa: Phase, pb: Phase, ch: Choice, u: Uuid)
    requires Strip(pa) == Strip(pb) && pa.LoginMembers?
    ensures SameStep(cfg, a, b, id, pa, pb, ch, u)
  {
  }

  lemma SameStore(cfg: Config, a: World, b: World, id: nat, pa: Phase, pb: Phase, ch: Choice, u: Uuid)
    requires a.now == b.now && Strip(pa) == Strip(pb) && pa.IssueStore? && !Foreign(pa, u)
    requires HashOpaqueToken(ch.secret) !in a.db.tokens && HashOpaqueToken(ch.secret) !in b.db.tokens
    requires u in a.db.users && u in b.db.users && pa.org in a.db.orgs && pa.org in b.db.orgs
    ensures SameStep(cfg, a, b, id, pa, pb, ch, u)
  {
  }

  lemma SameKeyStep(cfg: Config, a: World, b: World, id: nat, pa: Phase, ch: Choice, u: Uuid)
    requires WorldAgree(u, a, b) && (pa.ForgotStore? || pa.ResetTake?) && Mine(cfg, a, pa, u)
    ensures SameStep(cfg, a, b, id, pa, pa, ch, u)
  {
  }

  lemma SameAllowed(cfg: Config, a: World, b: World, pa: Phase, pb: Phase, ch: Choice, u: Uuid)
    requires WorldAgree(u, a, b) && Strip(pa) == Strip(pb) && Mine(cfg, a, pa, u) && Allowed(cfg, a, pa, ch)
    ensures !pa.Done? && !pb.Done? && Allowed(cfg, b, pb, ch)
  {
  }

  lemma SameIssue(cfg: Config, a: World, b: World, id: nat, pa: Phase, pb: Phase, ch: Choice, u: Uuid)
    requires WorldAgree(u, a, b) && Strip(pa) == Strip(pb) && !Foreign(pa, u)
    requires pa.IssueSign? || pa.IssueStore? || pa.RefreshSign? || pa.LoginMembers?
    requires PhaseOk(cfg, a, id, pa) && PhaseOk(cfg, b, id, pb) && Allowed(cfg, a, pa, ch) && Allowed(cfg, b, pb, ch)
    requires MembersValid(a.db) && MembersValid(b.db)
    ensures SameStep(cfg, a, b, id, pa, pb, ch, u)
  {
    if pa.LoginMembers? {
      SameSelect(cfg, a, b, id, pa, pb, ch, u);
    } else if pa.IssueStore? {
      SameStore(cfg, a, b, id, pa, pb, ch, u);
    } else {
      SameSign(cfg, a, b, id, pa, pb, ch, u);
    }
  }

  lemma SamePasswordStep(cfg: Config, a: World, b: World, id: nat, pa: Phase, ch: Choice, u: Uuid)
    requires DbAgree(u, a.db, b.db) && (pa.ResetCommit? || pa.ChangeCommit?) && !Foreign(pa, u)
    ensures SameStep(cfg, a, b, id, pa, pa, ch, u)
  {
    if pa.ResetCommit? {
      SamePassword(cfg, a, b, id, ch.hash, ByReset(pa.key, ch.hash), ch.faults, u);
    } else {
      SamePassword(cfg, a, b, id, ch.hash, ByChange(ch.hash), ch.faults, u);
    }
  }

  /** A step about u is allowed in both worlds and does the same in both. */
  lemma MineSame(cfg: Config, a: World, b: World, id: nat, pa: Phase, pb: Phase, ch: Choice, u: Uuid)
    requires WorldAgree(u, a, b) && Strip(pa) == Strip(pb) && Mine(cfg, a, pa, u) && Allowed(cfg, a, pa, ch)
    requires PhaseOk(cfg, a, id, pa) && PhaseOk(cfg, b, id, pb)
    requires EmailsUnique(cfg.sql, a.db) && EmailsUnique(cfg.sql, b.db)
    requires MembersValid(a.db) && MembersValid(b.db) && HomesOk(a) && HomesOk(b)
    ensures !pa.Done? && !pb.Done? && Allowed(cfg, b, pb, ch) && SameStep(cfg, a, b, id, pa, pb, ch, u)
  {
    SameAllowed(cfg, a, b, pa, pb, ch, u);
    if pa.IssueSign? || pa.IssueStore? || pa.RefreshSign? || pa.LoginMembers? {
      SameIssue(cfg, a, b, id, pa, pb, ch, u);
    } else if pa.RefreshRotate? {
      assert RowOf(b.db.tokens, HashOpaqueToken(pa.secret), u);
      SameRefresh(cfg, a, b, id, pa.secret, ch, u);
    } else if pa.LogoutRevoke? {
      SameLogout(cfg, a, b, id, pa.secret, ch, u);
    } else if pa.ResetCommit? || pa.ChangeCommit? {
      SamePasswordStep(cfg, a, b, id, pa, ch, u);
    } else if pa.ForgotStore? || pa.ResetTake? {
      SameKeyStep(cfg, a, b, id, pa, ch, u);
    } else {
      SameLookup(cfg, a, b, id, pa, ch, u);
    }
  }

  // ---- Registrations that u depends on ----

  /** b has no user, org or membership that a has not, and the same of the orgs u joins in the run. */
  ghost predicate Within(a: Db, b: Db, wanted: set<Uuid>) {
    && (forall v :: v in b.users ==> v in a.users && b.users[v].email == a.users[v].email)
    && b.orgs <= a.orgs && b.members.Keys <= a.members.Keys
    && (forall o :: o in wanted ==> (o in a.orgs <==> o in b.orgs))
  }

  predicate Registers(ph: Phase) {
    ph.RegisterLookup? || ph.RegisterInsert?
  }

  /** The step commits a registration of an org u joins in the run. */
  ghost predicate FoundsNow(cfg: Config, s: State, step: Step, id: nat, wanted: set<Uuid>) {
    && step.Next? && step.id == id && id in s.reqs && s.reqs[id].RegisterInsert?
    && var e := EffectOf(cfg, s.w, id, s.reqs[id], step.choice);
       e.SignUp? && e.home in wanted
  }

  ghost predicate Founds(cfg: Config, s: State, steps: seq<Step>, id: nat, wanted: set<Uuid>)
    decreases |steps|
  {
    && steps != [] && Apply(cfg, s, steps[0]).Some?
    && (FoundsNow(cfg, s, steps[0], id, wanted) || Founds(cfg, Apply(cfg, s, steps[0]).value, steps[1..], id, wanted))
  }

  lemma NoLongerRegisters(cfg: Config, w: World, id: nat, ph: Phase, ch: Choice)
    requires !ph.Done? && !ph.RegisterLookup?
    ensures !Registers(Advance(cfg, w, id, ph, ch).1)
  {
  }

  lemma {:induction false} NeverFounds(cfg: Config, s: State, steps: seq<Step>, id: nat, wanted: set<Uuid>)
    requires id in s.reqs && !Registers(s.reqs[id])
    ensures !Founds(cfg, s, steps, id, wanted)
    decreases |steps|
  {
    if steps != [] && Apply(cfg, s, steps[0]).Some? {
      var step := steps[0];
      if step.Next? && step.id == id { NoLongerRegisters(cfg, s.w, id, s.reqs[id], step.choice); }
      NeverFounds(cfg, Apply(cfg, s, step).value, steps[1..], id, wanted);
    }
  }

  lemma FewerEmails(cfg: Config, a: Db, b: Db, wanted: set<Uuid>, email: string)
    requires Within(a, b, wanted)
    ensures EmailTaken(cfg.sql, b, email) ==> EmailTaken(cfg.sql, a, email)
  {
    if v :| v in b.users && SameEmail(cfg.sql, b.users[v].email, email) {
      assert SameEmail(cfg.sql, a.users[v].email, email);
    }
  }

  /** A registration that commits in a commits the same in b. */
  lemma SameAccount(cfg: Config, a: World, b: World, id: nat, ph: Phase, ch: Choice, wanted: set<Uuid>)
    requires Within(a.db, b.db, wanted) && ph.RegisterInsert? && EffectOf(cfg, a, id, ph, ch).SignUp?
    ensures EffectOf(cfg, b, id, ph, ch) == EffectOf(cfg, a, id, ph, ch)
    ensures Strip(Advance(cfg, b, id, ph, ch).1) == Strip(Advance(cfg, a, id, ph, ch).1)
    ensures ch.uid !in a.db.users
  {
    RegisterTx(cfg.sql, a.db, ch.uid, ch.oid, ph.email, ch.hash, ph.fullName, ch.faults);
    FewerEmails(cfg, a.db, b.db, wanted, ph.email);
    RegisterReports(cfg.sql, a.db, ch.uid, ch.oid, ph.email, ch.hash, ph.fullName, ch.faults);
    RegisterReports(cfg.sql, b.db, ch.uid, ch.oid, ph.email, ch.hash, ph.fullName, ch.faults);
  }

  /** A new user and a new org in both. */
  lemma SignUpAgrees(a: World, b: World, id: nat, e: Effect, u: Uuid, wanted: set<Uuid>)
    requires WorldAgree(u, a, b) && Within(a.db, b.db, wanted) && e.SignUp? && e.uid !in a.db.users
    ensures WorldAgree(u, Perform(a, id, e), Perform(b, id, e)) && Within(DbAfter(a.db, e), DbAfter(b.db, e), wanted)
  {
  }

  lemma SparedWithin(a: Db, b: Db, e: Effect, wanted: set<Uuid>)
    requires Within(a, b, wanted)
    requires e.SignUp? ==> e.uid !in a.users && e.home !in wanted
    ensures Within(DbAfter(a, e), b, wanted)
  {
  }

  lemma OwnedWithin(a: Db, b: Db, e: Effect, f: Effect, wanted: set<Uuid>)
    requires Within(a, b, wanted) && SameEffect(e, f) && !e.SignUp?
    ensures Within(DbAfter(a, e), DbAfter(b, f), wanted)
  {
  }

  // ---- Runs ----

  /** The steps that stay when other users' are deleted: the clock, arrivals, what is about u, and, up to
      their commit, the registrations of the orgs u joins. */
  ghost predicate Keep(cfg: Config, s: State, steps: seq<Step>, u: Uuid, wanted: set<Uuid>)
    requires u in s.w.db.users && steps != []
  {
    match steps[0]
    case Tick(_) => true
    case Start(_, _) => true
    case Join(v, _, _) => v == u
    case Next(id, _) =>
      id in s.reqs && (Mine(cfg, s.w, s.reqs[id], u) || (Registers(s.reqs[id]) && Founds(cfg, s, steps, id, wanted)))
    case Crash(id) => id in s.reqs && !Foreign(s.reqs[id], u)
  }

  /** The run without other users' steps. */
  ghost function Only(cfg: Config, s: State, steps: seq<Step>, u: Uuid, wanted: set<Uuid>): seq<Step>
    requires Reachable(cfg, s) && Exec(cfg, s, steps).Some? && u in s.w.db.users
    decreases |steps|
  {
    if steps == [] then []
    else
      StepGoesOn(cfg, s, steps[0]);
      (if Keep(cfg, s, steps, u, wanted) then [steps[0]] else [])
      + Only(cfg, Apply(cfg, s, steps[0]).value, steps[1..], u, wanted)
  }

  function Requests(step: Step): set<nat> {
    if step.Next? || step.Crash? then {step.id} else {}
  }

  /** The requests that lost a step. */
  ghost function Dropped(cfg: Config, s: State, steps: seq<Step>, u: Uuid, wanted: set<Uuid>): set<nat>
    requires Reachable(cfg, s) && Exec(cfg, s, steps).Some? && u in s.w.db.users
    decreases |steps|
  {
    if steps == [] then {}
    else
      StepGoesOn(cfg, s, steps[0]);
      (if Keep(cfg, s, steps, u, wanted) then {} else Requests(steps[0]))
      + Dropped(cfg, Apply(cfg, s, steps[0]).value, steps[1..], u, wanted)
  }

  /** A request either lost a step, and is not about u, or stands at the same point in both. */
  ghost predicate RequestAgrees(s: State, t: State, u: Uuid, dropped: set<nat>, id: nat)
    requires id in s.reqs && id in t.reqs
  {
    if id in dropped then Foreign(s.reqs[id], u) else Strip(s.reqs[id]) == Strip(t.reqs[id])
  }

  ghost predicate RequestsAgree(s: State, t: State, u: Uuid, dropped: set<nat>) {
    && s.reqs.Keys == t.reqs.Keys
    && forall id :: id in s.reqs ==> RequestAgrees(s, t, u, dropped, id)
  }

  ghost predicate StatesAgree(s: State, t: State, u: Uuid, dropped: set<nat>, wanted: set<Uuid>) {
    WorldAgree(u, s.w, t.w) && Within(s.w.db, t.w.db, wanted) && RequestsAgree(s, t, u, dropped)
  }

  /** No request that lost a step goes on to found an org u joins. */
  ghost predicate NoneFounds(cfg: Config, s: State, steps: seq<Step>, dropped: set<nat>, wanted: set<Uuid>) {
    forall id :: id in dropped ==> !Founds(cfg, s, steps, id, wanted)
  }

  lemma KeptNext(cfg: Config, s: State, t: State, id: nat, ch: Choice, u: Uuid, dropped: set<nat>, wanted: set<Uuid>)
    requires Reachable(cfg, s) && Reachable(cfg, t) && StatesAgree(s, t, u, dropped, wanted)
    requires Apply(cfg, s, Next(id, ch)).Some? && Mine(cfg, s.w, s.reqs[id], u)
    ensures Apply(cfg, t, Next(id, ch)).Some?
    ensures StatesAgree(Apply(cfg, s, Next(id, ch)).value, Apply(cfg, t, Next(id, ch)).value, u, dropped, wanted)
  {
    assert RequestAgrees(s, t, u, dropped, id);
    ReachablePhase(cfg, s, id);
    ReachablePhase(cfg, t, id);
    ReachableTables(cfg, s);
    ReachableTables(cfg, t);
    MineSame(cfg, s.w, t.w, id, s.reqs[id], t.reqs[id], ch, u);
    KeptWorld(cfg, s, t, id, ch, u, wanted);
    KeptRequests(cfg, s, t, id, ch, u, dropped);
  }

  lemma KeptWorld(cfg: Config, s: State, t: State, id: nat, ch: Choice, u: Uuid, wanted: set<Uuid>)
    requires Reachable(cfg, s) && Reachable(cfg, t) && WorldAgree(u, s.w, t.w) && Within(s.w.db, t.w.db, wanted)
    requires Apply(cfg, s, Next(id, ch)).Some? && Apply(cfg, t, Next(id, ch)).Some?
    requires SameStep(cfg, s.w, t.w, id, s.reqs[id], t.reqs[id], ch, u)
    ensures var a, b := Apply(cfg, s, Next(id, ch)).value.w, Apply(cfg, t, Next(id, ch)).value.w;
      WorldAgree(u, a, b) && Within(a.db, b.db, wanted)
  {
    var e, f := EffectOf(cfg, s.w, id, s.reqs[id], ch), EffectOf(cfg, t.w, id, t.reqs[id], ch);
    NextIsEffect(cfg, s, id, ch);
    NextIsEffect(cfg, t, id, ch);
    OwnedDb(s.w, t.w, e, f, u);
    OwnedWorld(s.w, t.w, id, e, f, u);
    OwnedWithin(s.w.db, t.w.db, e, f, wanted);
  }

  lemma KeptRequests(cfg: Config, s: State, t: State, id: nat, ch: Choice, u: Uuid, dropped: set<nat>)
    requires RequestsAgree(s, t, u, dropped) && id !in dropped
    requires Apply(cfg, s, Next(id, ch)).Some? && Apply(cfg, t, Next(id, ch)).Some?
    requires Strip(Advance(cfg, s.w, id, s.reqs[id], ch).1) == Strip(Advance(cfg, t.w, id, t.reqs[id], ch).1)
    ensures RequestsAgree(Apply(cfg, s, Next(id, ch)).value, Apply(cfg, t, Next(id, ch)).value, u, dropped)
  {
  }

  /** The registration of an org u joins takes its two steps alike in both. */
  lemma KeptFounder(cfg: Config, s: State, t: State, steps: seq<Step>, id: nat, u: Uuid, dropped: set<nat>,
          wanted: set<Uuid>)
    requires Reachable(cfg, s) && Reachable(cfg, t) && StatesAgree(s, t, u, dropped, wanted) && id !in dropped
    requires steps != [] && steps[0].Next? && steps[0].id == id && Apply(cfg, s, steps[0]).Some?
    requires Registers(s.reqs[id]) && Founds(cfg, s, steps, id, wanted)
    ensures Apply(cfg, t, steps[0]).Some?
    ensures StatesAgree(Apply(cfg, s, steps[0]).value, Apply(cfg, t, steps[0]).value, u, dropped, wanted)
  {
    assert RequestAgrees(s, t, u, dropped, id);
    if s.reqs[id].RegisterLookup? {
      FounderPasses(cfg, s, steps, id, wanted);
      FounderLooksUp(cfg, s.w, t.w, id, s.reqs[id], steps[0].choice, wanted);
    } else {
      FoundsAtInsert(cfg, s, steps, id, wanted);
      FounderInserts(cfg, s, t, id, steps[0].choice, u, wanted);
    }
    KeptRequests(cfg, s, t, id, steps[0].choice, u, dropped);
  }

  lemma FounderPasses(cfg: Config, s: State, steps: seq<Step>, id: nat, wanted: set<Uuid>)
    requires steps != [] && steps[0].Next? && steps[0].id == id && Apply(cfg, s, steps[0]).Some?
    requires s.reqs[id].RegisterLookup? && Founds(cfg, s, steps, id, wanted)
    ensures !Advance(cfg, s.w, id, s.reqs[id], steps[0].choice).1.Done?
  {
    var s' := Apply(cfg, s, steps[0]).value;
    if s'.reqs[id].Done? { NeverFounds(cfg, s', steps[1..], id, wanted); }
  }

  lemma FoundsAtInsert(cfg: Config, s: State, steps: seq<Step>, id: nat, wanted: set<Uuid>)
    requires steps != [] && steps[0].Next? && steps[0].id == id && Apply(cfg, s, steps[0]).Some?
    requires s.reqs[id].RegisterInsert? && Founds(cfg, s, steps, id, wanted)
    ensures FoundsNow(cfg, s, steps[0], id, wanted)
  {
    NoLongerRegisters(cfg, s.w, id, s.reqs[id], steps[0].choice);
    NeverFounds(cfg, Apply(cfg, s, steps[0]).value, steps[1..], id, wanted);
  }

  lemma FounderLooksUp(cfg: Config, a: World, b: World, id: nat, ph: Phase, ch: Choice, wanted: set<Uuid>)
    requires Within(a.db, b.db, wanted) && ph.RegisterLookup? && !Advance(cfg, a, id, ph, ch).1.Done?
    ensures Advance(cfg, a, id, ph, ch).0 == a && Advance(cfg, b, id, ph, ch) == (b, Advance(cfg, a, id, ph, ch).1)
  {
    FewerEmails(cfg, a.db, b.db, wanted, ph.email);
  }

  lemma FounderInserts(cfg: Config, s: State, t: State, id: nat, ch: Choice, u: Uuid, wanted: set<Uuid>)
    requires Reachable(cfg, s) && Reachable(cfg, t) && WorldAgree(u, s.w, t.w) && Within(s.w.db, t.w.db, wanted)
    requires id in s.reqs && id in t.reqs && s.reqs[id] == t.reqs[id] && Apply(cfg, s, Next(id, ch)).Some?
    requires FoundsNow(cfg, s, Next(id, ch), id, wanted)
    ensures Apply(cfg, t, Next(id, ch)).Some?
    ensures var a, b := Apply(cfg, s, Next(id, ch)).value.w, Apply(cfg, t, Next(id, ch)).value.w;
      WorldAgree(u, a, b) && Within(a.db, b.db, wanted)
    ensures Strip(Advance(cfg, s.w, id, s.reqs[id], ch).1) == Strip(Advance(cfg, t.w, id, t.reqs[id], ch).1)
  {
    SameAccount(cfg, s.w, t.w, id, s.reqs[id], ch, wanted);
    NextIsEffect(cfg, s, id, ch);
    NextIsEffect(cfg, t, id, ch);
    SignUpAgrees(s.w, t.w, id, EffectOf(cfg, s.w, id, s.reqs[id], ch), u, wanted);
  }

  lemma KeptJoin(cfg: Config, s: State, t: State, o: Uuid, role: string, u: Uuid, dropped: set<nat>, wanted: set<Uuid>)
    requires StatesAgree(s, t, u, dropped, wanted) && o in wanted
    ensures var s', t' := Apply(cfg, s, Join(u, o, role)).value, Apply(cfg, t, Join(u, o, role)).value;
      StatesAgree(s', t', u, dropped, wanted)
  {
    var s', t' := Apply(cfg, s, Join(u, o, role)).value, Apply(cfg, t, Join(u, o, role)).value;
    assert DbAgree(u, s'.w.db, t'.w.db) && Within(s'.w.db, t'.w.db, wanted);
    forall k | k in s'.reqs ensures RequestAgrees(s', t', u, dropped, k) {
      assert RequestAgrees(s, t, u, dropped, k);
    }
  }

  lemma KeptTick(cfg: Config, s: State, t: State, delta: nat, u: Uuid, dropped: set<nat>, wanted: set<Uuid>)
    requires StatesAgree(s, t, u, dropped, wanted)
    ensures StatesAgree(Apply(cfg, s, Tick(delta)).value, Apply(cfg, t, Tick(delta)).value, u, dropped, wanted)
  {
  }

  lemma KeptStart(cfg: Config, s: State, t: State, id: nat, call: Call, u: Uuid, dropped: set<nat>, wanted: set<Uuid>)
    requires StatesAgree(s, t, u, dropped, wanted) && id !in s.reqs && id !in dropped
    ensures Apply(cfg, t, Start(id, call)).Some?
    ensures StatesAgree(Apply(cfg, s, Start(id, call)).value, Apply(cfg, t, Start(id, call)).value, u, dropped, wanted)
  {
  }

  lemma StripCrash(p: Phase, q: Phase)
    requires Strip(p) == Strip(q)
    ensures p.Done? == q.Done? && CrashError(p) == CrashError(q)
  {
  }

  lemma KeptCrash(cfg: Config, s: State, t: State, id: nat, u: Uuid, dropped: set<nat>, wanted: set<Uuid>)
    requires StatesAgree(s, t, u, dropped, wanted) && Apply(cfg, s, Crash(id)).Some? && !Foreign(s.reqs[id], u)
    ensures Apply(cfg, t, Crash(id)).Some?
    ensures StatesAgree(Apply(cfg, s, Crash(id)).value, Apply(cfg, t, Crash(id)).value, u, dropped, wanted)
  {
    assert RequestAgrees(s, t, u, dropped, id);
    if id !in dropped { StripCrash(s.reqs[id], t.reqs[id]); }
    var s', t' := Apply(cfg, s, Crash(id)).value, Apply(cfg, t, Crash(id)).value;
    forall k | k in s'.reqs ensures RequestAgrees(s', t', u, dropped, k) {
      assert RequestAgrees(s, t, u, dropped, k);
    }
  }

  /** A deleted step changes nothing u can see and founds no org u joins. */
  lemma DroppedNext(cfg: Config, s: State, t: World, steps: seq<Step>, u: Uuid, wanted: set<Uuid>)
    requires Reachable(cfg, s) && steps != [] && steps[0].Next? && Apply(cfg, s, steps[0]).Some?
    requires WorldAgree(u, s.w, t) && Within(s.w.db, t.db, wanted) && !Keep(cfg, s, steps, u, wanted)
    ensures var s' := Apply(cfg, s, steps[0]).value;
      WorldAgree(u, s'.w, t) && Within(s'.w.db, t.db, wanted) && Foreign(s'.reqs[steps[0].id], u)
  {
    var id, ch := steps[0].id, steps[0].choice;
    OthersStep(cfg, s, id, ch, u, t);
    NextIsEffect(cfg, s, id, ch);
    SparedWithin(s.w.db, t.db, EffectOf(cfg, s.w, id, s.reqs[id], ch), wanted);
  }

  lemma DroppedStep(cfg: Config, s: State, t: State, steps: seq<Step>, u: Uuid, dropped: set<nat>, wanted: set<Uuid>)
    requires Reachable(cfg, s) && StatesAgree(s, t, u, dropped, wanted)
    requires steps != [] && Apply(cfg, s, steps[0]).Some? && !Keep(cfg, s, steps, u, wanted)
    ensures StatesAgree(Apply(cfg, s, steps[0]).value, t, u, dropped + Requests(steps[0]), wanted)
  {
    if steps[0].Next? {
      DroppedNext(cfg, s, t.w, steps, u, wanted);
    } else if steps[0].Join? {
      DroppedJoin(cfg, s.w.db, t.w.db, steps[0], u, wanted);
    }
    DroppedRequests(cfg, s, t, steps[0], u, dropped);
  }

  lemma DroppedJoin(cfg: Config, a: Db, b: Db, step: Step, u: Uuid, wanted: set<Uuid>)
    requires DbAgree(u, a, b) && Within(a, b, wanted) && step.Join? && step.user != u
    ensures var a' := Execute(cfg.sql, a, InsertMember(step.user, step.org, step.role)).0;
      DbAgree(u, a', b) && Within(a', b, wanted)
  {
  }

  lemma DroppedRequests(cfg: Config, s: State, t: State, step: Step, u: Uuid, dropped: set<nat>)
    requires RequestsAgree(s, t, u, dropped) && Apply(cfg, s, step).Some? && !step.Start?
    requires step.Next? ==> Foreign(Apply(cfg, s, step).value.reqs[step.id], u)
    ensures RequestsAgree(Apply(cfg, s, step).value, t, u, dropped + Requests(step))
  {
    var s', more := Apply(cfg, s, step).value, dropped + Requests(step);
    forall k | k in s'.reqs ensures RequestAgrees(s', t, u, more, k) {
      assert RequestAgrees(s, t, u, dropped, k);
    }
  }

  /** A request whose step is deleted founds nothing afterwards either. */
  lemma DroppedNeverFound(cfg: Config, s: State, steps: seq<Step>, u: Uuid, dropped: set<nat>, wanted: set<Uuid>)
    requires u in s.w.db.users && steps != [] && Apply(cfg, s, steps[0]).Some?
    requires NoneFounds(cfg, s, steps, dropped, wanted)
    requires !Keep(cfg, s, steps, u, wanted)
    ensures NoneFounds(cfg, Apply(cfg, s, steps[0]).value, steps[1..], dropped + Requests(steps[0]), wanted)
  {
    var step, s' := steps[0], Apply(cfg, s, steps[0]).value;
    if step.Next? && !Registers(s.reqs[step.id]) {
      NoLongerRegisters(cfg, s.w, step.id, s.reqs[step.id], step.choice);
      NeverFounds(cfg, s', steps[1..], step.id, wanted);
    } else if step.Crash? {
      NeverFounds(cfg, s', steps[1..], step.id, wanted);
    }
  }

  /** The orgs u joins in a run, or tries to. */
  function Joined(steps: seq<Step>, u: Uuid): set<Uuid> {
    set i | 0 <= i < |steps| && steps[i].Join? && steps[i].user == u :: steps[i].org
  }

  lemma KeptStep(cfg: Config, s: State, t: State, steps: seq<Step>, u: Uuid, dropped: set<nat>, wanted: set<Uuid>)
    requires Reachable(cfg, s) && Reachable(cfg, t) && StatesAgree(s, t, u, dropped, wanted) && dropped <= s.reqs.Keys
    requires steps != [] && Apply(cfg, s, steps[0]).Some? && Keep(cfg, s, steps, u, wanted)
    requires NoneFounds(cfg, s, steps, dropped, wanted) && Joined(steps, u) <= wanted
    ensures Apply(cfg, t, steps[0]).Some?
    ensures StatesAgree(Apply(cfg, s, steps[0]).value, Apply(cfg, t, steps[0]).value, u, dropped, wanted)
  {
    match steps[0]
    case Tick(delta) => KeptTick(cfg, s, t, delta, u, dropped, wanted);
    case Join(_, o, role) => KeptJoin(cfg, s, t, o, role, u, dropped, wanted);
    case Start(id, call) => KeptStart(cfg, s, t, id, call, u, dropped, wanted);
    case Crash(id) => KeptCrash(cfg, s, t, id, u, dropped, wanted);
    case Next(id, ch) =>
      if Mine(cfg, s.w, s.reqs[id], u) {
        KeptNext(cfg, s, t, id, ch, u, dropped, wanted);
      } else {
        KeptFounder(cfg, s, t, steps, id, u, dropped, wanted);
      }
  }

  lemma RequestsStay(cfg: Config, s: State, step: Step)
    requires Apply(cfg, s, step).Some?
    ensures s.reqs.Keys + Requests(step) <= Apply(cfg, s, step).value.reqs.Keys
  {
  }

  lemma OnlyStep(cfg: Config, s: State, steps: seq<Step>, u: Uuid, wanted: set<Uuid>)
    requires Reachable(cfg, s) && Exec(cfg, s, steps).Some? && u in s.w.db.users && steps != []
    ensures var s' := Apply(cfg, s, steps[0]).value;
      && Reachable(cfg, s') && u in s'.w.db.users && Exec(cfg, s', steps[1..]) == Exec(cfg, s, steps)
      && (if Keep(cfg, s, steps, u, wanted) then
            && Only(cfg, s, steps, u, wanted) == [steps[0]] + Only(cfg, s', steps[1..], u, wanted)
            && Dropped(cfg, s, steps, u, wanted) == Dropped(cfg, s', steps[1..], u, wanted)
          else
            && Only(cfg, s, steps, u, wanted) == Only(cfg, s', steps[1..], u, wanted)
            && Dropped(cfg, s, steps, u, wanted) == Requests(steps[0]) + Dropped(cfg, s', steps[1..], u, wanted))
  {
    StepGoesOn(cfg, s, steps[0]);
  }

  /** What a run and its shortened copy have in common before the rest of the run. */
  ghost predicate InStep(cfg: Config, s: State, t: State, steps: seq<Step>, u: Uuid, dropped: set<nat>,
          wanted: set<Uuid>)
  {
    && Reachable(cfg, s) && Reachable(cfg, t) && StatesAgree(s, t, u, dropped, wanted) && dropped <= s.reqs.Keys
    && Exec(cfg, s, steps).Some? && NoneFounds(cfg, s, steps, dropped, wanted) && Joined(steps, u) <= wanted
  }

  lemma JoinedLater(steps: seq<Step>, u: Uuid)
    requires steps != []
    ensures Joined(steps[1..], u) <= Joined(steps, u)
  {
    var later := steps[1..];
    forall o | o in Joined(later, u) ensures o in Joined(steps, u) {
      var i :| 0 <= i < |later| && later[i].Join? && later[i].user == u && later[i].org == o;
      assert steps[i + 1] == later[i];
    }
  }

  lemma StaysInStep(cfg: Config, s: State, t: State, steps: seq<Step>, u: Uuid, dropped: set<nat>, wanted: set<Uuid>)
    requires InStep(cfg, s, t, steps, u, dropped, wanted) && steps != []
    ensures var s' := Apply(cfg, s, steps[0]).value;
      if Keep(cfg, s, steps, u, wanted) then
        && Apply(cfg, t, steps[0]).Some?
        && InStep(cfg, s', Apply(cfg, t, steps[0]).value, steps[1..], u, dropped, wanted)
      else InStep(cfg, s', t, steps[1..], u, dropped + Requests(steps[0]), wanted)
  {
    OnlyStep(cfg, s, steps, u, wanted);
    RequestsStay(cfg, s, steps[0]);
    JoinedLater(steps, u);
    if Keep(cfg, s, steps, u, wanted) {
      KeptStep(cfg, s, t, steps, u, dropped, wanted);
      StepGoesOn(cfg, t, steps[0]);
    } else {
      DroppedStep(cfg, s, t, steps, u, dropped, wanted);
      DroppedNeverFound(cfg, s, steps, u, dropped, wanted);
    }
  }

  lemma {:induction false} RunsAgree(cfg: Config, s: State, t: State, steps: seq<Step>, u: Uuid, dropped: set<nat>,
          wanted: set<Uuid>)
    requires InStep(cfg, s, t, steps, u, dropped, wanted)
    ensures var rest := Only(cfg, s, steps, u, wanted);
      && Exec(cfg, t, rest).Some?
      && StatesAgree(Exec(cfg, s, steps).value, Exec(cfg, t, rest).value, u,
                     dropped + Dropped(cfg, s, steps, u, wanted), wanted)
    decreases |steps|
  {
    if steps == [] {
      assert dropped + {} == dropped;
    } else {
      var step, s' := steps[0], Apply(cfg, s, steps[0]).value;
      OnlyStep(cfg, s, steps, u, wanted);
      StaysInStep(cfg, s, t, steps, u, dropped, wanted);
      var rest, lost := Only(cfg, s', steps[1..], u, wanted), Dropped(cfg, s', steps[1..], u, wanted);
      if Keep(cfg, s, steps, u, wanted) {
        RunsAgree(cfg, s', Apply(cfg, t, step).value, steps[1..], u, dropped, wanted);
        ExecCons(cfg, t, step, rest);
      } else {
        RunsAgree(cfg, s', t, steps[1..], u, dropped + Requests(step), wanted);
        assert dropped + (Requests(step) + lost) == dropped + Requests(step) + lost;
      }
    }
  }

  /** User isolation.  Delete from a run every step that acts on other users, except, up to their commit, the
      registrations of the orgs u joins in it: the run is still possible, and Auth gives each of u's access
      tokens, the table each of u's refresh tokens, and every request that kept its steps its outcome, exactly
      as before. */
  lemma UserIsolation(cfg: Config, s: State, steps: seq<Step>, u: Uuid)
    requires Reachable(cfg, s) && Exec(cfg, s, steps).Some? && u in s.w.db.users
    ensures var wanted := Joined(steps, u);
      var rest := Only(cfg, s, steps, u, wanted);
      && Exec(cfg, s, rest).Some?
      && var full, part := Exec(cfg, s, steps).value, Exec(cfg, s, rest).value;
      && (forall header :: BearerToken(header).Some? && TokenOf(full.w.signed, BearerToken(header).value, u) ==>
            Auth(cfg, full.w, header) == Auth(cfg, part.w, header))
      && (forall d, now :: RowOf(full.w.db.tokens, d, u) ==>
            (Consumable(full.w.db, d, now) <==> Consumable(part.w.db, d, now)))
      && (forall id :: id in full.reqs && id !in Dropped(cfg, s, steps, u, wanted) ==>
            id in part.reqs && Strip(full.reqs[id]) == Strip(part.reqs[id]))
  {
    var wanted := Joined(steps, u);
    RunsAgree(cfg, s, s, steps, u, {}, wanted);
    var full, part := Exec(cfg, s, steps).value, Exec(cfg, s, Only(cfg, s, steps, u, wanted)).value;
    var lost := Dropped(cfg, s, steps, u, wanted);
    assert {} + lost == lost;
    forall header | BearerToken(header).Some? && TokenOf(full.w.signed, BearerToken(header).value, u)
      ensures Auth(cfg, full.w, header) == Auth(cfg, part.w, header)
    {
      SameAuth(cfg, full.w, part.w, u, header);
    }
    forall d, now: int | RowOf(full.w.db.tokens, d, u)
      ensures Consumable(full.w.db, d, now) <==> Consumable(part.w.db, d, now)
    {
      assert RowOf(part.w.db.tokens, d, u);
    }
    forall id | id in full.reqs && id !in lost ensures id in part.reqs && Strip(full.reqs[id]) == Strip(part.reqs[id]) {
      assert RequestAgrees(full, part, u, lost, id);
    }
  }
}
