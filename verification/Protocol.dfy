/** The session and credential protocol as a transition system.  A state is the shared
    world and any number of requests, each stopped between two atomic steps with what it
    has read so far.  One step is one statement on its own, one whole transaction, one
    Redis command, one signing, the clock, or a request dying where it stands. */
module Protocol {
  import opened Text
  import opened Security
  import opened Schema
  import opened Transactions
  import opened Bodies

  /** What main wires in: the two character tables, the library predicates and the JWT settings. */
  datatype Config = Config(
    go: Chars, sql: Chars,
    bareAddress: string -> bool,
    matches: (string, string) -> bool,   // bcrypt: hash, password
    secret: string, issuer: string, audience: string,
    jwtExpiry: int, refreshExpiry: int)  // milliseconds

  const HOUR := 3_600_000

  // ---- The shared world ----

  datatype Claims = Claims(
    sub: Uuid, org: Uuid, role: string, version: int, issuer: string, audience: string, expires: int)

  /** A signed access token: its claims, and when and by whom the user row behind it was read. */
  datatype Signed = Signed(claims: Claims, readAt: nat, req: nat, at: int)

  datatype Cause = ByLogout(digest: Digest) | ByChange(hash: string) | ByReset(key: CacheKey, hash: string)

  /** What a committed write did. */
  datatype Event =
    | SignedUp(user: Uuid, org: Uuid, email: string, hash: string)
    | Opened(digest: Digest, user: Uuid, org: Uuid)
    | Rotated(spent: Digest, minted: Digest, user: Uuid)
    | Revoked(user: Uuid, cause: Cause)

  datatype Commit = Commit(req: nat, event: Event)

  /** Where a refresh row comes from: the row its login stored and the log length then, the row
      it replaced, how many rotations, and its own place in the log. */
  datatype Origin = Origin(root: Digest, since: nat, parent: Option<Digest>, gen: nat, birth: nat)

  datatype Entry = Entry(user: Uuid, expires: int)
  datatype Taken = Taken(at: int, req: nat)
  datatype KeyHistory = KeyHistory(user: Uuid, email: string, asker: nat, storedAt: int, taken: Option<Taken>)

  /** Postgres, Redis and the clock; then the history: tokens signed, commits, origins, reset keys ever stored. */
  datatype World = World(
    db: Db, resets: map<CacheKey, Entry>, now: int,
    signed: map<string, Signed>, log: seq<Commit>,
    lineage: map<Digest, Origin>, keys: map<CacheKey, KeyHistory>)

  function Committed(w: World, db: Db, id: nat, ev: Event): World {
    w.(db := db, log := w.log + [Commit(id, ev)])
  }

  function AfterOpen(w: World, db: Db, id: nat, d: Digest, u: Uuid, o: Uuid): World {
    Committed(w, db, id, Opened(d, u, o)).(lineage := w.lineage[d := Origin(d, |w.log|, None, 0, |w.log|)])
  }

  function AfterRotate(w: World, db: Db, id: nat, spent: Digest, minted: Digest, u: Uuid): World {
    var w' := Committed(w, db, id, Rotated(spent, minted, u));
    if spent !in w.lineage then w' else
    var o := w.lineage[spent];
    w'.(lineage := w.lineage[minted := Origin(o.root, o.since, Some(spent), o.gen + 1, |w.log|)])
  }

  // ---- Requests ----

  /** The org_id a login names: empty, unparsable, or a UUID. */
  datatype Selector = Blank | Malformed | Chosen(org: Uuid)

  datatype Call =
    | Register(email: string, password: string, fullName: string)
    | Login(email: string, password: string, sel: Selector)
    | Refresh(secret: string)
    | Logout(secret: string)
    | ForgotPassword(email: string)
    | ResetPassword(token: string, password: string)
    | ChangePassword(userID: Option<Uuid>, current: string, next: string)   // None: unparsable

  /** A user row as a request read it, when the log had `readAt` entries. */
  datatype Snapshot = Snapshot(id: Uuid, user: User, readAt: nat)

  datatype Grant = NoTokens | Tokens(access: string, refresh: string, user: Uuid)

  /** A request, stopped just before the statement its phase names. */
  datatype Phase =
    | RegisterLookup(email: string, password: string, fullName: string)
    | RegisterInsert(email: string, password: string, fullName: string)
    | LoginLookup(email: string, password: string, sel: Selector)
    | LoginMembers(snap: Snapshot, sel: Selector)
    | IssueSign(snap: Snapshot, org: Uuid, role: string)
    | IssueStore(snap: Snapshot, org: Uuid, text: string)
    | RefreshRotate(secret: string)
    | RefreshSign(snap: Snapshot, org: Uuid, role: string, secret: string)
    | LogoutRevoke(secret: string)
    | ForgotLookup(email: string)
    | ForgotStore(user: Uuid, email: string)
    | ResetTake(token: string, password: string)
    | ResetCommit(key: CacheKey, user: Uuid, password: string)
    | ChangeLookup(user: Uuid, current: string, next: string)
    | ChangeCommit(user: Uuid, next: string)
    | Done(outcome: Result<Grant>)

  /** The world, every request's phase, and what each request was called with. */
  datatype State = State(w: World, reqs: map<nat, Phase>, calls: map<nat, Call>)

  const INIT := State(World(EMPTY, map[], 0, map[], [], map[], map[]), map[], map[])

  /** Everything a step cannot compute: failures, generated values, the order of a result set. */
  datatype Choice = Choice(
    faults: Faults, uid: Uuid, oid: Uuid, secret: string, text: string, hash: string, rows: seq<(Uuid, string)>)

  datatype Step =
    | Tick(delta: nat)
    | Join(user: Uuid, org: Uuid, role: string)
    | Start(id: nat, call: Call)
    | Next(id: nat, choice: Choice)
    | Crash(id: nat)

  /** What a call checks before its first statement. */
  ghost function Begin(cfg: Config, call: Call): Phase {
    match call
    case Register(email, password, fullName) =>
      (match NormalizeEmail(cfg.go, cfg.bareAddress, email)
       case Err(e) => Done(Err(e))
       case Ok(n) =>
         if !StrongPassword(cfg.go, password) then Done(Err(WeakPassword)) else RegisterLookup(n, password, fullName))
    case Login(email, password, sel) =>
      (match NormalizeEmail(cfg.go, cfg.bareAddress, email)
       case Err(_) => Done(Err(InvalidCredentials))
       case Ok(n) => LoginLookup(n, password, sel))
    case Refresh(secret) => RefreshRotate(secret)
    case Logout(secret) => LogoutRevoke(secret)
    case ForgotPassword(email) =>
      (match NormalizeEmail(cfg.go, cfg.bareAddress, email)
       case Err(_) => Done(Ok(NoTokens))
       case Ok(n) => ForgotLookup(n))
    case ResetPassword(token, password) =>
      if !StrongPassword(cfg.go, password) then Done(Err(WeakPassword)) else ResetTake(token, password)
    case ChangePassword(userID, current, next) =>
      if !StrongPassword(cfg.go, next) then Done(Err(WeakPassword))
      else if userID.None? then Done(Err(InvalidToken))
      else ChangeLookup(userID.value, current, next)
  }

  /** Which of a user's memberships a login is for. */
  function SelectMembership(rows: seq<(Uuid, string)>, sel: Selector): Result<(Uuid, string)> {
    if rows == [] then Err(InvalidCredentials)
    else match sel
      case Blank => if |rows| == 1 then Ok(rows[0]) else Err(OrgSelectionRequired)
      case Malformed => Err(InvalidOrgSelection)
      case Chosen(o) => FirstInOrg(rows, o)
  }

  function FirstInOrg(rows: seq<(Uuid, string)>, o: Uuid): Result<(Uuid, string)> {
    if rows == [] then Err(InvalidOrgSelection)
    else if rows[0].0 == o then Ok(rows[0])
    else FirstInOrg(rows[1..], o)
  }

  /** selectMembership: the early exits, then the first row of the requested org. */
  method ChooseMembership(rows: seq<(Uuid, string)>, sel: Selector) returns (r: Result<(Uuid, string)>)
    ensures r == SelectMembership(rows, sel)
    ensures sel.Chosen? && r.Ok? ==> r.value in rows && r.value.0 == sel.org
    ensures rows != [] && sel.Chosen? && r.Err? ==> forall i :: 0 <= i < |rows| ==> rows[i].0 != sel.org
  {
    if |rows| == 0 {
      return Err(InvalidCredentials);
    }
    if sel.Blank? {
      if |rows| == 1 {
        return Ok(rows[0]);
      }
      return Err(OrgSelectionRequired);
    }
    if sel.Malformed? {
      return Err(InvalidOrgSelection);
    }
    for i := 0 to |rows|
      invariant forall j :: 0 <= j < i ==> rows[j].0 != sel.org
      invariant FirstInOrg(rows[i..], sel.org) == FirstInOrg(rows, sel.org)
    {
      if rows[i].0 == sel.org {
        return Ok(rows[i]);
      }
      assert rows[i..][1..] == rows[i + 1..];
    }
    return Err(InvalidOrgSelection);
  }

  /** JWT dates have whole seconds. */
  function NumericDate(t: int): int {
    t - t % 1000
  }

  predicate CanSign(cfg: Config) {
    cfg.secret != "" && cfg.issuer != "" && cfg.audience != ""
  }

  function Claimed(cfg: Config, snap: Snapshot, org: Uuid, role: string, now: int): Claims {
    Claims(snap.id, org, role, snap.user.version, cfg.issuer, cfg.audience, NumericDate(now + cfg.jwtExpiry))
  }

  function Sign(cfg: Config, w: World, id: nat, snap: Snapshot, org: Uuid, role: string, text: string): World {
    w.(signed := w.signed[text := Signed(Claimed(cfg, snap, org, role, w.now), snap.readAt, id, w.now)])
  }

  /** The generated values a step may use: secrets and token texts never used before,
      a hash bcrypt accepts for the password, a listing of the user's memberships. */
  ghost predicate Allowed(cfg: Config, w: World, ph: Phase, ch: Choice) {
    match ph
    case RegisterInsert(_, password, _) => cfg.matches(ch.hash, password)
    case LoginMembers(snap, _) => Lists(w.db, snap.id, ch.rows)
    case IssueSign(_, _, _) => ch.text !in w.signed
    case RefreshSign(_, _, _, _) => ch.text !in w.signed
    case IssueStore(_, _, _) => HashOpaqueToken(ch.secret) !in w.db.tokens
    case RefreshRotate(_) => HashOpaqueToken(ch.secret) !in w.db.tokens
    case ForgotStore(_, _) => PasswordResetCacheKey(ch.secret) !in w.keys
    case ResetCommit(_, _, password) => cfg.matches(ch.hash, password)
    case ChangeCommit(_, next) => cfg.matches(ch.hash, next)
    case _ => true
  }

  // ---- The steps that write, one function each ----

  ghost function InsertAccount(cfg: Config, w: World, id: nat, email: string, fullName: string, ch: Choice): (World,
          Phase)
  {
    match WithTx(cfg.sql, w.db, RegisterBody(ch.uid, ch.oid, email, ch.hash, fullName), ch.faults)
    case (db, Err(e)) => (w.(db := db), Done(Err(e)))
    case (db, Ok(r)) =>
      var w' := Committed(w, db, id, SignedUp(ch.uid, ch.oid, email, ch.hash));
      (w', IssueSign(Snapshot(ch.uid, r.user, |w'.log|), ch.oid, "admin"))
  }

  function InsertRefreshToken(cfg: Config, w: World, id: nat, snap: Snapshot, org: Uuid, text: string,
          ch: Choice): (World, Phase)
  {
    var d := HashOpaqueToken(ch.secret);
    match Execute(cfg.sql, w.db, InsertToken(d, snap.id, org, w.now + cfg.refreshExpiry))
    case (db, Failure(_)) => (w.(db := db), Done(Err(Internal)))
    case (db, Rows(_)) => (AfterOpen(w, db, id, d, snap.id, org), Done(Ok(Tokens(text, ch.secret, snap.id))))
  }

  ghost function RotateRefreshToken(cfg: Config, w: World, id: nat, secret: string, ch: Choice): (World, Phase) {
    var spent, minted := HashOpaqueToken(secret), HashOpaqueToken(ch.secret);
    match WithTx(cfg.sql, w.db, RefreshBody(spent, minted, w.now, w.now + cfg.refreshExpiry), ch.faults)
    case (db, Err(e)) => (w.(db := db), Done(Err(e)))
    case (db, Ok(r)) =>
      var w' := AfterRotate(w, db, id, spent, minted, r.uid);
      (w', RefreshSign(Snapshot(r.uid, r.user, |w'.log|), r.org, r.role, ch.secret))
  }

  ghost function ConsumeAndRevoke(cfg: Config, w: World, id: nat, secret: string, ch: Choice): (World, Phase) {
    match WithTx(cfg.sql, w.db, LogoutBody(HashOpaqueToken(secret), w.now), ch.faults)
    case (db, Err(e)) => (w.(db := db), Done(Err(e)))
    case (db, Ok(user)) =>
      if user.None? then (w.(db := db), Done(Ok(NoTokens)))   // unknown, spent or expired: idempotent
      else (Committed(w, db, id, Revoked(user.value, ByLogout(HashOpaqueToken(secret)))), Done(Ok(NoTokens)))
  }

  ghost function SetPassword(cfg: Config, w: World, id: nat, u: Uuid, hash: string, cause: Cause, f: Faults): (World,
          Phase)
  {
    match WithTx(cfg.sql, w.db, PasswordBody(u, hash), f)
    case (db, Err(e)) => (w.(db := db), Done(Err(e)))
    case (db, Ok(_)) => (Committed(w, db, id, Revoked(u, cause)), Done(Ok(NoTokens)))
  }

  function StoreResetKey(w: World, id: nat, u: Uuid, email: string, key: CacheKey): World {
    w.(resets := w.resets[key := Entry(u, w.now + HOUR)], keys := w.keys[key := KeyHistory(u, email, id, w.now, None)])
  }

  /** GETDEL: the entry is handed out once, and only before it expires. */
  function TakeResetKey(w: World, id: nat, key: CacheKey): (World, Option<Uuid>) {
    if key !in w.resets || w.now >= w.resets[key].expires then (w, None)
    else
      var keys := if key in w.keys then w.keys[key := w.keys[key].(taken := Some(Taken(w.now, id)))] else w.keys;
      (w.(resets := w.resets - {key}, keys := keys), Some(w.resets[key].user))
  }

  /** One atomic step of a request. */
  ghost function Advance(cfg: Config, w: World, id: nat, ph: Phase, ch: Choice): (World, Phase)
    requires !ph.Done?
  {
    match ph
    case RegisterLookup(email, password, fullName) =>
      if UserByEmail(cfg.sql, w.db, email).Some? then (w, Done(Err(EmailExists)))
      else (w, RegisterInsert(email, password, fullName))
    case RegisterInsert(email, _, fullName) => InsertAccount(cfg, w, id, email, fullName, ch)
    case LoginLookup(email, password, sel) =>
      (match UserByEmail(cfg.sql, w.db, email)
       case None => (w, Done(Err(InvalidCredentials)))
       case Some(u) =>
         if !cfg.matches(w.db.users[u].hash, password) then (w, Done(Err(InvalidCredentials)))
         else (w, LoginMembers(Snapshot(u, w.db.users[u], |w.log|), sel)))
    case LoginMembers(snap, sel) =>
      (match SelectMembership(ch.rows, sel)
       case Err(e) => (w, Done(Err(e)))
       case Ok(m) => (w, IssueSign(snap, m.0, m.1)))
    case IssueSign(snap, org, role) =>
      if !CanSign(cfg) then (w, Done(Err(Internal)))
      else (Sign(cfg, w, id, snap, org, role, ch.text), IssueStore(snap, org, ch.text))
    case IssueStore(snap, org, text) => InsertRefreshToken(cfg, w, id, snap, org, text, ch)
    case RefreshRotate(secret) => RotateRefreshToken(cfg, w, id, secret, ch)
    case RefreshSign(snap, org, role, secret) =>
      if !CanSign(cfg) then (w, Done(Err(Internal)))
      else (Sign(cfg, w, id, snap, org, role, ch.text), Done(Ok(Tokens(ch.text, secret, snap.id))))
    case LogoutRevoke(secret) => ConsumeAndRevoke(cfg, w, id, secret, ch)
    case ForgotLookup(email) =>
      (match UserByEmail(cfg.sql, w.db, email)
       case None => (w, Done(Ok(NoTokens)))
       case Some(u) => (w, ForgotStore(u, email)))
    case ForgotStore(u, email) => (StoreResetKey(w, id, u, email, PasswordResetCacheKey(ch.secret)), Done(Ok(NoTokens)))
    case ResetTake(token, password) =>
      (match TakeResetKey(w, id, PasswordResetCacheKey(token))
       case (w', None) => (w', Done(Err(InvalidToken)))
       case (w', Some(u)) => (w', ResetCommit(PasswordResetCacheKey(token), u, password)))
    case ResetCommit(key, u, _) => SetPassword(cfg, w, id, u, ch.hash, ByReset(key, ch.hash), ch.faults)
    case ChangeLookup(u, current, next) =>
      if u !in w.db.users then (w, Done(Err(NoRows)))
      else if !cfg.matches(w.db.users[u].hash, current) then (w, Done(Err(WrongPassword)))
      else (w, ChangeCommit(u, next))
    case ChangeCommit(u, _) => SetPassword(cfg, w, id, u, ch.hash, ByChange(ch.hash), ch.faults)
  }

  /** The error a request reports when the infrastructure fails it before a statement takes effect. */
  function CrashError(ph: Phase): Error {
    if ph.ResetTake? then InvalidToken else Internal
  }

  ghost function Apply(cfg: Config, s: State, step: Step): Option<State> {
    match step
    case Tick(delta) => Some(s.(w := s.w.(now := s.w.now + delta)))
    case Join(u, o, role) => Some(s.(w := s.w.(db := Execute(cfg.sql, s.w.db, InsertMember(u, o, role)).0)))
    case Start(id, call) =>
      if id in s.reqs then None else Some(s.(reqs := s.reqs[id := Begin(cfg, call)], calls := s.calls[id := call]))
    case Next(id, ch) =>
      if id !in s.reqs || s.reqs[id].Done? || !Allowed(cfg, s.w, s.reqs[id], ch) then None
      else
        var (w', ph') := Advance(cfg, s.w, id, s.reqs[id], ch);
        Some(s.(w := w', reqs := s.reqs[id := ph']))
    case Crash(id) =>
      if id !in s.reqs || s.reqs[id].Done? then None
      else Some(s.(reqs := s.reqs[id := Done(Err(CrashError(s.reqs[id])))]))
  }

  /** A run: steps one after the other, any request's next; None when a step is not possible. */
  ghost function Exec(cfg: Config, s: State, steps: seq<Step>): Option<State>
    decreases |steps|
  {
    if steps == [] then Some(s)
    else match Apply(cfg, s, steps[0])
      case None => None
      case Some(s') => Exec(cfg, s', steps[1..])
  }

  ghost predicate Reachable(cfg: Config, s: State) {
    exists steps :: Exec(cfg, INIT, steps) == Some(s)
  }

  lemma {:induction false} ExecConcat(cfg: Config, s: State, a: seq<Step>, b: seq<Step>)
    ensures Exec(cfg, s, a + b) == (match Exec(cfg, s, a) case None => None case Some(m) => Exec(cfg, m, b))
    decreases |a|
  {
    if a == [] {
      assert a + b == b;
    } else {
      assert (a + b)[0] == a[0] && (a + b)[1..] == a[1..] + b;
      match Apply(cfg, s, a[0])
      case None =>
      case Some(m) => ExecConcat(cfg, m, a[1..], b);
    }
  }

  lemma ExecCons(cfg: Config, s: State, step: Step, rest: seq<Step>)
    requires Apply(cfg, s, step).Some?
    ensures Exec(cfg, s, [step] + rest) == Exec(cfg, Apply(cfg, s, step).value, rest)
  {
    assert ([step] + rest)[1..] == rest;
  }
}
