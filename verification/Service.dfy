/** The auth service as an object over the pool, the reset cache and the clock.  Each operation is
    the source's sequence of statements, with room for any other request between two of them; a
    ghost run records what happened, and every operation keeps it a run of the protocol. */
module Service {
  import opened Text
  import opened Security
  import opened Schema
  import opened Transactions
  import opened Bodies
  import opened Protocol
  import opened Store

  /** What the environment decides for one call: which of its statements is lost, how its transaction
      fails, how long it waits between statements, and the values generated for it. */
  datatype Luck = Luck(
    failAt: Option<nat>, faults: Faults, wait: nat, uid: Uuid, oid: Uuid, secret: string, text: string)

  function Pick(luck: Luck, hash: string, rows: seq<(Uuid, string)>): Choice {
    Choice(luck.faults, luck.uid, luck.oid, luck.secret, luck.text, hash, rows)
  }

  /** A call on record: what was called, under which luck, and the run before it. */
  datatype Ticket = Ticket(call: Call, luck: Luck, before: seq<Step>)

  /** The password a call wants hashed. */
  function NewPassword(call: Call): Option<string> {
    match call
    case Register(_, password, _) => Some(password)
    case ResetPassword(_, password) => Some(password)
    case ChangePassword(_, _, next) => Some(next)
    case _ => None
  }

  /** bcrypt refuses the password the call wants hashed. */
  predicate Refused(hashOf: string -> Option<string>, call: Call) {
    NewPassword(call).Some? && hashOf(NewPassword(call).value).None?
  }

  /** A recorded call takes its steps with its own luck, and dies only if a statement of it is lost or its
      password refused. */
  predicate Honest(step: Step, at: nat, tickets: map<nat, Ticket>, hashOf: string -> Option<string>) {
    (step.Next? || step.Crash?) && step.id in tickets && |tickets[step.id].before| <= at ==>
      var luck := tickets[step.id].luck;
      if step.Next? then step.choice == Pick(luck, step.choice.hash, step.choice.rows)
      else luck.failAt.Some? || Refused(hashOf, tickets[step.id].call)
  }

  ghost predicate HonestRun(trace: seq<Step>, tickets: map<nat, Ticket>, hashOf: string -> Option<string>) {
    forall i :: 0 <= i < |trace| ==> Honest(trace[i], i, tickets, hashOf)
  }

  /** The call came right after the run its ticket names. */
  predicate EnteredBy(trace: seq<Step>, id: nat, t: Ticket) {
    |t.before| < |trace| && t.before <= trace && trace[|t.before|] == Start(id, t.call)
  }

  ghost predicate IsInit(s: State) {
    s == INIT
  }

  /** The steps are a run ending in s.  Quantified so that runs unfold only where their start is named. */
  ghost predicate RunsTo(cfg: Config, trace: seq<Step>, s: State) {
    forall init :: IsInit(init) ==> Exec(cfg, init, trace) == Some(s)
  }

  lemma RunsOn(cfg: Config, trace: seq<Step>, s: State, step: Step)
    requires RunsTo(cfg, trace, s) && Apply(cfg, s, step).Some?
    ensures RunsTo(cfg, trace + [step], Apply(cfg, s, step).value)
  {
    assert IsInit(INIT);
    ExecConcat(cfg, INIT, trace, [step]);
    ExecCons(cfg, s, step, []);
  }

  lemma RunsToReachable(cfg: Config, trace: seq<Step>, s: State)
    ensures RunsTo(cfg, trace, s) <==> Exec(cfg, INIT, trace) == Some(s)
    ensures RunsTo(cfg, trace, s) ==> Reachable(cfg, s)
  {
    assert IsInit(INIT);
  }

  ghost predicate NewToken(w: World, secret: string) {
    HashOpaqueToken(secret) !in w.db.tokens
  }

  ghost predicate NewKey(w: World, secret: string) {
    PasswordResetCacheKey(secret) !in w.keys
  }

  ghost predicate NewText(w: World, text: string) {
    text !in w.signed
  }

  /** What hashing yields, comparing accepts. */
  ghost predicate Hashes(cfg: Config, hashOf: string -> Option<string>) {
    forall p: string :: hashOf(p).Some? ==> cfg.matches(hashOf(p).value, p)
  }

  class Service {
    const cfg: Config
    const hashOf: string -> Option<string>      // bcrypt.GenerateFromPassword, which refuses long passwords
    const pool: Pool
    var cache: map<CacheKey, Entry>
    var now: int
    ghost var st: State
    ghost var trace: seq<Step>
    ghost var tickets: map<nat, Ticket>

    /** What main wires in fits together. */
    ghost predicate Wired()
      reads this
    {
      && pool.sql == cfg.sql
      && ClassesDisjoint(cfg.go)
      && Hashes(cfg, hashOf)
    }

    /** The recorded steps are a run of the protocol, honest to every call made here. */
    ghost predicate Recorded()
      reads this
    {
      RunsTo(cfg, trace, st) && HonestRun(trace, tickets, hashOf)
    }

    /** The run ends in the state the real fields are in. */
    ghost predicate Tied()
      reads this, pool
    {
      pool.Valid() && st.w.db == pool.Contents() && st.w.resets == cache && st.w.now == now
    }

    ghost predicate Valid()
      reads this, pool
    {
      Wired() && Recorded() && Tied()
    }

    /** A call stands just before this phase. */
    ghost predicate At(id: nat, t: Ticket, luck: Luck, ph: Phase)
      reads this
    {
      && id in st.reqs && st.reqs[id] == ph
      && id in st.calls && st.calls[id] == t.call
      && id in tickets && tickets[id] == t && t.luck == luck && EnteredBy(trace, id, t)
    }

    constructor (cfg: Config, hashOf: string -> Option<string>)
      requires ClassesDisjoint(cfg.go) && Hashes(cfg, hashOf)
      ensures Valid() && fresh(pool) && this.cfg == cfg && st == INIT
    {
      this.cfg, this.hashOf := cfg, hashOf;
      pool := new Pool(cfg.sql);
      cache, now := map[], 0;
      st, trace, tickets := INIT, [], map[];
    }

    // ---- Recording ----

    ghost method Take(step: Step)
      requires Recorded() && Apply(cfg, st, step).Some? && Honest(step, |trace|, tickets, hashOf)
      modifies this`st, this`trace
      ensures st == Apply(cfg, old(st), step).value && trace == old(trace) + [step] && Recorded()
    {
      RunsOn(cfg, trace, st, step);
      st, trace := Apply(cfg, st, step).value, trace + [step];
    }

    ghost method Enter(id: nat, t: Ticket)
      requires Valid() && id !in st.reqs && t.before == trace
      modifies this`st, this`trace, this`tickets
      ensures Valid() && At(id, t, t.luck, Begin(cfg, t.call)) && st.w == old(st.w)
    {
      tickets := tickets[id := t];
      Take(Start(id, t.call));
    }

    /** A statement is lost or the password refused: the request gives up where it stands. */
    ghost method Lose(id: nat, t: Ticket, luck: Luck, ph: Phase)
      requires Valid() && At(id, t, luck, ph) && !ph.Done?
      requires luck.failAt.Some? || Refused(hashOf, t.call)
      modifies this`st, this`trace
      ensures Valid() && At(id, t, luck, Done(Err(CrashError(ph))))
    {
      Take(Crash(id));
    }

    ghost method Proceed(id: nat, t: Ticket, luck: Luck, ph: Phase, hash: string, rows: seq<(Uuid, string)>)
      requires Recorded() && At(id, t, luck, ph) && !ph.Done? && Allowed(cfg, st.w, ph, Pick(luck, hash, rows))
      modifies this`st, this`trace
      ensures Recorded()
      ensures var (w', ph') := Advance(cfg, old(st.w), id, ph, Pick(luck, hash, rows));
        st.w == w' && At(id, t, luck, ph')
    {
      Take(Next(id, Pick(luck, hash, rows)));
    }

    /** The point between two statements, where any other requests may take any steps.  Operations
        rely on this contract alone; this body has nobody else about and lets time pass. */
    method Yield(id: nat, ghost t: Ticket, luck: Luck, ghost ph: Phase)
      requires Valid() && At(id, t, luck, ph)
      modifies this, pool
      ensures Valid() && At(id, t, luck, ph)
      ensures old(NewToken(st.w, luck.secret)) ==> NewToken(st.w, luck.secret)
      ensures old(NewKey(st.w, luck.secret)) ==> NewKey(st.w, luck.secret)
      ensures old(NewText(st.w, luck.text)) ==> NewText(st.w, luck.text)
    {
      now := now + luck.wait;
      Take(Tick(luck.wait));
    }

    // ---- One method per statement ----

    method LookUpRegister(id: nat, ghost t: Ticket, luck: Luck, email: string, ghost password: string,
            ghost fullName: string)
      returns (taken: bool)
      requires Valid() && At(id, t, luck, RegisterLookup(email, password, fullName))
      modifies this
      ensures Valid() && st.w == old(st.w)
      ensures taken ==> At(id, t, luck, Done(Err(EmailExists)))
      ensures !taken ==> At(id, t, luck, RegisterInsert(email, password, fullName))
    {
      var user := pool.GetUserByEmail(email);
      Proceed(id, t, luck, RegisterLookup(email, password, fullName), "", []);
      return user.Some?;
    }

    /** CreateUser, CreateOrg and CreateOrgMembership in one transaction. */
    method InsertAccount(id: nat, ghost t: Ticket, luck: Luck, email: string, ghost password: string, hash: string,
            fullName: string)
      returns (r: Result<Registered>)
      requires Valid() && At(id, t, luck, RegisterInsert(email, password, fullName)) && cfg.matches(hash, password)
      modifies this, pool
      ensures Valid()
      ensures r.Err? ==> At(id, t, luck, Done(Err(r.error)))
      ensures r.Ok? ==> At(id, t, luck, IssueSign(Snapshot(luck.uid, r.value.user, |st.w.log|), luck.oid, "admin"))
      ensures r.Ok? ==> st.w.db.tokens == old(st.w).db.tokens && st.w.signed == old(st.w).signed
    {
      RegisterTx(cfg.sql, st.w.db, luck.uid, luck.oid, email, hash, fullName, luck.faults);
      r := pool.WithTx(RegisterBody(luck.uid, luck.oid, email, hash, fullName), 3, luck.faults);
      Proceed(id, t, luck, RegisterInsert(email, password, fullName), hash, []);
    }

    /** GetUserByEmail, then the bcrypt comparison. */
    method LookUpLogin(id: nat, ghost t: Ticket, luck: Luck, email: string, password: string, ghost sel: Selector)
      returns (found: Option<(Uuid, User)>)
      requires Valid() && At(id, t, luck, LoginLookup(email, password, sel))
      modifies this
      ensures Valid() && st.w == old(st.w)
      ensures found.None? ==> At(id, t, luck, Done(Err(InvalidCredentials)))
      ensures found.Some? ==> At(id, t, luck, LoginMembers(Snapshot(found.value.0, found.value.1, |st.w.log|), sel))
    {
      var u := pool.GetUserByEmail(email);
      Proceed(id, t, luck, LoginLookup(email, password, sel), "", []);
      if u.None? {
        return None;
      }
      var user := pool.users[u.value];
      if !cfg.matches(user.hash, password) {
        return None;
      }
      return Some((u.value, user));
    }

    method ListAndSelect(id: nat, ghost t: Ticket, luck: Luck, ghost snap: Snapshot, u: Uuid, sel: Selector)
      returns (r: Result<(Uuid, string)>)
      requires Valid() && At(id, t, luck, LoginMembers(snap, sel)) && snap.id == u
      modifies this
      ensures Valid() && st.w == old(st.w)
      ensures r.Err? ==> At(id, t, luck, Done(Err(r.error)))
      ensures r.Ok? ==> At(id, t, luck, IssueSign(snap, r.value.0, r.value.1))
    {
      var rows := pool.ListOrgMembershipsByUser(u);
      r := ChooseMembership(rows, sel);
      Proceed(id, t, luck, LoginMembers(snap, sel), "", rows);
    }

    /** The claims a token is signed over; nothing is signed without a secret, an issuer and an audience. */
    method GenerateAccessToken(u: Uuid, org: Uuid, role: string, version: int) returns (r: Result<Claims>)
      ensures r.Ok? <==> CanSign(cfg)
      ensures r.Err? ==> r.error == Internal
      ensures r.Ok? ==>
        r.value == Claims(u, org, role, version, cfg.issuer, cfg.audience, NumericDate(now + cfg.jwtExpiry))
    {
      if cfg.secret == "" || cfg.issuer == "" || cfg.audience == "" {
        return Err(Internal);
      }
      var expires := now + cfg.jwtExpiry;
      return Ok(Claims(u, org, role, version, cfg.issuer, cfg.audience, expires - expires % 1000));
    }

    /** The text on record as signed says who, where, as what, at which version and until when. */
    ghost predicate SignedFor(text: string, u: Uuid, user: User, org: Uuid, role: string)
      reads this
    {
      && text in st.w.signed
      && st.w.signed[text].claims
         == Claims(u, org, role, user.version, cfg.issuer, cfg.audience, NumericDate(now + cfg.jwtExpiry))
    }

    method MintForIssue(id: nat, ghost t: Ticket, luck: Luck, ghost snap: Snapshot, u: Uuid, user: User, org: Uuid,
            role: string)
      returns (r: Result<string>)
      requires Valid() && At(id, t, luck, IssueSign(snap, org, role)) && NewText(st.w, luck.text)
      requires snap.id == u && snap.user == user
      modifies this
      ensures Valid() && st.w.db == old(st.w).db
      ensures r.Err? ==> At(id, t, luck, Done(Err(r.error)))
      ensures r.Ok? ==> At(id, t, luck, IssueStore(snap, org, luck.text)) && r.value == luck.text
      ensures r.Ok? ==> SignedFor(r.value, u, user, org, role)
    {
      var claims := GenerateAccessToken(u, org, role, user.version);
      Proceed(id, t, luck, IssueSign(snap, org, role), "", []);
      if claims.Err? {
        return Err(claims.error);
      }
      return Ok(luck.text);
    }

    ghost method RecordStored(id: nat, t: Ticket, luck: Luck, snap: Snapshot, org: Uuid, text: string, after: Db,
            a: Answer)
      requires Recorded() && At(id, t, luck, IssueStore(snap, org, text)) && NewToken(st.w, luck.secret)
      requires var d, expires := HashOpaqueToken(luck.secret), st.w.now + cfg.refreshExpiry;
        Execute(cfg.sql, st.w.db, InsertToken(d, snap.id, org, expires)) == (after, a)
      modifies this`st, this`trace
      ensures Recorded() && st.w.db == after && st.w.resets == old(st).w.resets && st.w.now == old(st).w.now
      ensures At(id, t, luck, Done(if a.Failure? then Err(Internal) else Ok(Tokens(text, luck.secret, snap.id))))
    {
      Proceed(id, t, luck, IssueStore(snap, org, text), "", []);
    }

    method StoreRefreshToken(id: nat, ghost t: Ticket, luck: Luck, ghost snap: Snapshot, u: Uuid, org: Uuid,
            text: string)
      returns (r: Result<Grant>)
      requires Valid() && At(id, t, luck, IssueStore(snap, org, text)) && NewToken(st.w, luck.secret) && snap.id == u
      modifies this, pool
      ensures Valid() && At(id, t, luck, Done(r))
    {
      var a := pool.CreateRefreshToken(HashOpaqueToken(luck.secret), u, org, now + cfg.refreshExpiry);
      RecordStored(id, t, luck, snap, org, text, pool.Contents(), a);
      return if a.Failure? then Err(Internal) else Ok(Tokens(text, luck.secret, u));
    }

    /** The rotation's outcome, part by part. */
    lemma RotatedIs(w: World, id: nat, secret: string, ch: Choice, after: Db, r: Result<Refreshed>)
      requires var spent, minted := HashOpaqueToken(secret), HashOpaqueToken(ch.secret);
        var body := RefreshBody(spent, minted, w.now, w.now + cfg.refreshExpiry);
        Transactions.WithTx(cfg.sql, w.db, body, ch.faults) == (after, r)
      ensures var (w', ph') := RotateRefreshToken(cfg, w, id, secret, ch);
        && w'.db == after && w'.resets == w.resets && w'.now == w.now && w'.signed == w.signed
        && ph' == (if r.Err? then Done(Err(r.error))
                   else var v := r.value;
                     RefreshSign(Snapshot(v.uid, v.user, |w'.log|), v.org, v.role, ch.secret))
    {
    }

    ghost method RecordRotated(id: nat, t: Ticket, luck: Luck, secret: string, after: Db, r: Result<Refreshed>)
      requires Recorded() && At(id, t, luck, RefreshRotate(secret)) && NewToken(st.w, luck.secret)
      requires var spent, minted := HashOpaqueToken(secret), HashOpaqueToken(luck.secret);
        var body := RefreshBody(spent, minted, st.w.now, st.w.now + cfg.refreshExpiry);
        Transactions.WithTx(cfg.sql, st.w.db, body, luck.faults) == (after, r)
      modifies this`st, this`trace
      ensures Recorded() && st.w.signed == old(st.w).signed
      ensures st.w.db == after && st.w.resets == old(st).w.resets && st.w.now == old(st).w.now
      ensures At(id, t, luck,
        if r.Err? then Done(Err(r.error))
        else RefreshSign(Snapshot(r.value.uid, r.value.user, |st.w.log|), r.value.org, r.value.role, luck.secret))
    {
      RotatedIs(st.w, id, secret, Pick(luck, "", []), after, r);
      Proceed(id, t, luck, RefreshRotate(secret), "", []);
    }

    method Rotate(id: nat, ghost t: Ticket, luck: Luck, secret: string) returns (r: Result<Refreshed>)
      requires Valid() && At(id, t, luck, RefreshRotate(secret)) && NewToken(st.w, luck.secret)
      modifies this, pool
      ensures Valid() && st.w.signed == old(st.w).signed
      ensures r.Err? ==> At(id, t, luck, Done(Err(r.error)))
      ensures r.Ok? ==> At(id, t, luck,
        RefreshSign(Snapshot(r.value.uid, r.value.user, |st.w.log|), r.value.org, r.value.role, luck.secret))
    {
      var spent, minted := HashOpaqueToken(secret), HashOpaqueToken(luck.secret);
      r := pool.WithTx(RefreshBody(spent, minted, now, now + cfg.refreshExpiry), 4, luck.faults);
      RecordRotated(id, t, luck, secret, pool.Contents(), r);
    }

    method MintForRefresh(id: nat, ghost t: Ticket, luck: Luck, ghost snap: Snapshot, u: Uuid, user: User, org: Uuid,
            role: string)
      returns (r: Result<Grant>)
      requires Valid() && At(id, t, luck, RefreshSign(snap, org, role, luck.secret)) && NewText(st.w, luck.text)
      requires snap.id == u && snap.user == user
      modifies this
      ensures Valid() && At(id, t, luck, Done(r))
      ensures r.Ok? ==> SignedFor(luck.text, u, user, org, role)
    {
      var claims := GenerateAccessToken(u, org, role, user.version);
      Proceed(id, t, luck, RefreshSign(snap, org, role, luck.secret), "", []);
      if claims.Err? {
        return Err(claims.error);
      }
      return Ok(Tokens(luck.text, luck.secret, u));
    }

    ghost method RecordLogout(id: nat, t: Ticket, luck: Luck, secret: string, after: Db, r: Result<Option<Uuid>>)
      requires Recorded() && At(id, t, luck, LogoutRevoke(secret))
      requires var body := LogoutBody(HashOpaqueToken(secret), st.w.now);
        Transactions.WithTx(cfg.sql, st.w.db, body, luck.faults) == (after, r)
      modifies this`st, this`trace
      ensures Recorded()
      ensures st.w.db == after && st.w.resets == old(st).w.resets && st.w.now == old(st).w.now
      ensures At(id, t, luck, Done(if r.Err? then Err(r.error) else Ok(NoTokens)))
    {
      Proceed(id, t, luck, LogoutRevoke(secret), "", []);
    }

    /** ConsumeRefreshToken, IncrementUserTokenVersion and RevokeAllUserRefreshTokens in one transaction. */
    method RunLogout(id: nat, ghost t: Ticket, luck: Luck, secret: string) returns (r: Result<Grant>)
      requires Valid() && At(id, t, luck, LogoutRevoke(secret))
      modifies this, pool
      ensures Valid() && At(id, t, luck, Done(r))
    {
      var tx := pool.WithTx(LogoutBody(HashOpaqueToken(secret), now), 3, luck.faults);
      RecordLogout(id, t, luck, secret, pool.Contents(), tx);
      return if tx.Err? then Err(tx.error) else Ok(NoTokens);
    }

    method LookUpForgot(id: nat, ghost t: Ticket, luck: Luck, email: string) returns (u: Option<Uuid>)
      requires Valid() && At(id, t, luck, ForgotLookup(email))
      modifies this
      ensures Valid() && st.w == old(st.w)
      ensures u.None? ==> At(id, t, luck, Done(Ok(NoTokens)))
      ensures u.Some? ==> At(id, t, luck, ForgotStore(u.value, email))
    {
      u := pool.GetUserByEmail(email);
      Proceed(id, t, luck, ForgotLookup(email), "", []);
    }

    ghost method RecordReset(id: nat, t: Ticket, luck: Luck, u: Uuid, email: string)
      requires Recorded() && At(id, t, luck, ForgotStore(u, email)) && NewKey(st.w, luck.secret)
      modifies this`st, this`trace
      ensures Recorded()
      ensures st.w.db == old(st).w.db && st.w.now == old(st).w.now
      ensures st.w.resets == old(st).w.resets[PasswordResetCacheKey(luck.secret) := Entry(u, st.w.now + HOUR)]
      ensures At(id, t, luck, Done(Ok(NoTokens)))
    {
      Proceed(id, t, luck, ForgotStore(u, email), "", []);
    }

    /** SET with a one-hour expiry. */
    method StoreReset(id: nat, ghost t: Ticket, luck: Luck, u: Uuid, ghost email: string)
      requires Valid() && At(id, t, luck, ForgotStore(u, email)) && NewKey(st.w, luck.secret)
      modifies this
      ensures Valid() && At(id, t, luck, Done(Ok(NoTokens)))
    {
      cache := cache[PasswordResetCacheKey(luck.secret) := Entry(u, now + HOUR)];
      RecordReset(id, t, luck, u, email);
    }

    /** GETDEL. */
    method TakeReset(id: nat, ghost t: Ticket, luck: Luck, token: string, ghost password: string)
      returns (u: Option<Uuid>)
      requires Valid() && At(id, t, luck, ResetTake(token, password))
      modifies this
      ensures Valid()
      ensures u.None? ==> At(id, t, luck, Done(Err(InvalidToken)))
      ensures u.Some? ==> At(id, t, luck, ResetCommit(PasswordResetCacheKey(token), u.value, password))
    {
      var key := PasswordResetCacheKey(token);
      Proceed(id, t, luck, ResetTake(token, password), "", []);
      if key !in cache || cache[key].expires <= now {
        return None;
      }
      u := Some(cache[key].user);
      cache := cache - {key};
    }

    /** UpdateUserPassword, IncrementUserTokenVersion and RevokeAllUserRefreshTokens in one transaction. */
    method CommitReset(id: nat, ghost t: Ticket, luck: Luck, ghost key: CacheKey, u: Uuid, ghost password: string,
            hash: string)
      returns (r: Result<Grant>)
      requires Valid() && At(id, t, luck, ResetCommit(key, u, password)) && cfg.matches(hash, password)
      modifies this, pool
      ensures Valid() && At(id, t, luck, Done(r))
    {
      var tx := pool.WithTx(PasswordBody(u, hash), 3, luck.faults);
      Proceed(id, t, luck, ResetCommit(key, u, password), hash, []);
      return if tx.Err? then Err(tx.error) else Ok(NoTokens);
    }

    ghost method RecordCompared(id: nat, t: Ticket, luck: Luck, u: Uuid, current: string, next: string)
      requires Recorded() && At(id, t, luck, ChangeLookup(u, current, next))
      modifies this`st, this`trace
      ensures Recorded() && st.w == old(st.w)
      ensures At(id, t, luck,
        if u !in st.w.db.users then Done(Err(NoRows))
        else if !cfg.matches(st.w.db.users[u].hash, current) then Done(Err(WrongPassword))
        else ChangeCommit(u, next))
    {
      Proceed(id, t, luck, ChangeLookup(u, current, next), "", []);
    }

    /** GetUserByID, then the bcrypt comparison. */
    method LookUpChange(id: nat, ghost t: Ticket, luck: Luck, u: Uuid, current: string, ghost next: string)
      returns (r: Result<()>)
      requires Valid() && At(id, t, luck, ChangeLookup(u, current, next))
      modifies this
      ensures Valid()
      ensures r.Err? ==> At(id, t, luck, Done(Err(r.error)))
      ensures r.Ok? ==> At(id, t, luck, ChangeCommit(u, next))
    {
      var a := pool.GetUserByID(u);
      RecordCompared(id, t, luck, u, current, next);
      if a.Failure? {
        return Err(NoRows);
      }
      return if cfg.matches(a.reply.user.hash, current) then Ok(()) else Err(WrongPassword);
    }

    method CommitChange(id: nat, ghost t: Ticket, luck: Luck, u: Uuid, ghost next: string, hash: string)
      returns (r: Result<Grant>)
      requires Valid() && At(id, t, luck, ChangeCommit(u, next)) && cfg.matches(hash, next)
      modifies this, pool
      ensures Valid() && At(id, t, luck, Done(r))
    {
      var tx := pool.WithTx(PasswordBody(u, hash), 3, luck.faults);
      Proceed(id, t, luck, ChangeCommit(u, next), hash, []);
      return if tx.Err? then Err(tx.error) else Ok(NoTokens);
    }

    // ---- The operations ----

    method IssueTokens(id: nat, ghost t: Ticket, luck: Luck, ghost snap: Snapshot, u: Uuid, user: User, org: Uuid,
            role: string)
      returns (r: Result<Grant>)
      requires Valid() && At(id, t, luck, IssueSign(snap, org, role)) && snap.id == u && snap.user == user
      requires NewToken(st.w, luck.secret) && NewText(st.w, luck.text)
      modifies this, pool
      ensures Valid() && At(id, t, luck, Done(r))
    {
      var access := MintForIssue(id, t, luck, snap, u, user, org, role);
      if access.Err? {
        return Err(access.error);
      }
      Yield(id, t, luck, IssueStore(snap, org, luck.text));
      if luck.failAt == Some(3) {
        Lose(id, t, luck, IssueStore(snap, org, luck.text));
        return Err(Internal);
      }
      r := StoreRefreshToken(id, t, luck, snap, u, org, access.value);
    }

    method FinishRegister(id: nat, ghost t: Ticket, luck: Luck, email: string, password: string, fullName: string)
      returns (r: Result<Grant>)
      requires Valid() && At(id, t, luck, RegisterInsert(email, password, fullName))
      requires NewPassword(t.call) == Some(password)
      requires NewToken(st.w, luck.secret) && NewText(st.w, luck.text)
      modifies this, pool
      ensures Valid() && At(id, t, luck, Done(r)) && (hashOf(password).None? ==> r == Err(Internal))
    {
      Yield(id, t, luck, RegisterInsert(email, password, fullName));
      var hash := hashOf(password);
      if luck.failAt == Some(1) || hash.None? {
        Lose(id, t, luck, RegisterInsert(email, password, fullName));
        return Err(Internal);
      }
      var account := InsertAccount(id, t, luck, email, password, hash.value, fullName);
      if account.Err? {
        return Err(account.error);
      }
      ghost var snap := Snapshot(luck.uid, account.value.user, |st.w.log|);
      Yield(id, t, luck, IssueSign(snap, luck.oid, "admin"));
      r := IssueTokens(id, t, luck, snap, luck.uid, account.value.user, luck.oid, "admin");
    }

    method Register(id: nat, email: string, password: string, fullName: string, luck: Luck) returns (r: Result<Grant>)
      requires Valid() && id !in st.reqs && NewToken(st.w, luck.secret) && NewText(st.w, luck.text)
      modifies this, pool
      ensures Valid() && At(id, Ticket(Call.Register(email, password, fullName), luck, old(trace)), luck, Done(r))
      ensures hashOf(password).None? ==> r.Err?
    {
      ghost var t := Ticket(Call.Register(email, password, fullName), luck, trace);
      Enter(id, t);
      var normalized := NormalizeEmail(cfg.go, cfg.bareAddress, email);
      if normalized.Err? {
        return Err(normalized.error);
      }
      var n := normalized.value;
      var strong := ValidatePassword(cfg.go, password);
      if strong.Err? {
        return Err(strong.error);
      }
      Yield(id, t, luck, RegisterLookup(n, password, fullName));
      if luck.failAt == Some(0) {
        Lose(id, t, luck, RegisterLookup(n, password, fullName));
        return Err(Internal);
      }
      var taken := LookUpRegister(id, t, luck, n, password, fullName);
      if taken {
        return Err(EmailExists);
      }
      r := FinishRegister(id, t, luck, n, password, fullName);
    }

    method FinishLogin(id: nat, ghost t: Ticket, luck: Luck, ghost snap: Snapshot, u: Uuid, user: User, sel: Selector)
      returns (r: Result<Grant>)
      requires Valid() && At(id, t, luck, LoginMembers(snap, sel)) && snap.id == u && snap.user == user
      requires NewToken(st.w, luck.secret) && NewText(st.w, luck.text)
      modifies this, pool
      ensures Valid() && At(id, t, luck, Done(r))
    {
      Yield(id, t, luck, LoginMembers(snap, sel));
      if luck.failAt == Some(1) {
        Lose(id, t, luck, LoginMembers(snap, sel));
        return Err(Internal);
      }
      var m := ListAndSelect(id, t, luck, snap, u, sel);
      if m.Err? {
        return Err(m.error);
      }
      Yield(id, t, luck, IssueSign(snap, m.value.0, m.value.1));
      r := IssueTokens(id, t, luck, snap, u, user, m.value.0, m.value.1);
    }

    method Login(id: nat, email: string, password: string, sel: Selector, luck: Luck) returns (r: Result<Grant>)
      requires Valid() && id !in st.reqs && NewToken(st.w, luck.secret) && NewText(st.w, luck.text)
      modifies this, pool
      ensures Valid() && At(id, Ticket(Call.Login(email, password, sel), luck, old(trace)), luck, Done(r))
    {
      ghost var t := Ticket(Call.Login(email, password, sel), luck, trace);
      Enter(id, t);
      var normalized := NormalizeEmail(cfg.go, cfg.bareAddress, email);
      if normalized.Err? {
        return Err(InvalidCredentials);
      }
      Yield(id, t, luck, LoginLookup(normalized.value, password, sel));
      if luck.failAt == Some(0) {
        Lose(id, t, luck, LoginLookup(normalized.value, password, sel));
        return Err(Internal);
      }
      var found := LookUpLogin(id, t, luck, normalized.value, password, sel);
      if found.None? {
        return Err(InvalidCredentials);
      }
      var (u, user) := found.value;
      r := FinishLogin(id, t, luck, Snapshot(u, user, |st.w.log|), u, user, sel);
    }

    method Refresh(id: nat, secret: string, luck: Luck) returns (r: Result<Grant>)
      requires Valid() && id !in st.reqs && NewToken(st.w, luck.secret) && NewText(st.w, luck.text)
      modifies this, pool
      ensures Valid() && At(id, Ticket(Call.Refresh(secret), luck, old(trace)), luck, Done(r))
    {
      ghost var t := Ticket(Call.Refresh(secret), luck, trace);
      Enter(id, t);
      Yield(id, t, luck, RefreshRotate(secret));
      if luck.failAt == Some(0) {
        Lose(id, t, luck, RefreshRotate(secret));
        return Err(Internal);
      }
      var tx := Rotate(id, t, luck, secret);
      if tx.Err? {
        return Err(tx.error);
      }
      var v := tx.value;
      ghost var snap := Snapshot(v.uid, v.user, |st.w.log|);
      Yield(id, t, luck, RefreshSign(snap, v.org, v.role, luck.secret));
      r := MintForRefresh(id, t, luck, snap, v.uid, v.user, v.org, v.role);
    }

    method Logout(id: nat, secret: string, luck: Luck) returns (r: Result<Grant>)
      requires Valid() && id !in st.reqs
      modifies this, pool
      ensures Valid() && At(id, Ticket(Call.Logout(secret), luck, old(trace)), luck, Done(r))
    {
      ghost var t := Ticket(Call.Logout(secret), luck, trace);
      Enter(id, t);
      Yield(id, t, luck, LogoutRevoke(secret));
      if luck.failAt == Some(0) {
        Lose(id, t, luck, LogoutRevoke(secret));
        return Err(Internal);
      }
      r := RunLogout(id, t, luck, secret);
    }

    method FinishForgot(id: nat, ghost t: Ticket, luck: Luck, u: Uuid, ghost email: string) returns (r: Result<Grant>)
      requires Valid() && At(id, t, luck, ForgotStore(u, email)) && NewKey(st.w, luck.secret)
      modifies this, pool
      ensures Valid() && At(id, t, luck, Done(r))
    {
      Yield(id, t, luck, ForgotStore(u, email));
      if luck.failAt == Some(1) {
        Lose(id, t, luck, ForgotStore(u, email));
        return Err(Internal);
      }
      StoreReset(id, t, luck, u, email);
      return Ok(NoTokens);
    }

    method LookUpAndStore(id: nat, ghost t: Ticket, luck: Luck, email: string) returns (r: Result<Grant>)
      requires Valid() && At(id, t, luck, ForgotLookup(email)) && NewKey(st.w, luck.secret)
      modifies this, pool
      ensures Valid() && At(id, t, luck, Done(r))
    {
      Yield(id, t, luck, ForgotLookup(email));
      if luck.failAt == Some(0) {
        Lose(id, t, luck, ForgotLookup(email));
        return Err(Internal);
      }
      var u := LookUpForgot(id, t, luck, email);
      if u.None? {
        return Ok(NoTokens);
      }
      r := FinishForgot(id, t, luck, u.value, email);
    }

    method ForgotPassword(id: nat, email: string, luck: Luck) returns (r: Result<Grant>)
      requires Valid() && id !in st.reqs && NewKey(st.w, luck.secret)
      modifies this, pool
      ensures Valid() && At(id, Ticket(Call.ForgotPassword(email), luck, old(trace)), luck, Done(r))
    {
      ghost var t := Ticket(Call.ForgotPassword(email), luck, trace);
      Enter(id, t);
      var normalized := NormalizeEmail(cfg.go, cfg.bareAddress, email);
      if normalized.Err? {
        return Ok(NoTokens);
      }
      r := LookUpAndStore(id, t, luck, normalized.value);
    }

    method FinishReset(id: nat, ghost t: Ticket, luck: Luck, ghost key: CacheKey, u: Uuid, password: string)
      returns (r: Result<Grant>)
      requires Valid() && At(id, t, luck, ResetCommit(key, u, password)) && NewPassword(t.call) == Some(password)
      modifies this, pool
      ensures Valid() && At(id, t, luck, Done(r)) && (hashOf(password).None? ==> r == Err(Internal))
    {
      Yield(id, t, luck, ResetCommit(key, u, password));
      var hash := hashOf(password);
      if luck.failAt == Some(1) || hash.None? {
        Lose(id, t, luck, ResetCommit(key, u, password));
        return Err(Internal);
      }
      r := CommitReset(id, t, luck, key, u, password, hash.value);
    }

    method ResetPassword(id: nat, token: string, password: string, luck: Luck) returns (r: Result<Grant>)
      requires Valid() && id !in st.reqs
      modifies this, pool
      ensures Valid() && At(id, Ticket(Call.ResetPassword(token, password), luck, old(trace)), luck, Done(r))
      ensures hashOf(password).None? ==> r.Err?
    {
      ghost var t := Ticket(Call.ResetPassword(token, password), luck, trace);
      Enter(id, t);
      var strong := ValidatePassword(cfg.go, password);
      if strong.Err? {
        return Err(strong.error);
      }
      Yield(id, t, luck, ResetTake(token, password));
      if luck.failAt == Some(0) {
        Lose(id, t, luck, ResetTake(token, password));
        return Err(InvalidToken);
      }
      var u := TakeReset(id, t, luck, token, password);
      if u.None? {
        return Err(InvalidToken);
      }
      r := FinishReset(id, t, luck, PasswordResetCacheKey(token), u.value, password);
    }

    method FinishChange(id: nat, ghost t: Ticket, luck: Luck, u: Uuid, next: string) returns (r: Result<Grant>)
      requires Valid() && At(id, t, luck, ChangeCommit(u, next)) && NewPassword(t.call) == Some(next)
      modifies this, pool
      ensures Valid() && At(id, t, luck, Done(r)) && (hashOf(next).None? ==> r == Err(Internal))
    {
      Yield(id, t, luck, ChangeCommit(u, next));
      var hash := hashOf(next);
      if luck.failAt == Some(1) || hash.None? {
        Lose(id, t, luck, ChangeCommit(u, next));
        return Err(Internal);
      }
      r := CommitChange(id, t, luck, u, next, hash.value);
    }

    method CompareAndChange(id: nat, ghost t: Ticket, luck: Luck, u: Uuid, current: string, next: string)
      returns (r: Result<Grant>)
      requires Valid() && At(id, t, luck, ChangeLookup(u, current, next)) && NewPassword(t.call) == Some(next)
      modifies this, pool
      ensures Valid() && At(id, t, luck, Done(r)) && (hashOf(next).None? ==> r.Err?)
    {
      Yield(id, t, luck, ChangeLookup(u, current, next));
      if luck.failAt == Some(0) {
        Lose(id, t, luck, ChangeLookup(u, current, next));
        return Err(Internal);
      }
      var compared := LookUpChange(id, t, luck, u, current, next);
      if compared.Err? {
        return Err(compared.error);
      }
      r := FinishChange(id, t, luck, u, next);
    }

    method ChangePassword(id: nat, userID: Option<Uuid>, current: string, next: string, luck: Luck)
      returns (r: Result<Grant>)
      requires Valid() && id !in st.reqs
      modifies this, pool
      ensures Valid() && At(id, Ticket(Call.ChangePassword(userID, current, next), luck, old(trace)), luck, Done(r))
      ensures hashOf(next).None? ==> r.Err?
    {
      ghost var t := Ticket(Call.ChangePassword(userID, current, next), luck, trace);
      Enter(id, t);
      var strong := ValidatePassword(cfg.go, next);
      if strong.Err? {
        return Err(strong.error);
      }
      if userID.None? {
        return Err(InvalidToken);
      }
      r := CompareAndChange(id, t, luck, userID.value, current, next);
    }
  }
}
