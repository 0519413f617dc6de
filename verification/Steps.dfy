/** Every step of every request is one permitted effect on the world; with it, the
    inductive invariant of the whole transition system. */
module Steps {
  import opened Text
  import opened Security
  import opened Schema
  import opened Transactions
  import opened Bodies
  import opened Protocol
  import opened Effects
  import opened Invariant

  // ---- What a stopped request may rely on ----

  /** The user row was read truthfully, when the log had `readAt` entries. */
  ghost predicate SnapOk(w: World, snap: Snapshot) {
    && snap.id in w.db.users && snap.readAt <= |w.log|
    && snap.user.version == Revocations(w.log[..snap.readAt], snap.id)
  }

  ghost predicate MemberAs(w: World, u: Uuid, o: Uuid, role: string) {
    (u, o) in w.db.members && w.db.members[(u, o)] == role
  }

  predicate NeverRevoked(log: seq<Commit>, id: nat) {
    forall i :: 0 <= i < |log| && log[i].req == id ==> !log[i].event.Revoked?
  }

  ghost predicate PhaseOk(cfg: Config, w: World, id: nat, ph: Phase) {
    && (!ph.Done? ==> NeverRevoked(w.log, id))
    && match ph
       case LoginMembers(snap, _) => SnapOk(w, snap)
       case IssueSign(snap, org, role) => SnapOk(w, snap) && MemberAs(w, snap.id, org, role)
       case IssueStore(snap, org, text) => SnapOk(w, snap) && (snap.id, org) in w.db.members && text in w.signed
       case RefreshSign(snap, org, role, _) => SnapOk(w, snap) && MemberAs(w, snap.id, org, role)
       case ForgotStore(u, email) => u in w.db.users && SameEmail(cfg.sql, w.db.users[u].email, email)
       case ResetCommit(key, u, _) =>
         && key in w.keys && w.keys[key].user == u && u in w.db.users
         && w.keys[key].taken.Some? && w.keys[key].taken.value.req == id
       case ChangeCommit(u, _) => u in w.db.users
       case _ => true
  }

  /** Which calls can be in which phase. */
  predicate Fits(call: Call, ph: Phase) {
    match ph
    case RegisterLookup(_, _, _) => call.Register?
    case RegisterInsert(_, _, _) => call.Register?
    case LoginLookup(_, _, _) => call.Login?
    case LoginMembers(_, _) => call.Login?
    case IssueSign(_, _, _) => call.Register? || call.Login?
    case IssueStore(_, _, _) => call.Register? || call.Login?
    case RefreshRotate(secret) => call == Refresh(secret)
    case RefreshSign(_, _, _, _) => call.Refresh?
    case LogoutRevoke(secret) => call == Logout(secret)
    case ForgotLookup(_) => call.ForgotPassword?
    case ForgotStore(_, _) => call.ForgotPassword?
    case ResetTake(token, password) => call == ResetPassword(token, password)
    case ResetCommit(key, _, password) =>
      call.ResetPassword? && key == PasswordResetCacheKey(call.token) && password == call.password
    case ChangeLookup(u, current, next) => call == ChangePassword(Some(u), current, next)
    case ChangeCommit(u, next) => call.ChangePassword? && call.userID == Some(u) && next == call.next
    case Done(_) => true
  }

  /** Which calls can have made which commit. */
  predicate MadeBy(call: Call, ev: Event) {
    match ev
    case SignedUp(_, _, _, _) => call.Register?
    case Opened(_, _, _) => call.Register? || call.Login?
    case Rotated(spent, _, _) => call.Refresh? && spent == HashOpaqueToken(call.secret)
    case Revoked(u, cause) =>
      match cause
      case ByLogout(d) => call.Logout? && d == HashOpaqueToken(call.secret)
      case ByChange(_) => call.ChangePassword? && call.userID == Some(u)
      case ByReset(key, _) => call.ResetPassword? && key == PasswordResetCacheKey(call.token)
  }

  predicate SignsIn(call: Call) {
    call.Register? || call.Login? || call.Refresh?
  }

  ghost predicate CallsOk(s: State) {
    FitsOk(s.calls, s.reqs) && CommitsFit(s.w.log, s.calls) && SignersFit(s.w.signed, s.calls)
  }

  predicate FitsOk(calls: map<nat, Call>, reqs: map<nat, Phase>) {
    calls.Keys == reqs.Keys && forall id :: id in reqs ==> Fits(calls[id], reqs[id])
  }

  predicate CommitsFit(log: seq<Commit>, calls: map<nat, Call>) {
    forall i :: 0 <= i < |log| ==> log[i].req in calls && MadeBy(calls[log[i].req], log[i].event)
  }

  predicate SignersFit(signed: map<string, Signed>, calls: map<nat, Call>) {
    forall t :: t in signed ==> signed[t].req in calls && SignsIn(calls[signed[t].req])
  }

  ghost predicate PhasesOk(cfg: Config, s: State) {
    forall id :: id in s.reqs ==> PhaseOk(cfg, s.w, id, s.reqs[id])
  }

  /** The inductive invariant. */
  ghost predicate StateOk(cfg: Config, s: State) {
    WorldOk(cfg, s.w) && CallsOk(s) && PhasesOk(cfg, s)
  }

  // ---- Every step is an effect ----

  function SignEffect(cfg: Config, w: World, id: nat, snap: Snapshot, org: Uuid, role: string, text: string): Effect {
    if CanSign(cfg) then Issue(text, Signed(Claimed(cfg, snap, org, role, w.now), snap.readAt, id, w.now)) else Idle
  }

  ghost function AccountEffect(cfg: Config, w: World, email: string, fullName: string, ch: Choice): Effect {
    if WithTx(cfg.sql, w.db, RegisterBody(ch.uid, ch.oid, email, ch.hash, fullName), ch.faults).1.Ok?
    then SignUp(ch.uid, User(email, ch.hash, fullName, 0), ch.oid) else Idle
  }

  ghost function RotateEffect(cfg: Config, w: World, secret: string, ch: Choice): Effect {
    var spent, minted, expires := HashOpaqueToken(secret), HashOpaqueToken(ch.secret), w.now + cfg.refreshExpiry;
    if WithTx(cfg.sql, w.db, RefreshBody(spent, minted, w.now, expires), ch.faults).1.Ok?
    then Rotate(spent, minted, expires) else Idle
  }

  ghost function LogoutEffect(cfg: Config, w: World, secret: string, ch: Choice): Effect {
    var r := WithTx(cfg.sql, w.db, LogoutBody(HashOpaqueToken(secret), w.now), ch.faults).1;
    if r.Ok? && r.value.Some? then Revoke(r.value.value, ByLogout(HashOpaqueToken(secret))) else Idle
  }

  ghost function PasswordEffect(cfg: Config, w: World, u: Uuid, hash: string, cause: Cause, f: Faults): Effect {
    if WithTx(cfg.sql, w.db, PasswordBody(u, hash), f).1.Ok? then Revoke(u, cause) else Idle
  }

  function TakeEffect(w: World, token: string): Effect {
    var key := PasswordResetCacheKey(token);
    if key in w.resets && w.now < w.resets[key].expires then TakeKey(key) else Idle
  }

  ghost function EffectOf(cfg: Config, w: World, id: nat, ph: Phase, ch: Choice): Effect {
    match ph
    case RegisterInsert(email, _, fullName) => AccountEffect(cfg, w, email, fullName, ch)
    case IssueSign(snap, org, role) => SignEffect(cfg, w, id, snap, org, role, ch.text)
    case RefreshSign(snap, org, role, _) => SignEffect(cfg, w, id, snap, org, role, ch.text)
    case IssueStore(snap, org, _) => Open(HashOpaqueToken(ch.secret), snap.id, org, w.now + cfg.refreshExpiry)
    case RefreshRotate(secret) => RotateEffect(cfg, w, secret, ch)
    case LogoutRevoke(secret) => LogoutEffect(cfg, w, secret, ch)
    case ForgotStore(u, email) => StoreKey(PasswordResetCacheKey(ch.secret), u, email)
    case ResetTake(token, _) => TakeEffect(w, token)
    case ResetCommit(key, u, _) => PasswordEffect(cfg, w, u, ch.hash, ByReset(key, ch.hash), ch.faults)
    case ChangeCommit(u, _) => PasswordEffect(cfg, w, u, ch.hash, ByChange(ch.hash), ch.faults)
    case _ => Idle
  }

  lemma IdleIsEffect(w: World, id: nat)
    ensures Perform(w, id, Idle) == w
  {
  }

  lemma RotateIsEffect(cfg: Config, w: World, id: nat, spent: Digest, minted: Digest, expires: int)
    requires w.lineage.Keys == w.db.tokens.Keys && CanRefresh(w.db, spent, minted, w.now)
    ensures var e := Rotate(spent, minted, expires);
      && Permitted(cfg, w, id, e)
      && var u := w.db.tokens[spent].user;
         AfterRotate(w, Rotating(w.db, spent, minted, expires), id, spent, minted, u) == Perform(w, id, e)
  {
  }

  lemma RevokeIsEffect(w: World, id: nat, u: Uuid, cause: Cause)
    requires u in w.db.users
    ensures var db := Revoking(if cause.ByLogout? then w.db else WithPassword(w.db, u, cause.hash), u);
      Committed(w, db, id, Revoked(u, cause)) == Perform(w, id, Revoke(u, cause))
  {
    var db := Revoking(if cause.ByLogout? then w.db else WithPassword(w.db, u, cause.hash), u);
    assert db.users == UsersAfter(w.db.users, Revoke(u, cause));
  }

  /** The step is the effect, the effect is permitted, and the next phase and the commit suit the call. */
  ghost predicate StepIs(cfg: Config, w: World, id: nat, step: (World, Phase), e: Effect, call: Call) {
    && Permitted(cfg, w, id, e) && step.0 == Perform(w, id, e)
    && Fits(call, step.1) && (e.Revoke? ==> step.1.Done?)
    && (EventOf(w, e).Some? ==> MadeBy(call, EventOf(w, e).value)) && (e.Issue? ==> SignsIn(call))
  }

  lemma AccountStep(cfg: Config, w: World, id: nat, email: string, fullName: string, ch: Choice, call: Call)
    requires call.Register?
    ensures StepIs(cfg, w, id, InsertAccount(cfg, w, id, email, fullName, ch),
                   AccountEffect(cfg, w, email, fullName, ch), call)
  {
    RegisterTx(cfg.sql, w.db, ch.uid, ch.oid, email, ch.hash, fullName, ch.faults);
  }

  /** A rotation that commits hands on the user row, the membership and the version it read inside the transaction. */
  lemma RotateOutcome(cfg: Config, w: World, id: nat, secret: string, ch: Choice)
    ensures var (w', ph') := RotateRefreshToken(cfg, w, id, secret, ch);
      var spent, minted, expires := HashOpaqueToken(secret), HashOpaqueToken(ch.secret), w.now + cfg.refreshExpiry;
      if RotateEffect(cfg, w, secret, ch).Rotate? then
        && CanRefresh(w.db, spent, minted, w.now)
        && var v := RefreshValue(w.db, spent);
        && w' == AfterRotate(w, Rotating(w.db, spent, minted, expires), id, spent, minted, v.uid)
        && ph' == RefreshSign(Snapshot(v.uid, v.user, |w'.log|), v.org, v.role, ch.secret)
      else RotateEffect(cfg, w, secret, ch) == Idle && w' == w && ph'.Done?
  {
    var spent, minted, expires := HashOpaqueToken(secret), HashOpaqueToken(ch.secret), w.now + cfg.refreshExpiry;
    RefreshTx(cfg.sql, w.db, spent, minted, w.now, expires, ch.faults);
  }

  lemma RotateStep(cfg: Config, w: World, id: nat, secret: string, ch: Choice)
    requires w.lineage.Keys == w.db.tokens.Keys
    ensures StepIs(cfg, w, id, RotateRefreshToken(cfg, w, id, secret, ch),
                   RotateEffect(cfg, w, secret, ch), Refresh(secret))
  {
    RotateOutcome(cfg, w, id, secret, ch);
    if RotateEffect(cfg, w, secret, ch).Rotate? {
      var spent, minted, expires := HashOpaqueToken(secret), HashOpaqueToken(ch.secret), w.now + cfg.refreshExpiry;
      RotateIsEffect(cfg, w, id, spent, minted, expires);
      RotatedIs(cfg, w, id, RotateRefreshToken(cfg, w, id, secret, ch), Rotate(spent, minted, expires), secret);
    } else {
      IdleIsEffect(w, id);
    }
  }

  lemma RotatedIs(cfg: Config, w: World, id: nat, step: (World, Phase), e: Effect, secret: string)
    requires e.Rotate? && e.spent == HashOpaqueToken(secret) && step.1.RefreshSign?
    requires Permitted(cfg, w, id, e) && step.0 == Perform(w, id, e)
    ensures StepIs(cfg, w, id, step, e, Refresh(secret))
  {
  }

  lemma LogoutStep(cfg: Config, w: World, id: nat, secret: string, ch: Choice)
    requires TokensValid(w.db) && NeverRevoked(w.log, id)
    ensures StepIs(cfg, w, id, ConsumeAndRevoke(cfg, w, id, secret, ch),
                   LogoutEffect(cfg, w, secret, ch), Logout(secret))
  {
    var d := HashOpaqueToken(secret);
    LogoutTx(cfg.sql, w.db, d, w.now, ch.faults);
    if Consumable(w.db, d, w.now) { RevokeIsEffect(w, id, w.db.tokens[d].user, ByLogout(d)); }
  }

  /** The two password changes are revocations that also set the hash. */
  lemma PasswordStep(cfg: Config, w: World, id: nat, u: Uuid, hash: string, cause: Cause, f: Faults, call: Call)
    requires u in w.db.users && NeverRevoked(w.log, id) && MadeBy(call, Revoked(u, cause))
    requires !cause.ByLogout? && cause.hash == hash
    requires cause.ByReset? ==>
      cause.key in w.keys && w.keys[cause.key].user == u
      && w.keys[cause.key].taken.Some? && w.keys[cause.key].taken.value.req == id
    ensures StepIs(cfg, w, id, SetPassword(cfg, w, id, u, hash, cause, f),
                   PasswordEffect(cfg, w, u, hash, cause, f), call)
  {
    PasswordTx(cfg.sql, w.db, u, hash, f);
    RevokeIsEffect(w, id, u, cause);
  }

  lemma StoreStep(cfg: Config, w: World, id: nat, snap: Snapshot, org: Uuid, text: string, ch: Choice, call: Call)
    requires (snap.id, org) in w.db.members && MembersValid(w.db) && HashOpaqueToken(ch.secret) !in w.db.tokens
    requires call.Register? || call.Login?
    ensures StepIs(cfg, w, id, InsertRefreshToken(cfg, w, id, snap, org, text, ch),
                   Open(HashOpaqueToken(ch.secret), snap.id, org, w.now + cfg.refreshExpiry), call)
  {
  }

  /** The claims repeat a membership and a version that were read together or earlier. */
  lemma SignStep(cfg: Config, w: World, id: nat, snap: Snapshot, org: Uuid, role: string, text: string)
    requires SnapOk(w, snap) && MemberAs(w, snap.id, org, role) && text !in w.signed && CanSign(cfg)
    ensures var e := SignEffect(cfg, w, id, snap, org, role, text);
      e.Issue? && Permitted(cfg, w, id, e) && Sign(cfg, w, id, snap, org, role, text) == Perform(w, id, e)
  {
  }

  lemma TakeStep(cfg: Config, w: World, id: nat, token: string, password: string, ch: Choice)
    requires LiveKeysOk(w)
    ensures var call := ResetPassword(token, password);
      StepIs(cfg, w, id, Advance(cfg, w, id, ResetTake(token, password), ch), TakeEffect(w, token), call)
  {
  }

  lemma StoreKeyStep(cfg: Config, w: World, id: nat, u: Uuid, email: string, key: CacheKey)
    requires key !in w.keys && u in w.db.users && SameEmail(cfg.sql, w.db.users[u].email, email)
    ensures Permitted(cfg, w, id, StoreKey(key, u, email))
    ensures StoreResetKey(w, id, u, email, key) == Perform(w, id, StoreKey(key, u, email))
  {
  }

  lemma TransactionStep(cfg: Config, w: World, id: nat, ph: Phase, ch: Choice, call: Call)
    requires ph.RegisterInsert? || ph.RefreshRotate? || ph.LogoutRevoke? || ph.ResetCommit? || ph.ChangeCommit?
    requires TokensValid(w.db) && w.lineage.Keys == w.db.tokens.Keys
    requires Fits(call, ph) && PhaseOk(cfg, w, id, ph)
    ensures StepIs(cfg, w, id, Advance(cfg, w, id, ph, ch), EffectOf(cfg, w, id, ph, ch), call)
  {
    match ph
    case RegisterInsert(email, _, fullName) => AccountStep(cfg, w, id, email, fullName, ch, call);
    case RefreshRotate(secret) => RotateStep(cfg, w, id, secret, ch);
    case LogoutRevoke(secret) => LogoutStep(cfg, w, id, secret, ch);
    case ResetCommit(key, u, _) => PasswordStep(cfg, w, id, u, ch.hash, ByReset(key, ch.hash), ch.faults, call);
    case ChangeCommit(u, _) => PasswordStep(cfg, w, id, u, ch.hash, ByChange(ch.hash), ch.faults, call);
  }

  lemma ReadStep(cfg: Config, w: World, id: nat, ph: Phase, ch: Choice, call: Call)
    requires ph.RegisterLookup? || ph.LoginLookup? || ph.LoginMembers? || ph.ForgotLookup? || ph.ChangeLookup?
    requires Fits(call, ph)
    ensures StepIs(cfg, w, id, Advance(cfg, w, id, ph, ch), EffectOf(cfg, w, id, ph, ch), call)
  {
    IdleIsEffect(w, id);
  }

  lemma MintStep(cfg: Config, w: World, id: nat, ph: Phase, ch: Choice, call: Call)
    requires ph.IssueSign? || ph.RefreshSign?
    requires Fits(call, ph) && PhaseOk(cfg, w, id, ph) && Allowed(cfg, w, ph, ch)
    ensures StepIs(cfg, w, id, Advance(cfg, w, id, ph, ch), EffectOf(cfg, w, id, ph, ch), call)
  {
    if CanSign(cfg) { SignStep(cfg, w, id, ph.snap, ph.org, ph.role, ch.text); } else { IdleIsEffect(w, id); }
  }

  lemma WriteStep(cfg: Config, w: World, id: nat, ph: Phase, ch: Choice, call: Call)
    requires ph.IssueStore? || ph.ForgotStore?
    requires Fits(call, ph) && PhaseOk(cfg, w, id, ph) && Allowed(cfg, w, ph, ch) && MembersValid(w.db)
    ensures StepIs(cfg, w, id, Advance(cfg, w, id, ph, ch), EffectOf(cfg, w, id, ph, ch), call)
  {
    match ph
    case IssueStore(snap, org, text) => StoreStep(cfg, w, id, snap, org, text, ch, call);
    case ForgotStore(u, email) => StoreKeyStep(cfg, w, id, u, email, PasswordResetCacheKey(ch.secret));
  }

  /** Every step of every request is a permitted effect. */
  lemma EveryStep(cfg: Config, w: World, id: nat, ph: Phase, ch: Choice, call: Call)
    requires TokensValid(w.db) && MembersValid(w.db) && LiveKeysOk(w) && w.lineage.Keys == w.db.tokens.Keys
    requires !ph.Done? && Fits(call, ph) && PhaseOk(cfg, w, id, ph) && Allowed(cfg, w, ph, ch)
    ensures StepIs(cfg, w, id, Advance(cfg, w, id, ph, ch), EffectOf(cfg, w, id, ph, ch), call)
  {
    if ph.RegisterLookup? || ph.LoginLookup? || ph.LoginMembers? || ph.ForgotLookup? || ph.ChangeLookup? {
      ReadStep(cfg, w, id, ph, ch, call);
    } else if ph.IssueSign? || ph.RefreshSign? {
      MintStep(cfg, w, id, ph, ch, call);
    } else if ph.IssueStore? || ph.ForgotStore? {
      WriteStep(cfg, w, id, ph, ch, call);
    } else if ph.ResetTake? {
      TakeStep(cfg, w, id, ph.token, ph.password, ch);
    } else {
      TransactionStep(cfg, w, id, ph, ch, call);
    }
  }

  // ---- The next phase relies only on what holds ----

  /** What another request, the clock or a new membership leaves a stopped request. */
  lemma PhaseKept(cfg: Config, w: World, w': World, id: nat, ph: Phase)
    requires PhaseOk(cfg, w, id, ph) && Extends(w, w') && (!ph.Done? ==> NeverRevoked(w'.log, id))
    ensures PhaseOk(cfg, w', id, ph)
  {
    match ph
    case LoginMembers(snap, _) => assert w'.log[..snap.readAt] == w.log[..snap.readAt];
    case IssueSign(snap, _, _) => assert w'.log[..snap.readAt] == w.log[..snap.readAt];
    case IssueStore(snap, _, _) => assert w'.log[..snap.readAt] == w.log[..snap.readAt];
    case RefreshSign(snap, _, _, _) => assert w'.log[..snap.readAt] == w.log[..snap.readAt];
    case _ =>
  }

  lemma SnapNow(w: World, u: Uuid)
    requires VersionsOk(w) && u in w.db.users
    ensures SnapOk(w, Snapshot(u, w.db.users[u], |w.log|))
  {
    assert w.log[..|w.log|] == w.log;
  }

  lemma SelectedIsListed(rows: seq<(Uuid, string)>, sel: Selector)
    ensures SelectMembership(rows, sel).Ok? ==> SelectMembership(rows, sel).value in rows
  {
    if rows != [] && sel.Chosen? { FirstIsListed(rows, sel.org); }
  }

  lemma {:induction false} FirstIsListed(rows: seq<(Uuid, string)>, o: Uuid)
    ensures var r := FirstInOrg(rows, o);
      if r.Ok? then r.value in rows && r.value.0 == o else forall i :: 0 <= i < |rows| ==> rows[i].0 != o
  {
    if rows != [] && rows[0].0 != o { FirstIsListed(rows[1..], o); }
  }

  lemma AfterRead(cfg: Config, w: World, id: nat, ph: Phase, ch: Choice)
    requires ph.RegisterLookup? || ph.LoginLookup? || ph.LoginMembers? || ph.ForgotLookup? || ph.ChangeLookup?
    requires VersionsOk(w) && PhaseOk(cfg, w, id, ph) && Allowed(cfg, w, ph, ch)
    ensures PhaseOk(cfg, w, id, Advance(cfg, w, id, ph, ch).1)
  {
    var ph' := Advance(cfg, w, id, ph, ch).1;
    if ph.LoginLookup? && ph'.LoginMembers? { SnapNow(w, ph'.snap.id); }
    if ph.LoginMembers? { SelectedIsListed(ch.rows, ph.sel); }
  }

  lemma AfterAccount(cfg: Config, w: World, id: nat, email: string, fullName: string, ch: Choice)
    requires var (w', ph') := InsertAccount(cfg, w, id, email, fullName, ch);
      VersionsOk(w') && (!ph'.Done? ==> NeverRevoked(w'.log, id))
    ensures var (w', ph') := InsertAccount(cfg, w, id, email, fullName, ch); PhaseOk(cfg, w', id, ph')
  {
    var (w', ph') := InsertAccount(cfg, w, id, email, fullName, ch);
    RegisterTx(cfg.sql, w.db, ch.uid, ch.oid, email, ch.hash, fullName, ch.faults);
    if ph'.IssueSign? { SnapNow(w', ch.uid); }
  }

  lemma AfterRotation(cfg: Config, w: World, id: nat, secret: string, ch: Choice)
    requires var (w', ph') := RotateRefreshToken(cfg, w, id, secret, ch);
      VersionsOk(w') && (!ph'.Done? ==> NeverRevoked(w'.log, id))
    ensures var (w', ph') := RotateRefreshToken(cfg, w, id, secret, ch); PhaseOk(cfg, w', id, ph')
  {
    var (w', ph') := RotateRefreshToken(cfg, w, id, secret, ch);
    RotateOutcome(cfg, w, id, secret, ch);
    if ph'.RefreshSign? { SnapNow(w', ph'.snap.id); }
  }

  lemma AfterTake(cfg: Config, w: World, id: nat, token: string, password: string, ch: Choice)
    requires KeysOk(cfg, w) && NeverRevoked(w.log, id)
    ensures var (w', ph') := Advance(cfg, w, id, ResetTake(token, password), ch); PhaseOk(cfg, w', id, ph')
  {
    var key := PasswordResetCacheKey(token);
    if key in w.resets { assert KeyOk(cfg, w, w.keys[key]); }
  }

  /** The phase a step leads to may rely on what the step read or wrote. */
  lemma NextPhaseOk(cfg: Config, w: World, id: nat, ph: Phase, ch: Choice)
    requires VersionsOk(w) && KeysOk(cfg, w)
    requires !ph.Done? && PhaseOk(cfg, w, id, ph) && Allowed(cfg, w, ph, ch)
    requires var (w', ph') := Advance(cfg, w, id, ph, ch);
      VersionsOk(w') && (!ph'.Done? ==> NeverRevoked(w'.log, id))
    ensures var (w', ph') := Advance(cfg, w, id, ph, ch); PhaseOk(cfg, w', id, ph')
  {
    if ph.RegisterInsert? {
      AfterAccount(cfg, w, id, ph.email, ph.fullName, ch);
    } else if ph.RefreshRotate? {
      AfterRotation(cfg, w, id, ph.secret, ch);
    } else if ph.ResetTake? {
      AfterTake(cfg, w, id, ph.token, ph.password, ch);
    } else if ph.RegisterLookup? || ph.LoginLookup? || ph.LoginMembers? || ph.ForgotLookup? || ph.ChangeLookup? {
      AfterRead(cfg, w, id, ph, ch);
    }
  }
}
