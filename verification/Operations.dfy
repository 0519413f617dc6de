/** The operations from call to answer: each theorem starts where the call arrives, speaks of the call's own
    arguments and of the states its statements meet, and holds in every run in which the infrastructure
    fails none of them. */
module Operations {
  import opened Text
  import opened Security
  import opened Schema
  import opened Transactions
  import opened Bodies
  import opened Protocol
  import opened Steps
  import opened Runs
  import opened Accounts
  import opened Sessions
  import opened Completeness
  import opened Calls

  ghost function Begun(cfg: Config, s: State, id: nat, call: Call): State
    requires id !in s.reqs
  {
    Apply(cfg, s, Start(id, call)).value
  }

  /** The call arrives in s, and in the run that follows it ends unharmed. */
  ghost predicate Served(cfg: Config, s: State, id: nat, call: Call, steps: seq<Step>) {
    && Reachable(cfg, s) && id !in s.reqs
    && Ends(cfg, Begun(cfg, s, id, call), steps, id) && Unharmed(steps, id)
  }

  lemma Begins(cfg: Config, s: State, id: nat, call: Call, steps: seq<Step>)
    requires Served(cfg, s, id, call, steps)
    ensures var b := Begun(cfg, s, id, call);
      && Reachable(cfg, b) && b.w == s.w && id in b.reqs && b.reqs[id] == Begin(cfg, call)
      && (b.reqs[id].Done? ==> Outcome(cfg, b, steps, id) == b.reqs[id].outcome)
  {
    StepGoesOn(cfg, s, Start(id, call));
    var b := Begun(cfg, s, id, call);
    if b.reqs[id].Done? { DoneStays(cfg, b, steps, id); }
  }

  // ---- Login ----

  ghost predicate Entitled(db: Db, u: Uuid, sel: Selector) {
    exists o :: EntitledTo(db, u, sel, o)
  }

  lemma SelectionErrors(db: Db, u: Uuid, rows: seq<(Uuid, string)>, sel: Selector)
    requires Lists(db, u, rows) && !Entitled(db, u, sel) && exists o: Uuid :: (u, o) in db.members
    ensures SelectMembership(rows, sel) == Err(if sel.Blank? then OrgSelectionRequired else InvalidOrgSelection)
  {
    SelectionDecided(db, u, rows, sel);
    assert SelectMembership(rows, sel).Err?;
    var o: Uuid :| (u, o) in db.members;
    var i :| 0 <= i < |rows| && rows[i].0 == o;
    if sel.Chosen? { FirstIsListed(rows, sel.org); FirstInOrgError(rows, sel.org); }
  }

  lemma {:induction false} FirstInOrgError(rows: seq<(Uuid, string)>, o: Uuid)
    ensures FirstInOrg(rows, o).Err? ==> FirstInOrg(rows, o) == Err(InvalidOrgSelection)
  {
    if rows != [] { FirstInOrgError(rows[1..], o); }
  }

  /** What a login answers once its account is found, by the memberships at its second statement. */
  ghost predicate SelectionAnswers(cfg: Config, s: State, steps: seq<Step>, id: nat, k: nat, sel: Selector,
        u: Uuid, readAt: nat)
    requires Ends(cfg, s, steps, id)
  {
    var r, turn := Outcome(cfg, s, steps, id), TurnOf(cfg, s, steps, id, k);
    var mint, store := TurnOf(cfg, s, steps, id, k + 1), TurnOf(cfg, s, steps, id, k + 2);
    && turn.Some?
    && (!Entitled(turn.value.at.w.db, u, sel) ==>
          r == Err(if sel.Blank? then OrgSelectionRequired else InvalidOrgSelection))
    && (forall o :: EntitledTo(turn.value.at.w.db, u, sel, o) ==>
          if Configured(cfg) then
            && mint.Some? && store.Some?
            && HandsOut(cfg, Final(cfg, s, steps), r, u, o, readAt, mint.value.at.w.now, store.value.at.w.now)
          else r == Err(Internal))
  }

  lemma SelectionEnds(cfg: Config, s: State, steps: seq<Step>, id: nat)
    requires Reachable(cfg, s) && id in s.reqs && s.reqs[id].LoginMembers?
    requires Ends(cfg, s, steps, id) && Unharmed(steps, id)
    ensures var ph := s.reqs[id]; SelectionAnswers(cfg, s, steps, id, 0, ph.sel, ph.snap.id, ph.snap.readAt)
  {
    var ph := s.reqs[id];
    var t, after, rest := Peel(cfg, s, steps, id);
    var u := ph.snap.id;
    MembersDecided(cfg, t.at, id, t.choice);
    if Entitled(t.at.w.db, u, ph.sel) {
      var mint, store := IssueEnds(cfg, after, rest, id);
    } else {
      ReachablePhase(cfg, t.at, id);
      EveryUserHasAHome(cfg, t.at, u);
      SelectionErrors(t.at.w.db, u, t.choice.rows, ph.sel);
    }
  }

  ghost predicate NoAccount(cfg: Config, w: World, n: string, password: string) {
    forall u :: !Authenticates(cfg, w, n, password, u)
  }

  ghost predicate LookupAnswers(cfg: Config, s: State, steps: seq<Step>, id: nat, n: string, password: string,
          sel: Selector)
    requires Ends(cfg, s, steps, id)
  {
    var r, first := Outcome(cfg, s, steps, id), TurnOf(cfg, s, steps, id, 0);
    && first.Some? && var w := first.value.at.w;
    && (NoAccount(cfg, w, n, password) ==> r == Err(InvalidCredentials))
    && (forall u :: Authenticates(cfg, w, n, password, u) ==>
          SelectionAnswers(cfg, s, steps, id, 1, sel, u, |w.log|))
  }

  lemma LookupEnds(cfg: Config, s: State, steps: seq<Step>, id: nat)
    requires Reachable(cfg, s) && id in s.reqs && s.reqs[id].LoginLookup?
    requires Ends(cfg, s, steps, id) && Unharmed(steps, id)
    ensures var ph := s.reqs[id]; LookupAnswers(cfg, s, steps, id, ph.email, ph.password, ph.sel)
  {
    var ph := s.reqs[id];
    var t, after, rest := Peel(cfg, s, steps, id);
    LookupDecided(cfg, t.at, id, ph.email, ph.password, ph.sel, t.choice);
    if after.reqs[id].LoginMembers? {
      assert Authenticates(cfg, t.at.w, ph.email, ph.password, after.reqs[id].snap.id);
      SelectionEnds(cfg, after, rest, id);
    }
  }

  ghost predicate LoginAnswers(cfg: Config, s: State, steps: seq<Step>, id: nat, email: string, password: string,
          sel: Selector)
    requires Ends(cfg, s, steps, id)
  {
    match NormalizeEmail(cfg.go, cfg.bareAddress, email)
    case Err(_) => Outcome(cfg, s, steps, id) == Err(InvalidCredentials)
    case Ok(n) => LookupAnswers(cfg, s, steps, id, n, password, sel)
  }

  /** Login, in every run: malformed or unknown emails and wrong passwords are ErrInvalidCredentials; then the
      memberships at its second statement decide between tokens for the one it is entitled to and the two
      selection errors. */
  lemma LoginCall(cfg: Config, s: State, id: nat, email: string, password: string, sel: Selector, steps: seq<Step>)
    requires Served(cfg, s, id, Login(email, password, sel), steps)
    ensures LoginAnswers(cfg, Begun(cfg, s, id, Login(email, password, sel)), steps, id, email, password, sel)
  {
    Begins(cfg, s, id, Login(email, password, sel), steps);
    if NormalizeEmail(cfg.go, cfg.bareAddress, email).Ok? {
      LookupEnds(cfg, Begun(cfg, s, id, Login(email, password, sel)), steps, id);
    }
  }

  // ---- Refresh ----

  ghost predicate RefreshAnswers(cfg: Config, s: State, steps: seq<Step>, id: nat, secret: string)
    requires Ends(cfg, s, steps, id)
  {
    var r, first, second := Outcome(cfg, s, steps, id), TurnOf(cfg, s, steps, id, 0), TurnOf(cfg, s, steps, id, 1);
    && first.Some? && var w, d := first.value.at.w, HashOpaqueToken(secret);
    if !Consumable(w.db, d, w.now) then r == Err(InvalidToken)
    else if !Configured(cfg) then r == Err(Internal)
    else
      && second.Some? && var row := w.db.tokens[d];
      HandsOut(cfg, Final(cfg, s, steps), r, row.user, row.org, |w.log| + 1, second.value.at.w.now, w.now)
  }

  /** Refresh, in every run: a secret that is stored, live and unexpired at the rotation is answered with tokens
      for its row's user and org, any other with ErrInvalidToken. */
  lemma RefreshCall(cfg: Config, s: State, id: nat, secret: string, steps: seq<Step>)
    requires Served(cfg, s, id, Refresh(secret), steps)
    ensures RefreshAnswers(cfg, Begun(cfg, s, id, Refresh(secret)), steps, id, secret)
  {
    Begins(cfg, s, id, Refresh(secret), steps);
    RotationEnds(cfg, Begun(cfg, s, id, Refresh(secret)), steps, id);
  }

  lemma RotationEnds(cfg: Config, s: State, steps: seq<Step>, id: nat)
    requires Reachable(cfg, s) && id in s.reqs && s.reqs[id].RefreshRotate?
    requires Ends(cfg, s, steps, id) && Unharmed(steps, id)
    ensures RefreshAnswers(cfg, s, steps, id, s.reqs[id].secret)
  {
    var secret := s.reqs[id].secret;
    var t, after, rest := Peel(cfg, s, steps, id);
    RotationDecided(cfg, t.at, id, secret, t.choice);
    if after.reqs[id].RefreshSign? { RotatedSigns(cfg, after, rest, id, t.at.w.now + cfg.refreshExpiry); }
  }

  lemma RotatedSigns(cfg: Config, s: State, steps: seq<Step>, id: nat, expires: int)
    requires Reachable(cfg, s) && id in s.reqs && s.reqs[id].RefreshSign?
    requires Ends(cfg, s, steps, id) && Unharmed(steps, id)
    requires var ph := s.reqs[id]; RowStored(s.w.db.tokens, ph.secret, ph.snap.id, ph.org, expires)
    ensures var ph, r, turn := s.reqs[id], Outcome(cfg, s, steps, id), TurnOf(cfg, s, steps, id, 0);
      && turn.Some?
      && if Configured(cfg) then
           HandsOut(cfg, Final(cfg, s, steps), r, ph.snap.id, ph.org, ph.snap.readAt, turn.value.at.w.now,
             expires - cfg.refreshExpiry)
         else r == Err(Internal)
  {
    var ph := s.reqs[id];
    RefreshSigns(cfg, s, steps, id);
    RunGoesOn(cfg, s, steps);
    RowLasts(s.w, Final(cfg, s, steps), ph.secret, ph.snap.id, ph.org, expires);
  }

  lemma RotationDecided(cfg: Config, s: State, id: nat, secret: string, ch: Choice)
    requires Reachable(cfg, s) && ch.faults == NO_FAULTS && HashOpaqueToken(ch.secret) !in s.w.db.tokens
    ensures var (w', ph') := RotateRefreshToken(cfg, s.w, id, secret, ch); var d := HashOpaqueToken(secret);
      if !Consumable(s.w.db, d, s.w.now) then ph' == Done(Err(InvalidToken))
      else
        && ph'.RefreshSign? && ph'.snap.id == s.w.db.tokens[d].user && ph'.org == s.w.db.tokens[d].org
        && ph'.snap.readAt == |s.w.log| + 1 && ph'.secret == ch.secret
        && RowStored(w'.db.tokens, ch.secret, ph'.snap.id, ph'.org, s.w.now + cfg.refreshExpiry)
  {
    RefreshDecided(cfg, s, id, secret, ch);
    if Consumable(s.w.db, HashOpaqueToken(secret), s.w.now) { RotateOutcome(cfg, s.w, id, secret, ch); }
  }

  lemma RefreshSigns(cfg: Config, s: State, steps: seq<Step>, id: nat)
    requires Reachable(cfg, s) && id in s.reqs && s.reqs[id].RefreshSign?
    requires Ends(cfg, s, steps, id) && Unharmed(steps, id)
    ensures var ph, r, turn := s.reqs[id], Outcome(cfg, s, steps, id), TurnOf(cfg, s, steps, id, 0);
      && turn.Some?
      && if Configured(cfg) then
           && r == Ok(Tokens(turn.value.choice.text, ph.secret, ph.snap.id))
           && TokenSigned(Final(cfg, s, steps).signed, turn.value.choice.text, ph.snap.id, ph.org, ph.snap.readAt,
                          turn.value.at.w.now)
         else r == Err(Internal)
  {
    var t, after, rest := Peel(cfg, s, steps, id);
  }

  // ---- Register ----

  /** The account as the call asked for it, in the org created with it. */
  predicate AccountMade(cfg: Config, db: Db, uid: Uuid, oid: Uuid, n: string, password: string, fullName: string) {
    && uid in db.users && db.users[uid].email == n && db.users[uid].fullName == fullName && db.users[uid].version == 0
    && cfg.matches(db.users[uid].hash, password)
    && oid in db.orgs && (uid, oid) in db.members && db.members[(uid, oid)] == "admin"
  }

  /** What a registration answers from its insert on. */
  ghost predicate InsertAnswers(cfg: Config, s: State, steps: seq<Step>, id: nat, k: nat, n: string, password: string,
        fullName: string)
    requires Ends(cfg, s, steps, id)
  {
    var r, turn := Outcome(cfg, s, steps, id), TurnOf(cfg, s, steps, id, k);
    var mint, store := TurnOf(cfg, s, steps, id, k + 1), TurnOf(cfg, s, steps, id, k + 2);
    && turn.Some? && var w, ch := turn.value.at.w, turn.value.choice;
    if ch.uid in w.db.users || EmailTaken(cfg.sql, w.db, n) then r == Err(EmailExists)
    else if ch.oid in w.db.orgs then r == Err(Internal)
    else
      && Apply(cfg, turn.value.at, Next(id, ch)).Some?
      && AccountMade(cfg, After(cfg, turn.value, id).w.db, ch.uid, ch.oid, n, password, fullName)
      && if Configured(cfg) then
           && mint.Some? && store.Some?
           && HandsOut(cfg, Final(cfg, s, steps), r, ch.uid, ch.oid, |w.log| + 1, mint.value.at.w.now,
                       store.value.at.w.now)
         else r == Err(Internal)
  }

  lemma InsertEnds(cfg: Config, s: State, steps: seq<Step>, id: nat)
    requires Reachable(cfg, s) && id in s.reqs && s.reqs[id].RegisterInsert?
    requires Ends(cfg, s, steps, id) && Unharmed(steps, id)
    ensures var ph := s.reqs[id]; InsertAnswers(cfg, s, steps, id, 0, ph.email, ph.password, ph.fullName)
  {
    var ph := s.reqs[id];
    var t, after, rest := Peel(cfg, s, steps, id);
    AccountInserted(cfg, t.at, id, ph, t.choice);
    if after.reqs[id].IssueSign? { var mint, store := IssueEnds(cfg, after, rest, id); }
  }

  lemma AccountInserted(cfg: Config, s: State, id: nat, ph: Phase, ch: Choice)
    requires Reachable(cfg, s)
    requires ph.RegisterInsert? && ch.faults == NO_FAULTS && cfg.matches(ch.hash, ph.password)
    ensures var w := s.w; var (w', ph') := Advance(cfg, w, id, ph, ch);
      if ch.uid in w.db.users || EmailTaken(cfg.sql, w.db, ph.email) then ph' == Done(Err(EmailExists))
      else if ch.oid in w.db.orgs then ph' == Done(Err(Internal))
      else
        && AccountMade(cfg, w'.db, ch.uid, ch.oid, ph.email, ph.password, ph.fullName)
        && ph'.IssueSign? && ph'.snap.id == ch.uid && ph'.org == ch.oid && ph'.snap.readAt == |w.log| + 1
  {
    ReachableTables(cfg, s);
    RegisterReports(cfg.sql, s.w.db, ch.uid, ch.oid, ph.email, ch.hash, ph.fullName, ch.faults);
    RegisterTx(cfg.sql, s.w.db, ch.uid, ch.oid, ph.email, ch.hash, ph.fullName, ch.faults);
  }

  ghost predicate RegisterAnswers(cfg: Config, s: State, steps: seq<Step>, id: nat, email: string, password: string,
        fullName: string)
    requires Ends(cfg, s, steps, id)
  {
    var r, first := Outcome(cfg, s, steps, id), TurnOf(cfg, s, steps, id, 0);
    match NormalizeEmail(cfg.go, cfg.bareAddress, email)
    case Err(e) => r == Err(e)
    case Ok(n) =>
      if !StrongPassword(cfg.go, password) then r == Err(WeakPassword)
      else
        && first.Some?
        && if EmailTaken(cfg.sql, first.value.at.w.db, n) then r == Err(EmailExists)
           else InsertAnswers(cfg, s, steps, id, 1, n, password, fullName)
  }

  /** Registration, in every run: the email's and the password's errors, then ErrEmailExists by the lookup or by
      the insert, and otherwise the account exactly as asked for, and tokens for it. */
  lemma RegisterCall(cfg: Config, s: State, id: nat, email: string, password: string, fullName: string,
          steps: seq<Step>)
    requires Served(cfg, s, id, Register(email, password, fullName), steps)
    ensures var b := Begun(cfg, s, id, Register(email, password, fullName));
      RegisterAnswers(cfg, b, steps, id, email, password, fullName)
  {
    var b := Begun(cfg, s, id, Register(email, password, fullName));
    Begins(cfg, s, id, Register(email, password, fullName), steps);
    if NormalizeEmail(cfg.go, cfg.bareAddress, email).Ok? && StrongPassword(cfg.go, password) {
      var t, after, rest := Peel(cfg, b, steps, id);
      if !after.reqs[id].Done? { InsertEnds(cfg, after, rest, id); }
    }
  }

  // ---- Changing, resetting, logging out ----

  /** u, and nobody else, has a new password, a new version and no live refresh row. */
  ghost predicate PasswordSet(cfg: Config, w: World, w': World, u: Uuid, password: string) {
    RevokedNow(w, w', u) && cfg.matches(w'.db.users[u].hash, password)
  }

  /** What the transaction that sets a password answers. */
  ghost predicate CommitAnswers(cfg: Config, s: State, steps: seq<Step>, id: nat, k: nat, u: Uuid, password: string)
    requires Ends(cfg, s, steps, id)
  {
    var r, turn := Outcome(cfg, s, steps, id), TurnOf(cfg, s, steps, id, k);
    && turn.Some? && Apply(cfg, turn.value.at, Next(id, turn.value.choice)).Some?
    && var w, w' := turn.value.at.w, After(cfg, turn.value, id).w;
    && u in w.db.users
    && if w.db.users[u].version == 0x7fff_ffff then r == Err(Internal) && w' == w
       else r == Ok(NoTokens) && PasswordSet(cfg, w, w', u, password)
  }

  lemma PasswordCommits(cfg: Config, w: World, id: nat, u: Uuid, hash: string, cause: Cause, password: string)
    requires u in w.db.users && cfg.matches(hash, password)
    ensures var (w', ph') := SetPassword(cfg, w, id, u, hash, cause, NO_FAULTS);
      if w.db.users[u].version == 0x7fff_ffff then ph' == Done(Err(Internal)) && w' == w
      else ph' == Done(Ok(NoTokens)) && PasswordSet(cfg, w, w', u, password)
  {
    SetPasswordRevokes(cfg, w, id, u, hash, cause);
    PasswordReports(cfg.sql, w.db, u, hash, NO_FAULTS);
    PasswordTx(cfg.sql, w.db, u, hash, NO_FAULTS);
  }

  lemma CommitEnds(cfg: Config, s: State, steps: seq<Step>, id: nat)
    requires Reachable(cfg, s) && id in s.reqs && (s.reqs[id].ResetCommit? || s.reqs[id].ChangeCommit?)
    requires Ends(cfg, s, steps, id) && Unharmed(steps, id)
    ensures var ph := s.reqs[id];
      CommitAnswers(cfg, s, steps, id, 0, ph.user, if ph.ResetCommit? then ph.password else ph.next)
  {
    var ph := s.reqs[id];
    var t, after, rest := Peel(cfg, s, steps, id);
    ReachablePhase(cfg, t.at, id);
    if ph.ResetCommit? {
      PasswordCommits(cfg, t.at.w, id, ph.user, t.choice.hash, ByReset(ph.key, t.choice.hash), ph.password);
    } else {
      PasswordCommits(cfg, t.at.w, id, ph.user, t.choice.hash, ByChange(t.choice.hash), ph.next);
    }
  }

  ghost predicate ComparisonAnswers(cfg: Config, s: State, steps: seq<Step>, id: nat, u: Uuid, current: string,
        next: string)
    requires Ends(cfg, s, steps, id)
  {
    var r, first := Outcome(cfg, s, steps, id), TurnOf(cfg, s, steps, id, 0);
    && first.Some? && var users := first.value.at.w.db.users;
    if u !in users then r == Err(NoRows)
    else if !cfg.matches(users[u].hash, current) then r == Err(WrongPassword)
    else CommitAnswers(cfg, s, steps, id, 1, u, next)
  }

  ghost predicate ChangeAnswers(cfg: Config, s: State, steps: seq<Step>, id: nat, userID: Option<Uuid>, current: string,
        next: string)
    requires Ends(cfg, s, steps, id)
  {
    var r := Outcome(cfg, s, steps, id);
    if !StrongPassword(cfg.go, next) then r == Err(WeakPassword)
    else if userID.None? then r == Err(InvalidToken)
    else ComparisonAnswers(cfg, s, steps, id, userID.value, current, next)
  }

  /** ChangePassword, in every run: its errors in their order, and otherwise the new password set. */
  lemma ChangePasswordCall(cfg: Config, s: State, id: nat, userID: Option<Uuid>, current: string, next: string,
          steps: seq<Step>)
    requires Served(cfg, s, id, ChangePassword(userID, current, next), steps)
    ensures var b := Begun(cfg, s, id, ChangePassword(userID, current, next));
      ChangeAnswers(cfg, b, steps, id, userID, current, next)
  {
    var b := Begun(cfg, s, id, ChangePassword(userID, current, next));
    Begins(cfg, s, id, ChangePassword(userID, current, next), steps);
    if StrongPassword(cfg.go, next) && userID.Some? { ComparisonEnds(cfg, b, steps, id); }
  }

  lemma ComparisonEnds(cfg: Config, s: State, steps: seq<Step>, id: nat)
    requires Reachable(cfg, s) && id in s.reqs && s.reqs[id].ChangeLookup?
    requires Ends(cfg, s, steps, id) && Unharmed(steps, id)
    ensures var ph := s.reqs[id]; ComparisonAnswers(cfg, s, steps, id, ph.user, ph.current, ph.next)
  {
    var t, after, rest := Peel(cfg, s, steps, id);
    if !after.reqs[id].Done? { CommitEnds(cfg, after, rest, id); }
  }

  predicate LiveKey(w: World, key: CacheKey) {
    key in w.resets && w.now < w.resets[key].expires
  }

  ghost predicate TakeAnswers(cfg: Config, s: State, steps: seq<Step>, id: nat, token: string, password: string)
    requires Ends(cfg, s, steps, id)
  {
    var r, first := Outcome(cfg, s, steps, id), TurnOf(cfg, s, steps, id, 0);
    && first.Some? && var w, key := first.value.at.w, PasswordResetCacheKey(token);
    if !LiveKey(w, key) then r == Err(InvalidToken)
    else CommitAnswers(cfg, s, steps, id, 1, w.resets[key].user, password)
  }

  ghost predicate ResetAnswers(cfg: Config, s: State, steps: seq<Step>, id: nat, token: string, password: string)
    requires Ends(cfg, s, steps, id)
  {
    if !StrongPassword(cfg.go, password) then Outcome(cfg, s, steps, id) == Err(WeakPassword)
    else TakeAnswers(cfg, s, steps, id, token, password)
  }

  /** ResetPassword, in every run: a token whose key is stored and not expired when it is presented sets the
      password of the key's user, any other is ErrInvalidToken. */
  lemma ResetPasswordCall(cfg: Config, s: State, id: nat, token: string, password: string, steps: seq<Step>)
    requires Served(cfg, s, id, ResetPassword(token, password), steps)
    ensures ResetAnswers(cfg, Begun(cfg, s, id, ResetPassword(token, password)), steps, id, token, password)
  {
    var b := Begun(cfg, s, id, ResetPassword(token, password));
    Begins(cfg, s, id, ResetPassword(token, password), steps);
    if StrongPassword(cfg.go, password) { TakeEnds(cfg, b, steps, id); }
  }

  lemma TakeEnds(cfg: Config, s: State, steps: seq<Step>, id: nat)
    requires Reachable(cfg, s) && id in s.reqs && s.reqs[id].ResetTake?
    requires Ends(cfg, s, steps, id) && Unharmed(steps, id)
    ensures TakeAnswers(cfg, s, steps, id, s.reqs[id].token, s.reqs[id].password)
  {
    var t, after, rest := Peel(cfg, s, steps, id);
    if !after.reqs[id].Done? { CommitEnds(cfg, after, rest, id); }
  }

  ghost predicate LoggedOut(w: World, w': World, d: Digest, r: Result<Grant>) {
    if !Consumable(w.db, d, w.now) then r == Ok(NoTokens) && w' == w
    else
      && var u := w.db.tokens[d].user;
      && u in w.db.users
      && if w.db.users[u].version == 0x7fff_ffff then r == Err(Internal) && w' == w
         else r == Ok(NoTokens) && RevokedNow(w, w', u) && w'.db.users[u].hash == w.db.users[u].hash
  }

  ghost predicate LogoutAnswers(cfg: Config, s: State, steps: seq<Step>, id: nat, secret: string)
    requires Ends(cfg, s, steps, id)
  {
    var first := TurnOf(cfg, s, steps, id, 0);
    && first.Some? && Apply(cfg, first.value.at, Next(id, first.value.choice)).Some?
    && LoggedOut(first.value.at.w, After(cfg, first.value, id).w, HashOpaqueToken(secret), Outcome(cfg, s, steps, id))
  }

  /** Logout, in every run: a live secret ends every session of its user, any other is answered alike and
      changes nothing. */
  lemma LogoutCall(cfg: Config, s: State, id: nat, secret: string, steps: seq<Step>)
    requires Served(cfg, s, id, Logout(secret), steps)
    ensures LogoutAnswers(cfg, Begun(cfg, s, id, Logout(secret)), steps, id, secret)
  {
    var b := Begun(cfg, s, id, Logout(secret));
    Begins(cfg, s, id, Logout(secret), steps);
    RevokeEnds(cfg, b, steps, id);
  }

  lemma RevokeEnds(cfg: Config, s: State, steps: seq<Step>, id: nat)
    requires Reachable(cfg, s) && id in s.reqs && s.reqs[id].LogoutRevoke?
    requires Ends(cfg, s, steps, id) && Unharmed(steps, id)
    ensures LogoutAnswers(cfg, s, steps, id, s.reqs[id].secret)
  {
    var t, after, rest := Peel(cfg, s, steps, id);
    ReachableTables(cfg, t.at);
    LogoutCommits(cfg, t.at.w, id, s.reqs[id].secret, t.choice);
  }

  lemma LogoutCommits(cfg: Config, w: World, id: nat, secret: string, ch: Choice)
    requires ch.faults == NO_FAULTS && TokensValid(w.db)
    ensures var (w', ph') := ConsumeAndRevoke(cfg, w, id, secret, ch);
      ph'.Done? && LoggedOut(w, w', HashOpaqueToken(secret), ph'.outcome)
  {
    var d := HashOpaqueToken(secret);
    LogoutReports(cfg.sql, w.db, d, w.now, ch.faults);
    LogoutTx(cfg.sql, w.db, d, w.now, ch.faults);
    if Consumable(w.db, d, w.now) { LogoutRevokes(cfg, w, id, secret, ch, w.db.tokens[d].user); }
  }
}
