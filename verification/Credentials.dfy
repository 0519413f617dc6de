/** What the caller of each operation had to show: over all runs, every token and every
    commit comes from a call that presented the right secret for it. */
module Credentials {
  import opened Text
  import opened Security
  import opened Schema
  import opened Transactions
  import opened Bodies
  import opened Protocol
  import opened Effects
  import opened Invariant
  import opened Steps
  import opened Runs

  /** The email, as typed, is the user's. */
  ghost predicate Named(cfg: Config, users: map<Uuid, User>, u: Uuid, email: string) {
    var n := NormalizeEmail(cfg.go, cfg.bareAddress, email);
    n.Ok? && u in users && SameEmail(cfg.sql, users[u].email, n.value)
  }

  /** The password is the one that was u's when the log had `at` entries. */
  ghost predicate Matched(cfg: Config, log: seq<Commit>, at: nat, u: Uuid, password: string) {
    && at <= |log|
    && LastHash(log[..at], u).Some? && cfg.matches(LastHash(log[..at], u).value, password)
  }

  ghost predicate MatchedBefore(cfg: Config, log: seq<Commit>, end: nat, u: Uuid, password: string) {
    exists at: nat :: at <= end && Matched(cfg, log, at, u, password)
  }

  predicate Selects(sel: Selector, org: Uuid) {
    !sel.Malformed? && (sel.Chosen? ==> sel.org == org)
  }

  /** The call has shown what it takes to act for u in this org, when the log had `at` entries: a login
      u's email and password, a registration that it created u just then, a refresh that it spent a token
      of u for the org just then. */
  ghost predicate Earned(cfg: Config, w: World, id: nat, call: Call, u: Uuid, org: Uuid, at: nat) {
    at <= |w.log| &&
    match call
    case Login(email, password, sel) =>
      Named(cfg, w.db.users, u, email) && Matched(cfg, w.log, at, u, password) && Selects(sel, org)
    case Register(_, _, _) =>
      && at > 0 && w.log[at - 1].req == id && var e := w.log[at - 1].event;
      e.SignedUp? && e.user == u && e.org == org
    case Refresh(secret) =>
      && at > 0 && w.log[at - 1].req == id && var e, d := w.log[at - 1].event, HashOpaqueToken(secret);
      && e.Rotated? && e.spent == d && e.user == u
      && d in w.db.tokens && w.db.tokens[d].user == u && w.db.tokens[d].org == org
    case _ => false
  }

  ghost predicate EarnedBefore(cfg: Config, w: World, id: nat, call: Call, u: Uuid, org: Uuid, end: nat) {
    exists at: nat :: at <= end && Earned(cfg, w, id, call, u, org, at)
  }

  /** What a stopped request has shown so far, or still carries of what its call asked for. */
  ghost predicate PhaseEarned(cfg: Config, w: World, id: nat, call: Call, ph: Phase) {
    match ph
    case RegisterLookup(email, password, _) => Asks(cfg, call, email, password)
    case RegisterInsert(email, password, _) => Asks(cfg, call, email, password)
    case LoginLookup(email, password, sel) =>
      && call.Login? && NormalizeEmail(cfg.go, cfg.bareAddress, call.email) == Ok(email)
      && password == call.password && sel == call.sel
    case LoginMembers(snap, sel) =>
      && call.Login? && sel == call.sel && Named(cfg, w.db.users, snap.id, call.email)
      && Matched(cfg, w.log, snap.readAt, snap.id, call.password)
    case IssueSign(snap, org, _) => Earned(cfg, w, id, call, snap.id, org, snap.readAt)
    case IssueStore(snap, org, text) =>
      Earned(cfg, w, id, call, snap.id, org, snap.readAt) && SignedFrom(w.signed, text, snap)
    case RefreshSign(snap, org, _, _) => Earned(cfg, w, id, call, snap.id, org, snap.readAt)
    case ForgotLookup(email) => AsksReset(cfg, call, email)
    case ForgotStore(_, email) => AsksReset(cfg, call, email)
    case ResetTake(_, password) => StrongPassword(cfg.go, password)
    case ResetCommit(_, _, password) => StrongPassword(cfg.go, password)
    case ChangeLookup(_, _, next) => StrongPassword(cfg.go, next)
    case ChangeCommit(u, next) =>
      && StrongPassword(cfg.go, next)
      && call.ChangePassword? && MatchedBefore(cfg, w.log, |w.log|, u, call.current)
    case _ => true
  }

  ghost predicate Asks(cfg: Config, call: Call, email: string, password: string) {
    && call.Register? && NormalizeEmail(cfg.go, cfg.bareAddress, call.email) == Ok(email)
    && password == call.password && StrongPassword(cfg.go, password)
  }

  ghost predicate AsksReset(cfg: Config, call: Call, email: string) {
    call.ForgotPassword? && NormalizeEmail(cfg.go, cfg.bareAddress, call.email) == Ok(email)
  }

  predicate SignedFrom(signed: map<string, Signed>, text: string, snap: Snapshot) {
    text in signed && signed[text].claims.sub == snap.id && signed[text].readAt == snap.readAt
  }

  /** The commit is one its call was entitled to: a new hash is of the strong password the call asked for,
      a change showed the old password, a session was opened for someone who earned it. */
  ghost predicate CommitEarned(cfg: Config, w: World, i: nat, call: Call)
    requires i < |w.log|
  {
    match w.log[i].event
    case SignedUp(_, _, email, hash) =>
      call.Register? && Asks(cfg, call, email, call.password) && cfg.matches(hash, call.password)
    case Opened(_, u, o) => EarnedBefore(cfg, w, w.log[i].req, call, u, o, i)
    case Rotated(_, _, _) => true
    case Revoked(u, cause) =>
      match cause
      case ByLogout(_) => true
      case ByChange(hash) =>
        && call.ChangePassword? && StrongPassword(cfg.go, call.next) && cfg.matches(hash, call.next)
        && MatchedBefore(cfg, w.log, i, u, call.current)
      case ByReset(_, hash) =>
        call.ResetPassword? && StrongPassword(cfg.go, call.password) && cfg.matches(hash, call.password)
  }

  ghost predicate TokenEarned(cfg: Config, w: World, calls: map<nat, Call>, t: Signed) {
    t.req in calls && Earned(cfg, w, t.req, calls[t.req], t.claims.sub, t.claims.org, t.readAt)
  }

  predicate Presents(call: Call, k: CacheKey) {
    call.ResetPassword? && PasswordResetCacheKey(call.token) == k
  }

  /** The reset key was stored for a call that asked for it with the email on record, and if it is taken
      then by a call that presented its token. */
  ghost predicate KeyEarned(cfg: Config, calls: map<nat, Call>, k: CacheKey, h: KeyHistory) {
    && h.asker in calls && AsksReset(cfg, calls[h.asker], h.email)
    && (h.taken.Some? ==> h.taken.value.req in calls && Presents(calls[h.taken.value.req], k))
  }

  ghost predicate KeysEarned(cfg: Config, w: World, calls: map<nat, Call>) {
    forall k :: k in w.keys ==> KeyEarned(cfg, calls, k, w.keys[k])
  }

  ghost predicate PhasesEarned(cfg: Config, s: State) {
    forall id :: id in s.reqs ==> id in s.calls && PhaseEarned(cfg, s.w, id, s.calls[id], s.reqs[id])
  }

  ghost predicate CommitsEarned(cfg: Config, w: World, calls: map<nat, Call>) {
    forall i :: 0 <= i < |w.log| ==> w.log[i].req in calls && CommitEarned(cfg, w, i, calls[w.log[i].req])
  }

  ghost predicate TokensEarned(cfg: Config, w: World, calls: map<nat, Call>) {
    forall t :: t in w.signed ==> TokenEarned(cfg, w, calls, w.signed[t])
  }

  // ---- What was shown stays shown ----

  lemma MatchedKept(cfg: Config, log: seq<Commit>, log': seq<Commit>, at: nat, u: Uuid, password: string)
    requires Matched(cfg, log, at, u, password) && log <= log'
    ensures Matched(cfg, log', at, u, password)
  {
    assert log'[..at] == log[..at];
  }

  lemma MatchedBeforeKept(cfg: Config, log: seq<Commit>, log': seq<Commit>, end: nat, u: Uuid, password: string)
    requires MatchedBefore(cfg, log, end, u, password) && log <= log'
    ensures forall later: nat :: end <= later ==> MatchedBefore(cfg, log', later, u, password)
  {
    var at: nat :| at <= end && Matched(cfg, log, at, u, password);
    MatchedKept(cfg, log, log', at, u, password);
  }

  lemma EarnedKept(cfg: Config, w: World, w': World, id: nat, call: Call, u: Uuid, org: Uuid, at: nat)
    requires Earned(cfg, w, id, call, u, org, at) && Extends(w, w')
    ensures Earned(cfg, w', id, call, u, org, at)
  {
    if call.Login? { MatchedKept(cfg, w.log, w'.log, at, u, call.password); }
    if call.Refresh? {
      var d := HashOpaqueToken(call.secret);
      assert KeepsRow(w.db.tokens[d], w'.db.tokens[d]);
    }
  }

  lemma PhaseEarnedKept(cfg: Config, w: World, w': World, id: nat, call: Call, ph: Phase)
    requires PhaseEarned(cfg, w, id, call, ph) && Extends(w, w')
    ensures PhaseEarned(cfg, w', id, call, ph)
  {
    match ph
    case LoginMembers(snap, _) => MatchedKept(cfg, w.log, w'.log, snap.readAt, snap.id, call.password);
    case IssueSign(snap, org, _) => EarnedKept(cfg, w, w', id, call, snap.id, org, snap.readAt);
    case IssueStore(snap, org, _) => EarnedKept(cfg, w, w', id, call, snap.id, org, snap.readAt);
    case RefreshSign(snap, org, _, _) => EarnedKept(cfg, w, w', id, call, snap.id, org, snap.readAt);
    case ChangeCommit(u, _) => MatchedBeforeKept(cfg, w.log, w'.log, |w.log|, u, call.current);
    case _ =>
  }

  lemma CommitEarnedKept(cfg: Config, w: World, w': World, i: nat, call: Call)
    requires i < |w.log| && CommitEarned(cfg, w, i, call) && Extends(w, w')
    ensures i < |w'.log| && CommitEarned(cfg, w', i, call)
  {
    assert w'.log[i] == w.log[i];
    match w.log[i].event
    case Opened(_, u, o) =>
      var at: nat :| at <= i && Earned(cfg, w, w.log[i].req, call, u, o, at);
      EarnedKept(cfg, w, w', w.log[i].req, call, u, o, at);
    case Revoked(u, cause) =>
      if cause.ByChange? { MatchedBeforeKept(cfg, w.log, w'.log, i, u, call.current); }
    case _ =>
  }

  // ---- What a step adds is earned ----

  /** A new key is the call's own and untaken; an old one was taken by it. */
  ghost predicate KeyChangeEarned(cfg: Config, w: World, w': World, id: nat, call: Call, k: CacheKey)
    requires k in w'.keys
  {
    var h := w'.keys[k];
    if k in w.keys then h.taken.Some? && h.taken.value.req == id && Presents(call, k)
    else h.asker == id && h.taken.None? && AsksReset(cfg, call, h.email)
  }

  /** The request's next phase, and whatever it committed, signed or stored, are earned. */
  ghost predicate StepEarned(cfg: Config, w: World, step: (World, Phase), id: nat, call: Call) {
    var (w', ph') := step;
    && w.log <= w'.log && PhaseEarned(cfg, w', id, call, ph')
    && (forall i: nat :: |w.log| <= i < |w'.log| ==> w'.log[i].req == id && CommitEarned(cfg, w', i, call))
    && (forall t :: t in w'.signed && (t in w.signed ==> w'.signed[t] != w.signed[t]) ==>
          var token := w'.signed[t];
          token.req == id && Earned(cfg, w', id, call, token.claims.sub, token.claims.org, token.readAt))
    && (forall k :: k in w'.keys && (k in w.keys ==> w'.keys[k] != w.keys[k]) ==>
          KeyChangeEarned(cfg, w, w', id, call, k))
  }

  lemma MatchedNow(cfg: Config, w: World, u: Uuid, password: string)
    requires HashesOk(w) && u in w.db.users && cfg.matches(w.db.users[u].hash, password)
    ensures Matched(cfg, w.log, |w.log|, u, password)
  {
    assert w.log[..|w.log|] == w.log;
  }

  /** A step that only reads has nothing to earn but its next phase. */
  lemma LoginReadEarns(cfg: Config, w: World, id: nat, call: Call, ph: Phase, ch: Choice)
    requires ph.LoginLookup? || ph.LoginMembers?
    requires HashesOk(w) && PhaseEarned(cfg, w, id, call, ph)
    ensures StepEarned(cfg, w, Advance(cfg, w, id, ph, ch), id, call)
  {
    var ph' := Advance(cfg, w, id, ph, ch).1;
    if ph'.LoginMembers? { MatchedNow(cfg, w, ph'.snap.id, call.password); }
    if ph.LoginMembers? && ph.sel.Chosen? { FirstIsListed(ch.rows, ph.sel.org); }
  }

  lemma ReadEarns(cfg: Config, w: World, id: nat, call: Call, ph: Phase, ch: Choice)
    requires ph.RegisterLookup? || ph.ForgotLookup? || ph.ChangeLookup?
    requires HashesOk(w) && PhaseEarned(cfg, w, id, call, ph) && Fits(call, ph)
    ensures StepEarned(cfg, w, Advance(cfg, w, id, ph, ch), id, call)
  {
    var ph' := Advance(cfg, w, id, ph, ch).1;
    if ph'.ChangeCommit? { MatchedNow(cfg, w, ph.user, call.current); }
  }

  lemma AccountEarns(cfg: Config, w: World, id: nat, call: Call, ph: Phase, ch: Choice)
    requires ph.RegisterInsert? && PhaseEarned(cfg, w, id, call, ph) && Allowed(cfg, w, ph, ch)
    ensures StepEarned(cfg, w, Advance(cfg, w, id, ph, ch), id, call)
  {
  }

  /** Nothing committed, signed or stored. */
  lemma NothingEarns(cfg: Config, w: World, id: nat, call: Call, r: Result<Grant>)
    ensures StepEarned(cfg, w, (w, Done(r)), id, call)
  {
  }

  lemma SignEarns(cfg: Config, w: World, id: nat, call: Call, snap: Snapshot, org: Uuid, role: string, text: string,
          r: Result<Grant>)
    requires Earned(cfg, w, id, call, snap.id, org, snap.readAt)
    ensures var w' := Sign(cfg, w, id, snap, org, role, text);
      StepEarned(cfg, w, (w', Done(r)), id, call) && StepEarned(cfg, w, (w', IssueStore(snap, org, text)), id, call)
  {
  }

  lemma MintEarns(cfg: Config, w: World, id: nat, call: Call, ph: Phase, ch: Choice)
    requires ph.IssueSign? || ph.RefreshSign?
    requires PhaseEarned(cfg, w, id, call, ph)
    ensures StepEarned(cfg, w, Advance(cfg, w, id, ph, ch), id, call)
  {
    var r: Result<Grant> := if ph.RefreshSign? then Ok(Tokens(ch.text, ph.secret, ph.snap.id)) else Err(Internal);
    NothingEarns(cfg, w, id, call, Err(Internal));
    SignEarns(cfg, w, id, call, ph.snap, ph.org, ph.role, ch.text, r);
  }

  lemma StoreEarns(cfg: Config, w: World, id: nat, call: Call, ph: Phase, ch: Choice)
    requires ph.IssueStore? && PhaseEarned(cfg, w, id, call, ph) && Extends(w, Advance(cfg, w, id, ph, ch).0)
    ensures StepEarned(cfg, w, Advance(cfg, w, id, ph, ch), id, call)
  {
    InsertEarns(cfg, w, id, call, ph.snap, ph.org, ph.text, ch);
  }

  lemma InsertEarns(cfg: Config, w: World, id: nat, call: Call, snap: Snapshot, org: Uuid, text: string, ch: Choice)
    requires Earned(cfg, w, id, call, snap.id, org, snap.readAt)
    requires Extends(w, InsertRefreshToken(cfg, w, id, snap, org, text, ch).0)
    ensures StepEarned(cfg, w, InsertRefreshToken(cfg, w, id, snap, org, text, ch), id, call)
  {
    var (w', ph') := InsertRefreshToken(cfg, w, id, snap, org, text, ch);
    if ph'.outcome.Err? {
      NothingEarns(cfg, w, id, call, ph'.outcome);
    } else {
      EarnedKept(cfg, w, w', id, call, snap.id, org, snap.readAt);
      CommitEarns(cfg, w, w', ph', id, Opened(HashOpaqueToken(ch.secret), snap.id, org), call);
    }
  }

  /** One more commit, earned, and nothing signed. */
  lemma CommitEarns(cfg: Config, w: World, w': World, ph': Phase, id: nat, ev: Event, call: Call)
    requires w'.log == w.log + [Commit(id, ev)] && w'.signed == w.signed && w'.keys == w.keys
    requires CommitEarned(cfg, w', |w.log|, call) && PhaseEarned(cfg, w', id, call, ph')
    ensures StepEarned(cfg, w, (w', ph'), id, call)
  {
  }

  lemma RotationEarns(cfg: Config, w: World, id: nat, call: Call, secret: string, ch: Choice)
    requires call == Refresh(secret)
    ensures StepEarned(cfg, w, RotateRefreshToken(cfg, w, id, secret, ch), id, call)
  {
    RotateOutcome(cfg, w, id, secret, ch);
    var (w', ph') := RotateRefreshToken(cfg, w, id, secret, ch);
    if ph'.RefreshSign? {
      RotationIsOnRecord(cfg, w, id, secret, ch);
      CommitEarns(cfg, w, w', ph', id, Rotated(HashOpaqueToken(secret), HashOpaqueToken(ch.secret), ph'.snap.id), call);
    } else {
      NothingEarns(cfg, w, id, call, ph'.outcome);
    }
  }

  lemma RotationIsOnRecord(cfg: Config, w: World, id: nat, secret: string, ch: Choice)
    requires RotateRefreshToken(cfg, w, id, secret, ch).1.RefreshSign?
    ensures var (w', ph') := RotateRefreshToken(cfg, w, id, secret, ch);
      && w'.log == w.log + [Commit(id, Rotated(HashOpaqueToken(secret), HashOpaqueToken(ch.secret), ph'.snap.id))]
      && w'.signed == w.signed && w'.keys == w.keys
      && Earned(cfg, w', id, Refresh(secret), ph'.snap.id, ph'.org, ph'.snap.readAt)
  {
    RotateOutcome(cfg, w, id, secret, ch);
  }

  lemma SetPasswordEarns(cfg: Config, w: World, id: nat, call: Call, u: Uuid, hash: string, cause: Cause, f: Faults)
    requires !cause.ByLogout?
    requires cause.ByChange? ==>
      && call.ChangePassword? && StrongPassword(cfg.go, call.next) && cfg.matches(cause.hash, call.next)
      && MatchedBefore(cfg, w.log, |w.log|, u, call.current)
    requires cause.ByReset? ==>
      call.ResetPassword? && StrongPassword(cfg.go, call.password) && cfg.matches(cause.hash, call.password)
    ensures StepEarned(cfg, w, SetPassword(cfg, w, id, u, hash, cause, f), id, call)
  {
    var (w', ph') := SetPassword(cfg, w, id, u, hash, cause, f);
    if cause.ByChange? && w.log <= w'.log { MatchedBeforeKept(cfg, w.log, w'.log, |w.log|, u, call.current); }
    if |w'.log| > |w.log| { CommitEarns(cfg, w, w', ph', id, Revoked(u, cause), call); }
  }

  lemma PasswordEarns(cfg: Config, w: World, id: nat, call: Call, ph: Phase, ch: Choice)
    requires ph.ResetCommit? || ph.ChangeCommit?
    requires PhaseEarned(cfg, w, id, call, ph) && Allowed(cfg, w, ph, ch) && Fits(call, ph)
    ensures StepEarned(cfg, w, Advance(cfg, w, id, ph, ch), id, call)
  {
    var cause := if ph.ResetCommit? then ByReset(ph.key, ch.hash) else ByChange(ch.hash);
    SetPasswordEarns(cfg, w, id, call, ph.user, ch.hash, cause, ch.faults);
  }

  lemma LogoutEarns(cfg: Config, w: World, id: nat, call: Call, secret: string, ch: Choice)
    ensures StepEarned(cfg, w, ConsumeAndRevoke(cfg, w, id, secret, ch), id, call)
  {
    var (w', ph') := ConsumeAndRevoke(cfg, w, id, secret, ch);
    var d := HashOpaqueToken(secret);
    var r := WithTx(cfg.sql, w.db, LogoutBody(d, w.now), ch.faults).1;
    if r.Ok? && r.value.Some? { CommitEarns(cfg, w, w', ph', id, Revoked(r.value.value, ByLogout(d)), call); }
  }

  lemma ResetKeyEarns(cfg: Config, w: World, id: nat, call: Call, ph: Phase, ch: Choice)
    requires ph.ForgotStore? || ph.ResetTake?
    requires PhaseEarned(cfg, w, id, call, ph) && Fits(call, ph) && Allowed(cfg, w, ph, ch)
    ensures StepEarned(cfg, w, Advance(cfg, w, id, ph, ch), id, call)
  {
  }

  lemma EveryStepEarns(cfg: Config, w: World, id: nat, call: Call, ph: Phase, ch: Choice)
    requires !ph.Done? && HashesOk(w) && Extends(w, Advance(cfg, w, id, ph, ch).0)
    requires PhaseEarned(cfg, w, id, call, ph) && Fits(call, ph) && Allowed(cfg, w, ph, ch)
    ensures StepEarned(cfg, w, Advance(cfg, w, id, ph, ch), id, call)
  {
    if ph.LoginLookup? || ph.LoginMembers? {
      LoginReadEarns(cfg, w, id, call, ph, ch);
    } else if ph.RegisterLookup? || ph.ForgotLookup? || ph.ChangeLookup? {
      ReadEarns(cfg, w, id, call, ph, ch);
    } else if ph.RegisterInsert? {
      AccountEarns(cfg, w, id, call, ph, ch);
    } else if ph.IssueSign? || ph.RefreshSign? {
      MintEarns(cfg, w, id, call, ph, ch);
    } else if ph.IssueStore? {
      StoreEarns(cfg, w, id, call, ph, ch);
    } else if ph.RefreshRotate? {
      RotationEarns(cfg, w, id, call, ph.secret, ch);
    } else if ph.ResetCommit? || ph.ChangeCommit? {
      PasswordEarns(cfg, w, id, call, ph, ch);
    } else if ph.LogoutRevoke? {
      LogoutEarns(cfg, w, id, call, ph.secret, ch);
    } else {
      ResetKeyEarns(cfg, w, id, call, ph, ch);
    }
  }

  lemma BeginEarns(cfg: Config, w: World, id: nat, call: Call)
    ensures PhaseEarned(cfg, w, id, call, Begin(cfg, call))
  {
  }

  // ---- Over runs ----

  ghost predicate HistoryEarned(cfg: Config, w: World, calls: map<nat, Call>) {
    CommitsEarned(cfg, w, calls) && TokensEarned(cfg, w, calls) && KeysEarned(cfg, w, calls)
  }

  /** Everything reached, committed and signed so far was earned. */
  ghost predicate AllEarned(cfg: Config, s: State) {
    PhasesEarned(cfg, s) && HistoryEarned(cfg, s.w, s.calls)
  }

  lemma PhasesStayEarned(cfg: Config, s: State, step: Step)
    requires PhasesEarned(cfg, s) && Apply(cfg, s, step).Some?
    requires Extends(s.w, Apply(cfg, s, step).value.w)
    requires step.Next? ==>
      StepEarned(cfg, s.w, Advance(cfg, s.w, step.id, s.reqs[step.id], step.choice), step.id, s.calls[step.id])
    ensures PhasesEarned(cfg, Apply(cfg, s, step).value)
  {
    var s' := Apply(cfg, s, step).value;
    forall id | id in s'.reqs ensures id in s'.calls && PhaseEarned(cfg, s'.w, id, s'.calls[id], s'.reqs[id]) {
      if id in s.reqs && s'.reqs[id] == s.reqs[id] {
        PhaseEarnedKept(cfg, s.w, s'.w, id, s.calls[id], s.reqs[id]);
      } else if step.Start? {
        BeginEarns(cfg, s.w, id, step.call);
      }
    }
  }

  lemma CommitsStayEarned(cfg: Config, w: World, w': World, id: nat, calls: map<nat, Call>, calls': map<nat, Call>)
    requires CommitsEarned(cfg, w, calls) && Extends(w, w')
    requires forall k :: k in calls ==> k in calls' && calls'[k] == calls[k]
    requires w'.log == w.log ||
      (id in calls && forall i: nat :: |w.log| <= i < |w'.log| ==>
        w'.log[i].req == id && CommitEarned(cfg, w', i, calls[id]))
    ensures CommitsEarned(cfg, w', calls')
  {
    forall i | 0 <= i < |w'.log| ensures w'.log[i].req in calls' && CommitEarned(cfg, w', i, calls'[w'.log[i].req]) {
      if i < |w.log| {
        assert w'.log[i] == w.log[i];
        CommitEarnedKept(cfg, w, w', i, calls[w.log[i].req]);
      }
    }
  }

  lemma TokensStayEarned(cfg: Config, w: World, w': World, id: nat, calls: map<nat, Call>, calls': map<nat, Call>)
    requires TokensEarned(cfg, w, calls) && Extends(w, w')
    requires forall k :: k in calls ==> k in calls' && calls'[k] == calls[k]
    requires w'.signed == w.signed || (id in calls && forall t :: t in w'.signed && t !in w.signed ==>
      var token := w'.signed[t];
      token.req == id && Earned(cfg, w', id, calls[id], token.claims.sub, token.claims.org, token.readAt))
    ensures TokensEarned(cfg, w', calls')
  {
    forall t | t in w'.signed ensures TokenEarned(cfg, w', calls', w'.signed[t]) {
      if t in w.signed {
        var token := w.signed[t];
        assert TokenEarned(cfg, w, calls, token);
        EarnedKept(cfg, w, w', token.req, calls[token.req], token.claims.sub, token.claims.org, token.readAt);
      }
    }
  }

  lemma KeysStayEarned(cfg: Config, w: World, w': World, id: nat, calls: map<nat, Call>, calls': map<nat, Call>)
    requires KeysEarned(cfg, w, calls) && Extends(w, w')
    requires forall k :: k in calls ==> k in calls' && calls'[k] == calls[k]
    requires w'.keys == w.keys ||
      (id in calls && forall k :: k in w'.keys && (k in w.keys ==> w'.keys[k] != w.keys[k]) ==>
      KeyChangeEarned(cfg, w, w', id, calls[id], k))
    ensures KeysEarned(cfg, w', calls')
  {
    forall k | k in w'.keys ensures KeyEarned(cfg, calls', k, w'.keys[k]) {
      if k in w.keys {
        assert KeyEarned(cfg, calls, k, w.keys[k]) && KeepsKey(w.keys[k], w'.keys[k]);
      }
    }
  }

  lemma RequestEarns(cfg: Config, s: State, id: nat, ch: Choice)
    requires HashesOk(s.w) && FitsOk(s.calls, s.reqs) && PhasesEarned(cfg, s)
    requires id in s.reqs && !s.reqs[id].Done? && Allowed(cfg, s.w, s.reqs[id], ch)
    requires Extends(s.w, Advance(cfg, s.w, id, s.reqs[id], ch).0)
    ensures id in s.calls && StepEarned(cfg, s.w, Advance(cfg, s.w, id, s.reqs[id], ch), id, s.calls[id])
  {
    EveryStepEarns(cfg, s.w, id, s.calls[id], s.reqs[id], ch);
  }

  lemma HistoryStaysEarned(cfg: Config, s: State, step: Step)
    requires HistoryEarned(cfg, s.w, s.calls) && Apply(cfg, s, step).Some?
    requires Extends(s.w, Apply(cfg, s, step).value.w) && (step.Start? ==> step.id !in s.calls)
    requires step.Next? ==>
      && step.id in s.calls
      && StepEarned(cfg, s.w, Advance(cfg, s.w, step.id, s.reqs[step.id], step.choice), step.id, s.calls[step.id])
    ensures var s' := Apply(cfg, s, step).value; HistoryEarned(cfg, s'.w, s'.calls)
  {
    var s' := Apply(cfg, s, step).value;
    CommitsStayEarned(cfg, s.w, s'.w, Actor(step), s.calls, s'.calls);
    TokensStayEarned(cfg, s.w, s'.w, Actor(step), s.calls, s'.calls);
    KeysStayEarned(cfg, s.w, s'.w, Actor(step), s.calls, s'.calls);
  }

  lemma AllStaysEarned(cfg: Config, s: State, step: Step)
    requires HashesOk(s.w) && FitsOk(s.calls, s.reqs) && AllEarned(cfg, s) && Apply(cfg, s, step).Some?
    requires Extends(s.w, Apply(cfg, s, step).value.w)
    ensures AllEarned(cfg, Apply(cfg, s, step).value)
  {
    if step.Next? { RequestEarns(cfg, s, step.id, step.choice); }
    PhasesStayEarned(cfg, s, step);
    HistoryStaysEarned(cfg, s, step);
  }

  lemma {:induction false} RunEarns(cfg: Config, s: State, steps: seq<Step>)
    requires StateOk(cfg, s) && AllEarned(cfg, s) && Exec(cfg, s, steps).Some?
    ensures AllEarned(cfg, Exec(cfg, s, steps).value)
    decreases |steps|
  {
    if steps != [] {
      StateKept(cfg, s, steps[0]);
      AllStaysEarned(cfg, s, steps[0]);
      RunEarns(cfg, Apply(cfg, s, steps[0]).value, steps[1..]);
    }
  }

  lemma ReachableEarned(cfg: Config, s: State)
    requires Reachable(cfg, s)
    ensures AllEarned(cfg, s)
  {
    var steps :| Exec(cfg, INIT, steps) == Some(s);
    InitOk(cfg);
    RunEarns(cfg, INIT, steps);
  }

  /** Every access token ever signed was earned: its login named the user by email and by the password that
      was the user's when the row was read, its registration had just created the user and the org, or its
      refresh had just spent a token of that user for that org. */
  lemma TokensAreEarned(cfg: Config, s: State, text: string)
    requires Reachable(cfg, s) && text in s.w.signed
    ensures var t := s.w.signed[text];
      t.req in s.calls && Earned(cfg, s.w, t.req, s.calls[t.req], t.claims.sub, t.claims.org, t.readAt)
  {
    ReachableEarned(cfg, s);
    assert TokenEarned(cfg, s.w, s.calls, s.w.signed[text]);
  }

  /** Every commit was earned: a new hash is of the strong password its call asked for, a password change
      showed a password the user had before, and a session was opened for whom a login or registration earned it. */
  lemma CommitsAreEarned(cfg: Config, s: State, i: nat)
    requires Reachable(cfg, s) && i < |s.w.log|
    ensures s.w.log[i].req in s.calls && CommitEarned(cfg, s.w, i, s.calls[s.w.log[i].req])
  {
    ReachableEarned(cfg, s);
  }

  /** Every reset key was asked for by a call that gave the email on record, and is taken by nobody but a
      call that presents its token. */
  lemma KeysAreEarned(cfg: Config, s: State, k: CacheKey)
    requires Reachable(cfg, s) && k in s.w.keys
    ensures var h := s.w.keys[k];
      && h.asker in s.calls && s.calls[h.asker].ForgotPassword?
      && Named(cfg, s.w.db.users, h.user, s.calls[h.asker].email)
      && (h.taken.Some? ==> h.taken.value.req in s.calls && Presents(s.calls[h.taken.value.req], k))
  {
    ReachableEarned(cfg, s);
    ReachableKeys(cfg, s);
    assert KeyEarned(cfg, s.calls, k, s.w.keys[k]) && KeyOk(cfg, s.w, s.w.keys[k]);
  }
}
