/** The refresh-token table, with its digests, revoked flags and history, behaves as a store of
    sessions, each with one current secret and a deadline; and rotation families are chains. */
module Sessions {
  import opened Text
  import opened Security
  import opened Schema
  import opened Transactions
  import opened Bodies
  import opened Protocol
  import opened Effects
  import opened Invariant
  import opened Steps
  import opened Runs

  // ---- The abstract store ----

  datatype Session = Session(user: Uuid, org: Uuid, secret: Digest, deadline: int)

  /** Live sessions by the digest they were opened with. */
  type Store = map<Digest, Session>

  datatype Action =
    | OpenOne(root: Digest, user: Uuid, org: Uuid, deadline: int)
    | RefreshOne(presented: Digest, replacement: Digest, deadline: int, now: int)
    | LogoutOf(presented: Digest, now: int)
    | EndAll(user: Uuid)
    | NoAction

  ghost predicate Current(a: Store, root: Digest, presented: Digest, now: int) {
    root in a && a[root].secret == presented && now < a[root].deadline
  }

  /** A presented secret works while it is some session's current secret and its deadline is ahead. */
  ghost predicate Works(a: Store, presented: Digest, now: int) {
    exists root :: Current(a, root, presented, now)
  }

  ghost function SessionOf(a: Store, presented: Digest, now: int): (root: Digest)
    requires Works(a, presented, now)
    ensures Current(a, root, presented, now)
  {
    var root :| Current(a, root, presented, now); root
  }

  function Without(a: Store, u: Uuid): Store {
    map r | r in a && a[r].user != u :: a[r]
  }

  /** The specification: refreshing replaces one secret and moves one deadline, logging out ends every
      session of the user; a secret that does not work changes nothing. */
  ghost function Act(a: Store, act: Action): Store {
    match act
    case OpenOne(root, user, org, deadline) => a[root := Session(user, org, root, deadline)]
    case RefreshOne(presented, replacement, deadline, now) =>
      if Works(a, presented, now) then
        var root := SessionOf(a, presented, now);
        a[root := a[root].(secret := replacement, deadline := deadline)]
      else a
    case LogoutOf(presented, now) =>
      if Works(a, presented, now) then Without(a, a[SessionOf(a, presented, now)].user) else a
    case EndAll(user) => Without(a, user)
    case NoAction => a
  }

  ghost predicate SecretsDistinct(a: Store) {
    forall r, q :: r in a && q in a && a[r].secret == a[q].secret ==> r == q
  }

  /** What rotation means to a client: the old secret stops working at once, the new one works until
      its deadline, and every other secret works as before. */
  lemma RefreshedSecrets(a: Store, presented: Digest, replacement: Digest, deadline: int, now: int, other: Digest,
          later: int)
    requires SecretsDistinct(a) && Works(a, presented, now)
    requires forall r :: r in a ==> a[r].secret != replacement
    ensures var a' := Act(a, RefreshOne(presented, replacement, deadline, now));
      && SecretsDistinct(a') && !Works(a', presented, later)
      && (Works(a', replacement, later) <==> later < deadline)
      && (other != presented && other != replacement ==> (Works(a', other, later) <==> Works(a, other, later)))
  {
    var root, a' := SessionOf(a, presented, now), Act(a, RefreshOne(presented, replacement, deadline, now));
    assert forall r :: r in a' && r != root ==> a'[r] == a[r];
    assert later < deadline ==> Current(a', root, replacement, later);
    if other != presented && other != replacement {
      if Works(a, other, later) { assert Current(a', SessionOf(a, other, later), other, later); }
      if Works(a', other, later) { assert Current(a, SessionOf(a', other, later), other, later); }
    }
  }

  // ---- What a step of the protocol asks of it ----

  ghost function ActionOf(cfg: Config, s: State, step: Step): Action {
    if !step.Next? || step.id !in s.reqs || s.reqs[step.id].Done? then NoAction
    else RequestAction(cfg, s.w, step.id, s.reqs[step.id], step.choice)
  }

  /** A refresh or logout that the infrastructure lets through presents its secret to the store;
      the store alone decides what comes of it. */
  ghost function RequestAction(cfg: Config, w: World, id: nat, ph: Phase, ch: Choice): Action
    requires !ph.Done?
  {
    var next := Advance(cfg, w, id, ph, ch).1;
    match ph
    case IssueStore(snap, org, _) => OpenOne(HashOpaqueToken(ch.secret), snap.id, org, w.now + cfg.refreshExpiry)
    case RefreshRotate(secret) =>
      if ch.faults == NO_FAULTS || next.RefreshSign? then
        RefreshOne(HashOpaqueToken(secret), HashOpaqueToken(ch.secret), w.now + cfg.refreshExpiry, w.now)
      else NoAction
    case LogoutRevoke(secret) =>
      if next == Done(Ok(NoTokens)) then LogoutOf(HashOpaqueToken(secret), w.now) else NoAction
    case ResetCommit(_, u, _) => if next == Done(Ok(NoTokens)) then EndAll(u) else NoAction
    case ChangeCommit(u, _) => if next == Done(Ok(NoTokens)) then EndAll(u) else NoAction
    case _ => NoAction
  }

  ghost function AbsRun(cfg: Config, s: State, steps: seq<Step>, a: Store): Store
    requires Exec(cfg, s, steps).Some?
    decreases |steps|
  {
    if steps == [] then a
    else AbsRun(cfg, Apply(cfg, s, steps[0]).value, steps[1..], Act(a, ActionOf(cfg, s, steps[0])))
  }

  // ---- The simulation ----

  /** Session r of the store is row `secret` of the table. */
  predicate SessionIsRow(tokens: map<Digest, Row>, lineage: map<Digest, Origin>, a: Store, r: Digest)
    requires r in a
  {
    var d := a[r].secret;
    && d in tokens && tokens[d] == Row(a[r].user, a[r].org, a[r].deadline, false)
    && d in lineage && lineage[d].root == r
  }

  predicate RowIsSession(tokens: map<Digest, Row>, lineage: map<Digest, Origin>, a: Store, d: Digest)
    requires d in tokens
  {
    !tokens[d].revoked ==> d in lineage && lineage[d].root in a && a[lineage[d].root].secret == d
  }

  /** Sessions and live rows are the same thing, one current secret each. */
  ghost predicate Simulates(tokens: map<Digest, Row>, lineage: map<Digest, Origin>, a: Store) {
    && (forall r {:trigger SessionIsRow(tokens, lineage, a, r)} :: r in a ==> SessionIsRow(tokens, lineage, a, r))
    && (forall d {:trigger RowIsSession(tokens, lineage, a, d)} :: d in tokens ==> RowIsSession(tokens, lineage, a, d))
  }

  /** The verdicts agree: ConsumeRefreshToken finds a row exactly when the secret works. */
  lemma WorksIsConsumable(db: Db, lineage: map<Digest, Origin>, a: Store, d: Digest, now: int)
    requires Simulates(db.tokens, lineage, a)
    ensures Works(a, d, now) <==> Consumable(db, d, now)
    ensures Works(a, d, now) ==> d in lineage && SessionOf(a, d, now) == lineage[d].root
  {
    if Consumable(db, d, now) {
      assert RowIsSession(db.tokens, lineage, a, d);
      var r := lineage[d].root;
      assert SessionIsRow(db.tokens, lineage, a, r);
      assert Current(a, r, d, now);
    }
    if Works(a, d, now) {
      var r := SessionOf(a, d, now);
      assert SessionIsRow(db.tokens, lineage, a, r);
    }
  }

  lemma OpenSimulated(w: World, e: Effect, a: Store)
    requires Simulates(w.db.tokens, w.lineage, a) && e.Open? && e.digest !in w.db.tokens
    requires w.lineage.Keys == w.db.tokens.Keys && RootsKnown(w.lineage)
    ensures Simulates(TokensAfter(w.db.tokens, e), LineageAfter(w, e),
                      Act(a, OpenOne(e.digest, e.owner, e.scope, e.expires)))
  {
    var t', l' := TokensAfter(w.db.tokens, e), LineageAfter(w, e);
    var a' := Act(a, OpenOne(e.digest, e.owner, e.scope, e.expires));
    forall r | r in a' ensures SessionIsRow(t', l', a', r) {
      if r != e.digest { assert SessionIsRow(w.db.tokens, w.lineage, a, r); }
    }
    forall d | d in t' ensures RowIsSession(t', l', a', d) {
      if d != e.digest { assert RowIsSession(w.db.tokens, w.lineage, a, d) && RootKnown(w.lineage, d); }
    }
  }

  lemma RotateSimulated(w: World, e: Effect, a: Store, now: int)
    requires Simulates(w.db.tokens, w.lineage, a) && e.Rotate?
    requires Consumable(w.db, e.spent, now) && e.minted !in w.db.tokens
    requires w.lineage.Keys == w.db.tokens.Keys
    ensures var a' := Act(a, RefreshOne(e.spent, e.minted, e.deadline, now));
      Simulates(TokensAfter(w.db.tokens, e), LineageAfter(w, e), a')
  {
    WorksIsConsumable(w.db, w.lineage, a, e.spent, now);
    var t', l' := TokensAfter(w.db.tokens, e), LineageAfter(w, e);
    var a', root := Act(a, RefreshOne(e.spent, e.minted, e.deadline, now)), w.lineage[e.spent].root;
    assert SessionIsRow(w.db.tokens, w.lineage, a, root);
    forall r | r in a' ensures SessionIsRow(t', l', a', r) {
      assert SessionIsRow(w.db.tokens, w.lineage, a, r);
    }
    forall d | d in t' ensures RowIsSession(t', l', a', d) {
      if d in w.db.tokens { assert RowIsSession(w.db.tokens, w.lineage, a, d); }
    }
  }

  lemma RevokeSimulated(w: World, e: Effect, a: Store)
    requires Simulates(w.db.tokens, w.lineage, a) && e.Revoke?
    ensures Simulates(TokensAfter(w.db.tokens, e), LineageAfter(w, e), Without(a, e.victim))
  {
    var t', l', a' := TokensAfter(w.db.tokens, e), LineageAfter(w, e), Without(a, e.victim);
    forall r | r in a' ensures SessionIsRow(t', l', a', r) {
      assert SessionIsRow(w.db.tokens, w.lineage, a, r);
    }
    forall d | d in t' ensures RowIsSession(t', l', a', d) {
      assert RowIsSession(w.db.tokens, w.lineage, a, d);
      if !t'[d].revoked { assert SessionIsRow(w.db.tokens, w.lineage, a, w.lineage[d].root); }
    }
  }

  lemma RefreshSimulated(cfg: Config, w: World, id: nat, secret: string, ch: Choice, a: Store)
    requires Simulates(w.db.tokens, w.lineage, a) && w.lineage.Keys == w.db.tokens.Keys
    requires ch.faults == NO_FAULTS ==>
      (RotateRefreshToken(cfg, w, id, secret, ch).1.RefreshSign? <==> Consumable(w.db, HashOpaqueToken(secret), w.now))
    ensures var w' := RotateRefreshToken(cfg, w, id, secret, ch).0;
      Simulates(w'.db.tokens, w'.lineage, Act(a, RequestAction(cfg, w, id, RefreshRotate(secret), ch)))
  {
    RotateOutcome(cfg, w, id, secret, ch);
    WorksIsConsumable(w.db, w.lineage, a, HashOpaqueToken(secret), w.now);
    if RotateRefreshToken(cfg, w, id, secret, ch).1.RefreshSign? {
      CommittedRefreshSimulated(cfg, w, id, secret, ch, a);
    }
  }

  lemma CommittedRefreshSimulated(cfg: Config, w: World, id: nat, secret: string, ch: Choice, a: Store)
    requires Simulates(w.db.tokens, w.lineage, a) && w.lineage.Keys == w.db.tokens.Keys
    requires RotateRefreshToken(cfg, w, id, secret, ch).1.RefreshSign?
    ensures var w' := RotateRefreshToken(cfg, w, id, secret, ch).0;
      var act := RefreshOne(HashOpaqueToken(secret), HashOpaqueToken(ch.secret), w.now + cfg.refreshExpiry, w.now);
      Simulates(w'.db.tokens, w'.lineage, Act(a, act))
  {
    var spent, minted, expires := HashOpaqueToken(secret), HashOpaqueToken(ch.secret), w.now + cfg.refreshExpiry;
    RotateOutcome(cfg, w, id, secret, ch);
    RotateIsEffect(cfg, w, id, spent, minted, expires);
    RotateSimulated(w, Rotate(spent, minted, expires), a, w.now);
  }

  lemma LogoutSimulated(cfg: Config, w: World, id: nat, secret: string, ch: Choice, a: Store)
    requires Simulates(w.db.tokens, w.lineage, a) && TokensValid(w.db)
    ensures var w' := ConsumeAndRevoke(cfg, w, id, secret, ch).0;
      Simulates(w'.db.tokens, w'.lineage, Act(a, RequestAction(cfg, w, id, LogoutRevoke(secret), ch)))
  {
    var d := HashOpaqueToken(secret);
    LogoutTx(cfg.sql, w.db, d, w.now, ch.faults);
    WorksIsConsumable(w.db, w.lineage, a, d, w.now);
    if Consumable(w.db, d, w.now) {
      SessionUser(w, a, d);
      RevokeSimulated(w, Revoke(w.db.tokens[d].user, ByLogout(d)), a);
    }
  }

  lemma SessionUser(w: World, a: Store, d: Digest)
    requires Simulates(w.db.tokens, w.lineage, a) && Works(a, d, w.now)
    ensures d in w.db.tokens && a[SessionOf(a, d, w.now)].user == w.db.tokens[d].user
  {
    assert SessionIsRow(w.db.tokens, w.lineage, a, SessionOf(a, d, w.now));
  }

  lemma PasswordSimulated(cfg: Config, w: World, id: nat, u: Uuid, hash: string, cause: Cause, f: Faults, a: Store)
    requires Simulates(w.db.tokens, w.lineage, a) && u in w.db.users
    ensures var (w', ph') := SetPassword(cfg, w, id, u, hash, cause, f);
      Simulates(w'.db.tokens, w'.lineage, Act(a, if ph' == Done(Ok(NoTokens)) then EndAll(u) else NoAction))
  {
    PasswordTx(cfg.sql, w.db, u, hash, f);
    RevokeSimulated(w, Revoke(u, cause), a);
  }

  lemma StoreSimulated(cfg: Config, w: World, id: nat, snap: Snapshot, org: Uuid, text: string, ch: Choice, a: Store)
    requires Simulates(w.db.tokens, w.lineage, a) && w.lineage.Keys == w.db.tokens.Keys && RootsKnown(w.lineage)
    requires HashOpaqueToken(ch.secret) !in w.db.tokens && snap.id in w.db.users && org in w.db.orgs
    ensures var w' := InsertRefreshToken(cfg, w, id, snap, org, text, ch).0;
      var act := OpenOne(HashOpaqueToken(ch.secret), snap.id, org, w.now + cfg.refreshExpiry);
      Simulates(w'.db.tokens, w'.lineage, Act(a, act))
  {
    OpenSimulated(w, Open(HashOpaqueToken(ch.secret), snap.id, org, w.now + cfg.refreshExpiry), a);
  }

  /** The other steps do not touch refresh rows. */
  lemma OthersKeepRows(cfg: Config, w: World, id: nat, ph: Phase, ch: Choice)
    requires !ph.Done? && !ph.IssueStore? && !ph.RefreshRotate? && !ph.LogoutRevoke? && !ph.ResetCommit?
    requires !ph.ChangeCommit?
    ensures var w' := Advance(cfg, w, id, ph, ch).0; w'.db.tokens == w.db.tokens && w'.lineage == w.lineage
  {
    if ph.RegisterInsert? {
      RegisterTx(cfg.sql, w.db, ch.uid, ch.oid, ph.email, ch.hash, ph.fullName, ch.faults);
    }
  }

  /** One step of one request against one action of the store. */
  lemma StoreStepSimulated(cfg: Config, w: World, id: nat, ph: Phase, ch: Choice, a: Store)
    requires Simulates(w.db.tokens, w.lineage, a) && w.lineage.Keys == w.db.tokens.Keys && RootsKnown(w.lineage)
    requires MembersValid(w.db) && ph.IssueStore? && (ph.snap.id, ph.org) in w.db.members
    requires HashOpaqueToken(ch.secret) !in w.db.tokens
    ensures var w' := Advance(cfg, w, id, ph, ch).0;
      Simulates(w'.db.tokens, w'.lineage, Act(a, RequestAction(cfg, w, id, ph, ch)))
  {
    StoreSimulated(cfg, w, id, ph.snap, ph.org, ph.text, ch, a);
  }

  lemma PasswordStepSimulated(cfg: Config, w: World, id: nat, ph: Phase, ch: Choice, a: Store)
    requires Simulates(w.db.tokens, w.lineage, a) && (ph.ResetCommit? || ph.ChangeCommit?) && ph.user in w.db.users
    ensures var w' := Advance(cfg, w, id, ph, ch).0;
      Simulates(w'.db.tokens, w'.lineage, Act(a, RequestAction(cfg, w, id, ph, ch)))
  {
    var cause := if ph.ResetCommit? then ByReset(ph.key, ch.hash) else ByChange(ch.hash);
    PasswordSimulated(cfg, w, id, ph.user, ch.hash, cause, ch.faults, a);
  }

  lemma RequestSimulated(cfg: Config, w: World, id: nat, ph: Phase, ch: Choice, a: Store)
    requires Simulates(w.db.tokens, w.lineage, a) && w.lineage.Keys == w.db.tokens.Keys && RootsKnown(w.lineage)
    requires TokensValid(w.db) && MembersValid(w.db) && !ph.Done? && Allowed(cfg, w, ph, ch) && PhaseOk(cfg, w, id, ph)
    requires ph.RefreshRotate? && ch.faults == NO_FAULTS ==>
      (Advance(cfg, w, id, ph, ch).1.RefreshSign? <==> Consumable(w.db, HashOpaqueToken(ph.secret), w.now))
    ensures var w' := Advance(cfg, w, id, ph, ch).0;
      Simulates(w'.db.tokens, w'.lineage, Act(a, RequestAction(cfg, w, id, ph, ch)))
  {
    if ph.IssueStore? {
      StoreStepSimulated(cfg, w, id, ph, ch, a);
    } else if ph.RefreshRotate? {
      RefreshSimulated(cfg, w, id, ph.secret, ch, a);
    } else if ph.LogoutRevoke? {
      LogoutSimulated(cfg, w, id, ph.secret, ch, a);
    } else if ph.ResetCommit? || ph.ChangeCommit? {
      PasswordStepSimulated(cfg, w, id, ph, ch, a);
    } else {
      OthersKeepRows(cfg, w, id, ph, ch);
    }
  }

  lemma ReachableRows(cfg: Config, s: State)
    requires Reachable(cfg, s)
    ensures s.w.lineage.Keys == s.w.db.tokens.Keys && RootsKnown(s.w.lineage)
  {
    ReachableLineage(cfg, s);
    forall d | d in s.w.lineage ensures RootKnown(s.w.lineage, d) { assert OriginOk(s.w, d); }
  }

  lemma RotationDecided(cfg: Config, w: World, id: nat, secret: string, ch: Choice)
    requires HashOpaqueToken(ch.secret) !in w.db.tokens && ch.faults == NO_FAULTS
    requires var d := HashOpaqueToken(secret);
      Consumable(w.db, d, w.now) ==> CanRefresh(w.db, d, HashOpaqueToken(ch.secret), w.now)
    ensures var (w', ph') := RotateRefreshToken(cfg, w, id, secret, ch);
      if Consumable(w.db, HashOpaqueToken(secret), w.now) then ph'.RefreshSign?
      else w' == w && ph' == Done(Err(InvalidToken))
  {
    RefreshTx(cfg.sql, w.db, HashOpaqueToken(secret), HashOpaqueToken(ch.secret),
              w.now, w.now + cfg.refreshExpiry, ch.faults);
  }

  /** Refresh completeness: in a reachable state, and without infrastructure failures, a refresh commits
      exactly when its token is stored, not revoked and not expired; otherwise it reports ErrInvalidToken. */
  lemma RefreshDecided(cfg: Config, s: State, id: nat, secret: string, ch: Choice)
    requires Reachable(cfg, s) && Allowed(cfg, s.w, RefreshRotate(secret), ch)
    ensures var (w', ph') := Advance(cfg, s.w, id, RefreshRotate(secret), ch);
      ch.faults == NO_FAULTS ==>
        if Consumable(s.w.db, HashOpaqueToken(secret), s.w.now) then ph'.RefreshSign?
        else w' == s.w && ph' == Done(Err(InvalidToken))
  {
    ReachableTables(cfg, s);
    if ch.faults == NO_FAULTS { RotationDecided(cfg, s.w, id, secret, ch); }
  }

  lemma StepSimulated(cfg: Config, s: State, step: Step, a: Store)
    requires Reachable(cfg, s) && Apply(cfg, s, step).Some? && Simulates(s.w.db.tokens, s.w.lineage, a)
    ensures var w' := Apply(cfg, s, step).value.w; Simulates(w'.db.tokens, w'.lineage, Act(a, ActionOf(cfg, s, step)))
  {
    if step.Next? {
      ReachablePhase(cfg, s, step.id);
      ReachableTables(cfg, s);
      ReachableRows(cfg, s);
      if s.reqs[step.id].RefreshRotate? { RefreshDecided(cfg, s, step.id, s.reqs[step.id].secret, step.choice); }
      RequestSimulated(cfg, s.w, step.id, s.reqs[step.id], step.choice, a);
    }
  }

  /** Refinement, over every run and interleaving: starting together, table and store stay the same
      set of sessions, and from then on they give the same verdict on every presented secret. */
  lemma {:induction false} TableRefinesStore(cfg: Config, s: State, steps: seq<Step>, a: Store)
    requires Reachable(cfg, s) && Exec(cfg, s, steps).Some? && Simulates(s.w.db.tokens, s.w.lineage, a)
    ensures var w', a' := Exec(cfg, s, steps).value.w, AbsRun(cfg, s, steps, a);
      && Simulates(w'.db.tokens, w'.lineage, a')
      && forall d: Digest, now: int :: Works(a', d, now) <==> Consumable(w'.db, d, now)
    decreases |steps|
  {
    if steps == [] {
      forall d: Digest, now: int ensures Works(a, d, now) <==> Consumable(s.w.db, d, now) {
        WorksIsConsumable(s.w.db, s.w.lineage, a, d, now);
      }
    } else {
      StepSimulated(cfg, s, steps[0], a);
      StepGoesOn(cfg, s, steps[0]);
      TableRefinesStore(cfg, Apply(cfg, s, steps[0]).value, steps[1..], Act(a, ActionOf(cfg, s, steps[0])));
    }
  }

  /** The stores that runs produce meet what RefreshedSecrets asks. */
  lemma SimulatedSecrets(tokens: map<Digest, Row>, lineage: map<Digest, Origin>, a: Store, d: Digest)
    requires Simulates(tokens, lineage, a)
    ensures SecretsDistinct(a)
    ensures d !in tokens ==> forall r :: r in a ==> a[r].secret != d
  {
    forall r, q | r in a && q in a && a[r].secret == a[q].secret ensures r == q {
      assert SessionIsRow(tokens, lineage, a, r) && SessionIsRow(tokens, lineage, a, q);
    }
    forall r | r in a && d !in tokens ensures a[r].secret != d {
      assert SessionIsRow(tokens, lineage, a, r);
    }
  }

  lemma ReachableSimulated(cfg: Config, s: State) returns (a: Store)
    requires Reachable(cfg, s)
    ensures Simulates(s.w.db.tokens, s.w.lineage, a)
  {
    var before :| Exec(cfg, INIT, before) == Some(s);
    assert Exec(cfg, INIT, []) == Some(INIT);
    TableRefinesStore(cfg, INIT, before, map[]);
    a := AbsRun(cfg, INIT, before, map[]);
  }

  /** One rotation as the store sees it, told of the table. */
  lemma RotatedVerdicts(db: Db, lin: map<Digest, Origin>, db': Db, lin': map<Digest, Origin>, a: Store,
                        act: Action, d: Digest, later: int)
    requires act.RefreshOne? && Simulates(db.tokens, lin, a) && Simulates(db'.tokens, lin', Act(a, act))
    requires Consumable(db, act.presented, act.now) && act.replacement !in db.tokens
    ensures !Consumable(db', act.presented, later)
    ensures Consumable(db', act.replacement, later) <==> later < act.deadline
    ensures d != act.presented && d != act.replacement ==> (Consumable(db', d, later) <==> Consumable(db, d, later))
  {
    SimulatedSecrets(db.tokens, lin, a, act.replacement);
    WorksIsConsumable(db, lin, a, act.presented, act.now);
    RefreshedSecrets(a, act.presented, act.replacement, act.deadline, act.now, d, later);
    WorksIsConsumable(db, lin, a, d, later);
    WorksIsConsumable(db', lin', Act(a, act), act.presented, later);
    WorksIsConsumable(db', lin', Act(a, act), act.replacement, later);
    WorksIsConsumable(db', lin', Act(a, act), d, later);
  }

  /** The request's next step is a rotation that commits. */
  ghost predicate Rotates(cfg: Config, s: State, id: nat, secret: string, ch: Choice) {
    && id in s.reqs && s.reqs[id] == RefreshRotate(secret) && Allowed(cfg, s.w, s.reqs[id], ch)
    && RotateRefreshToken(cfg, s.w, id, secret, ch).1.RefreshSign?
  }

  lemma RotationForClients(cfg: Config, s: State, id: nat, secret: string, ch: Choice, d: Digest, later: int)
    requires Reachable(cfg, s) && Rotates(cfg, s, id, secret, ch)
    ensures var db, spent := RotateRefreshToken(cfg, s.w, id, secret, ch).0.db, HashOpaqueToken(secret);
      var minted := HashOpaqueToken(ch.secret);
      && !Consumable(db, spent, later)
      && (Consumable(db, minted, later) <==> later < s.w.now + cfg.refreshExpiry)
      && (d != spent && d != minted ==> (Consumable(db, d, later) <==> Consumable(s.w.db, d, later)))
  {
    var act := RefreshOne(HashOpaqueToken(secret), HashOpaqueToken(ch.secret), s.w.now + cfg.refreshExpiry, s.w.now);
    var w' := RotateRefreshToken(cfg, s.w, id, secret, ch).0;
    var a := ReachableSimulated(cfg, s);
    RotateOutcome(cfg, s.w, id, secret, ch);
    ReachableRows(cfg, s);
    RefreshSimulated(cfg, s.w, id, secret, ch, a);
    RotatedVerdicts(s.w.db, s.w.lineage, w'.db, w'.lineage, a, act, d, later);
  }

  lemma DeadForGood(cfg: Config, s: State, steps: seq<Step>, d: Digest, later: int)
    requires Reachable(cfg, s) && Exec(cfg, s, steps).Some? && d in s.w.db.tokens && s.w.db.tokens[d].revoked
    ensures !Consumable(Exec(cfg, s, steps).value.w.db, d, later)
  {
    RunGoesOn(cfg, s, steps);
    assert KeepsRow(s.w.db.tokens[d], Exec(cfg, s, steps).value.w.db.tokens[d]);
  }

  /** What a refresh means to clients, over runs: the old secret works at no time in that or any later state;
      at that point the new one works until its deadline, and every other as before. */
  lemma RefreshForClients(cfg: Config, s: State, id: nat, secret: string, ch: Choice, steps: seq<Step>, d: Digest,
          later: int)
    requires Reachable(cfg, s) && Rotates(cfg, s, id, secret, ch)
    requires Exec(cfg, Apply(cfg, s, Next(id, ch)).value, steps).Some?
    ensures var s' := Apply(cfg, s, Next(id, ch)).value;
      var spent, minted := HashOpaqueToken(secret), HashOpaqueToken(ch.secret);
      && !Consumable(Exec(cfg, s', steps).value.w.db, spent, later)
      && (Consumable(s'.w.db, minted, later) <==> later < s.w.now + cfg.refreshExpiry)
      && (d != spent && d != minted ==> (Consumable(s'.w.db, d, later) <==> Consumable(s.w.db, d, later)))
  {
    RotationForClients(cfg, s, id, secret, ch, d, later);
    StepGoesOn(cfg, s, Next(id, ch));
    RotationSpends(cfg, s.w, id, secret, ch);
    DeadForGood(cfg, Apply(cfg, s, Next(id, ch)).value, steps, HashOpaqueToken(secret), later);
  }

  lemma RotationSpends(cfg: Config, w: World, id: nat, secret: string, ch: Choice)
    requires RotateRefreshToken(cfg, w, id, secret, ch).1.RefreshSign?
    ensures var tokens, d := RotateRefreshToken(cfg, w, id, secret, ch).0.db.tokens, HashOpaqueToken(secret);
      d in tokens && tokens[d].revoked
  {
    RotateOutcome(cfg, w, id, secret, ch);
  }

  // ---- Families ----

  /** The row k rotations before d. */
  function Ancestor(lineage: map<Digest, Origin>, d: Digest, k: nat): Option<Digest>
    decreases k
  {
    if d !in lineage then None
    else if k == 0 then Some(d)
    else if lineage[d].parent.None? then None
    else Ancestor(lineage, lineage[d].parent.value, k - 1)
  }

  lemma {:induction false} AncestorInFamily(w: World, d: Digest, k: nat)
    requires LineageOk(w) && d in w.lineage && k <= w.lineage[d].gen
    ensures var x := Ancestor(w.lineage, d, k);
      && x.Some? && x.value in w.lineage && x.value in w.db.tokens
      && w.lineage[x.value].root == w.lineage[d].root && w.lineage[x.value].gen == w.lineage[d].gen - k
      && (k > 0 ==> w.db.tokens[x.value].revoked)
    decreases k
  {
    assert OriginOk(w, d);
    if k > 0 { AncestorInFamily(w, w.lineage[d].parent.value, k - 1); }
  }

  /** Rotation families are chains: of two rows of one family the earlier is found by going back
      from the later, both are for the same user and org, and only the newest row can be live. */
  lemma FamiliesAreChains(cfg: Config, s: State, d: Digest, e: Digest)
    requires Reachable(cfg, s) && d in s.w.lineage && e in s.w.lineage
    requires s.w.lineage[d].root == s.w.lineage[e].root && s.w.lineage[e].gen <= s.w.lineage[d].gen
    ensures d in s.w.db.tokens && e in s.w.db.tokens
    ensures Ancestor(s.w.lineage, d, s.w.lineage[d].gen - s.w.lineage[e].gen) == Some(e)
    ensures s.w.db.tokens[d].user == s.w.db.tokens[e].user && s.w.db.tokens[d].org == s.w.db.tokens[e].org
    ensures e != d ==> s.w.db.tokens[e].revoked
  {
    ReachableLineage(cfg, s);
    var k := s.w.lineage[d].gen - s.w.lineage[e].gen;
    AncestorInFamily(s.w, d, k);
    assert OriginOk(s.w, d) && OriginOk(s.w, e);
    assert SameRung(s.w.lineage[Ancestor(s.w.lineage, d, k).value], s.w.lineage[e]);
  }

  /** A family opened before its user's latest revocation has no live row. */
  lemma RevokedFamiliesAreDead(cfg: Config, s: State, d: Digest)
    requires Reachable(cfg, s) && d in s.w.db.tokens
    ensures d in s.w.lineage
    ensures RevokedSince(s.w.log, s.w.lineage[d].since, s.w.db.tokens[d].user) ==> s.w.db.tokens[d].revoked
    ensures var o := s.w.lineage[d]; var u := s.w.db.tokens[d].user;
      o.since < |s.w.log| && s.w.log[o.since].event == Opened(o.root, u, s.w.db.tokens[d].org)
  {
    ReachableLineage(cfg, s);
    assert LiveOk(s.w, d) && OriginOk(s.w, d);
    assert OriginOk(s.w, s.w.lineage[d].root);
  }
}
