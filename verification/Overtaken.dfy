/** A run in which a login is overtaken by a logout of its user and still stores a live row. */
module Overtaken {
  import opened Text
  import opened Security
  import opened Schema
  import opened Transactions
  import opened Bodies
  import opened Protocol
  import opened Effects
  import opened Invariant
  import opened Runs
  import opened Gate
  import opened Credentials
  import opened Revocation
  import opened Completeness

  lemma Go(cfg: Config, s: State, id: nat, ch: Choice) returns (s': State)
    requires Reachable(cfg, s) && id in s.reqs && !s.reqs[id].Done? && Allowed(cfg, s.w, s.reqs[id], ch)
    ensures Reachable(cfg, s') && s'.reqs.Keys == s.reqs.Keys
    ensures (s'.w, s'.reqs[id]) == Advance(cfg, s.w, id, s.reqs[id], ch)
    ensures forall k :: k in s.reqs && k != id ==> s'.reqs[k] == s.reqs[k]
  {
    s' := Apply(cfg, s, Next(id, ch)).value;
    StepGoesOn(cfg, s, Next(id, ch));
  }

  lemma Call(cfg: Config, s: State, id: nat, call: Call) returns (s': State)
    requires Reachable(cfg, s) && id !in s.reqs
    ensures Reachable(cfg, s') && s'.reqs == s.reqs[id := Begin(cfg, call)] && s'.w == s.w
  {
    s' := Apply(cfg, s, Start(id, call)).value;
    StepGoesOn(cfg, s, Start(id, call));
  }

  lemma ReadOnRecord(cfg: Config, s: State, id: nat)
    requires Reachable(cfg, s) && id in s.reqs && s.reqs[id].IssueStore?
    ensures SignedFrom(s.w.signed, s.reqs[id].text, s.reqs[id].snap)
  {
    ReachableEarned(cfg, s);
  }

  /** A login or registration overtaken by a revocation of its user: revoking ends the sessions there are,
      not the one on its way, which is stored live; but the access token handed out with it is dead already. */
  lemma OvertakenLoginLeavesLiveRow(cfg: Config, s: State, id: nat, ch: Choice)
    requires Reachable(cfg, s) && id in s.reqs && s.reqs[id].IssueStore? && Allowed(cfg, s.w, s.reqs[id], ch)
    requires RevokedSince(s.w.log, s.reqs[id].snap.readAt, s.reqs[id].snap.id) && cfg.refreshExpiry > 0
    ensures var (w', ph') := Advance(cfg, s.w, id, s.reqs[id], ch); var d := HashOpaqueToken(ch.secret);
      && Consumable(w'.db, d, w'.now) && w'.db.tokens[d].user == s.reqs[id].snap.id
      && ph' == Done(Ok(Tokens(s.reqs[id].text, ch.secret, s.reqs[id].snap.id)))
      && (s.reqs[id].text != "" ==> Auth(cfg, w', "Bearer " + s.reqs[id].text).None?)
  {
    var ph := s.reqs[id];
    ReadOnRecord(cfg, s, id);
    CanSignThen(cfg, s, id);
    IssueCompletes(cfg, s, id, ch);
    if ph.text != "" {
      var s' := Go(cfg, s, id, ch);
      TokenIsDead(cfg, s, s', ph.text, ph.snap);
    }
  }

  lemma CanSignThen(cfg: Config, s: State, id: nat)
    requires Reachable(cfg, s) && id in s.reqs && s.reqs[id].IssueStore?
    ensures CanSign(cfg)
  {
    ReachablePhase(cfg, s, id);
    ReachableTokens(cfg, s);
    assert SignedOk(cfg, s.w, s.w.signed[s.reqs[id].text]);
  }

  lemma TokenIsDead(cfg: Config, s: State, s': State, text: string, snap: Snapshot)
    requires Reachable(cfg, s') && s.w.log <= s'.w.log && s'.w.signed == s.w.signed && text != ""
    requires SignedFrom(s.w.signed, text, snap) && RevokedSince(s.w.log, snap.readAt, snap.id)
    ensures Auth(cfg, s'.w, "Bearer " + text).None?
  {
    AuthExact(cfg, s', text);
    var i :| snap.readAt <= i < |s.w.log| && RevokesUser(s.w.log[i], snap.id);
    assert RevokesUser(s'.w.log[i], snap.id);
  }

  /** Some email, password and hash the configuration accepts. */
  ghost predicate Usable(cfg: Config, email: string, n: string, password: string, hash: string) {
    && NormalizeEmail(cfg.go, cfg.bareAddress, email) == Ok(n)
    && StrongPassword(cfg.go, password) && cfg.matches(hash, password)
    && CanSign(cfg) && cfg.refreshExpiry > 0
  }

  function Draw(secret: string, text: string, hash: string): Choice {
    Choice(NO_FAULTS, "u", "o", secret, text, hash, [("o", "admin")])
  }

  /** The tables once "u" has registered, and its token "r0" is stored or not. */
  function Tables(cfg: Config, n: string, hash: string, stored: bool): Db {
    Db(map["u" := User(n, hash, "", 0)], {"o"}, map[("u", "o") := "admin"],
       if stored then map[Sha256("r0") := Row("u", "o", cfg.refreshExpiry, false)] else map[])
  }

  ghost predicate SignedUpOnly(cfg: Config, s: State, n: string, hash: string) {
    && s.w.db == Tables(cfg, n, hash, false) && s.w.now == 0 && s.w.signed == map[] && |s.w.log| == 1
    && s.reqs == map[0 := IssueSign(Snapshot("u", User(n, hash, "", 0), 1), "o", "admin")]
  }

  lemma LookUpRun(cfg: Config, email: string, n: string, password: string, hash: string) returns (s: State)
    requires Usable(cfg, email, n, password, hash)
    ensures Reachable(cfg, s) && s.w == INIT.w && s.reqs == map[0 := RegisterInsert(n, password, "")]
  {
    assert Exec(cfg, INIT, []) == Some(INIT);
    s := Call(cfg, INIT, 0, Register(email, password, ""));
    s := Go(cfg, s, 0, Draw("r0", "t0", hash));
    assert s.reqs.Keys == {0};
  }

  lemma SignUpRun(cfg: Config, email: string, n: string, password: string, hash: string) returns (s: State)
    requires Usable(cfg, email, n, password, hash)
    ensures Reachable(cfg, s) && SignedUpOnly(cfg, s, n, hash)
  {
    var ch := Draw("r0", "t0", hash);
    s := LookUpRun(cfg, email, n, password, hash);
    AccountCommits(cfg, s.w, n, hash, ch);
    s := Go(cfg, s, 0, ch);
    assert s.reqs.Keys == {0};
  }

  lemma AccountCommits(cfg: Config, w: World, n: string, hash: string, ch: Choice)
    requires w.db == EMPTY && w.log == [] && ch == Draw("r0", "t0", hash)
    ensures var (w', ph') := InsertAccount(cfg, w, 0, n, "", ch);
      && w'.db == Tables(cfg, n, hash, false) && w'.now == w.now && w'.signed == w.signed && |w'.log| == 1
      && ph' == IssueSign(Snapshot("u", User(n, hash, "", 0), 1), "o", "admin")
  {
    RegisterTx(cfg.sql, EMPTY, "u", "o", n, hash, "", NO_FAULTS);
  }

  /** Registered, with "r0" the live token of the registration. */
  ghost predicate Registered(cfg: Config, s: State, n: string, hash: string) {
    && s.w.db == Tables(cfg, n, hash, true) && s.w.now == 0 && s.w.signed.Keys == {"t0"} && |s.w.log| == 2
    && s.reqs.Keys == {0}
  }

  lemma RegisterRun(cfg: Config, email: string, n: string, password: string, hash: string) returns (s: State)
    requires Usable(cfg, email, n, password, hash)
    ensures Reachable(cfg, s) && Registered(cfg, s, n, hash)
  {
    s := SignUpRun(cfg, email, n, password, hash);
    var ch := Draw("r0", "t0", hash);
    s := Go(cfg, s, 0, ch);
    s := Go(cfg, s, 0, ch);
  }

  /** A second request has logged "u" in up to the statement that stores its refresh token. */
  ghost predicate AboutToStore(cfg: Config, s: State, n: string, hash: string) {
    && s.w.db == Tables(cfg, n, hash, true) && s.w.now == 0 && |s.w.log| == 2 && s.reqs.Keys == {0, 1}
    && s.reqs[1] == IssueStore(Snapshot("u", User(n, hash, "", 0), 2), "o", "t1")
  }

  lemma LoginRun(cfg: Config, s0: State, email: string, n: string, password: string, hash: string) returns (s: State)
    requires Usable(cfg, email, n, password, hash) && Reachable(cfg, s0) && Registered(cfg, s0, n, hash)
    ensures Reachable(cfg, s) && AboutToStore(cfg, s, n, hash)
  {
    var ch := Draw("r1", "t1", hash);
    s := Call(cfg, s0, 1, Login(email, password, Blank));
    ReachableTables(cfg, s);
    UserByEmailUnique(cfg.sql, s.w.db, n, "u");
    s := Go(cfg, s, 1, ch);
    s := FinishLoginRun(cfg, s, n, hash);
  }

  lemma FinishLoginRun(cfg: Config, s0: State, n: string, hash: string) returns (s: State)
    requires Reachable(cfg, s0) && s0.w.db == Tables(cfg, n, hash, true) && s0.w.now == 0 && |s0.w.log| == 2
    requires s0.w.signed.Keys == {"t0"} && s0.reqs.Keys == {0, 1} && CanSign(cfg)
    requires s0.reqs[1] == LoginMembers(Snapshot("u", User(n, hash, "", 0), 2), Blank)
    ensures Reachable(cfg, s) && AboutToStore(cfg, s, n, hash)
  {
    var ch := Draw("r1", "t1", hash);
    ListsOnly(cfg, n, hash);
    s := Go(cfg, s0, 1, ch);
    s := Go(cfg, s, 1, ch);
  }

  lemma ListsOnly(cfg: Config, n: string, hash: string)
    ensures Lists(Tables(cfg, n, hash, true), "u", [("o", "admin")])
  {
    assert [("o", "admin")][0].0 == "o";
  }

  ghost predicate Revoked(cfg: Config, s: State) {
    && s.w.db.tokens == map[Sha256("r0") := Row("u", "o", cfg.refreshExpiry, true)] && s.w.now == 0
    && 1 in s.reqs && s.reqs[1].IssueStore? && s.reqs[1].org == "o"
    && s.reqs[1].snap.id == "u" && s.reqs[1].snap.readAt == 2
    && |s.w.log| == 3 && RevokesUser(s.w.log[2], "u")
  }

  lemma LogoutRun(cfg: Config, s0: State, n: string, hash: string) returns (s: State)
    requires Reachable(cfg, s0) && AboutToStore(cfg, s0, n, hash) && cfg.refreshExpiry > 0
    ensures Reachable(cfg, s) && Revoked(cfg, s)
  {
    s := Call(cfg, s0, 2, Logout("r0"));
    LogoutCommits(cfg, s.w, n, hash, Draw("r2", "t2", hash));
    s := Go(cfg, s, 2, Draw("r2", "t2", hash));
  }

  lemma LogoutCommits(cfg: Config, w: World, n: string, hash: string, ch: Choice)
    requires w.db == Tables(cfg, n, hash, true) && w.now == 0 && cfg.refreshExpiry > 0 && ch.faults == NO_FAULTS
    ensures var w' := ConsumeAndRevoke(cfg, w, 2, "r0", ch).0;
      && w'.db.tokens == map[Sha256("r0") := Row("u", "o", cfg.refreshExpiry, true)] && w'.now == 0
      && w'.log == w.log + [Commit(2, Event.Revoked("u", ByLogout(Sha256("r0"))))]
  {
    LogoutTx(cfg.sql, w.db, Sha256("r0"), 0, NO_FAULTS);
  }

  /** The failing input: whatever the configuration, once it accepts some email and password, there is a
      reachable state in which u has been revoked, no row of u is live, and a login of u that read u's row
      before waits to store its token. */
  lemma LoginIsOvertaken(cfg: Config, email: string, n: string, password: string, hash: string) returns (s: State)
    requires Usable(cfg, email, n, password, hash)
    ensures Reachable(cfg, s) && Revoked(cfg, s)
    ensures RevokedSince(s.w.log, s.reqs[1].snap.readAt, "u") && LiveRows(s.w.db.tokens, "u") == {}
  {
    s := RegisterRun(cfg, email, n, password, hash);
    s := LoginRun(cfg, s, email, n, password, hash);
    s := LogoutRun(cfg, s, n, hash);
  }

  /** One step on, u has a live row, and the commit before it in the log is the revocation. */
  lemma LiveRowAfterRevocation(cfg: Config, email: string, n: string, password: string, hash: string) returns (s: State)
    requires Usable(cfg, email, n, password, hash)
    ensures Reachable(cfg, s) && Sha256("r1") in LiveRows(s.w.db.tokens, "u")
    ensures |s.w.log| == 4 && RevokesUser(s.w.log[2], "u") && s.w.log[3].event == Opened(Sha256("r1"), "u", "o")
  {
    var before := LoginIsOvertaken(cfg, email, n, password, hash);
    var ch := Draw("r1", "t1", hash);
    OvertakenLoginLeavesLiveRow(cfg, before, 1, ch);
    s := Go(cfg, before, 1, ch);
  }
}
