/** Forgetting and resetting a password, from call to answer: what ForgotPassword stores and for whom, and
    that the token it stored sets a password, once and within the hour. */
module PasswordReset {
  import opened Text
  import opened Security
  import opened Schema
  import opened Protocol
  import opened Effects
  import opened Runs
  import opened Credentials
  import opened Calls
  import opened Operations

  /** The request has stored a reset key. */
  ghost predicate Asked(w: World, id: nat) {
    exists k :: k in w.keys && w.keys[k].asker == id
  }

  lemma NewcomersNeverAsked(cfg: Config, s: State, id: nat)
    requires Reachable(cfg, s) && id !in s.reqs
    ensures !Asked(s.w, id)
  {
    ReachableOk(cfg, s);
    forall k | k in s.w.keys ensures s.w.keys[k].asker != id { KeysAreEarned(cfg, s, k); }
  }

  /** Only a request at its ForgotStore stores a key, and in its own name. */
  lemma AdvanceAsks(cfg: Config, w: World, id: nat, ph: Phase, ch: Choice, other: nat)
    requires !ph.Done? && !Asked(w, other) && (other == id ==> !ph.ForgotStore?)
    ensures !Asked(Advance(cfg, w, id, ph, ch).0, other)
  {
    if !ph.ForgotStore? && !ph.ResetTake? { AdvanceKeepsKeys(cfg, w, id, ph, ch); }
  }

  lemma AdvanceKeepsKeys(cfg: Config, w: World, id: nat, ph: Phase, ch: Choice)
    requires !ph.Done? && !ph.ForgotStore? && !ph.ResetTake?
    ensures Advance(cfg, w, id, ph, ch).0.keys == w.keys
  {
  }

  lemma StepAsks(cfg: Config, s: State, step: Step, id: nat)
    requires Apply(cfg, s, step).Some? && id in s.reqs && !s.reqs[id].ForgotStore? && !Asked(s.w, id)
    ensures !Asked(Apply(cfg, s, step).value.w, id)
  {
    if step.Next? { AdvanceAsks(cfg, s.w, step.id, s.reqs[step.id], step.choice, id); }
  }

  /** A request that is done, or whose lookup will find nobody, stores no key any more. */
  lemma {:induction false} NothingAsked(cfg: Config, s: State, steps: seq<Step>, id: nat)
    requires Reachable(cfg, s) && id in s.reqs && !Asked(s.w, id)
    requires Ends(cfg, s, steps, id) && Unharmed(steps, id)
    requires s.reqs[id].Done? || s.reqs[id].ForgotLookup?
    requires var first := TurnOf(cfg, s, steps, id, 0);
      s.reqs[id].ForgotLookup? ==> first.Some? && !EmailTaken(cfg.sql, first.value.at.w.db, s.reqs[id].email)
    ensures !Asked(Final(cfg, s, steps), id)
    decreases |steps|
  {
    if steps != [] {
      OthersLeave(cfg, s, steps, id);
      StepAsks(cfg, s, steps[0], id);
      NothingAsked(cfg, Apply(cfg, s, steps[0]).value, steps[1..], id);
    }
  }

  /** In its second statement the request stored a key of its own for u, good for an hour, and nothing else. */
  ghost predicate KeyStored(cfg: Config, second: Turn, id: nat, u: Uuid, n: string) {
    var w, key := second.at.w, PasswordResetCacheKey(second.choice.secret);
    && key !in w.keys && Apply(cfg, second.at, Next(id, second.choice)).Some?
    && After(cfg, second, id).w
       == w.(resets := w.resets[key := Entry(u, w.now + 3_600_000)],
             keys := w.keys[key := KeyHistory(u, n, id, w.now, None)])
  }

  lemma StoresKey(cfg: Config, t: Turn, id: nat)
    requires id in t.at.reqs && t.at.reqs[id].ForgotStore? && Allowed(cfg, t.at.w, t.at.reqs[id], t.choice)
    ensures KeyStored(cfg, t, id, t.at.reqs[id].user, t.at.reqs[id].email)
  {
  }

  ghost predicate KeyOnRecord(w: World, key: CacheKey, u: Uuid, id: nat, at: int) {
    key in w.keys && w.keys[key].user == u && w.keys[key].asker == id && w.keys[key].storedAt == at
  }

  /** That statement was run, and its key is on record since. */
  ghost predicate StoredFor(cfg: Config, w: World, turn: Option<Turn>, id: nat, u: Uuid, n: string) {
    && turn.Some? && KeyStored(cfg, turn.value, id, u, n)
    && KeyOnRecord(w, PasswordResetCacheKey(turn.value.choice.secret), u, id, turn.value.at.w.now)
  }

  lemma StoredIsAsked(cfg: Config, w: World, turn: Option<Turn>, id: nat, u: Uuid, n: string)
    requires StoredFor(cfg, w, turn, id, u, n)
    ensures Asked(w, id)
  {
  }

  lemma RecordStays(w: World, w': World, key: CacheKey, u: Uuid, id: nat, at: int)
    requires Extends(w, w') && KeyOnRecord(w, key, u, id, at)
    ensures KeyOnRecord(w', key, u, id, at)
  {
    assert KeepsKey(w.keys[key], w'.keys[key]);
  }

  lemma StoreEndsWithKey(cfg: Config, s: State, steps: seq<Step>, id: nat)
    requires Reachable(cfg, s) && id in s.reqs && s.reqs[id].ForgotStore?
    requires Ends(cfg, s, steps, id) && Unharmed(steps, id)
    ensures Outcome(cfg, s, steps, id) == Ok(NoTokens)
    ensures var turn, ph := TurnOf(cfg, s, steps, id, 0), s.reqs[id];
      StoredFor(cfg, Final(cfg, s, steps), turn, id, ph.user, ph.email)
  {
    var t, after, rest := Peel(cfg, s, steps, id);
    StoresKey(cfg, t, id);
    RecordStays(after.w, Final(cfg, s, steps), PasswordResetCacheKey(t.choice.secret), s.reqs[id].user, id, t.at.w.now);
  }

  /** What a request answers whose lookup is for this normalised email. */
  ghost predicate ForgotLookupAnswers(cfg: Config, s: State, steps: seq<Step>, id: nat, n: string)
    requires Ends(cfg, s, steps, id)
  {
    var first, second := TurnOf(cfg, s, steps, id, 0), TurnOf(cfg, s, steps, id, 1);
    && Outcome(cfg, s, steps, id) == Ok(NoTokens)
    && first.Some? && var db := first.value.at.w.db;
    && (forall u :: u in db.users && SameEmail(cfg.sql, db.users[u].email, n) ==>
          StoredFor(cfg, Final(cfg, s, steps), second, id, u, n))
    && (Asked(Final(cfg, s, steps), id) <==> EmailTaken(cfg.sql, db, n))
  }

  lemma ForgotLookupEnds(cfg: Config, s: State, steps: seq<Step>, id: nat)
    requires Reachable(cfg, s) && id in s.reqs && s.reqs[id].ForgotLookup? && !Asked(s.w, id)
    requires Ends(cfg, s, steps, id) && Unharmed(steps, id)
    ensures ForgotLookupAnswers(cfg, s, steps, id, s.reqs[id].email)
  {
    var t, after, rest := Peel(cfg, s, steps, id);
    ReachableTables(cfg, t.at);
    ForgotLookupDecided(cfg, t.at.w, id, s.reqs[id].email, t.choice);
    if after.reqs[id].Done? {
      NothingAsked(cfg, s, steps, id);
    } else {
      StoreEndsWithKey(cfg, after, rest, id);
      var turn, ph := TurnOf(cfg, after, rest, id, 0), after.reqs[id];
      StoredIsAsked(cfg, Final(cfg, after, rest), turn, id, ph.user, ph.email);
    }
  }

  lemma ForgotLookupDecided(cfg: Config, w: World, id: nat, n: string, ch: Choice)
    requires EmailsUnique(cfg.sql, w.db)
    ensures var (w', ph') := Advance(cfg, w, id, ForgotLookup(n), ch);
      && (if EmailTaken(cfg.sql, w.db, n) then ph'.ForgotStore? && ph'.email == n else ph' == Done(Ok(NoTokens)))
      && forall u :: u in w.db.users && SameEmail(cfg.sql, w.db.users[u].email, n) ==> ph' == ForgotStore(u, n)
  {
    forall u | u in w.db.users && SameEmail(cfg.sql, w.db.users[u].email, n)
      ensures UserByEmail(cfg.sql, w.db, n) == Some(u)
    {
      UserByEmailUnique(cfg.sql, w.db, n, u);
    }
  }

  ghost predicate ForgotAnswers(cfg: Config, s: State, steps: seq<Step>, id: nat, email: string)
    requires Ends(cfg, s, steps, id)
  {
    match NormalizeEmail(cfg.go, cfg.bareAddress, email)
    case Err(_) => Outcome(cfg, s, steps, id) == Ok(NoTokens) && !Asked(Final(cfg, s, steps), id)
    case Ok(n) => ForgotLookupAnswers(cfg, s, steps, id, n)
  }

  /** ForgotPassword, in every run, reports success, and stores a key, for the user its normalised email names
      and for one hour, exactly when there is such a user at its lookup. */
  lemma ForgotPasswordCall(cfg: Config, s: State, id: nat, email: string, steps: seq<Step>)
    requires Served(cfg, s, id, ForgotPassword(email), steps)
    ensures ForgotAnswers(cfg, Begun(cfg, s, id, ForgotPassword(email)), steps, id, email)
  {
    var b := Begun(cfg, s, id, ForgotPassword(email));
    Begins(cfg, s, id, ForgotPassword(email), steps);
    NewcomersNeverAsked(cfg, s, id);
    if NormalizeEmail(cfg.go, cfg.bareAddress, email).Ok? {
      ForgotLookupEnds(cfg, b, steps, id);
    } else {
      NothingAsked(cfg, b, steps, id);
    }
  }

  // ---- The chain ----

  predicate Untaken(w: World, key: CacheKey) {
    key in w.keys && w.keys[key].taken.None?
  }

  /** What a ResetPassword answers whose token was made for u at this time: until somebody takes the token, and
      within the hour, it sets u's password. */
  ghost predicate ChainAnswers(cfg: Config, s: State, steps: seq<Step>, id: nat, token: string, password: string,
          at: int, u: Uuid)
    requires Ends(cfg, s, steps, id)
  {
    var first := TurnOf(cfg, s, steps, id, 0);
    && first.Some? && var w := first.value.at.w;
    if Untaken(w, PasswordResetCacheKey(token)) && w.now < at + 3_600_000 then
      CommitAnswers(cfg, s, steps, id, 1, u, password)
    else Outcome(cfg, s, steps, id) == Err(InvalidToken)
  }

  /** A key is in Redis and good exactly while it is untaken and its hour is not over. */
  lemma LiveKeyIs(cfg: Config, s: State, key: CacheKey, u: Uuid, id: nat, at: int)
    requires Reachable(cfg, s) && KeyOnRecord(s.w, key, u, id, at)
    ensures LiveKey(s.w, key) <==> Untaken(s.w, key) && s.w.now < at + 3_600_000
    ensures LiveKey(s.w, key) ==> s.w.resets[key].user == u
  {
    ReachableKeys(cfg, s);
  }

  lemma TakeEndsChain(cfg: Config, s: State, steps: seq<Step>, id: nat, u: Uuid, asker: nat, at: int)
    requires Reachable(cfg, s) && id in s.reqs && s.reqs[id].ResetTake?
    requires Ends(cfg, s, steps, id) && Unharmed(steps, id)
    requires KeyOnRecord(s.w, PasswordResetCacheKey(s.reqs[id].token), u, asker, at)
    ensures ChainAnswers(cfg, s, steps, id, s.reqs[id].token, s.reqs[id].password, at, u)
  {
    var key := PasswordResetCacheKey(s.reqs[id].token);
    FirstTurn(cfg, s, steps, id);
    TakeEnds(cfg, s, steps, id);
    var t := TurnOf(cfg, s, steps, id, 0).value;
    RecordStays(s.w, t.at.w, key, u, asker, at);
    LiveKeyIs(cfg, t.at, key, u, asker, at);
  }

  /** The chain: whoever asked for a reset with u's email can set u's password with the token made for it,
      within the hour of its making and once. */
  lemma ForgotThenReset(cfg: Config, s: State, id: nat, email: string, steps: seq<Step>, u: Uuid, token: string,
          at: int, m: State, later: nat, password: string, steps': seq<Step>)
    requires Served(cfg, s, id, ForgotPassword(email), steps)
    requires var b := Begun(cfg, s, id, ForgotPassword(email));
      var first, second := TurnOf(cfg, b, steps, id, 0), TurnOf(cfg, b, steps, id, 1);
      && first.Some? && Named(cfg, first.value.at.w.db.users, u, email)
      && second.Some? && second.value.choice.secret == token && second.value.at.w.now == at
      && Exec(cfg, b, steps) == Some(m)
    requires Served(cfg, m, later, ResetPassword(token, password), steps') && StrongPassword(cfg.go, password)
    ensures var b := Begun(cfg, m, later, ResetPassword(token, password));
      ChainAnswers(cfg, b, steps', later, token, password, at, u)
  {
    ForgotPasswordCall(cfg, s, id, email, steps);
    Begins(cfg, m, later, ResetPassword(token, password), steps');
    var b := Begun(cfg, m, later, ResetPassword(token, password));
    TakeEndsChain(cfg, b, steps', later, u, id, at);
  }
}
