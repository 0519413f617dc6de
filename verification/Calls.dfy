/** Whole calls: what a call answers and leaves behind, from its start to its end, in every run and
    whatever other requests do between its statements. */
module Calls {
  import opened Text
  import opened Security
  import opened Schema
  import opened Transactions
  import opened Protocol
  import opened Effects
  import opened Runs
  import opened Gate
  import opened Revocation
  import opened Completeness

  /** One statement of a request: the state it runs in and what it is given. */
  datatype Turn = Turn(at: State, choice: Choice)

  /** The request's k-th statement in a run, counting from zero. */
  ghost function TurnOf(cfg: Config, s: State, steps: seq<Step>, id: nat, k: nat): Option<Turn>
    requires Exec(cfg, s, steps).Some?
    decreases |steps|
  {
    if steps == [] then None
    else
      var s' := Apply(cfg, s, steps[0]).value;
      if steps[0].Next? && steps[0].id == id then
        if k == 0 then Some(Turn(s, steps[0].choice)) else TurnOf(cfg, s', steps[1..], id, k - 1)
      else TurnOf(cfg, s', steps[1..], id, k)
  }

  /** The infrastructure fails none of the request's statements. */
  predicate Unharmed(steps: seq<Step>, id: nat) {
    forall i :: 0 <= i < |steps| ==>
      && steps[i] != Crash(id)
      && (steps[i].Next? && steps[i].id == id ==> steps[i].choice.faults == NO_FAULTS)
  }

  ghost predicate Ends(cfg: Config, s: State, steps: seq<Step>, id: nat) {
    && Exec(cfg, s, steps).Some?
    && id in Exec(cfg, s, steps).value.reqs && Exec(cfg, s, steps).value.reqs[id].Done?
  }

  ghost function Outcome(cfg: Config, s: State, steps: seq<Step>, id: nat): Result<Grant>
    requires Ends(cfg, s, steps, id)
  {
    Exec(cfg, s, steps).value.reqs[id].outcome
  }

  /** What a request stands at and what its run will be, seen one step further on. */
  lemma OthersLeave(cfg: Config, s: State, steps: seq<Step>, id: nat)
    requires Reachable(cfg, s) && id in s.reqs && steps != [] && Ends(cfg, s, steps, id) && Unharmed(steps, id)
    ensures Apply(cfg, s, steps[0]).Some?
    ensures var s' := Apply(cfg, s, steps[0]).value;
      && Reachable(cfg, s') && Ends(cfg, s', steps[1..], id) && Unharmed(steps[1..], id)
      && Outcome(cfg, s, steps, id) == Outcome(cfg, s', steps[1..], id)
      && id in s'.reqs && Extends(s.w, s'.w)
      && (!(steps[0].Next? && steps[0].id == id) ==> s'.reqs[id] == s.reqs[id])
  {
    StepGoesOn(cfg, s, steps[0]);
  }

  lemma {:induction false} DoneStays(cfg: Config, s: State, steps: seq<Step>, id: nat)
    requires Reachable(cfg, s) && id in s.reqs && s.reqs[id].Done?
    requires Ends(cfg, s, steps, id) && Unharmed(steps, id)
    ensures Outcome(cfg, s, steps, id) == s.reqs[id].outcome
    decreases |steps|
  {
    if steps != [] {
      OthersLeave(cfg, s, steps, id);
      DoneStays(cfg, Apply(cfg, s, steps[0]).value, steps[1..], id);
    }
  }

  // ---- One statement at a time ----

  /** What is left of the run after the request's first statement. */
  ghost function Rest(cfg: Config, s: State, steps: seq<Step>, id: nat): seq<Step>
    requires Exec(cfg, s, steps).Some?
    decreases |steps|
  {
    if steps == [] then []
    else if steps[0].Next? && steps[0].id == id then steps[1..]
    else Rest(cfg, Apply(cfg, s, steps[0]).value, steps[1..], id)
  }

  /** The state right after a statement. */
  ghost function After(cfg: Config, t: Turn, id: nat): State
    requires Apply(cfg, t.at, Next(id, t.choice)).Some?
  {
    Apply(cfg, t.at, Next(id, t.choice)).value
  }

  ghost function Final(cfg: Config, s: State, steps: seq<Step>): World
    requires Exec(cfg, s, steps).Some?
  {
    Exec(cfg, s, steps).value.w
  }

  /** The request, stopped where it is in s, runs its first statement in turn t. */
  ghost predicate Takes(cfg: Config, s: State, steps: seq<Step>, id: nat, t: Turn) {
    && id in s.reqs && !s.reqs[id].Done? && Exec(cfg, s, steps).Some?
    && Reachable(cfg, t.at) && id in t.at.reqs && t.at.reqs[id] == s.reqs[id]
    && Allowed(cfg, t.at.w, s.reqs[id], t.choice) && t.choice.faults == NO_FAULTS && Extends(s.w, t.at.w)
  }

  /** The run from s, after that statement, is this run. */
  ghost predicate Leads(cfg: Config, s: State, steps: seq<Step>, id: nat, after: State, rest: seq<Step>) {
    && Reachable(cfg, after) && id in after.reqs && Ends(cfg, s, steps, id) && Ends(cfg, after, rest, id)
    && Unharmed(rest, id) && Exec(cfg, after, rest) == Exec(cfg, s, steps)
  }

  /** A request that ends and is not done runs a statement first. */
  lemma {:induction false} FirstTurn(cfg: Config, s: State, steps: seq<Step>, id: nat)
    requires Reachable(cfg, s) && id in s.reqs && !s.reqs[id].Done?
    requires Ends(cfg, s, steps, id) && Unharmed(steps, id)
    ensures var t := TurnOf(cfg, s, steps, id, 0);
      && t.Some? && Takes(cfg, s, steps, id, t.value)
      && Leads(cfg, s, steps, id, After(cfg, t.value, id), Rest(cfg, s, steps, id))
    decreases |steps|
  {
    OthersLeave(cfg, s, steps, id);
    if steps[0].Next? && steps[0].id == id {
      ExtendsItself(s.w);
    } else {
      var m := Apply(cfg, s, steps[0]).value;
      FirstTurn(cfg, m, steps[1..], id);
      ExtendsTransitive(s.w, m.w, TurnOf(cfg, m, steps[1..], id, 0).value.at.w);
    }
  }

  /** Its later statements are those of what is left. */
  lemma {:induction false} LaterTurn(cfg: Config, s: State, steps: seq<Step>, id: nat, k: nat)
    requires Reachable(cfg, s) && id in s.reqs && !s.reqs[id].Done?
    requires Ends(cfg, s, steps, id) && Unharmed(steps, id)
    requires TurnOf(cfg, s, steps, id, 0).Some? && Takes(cfg, s, steps, id, TurnOf(cfg, s, steps, id, 0).value)
    requires Exec(cfg, After(cfg, TurnOf(cfg, s, steps, id, 0).value, id), Rest(cfg, s, steps, id)).Some?
    ensures TurnOf(cfg, s, steps, id, k + 1)
         == TurnOf(cfg, After(cfg, TurnOf(cfg, s, steps, id, 0).value, id), Rest(cfg, s, steps, id), id, k)
    decreases |steps|
  {
    OthersLeave(cfg, s, steps, id);
    if !(steps[0].Next? && steps[0].id == id) {
      FirstTurn(cfg, Apply(cfg, s, steps[0]).value, steps[1..], id);
      LaterTurn(cfg, Apply(cfg, s, steps[0]).value, steps[1..], id, k);
    }
  }

  /** The first statement, the state after it and the run that is left. */
  lemma Peel(cfg: Config, s: State, steps: seq<Step>, id: nat) returns (t: Turn, after: State, rest: seq<Step>)
    requires Reachable(cfg, s) && id in s.reqs && !s.reqs[id].Done?
    requires Ends(cfg, s, steps, id) && Unharmed(steps, id)
    ensures TurnOf(cfg, s, steps, id, 0) == Some(t) && Takes(cfg, s, steps, id, t)
    ensures after == After(cfg, t, id) && Leads(cfg, s, steps, id, after, rest)
    ensures (after.w, after.reqs[id]) == Advance(cfg, t.at.w, id, s.reqs[id], t.choice)
    ensures Extends(after.w, Final(cfg, s, steps))
    ensures after.reqs[id].Done? ==> Outcome(cfg, s, steps, id) == after.reqs[id].outcome
    ensures TurnOf(cfg, s, steps, id, 1) == TurnOf(cfg, after, rest, id, 0)
    ensures TurnOf(cfg, s, steps, id, 2) == TurnOf(cfg, after, rest, id, 1)
    ensures TurnOf(cfg, s, steps, id, 3) == TurnOf(cfg, after, rest, id, 2)
  {
    FirstTurn(cfg, s, steps, id);
    t := TurnOf(cfg, s, steps, id, 0).value;
    after, rest := After(cfg, t, id), Rest(cfg, s, steps, id);
    LaterTurn(cfg, s, steps, id, 0);
    LaterTurn(cfg, s, steps, id, 1);
    LaterTurn(cfg, s, steps, id, 2);
    RunGoesOn(cfg, after, rest);
    if after.reqs[id].Done? { DoneStays(cfg, after, rest, id); }
  }

  // ---- What a successful call hands out ----

  predicate Configured(cfg: Config) {
    cfg.secret != "" && cfg.issuer != "" && cfg.audience != ""
  }

  predicate RowStored(tokens: map<Digest, Row>, secret: string, u: Uuid, o: Uuid, expires: int) {
    var d := HashOpaqueToken(secret);
    d in tokens && tokens[d].user == u && tokens[d].org == o && tokens[d].expires == expires
  }

  predicate TokenSigned(signed: map<string, Signed>, text: string, u: Uuid, o: Uuid, readAt: nat, at: int) {
    && text in signed && signed[text].claims.sub == u && signed[text].claims.org == o
    && signed[text].readAt == readAt && signed[text].at == at
  }

  /** The answer is an access token for u in org o, signed at this time from a row read when the log was that
      long, and a refresh token with a row of its own, stored at this time. */
  predicate HandsOut(cfg: Config, w: World, r: Result<Grant>, u: Uuid, o: Uuid, readAt: nat, signedAt: int,
          storedAt: int)
  {
    && r.Ok? && r.value.Tokens? && r.value.user == u
    && TokenSigned(w.signed, r.value.access, u, o, readAt, signedAt)
    && RowStored(w.db.tokens, r.value.refresh, u, o, storedAt + cfg.refreshExpiry)
  }

  lemma RowLasts(w: World, w': World, secret: string, u: Uuid, o: Uuid, expires: int)
    requires Extends(w, w') && RowStored(w.db.tokens, secret, u, o, expires)
    ensures RowStored(w'.db.tokens, secret, u, o, expires)
  {
    var d := HashOpaqueToken(secret);
    assert KeepsRow(w.db.tokens[d], w'.db.tokens[d]);
  }

  /** What a call handed out is good from then on: Auth takes the access token's bearer for its user in its org
      until the user is revoked or the time runs out, and the refresh token works until its row is revoked or
      its own time runs out. */
  lemma HandedOutPasses(cfg: Config, s: State, r: Result<Grant>, u: Uuid, o: Uuid, readAt: nat, signedAt: int,
        storedAt: int, steps: seq<Step>)
    requires Reachable(cfg, s) && Exec(cfg, s, steps).Some?
    requires HandsOut(cfg, s.w, r, u, o, readAt, signedAt, storedAt) && r.value.access != ""
    ensures var w, who := Final(cfg, s, steps), Auth(cfg, Final(cfg, s, steps), "Bearer " + r.value.access);
      && (RevokedSince(w.log, readAt, u) || signedAt + cfg.jwtExpiry <= w.now ==> who.None?)
      && (!RevokedSince(w.log, readAt, u) && w.now + 1000 <= signedAt + cfg.jwtExpiry ==>
            (u, o) in w.db.members && who == Some(Identity(u, o, w.db.members[(u, o)])))
    ensures var w, d := Final(cfg, s, steps), HashOpaqueToken(r.value.refresh);
      d in w.db.tokens && (Consumable(w.db, d, w.now) <==>
                             !w.db.tokens[d].revoked && w.now < storedAt + cfg.refreshExpiry)
  {
    var m, text := Exec(cfg, s, steps).value, r.value.access;
    RunGoesOn(cfg, s, steps);
    RowLasts(s.w, m.w, r.value.refresh, u, o, storedAt + cfg.refreshExpiry);
    AuthExact(cfg, m, text);
    ReachableTokens(cfg, m);
    assert SignedOk(cfg, m.w, m.w.signed[text]);
  }

  lemma StoreEnds(cfg: Config, s: State, steps: seq<Step>, id: nat) returns (t: Turn)
    requires Reachable(cfg, s) && id in s.reqs && s.reqs[id].IssueStore? && Configured(cfg)
    requires Ends(cfg, s, steps, id) && Unharmed(steps, id)
    ensures TurnOf(cfg, s, steps, id, 0) == Some(t)
    ensures var ph, r := s.reqs[id], Outcome(cfg, s, steps, id);
      && r == Ok(Tokens(ph.text, t.choice.secret, ph.snap.id))
      && RowStored(Final(cfg, s, steps).db.tokens, t.choice.secret, ph.snap.id, ph.org, t.at.w.now + cfg.refreshExpiry)
  {
    var after: State, rest: seq<Step>;
    t, after, rest := Peel(cfg, s, steps, id);
    IssueCompletes(cfg, t.at, id, t.choice);
    var ph := s.reqs[id];
    InsertStores(cfg, t.at.w, id, ph, t.choice);
    RowLasts(after.w, Final(cfg, s, steps), t.choice.secret, ph.snap.id, ph.org, t.at.w.now + cfg.refreshExpiry);
  }

  lemma InsertStores(cfg: Config, w: World, id: nat, ph: Phase, ch: Choice)
    requires ph.IssueStore? && Advance(cfg, w, id, ph, ch).1.Done? && Advance(cfg, w, id, ph, ch).1.outcome.Ok?
    ensures RowStored(Advance(cfg, w, id, ph, ch).0.db.tokens, ch.secret, ph.snap.id, ph.org, w.now + cfg.refreshExpiry)
  {
  }

  /** Minting, then storing. */
  lemma IssueEnds(cfg: Config, s: State, steps: seq<Step>, id: nat) returns (mint: Turn, store: Option<Turn>)
    requires Reachable(cfg, s) && id in s.reqs && s.reqs[id].IssueSign?
    requires Ends(cfg, s, steps, id) && Unharmed(steps, id)
    ensures TurnOf(cfg, s, steps, id, 0) == Some(mint) && TurnOf(cfg, s, steps, id, 1) == store
    ensures var ph, r := s.reqs[id], Outcome(cfg, s, steps, id);
      if Configured(cfg) then
        && store.Some?
        && HandsOut(cfg, Final(cfg, s, steps), r, ph.snap.id, ph.org, ph.snap.readAt, mint.at.w.now,
                    store.value.at.w.now)
      else r == Err(Internal)
  {
    var after: State, rest: seq<Step>;
    mint, after, rest := Peel(cfg, s, steps, id);
    store := TurnOf(cfg, after, rest, id, 0);
    if Configured(cfg) {
      var second := StoreEnds(cfg, after, rest, id);
    }
  }
}
