/** What the gate admits over whole runs: exactly the unexpired tokens whose user has not
    been revoked since the row behind the token was read. */
module Revocation {
  import opened Text
  import opened Schema
  import opened Protocol
  import opened Effects
  import opened Invariant
  import opened Runs
  import opened Gate
  import opened Credentials

  /** The version check, on a token minted truthfully: one integer decides whether the user
      was revoked since the read. */
  lemma AuthDecides(cfg: Config, w: World, text: string)
    requires TokensSignedOk(cfg, w) && VersionsOk(w) && text != ""
    ensures var r := Auth(cfg, w, "Bearer " + text);
      r.Some? <==>
        text in w.signed && w.now < w.signed[text].claims.expires
        && !RevokedSince(w.log, w.signed[text].readAt, w.signed[text].claims.sub)
    ensures var r := Auth(cfg, w, "Bearer " + text);
      r.Some? ==>
        var c := w.signed[text].claims;
        r.value.userID == c.sub && r.value.orgID == c.org && r.value.role == c.role
  {
    BearerRoundTrip(text);
    if text in w.signed {
      var t := w.signed[text];
      assert SignedOk(cfg, w, t);
      RevocationsSince(w.log, t.readAt, t.claims.sub);
    }
  }

  /** Auth is exact in every reachable state: which tokens it accepts, and whom it takes their bearer for. */
  lemma AuthExact(cfg: Config, s: State, text: string)
    requires Reachable(cfg, s) && text != ""
    ensures var r := Auth(cfg, s.w, "Bearer " + text);
      r.Some? <==>
        text in s.w.signed && s.w.now < s.w.signed[text].claims.expires
        && !RevokedSince(s.w.log, s.w.signed[text].readAt, s.w.signed[text].claims.sub)
    ensures var r := Auth(cfg, s.w, "Bearer " + text);
      r.Some? ==>
        var c := s.w.signed[text].claims;
        r.value.userID == c.sub && r.value.orgID == c.org && r.value.role == c.role
  {
    ReachableTokens(cfg, s);
    AuthDecides(cfg, s.w, text);
  }

  /** How long a token is good for, whatever the rounding of its dates: from its signing for the configured
      time, less a second at most, and not a moment longer. */
  lemma AuthLasts(cfg: Config, s: State, text: string)
    requires Reachable(cfg, s) && text in s.w.signed && text != ""
    requires var t := s.w.signed[text]; !RevokedSince(s.w.log, t.readAt, t.claims.sub)
    ensures var t := s.w.signed[text];
      && t.at <= s.w.now
      && (s.w.now + 1000 <= t.at + cfg.jwtExpiry ==> Auth(cfg, s.w, "Bearer " + text).Some?)
      && (t.at + cfg.jwtExpiry <= s.w.now ==> Auth(cfg, s.w, "Bearer " + text).None?)
  {
    ReachableTokens(cfg, s);
    AuthExact(cfg, s, text);
    assert SignedOk(cfg, s.w, s.w.signed[text]);
  }

  /** What the middleware lets through: with a token Auth accepts, exactly the org it is for and the routes
      that allow its role. */
  lemma AdmitsExactly(cfg: Config, s: State, text: string, routeOrg: Option<string>, roles: seq<string>)
    requires Reachable(cfg, s) && text != ""
    ensures var r := Auth(cfg, s.w, "Bearer " + text);
      && (AdmitsToOrg(cfg, s.w, "Bearer " + text, routeOrg) <==>
            r.Some? && routeOrg == Some(s.w.signed[text].claims.org))
      && (AdmitsRole(cfg, s.w, "Bearer " + text, roles) <==> r.Some? && s.w.signed[text].claims.role in roles)
  {
    ReachableTokens(cfg, s);
    ReachableTables(cfg, s);
    AuthExact(cfg, s, text);
    if text in s.w.signed {
      var c := s.w.signed[text].claims;
      assert SignedOk(cfg, s.w, s.w.signed[text]);
      assert RoleAllowed(s.w.db.members[(c.sub, c.org)]);
      if c.role in roles {
        var i :| 0 <= i < |roles| && roles[i] == c.role;
        assert Auth(cfg, s.w, "Bearer " + text).Some? ==> HasRole(Auth(cfg, s.w, "Bearer " + text).value, roles[i]);
      }
    }
  }

  /** Revocation under every interleaving: once a revocation of u is the i-th commit, in that and every
      later state Auth rejects every token of u minted from a read before it. */
  lemma RevocationIsFinal(cfg: Config, s: State, steps: seq<Step>, i: nat, text: string)
    requires Reachable(cfg, s) && Exec(cfg, s, steps).Some? && text != ""
    requires i < |s.w.log| && s.w.log[i].event.Revoked?
    requires var w' := Exec(cfg, s, steps).value.w;
      text in w'.signed && w'.signed[text].claims.sub == s.w.log[i].event.user && w'.signed[text].readAt <= i
    ensures Auth(cfg, Exec(cfg, s, steps).value.w, "Bearer " + text).None?
  {
    RunGoesOn(cfg, s, steps);
    var s' := Exec(cfg, s, steps).value;
    AuthExact(cfg, s', text);
    assert RevokesUser(s'.w.log[i], s'.w.signed[text].claims.sub);
  }

  /** The snapshot a request will sign from. */
  function PendingRead(ph: Phase): Option<Snapshot> {
    match ph
    case LoginMembers(snap, _) => Some(snap)
    case IssueSign(snap, _, _) => Some(snap)
    case RefreshSign(snap, _, _, _) => Some(snap)
    case _ => None
  }

  /** A request past its read either still holds that read or has nothing left to sign. */
  predicate HoldsOnly(ph: Phase, snap: Snapshot) {
    PendingRead(ph) == Some(snap) || ph.IssueStore? || ph.Done?
  }

  /** One step of a request that holds a read signs, if anything, from that read. */
  lemma AdvanceSignsFromRead(cfg: Config, w: World, id: nat, ph: Phase, ch: Choice, snap: Snapshot)
    requires HoldsOnly(ph, snap) && !ph.Done?
    ensures var (w', ph') := Advance(cfg, w, id, ph, ch);
      && HoldsOnly(ph', snap)
      && forall t :: t in w'.signed && t !in w.signed ==>
           w'.signed[t].readAt == snap.readAt && w'.signed[t].claims.sub == snap.id
  {
  }

  /** A request signs in its own name. */
  lemma AdvanceSignsAsSelf(cfg: Config, w: World, id: nat, ph: Phase, ch: Choice)
    requires !ph.Done?
    ensures var w' := Advance(cfg, w, id, ph, ch).0;
      forall t :: t in w'.signed && t !in w.signed ==> w'.signed[t].req == id
  {
  }

  lemma StepSignsFromRead(cfg: Config, s: State, step: Step, id: nat, snap: Snapshot)
    requires Apply(cfg, s, step).Some? && id in s.reqs && HoldsOnly(s.reqs[id], snap)
    ensures var s' := Apply(cfg, s, step).value;
      && id in s'.reqs && HoldsOnly(s'.reqs[id], snap)
      && forall t :: t in s'.w.signed && t !in s.w.signed && s'.w.signed[t].req == id ==>
           s'.w.signed[t].readAt == snap.readAt && s'.w.signed[t].claims.sub == snap.id
  {
    if step.Next? && step.id == id {
      AdvanceSignsFromRead(cfg, s.w, id, s.reqs[id], step.choice, snap);
    } else if step.Next? {
      AdvanceSignsAsSelf(cfg, s.w, step.id, s.reqs[step.id], step.choice);
    }
  }

  lemma {:induction false} RunSignsFromRead(cfg: Config, s: State, steps: seq<Step>, id: nat, snap: Snapshot,
          text: string)
    requires Reachable(cfg, s) && Exec(cfg, s, steps).Some?
    requires id in s.reqs && HoldsOnly(s.reqs[id], snap)
    requires var w' := Exec(cfg, s, steps).value.w;
      text in w'.signed && text !in s.w.signed && w'.signed[text].req == id
    ensures var t := Exec(cfg, s, steps).value.w.signed[text]; t.readAt == snap.readAt && t.claims.sub == snap.id
    decreases |steps|
  {
    if steps != [] {
      StepGoesOn(cfg, s, steps[0]);
      StepSignsFromRead(cfg, s, steps[0], id, snap);
      var m := Apply(cfg, s, steps[0]).value;
      if text in m.w.signed {
        RunGoesOn(cfg, m, steps[1..]);
      } else {
        RunSignsFromRead(cfg, m, steps[1..], id, snap, text);
      }
    }
  }

  /** The same for tokens signed only after the revocation, by a login, registration or refresh that was already
      in flight with the old row of u when the revocation committed. */
  lemma InFlightTokensAreRevoked(cfg: Config, s: State, steps: seq<Step>, id: nat, snap: Snapshot, i: nat, text: string)
    requires Reachable(cfg, s) && Exec(cfg, s, steps).Some? && text != ""
    requires id in s.reqs && PendingRead(s.reqs[id]) == Some(snap)
    requires var w' := Exec(cfg, s, steps).value.w;
      && snap.readAt <= i < |w'.log| && RevokesUser(w'.log[i], snap.id)
      && text in w'.signed && text !in s.w.signed && w'.signed[text].req == id
    ensures Auth(cfg, Exec(cfg, s, steps).value.w, "Bearer " + text).None?
  {
    RunGoesOn(cfg, s, steps);
    RunSignsFromRead(cfg, s, steps, id, snap, text);
    AuthExact(cfg, Exec(cfg, s, steps).value, text);
  }

  /** Provenance: whoever reaches an org's route is taken for the user, org and role of an unexpired token,
      for a membership that still exists with that role, that its registration, login or refresh earned when
      it read the user's row, and nothing has revoked the user since that read. */
  lemma Provenance(cfg: Config, s: State, text: string, routeOrg: Option<string>, roles: seq<string>)
    requires Reachable(cfg, s) && text != ""
    requires AdmitsToOrg(cfg, s.w, "Bearer " + text, routeOrg) && AdmitsRole(cfg, s.w, "Bearer " + text, roles)
    ensures text in s.w.signed
    ensures var t := s.w.signed[text]; var c := t.claims;
      && Present(Auth(cfg, s.w, "Bearer " + text)) == Some(Identity(c.sub, c.org, c.role))
      && s.w.now < c.expires
      && routeOrg == Some(c.org) && c.role in roles
      && (c.sub, c.org) in s.w.db.members && s.w.db.members[(c.sub, c.org)] == c.role
      && t.req in s.calls && Earned(cfg, s.w, t.req, s.calls[t.req], c.sub, c.org, t.readAt)
      && !RevokedSince(s.w.log, t.readAt, c.sub)
  {
    ReachableTokens(cfg, s);
    AuthDecides(cfg, s.w, text);
    BearerRoundTrip(text);
    assert SignedOk(cfg, s.w, s.w.signed[text]);
    TokensAreEarned(cfg, s, text);
  }

  /** The role constraint of the membership table allows "admin" and "member" only, so a route
      that asks for owners alone admits nobody. */
  lemma OwnersAreNeverAdmitted(cfg: Config, s: State, text: string)
    requires Reachable(cfg, s) && text != ""
    ensures !AdmitsRole(cfg, s.w, "Bearer " + text, ["owner"])
  {
    ReachableTokens(cfg, s);
    ReachableTables(cfg, s);
    BearerRoundTrip(text);
    if text in s.w.signed {
      var c := s.w.signed[text].claims;
      assert SignedOk(cfg, s.w, s.w.signed[text]);
      assert RoleAllowed(s.w.db.members[(c.sub, c.org)]);
    }
  }
}
