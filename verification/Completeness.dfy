/** When login succeeds, whatever other requests do between its steps. */
module Completeness {
  import opened Text
  import opened Security
  import opened Schema
  import opened Protocol
  import opened Invariant
  import opened Steps
  import opened Runs

  /** The membership a login is entitled to: the org it names, or the user's only one. */
  ghost predicate EntitledTo(db: Db, u: Uuid, sel: Selector, o: Uuid) {
    && (u, o) in db.members
    && match sel
       case Blank => forall p: Uuid :: (u, p) in db.members ==> p == o
       case Malformed => false
       case Chosen(org) => org == o
  }

  lemma OneRowForOneOrg(db: Db, u: Uuid, rows: seq<(Uuid, string)>, o: Uuid)
    requires Lists(db, u, rows) && (u, o) in db.members
    ensures (forall p: Uuid :: (u, p) in db.members ==> p == o) <==> |rows| == 1
    ensures |rows| == 1 ==> rows[0] == (o, db.members[(u, o)])
  {
    var i :| 0 <= i < |rows| && rows[i].0 == o;
    if |rows| == 1 {
      forall p: Uuid | (u, p) in db.members ensures p == o {
        var j :| 0 <= j < |rows| && rows[j].0 == p;
      }
    } else {
      var j := if i == 0 then 1 else 0;
      assert rows[j].0 != rows[i].0;
    }
  }

  /** Selection depends on the user's memberships only, not on the order they are listed in: it
      succeeds exactly when the login is entitled to some membership, and then picks that one. */
  lemma SelectionDecided(db: Db, u: Uuid, rows: seq<(Uuid, string)>, sel: Selector)
    requires Lists(db, u, rows)
    ensures var r := SelectMembership(rows, sel);
      && (r.Ok? ==> EntitledTo(db, u, sel, r.value.0) && r.value.1 == db.members[(u, r.value.0)])
      && (forall o :: EntitledTo(db, u, sel, o) ==> r == Ok((o, db.members[(u, o)])))
  {
    var r := SelectMembership(rows, sel);
    if r.Ok? {
      SelectedIsListed(rows, sel);
      var i :| 0 <= i < |rows| && rows[i] == r.value;
      OneRowForOneOrg(db, u, rows, r.value.0);
      if sel.Chosen? { FirstIsListed(rows, sel.org); }
    }
    forall o | EntitledTo(db, u, sel, o) ensures r == Ok((o, db.members[(u, o)])) {
      var i :| 0 <= i < |rows| && rows[i].0 == o;
      if sel.Chosen? {
        FirstIsListed(rows, o);
        var j :| 0 <= j < |rows| && rows[j] == r.value;
      } else {
        OneRowForOneOrg(db, u, rows, o);
      }
    }
  }

  /** The account a login's email and password name: the password is the last one committed for it. */
  ghost predicate Authenticates(cfg: Config, w: World, email: string, password: string, u: Uuid) {
    && u in w.db.users && SameEmail(cfg.sql, w.db.users[u].email, email)
    && LastHash(w.log, u).Some? && cfg.matches(LastHash(w.log, u).value, password)
  }

  /** The first statement of a login lets it through exactly when email and password name an account. */
  lemma LookupDecided(cfg: Config, s: State, id: nat, email: string, password: string, sel: Selector, ch: Choice)
    requires Reachable(cfg, s)
    ensures var (w', ph') := Advance(cfg, s.w, id, LoginLookup(email, password, sel), ch);
      && w' == s.w
      && (ph'.LoginMembers? ==> Authenticates(cfg, s.w, email, password, ph'.snap.id) && ph'.sel == sel)
      && (!ph'.LoginMembers? ==> ph' == Done(Err(InvalidCredentials)))
      && (forall u :: Authenticates(cfg, s.w, email, password, u) ==> ph'.LoginMembers? && ph'.snap.id == u)
  {
    ReachableTables(cfg, s);
    ReachableVersions(cfg, s);
    forall u | Authenticates(cfg, s.w, email, password, u)
      ensures UserByEmail(cfg.sql, s.w.db, email) == Some(u)
    {
      UserByEmailUnique(cfg.sql, s.w.db, email, u);
    }
  }

  /** The second lets it through exactly when it is entitled to a membership, in any listing order. */
  lemma MembersDecided(cfg: Config, s: State, id: nat, ch: Choice)
    requires Reachable(cfg, s) && id in s.reqs && s.reqs[id].LoginMembers? && Allowed(cfg, s.w, s.reqs[id], ch)
    ensures var ph := s.reqs[id]; var u := ph.snap.id;
      var (w', ph') := Advance(cfg, s.w, id, ph, ch);
      && w' == s.w
      && (ph'.IssueSign? ==> EntitledTo(s.w.db, u, ph.sel, ph'.org) && ph'.role == s.w.db.members[(u, ph'.org)])
      && (!ph'.IssueSign? ==> ph'.Done? && ph'.outcome.Err?)
      && (forall o :: EntitledTo(s.w.db, u, ph.sel, o) ==> ph'.IssueSign? && ph'.snap == ph.snap && ph'.org == o)
  {
    SelectionDecided(s.w.db, s.reqs[id].snap.id, ch.rows, s.reqs[id].sel);
  }

  /** From there it cannot fail, whatever has happened since it read: the foreign keys hold because
      nothing is ever deleted, and the secret is new. */
  lemma IssueCompletes(cfg: Config, s: State, id: nat, ch: Choice)
    requires Reachable(cfg, s) && id in s.reqs && Allowed(cfg, s.w, s.reqs[id], ch) && CanSign(cfg)
    ensures s.reqs[id].IssueSign? ==> Advance(cfg, s.w, id, s.reqs[id], ch).1.IssueStore?
    ensures s.reqs[id].RefreshSign? ==>
      Advance(cfg, s.w, id, s.reqs[id], ch).1 == Done(Ok(Tokens(ch.text, s.reqs[id].secret, s.reqs[id].snap.id)))
    ensures s.reqs[id].IssueStore? ==>
      var (w', ph') := Advance(cfg, s.w, id, s.reqs[id], ch);
      && ph' == Done(Ok(Tokens(s.reqs[id].text, ch.secret, s.reqs[id].snap.id)))
      && Consumable(w'.db, HashOpaqueToken(ch.secret), s.w.now) == (cfg.refreshExpiry > 0)
  {
    ReachablePhase(cfg, s, id);
    ReachableTables(cfg, s);
  }

  /** Registration leaves a user who can log in: every user has a membership at all times. */
  lemma EveryUserHasAHome(cfg: Config, s: State, u: Uuid)
    requires Reachable(cfg, s) && u in s.w.db.users
    ensures exists o: Uuid :: (u, o) in s.w.db.members
  {
    ReachableTables(cfg, s);
  }
}
