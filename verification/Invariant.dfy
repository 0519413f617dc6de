/** The invariant of the shared world, in independent parts, each kept by every permitted effect. */
module Invariant {
  import opened Text
  import opened Security
  import opened Schema
  import opened Protocol
  import opened Effects

  // ---- The parts ----

  /** Every user has a membership, and every refresh row is scoped to one of its user's memberships. */
  ghost predicate HomesOk(w: World) {
    && (forall u :: u in w.db.users ==> exists o: Uuid :: (u, o) in w.db.members)
    && (forall d :: d in w.db.tokens ==> (w.db.tokens[d].user, w.db.tokens[d].org) in w.db.members)
  }

  /** token_version counts the committed revocations. */
  ghost predicate VersionsOk(w: World) {
    && (forall u :: u in w.db.users ==> w.db.users[u].version == Revocations(w.log, u))
    && (forall i :: 0 <= i < |w.log| && w.log[i].event.Revoked? ==> w.log[i].event.user in w.db.users)
  }

  ghost predicate TokensSignedOk(cfg: Config, w: World) {
    forall t :: t in w.signed ==> SignedOk(cfg, w, w.signed[t])
  }

  /** The refresh token a commit consumed. */
  function Consumed(c: Commit): Option<Digest> {
    match c.event
    case Rotated(spent, _, _) => Some(spent)
    case Revoked(_, cause) => if cause.ByLogout? then Some(cause.digest) else None
    case _ => None
  }

  predicate SpentRow(tokens: map<Digest, Row>, d: Digest) {
    d in tokens && tokens[d].revoked
  }

  /** A consumed token is revoked and was consumed once. */
  ghost predicate SpendsOk(w: World) {
    && (forall i :: 0 <= i < |w.log| && Consumed(w.log[i]).Some? ==> SpentRow(w.db.tokens, Consumed(w.log[i]).value))
    && (forall i, j :: 0 <= i < j < |w.log| && Consumed(w.log[i]).Some? ==> Consumed(w.log[i]) != Consumed(w.log[j]))
  }

  /** The reset keys in Redis are those that were stored and not taken, each dying an hour after storing;
      a commit that names a reset key was made by the request that took it, in time. */
  ghost predicate KeysOk(cfg: Config, w: World) {
    && LiveKeysOk(w)
    && (forall k :: k in w.keys ==> KeyOk(cfg, w, w.keys[k]))
    && ResetCommitsOk(w)
  }

  ghost predicate LiveKeysOk(w: World) {
    && (forall k :: k in w.resets ==>
          && k in w.keys && w.keys[k].taken.None?
          && w.resets[k] == Entry(w.keys[k].user, w.keys[k].storedAt + HOUR))
    && forall k :: k in w.keys && w.keys[k].taken.None? ==> k in w.resets
  }

  ghost predicate ResetCommitsOk(w: World) {
    forall i :: 0 <= i < |w.log| && w.log[i].event.Revoked? && w.log[i].event.cause.ByReset? ==> ResetOk(w, w.log[i])
  }

  ghost predicate KeyOk(cfg: Config, w: World, h: KeyHistory) {
    && h.user in w.db.users && SameEmail(cfg.sql, w.db.users[h.user].email, h.email)
    && (h.taken.Some? ==> h.storedAt <= h.taken.value.at < h.storedAt + HOUR)
    && h.storedAt <= w.now
  }

  ghost predicate ResetOk(w: World, c: Commit)
    requires c.event.Revoked? && c.event.cause.ByReset?
  {
    var k := c.event.cause.key;
    k in w.keys && w.keys[k].user == c.event.user && w.keys[k].taken.Some? && w.keys[k].taken.value.req == c.req
  }

  /** A request commits at most one revocation. */
  ghost predicate RevokersOk(w: World) {
    forall i, j :: 0 <= i < j < |w.log| && w.log[i].event.Revoked? && w.log[j].event.Revoked?
      ==> w.log[i].req != w.log[j].req
  }

  /** How many sign-ups of u have committed. */
  function SignUpCount(log: seq<Commit>, u: Uuid): nat {
    if log == [] then 0
    else
      var ev := log[|log| - 1].event;
      SignUpCount(log[..|log| - 1], u) + if ev.SignedUp? && ev.user == u then 1 else 0
  }

  ghost predicate SignUpOk(w: World, e: Event)
    requires e.SignedUp?
  {
    && e.user in w.db.users && w.db.users[e.user].email == e.email
    && (e.user, e.org) in w.db.members && w.db.members[(e.user, e.org)] == "admin"
  }

  /** Users are exactly those who signed up, each once, with a first membership as admin. */
  ghost predicate SignUpsOk(w: World) {
    && (forall i :: 0 <= i < |w.log| && w.log[i].event.SignedUp? ==> SignUpOk(w, w.log[i].event))
    && (forall u: Uuid :: SignUpCount(w.log, u) == if u in w.db.users then 1 else 0)
  }

  /** The password hash a commit gave the user. */
  function HashSet(c: Commit, u: Uuid): Option<string> {
    match c.event
    case SignedUp(v, _, _, hash) => if u == v then Some(hash) else None
    case Revoked(v, cause) =>
      if u != v || cause.ByLogout? then None
      else Some(cause.hash)
    case _ => None
  }

  /** The hash of the last commit that set one. */
  function LastHash(log: seq<Commit>, u: Uuid): Option<string> {
    if log == [] then None
    else if HashSet(log[|log| - 1], u).Some? then HashSet(log[|log| - 1], u)
    else LastHash(log[..|log| - 1], u)
  }

  ghost predicate HashesOk(w: World) {
    forall u :: u in w.db.users ==> LastHash(w.log, u) == Some(w.db.users[u].hash)
  }

  /** A user's refresh rows that are not revoked. */
  function LiveRows(tokens: map<Digest, Row>, u: Uuid): set<Digest> {
    set d | d in tokens && tokens[d].user == u && !tokens[d].revoked
  }

  /** Sessions opened by logins and registrations since the user was last revoked. */
  function OpenSessions(log: seq<Commit>, u: Uuid): nat {
    if log == [] then 0
    else
      var c := log[|log| - 1];
      var before := OpenSessions(log[..|log| - 1], u);
      if RevokesUser(c, u) then 0 else if c.event.Opened? && c.event.user == u then before + 1 else before
  }

  /** Live rows are the sessions opened since the last revocation, one row each. */
  ghost predicate SessionsOk(w: World) {
    forall u: Uuid :: |LiveRows(w.db.tokens, u)| == OpenSessions(w.log, u)
  }

  // ---- Lineage ----

  /** A row's origin: a root begins a family; any other row replaced an already spent row
      of the same family, one generation earlier, for the same user and org. */
  ghost predicate OriginOk(w: World, d: Digest)
    requires d in w.lineage
  {
    var o := w.lineage[d];
    && d in w.db.tokens && o.birth < |w.log|
    && o.root in w.lineage && w.lineage[o.root].root == o.root && w.lineage[o.root].gen == 0
    && w.lineage[o.root].birth == o.since && o.root in w.db.tokens
    && w.db.tokens[d].user == w.db.tokens[o.root].user && w.db.tokens[d].org == w.db.tokens[o.root].org
    && (if o.gen == 0 then
          d == o.root && o.parent.None? && w.log[o.birth].event == Opened(d, w.db.tokens[d].user, w.db.tokens[d].org)
        else
          && o.parent.Some? && w.log[o.birth].event == Rotated(o.parent.value, d, w.db.tokens[d].user)
          && var p := o.parent.value;
             && p in w.lineage && w.lineage[p].root == o.root && w.lineage[p].gen == o.gen - 1
             && p in w.db.tokens && w.db.tokens[p].revoked)
  }

  /** No row of d's family is of a later generation. */
  ghost predicate Newest(lineage: map<Digest, Origin>, d: Digest)
    requires d in lineage
  {
    forall f :: f in lineage && lineage[f].root == lineage[d].root ==> lineage[f].gen <= lineage[d].gen
  }

  /** A live row is the newest of its family, and its family is younger than its user's last revocation. */
  ghost predicate LiveOk(w: World, d: Digest)
    requires d in w.lineage && d in w.db.tokens
  {
    !w.db.tokens[d].revoked ==>
      Newest(w.lineage, d) && !RevokedSince(w.log, w.lineage[d].since, w.db.tokens[d].user)
  }

  predicate SameRung(a: Origin, b: Origin) {
    a.root == b.root && a.gen == b.gen
  }

  ghost predicate OriginsOk(w: World) {
    forall d {:trigger OriginOk(w, d)} :: d in w.lineage ==> OriginOk(w, d)
  }

  ghost predicate LivesOk(w: World) {
    w.lineage.Keys == w.db.tokens.Keys && forall d {:trigger LiveOk(w, d)} :: d in w.lineage ==> LiveOk(w, d)
  }

  predicate RootKnown(lineage: map<Digest, Origin>, d: Digest)
    requires d in lineage
  {
    lineage[d].root in lineage
  }

  ghost predicate RootsKnown(lineage: map<Digest, Origin>) {
    forall d {:trigger RootKnown(lineage, d)} :: d in lineage ==> RootKnown(lineage, d)
  }

  /** No two rows of a family are of one generation. */
  ghost predicate RungsOk(lineage: map<Digest, Origin>) {
    forall d, e {:trigger SameRung(lineage[d], lineage[e])} ::
      d in lineage && e in lineage && SameRung(lineage[d], lineage[e]) ==> d == e
  }

  ghost predicate LineageOk(w: World) {
    OriginsOk(w) && LivesOk(w) && RungsOk(w.lineage)
  }

  ghost predicate WorldOk(cfg: Config, w: World) {
    && TablesOk(cfg.sql, w.db) && HomesOk(w) && VersionsOk(w) && TokensSignedOk(cfg, w)
    && SpendsOk(w) && KeysOk(cfg, w) && RevokersOk(w) && SignUpsOk(w) && HashesOk(w)
    && SessionsOk(w) && LineageOk(w)
  }

  // ---- Each part is kept ----

  lemma NoRevocations(log: seq<Commit>, u: Uuid)
    requires !RevokedSince(log, 0, u)
    ensures Revocations(log, u) == 0
  {
  }

  lemma EmailsKept(cfg: Config, w: World, id: nat, e: Effect)
    requires EmailsUnique(cfg.sql, w.db) && Permitted(cfg, w, id, e)
    ensures EmailsUnique(cfg.sql, Perform(w, id, e).db)
  {
  }

  lemma TablesKept(cfg: Config, w: World, id: nat, e: Effect)
    requires TablesOk(cfg.sql, w.db) && Permitted(cfg, w, id, e)
    ensures TablesOk(cfg.sql, Perform(w, id, e).db)
  {
    EmailsKept(cfg, w, id, e);
    MembersKept(cfg, w, id, e);
    RowsKept(cfg, w, id, e);
    RangesKept(cfg, w, id, e);
  }

  lemma MembersKept(cfg: Config, w: World, id: nat, e: Effect)
    requires MembersValid(w.db) && Permitted(cfg, w, id, e)
    ensures MembersValid(Perform(w, id, e).db)
  {
  }

  lemma RowsKept(cfg: Config, w: World, id: nat, e: Effect)
    requires TokensValid(w.db) && Permitted(cfg, w, id, e)
    ensures TokensValid(Perform(w, id, e).db)
  {
  }

  lemma RangesKept(cfg: Config, w: World, id: nat, e: Effect)
    requires VersionsInRange(w.db) && Permitted(cfg, w, id, e)
    ensures VersionsInRange(Perform(w, id, e).db)
  {
  }

  lemma DbExtends(cfg: Config, w: World, id: nat, e: Effect)
    requires Permitted(cfg, w, id, e)
    ensures ExtendsDb(w.db, Perform(w, id, e).db)
  {
  }

  lemma ExtendsKept(cfg: Config, w: World, id: nat, e: Effect)
    requires LiveKeysOk(w) && Permitted(cfg, w, id, e)
    requires forall d :: d in w.lineage ==> d in w.db.tokens
    ensures Extends(w, Perform(w, id, e))
  {
    DbExtends(cfg, w, id, e);
    KeysExtend(cfg, w, id, e);
  }

  lemma KeysExtend(cfg: Config, w: World, id: nat, e: Effect)
    requires LiveKeysOk(w) && Permitted(cfg, w, id, e)
    ensures var keys := KeysAfter(w, id, e); forall k :: k in w.keys ==> k in keys && KeepsKey(w.keys[k], keys[k])
  {
  }

  lemma HomesKept(cfg: Config, w: World, id: nat, e: Effect)
    requires HomesOk(w) && Permitted(cfg, w, id, e)
    ensures HomesOk(Perform(w, id, e))
  {
  }

  lemma VersionsKept(cfg: Config, w: World, id: nat, e: Effect)
    requires VersionsOk(w) && Permitted(cfg, w, id, e)
    ensures VersionsOk(Perform(w, id, e))
  {
    var w' := Perform(w, id, e);
    forall u | u in w'.db.users ensures w'.db.users[u].version == Revocations(w'.log, u) {
      VersionKept(cfg, w, id, e, u);
    }
  }

  lemma VersionKept(cfg: Config, w: World, id: nat, e: Effect, u: Uuid)
    requires VersionsOk(w) && Permitted(cfg, w, id, e) && u in UsersAfter(w.db.users, e)
    ensures UsersAfter(w.db.users, e)[u].version == Revocations(LogAfter(w, id, e), u)
  {
    if EventOf(w, e).Some? { RevocationsAppend(w.log, Commit(id, EventOf(w, e).value), u); }
    if u !in w.db.users { NoRevocations(w.log, u); }
  }

  lemma TokensSignedKept(cfg: Config, w: World, id: nat, e: Effect)
    requires TokensSignedOk(cfg, w) && Permitted(cfg, w, id, e) && Extends(w, Perform(w, id, e))
    ensures TokensSignedOk(cfg, Perform(w, id, e))
  {
    var w' := Perform(w, id, e);
    forall t | t in w'.signed ensures SignedOk(cfg, w', w'.signed[t]) {
      SignedStays(cfg, w, w', w'.signed[t]);
    }
  }

  lemma SignedStays(cfg: Config, w: World, w': World, t: Signed)
    requires SignedOk(cfg, w, t) && Extends(w, w')
    ensures SignedOk(cfg, w', t)
  {
    assert w'.log[..t.readAt] == w.log[..t.readAt];
  }

  lemma SpendsKept(cfg: Config, w: World, id: nat, e: Effect)
    requires SpendsOk(w) && Permitted(cfg, w, id, e) && Extends(w, Perform(w, id, e))
    ensures SpendsOk(Perform(w, id, e))
  {
    var w', n := Perform(w, id, e), |w.log|;
    if |w'.log| > n && Consumed(w'.log[n]).Some? {
      var d := Consumed(w'.log[n]).value;
      assert d in w.db.tokens && !w.db.tokens[d].revoked && SpentRow(w'.db.tokens, d);
    }
    forall i | 0 <= i < n && Consumed(w.log[i]).Some? ensures SpentRow(w'.db.tokens, Consumed(w.log[i]).value) {
      assert SpentRow(w.db.tokens, Consumed(w.log[i]).value);
    }
  }

  lemma ResetsKept(cfg: Config, w: World, id: nat, e: Effect)
    requires KeysOk(cfg, w) && Permitted(cfg, w, id, e)
    ensures LiveKeysOk(Perform(w, id, e))
  {
  }

  lemma KeysKept(cfg: Config, w: World, id: nat, e: Effect)
    requires KeysOk(cfg, w) && Permitted(cfg, w, id, e) && Extends(w, Perform(w, id, e))
    ensures KeysOk(cfg, Perform(w, id, e))
  {
    var w' := Perform(w, id, e);
    ResetsKept(cfg, w, id, e);
    forall k | k in w'.keys ensures KeyOk(cfg, w', w'.keys[k]) {
      if k in w.keys { assert KeyOk(cfg, w, w.keys[k]); }
    }
    CommittedResetsKept(cfg, w, id, e);
  }

  lemma CommittedResetsKept(cfg: Config, w: World, id: nat, e: Effect)
    requires KeysOk(cfg, w) && Permitted(cfg, w, id, e) && Extends(w, Perform(w, id, e))
    ensures ResetCommitsOk(Perform(w, id, e))
  {
    var w' := Perform(w, id, e);
    forall i | 0 <= i < |w'.log| && w'.log[i].event.Revoked? && w'.log[i].event.cause.ByReset?
      ensures ResetOk(w', w'.log[i])
    {
      if i < |w.log| {
        assert ResetOk(w, w.log[i]);
        assert KeepsKey(w.keys[w.log[i].event.cause.key], w'.keys[w.log[i].event.cause.key]);
      }
    }
  }

  lemma RevokersKept(cfg: Config, w: World, id: nat, e: Effect)
    requires RevokersOk(w) && Permitted(cfg, w, id, e)
    ensures RevokersOk(Perform(w, id, e))
  {
  }

  lemma SignUpsKept(cfg: Config, w: World, id: nat, e: Effect)
    requires SignUpsOk(w) && Permitted(cfg, w, id, e) && ExtendsDb(w.db, DbAfter(w.db, e))
    ensures SignUpsOk(Perform(w, id, e))
  {
  }

  lemma HashesKept(cfg: Config, w: World, id: nat, e: Effect)
    requires HashesOk(w) && Permitted(cfg, w, id, e)
    ensures HashesOk(Perform(w, id, e))
  {
  }

  /** What an effect needs of the refresh rows. */
  predicate RowsReady(tokens: map<Digest, Row>, e: Effect) {
    && (e.Open? ==> e.digest !in tokens)
    && (e.Rotate? ==> e.spent in tokens && !tokens[e.spent].revoked && e.minted !in tokens)
  }

  lemma LiveRowsRotated(tokens: map<Digest, Row>, e: Effect, u: Uuid, d: Digest)
    requires e.Rotate? && RowsReady(tokens, e)
    ensures d in LiveRows(TokensAfter(tokens, e), u) <==>
      if tokens[e.spent].user == u then d == e.minted || (d in LiveRows(tokens, u) && d != e.spent)
      else d in LiveRows(tokens, u)
  {
  }

  lemma LiveRowsAfterRotate(tokens: map<Digest, Row>, e: Effect, u: Uuid)
    requires e.Rotate? && RowsReady(tokens, e)
    ensures |LiveRows(TokensAfter(tokens, e), u)| == |LiveRows(tokens, u)|
  {
    var before, after := LiveRows(tokens, u), LiveRows(TokensAfter(tokens, e), u);
    forall d: Digest { LiveRowsRotated(tokens, e, u, d); }
    if tokens[e.spent].user == u {
      assert after == before - {e.spent} + {e.minted};
      assert e.spent in before && e.minted !in before;
    } else {
      assert after == before;
    }
  }

  lemma LiveRowsAfterOpen(tokens: map<Digest, Row>, e: Effect, u: Uuid)
    requires e.Open? && RowsReady(tokens, e)
    ensures |LiveRows(TokensAfter(tokens, e), u)| == |LiveRows(tokens, u)| + if e.owner == u then 1 else 0
  {
    var before, after := LiveRows(tokens, u), LiveRows(TokensAfter(tokens, e), u);
    if e.owner == u {
      assert after == before + {e.digest};
      assert e.digest !in before;
    } else {
      assert after == before;
    }
  }

  lemma LiveRowsAfterRevoke(tokens: map<Digest, Row>, u: Uuid, v: Uuid)
    ensures LiveRows(RevokedRows(tokens, v), u) == if u == v then {} else LiveRows(tokens, u)
  {
  }

  /** How each effect changes the number of a user's live rows: rotation keeps it. */
  lemma LiveRowsAfter(tokens: map<Digest, Row>, e: Effect, u: Uuid)
    requires RowsReady(tokens, e)
    ensures |LiveRows(TokensAfter(tokens, e), u)| ==
      if e.Revoke? && e.victim == u then 0
      else |LiveRows(tokens, u)| + if e.Open? && e.owner == u then 1 else 0
  {
    if e.Rotate? {
      LiveRowsAfterRotate(tokens, e, u);
    } else if e.Open? {
      LiveRowsAfterOpen(tokens, e, u);
    } else if e.Revoke? {
      LiveRowsAfterRevoke(tokens, u, e.victim);
    }
  }

  lemma SessionsKept(cfg: Config, w: World, id: nat, e: Effect)
    requires SessionsOk(w) && Permitted(cfg, w, id, e)
    ensures SessionsOk(Perform(w, id, e))
  {
    var w' := Perform(w, id, e);
    if w'.log != w.log { assert w'.log[..|w.log|] == w.log; }
    forall u: Uuid ensures |LiveRows(w'.db.tokens, u)| == OpenSessions(w'.log, u) {
      LiveRowsAfter(w.db.tokens, e, u);
    }
  }

  // Lineage: a world whose rows and log only grew keeps the origins it had.

  lemma OriginKept(w: World, w': World, d: Digest)
    requires d in w.lineage && OriginOk(w, d)
    requires ExtendsDb(w.db, w'.db) && w.log <= w'.log
    requires forall d :: d in w.lineage ==> d in w'.lineage && w'.lineage[d] == w.lineage[d]
    ensures OriginOk(w', d)
  {
  }

  lemma NewOrigin(cfg: Config, w: World, id: nat, e: Effect)
    requires LineageOk(w) && Permitted(cfg, w, id, e) && (e.Open? || e.Rotate?)
    ensures var w' := Perform(w, id, e); var d := if e.Open? then e.digest else e.minted;
      d in w'.lineage && OriginOk(w', d)
  {
    if e.Rotate? { assert OriginOk(w, e.spent) && OriginOk(w, w.lineage[e.spent].root); }
  }

  lemma RowsHaveOrigins(cfg: Config, w: World, id: nat, e: Effect)
    requires w.lineage.Keys == w.db.tokens.Keys && Permitted(cfg, w, id, e)
    ensures LineageAfter(w, e).Keys == TokensAfter(w.db.tokens, e).Keys
  {
  }

  lemma OriginsKept(cfg: Config, w: World, id: nat, e: Effect)
    requires LineageOk(w) && Permitted(cfg, w, id, e) && Extends(w, Perform(w, id, e))
    ensures OriginsOk(Perform(w, id, e))
  {
    var w' := Perform(w, id, e);
    if e.Open? || e.Rotate? { NewOrigin(cfg, w, id, e); }
    forall d | d in w'.lineage ensures OriginOk(w', d) {
      if d in w.lineage { OriginKept(w, w', d); }
    }
  }

  lemma RungsKept(w: World, e: Effect)
    requires RungsOk(w.lineage) && LivesOk(w) && RowsReady(w.db.tokens, e)
    requires RootsKnown(w.lineage)
    ensures RungsOk(LineageAfter(w, e))
  {
    var l := LineageAfter(w, e);
    if e.Rotate? { assert LiveOk(w, e.spent); }
    forall d, f | d in l && f in l && SameRung(l[d], l[f]) ensures d == f {
      if d in w.lineage { assert RootKnown(w.lineage, d); }
      if f in w.lineage { assert RootKnown(w.lineage, f); }
      if d in w.lineage && f in w.lineage { assert SameRung(w.lineage[d], w.lineage[f]); }
    }
  }

  lemma NewestAfterOpen(w: World, e: Effect, d: Digest)
    requires LivesOk(w) && e.Open? && RowsReady(w.db.tokens, e)
    requires RootsKnown(w.lineage)
    requires d in LineageAfter(w, e) && (d in w.lineage ==> !w.db.tokens[d].revoked)
    ensures Newest(LineageAfter(w, e), d)
  {
    var l := LineageAfter(w, e);
    if d in w.lineage { assert LiveOk(w, d) && RootKnown(w.lineage, d); }
    forall f | f in l && l[f].root == l[d].root ensures l[f].gen <= l[d].gen {
      if f in w.lineage { assert RootKnown(w.lineage, f); }
    }
  }

  lemma NewestAfterRotate(w: World, e: Effect, d: Digest)
    requires LivesOk(w) && RungsOk(w.lineage) && e.Rotate? && RowsReady(w.db.tokens, e)
    requires d in LineageAfter(w, e) && (d in w.lineage ==> d != e.spent && !w.db.tokens[d].revoked)
    ensures Newest(LineageAfter(w, e), d)
  {
    assert LiveOk(w, e.spent);
    if d in w.lineage {
      assert LiveOk(w, d);
      assert !SameRung(w.lineage[d], w.lineage[e.spent]);
    }
  }

  lemma StillUnrevoked(w: World, id: nat, e: Effect, from: nat, u: Uuid)
    requires !RevokedSince(w.log, from, u) && !(e.Revoke? && e.victim == u)
    ensures !RevokedSince(LogAfter(w, id, e), from, u)
  {
  }

  /** After any effect a live row is still the newest of an unrevoked family: only its own
      rotation adds a newer one, and only a revocation of its user, which kills it, is held against it. */
  lemma LiveKept(w: World, id: nat, e: Effect, d: Digest)
    requires LivesOk(w) && RungsOk(w.lineage) && RowsReady(w.db.tokens, e)
    requires RootsKnown(w.lineage)
    requires d in LineageAfter(w, e) && d in TokensAfter(w.db.tokens, e) && !TokensAfter(w.db.tokens, e)[d].revoked
    ensures Newest(LineageAfter(w, e), d)
    ensures !RevokedSince(LogAfter(w, id, e), LineageAfter(w, e)[d].since, TokensAfter(w.db.tokens, e)[d].user)
  {
    var o, u := LineageAfter(w, e)[d], TokensAfter(w.db.tokens, e)[d].user;
    if e.Open? {
      NewestAfterOpen(w, e, d);
      assert d in w.lineage ==> LiveOk(w, d);
    } else if e.Rotate? {
      NewestAfterRotate(w, e, d);
      assert LiveOk(w, e.spent) && (d in w.lineage ==> LiveOk(w, d));
    } else {
      assert LiveOk(w, d);
    }
    StillUnrevoked(w, id, e, o.since, u);
  }

  lemma LivesKept(w: World, id: nat, e: Effect)
    requires LivesOk(w) && RungsOk(w.lineage) && RowsReady(w.db.tokens, e)
    requires RootsKnown(w.lineage)
    requires LineageAfter(w, e).Keys == TokensAfter(w.db.tokens, e).Keys
    ensures LivesOk(Perform(w, id, e))
  {
    var w' := Perform(w, id, e);
    forall d | d in w'.lineage ensures LiveOk(w', d) {
      if !w'.db.tokens[d].revoked { LiveKept(w, id, e, d); }
    }
  }

  lemma LineageKept(cfg: Config, w: World, id: nat, e: Effect)
    requires LineageOk(w) && Permitted(cfg, w, id, e) && Extends(w, Perform(w, id, e))
    ensures LineageOk(Perform(w, id, e))
  {
    RowsHaveOrigins(cfg, w, id, e);
    OriginsKept(cfg, w, id, e);
    forall d | d in w.lineage ensures RootKnown(w.lineage, d) { assert OriginOk(w, d); }
    LivesKept(w, id, e);
    RungsKept(w, e);
  }

  /** Every permitted effect keeps the whole invariant, and only adds to the past. */
  lemma WorldKept(cfg: Config, w: World, id: nat, e: Effect)
    requires WorldOk(cfg, w) && Permitted(cfg, w, id, e)
    ensures WorldOk(cfg, Perform(w, id, e)) && Extends(w, Perform(w, id, e))
  {
    ExtendsKept(cfg, w, id, e);
    DbExtends(cfg, w, id, e);
    TablesKept(cfg, w, id, e);
    HomesKept(cfg, w, id, e);
    VersionsKept(cfg, w, id, e);
    TokensSignedKept(cfg, w, id, e);
    SpendsKept(cfg, w, id, e);
    KeysKept(cfg, w, id, e);
    RevokersKept(cfg, w, id, e);
    SignUpsKept(cfg, w, id, e);
    HashesKept(cfg, w, id, e);
    SessionsKept(cfg, w, id, e);
    LineageKept(cfg, w, id, e);
  }
}
