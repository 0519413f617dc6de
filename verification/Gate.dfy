/** The middleware in front of protected routes: token validation, the version check,
    and the role and org checks. */
module Gate {
  import opened Text
  import opened Protocol

  datatype Identity = Identity(userID: string, orgID: string, role: string)

  function FirstSpace(s: string): (i: nat)
    ensures i <= |s|
  {
    if s == "" || s[0] == ' ' then 0 else 1 + FirstSpace(s[1..])
  }

  /** strings.SplitN(header, " ", 2) gives "Bearer" and a token. */
  function BearerToken(header: string): Option<string> {
    var i := FirstSpace(header);
    if i == |header| || header[..i] != "Bearer" || header[i + 1..] == "" then None else Some(header[i + 1..])
  }

  /** Only texts signed with the secret parse; issuer, audience and expiry are then checked
      (sections 4.1.1, 4.1.3 and 4.1.4 of RFC 7519). */
  function ValidateAccessToken(cfg: Config, w: World, text: string): Option<Claims> {
    if text !in w.signed then None
    else
      var c := w.signed[text].claims;
      if c.issuer == cfg.issuer && c.audience == cfg.audience && w.now < c.expires then Some(c) else None
  }

  function Auth(cfg: Config, w: World, header: string): Option<Identity> {
    if header == "" then None
    else match BearerToken(header)
      case None => None
      case Some(text) =>
        match ValidateAccessToken(cfg, w, text)
        case None => None
        case Some(c) =>
          if c.sub !in w.db.users || w.db.users[c.sub].version != c.version then None
          else Some(Identity(c.sub, c.org, c.role))
  }

  predicate CanAccessOrg(identity: Identity, orgID: string) {
    identity.userID != "" && identity.orgID != "" && orgID != "" && identity.orgID == orgID
  }

  predicate HasRole(identity: Identity, role: string) {
    identity.userID != "" && identity.orgID != "" && identity.role == role
  }

  predicate HasAnyRole(identity: Identity, roles: seq<string>) {
    exists i :: 0 <= i < |roles| && HasRole(identity, roles[i])
  }

  /** IdentityFromContext: an identity counts only when every part is present. */
  function Present(identity: Option<Identity>): Option<Identity> {
    match identity
    case None => None
    case Some(i) => if i.userID == "" || i.orgID == "" || i.role == "" then None else identity
  }

  /** Auth, then RequireOrgAccess for the org the route names. */
  predicate AdmitsToOrg(cfg: Config, w: World, header: string, routeOrg: Option<string>) {
    var id := Present(Auth(cfg, w, header));
    id.Some? && routeOrg.Some? && routeOrg.value != "" && CanAccessOrg(id.value, routeOrg.value)
  }

  /** Auth, then RequireRole. */
  predicate AdmitsRole(cfg: Config, w: World, header: string, roles: seq<string>) {
    var id := Present(Auth(cfg, w, header));
    id.Some? && HasAnyRole(id.value, roles)
  }

  /** The header a client sends for a token is read back as that token. */
  lemma BearerRoundTrip(text: string)
    requires text != ""
    ensures BearerToken("Bearer " + text) == Some(text)
  {
    FirstSpaceAfter("Bearer", text);
    assert ("Bearer" + " " + text)[7..] == text;
    assert "Bearer" + " " + text == "Bearer " + text;
  }

  /** No other header carries a token. */
  lemma BearerOnly(header: string, text: string)
    ensures BearerToken(header) == Some(text) <==> text != "" && header == "Bearer " + text
  {
    if text != "" && header == "Bearer " + text { BearerRoundTrip(text); }
    if BearerToken(header) == Some(text) {
      var i := FirstSpace(header);
      FirstSpaceIs(header);
      assert header == header[..i] + [header[i]] + header[i + 1..];
      assert header == "Bearer" + " " + text == "Bearer " + text;
    }
  }

  lemma {:induction false} FirstSpaceIs(s: string)
    ensures FirstSpace(s) < |s| ==> s[FirstSpace(s)] == ' '
  {
    if s != "" && s[0] != ' ' { FirstSpaceIs(s[1..]); }
  }

  /** A token of another issuer or for another audience is nobody's, whatever its signature and expiry. */
  lemma ForeignTokensRejected(cfg: Config, w: World, text: string)
    requires text in w.signed
    requires w.signed[text].claims.issuer != cfg.issuer || w.signed[text].claims.audience != cfg.audience
    ensures Auth(cfg, w, "Bearer " + text).None?
  {
    if text != "" { BearerRoundTrip(text); } else { BearerOnly("Bearer ", ""); }
  }

  lemma {:induction false} FirstSpaceAfter(word: string, rest: string)
    requires ' ' !in word
    ensures FirstSpace(word + " " + rest) == |word|
  {
    if word == "" {
      assert (word + " " + rest)[0] == ' ';
    } else {
      FirstSpaceAfter(word[1..], rest);
      assert (word + " " + rest)[1..] == word[1..] + " " + rest;
    }
  }
}
