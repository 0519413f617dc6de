/** Which counter a request falls under: its policy, its client address and its email,
    printed into one Redis key. */
module RateKeys {
  import opened Text
  import opened Security

  datatype Scope = ByIP | ByEmailAndIP

  /** The window is in milliseconds. */
  datatype Policy = Policy(name: string, limit: nat, window: int, scope: Scope)

  /** What the limiter reads of a request: the host part of the peer address, two headers, and the
      email field of the body, empty when the body is missing, unreadable or no such JSON. */
  datatype Request = Request(path: string, host: string, forwardedFor: string, realIP: string, email: string)

  /** `parses` is net.ParseIP succeeding; each trusted network is the set of addresses it contains. */
  datatype Settings = Settings(
    go: Chars, parses: string -> bool, trustHeaders: bool, trusted: seq<string -> bool>)

  const MINUTE := 60_000

  predicate Skipped(path: string) {
    path == "/healthz" || path == "/readyz" || path == "/metrics"
  }

  function PolicyFor(path: string): Policy {
    if path == "/api/v1/auth/login" then Policy("auth-login", 10, MINUTE, ByEmailAndIP)
    else if path == "/api/v1/auth/forgot-password" then Policy("auth-forgot-password", 5, 15 * MINUTE, ByEmailAndIP)
    else if path == "/api/v1/auth/reset-password" then Policy("auth-reset-password", 10, 15 * MINUTE, ByIP)
    else if path == "/api/v1/auth/refresh" then Policy("auth-refresh", 20, MINUTE, ByIP)
    else if path == "/api/v1/auth/register" then Policy("auth-register", 10, 15 * MINUTE, ByEmailAndIP)
    else Policy("default", 100, MINUTE, ByIP)
  }

  // ---- The client address ----

  /** strings.Split at commas. */
  function SplitCommas(s: string): (parts: seq<string>)
    ensures parts != []
  {
    if s == "" then [""]
    else
      var rest := SplitCommas(s[1..]);
      if s[0] == ',' then [""] + rest else [[s[0]] + rest[0]] + rest[1..]
  }

  function JoinCommas(parts: seq<string>): string
    requires parts != []
  {
    if |parts| == 1 then parts[0] else parts[0] + "," + JoinCommas(parts[1..])
  }

  /** Splitting loses nothing and leaves no comma. */
  lemma {:induction false} SplitJoins(s: string)
    ensures JoinCommas(SplitCommas(s)) == s
    ensures forall i :: 0 <= i < |SplitCommas(s)| ==> ',' !in SplitCommas(s)[i]
  {
    if s != "" {
      SplitJoins(s[1..]);
      var rest, parts := SplitCommas(s[1..]), SplitCommas(s);
      if s[0] == ',' {
        assert parts[1..] == rest;
      } else {
        assert parts[1..] == rest[1..];
        assert JoinCommas(parts) == [s[0]] + JoinCommas(rest);
      }
    }
  }

  function FirstParsing(st: Settings, parts: seq<string>): string {
    if parts == [] then ""
    else
      var candidate := Trim(st.go, parts[0]);
      if candidate != "" && st.parses(candidate) then candidate else FirstParsing(st, parts[1..])
  }

  /** The leftmost entry of the header that is an address once trimmed. */
  lemma {:induction false} FirstParsingIs(st: Settings, parts: seq<string>)
    ensures var r := FirstParsing(st, parts);
      if r == "" then
        forall i :: 0 <= i < |parts| ==> Trim(st.go, parts[i]) == "" || !st.parses(Trim(st.go, parts[i]))
      else exists i ::
        && 0 <= i < |parts| && r == Trim(st.go, parts[i]) && st.parses(r)
        && forall j :: 0 <= j < i ==> Trim(st.go, parts[j]) == "" || !st.parses(Trim(st.go, parts[j]))
  {
    if parts != [] {
      FirstParsingIs(st, parts[1..]);
      var candidate := Trim(st.go, parts[0]);
      var r := FirstParsing(st, parts);
      if (candidate == "" || !st.parses(candidate)) && r != "" {
        var i :|
          && 0 <= i < |parts[1..]| && r == Trim(st.go, parts[1..][i]) && st.parses(r)
          && forall j :: 0 <= j < i ==> Trim(st.go, parts[1..][j]) == "" || !st.parses(Trim(st.go, parts[1..][j]));
        assert r == Trim(st.go, parts[i + 1]);
        forall j | 0 <= j < i + 1 ensures Trim(st.go, parts[j]) == "" || !st.parses(Trim(st.go, parts[j])) {
          if j > 0 { assert parts[j] == parts[1..][j - 1]; }
        }
      }
    }
  }

  method FirstForwardedIP(st: Settings, xff: string) returns (r: string)
    ensures r == FirstParsing(st, SplitCommas(xff))
  {
    if xff == "" {
      assert SplitCommas(xff)[1..] == [];
      return "";
    }
    var parts := SplitCommas(xff);
    for i := 0 to |parts|
      invariant FirstParsing(st, parts) == FirstParsing(st, parts[i..])
    {
      assert parts[i..][1..] == parts[i + 1..];
      var candidate := Trim(st.go, parts[i]);
      if candidate == "" {
        continue;
      }
      if st.parses(candidate) {
        return candidate;
      }
    }
    return "";
  }

  predicate TrustedProxy(st: Settings, ip: string) {
    exists i :: 0 <= i < |st.trusted| && st.trusted[i](ip)
  }

  function ClientIP(st: Settings, r: Request): string {
    if st.parses(r.host) && st.trustHeaders && TrustedProxy(st, r.host) then
      var forwarded := FirstParsing(st, SplitCommas(r.forwardedFor));
      var realIP := Trim(st.go, r.realIP);
      if forwarded != "" then forwarded
      else if realIP != "" && st.parses(realIP) then realIP
      else r.host
    else r.host
  }

  /** Hex digits, dots and colons: the text of every address net.ParseIP accepts. */
  predicate AddressText(s: string) {
    forall c :: c in s ==> '0' <= c <= '9' || 'a' <= c <= 'f' || 'A' <= c <= 'F' || c == '.' || c == ':'
  }

  ghost predicate ParsesOnlyAddresses(st: Settings) {
    forall s: string :: st.parses(s) ==> AddressText(s)
  }

  /** A peer that is no trusted proxy keeps its own address whatever headers it sends; behind one the
      address is still an address. */
  lemma ClientIPIs(st: Settings, r: Request)
    requires ParsesOnlyAddresses(st)
    ensures !(st.trustHeaders && exists n :: 0 <= n < |st.trusted| && st.trusted[n](r.host)) ==>
      ClientIP(st, r) == r.host
    ensures !st.parses(r.host) ==> ClientIP(st, r) == r.host
    ensures ClientIP(st, r) != r.host ==> st.parses(ClientIP(st, r))
    ensures AddressText(r.host) ==> AddressText(ClientIP(st, r))
  {
    FirstParsingIs(st, SplitCommas(r.forwardedFor));
  }

  /** The entry at i is an address once trimmed, and none before it is. */
  ghost predicate Leftmost(st: Settings, parts: seq<string>, i: nat) {
    && i < |parts| && Trim(st.go, parts[i]) != "" && st.parses(Trim(st.go, parts[i]))
    && forall j :: 0 <= j < i ==> Trim(st.go, parts[j]) == "" || !st.parses(Trim(st.go, parts[j]))
  }

  /** Behind a proxy in a trusted network the client is the leftmost address forwarded; if there is none, the
      trimmed real-IP header when that is an address; and otherwise the proxy itself. */
  lemma ClientBehindProxy(st: Settings, r: Request, i: nat)
    requires st.trustHeaders && st.parses(r.host) && exists n :: 0 <= n < |st.trusted| && st.trusted[n](r.host)
    ensures var parts := SplitCommas(r.forwardedFor);
      && (Leftmost(st, parts, i) ==> ClientIP(st, r) == Trim(st.go, parts[i]))
      && ((forall k: nat :: !Leftmost(st, parts, k)) ==>
            var realIP := Trim(st.go, r.realIP);
            ClientIP(st, r) == if realIP != "" && st.parses(realIP) then realIP else r.host)
  {
    var parts := SplitCommas(r.forwardedFor);
    FirstParsingIs(st, parts);
    var found := FirstParsing(st, parts);
    if found != "" {
      var k :|
        && 0 <= k < |parts| && found == Trim(st.go, parts[k]) && st.parses(found)
        && forall j :: 0 <= j < k ==> Trim(st.go, parts[j]) == "" || !st.parses(Trim(st.go, parts[j]));
      assert Leftmost(st, parts, k);
    }
  }

  // ---- The key ----

  function RateLimitEmail(go: Chars, email: string): string {
    Trim(go, ToLower(go, email))
  }

  /** Emails the service takes for one account are one email to the limiter. */
  lemma OneAccountOneEmail(go: Chars, bareAddress: string -> bool, a: string, b: string)
    requires LowerKeepsSpaces(go)
    requires NormalizeEmail(go, bareAddress, a).Ok?
    requires NormalizeEmail(go, bareAddress, a) == NormalizeEmail(go, bareAddress, b)
    ensures RateLimitEmail(go, a) == RateLimitEmail(go, b) == NormalizeEmail(go, bareAddress, a).value
  {
    LowerTrimCommute(go, a);
    LowerTrimCommute(go, b);
  }

  const HEAD := "ratelimit:"
  const SEP := ":ip:"
  const MARK := ":email:"

  function Suffix(email: string): string {
    if email == "" then "" else MARK + email
  }

  function Print(name: string, ip: string, email: string): string {
    HEAD + (name + SEP + (ip + Suffix(email)))
  }

  /** A request with no client address is not limited. */
  function Key(st: Settings, r: Request): Option<string> {
    var ip, policy := ClientIP(st, r), PolicyFor(r.path);
    if ip == "" then None
    else Some(Print(policy.name, ip, KeyEmail(st, r)))
  }

  function KeyEmail(st: Settings, r: Request): string {
    if PolicyFor(r.path).scope == ByEmailAndIP then RateLimitEmail(st.go, r.email) else ""
  }

  predicate Plain(name: string) {
    ':' !in name
  }

  /** Every path has a policy the rate bound applies to, under a name without colons. */
  lemma PoliciesFit(p: string)
    ensures var a := PolicyFor(p); a.limit >= 1 && a.window >= 2 && Plain(a.name)
  {
    assert Plain("auth-login");
    assert Plain("auth-forgot-password");
    assert Plain("auth-reset-password");
    assert Plain("auth-refresh");
    assert Plain("auth-register");
    assert Plain("default");
  }

  /** The limits themselves, path by path. */
  lemma PathPolicies(path: string)
    ensures PolicyFor("/api/v1/auth/login") == Policy("auth-login", 10, 60_000, ByEmailAndIP)
    ensures PolicyFor("/api/v1/auth/forgot-password") == Policy("auth-forgot-password", 5, 900_000, ByEmailAndIP)
    ensures PolicyFor("/api/v1/auth/reset-password") == Policy("auth-reset-password", 10, 900_000, ByIP)
    ensures PolicyFor("/api/v1/auth/refresh") == Policy("auth-refresh", 20, 60_000, ByIP)
    ensures PolicyFor("/api/v1/auth/register") == Policy("auth-register", 10, 900_000, ByEmailAndIP)
    ensures PolicyFor(path).name == "default" ==> PolicyFor(path) == Policy("default", 100, 60_000, ByIP)
    ensures Skipped(path) <==> path in {"/healthz", "/readyz", "/metrics"}
    ensures PolicyFor(path).name != "default" <==> path in LIMITED_PATHS
  {
  }

  const LIMITED_PATHS := {
    "/api/v1/auth/login", "/api/v1/auth/forgot-password", "/api/v1/auth/reset-password", "/api/v1/auth/refresh",
    "/api/v1/auth/register" }

  const EMAIL_PATHS := { "/api/v1/auth/login", "/api/v1/auth/forgot-password", "/api/v1/auth/register" }

  lemma EmailPaths(path: string)
    ensures PolicyFor(path).scope == ByEmailAndIP <==> path in EMAIL_PATHS
  {
  }

  /** A name belongs to one policy only; even its length does. */
  lemma PoliciesByName(p: string, q: string)
    ensures PolicyFor(p).name == PolicyFor(q).name ==> PolicyFor(p) == PolicyFor(q)
  {
    PolicyByLength(p);
    PolicyByLength(q);
  }

  lemma PolicyByLength(p: string)
    ensures var a := PolicyFor(p);
      match |a.name|
      case 10 => a == Policy("auth-login", 10, MINUTE, ByEmailAndIP)
      case 20 => a == Policy("auth-forgot-password", 5, 15 * MINUTE, ByEmailAndIP)
      case 19 => a == Policy("auth-reset-password", 10, 15 * MINUTE, ByIP)
      case 12 => a == Policy("auth-refresh", 20, MINUTE, ByIP)
      case 13 => a == Policy("auth-register", 10, 15 * MINUTE, ByEmailAndIP)
      case _ => a == Policy("default", 100, MINUTE, ByIP)
  {
  }

  lemma EndsApart(n1: string, r1: string, n2: string, r2: string)
    requires Plain(n2) && |n1| < |n2|
    ensures n1 + SEP + r1 != n2 + SEP + r2
  {
    assert (n1 + SEP + r1)[|n1|] == ':';
    assert (n2 + SEP + r2)[|n1|] == n2[|n1|];
  }

  /** A colon-free name ends at the first colon, so it can be read back. */
  lemma NameReadsBack(n1: string, r1: string, n2: string, r2: string)
    requires Plain(n1) && Plain(n2) && n1 + SEP + r1 == n2 + SEP + r2
    ensures n1 == n2 && r1 == r2
  {
    var s, t := n1 + SEP + r1, n2 + SEP + r2;
    if |n1| < |n2| { EndsApart(n1, r1, n2, r2); }
    if |n2| < |n1| { EndsApart(n2, r2, n1, r1); }
    assert s[..|n1|] == n1 && t[..|n2|] == n2;
    assert s[|n1| + 4..] == r1 && t[|n2| + 4..] == r2;
  }

  lemma SameTail(head: string, a: string, b: string)
    requires head + a == head + b
    ensures a == b
  {
    assert (head + a)[|head|..] == a && (head + b)[|head|..] == b;
  }

  lemma PrintedName(n1: string, ip1: string, e1: string, n2: string, ip2: string, e2: string)
    requires Plain(n1) && Plain(n2) && Print(n1, ip1, e1) == Print(n2, ip2, e2)
    ensures n1 == n2 && ip1 + Suffix(e1) == ip2 + Suffix(e2)
  {
    SameTail(HEAD, n1 + SEP + (ip1 + Suffix(e1)), n2 + SEP + (ip2 + Suffix(e2)));
    NameReadsBack(n1, ip1 + Suffix(e1), n2, ip2 + Suffix(e2));
  }

  /** The longer text, followed by a colon, continues the shorter one with the mark. */
  predicate Confusable(ip1: string, ip2: string) {
    ip1 + MARK <= ip2 + ":"
  }

  /** The mark has its two colons six apart, so overlapping marks are six apart. */
  lemma MarkBegins(ip1: string, e1: string, ip2: string, e2: string)
    requires |ip1| < |ip2| < |ip1| + 7 && e1 != "" && ip1 + MARK + e1 == ip2 + Suffix(e2)
    ensures |ip2| == |ip1| + 6
  {
    var s, t := ip1 + MARK + e1, ip2 + Suffix(e2);
    assert s[|ip2|] == MARK[|ip2| - |ip1|];
    assert t[|ip2|] == ':';
  }

  /** Two address texts of different length print alike for some emails only when they are confusable. */
  lemma PrintedShorter(ip1: string, e1: string, ip2: string, e2: string)
    requires |ip1| < |ip2| && ip1 + Suffix(e1) == ip2 + Suffix(e2)
    ensures Confusable(ip1, ip2)
  {
    var s, t := ip1 + MARK + e1, ip2 + Suffix(e2);
    assert e1 != "" && s == t;
    if |ip2| < |ip1| + 7 { MarkBegins(ip1, e1, ip2, e2); }
    forall i | 0 <= i < |ip1| + 7 ensures (ip1 + MARK)[i] == (ip2 + ":")[i] {
      assert s[i] == (ip1 + MARK)[i];
      assert i < |ip2| ==> t[i] == ip2[i];
    }
  }

  ghost predicate Injective(texts: string -> bool) {
    forall n1, ip1, e1, n2, ip2, e2 ::
      Plain(n1) && Plain(n2) && texts(ip1) && texts(ip2) && Print(n1, ip1, e1) == Print(n2, ip2, e2)
      ==> n1 == n2 && ip1 == ip2 && e1 == e2
  }

  lemma SameLength(ip1: string, e1: string, ip2: string, e2: string)
    requires |ip1| == |ip2| && ip1 + Suffix(e1) == ip2 + Suffix(e2)
    ensures ip1 == ip2 && e1 == e2
  {
    var s, t := ip1 + Suffix(e1), ip2 + Suffix(e2);
    assert s[..|ip1|] == ip1 && t[..|ip2|] == ip2;
    assert s[|ip1|..] == Suffix(e1) && t[|ip2|..] == Suffix(e2);
    assert e1 != "" ==> Suffix(e1)[7..] == e1;
    assert e2 != "" ==> Suffix(e2)[7..] == e2;
  }

  /** The collision two confusable texts have. */
  lemma Collide(name: string, ip1: string, ip2: string)
    requires Confusable(ip1, ip2)
    ensures exists e1, e2 :: Print(name, ip1, e1) == Print(name, ip2, e2)
  {
    var t := ip2 + MARK + "x";
    assert (ip2 + ":")[..|ip1| + 7] == ip1 + MARK;
    assert t[..|ip2| + 1] == ip2 + ":";
    var e1 := t[|ip1| + 7..];
    assert t[..|ip1| + 7] == ip1 + MARK;
    assert ip1 + Suffix(e1) == t == ip2 + Suffix("x");
    assert Print(name, ip1, e1) == Print(name, ip2, "x");
  }

  /** Two texts that cannot be confused are told apart by every key. */
  lemma PrintedApart(n1: string, ip1: string, e1: string, n2: string, ip2: string, e2: string)
    requires Plain(n1) && Plain(n2) && Print(n1, ip1, e1) == Print(n2, ip2, e2)
    requires !Confusable(ip1, ip2) && !Confusable(ip2, ip1)
    ensures n1 == n2 && ip1 == ip2 && e1 == e2
  {
    PrintedName(n1, ip1, e1, n2, ip2, e2);
    if |ip1| < |ip2| {
      PrintedShorter(ip1, e1, ip2, e2);
    } else if |ip2| < |ip1| {
      PrintedShorter(ip2, e2, ip1, e1);
    } else {
      SameLength(ip1, e1, ip2, e2);
    }
  }

  /** The printed key determines policy, address and email, for the address texts in use, exactly when
      no two of them are confusable. */
  lemma KeysInjectiveIff(texts: string -> bool)
    ensures Injective(texts) <==> !exists ip1, ip2 :: texts(ip1) && texts(ip2) && Confusable(ip1, ip2)
  {
    if ip1, ip2 :| texts(ip1) && texts(ip2) && Confusable(ip1, ip2) {
      Collide("", ip1, ip2);
      assert |ip1| < |ip2|;
    } else {
      forall n1, ip1, e1, n2, ip2, e2 |
        Plain(n1) && Plain(n2) && texts(ip1) && texts(ip2) && Print(n1, ip1, e1) == Print(n2, ip2, e2)
        ensures n1 == n2 && ip1 == ip2 && e1 == e2
      {
        PrintedApart(n1, ip1, e1, n2, ip2, e2);
      }
    }
  }

  lemma ConfusableHasMark(ip1: string, ip2: string)
    requires Confusable(ip1, ip2)
    ensures 'm' in ip2
  {
    assert (ip1 + MARK)[|ip1| + 2] == 'm';
    assert (ip2 + ":")[|ip1| + 2] == ip2[|ip1| + 2];
  }

  /** Address text has no 'm', so on addresses the key is injective. */
  lemma AddressKeysInjective()
    ensures Injective(AddressText)
  {
    forall ip1, ip2 | AddressText(ip1) && AddressText(ip2) ensures !Confusable(ip1, ip2) {
      if Confusable(ip1, ip2) { ConfusableHasMark(ip1, ip2); }
    }
    KeysInjectiveIff(AddressText);
  }

  /** Without that, two clients can share a counter: a host that is no address, and an address with an email. */
  lemma HostTextCollides()
    ensures Print("auth-login", "10.0.0.1:email:a@b", "") == Print("auth-login", "10.0.0.1", "a@b")
  {
    assert "10.0.0.1:email:a@b" + Suffix("") == "10.0.0.1" + Suffix("a@b");
  }
}
