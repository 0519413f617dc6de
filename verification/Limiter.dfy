/** The limiter in front of every route: Redis' counters, the script that moves them, and
    what a whole sequence of requests is answered. */
module Limiter {
  import opened Text
  import opened RateLimit
  import opened RateKeys

  datatype Verdict = Pass | TooMany | Unavailable

  /** A request, when it reaches the limiter, and whether Redis fails it before the script runs. */
  datatype Arrival = Arrival(request: Request, at: int, fails: bool)

  type Counters = map<string, Window>

  function Lookup(cs: Counters, key: string): Option<Window> {
    if key in cs then Some(cs[key]) else None
  }

  /** The key an arrival increments, if it reaches the script. */
  function Target(st: Settings, a: Arrival): Option<string> {
    if Skipped(a.request.path) || a.fails then None else Key(st, a.request)
  }

  function HitBy(st: Settings, cs: Counters, a: Arrival): Window
    requires Target(st, a).Some?
  {
    Hit(Lookup(cs, Target(st, a).value), a.at, PolicyFor(a.request.path).window)
  }

  function Moved(st: Settings, cs: Counters, a: Arrival): Counters {
    if Target(st, a).None? then cs else cs[Target(st, a).value := HitBy(st, cs, a)]
  }

  function Answered(st: Settings, cs: Counters, a: Arrival): Verdict {
    if Target(st, a).Some? then
      if HitBy(st, cs, a).count <= PolicyFor(a.request.path).limit then Pass else TooMany
    else if Skipped(a.request.path) || Key(st, a.request).None? then Pass
    else Unavailable
  }

  // ---- Redis, and the middleware's handler ----

  /** Values and expiries are kept apart, as the two commands of the script set them apart. */
  class Redis {
    var values: map<string, nat>
    var expiries: map<string, int>

    /** Between two scripts every counter has an expiry and has counted a request. */
    ghost predicate Valid()
      reads this
    {
      values.Keys == expiries.Keys && forall k :: k in values ==> values[k] >= 1
    }

    ghost function Contents(): Counters
      reads this
      requires Valid()
    {
      map k | k in values :: Window(values[k], expiries[k])
    }

    constructor ()
      ensures Valid() && Contents() == map[]
    {
      values, expiries := map[], map[];
    }

    /** INCR: an expired key counts as missing, and a missing one becomes 1 and gets no expiry. */
    method Incr(key: string, now: int) returns (count: nat)
      modifies this
      ensures var live := key in old(values) && (key in old(expiries) ==> now < old(expiries[key]));
        && count == (if live then old(values[key]) + 1 else 1)
        && expiries == (if live then old(expiries) else old(expiries) - {key})
      ensures values == old(values)[key := count]
    {
      if key in expiries && expiries[key] <= now {
        values := values - {key};
        expiries := expiries - {key};
      }
      if key in values {
        count := values[key] + 1;
      } else {
        count := 1;
        expiries := expiries - {key};
      }
      values := values[key := count];
    }

    method PExpire(key: string, now: int, ttl: int)
      requires key in values
      modifies this`expiries
      ensures expiries == old(expiries)[key := now + ttl]
    {
      expiries := expiries[key := now + ttl];
    }

    /** The script runs as one command. */
    method RunScript(key: string, now: int, window: int) returns (count: nat)
      requires Valid()
      modifies this
      ensures Valid()
      ensures var w := Hit(Lookup(old(Contents()), key), now, window);
        count == w.count && Contents() == old(Contents())[key := w]
    {
      count := Incr(key, now);
      if count == 1 {
        PExpire(key, now, window);
      }
    }
  }

  method Serve(st: Settings, rdb: Redis?, a: Arrival) returns (v: Verdict)
    requires rdb != null ==> rdb.Valid()
    modifies rdb
    ensures rdb == null ==> v == Pass
    ensures rdb != null ==>
      && rdb.Valid() && v == Answered(st, old(rdb.Contents()), a)
      && rdb.Contents() == Moved(st, old(rdb.Contents()), a)
  {
    if Skipped(a.request.path) || rdb == null {
      return Pass;
    }
    var policy := PolicyFor(a.request.path);
    var key := Key(st, a.request);
    if key.None? {
      return Pass;
    }
    if a.fails {
      return Unavailable;
    }
    var count := rdb.RunScript(key.value, a.at, policy.window);
    return if count > policy.limit then TooMany else Pass;
  }

  // ---- Whole sequences of requests ----

  /** The counters after some arrivals. */
  function Serving(st: Settings, arrivals: seq<Arrival>): Counters {
    if arrivals == [] then map[]
    else Moved(st, Serving(st, arrivals[..|arrivals| - 1]), arrivals[|arrivals| - 1])
  }

  /** The times at which one key was incremented. */
  function Times(st: Settings, arrivals: seq<Arrival>, key: string): seq<int> {
    if arrivals == [] then []
    else
      var n := |arrivals| - 1;
      var before := Times(st, arrivals[..n], key);
      if Target(st, arrivals[n]) == Some(key) then before + [arrivals[n].at] else before
  }

  /** Two paths with one key have one policy. */
  lemma KeyFixesPolicy(st: Settings, r: Request, q: Request)
    requires Key(st, r).Some? && Key(st, r) == Key(st, q)
    ensures PolicyFor(r.path) == PolicyFor(q.path)
  {
    PoliciesFit(r.path);
    PoliciesFit(q.path);
    PrintedName(PolicyFor(r.path).name, ClientIP(st, r), KeyEmail(st, r),
                PolicyFor(q.path).name, ClientIP(st, q), KeyEmail(st, q));
    PoliciesByName(r.path, q.path);
  }

  /** A counter is what the history of its own key makes it, whatever else was served. */
  lemma {:induction false} CountersAreHistories(st: Settings, arrivals: seq<Arrival>, r: Request)
    requires Key(st, r).Some?
    ensures Lookup(Serving(st, arrivals), Key(st, r).value)
         == After(Times(st, arrivals, Key(st, r).value), PolicyFor(r.path).window)
    decreases |arrivals|
  {
    if arrivals != [] {
      var n, key := |arrivals| - 1, Key(st, r).value;
      CountersAreHistories(st, arrivals[..n], r);
      if Target(st, arrivals[n]) == Some(key) {
        KeyFixesPolicy(st, r, arrivals[n].request);
        var ts := Times(st, arrivals[..n], key);
        assert (ts + [arrivals[n].at])[..|ts|] == ts;
      }
    }
  }

  /** A limited request passes exactly when fewer than its policy's limit of its own key's requests
      came before it in its window. */
  lemma VerdictByHistory(st: Settings, arrivals: seq<Arrival>, a: Arrival)
    requires Target(st, a).Some?
    ensures var policy := PolicyFor(a.request.path);
      var ts := Times(st, arrivals, Target(st, a).value) + [a.at];
      Answered(st, Serving(st, arrivals), a) ==
        if |ts| - 1 - WindowOf(ts, |ts| - 1, policy.window) < policy.limit then Pass else TooMany
  {
    var policy := PolicyFor(a.request.path);
    var before := Times(st, arrivals, Target(st, a).value);
    var ts := before + [a.at];
    CountersAreHistories(st, arrivals, a.request);
    AdmitsByHistory(ts, |before|, policy.window, policy.limit);
    assert ts[..|before|] == before;
  }

  /** One client: the same policy, address and, on the paths that take an email, email. */
  predicate SameClient(st: Settings, r: Request, q: Request) {
    && PolicyFor(r.path) == PolicyFor(q.path)
    && ClientIP(st, r) == ClientIP(st, q)
    && (r.path in EMAIL_PATHS ==> RateLimitEmail(st.go, r.email) == RateLimitEmail(st.go, q.email))
  }

  /** What is not counted: health and metrics paths and requests without an address pass whatever Redis
      does, and when Redis fails every other request is refused as unavailable. */
  lemma Uncounted(st: Settings, cs: Counters, a: Arrival)
    ensures a.request.path in {"/healthz", "/readyz", "/metrics"} || ClientIP(st, a.request) == "" ==>
      Answered(st, cs, a) == Pass && Moved(st, cs, a) == cs
    ensures a.request.path !in {"/healthz", "/readyz", "/metrics"} && ClientIP(st, a.request) != "" ==>
      if a.fails then Answered(st, cs, a) == Unavailable && Moved(st, cs, a) == cs
      else Target(st, a).Some? && Answered(st, cs, a) != Unavailable
  {
  }

  /** No text of a client address continues the other's with the mark. */
  predicate Apart(st: Settings, r: Request, q: Request) {
    !Confusable(ClientIP(st, r), ClientIP(st, q)) && !Confusable(ClientIP(st, q), ClientIP(st, r))
  }

  /** Then sharing a counter is being the same client. */
  lemma KeysAreClients(st: Settings, r: Request, q: Request)
    requires Apart(st, r, q) && Key(st, r).Some? && Key(st, q).Some?
    ensures Key(st, r) == Key(st, q) <==> SameClient(st, r, q)
  {
    if Key(st, r) == Key(st, q) {
      PoliciesFit(r.path);
      PoliciesFit(q.path);
      PrintedApart(PolicyFor(r.path).name, ClientIP(st, r), KeyEmail(st, r),
                   PolicyFor(q.path).name, ClientIP(st, q), KeyEmail(st, q));
      PoliciesByName(r.path, q.path);
    }
    EmailPaths(r.path);
    EmailPaths(q.path);
  }

  predicate MarkedAt(host: string, i: nat) {
    i + 6 <= |host| && host[i..i + 6] == MARK[..6]
  }

  /** A host free of ":email" is confused with nothing: addresses are, with a zone or without. */
  predicate Unmarked(host: string) {
    forall i: nat :: i < |host| ==> !MarkedAt(host, i)
  }

  lemma UnmarkedAreApart(st: Settings, r: Request, q: Request)
    requires ParsesOnlyAddresses(st) && Unmarked(r.host) && Unmarked(q.host)
    ensures Apart(st, r, q)
  {
    UnmarkedClient(st, r);
    UnmarkedClient(st, q);
    NotConfusable(ClientIP(st, r), ClientIP(st, q));
    NotConfusable(ClientIP(st, q), ClientIP(st, r));
  }

  lemma UnmarkedClient(st: Settings, r: Request)
    requires ParsesOnlyAddresses(st) && Unmarked(r.host)
    ensures Unmarked(ClientIP(st, r))
  {
    ClientIPIs(st, r);
    if ClientIP(st, r) != r.host { AddressUnmarked(ClientIP(st, r)); }
  }

  lemma MarkedHasM(host: string, i: nat)
    requires MarkedAt(host, i)
    ensures 'm' in host
  {
    assert host[i..i + 6][2] == MARK[2];
  }

  lemma AddressUnmarked(host: string)
    requires AddressText(host)
    ensures Unmarked(host)
  {
    forall i: nat | i < |host| ensures !MarkedAt(host, i) {
      if MarkedAt(host, i) { MarkedHasM(host, i); }
    }
  }

  lemma ConfusableIsMarked(a: string, b: string)
    requires Confusable(a, b)
    ensures MarkedAt(b, |a|)
  {
    assert (a + MARK)[|a|..|a| + 6] == MARK[..6];
    assert b[|a|..|a| + 6] == (b + ":")[|a|..|a| + 6];
  }

  lemma NotConfusable(a: string, b: string)
    requires Unmarked(b)
    ensures !Confusable(a, b)
  {
    if Confusable(a, b) { ConfusableIsMarked(a, b); }
  }

  /** The arrivals of one client. */
  function Own(st: Settings, arrivals: seq<Arrival>, r: Request): seq<Arrival> {
    if arrivals == [] then []
    else
      var n := |arrivals| - 1;
      var before := Own(st, arrivals[..n], r);
      if SameClient(st, arrivals[n].request, r) then before + [arrivals[n]] else before
  }

  lemma {:induction false} OwnTimes(st: Settings, arrivals: seq<Arrival>, r: Request)
    requires Key(st, r).Some? && forall i :: 0 <= i < |arrivals| ==> Apart(st, arrivals[i].request, r)
    ensures Times(st, Own(st, arrivals, r), Key(st, r).value) == Times(st, arrivals, Key(st, r).value)
    decreases |arrivals|
  {
    if arrivals != [] {
      var n := |arrivals| - 1;
      var own := Own(st, arrivals[..n], r);
      OwnTimes(st, arrivals[..n], r);
      if Target(st, arrivals[n]).Some? { KeysAreClients(st, arrivals[n].request, r); }
      assert (own + [arrivals[n]])[..|own|] == own;
    }
  }

  /** Dropping every other client's requests leaves a client's verdicts as they were. */
  lemma ClientsAreIndependent(st: Settings, arrivals: seq<Arrival>, a: Arrival)
    requires forall i :: 0 <= i < |arrivals| ==> Apart(st, arrivals[i].request, a.request)
    ensures Answered(st, Serving(st, arrivals), a) == Answered(st, Serving(st, Own(st, arrivals, a.request)), a)
  {
    if Target(st, a).Some? {
      OwnTimes(st, arrivals, a.request);
      VerdictByHistory(st, arrivals, a);
      VerdictByHistory(st, Own(st, arrivals, a.request), a);
    }
  }

  /** How many limited requests of one key pass between two times. */
  function Passes(st: Settings, arrivals: seq<Arrival>, key: string, lo: int, hi: int): nat {
    if arrivals == [] then 0
    else
      var n := |arrivals| - 1;
      var last := arrivals[n];
      var passes := Target(st, last) == Some(key) && Answered(st, Serving(st, arrivals[..n]), last) == Pass;
      Passes(st, arrivals[..n], key, lo, hi) + if passes && lo <= last.at < hi then 1 else 0
  }

  predicate InOrder(arrivals: seq<Arrival>) {
    forall i, j :: 0 <= i <= j < |arrivals| ==> arrivals[i].at <= arrivals[j].at
  }

  lemma {:induction false} TimesInOrder(st: Settings, arrivals: seq<Arrival>, key: string)
    requires InOrder(arrivals)
    ensures var ts := Times(st, arrivals, key);
      Sorted(ts) && (ts != [] ==> arrivals != [] && ts[|ts| - 1] <= arrivals[|arrivals| - 1].at)
    decreases |arrivals|
  {
    if arrivals != [] { TimesInOrder(st, arrivals[..|arrivals| - 1], key); }
  }

  lemma {:induction false} PassesAreCounted(st: Settings, arrivals: seq<Arrival>, r: Request, lo: int, hi: int)
    requires Key(st, r).Some?
    ensures var policy, key := PolicyFor(r.path), Key(st, r).value;
      Passes(st, arrivals, key, lo, hi) == Count(Times(st, arrivals, key), policy.window, policy.limit, lo, hi)
    decreases |arrivals|
  {
    if arrivals != [] {
      var n, key := |arrivals| - 1, Key(st, r).value;
      var last := arrivals[n];
      PassesAreCounted(st, arrivals[..n], r, lo, hi);
      if Target(st, last) == Some(key) {
        var ts := Times(st, arrivals[..n], key);
        KeyFixesPolicy(st, r, last.request);
        CountersAreHistories(st, arrivals[..n], r);
        assert (ts + [last.at])[..|ts|] == ts;
      }
    }
  }

  /** Whatever is served, no key gets more than (k+1)*limit - 1 requests through in k windows. */
  lemma LimiterBound(st: Settings, arrivals: seq<Arrival>, r: Request, lo: int, k: nat)
    requires InOrder(arrivals) && Key(st, r).Some? && k >= 1
    ensures var policy := PolicyFor(r.path);
      Passes(st, arrivals, Key(st, r).value, lo, lo + k * policy.window) <= (k + 1) * policy.limit - 1
  {
    var policy, key := PolicyFor(r.path), Key(st, r).value;
    PoliciesFit(r.path);
    PassesAreCounted(st, arrivals, r, lo, lo + k * policy.window);
    TimesInOrder(st, arrivals, key);
    CountBounded(Times(st, arrivals, key), policy.window, policy.limit, lo, k);
  }
}
