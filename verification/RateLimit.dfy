/** The fixed-window counter: one Redis key, INCR, and PEXPIRE when the count is one. */
module RateLimit {
  import opened Text

  /** A stored counter and the millisecond at which Redis drops it. */
  datatype Window = Window(count: nat, expires: int)

  predicate Alive(e: Option<Window>, now: int) {
    e.Some? && now < e.value.expires
  }

  /** The script, run as one command at time `now`. */
  function Hit(e: Option<Window>, now: int, window: int): Window {
    if Alive(e, now) then Window(e.value.count + 1, e.value.expires) else Window(1, now + window)
  }

  /** The key after requests at the given times. */
  function After(ts: seq<int>, window: int): Option<Window> {
    if ts == [] then None else Some(Hit(After(ts[..|ts| - 1], window), ts[|ts| - 1], window))
  }

  /** The i-th request gets through. */
  predicate Admits(ts: seq<int>, i: nat, window: int, limit: nat)
    requires i < |ts|
  {
    Hit(After(ts[..i], window), ts[i], window).count <= limit
  }

  predicate Sorted(ts: seq<int>) {
    forall i, j :: 0 <= i <= j < |ts| ==> ts[i] <= ts[j]
  }

  // ---- The counter agrees with history ----

  /** The request that opens the window of request i: the previous window's, unless that has ended. */
  function WindowOf(ts: seq<int>, i: nat, window: int): (w: nat)
    requires i < |ts|
    ensures w <= i
  {
    if i == 0 then 0
    else
      var w := WindowOf(ts, i - 1, window);
      if ts[i] < ts[w] + window then w else i
  }

  /** The windows are consecutive runs of requests, each within one length of its opening request
      and each opening no sooner than one length after the one before. */
  lemma {:induction false} WindowsPartition(ts: seq<int>, i: nat, window: int)
    requires i < |ts| && window >= 1
    ensures var w := WindowOf(ts, i, window);
      && ts[i] < ts[w] + window
      && (forall m :: w <= m <= i ==> WindowOf(ts, m, window) == w)
      && (w > 0 ==> ts[WindowOf(ts, w - 1, window)] + window <= ts[w])
    decreases i
  {
    if i > 0 { WindowsPartition(ts, i - 1, window); }
  }

  lemma {:induction false} AfterIsHistory(ts: seq<int>, i: nat, window: int)
    requires i < |ts|
    ensures var w := WindowOf(ts, i, window); After(ts[..i + 1], window) == Some(Window(i - w + 1, ts[w] + window))
    decreases i
  {
    assert ts[..i + 1][..i] == ts[..i] && ts[..i + 1][i] == ts[i];
    if i > 0 { AfterIsHistory(ts, i - 1, window); }
  }

  /** A request is admitted exactly when fewer than `limit` requests came before it in its window. */
  lemma AdmitsByHistory(ts: seq<int>, i: nat, window: int, limit: nat)
    requires i < |ts|
    ensures Admits(ts, i, window, limit) <==> i - WindowOf(ts, i, window) < limit
  {
    AfterIsHistory(ts, i, window);
    assert ts[..i + 1][..i] == ts[..i] && ts[..i + 1][i] == ts[i];
  }

  /** A stored key expires within one window of the last request, rejected requests leave its expiry
      alone, and a request that finds it expired is admitted. */
  lemma ExpiryIsBounded(ts: seq<int>, window: int, limit: nat)
    requires ts != [] && Sorted(ts) && window >= 1 && limit >= 1
    ensures var n := |ts| - 1; var before, after := After(ts[..n], window), After(ts, window);
      && after.Some? && ts[n] < after.value.expires <= ts[n] + window
      && (!Admits(ts, n, window, limit) ==> before.Some? && after.value.expires == before.value.expires)
      && (before.Some? && before.value.expires <= ts[n] ==> Admits(ts, n, window, limit))
  {
    var n := |ts| - 1;
    AfterIsHistory(ts, n, window);
    WindowsPartition(ts, n, window);
    assert ts[..n + 1] == ts;
    assert ts[WindowOf(ts, n, window)] <= ts[n];
  }

  // ---- How many get through in an interval ----

  function Admitted(ts: seq<int>, window: int, limit: nat, a: int, b: int): set<nat> {
    set i: nat | i < |ts| && a <= ts[i] < b && Admits(ts, i, window, limit)
  }

  function Count(ts: seq<int>, window: int, limit: nat, a: int, b: int): nat {
    if ts == [] then 0
    else
      var n := |ts| - 1;
      Count(ts[..n], window, limit, a, b) + if a <= ts[n] < b && Admits(ts, n, window, limit) then 1 else 0
  }

  lemma {:induction false} CountIsSize(ts: seq<int>, window: int, limit: nat, a: int, b: int)
    ensures |Admitted(ts, window, limit, a, b)| == Count(ts, window, limit, a, b)
    decreases |ts|
  {
    if ts != [] {
      var n := |ts| - 1;
      var init := ts[..n];
      CountIsSize(init, window, limit, a, b);
      AdmittedSnoc(ts, window, limit, a, b);
      assert n !in Admitted(init, window, limit, a, b);
    }
  }

  lemma AdmittedSnoc(ts: seq<int>, window: int, limit: nat, a: int, b: int)
    requires ts != []
    ensures var n := |ts| - 1;
      Admitted(ts, window, limit, a, b) == Admitted(ts[..n], window, limit, a, b)
        + if a <= ts[n] < b && Admits(ts, n, window, limit) then {n} else {}
  {
    var n := |ts| - 1;
    forall i: nat | i < n ensures Admits(ts[..n], i, window, limit) == Admits(ts, i, window, limit) {
      assert ts[..n][..i] == ts[..i];
    }
  }

  /** How many windows can open in an interval of length x. */
  function Openings(x: int, window: int): nat
    requires window >= 1
    decreases if x > 0 then x else 0
  {
    if x <= 0 then 0 else 1 + Openings(x - window, window)
  }

  lemma {:induction false} OpeningsMonotone(x: int, y: int, window: int)
    requires window >= 1 && x <= y
    ensures Openings(x, window) <= Openings(y, window)
    decreases if y > 0 then y else 0
  {
    if x > 0 { OpeningsMonotone(x - window, y - window, window); }
  }

  lemma {:induction false} OpeningsOfWindows(k: nat, window: int)
    requires window >= 1
    ensures Openings(k * window, window) == k
    decreases k
  {
    if k > 0 {
      assert k * window - window == (k - 1) * window;
      OpeningsOfWindows(k - 1, window);
    }
  }

  /** What the current window and later ones can still admit before b. */
  function Budget(e: Window, limit: nat, window: int, b: int): nat
    requires window >= 1
  {
    (if e.count < limit then limit - e.count else 0) + limit * Openings(b - e.expires, window)
  }

  /** A request before b costs the budget what it admits. */
  lemma HitWithinBudget(e: Window, now: int, limit: nat, window: int, b: int)
    requires window >= 1 && limit >= 1 && now < b
    ensures var e' := Hit(Some(e), now, window);
      (if e'.count <= limit then 1 else 0) + Budget(e', limit, window, b) <= Budget(e, limit, window, b)
  {
    if now >= e.expires {
      var x := b - now;
      OpeningsMonotone(x, b - e.expires, window);
      assert Openings(x, window) == 1 + Openings(x - window, window);
      assert limit * Openings(x, window) == limit + limit * Openings(x - window, window);
      assert limit * Openings(x, window) <= limit * Openings(b - e.expires, window);
    }
  }

  /** A request in the interval that finds no window. */
  lemma FirstOpens(e: Option<Window>, now: int, limit: nat, window: int, a: int, k: nat)
    requires window >= 1 && limit >= 1 && k >= 1 && a <= now < a + k * window && !Alive(e, now)
    ensures var e' := Hit(e, now, window);
      (if e'.count <= limit then 1 else 0) + Budget(e', limit, window, a + k * window) <= k * limit
  {
    var b := a + k * window;
    OpeningsOfWindows(k, window);
    OpeningsMonotone(b - now, k * window, window);
    assert Openings(b - now, window) == 1 + Openings(b - now - window, window);
    assert limit * Openings(b - now - window, window) <= limit * (k - 1);
  }

  /** The first request in the interval: at worst it finds a window that one earlier request opened. */
  lemma FirstWithinBound(e: Option<Window>, now: int, limit: nat, window: int, a: int, k: nat)
    requires window >= 1 && limit >= 1 && k >= 1 && a <= now < a + k * window
    requires e.Some? ==> e.value.count >= 1
    ensures var e' := Hit(e, now, window);
      (if e'.count <= limit then 1 else 0) + Budget(e', limit, window, a + k * window) <= (k + 1) * limit - 1
  {
    assert (k + 1) * limit - 1 == limit * k + limit - 1;
    if Alive(e, now) {
      var b := a + k * window;
      OpeningsOfWindows(k, window);
      OpeningsMonotone(b - e.value.expires, k * window, window);
      assert limit * Openings(b - e.value.expires, window) <= limit * k;
    } else {
      FirstOpens(e, now, limit, window, a, k);
    }
  }

  lemma {:induction false} NothingBefore(ts: seq<int>, window: int, limit: nat, a: int, b: int)
    requires forall i :: 0 <= i < |ts| ==> ts[i] < a
    ensures Count(ts, window, limit, a, b) == 0
    decreases |ts|
  {
    if ts != [] { NothingBefore(ts[..|ts| - 1], window, limit, a, b); }
  }

  lemma {:induction false} CountWithinBound(ts: seq<int>, window: int, limit: nat, a: int, k: nat)
    requires Sorted(ts) && window >= 1 && limit >= 1 && k >= 1
    requires ts != [] && a <= ts[|ts| - 1] < a + k * window
    ensures var b := a + k * window; var e := After(ts, window);
      e.Some? && Count(ts, window, limit, a, b) + Budget(e.value, limit, window, b) <= (k + 1) * limit - 1
    decreases |ts|
  {
    var n, b := |ts| - 1, a + k * window;
    var init := ts[..n];
    if init == [] || init[n - 1] < a {
      NothingBefore(init, window, limit, a, b);
      if init != [] { AfterIsHistory(init, n - 1, window); assert init[..n] == init; }
      FirstWithinBound(After(init, window), ts[n], limit, window, a, k);
    } else {
      CountWithinBound(init, window, limit, a, k);
      HitWithinBudget(After(init, window).value, ts[n], limit, window, b);
    }
  }

  lemma {:induction false} CountBounded(ts: seq<int>, window: int, limit: nat, a: int, k: nat)
    requires Sorted(ts) && window >= 1 && limit >= 1 && k >= 1
    ensures Count(ts, window, limit, a, a + k * window) <= (k + 1) * limit - 1
    decreases |ts|
  {
    if ts == [] {
      assert (k + 1) * limit >= 1;
    } else if ts[|ts| - 1] < a {
      NothingBefore(ts, window, limit, a, a + k * window);
      assert (k + 1) * limit >= 1;
    } else if ts[|ts| - 1] < a + k * window {
      CountWithinBound(ts, window, limit, a, k);
    } else {
      CountBounded(ts[..|ts| - 1], window, limit, a, k);
    }
  }

  /** Rate bound: whatever the arrivals, any half-open interval of k windows admits at most (k+1)*limit - 1. */
  lemma RateBound(ts: seq<int>, window: int, limit: nat, a: int, k: nat)
    requires Sorted(ts) && window >= 1 && limit >= 1 && k >= 1
    ensures |Admitted(ts, window, limit, a, a + k * window)| <= (k + 1) * limit - 1
  {
    CountIsSize(ts, window, limit, a, a + k * window);
    CountBounded(ts, window, limit, a, k);
  }

  // ---- The bound is reached ----

  /** m requests at one moment. */
  function Burst(ts: seq<int>, m: nat, t: int): seq<int> {
    if m == 0 then ts else Burst(ts, m - 1, t) + [t]
  }

  /** The arrivals leave this window behind, and n of them were admitted between a and b. */
  predicate Leaves(ts: seq<int>, window: int, limit: nat, a: int, b: int, e: Window, n: int) {
    After(ts, window) == Some(e) && Count(ts, window, limit, a, b) == n
  }

  lemma OneMoreCounts(ts: seq<int>, t: int, window: int, limit: nat, a: int, b: int, e: Window, n: int)
    requires Leaves(ts, window, limit, a, b, e, n) && t < e.expires && a <= t < b && e.count < limit
    ensures Leaves(ts + [t], window, limit, a, b, Window(e.count + 1, e.expires), n + 1)
  {
    assert (ts + [t])[..|ts|] == ts;
  }

  lemma {:induction false} BurstCounts(ts: seq<int>, m: nat, t: int, window: int, limit: nat, a: int, b: int,
          e: Window, n: int)
    requires Leaves(ts, window, limit, a, b, e, n) && t < e.expires && a <= t < b && e.count + m <= limit
    ensures Leaves(Burst(ts, m, t), window, limit, a, b, Window(e.count + m, e.expires), n + m)
    decreases m
  {
    if m > 0 {
      BurstCounts(ts, m - 1, t, window, limit, a, b, e, n);
      OneMoreCounts(Burst(ts, m - 1, t), t, window, limit, a, b, Window(e.count + m - 1, e.expires), n + m - 1);
    }
  }

  lemma {:induction false} BurstSorted(ts: seq<int>, m: nat, t: int)
    requires Sorted(ts) && (ts == [] || ts[|ts| - 1] <= t)
    ensures var r := Burst(ts, m, t); Sorted(r) && (r == [] || r[|r| - 1] <= t)
    decreases m
  {
    if m > 0 { BurstSorted(ts, m - 1, t); }
  }

  /** One request opens a window; `limit - 1` come at its very end; then each of k windows is filled as it opens. */
  function Crowd(k: nat, limit: nat, window: int): seq<int>
    requires limit >= 1
  {
    if k == 0 then Burst([window], limit - 1, 2 * window - 1)
    else Burst(Crowd(k - 1, limit, window), limit, (k + 1) * window)
  }

  lemma {:induction false} BurstStart(ts: seq<int>, m: nat, t: int)
    requires m >= 1
    ensures Burst(ts, m, t) == Burst(ts + [t], m - 1, t)
    decreases m
  {
    if m > 1 { BurstStart(ts, m - 1, t); }
  }

  /** A burst that finds the window ended fills a new one. */
  lemma BurstOpens(ts: seq<int>, m: nat, t: int, window: int, limit: nat, a: int, b: int, n: int)
    requires !Alive(After(ts, window), t) && Count(ts, window, limit, a, b) == n
    requires window >= 1 && a <= t < b && 1 <= m <= limit
    ensures Leaves(Burst(ts, m, t), window, limit, a, b, Window(m, t + window), n + m)
  {
    OneOpens(ts, t, window, limit, a, b);
    BurstStart(ts, m, t);
    BurstCounts(ts + [t], m - 1, t, window, limit, a, b, Window(1, t + window), n + 1);
  }

  lemma OneOpens(ts: seq<int>, t: int, window: int, limit: nat, a: int, b: int)
    requires !Alive(After(ts, window), t) && window >= 1 && a <= t < b && limit >= 1
    ensures Leaves(ts + [t], window, limit, a, b, Window(1, t + window), Count(ts, window, limit, a, b) + 1)
  {
    assert (ts + [t])[..|ts|] == ts;
  }

  lemma {:induction false} CrowdSorted(k: nat, limit: nat, window: int)
    requires window >= 1 && limit >= 1
    ensures var ts := Crowd(k, limit, window); Sorted(ts) && (ts == [] || ts[|ts| - 1] <= (k + 2) * window - 1)
    decreases k
  {
    OneMore(k + 1, window);
    if k == 0 {
      BurstSorted([window], limit - 1, 2 * window - 1);
    } else {
      CrowdSorted(k - 1, limit, window);
      BurstSorted(Crowd(k - 1, limit, window), limit, (k + 1) * window);
    }
  }

  lemma OneMore(k: nat, x: int)
    requires x >= 1
    ensures (k + 1) * x == k * x + x && k * x >= 0
  {
  }

  lemma NextCrowd(ts: seq<int>, limit: nat, window: int, a: int, b: int, t: int, n: int)
    requires window >= 1 && limit >= 1 && a <= t < b && Leaves(ts, window, limit, a, b, Window(limit, t), n)
    ensures Leaves(Burst(ts, limit, t), window, limit, a, b, Window(limit, t + window), n + limit)
  {
    BurstOpens(ts, limit, t, window, limit, a, b, n);
  }

  lemma {:induction false} CrowdCounts(k: nat, limit: nat, window: int, a: int, b: int, n: nat)
    requires window >= 1 && limit >= 1 && a <= 2 * window && (k + 1) * window < b
    requires Leaves(Crowd(0, limit, window), window, limit, a, b, Window(limit, 2 * window), n)
    ensures Leaves(Crowd(k, limit, window), window, limit, a, b, Window(limit, (k + 2) * window), n + k * limit)
    decreases k
  {
    OneMore(k + 1, window);
    if k > 0 {
      OneMore(k, window);
      OneMore(k - 1, window);
      OneMore(k - 1, limit);
      CrowdCounts(k - 1, limit, window, a, b, n);
      NextCrowd(Crowd(k - 1, limit, window), limit, window, a, b, (k + 1) * window, n + (k - 1) * limit);
    }
  }

  /** The request that opens the first window, before the interval. */
  lemma FirstRequest(t: int, window: int, limit: nat, a: int, b: int)
    requires t < a
    ensures Leaves([t], window, limit, a, b, Window(1, t + window), 0)
  {
    assert [t][..0] == [];
  }

  lemma FirstCrowd(limit: nat, window: int, b: int)
    requires window >= 2 && limit >= 1 && 2 * window - 1 < b
    ensures Leaves(Crowd(0, limit, window), window, limit, 2 * window - 1, b, Window(limit, 2 * window), limit - 1)
  {
    var a := 2 * window - 1;
    FirstRequest(window, window, limit, a, b);
    BurstCounts([window], limit - 1, a, window, limit, a, b, Window(1, 2 * window), 0);
  }

  lemma FirstAlone(limit: nat, window: int, b: int)
    requires window >= 1 && limit == 1
    ensures Leaves(Crowd(0, limit, window), window, limit, 2 * window, b, Window(limit, 2 * window), 0)
  {
    FirstRequest(window, window, limit, 2 * window, b);
  }

  /** These arrivals get as many requests through, in k windows from a on, as the bound allows. */
  ghost predicate Reaches(ts: seq<int>, window: int, limit: nat, a: int, k: nat) {
    Sorted(ts) && |Admitted(ts, window, limit, a, a + k * window)| == (k + 1) * limit - 1
  }

  /** Counting from a moment at which all but one of the first window's requests are still to come. */
  lemma ReachesFrom(k: nat, limit: nat, window: int, a: int)
    requires window >= 1 && limit >= 1 && k >= 1 && window < a <= 2 * window
    requires Leaves(Crowd(0, limit, window), window, limit, a, a + k * window, Window(limit, 2 * window), limit - 1)
    ensures Reaches(Crowd(k, limit, window), window, limit, a, k)
  {
    OneMore(k, window);
    OneMore(k, limit);
    CrowdSorted(k, limit, window);
    CrowdCounts(k, limit, window, a, a + k * window, limit - 1);
    CountIsSize(Crowd(k, limit, window), window, limit, a, a + k * window);
  }

  /** The bound is reached, for every number of windows, when a window is two milliseconds or longer. */
  lemma CrowdReaches(k: nat, limit: nat, window: int)
    requires window >= 2 && limit >= 1 && k >= 1
    ensures Reaches(Crowd(k, limit, window), window, limit, 2 * window - 1, k)
  {
    OneMore(k, window);
    OneMore(k - 1, window);
    FirstCrowd(limit, window, 2 * window - 1 + k * window);
    ReachesFrom(k, limit, window, 2 * window - 1);
  }

  /** And when the limit is one. */
  lemma SingleReaches(k: nat, limit: nat, window: int)
    requires window >= 1 && limit == 1 && k >= 1
    ensures Reaches(Crowd(k, limit, window), window, limit, 2 * window, k)
  {
    FirstAlone(limit, window, 2 * window + k * window);
    ReachesFrom(k, limit, window, 2 * window);
  }

  /** A window of one millisecond holds requests of one moment only, so none of an interval's requests
      finds a window opened before it. */
  lemma {:induction false} CountWithinMoments(ts: seq<int>, window: int, limit: nat, a: int, k: nat)
    requires Sorted(ts) && window == 1 && limit >= 1 && k >= 1 && ts != [] && a <= ts[|ts| - 1] < a + k * window
    ensures var e, b := After(ts, window), a + k * window;
      e.Some? && Count(ts, window, limit, a, b) + Budget(e.value, limit, window, b) <= k * limit
    decreases |ts|
  {
    var n, b := |ts| - 1, a + k * window;
    var init := ts[..n];
    if init == [] || init[n - 1] < a {
      NothingBefore(init, window, limit, a, b);
      if init != [] {
        AfterIsHistory(init, n - 1, window);
        assert init[..n] == init;
      }
      FirstOpens(After(init, window), ts[n], limit, window, a, k);
    } else {
      CountWithinMoments(init, window, limit, a, k);
      HitWithinBudget(After(init, window).value, ts[n], limit, window, b);
    }
  }

  lemma {:induction false} MomentsBounded(ts: seq<int>, window: int, limit: nat, a: int, k: nat)
    requires Sorted(ts) && window == 1 && limit >= 1 && k >= 1
    ensures Count(ts, window, limit, a, a + k * window) <= k * limit
    decreases |ts|
  {
    if ts == [] || ts[|ts| - 1] < a {
      NothingBefore(ts, window, limit, a, a + k * window);
    } else if ts[|ts| - 1] < a + k * window {
      CountWithinMoments(ts, window, limit, a, k);
    } else {
      MomentsBounded(ts[..|ts| - 1], window, limit, a, k);
    }
  }

  /** Tight, and exactly when: some arrivals reach the bound if and only if a window is two milliseconds or
      longer or the limit is one; otherwise k windows never admit more than k*limit. */
  lemma RateBoundReached(k: nat, limit: nat, window: int)
    requires window >= 1 && limit >= 1 && k >= 1
    ensures (exists ts, a :: Reaches(ts, window, limit, a, k)) <==> window >= 2 || limit == 1
  {
    if window >= 2 {
      CrowdReaches(k, limit, window);
    } else if limit == 1 {
      SingleReaches(k, limit, window);
    } else {
      forall ts, a ensures !Reaches(ts, window, limit, a, k) {
        if Sorted(ts) {
          MomentsBounded(ts, window, limit, a, k);
          CountIsSize(ts, window, limit, a, a + k * window);
        }
      }
    }
  }
}
