/**
 Fixed-window counting, as both limiters do it: a counter lives for one window from its first call and
 counts the calls until then. The lemmas are about the calls for one key on a clock that does not go
 back, given by their times.
 */
module FixedWindow {
  import opened Wrappers

  datatype Counter = Counter(n: nat, expires: int)

  function Live(c: Option<Counter>, now: int): Option<Counter> {
    if c.Some? && now < c.value.expires then c else None
  }

  // One more call.
  function Hit(c: Option<Counter>, now: int, window: int): Counter {
    match Live(c, now)
    case None => Counter(1, now + window)
    case Some(live) => Counter(live.n + 1, live.expires)
  }

  predicate InTime(times: seq<int>) {
    forall i, j :: 0 <= i < j < |times| ==> times[i] <= times[j]
  }

  // The counter after all the calls.
  function After(times: seq<int>, window: int): Option<Counter> {
    if times == [] then None
    else
      var n := |times| - 1;
      Some(Hit(After(times[..n], window), times[n], window))
  }

  predicate Allowed(times: seq<int>, window: int, limit: nat, k: nat)
    requires k < |times|
  {
    After(times[..k + 1], window).value.n <= limit
  }

  // How many of the calls i, ..., j - 1 are allowed.
  function AllowedIn(times: seq<int>, window: int, limit: nat, i: nat, j: nat): nat
    requires i <= j <= |times|
  {
    if i == j then 0
    else AllowedIn(times, window, limit, i, j - 1) + if Allowed(times, window, limit, j - 1) then 1 else 0
  }

  lemma AfterOneMore(times: seq<int>, window: int, k: nat)
    requires k < |times|
    ensures After(times[..k + 1], window) == Some(Hit(After(times[..k], window), times[k], window))
  {
    assert times[..k + 1][..k] == times[..k];
  }

  function Min(a: nat, b: nat): nat {
    if a < b then a else b
  }

  lemma WindowGoesOn(times: seq<int>, window: int, j: nat, n: nat, expires: int)
    requires j < |times| && After(times[..j], window) == Some(Counter(n, expires)) && times[j] < expires
    ensures After(times[..j + 1], window) == Some(Counter(n + 1, expires))
  {
    AfterOneMore(times, window, j);
  }

  // A window counts its calls from the one that begins it.
  lemma {:induction false} WindowCounts(times: seq<int>, window: int, i: nat, j: nat)
    requires InTime(times) && i < j <= |times|
    requires Live(After(times[..i], window), times[i]).None? && times[j - 1] < times[i] + window
    ensures After(times[..j], window) == Some(Counter(j - i, times[i] + window))
    decreases j
  {
    if j == i + 1 {
      AfterOneMore(times, window, i);
    } else {
      WindowCounts(times, window, i, j - 1);
      WindowGoesOn(times, window, j - 1, j - 1 - i, times[i] + window);
    }
  }

  // Of the calls of one window, the first ones are allowed, as many as the limit.
  lemma {:induction false} EachWindowAllowsTheLimit(times: seq<int>, window: int, limit: nat, i: nat, j: nat)
    requires InTime(times) && i < j <= |times|
    requires Live(After(times[..i], window), times[i]).None? && times[j - 1] < times[i] + window
    ensures AllowedIn(times, window, limit, i, j) == Min(j - i, limit)
    decreases j
  {
    WindowCounts(times, window, i, j);
    var before := AllowedIn(times, window, limit, i, j - 1);
    assert AllowedIn(times, window, limit, i, j) == before + if j - i <= limit then 1 else 0;
    if i < j - 1 {
      EachWindowAllowsTheLimit(times, window, limit, i, j - 1);
    }
  }

  // Calls i, ..., j - 1 are of one window, which began before call i.
  ghost predicate Late(times: seq<int>, window: int, limit: nat, i: nat, j: nat)
    requires i < j <= |times|
  {
    && After(times[..j], window).Some?
    && var c := After(times[..j], window).value;
    && AllowedIn(times, window, limit, i, j) + 1 <= Min(c.n, limit)
    && times[i] < c.expires
  }

  // Calls i, ..., j - 1 are of one window, which began with one of them.
  ghost predicate Early(times: seq<int>, window: int, limit: nat, i: nat, j: nat)
    requires i < j <= |times|
  {
    && After(times[..j], window).Some?
    && var c := After(times[..j], window).value;
    && AllowedIn(times, window, limit, i, j) <= Min(c.n, limit)
    && times[i] + window <= c.expires
  }

  // Of calls i, ..., j - 1, those from b on are of the current window and the others of the one before.
  ghost predicate Split(times: seq<int>, window: int, limit: nat, i: nat, b: nat, j: nat)
    requires i < b < j <= |times|
  {
    && (Late(times, window, limit, i, b) || Early(times, window, limit, i, b))
    && After(times[..b], window).value.expires <= times[b]
    && After(times[..j], window).Some?
    && var c := After(times[..j], window).value;
    && c.expires == times[b] + window
    && AllowedIn(times, window, limit, i, j) <= AllowedIn(times, window, limit, i, b) + Min(c.n, limit)
  }

  lemma FirstCall(times: seq<int>, window: int, limit: nat, i: nat)
    requires window > 0 && limit >= 1 && i < |times|
    ensures Late(times, window, limit, i, i + 1) || Early(times, window, limit, i, i + 1)
  {
    AfterOneMore(times, window, i);
    assert AllowedIn(times, window, limit, i, i) == 0;
    if Live(After(times[..i], window), times[i]).None? {
      assert Early(times, window, limit, i, i + 1);
    }
  }

  // Call j goes on in the current window.
  lemma SameWindow(times: seq<int>, window: int, limit: nat, i: nat, j: nat)
    requires limit >= 1 && i < j < |times|
    requires Late(times, window, limit, i, j) || Early(times, window, limit, i, j)
    requires times[j] < After(times[..j], window).value.expires
    ensures Late(times, window, limit, i, j + 1) || Early(times, window, limit, i, j + 1)
  {
    AfterOneMore(times, window, j);
  }

  lemma SameSplit(times: seq<int>, window: int, limit: nat, i: nat, b: nat, j: nat)
    requires limit >= 1 && i < b < j < |times| && Split(times, window, limit, i, b, j)
    requires times[j] < After(times[..j], window).value.expires
    ensures Split(times, window, limit, i, b, j + 1)
  {
    AfterOneMore(times, window, j);
  }

  // Call j begins a new window.
  lemma NewWindow(times: seq<int>, window: int, limit: nat, i: nat, j: nat)
    requires limit >= 1 && i < j < |times|
    requires Late(times, window, limit, i, j) || Early(times, window, limit, i, j)
    requires After(times[..j], window).value.expires <= times[j]
    ensures Split(times, window, limit, i, j, j + 1)
  {
    AfterOneMore(times, window, j);
  }

  // A third window would begin more than one window after call i.
  lemma NoThirdWindow(times: seq<int>, window: int, limit: nat, i: nat, b: nat, j: nat)
    requires i < b < j < |times| && Split(times, window, limit, i, b, j)
    requires times[j] - times[i] <= window && window > 0
    ensures times[j] < After(times[..j], window).value.expires
  {
  }

  lemma {:induction false} CallsSplit(times: seq<int>, window: int, limit: nat, i: nat, j: nat) returns (b: nat)
    requires InTime(times) && window > 0 && limit >= 1 && i < j <= |times|
    requires times[j - 1] - times[i] <= window
    ensures b == 0 ==> Late(times, window, limit, i, j) || Early(times, window, limit, i, j)
    ensures b != 0 ==> i < b < j && Split(times, window, limit, i, b, j)
    decreases j
  {
    var k := j - 1;
    if k == i {
      FirstCall(times, window, limit, i);
      b := 0;
    } else {
      b := CallsSplit(times, window, limit, i, k);
      if b != 0 {
        NoThirdWindow(times, window, limit, i, b, k);
        SameSplit(times, window, limit, i, b, k);
      } else if times[k] < After(times[..k], window).value.expires {
        SameWindow(times, window, limit, i, k);
      } else {
        NewWindow(times, window, limit, i, k);
        b := k;
      }
    }
  }

  lemma {:induction false} NothingIsAllowedAtZero(times: seq<int>, window: int, i: nat, j: nat)
    requires i <= j <= |times|
    ensures AllowedIn(times, window, 0, i, j) == 0
  {
    if i < j {
      NothingIsAllowedAtZero(times, window, i, j - 1);
      AfterOneMore(times, window, j - 1);
    }
  }

  // In any span of one window, at most twice the limit; in any shorter one, one less.
  lemma SpansAreLimited(times: seq<int>, window: int, limit: nat, i: nat, j: nat)
    requires InTime(times) && window > 0 && i < j <= |times|
    ensures times[j - 1] - times[i] <= window ==> AllowedIn(times, window, limit, i, j) <= 2 * limit
    ensures times[j - 1] - times[i] < window && limit >= 1 ==> AllowedIn(times, window, limit, i, j) <= 2 * limit - 1
  {
    if limit == 0 {
      NothingIsAllowedAtZero(times, window, i, j);
    } else if times[j - 1] - times[i] <= window {
      var b := CallsSplit(times, window, limit, i, j);
    }
  }

  function TwoBursts(limit: nat, window: int): (times: seq<int>)
    ensures |times| == 2 * limit && forall k :: 0 <= k < 2 * limit ==> times[k] == if k < limit then 0 else window
  {
    seq(2 * limit, k => if k < limit then 0 else window)
  }

  lemma {:induction false} BurstsAreAllowed(limit: nat, window: int, k: nat)
    requires window > 0 && k <= 2 * limit
    ensures AllowedIn(TwoBursts(limit, window), window, limit, 0, k) == k
    ensures k >= 1 ==> After(TwoBursts(limit, window)[..k], window) ==
                         Some(if k <= limit then Counter(k, window) else Counter(k - limit, 2 * window))
  {
    if k >= 1 {
      BurstsAreAllowed(limit, window, k - 1);
      AfterOneMore(TwoBursts(limit, window), window, k - 1);
    }
  }

  // The bound is reached: a full window's calls at its beginning, and the next one's as soon as it is over.
  lemma TheBoundIsReached(limit: nat, window: int)
    requires window > 0
    ensures
      var times := TwoBursts(limit, window);
      && InTime(times) && (forall k :: 0 <= k < |times| ==> times[k] <= times[0] + window)
      && AllowedIn(times, window, limit, 0, |times|) == 2 * limit
  {
    BurstsAreAllowed(limit, window, 2 * limit);
  }

  lemma {:induction false} RefusedUntilExpiry(times: seq<int>, window: int, limit: nat, k: nat, m: nat)
    requires InTime(times) && k <= m < |times| && !Allowed(times, window, limit, k)
    requires times[m] < After(times[..k + 1], window).value.expires
    ensures !Allowed(times, window, limit, m)
    ensures After(times[..m + 1], window).value.expires == After(times[..k + 1], window).value.expires
    decreases m
  {
    if k < m {
      RefusedUntilExpiry(times, window, limit, k, m - 1);
      AfterOneMore(times, window, m);
    }
  }

  // A refused call is told to wait until the window is over. That is exact: until then every call is
  // refused, and the first one after is allowed.
  lemma WaitIsExact(times: seq<int>, window: int, limit: nat, k: nat, m: nat)
    requires InTime(times) && window > 0 && k < m < |times| && !Allowed(times, window, limit, k)
    ensures
      var over := After(times[..k + 1], window).value.expires;
      && (times[m] < over ==> !Allowed(times, window, limit, m))
      && (over <= times[m] && times[m - 1] < over && limit >= 1 ==> Allowed(times, window, limit, m))
  {
    var over := After(times[..k + 1], window).value.expires;
    if times[m] < over {
      RefusedUntilExpiry(times, window, limit, k, m);
    } else if times[m - 1] < over {
      RefusedUntilExpiry(times, window, limit, k, m - 1);
      AfterOneMore(times, window, m);
    }
  }
}
