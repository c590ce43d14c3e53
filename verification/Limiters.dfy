/**
 The Panel's two in-process limiters, for requests and for logins, over the fixed windows of
 FixedWindow. A Redis-backed limiter counts the same way.
 */
module Limiters {
  import opened Wrappers
  import opened FixedWindow

  function Get<K, V>(m: map<K, V>, k: K): Option<V> {
    if k in m then Some(m[k]) else None
  }

  function Calls<K>(m: map<K, seq<int>>, k: K): seq<int> {
    if k in m then m[k] else []
  }

  // ---- requests --------------------------------------------------------------------------------

  lemma OneMoreCall(times: seq<int>, now: int, window: int, limit: nat)
    ensures After(times + [now], window) == Some(Hit(After(times, window), now, window))
    ensures Allowed(times + [now], window, limit, |times|) <==> Hit(After(times, window), now, window).n <= limit
  {
    var more := times + [now];
    AfterOneMore(more, window, |times|);
    assert more[..|times|] == times && more[..|times| + 1] == more;
  }

  class RequestLimiter {
    var counts: map<string, Counter>
    // The times of all calls, per key.
    ghost var calls: map<string, seq<int>>

    // The calls for this key have all been for this window.
    ghost predicate Counts(key: string, window: int)
      reads this
    {
      Get(counts, key) == After(Calls(calls, key), window)
    }

    constructor ()
      ensures forall key, window :: Counts(key, window) && Calls(calls, key) == []
    {
      counts, calls := map[], map[];
    }

    method Allow(key: string, limit: nat, window: int, now: int) returns (allowed: bool, retryAfter: int)
      requires Counts(key, window)
      modifies this
      ensures Counts(key, window) && calls == old(calls)[key := old(Calls(calls, key)) + [now]]
      ensures key in counts && counts == old(counts)[key := counts[key]]
      ensures allowed <==> Allowed(calls[key], window, limit, |calls[key]| - 1)
      ensures retryAfter == if allowed then 0 else counts[key].expires - now
    {
      OneMoreCall(Calls(calls, key), now, window, limit);
      calls := calls[key := Calls(calls, key) + [now]];
      var c := if key in counts then counts[key] else Counter(0, now);
      if key !in counts || !(now < c.expires) {
        c := Counter(0, now + window);
      }
      c := c.(n := c.n + 1);
      counts := counts[key := c];
      if c.n <= limit {
        return true, 0;
      }
      return false, c.expires - now;
    }
  }

  // ---- logins ----------------------------------------------------------------------------------

  datatype LoginLimits = LoginLimits(perIP: nat, perUserIP: nat, window: int)

  // User names are in lower case.
  datatype Key = IP(ip: string) | UserIP(user: string, ip: string)

  datatype Password = Wrong | Right | NeedsCode

  predicate Full(c: Option<Counter>, max: nat, now: int) {
    Live(c, now).Some? && c.value.n >= max
  }

  predicate BlockedAt(counts: map<Key, Counter>, limits: LoginLimits, user: string, ip: string, now: int) {
    Full(Get(counts, IP(ip)), limits.perIP, now) || Full(Get(counts, UserIP(user, ip)), limits.perUserIP, now)
  }

  function RetryAfter(counts: map<Key, Counter>, limits: LoginLimits, user: string, ip: string, now: int): int
    requires BlockedAt(counts, limits, user, ip, now)
  {
    if Full(Get(counts, IP(ip)), limits.perIP, now) then counts[IP(ip)].expires - now
    else counts[UserIP(user, ip)].expires - now
  }

  // Both counters are full, and the one for the user outlives the one for the address, which is reported.
  predicate UserOutlives(counts: map<Key, Counter>, limits: LoginLimits, user: string, ip: string, now: int) {
    && Full(Get(counts, IP(ip)), limits.perIP, now) && Full(Get(counts, UserIP(user, ip)), limits.perUserIP, now)
    && counts[IP(ip)].expires < counts[UserIP(user, ip)].expires
  }

  // When nothing more is recorded, the block lifts exactly when the caller was told, with that exception.
  lemma RetryAfterIsExact(counts: map<Key, Counter>, limits: LoginLimits, user: string, ip: string, now: int)
    requires BlockedAt(counts, limits, user, ip, now)
    ensures
      (forall t :: now <= t ==>
          (BlockedAt(counts, limits, user, ip, t) <==> t < now + RetryAfter(counts, limits, user, ip, now)))
      <==>
      !UserOutlives(counts, limits, user, ip, now)
  {
    var over := now + RetryAfter(counts, limits, user, ip, now);
    if UserOutlives(counts, limits, user, ip, now) {
      assert BlockedAt(counts, limits, user, ip, over);
    }
  }

  // A failure is counted for the address and for the user.
  function Failed(counts: map<Key, Counter>, window: int, user: string, ip: string, now: int): map<Key, Counter> {
    counts[IP(ip) := Hit(Get(counts, IP(ip)), now, window)][UserIP(user, ip) :=
        Hit(Get(counts, UserIP(user, ip)), now, window)]
  }

  // A login that takes no time.
  datatype Attempt = Attempt(user: string, ip: string, password: Password, at: int)

  function Logged(counts: map<Key, Counter>, limits: LoginLimits, a: Attempt): map<Key, Counter> {
    if BlockedAt(counts, limits, a.user, a.ip, a.at) then counts
    else match a.password
      case NeedsCode => counts
      case Right => counts - {UserIP(a.user, a.ip)}
      case Wrong => Failed(counts, limits.window, a.user, a.ip, a.at)
  }

  function CountsAfter(attempts: seq<Attempt>, limits: LoginLimits): map<Key, Counter> {
    if attempts == [] then map[]
    else Logged(CountsAfter(attempts[..|attempts| - 1], limits), limits, attempts[|attempts| - 1])
  }

  // The attempts came one after the other, until now.
  predicate UpTo(attempts: seq<Attempt>, now: int) {
    attempts == [] || (attempts[|attempts| - 1].at <= now
        && UpTo(attempts[..|attempts| - 1], attempts[|attempts| - 1].at))
  }

  // A user's counter that outlives the address's has counted less.
  predicate PairOk(counts: map<Key, Counter>, limits: LoginLimits, now: int, user: string, ip: string) {
    var i, u := Get(counts, IP(ip)), Get(counts, UserIP(user, ip));
    && (i.Some? ==> 1 <= i.value.n <= limits.perIP)
    && (u.Some? ==> 1 <= u.value.n && u.value.expires <= now + limits.window)
    && (Live(i, now).Some? && Live(u, now).Some? && i.value.expires < u.value.expires ==> u.value.n < i.value.n)
  }

  lemma LoggedKeepsPairOk(counts: map<Key, Counter>, limits: LoginLimits, now: int, a: Attempt, user: string,
                          ip: string)
    requires PairOk(counts, limits, now, user, ip) && now <= a.at && limits.perIP >= 1
    ensures PairOk(Logged(counts, limits, a), limits, a.at, user, ip)
  {
    var counts' := Logged(counts, limits, a);
    if a.ip != ip || a.user != user {
      assert Get(counts', UserIP(user, ip)) == Get(counts, UserIP(user, ip));
    }
    if a.ip != ip {
      assert Get(counts', IP(ip)) == Get(counts, IP(ip));
    }
  }

  lemma {:induction false} PairsAreOk(attempts: seq<Attempt>, limits: LoginLimits, now: int, user: string, ip: string)
    requires UpTo(attempts, now) && limits.perIP >= 1
    ensures PairOk(CountsAfter(attempts, limits), limits, now, user, ip)
  {
    if attempts != [] {
      var n := |attempts| - 1;
      PairsAreOk(attempts[..n], limits, attempts[n].at, user, ip);
      LoggedKeepsPairOk(CountsAfter(attempts[..n], limits), limits, attempts[n].at, attempts[n], user, ip);
    }
  }

  // Users with names of their own.
  function Name(k: nat): string {
    seq(k, _ => 'a')
  }

  // No failure was counted yet for the users from number k + 1 on, and for number 0.
  ghost predicate Untried(counts: map<Key, Counter>, ip: string, k: nat) {
    forall m: nat {:trigger Name(m)} :: m == 0 || m > k ==> UserIP(Name(m), ip) !in counts
  }

  lemma OneFails(counts: map<Key, Counter>, limits: LoginLimits, user: string, ip: string, at: int)
    requires !BlockedAt(counts, limits, user, ip, at)
    ensures
      var counts' := Logged(counts, limits, Attempt(user, ip, Wrong, at));
      && Get(counts', IP(ip)) == Some(Hit(Get(counts, IP(ip)), at, limits.window))
      && Get(counts', UserIP(user, ip)) == Some(Hit(Get(counts, UserIP(user, ip)), at, limits.window))
      && forall k :: k in counts' <==> k in counts || k == IP(ip) || k == UserIP(user, ip)
  {
  }

  lemma NextIsUntried(counts: map<Key, Counter>, counts': map<Key, Counter>, ip: string, k: nat)
    requires k > 0 && Untried(counts, ip, k - 1)
    requires forall key :: key in counts' <==> key in counts || key == IP(ip) || key == UserIP(Name(k), ip)
    ensures Untried(counts', ip, k)
  {
    forall m: nat {:trigger Name(m)} | m == 0 || m > k ensures UserIP(Name(m), ip) !in counts' {
      assert |Name(m)| != |Name(k)|;
    }
  }

  ghost predicate LeadTo(attempts: seq<Attempt>, limits: LoginLimits, now: int, counts: map<Key, Counter>) {
    UpTo(attempts, now) && counts == CountsAfter(attempts, limits)
  }

  // Some logins lead to these counters.
  ghost predicate CanBe(limits: LoginLimits, now: int, counts: map<Key, Counter>) {
    exists attempts :: LeadTo(attempts, limits, now, counts)
  }

  lemma NextAttempt(limits: LoginLimits, now: int, counts: map<Key, Counter>, a: Attempt)
    requires CanBe(limits, now, counts) && now <= a.at
    ensures CanBe(limits, a.at, Logged(counts, limits, a))
  {
    var attempts :| LeadTo(attempts, limits, now, counts);
    assert (attempts + [a])[..|attempts + [a]| - 1] == attempts;
    assert UpTo(attempts, a.at);
    assert LeadTo(attempts + [a], limits, a.at, Logged(counts, limits, a));
  }

  lemma NextIsCounted(counts: map<Key, Counter>, ip: string, k: nat, limits: LoginLimits)
    requires 0 < k < limits.perIP && limits.window >= 2 && Untried(counts, ip, k - 1)
    requires Get(counts, IP(ip)) == if k == 1 then None else Some(Counter(k - 1, limits.window))
    ensures
      var counts' := Logged(counts, limits, Attempt(Name(k), ip, Wrong, 0));
      Get(counts', IP(ip)) == Some(Counter(k, limits.window)) && Untried(counts', ip, k)
  {
    assert Get(counts, UserIP(Name(k), ip)) == None;
    OneFails(counts, limits, Name(k), ip, 0);
    NextIsUntried(counts, Logged(counts, limits, Attempt(Name(k), ip, Wrong, 0)), ip, k);
  }

  // Each of k users fails once.
  lemma {:induction false} EachFails(k: nat, ip: string, limits: LoginLimits) returns (counts: map<Key, Counter>)
    requires k < limits.perIP && limits.window >= 2
    ensures CanBe(limits, 0, counts) && Untried(counts, ip, k)
    ensures Get(counts, IP(ip)) == (if k == 0 then None else Some(Counter(k, limits.window)))
  {
    if k == 0 {
      counts := map[];
      assert LeadTo([], limits, 0, counts);
    } else {
      counts := EachFails(k - 1, ip, limits);
      var a := Attempt(Name(k), ip, Wrong, 0);
      NextAttempt(limits, 0, counts, a);
      NextIsCounted(counts, ip, k, limits);
      counts := Logged(counts, limits, a);
    }
  }

  lemma OneMoreIsCounted(counts: map<Key, Counter>, user: string, ip: string, n: nat, j: nat, limits: LoginLimits)
    requires n < limits.perIP && limits.window >= 2 && j <= limits.perUserIP && (j == limits.perUserIP ==> j == 0)
    requires Get(counts, IP(ip)) == Some(Counter(n, limits.window))
    requires Get(counts, UserIP(user, ip)) == if j == 0 then None else Some(Counter(j, 1 + limits.window))
    ensures
      var counts' := Logged(counts, limits, Attempt(user, ip, Wrong, 1));
      && Get(counts', IP(ip)) == Some(Counter(n + 1, limits.window))
      && Get(counts', UserIP(user, ip)) == Some(Counter(j + 1, 1 + limits.window))
  {
    OneFails(counts, limits, user, ip, 1);
  }

  // Then one more user fails j times.
  lemma {:induction false} ThenFails(k: nat, ip: string, j: nat, limits: LoginLimits)
    returns (counts: map<Key, Counter>)
    requires 0 < k < limits.perIP && k + j <= limits.perIP && limits.window >= 2
    requires j <= (if limits.perUserIP == 0 then 1 else limits.perUserIP)
    ensures CanBe(limits, if j == 0 then 0 else 1, counts)
    ensures Get(counts, IP(ip)) == Some(Counter(k + j, limits.window))
    ensures Get(counts, UserIP(Name(0), ip)) == if j == 0 then None else Some(Counter(j, 1 + limits.window))
  {
    if j == 0 {
      counts := EachFails(k, ip, limits);
      assert UserIP(Name(0), ip) !in counts;
    } else {
      counts := ThenFails(k, ip, j - 1, limits);
      var a := Attempt(Name(0), ip, Wrong, 1);
      NextAttempt(limits, if j == 1 then 0 else 1, counts, a);
      OneMoreIsCounted(counts, a.user, ip, k + j - 1, j - 1, limits);
      counts := Logged(counts, limits, a);
    }
  }

  ghost predicate CanOutlive(limits: LoginLimits, attempts: seq<Attempt>, user: string, ip: string, now: int) {
    UpTo(attempts, now) && UserOutlives(CountsAfter(attempts, limits), limits, user, ip, now)
  }

  // Logins lead to that exception exactly if a user may fail less often than an address.
  lemma TheExceptionNeedsASmallerUserLimit(limits: LoginLimits)
    requires limits.perIP >= 1 && limits.window >= 2
    ensures (exists attempts, user, ip, now :: CanOutlive(limits, attempts, user, ip, now)) <==>
            limits.perUserIP < limits.perIP && limits.perIP >= 2
  {
    forall attempts, user, ip, now | CanOutlive(limits, attempts, user, ip, now)
      ensures limits.perUserIP < limits.perIP && limits.perIP >= 2
    {
      PairsAreOk(attempts, limits, now, user, ip);
    }
    if limits.perUserIP < limits.perIP && limits.perIP >= 2 {
      var j := if limits.perUserIP == 0 then 1 else limits.perUserIP;
      var counts := ThenFails(limits.perIP - j, "", j, limits);
      var attempts :| LeadTo(attempts, limits, 1, counts);
      assert CanOutlive(limits, attempts, Name(0), "", 1);
    }
  }

  // What the store holds for an address, or what is left of it once it has expired.
  predicate Reflects(c: Option<Counter>, all: Option<Counter>, clock: int) {
    c == all || (c.None? && Live(all, clock).None?)
  }

  // Every recorded failure was within the limit for its address.
  predicate WithinLimit(times: seq<int>, limits: LoginLimits, clock: int) {
    && InTime(times)
    && (forall k :: 0 <= k < |times| ==> times[k] <= clock && Allowed(times, limits.window, limits.perIP, k))
  }

  lemma TimePasses(times: seq<int>, limits: LoginLimits, clock: int, c: Option<Counter>, now: int,
                   checked: Option<Counter>, later: int)
    requires clock <= now <= later
    requires Reflects(c, After(times, limits.window), clock) && WithinLimit(times, limits, clock)
    requires checked == c || (checked.None? && Live(c, now).None?)
    ensures Reflects(checked, After(times, limits.window), later) && WithinLimit(times, limits, later)
  {
    forall k | 0 <= k < |times| ensures times[k] <= later && Allowed(times, limits.window, limits.perIP, k) {
    }
  }

  // Recording a failure that the check let through.
  lemma OneMoreFailure(times: seq<int>, limits: LoginLimits, now: int, c: Option<Counter>)
    requires limits.perIP >= 1
    requires Reflects(c, After(times, limits.window), now) && WithinLimit(times, limits, now)
    requires !Full(c, limits.perIP, now)
    ensures Reflects(Some(Hit(c, now, limits.window)), After(times + [now], limits.window), now)
    ensures WithinLimit(times + [now], limits, now)
  {
    var more := times + [now];
    OneMoreCall(times, now, limits.window, limits.perIP);
    forall k | 0 <= k < |more| ensures more[k] <= now && Allowed(more, limits.window, limits.perIP, k) {
      if k < |times| {
        assert more[..k + 1] == times[..k + 1];
        assert Allowed(times, limits.window, limits.perIP, k);
      }
    }
  }

  // What is stored for an address agrees with the failures recorded for it, which stay within its limit.
  predicate AddressOk(counts: map<Key, Counter>, failures: map<string, seq<int>>, limits: LoginLimits, clock: int,
                      ip: string) {
    && Reflects(Get(counts, IP(ip)), After(Calls(failures, ip), limits.window), clock)
    && WithinLimit(Calls(failures, ip), limits, clock)
  }

  ghost predicate AllOk(counts: map<Key, Counter>, failures: map<string, seq<int>>, limits: LoginLimits, clock: int) {
    forall ip :: AddressOk(counts, failures, limits, clock, ip)
  }

  // Expired counters may have been dropped.
  ghost predicate OnlyExpiredAreGone(counts: map<Key, Counter>, counts': map<Key, Counter>, now: int) {
    forall k :: Get(counts', k) == Get(counts, k) || (Get(counts', k).None? && Live(Get(counts, k), now).None?)
  }

  lemma TimeKeepsOk(counts: map<Key, Counter>, failures: map<string, seq<int>>, limits: LoginLimits, clock: int,
                    now: int,
                    counts': map<Key, Counter>, later: int)
    requires AllOk(counts, failures, limits, clock) && clock <= now <= later && OnlyExpiredAreGone(counts, counts', now)
    ensures AllOk(counts', failures, limits, later)
  {
    forall ip ensures AddressOk(counts', failures, limits, later, ip) {
      assert AddressOk(counts, failures, limits, clock, ip);
      TimePasses(Calls(failures, ip), limits, clock, Get(counts, IP(ip)), now, Get(counts', IP(ip)), later);
    }
  }

  lemma FailureKeepsOk(counts: map<Key, Counter>, failures: map<string, seq<int>>, limits: LoginLimits, now: int,
                       user: string, ip: string, u: Counter)
    requires AllOk(counts, failures, limits, now) && limits.perIP >= 1 && !Full(Get(counts, IP(ip)), limits.perIP, now)
    ensures
      var counts' := counts[IP(ip) := Hit(Get(counts, IP(ip)), now, limits.window)][UserIP(user, ip) := u];
      AllOk(counts', failures[ip := Calls(failures, ip) + [now]], limits, now)
  {
    var h := Hit(Get(counts, IP(ip)), now, limits.window);
    var counts', failures' := counts[IP(ip) := h][UserIP(user, ip) := u], failures[ip := Calls(failures, ip) + [now]];
    assert Get(counts', IP(ip)) == Some(h) && Calls(failures', ip) == Calls(failures, ip) + [now];
    assert AddressOk(counts, failures, limits, now, ip);
    OneMoreFailure(Calls(failures, ip), limits, now, Get(counts, IP(ip)));
    forall x | x != ip ensures AddressOk(counts', failures', limits, now, x) {
      OtherAddress(counts, failures, limits, now, ip, h, UserIP(user, ip), u, Calls(failures, ip) + [now], x);
    }
  }

  lemma OtherAddress(counts: map<Key, Counter>, failures: map<string, seq<int>>, limits: LoginLimits, now: int,
                     ip: string, h: Counter, key: Key, u: Counter, times: seq<int>, x: string)
    requires AllOk(counts, failures, limits, now) && x != ip && key.UserIP?
    ensures AddressOk(counts[IP(ip) := h][key := u], failures[ip := times], limits, now, x)
  {
    assert AddressOk(counts, failures, limits, now, x);
    assert Get(counts[IP(ip) := h][key := u], IP(x)) == Get(counts, IP(x));
    assert Calls(failures[ip := times], x) == Calls(failures, x);
  }

  lemma SuccessKeepsOk(counts: map<Key, Counter>, failures: map<string, seq<int>>, limits: LoginLimits, now: int,
                       user: string, ip: string)
    requires AllOk(counts, failures, limits, now)
    ensures AllOk(counts - {UserIP(user, ip)}, failures, limits, now)
  {
    forall x ensures AddressOk(counts - {UserIP(user, ip)}, failures, limits, now, x) {
      assert AddressOk(counts, failures, limits, now, x);
    }
  }

  class LoginLimiter {
    const limits: LoginLimits
    var counts: map<Key, Counter>
    // The latest time seen, and the times of all failures recorded, per address.
    ghost var clock: int
    ghost var failures: map<string, seq<int>>

    ghost predicate Valid()
      reads this
    {
      limits.perIP >= 1 && AllOk(counts, failures, limits, clock)
    }

    constructor (limits: LoginLimits, now: int)
      requires limits.perIP >= 1
      ensures Valid() && this.limits == limits && clock == now && failures == map[] && counts == map[]
    {
      this.limits := limits;
      counts, clock, failures := map[], now, map[];
      new;
      forall ip ensures AddressOk(counts, failures, limits, clock, ip) {
        assert Calls(failures, ip) == [];
      }
    }

    // The counter, unless it has expired, which drops it.
    method LiveCounter(key: Key, now: int) returns (c: Option<Counter>)
      modifies this`counts
      ensures c == Live(old(Get(counts, key)), now) && Get(counts, key) == c
      ensures counts == if c.None? then old(counts) - {key} else old(counts)
    {
      c := Get(counts, key);
      if c.Some? && !(now < c.value.expires) {
        counts := counts - {key};
        c := None;
      }
    }

    method Blocked(user: string, ip: string, now: int) returns (blocked: bool, retryAfter: int)
      modifies this`counts
      ensures blocked == BlockedAt(old(counts), limits, user, ip, now)
      ensures retryAfter == if blocked then RetryAfter(old(counts), limits, user, ip, now) else 0
      ensures OnlyExpiredAreGone(old(counts), counts, now)
    {
      var c := LiveCounter(IP(ip), now);
      if c.Some? && c.value.n >= limits.perIP {
        return true, c.value.expires - now;
      }
      c := LiveCounter(UserIP(user, ip), now);
      if c.Some? && c.value.n >= limits.perUserIP {
        return true, c.value.expires - now;
      }
      return false, 0;
    }

    method RecordFailure(user: string, ip: string, now: int)
      modifies this`counts
      ensures counts == Failed(old(counts), limits.window, user, ip, now)
    {
      Record(IP(ip), now);
      Record(UserIP(user, ip), now);
    }

    method Record(key: Key, now: int)
      modifies this`counts
      ensures counts == old(counts)[key := Hit(old(Get(counts, key)), now, limits.window)]
    {
      var c := LiveCounter(key, now);
      if c.None? {
        c := Some(Counter(0, now + limits.window));
      }
      counts := counts[key := c.value.(n := c.value.n + 1)];
    }

    // Only the user's counter is forgotten: a success does not clear the address.
    method RecordSuccess(user: string, ip: string)
      modifies this`counts
      ensures counts == old(counts) - {UserIP(user, ip)}
    {
      counts := counts - {UserIP(user, ip)};
    }

    // A failure that the check let through.
    method RecordWrong(user: string, ip: string, now: int)
      requires Valid() && clock == now && !Full(Get(counts, IP(ip)), limits.perIP, now)
      modifies this
      ensures Valid() && clock == now
      ensures failures == old(failures)[ip := old(Calls(failures, ip)) + [now]]
    {
      FailureKeepsOk(counts, failures, limits, now, user, ip, Hit(Get(counts, UserIP(user, ip)), now, limits.window));
      RecordFailure(user, ip, now);
      failures := failures[ip := Calls(failures, ip) + [now]];
    }

    method RecordRight(user: string, ip: string)
      requires Valid()
      modifies this`counts
      ensures Valid() && Get(counts, UserIP(user, ip)).None?
    {
      SuccessKeepsOk(counts, failures, limits, clock, user, ip);
      RecordSuccess(user, ip);
    }

    method Check(user: string, ip: string, now: int, ghost later: int) returns (blocked: bool, retryAfter: int)
      requires Valid() && clock <= now <= later
      modifies this
      ensures Valid() && clock == later && failures == old(failures)
      ensures blocked == BlockedAt(old(counts), limits, user, ip, now)
      ensures retryAfter == if blocked then RetryAfter(old(counts), limits, user, ip, now) else 0
      ensures !blocked ==> !Full(Get(counts, IP(ip)), limits.perIP, later)
    {
      blocked, retryAfter := Blocked(user, ip, now);
      TimeKeepsOk(old(counts), failures, limits, clock, now, counts, later);
      clock := later;
    }

    // One login: the check, the password, then the record, with time passing in between but no other
    // login from the same address. A right password that still needs a second factor is not recorded.
    // Whatever came before, failures from one address stay in its limit.
    method Login(user: string, ip: string, password: Password, now: int, later: int)
      returns (blocked: bool, retryAfter: int)
      requires Valid() && clock <= now <= later
      modifies this
      ensures Valid() && clock == later
      ensures blocked == BlockedAt(old(counts), limits, user, ip, now)
      ensures retryAfter == if blocked then RetryAfter(old(counts), limits, user, ip, now) else 0
      ensures failures == if blocked || password != Wrong then old(failures)
                else old(failures)[ip := old(Calls(failures, ip)) + [later]]
      ensures !blocked && password == Right ==> Get(counts, UserIP(user, ip)).None?
    {
      blocked, retryAfter := Check(user, ip, now, later);
      if blocked {
        return;
      }
      match password {
        case NeedsCode =>
        case Right => RecordRight(user, ip);
        case Wrong => RecordWrong(user, ip, later);
      }
    }

    // The second step of a login with two-factor authentication, which counts in the same way. A right
    // code whose ticket was taken by another request is not recorded.
    method SecondStep(user: string, ip: string, right: bool, taken: bool, now: int, later: int)
      returns (blocked: bool, retryAfter: int)
      requires Valid() && clock <= now <= later
      modifies this
      ensures Valid() && clock == later
      ensures blocked == BlockedAt(old(counts), limits, user, ip, now)
      ensures retryAfter == if blocked then RetryAfter(old(counts), limits, user, ip, now) else 0
      ensures failures == if blocked || right then old(failures)
                else old(failures)[ip := old(Calls(failures, ip)) + [later]]
      ensures !blocked && right && !taken ==> Get(counts, UserIP(user, ip)).None?
    {
      blocked, retryAfter := Check(user, ip, now, later);
      if blocked {
        return;
      }
      if !right {
        RecordWrong(user, ip, later);
      } else if !taken {
        RecordRight(user, ip);
      }
    }
  }

  lemma {:induction false} AllAreCounted(times: seq<int>, limits: LoginLimits, clock: int, i: nat, j: nat)
    requires WithinLimit(times, limits, clock) && i <= j <= |times|
    ensures AllowedIn(times, limits.window, limits.perIP, i, j) == j - i
  {
    if i < j {
      AllAreCounted(times, limits, clock, i, j - 1);
      assert Allowed(times, limits.window, limits.perIP, j - 1);
    }
  }

  // Whatever users are tried and whatever logins succeed in between: from one address, at most twice
  // the limit of failures in any span of one window, and one less in any shorter span.
  lemma FailuresPerAddressAreLimited(l: LoginLimiter, ip: string, i: nat, j: nat)
    requires l.Valid() && l.limits.window > 0 && i < j <= |Calls(l.failures, ip)|
    ensures
      var times, w := Calls(l.failures, ip), l.limits.window;
      && (times[j - 1] - times[i] <= w ==> j - i <= 2 * l.limits.perIP)
      && (times[j - 1] - times[i] < w ==> j - i <= 2 * l.limits.perIP - 1)
  {
    assert AddressOk(l.counts, l.failures, l.limits, l.clock, ip);
    var times := Calls(l.failures, ip);
    AllAreCounted(times, l.limits, l.clock, i, j);
    SpansAreLimited(times, l.limits.window, l.limits.perIP, i, j);
  }

  // ---- overlapping logins ----------------------------------------------------------------------

  // The counter of one address, and how many logins from there are between their check and their record.
  datatype Traffic = Traffic(c: Option<Counter>, inFlight: nat, clock: int)

  predicate Enters(t: Traffic, t': Traffic, limits: LoginLimits, atOnce: nat, now: int) {
    && t.clock <= now && t.inFlight < atOnce && !Full(t.c, limits.perIP, now)
    && t' == Traffic(Live(t.c, now), t.inFlight + 1, now)
  }

  predicate Records(t: Traffic, t': Traffic, limits: LoginLimits, now: int) {
    && t.clock <= now && t.inFlight > 0
    && t' == Traffic(Some(Hit(t.c, now, limits.window)), t.inFlight - 1, now)
  }

  // It succeeds, or needs a second factor, or is over in another way.
  predicate Leaves(t: Traffic, t': Traffic) {
    t.inFlight > 0 && t' == t.(inFlight := t.inFlight - 1)
  }

  ghost predicate TrafficStep(t: Traffic, t': Traffic, limits: LoginLimits, atOnce: nat) {
    || (exists now :: Enters(t, t', limits, atOnce, now)) || (exists now :: Records(t, t', limits, now))
    || Leaves(t, t')
  }

  ghost predicate IsTraffic(run: seq<Traffic>, limits: LoginLimits, atOnce: nat) {
    && run != [] && run[0].c.None? && run[0].inFlight == 0
    && forall k :: 0 <= k < |run| - 1 ==> TrafficStep(run[k], run[k + 1], limits, atOnce)
  }

  predicate IsCount(t: Traffic, n: nat) {
    t.c.Some? && t.c.value.n == n
  }

  lemma {:induction false} OvershootIsBounded(run: seq<Traffic>, limits: LoginLimits, atOnce: nat, k: nat)
    requires IsTraffic(run, limits, atOnce) && limits.perIP >= 1 && k < |run|
    ensures run[k].inFlight <= atOnce
    ensures run[k].c.Some? ==> run[k].c.value.n < limits.perIP + atOnce
    ensures run[k].c.Some? && run[k].inFlight > 0 ==> run[k].c.value.n + run[k].inFlight < limits.perIP + atOnce
  {
    if k > 0 {
      OvershootIsBounded(run, limits, atOnce, k - 1);
      assert TrafficStep(run[k - 1], run[k], limits, atOnce);
    }
  }

  // So many logins, one by one, that fail at once; then so many that have passed the check.
  function Alone(limits: LoginLimits, n: nat): Traffic {
    Traffic(if n == 0 then None else Some(Counter(n, limits.window)), 0, 0)
  }

  ghost predicate EndsIn(run: seq<Traffic>, limits: LoginLimits, atOnce: nat, t: Traffic) {
    IsTraffic(run, limits, atOnce) && run[|run| - 1] == t
  }

  ghost predicate CanHappen(limits: LoginLimits, atOnce: nat, t: Traffic) {
    exists run :: EndsIn(run, limits, atOnce, t)
  }

  lemma Goes(limits: LoginLimits, atOnce: nat, t: Traffic, t': Traffic)
    requires CanHappen(limits, atOnce, t) && TrafficStep(t, t', limits, atOnce)
    ensures CanHappen(limits, atOnce, t')
  {
    var run :| EndsIn(run, limits, atOnce, t);
    var more := run + [t'];
    forall k | 0 <= k < |more| - 1 ensures TrafficStep(more[k], more[k + 1], limits, atOnce) {
      if k < |run| - 1 {
        assert more[k] == run[k] && more[k + 1] == run[k + 1];
      }
    }
    assert EndsIn(more, limits, atOnce, t');
  }

  lemma {:induction false} FailAlone(limits: LoginLimits, atOnce: nat, n: nat)
    requires limits.window > 0 && atOnce >= 1 && n < limits.perIP
    ensures CanHappen(limits, atOnce, Alone(limits, n))
  {
    if n == 0 {
      assert EndsIn([Alone(limits, 0)], limits, atOnce, Alone(limits, 0));
    } else {
      FailAlone(limits, atOnce, n - 1);
      var t := Alone(limits, n - 1);
      assert Enters(t, t.(inFlight := 1), limits, atOnce, 0);
      Goes(limits, atOnce, t, t.(inFlight := 1));
      assert Records(t.(inFlight := 1), Alone(limits, n), limits, 0);
      Goes(limits, atOnce, t.(inFlight := 1), Alone(limits, n));
    }
  }

  lemma {:induction false} EnterTogether(limits: LoginLimits, atOnce: nat, n: nat)
    requires limits.window > 0 && limits.perIP >= 1 && 1 <= atOnce && n <= atOnce
    ensures CanHappen(limits, atOnce, Alone(limits, limits.perIP - 1).(inFlight := n))
  {
    if n == 0 {
      FailAlone(limits, atOnce, limits.perIP - 1);
    } else {
      EnterTogether(limits, atOnce, n - 1);
      var t := Alone(limits, limits.perIP - 1);
      assert Enters(t.(inFlight := n - 1), t.(inFlight := n), limits, atOnce, 0);
      Goes(limits, atOnce, t.(inFlight := n - 1), t.(inFlight := n));
    }
  }

  lemma {:induction false} FailTogether(limits: LoginLimits, atOnce: nat, n: nat)
    requires limits.window > 0 && limits.perIP >= 1 && 1 <= atOnce && n <= atOnce
    ensures CanHappen(limits, atOnce, Alone(limits, limits.perIP - 1 + n).(inFlight := atOnce - n))
  {
    if n == 0 {
      EnterTogether(limits, atOnce, atOnce);
    } else {
      FailTogether(limits, atOnce, n - 1);
      var t := Alone(limits, limits.perIP - 1 + n - 1).(inFlight := atOnce - n + 1);
      var t' := Alone(limits, limits.perIP - 1 + n).(inFlight := atOnce - n);
      assert Records(t, t', limits, 0);
      Goes(limits, atOnce, t, t');
    }
  }

  ghost predicate Reaches(limits: LoginLimits, atOnce: nat, n: nat) {
    exists run, k: nat :: IsTraffic(run, limits, atOnce) && k < |run| && IsCount(run[k], n)
  }

  // With so many logins from one address at once, its window can count that many failures, less one,
  // beyond the limit, and no more.
  lemma TheOvershootIsExact(limits: LoginLimits, atOnce: nat)
    requires limits.window > 0 && limits.perIP >= 1 && atOnce >= 1
    ensures Reaches(limits, atOnce, limits.perIP + atOnce - 1)
    ensures forall n: nat :: n >= limits.perIP + atOnce ==> !Reaches(limits, atOnce, n)
  {
    FailTogether(limits, atOnce, atOnce);
    var run :| EndsIn(run, limits, atOnce, Alone(limits, limits.perIP - 1 + atOnce).(inFlight := 0));
    assert IsCount(run[|run| - 1], limits.perIP + atOnce - 1);
    forall n: nat | Reaches(limits, atOnce, n) ensures n < limits.perIP + atOnce {
      var run, k: nat :| IsTraffic(run, limits, atOnce) && k < |run| && IsCount(run[k], n);
      OvershootIsBounded(run, limits, atOnce, k);
    }
  }
}
