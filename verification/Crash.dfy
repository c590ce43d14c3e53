/**
 Crash-loop control: what to do about a game process that ended on its own, from a crash window that
 is kept incrementally, and what that window says about the whole history of crashes.
 Times are nanoseconds. The API keeps them to the second, and a crash is known by its second.
 */
module Crash {
  import opened Clock

  function Unix(t: int): int {
    t / SECOND
  }

  datatype Policy = Policy(limit: int, window: int)
  {
    function OrDefault(): (p: Policy)
      ensures p.limit >= 1 && p.window > 0
    {
      if limit < 1 || window <= 0 then DEFAULT_POLICY else this
    }
  }

  const DEFAULT_POLICY := Policy(3, 600 * SECOND)

  datatype Termination = Termination(exitCode: int, reason: string, finishedAt: int)

  datatype GiveUpReason = AutoRestartDisabled | CrashLoop

  datatype Action = CleanExit | Restart(restartAt: int) | GiveUp(reason: GiveUpReason)

  datatype Decision = Decision(action: Action, recent: seq<int>)

  predicate IsOOMKilled(t: Termination) {
    t.reason == "OOMKilled"
  }

  const RESTART_DELAYS := [10 * SECOND, 30 * SECOND]

  function RestartDelay(crashes: int): (d: int)
    ensures d in RESTART_DELAYS
  {
    var n := if crashes < 1 then 1 else crashes;
    RESTART_DELAYS[(if n > |RESTART_DELAYS| then |RESTART_DELAYS| else n) - 1]
  }

  // ---- one decision ----------------------------------------------------------------------------

  // The crashes less than a window before `at`.
  function InWindow(crashes: seq<int>, at: int, window: int): seq<int> {
    if crashes == [] then []
    else
      var last := crashes[|crashes| - 1];
      InWindow(crashes[..|crashes| - 1], at, window) + (if at - last < window then [last] else [])
  }

  predicate Seen(crashes: seq<int>, at: int) {
    exists i :: 0 <= i < |crashes| && Unix(crashes[i]) == Unix(at)
  }

  function Window(recent: seq<int>, at: int, window: int): seq<int> {
    var kept := InWindow(recent, at, window);
    if Seen(kept, at) then kept else kept + [at]
  }

  function Decide(term: Termination, autoRestart: bool, recent: seq<int>, policy: Policy): Decision {
    if term.exitCode == 0 && !IsOOMKilled(term) then Decision(CleanExit, recent)
    else
      var p := policy.OrDefault();
      var kept := Window(recent, term.finishedAt, p.window);
      var action :=
        if !autoRestart then GiveUp(AutoRestartDisabled)
        else if |kept| >= p.limit then GiveUp(CrashLoop)
        else Restart(term.finishedAt + RestartDelay(|kept|));
      Decision(action, kept)
  }

  method DecideCrash(term: Termination, autoRestart: bool, recent: seq<int>, policy: Policy) returns (d: Decision)
    ensures d == Decide(term, autoRestart, recent, policy)
  {
    if term.exitCode == 0 && !IsOOMKilled(term) {
      return Decision(CleanExit, recent);
    }
    var p := policy.OrDefault();
    var at := term.finishedAt;
    var kept: seq<int> := [];
    var seen := false;
    for i := 0 to |recent|
      invariant kept == InWindow(recent[..i], at, p.window)
      invariant seen == Seen(kept, at)
    {
      assert recent[..i + 1][..i] == recent[..i];
      var t := recent[i];
      if at - t >= p.window {
        continue;
      }
      if Unix(t) == Unix(at) {
        seen := true;
      }
      ghost var before := kept;
      kept := kept + [t];
      assert kept[|before|] == t && kept[..|before|] == before;
    }
    assert recent[..|recent|] == recent;
    if !seen {
      kept := kept + [at];
    }
    if !autoRestart {
      d := Decision(GiveUp(AutoRestartDisabled), kept);
    } else if |kept| >= p.limit {
      d := Decision(GiveUp(CrashLoop), kept);
    } else {
      d := Decision(Restart(at + RestartDelay(|kept|)), kept);
    }
  }

  // ---- facts about windows ---------------------------------------------------------------------

  lemma {:induction false} InWindowIsInside(crashes: seq<int>, at: int, window: int)
    ensures forall t :: t in InWindow(crashes, at, window) <==> t in crashes && at - t < window
    ensures |InWindow(crashes, at, window)| <= |crashes|
  {
    if crashes != [] {
      var rest, last := crashes[..|crashes| - 1], crashes[|crashes| - 1];
      InWindowIsInside(rest, at, window);
      assert crashes == rest + [last];
    }
  }

  lemma InWindowSnoc(crashes: seq<int>, t: int, at: int, window: int)
    ensures InWindow(crashes + [t], at, window) == InWindow(crashes, at, window) + (if at - t < window then [t] else [])
  {
    assert (crashes + [t])[..|crashes|] == crashes;
  }

  // A later window is unaffected by what an earlier one already dropped.
  lemma {:induction false} LaterWindowOfEarlier(crashes: seq<int>, earlier: int, later: int, window: int)
    requires earlier <= later
    ensures InWindow(InWindow(crashes, earlier, window), later, window) == InWindow(crashes, later, window)
  {
    if crashes != [] {
      var rest, last := crashes[..|crashes| - 1], crashes[|crashes| - 1];
      LaterWindowOfEarlier(rest, earlier, later, window);
      if earlier - last < window {
        InWindowSnoc(InWindow(rest, earlier, window), last, later, window);
      } else {
        assert InWindow(crashes, earlier, window) == InWindow(rest, earlier, window);
      }
    }
  }

  lemma WindowTwice(recent: seq<int>, at: int, window: int)
    requires window > 0
    ensures Window(Window(recent, at, window), at, window) == Window(recent, at, window)
  {
    var kept := InWindow(recent, at, window);
    LaterWindowOfEarlier(recent, at, at, window);
    if !Seen(kept, at) {
      InWindowSnoc(kept, at, at, window);
      assert (kept + [at])[|kept|] == at;
    }
  }

  // Deciding the same crash again, from the window it left behind, changes nothing: not the window,
  // not the action, not the time of the restart.
  lemma DecidingTwiceIsDecidingOnce(term: Termination, autoRestart: bool, recent: seq<int>, policy: Policy)
    ensures
      var d := Decide(term, autoRestart, recent, policy);
      Decide(term, autoRestart, d.recent, policy) == d
  {
    WindowTwice(recent, term.finishedAt, policy.OrDefault().window);
  }

  // A restart is decided only with room left in the window and the switch on. It comes ten seconds after the
  // first crash of a window and thirty after a later one.
  lemma RestartMeansRoom(term: Termination, autoRestart: bool, recent: seq<int>, policy: Policy)
    ensures
      var d, p := Decide(term, autoRestart, recent, policy), policy.OrDefault();
      d.action.Restart? ==>
        && autoRestart && (term.exitCode != 0 || IsOOMKilled(term))
        && d.recent == Window(recent, term.finishedAt, p.window) && |d.recent| < p.limit
        && d.action.restartAt == term.finishedAt + if |d.recent| <= 1 then 10 * SECOND else 30 * SECOND
  {
  }

  // ---- the whole history -----------------------------------------------------------------------

  // Crash times in order, at least a second apart.
  ghost predicate Ordered(crashes: seq<int>) {
    forall i, j :: 0 <= i < j < |crashes| ==> crashes[i] + SECOND <= crashes[j]
  }

  // The stored window after a history of crashes, each handled by Decide.
  function Stored(crashes: seq<int>, window: int): seq<int> {
    if crashes == [] then []
    else Window(Stored(crashes[..|crashes| - 1], window), crashes[|crashes| - 1], window)
  }

  lemma NewCrashIsUnseen(crashes: seq<int>, at: int, window: int)
    requires forall t :: t in crashes ==> t + SECOND <= at
    ensures !Seen(InWindow(crashes, at, window), at)
  {
    var kept := InWindow(crashes, at, window);
    InWindowIsInside(crashes, at, window);
    forall i | 0 <= i < |kept| ensures Unix(kept[i]) != Unix(at) {
      assert kept[i] in kept;
    }
  }

  // The stored window loses nothing that matters: it is the full history cut to the window.
  lemma {:induction false} StoredIsTheHistoryInTheWindow(crashes: seq<int>, window: int)
    requires Ordered(crashes) && crashes != [] && window > 0
    ensures Stored(crashes, window) == InWindow(crashes, crashes[|crashes| - 1], window)
  {
    var n := |crashes|;
    var rest, at := crashes[..n - 1], crashes[n - 1];
    forall t | t in rest ensures t + SECOND <= at {
      var k :| 0 <= k < |rest| && rest[k] == t;
      assert crashes[k] + SECOND <= crashes[n - 1];
    }
    NewCrashIsUnseen(rest, at, window);
    if rest != [] {
      StoredIsTheHistoryInTheWindow(rest, window);
      LaterWindowOfEarlier(rest, rest[n - 2], at, window);
    }
  }

  // The last crash of the history is restarted automatically (the auto-restart switch being on).
  predicate Restarted(crashes: seq<int>, p: Policy) {
    crashes != [] && |Stored(crashes, p.window)| < p.limit
  }

  // How many crashes of the history, after `from` and at most `to`, were restarted.
  function RestartsBetween(crashes: seq<int>, p: Policy, from: int, to: int): nat {
    if crashes == [] then 0
    else
      RestartsBetween(crashes[..|crashes| - 1], p, from, to)
      + (if from < crashes[|crashes| - 1] <= to && Restarted(crashes, p) then 1 else 0)
  }

  lemma {:induction false} RestartsAreCrashes(crashes: seq<int>, p: Policy, from: int, to: int)
    ensures RestartsBetween(crashes, p, from, to) <= |InWindow(crashes, to, to - from)|
  {
    if crashes != [] {
      RestartsAreCrashes(crashes[..|crashes| - 1], p, from, to);
    }
  }

  lemma {:induction false} NarrowerIsFewer(crashes: seq<int>, to: int, window: int, at: int, wider: int)
    requires at - wider <= to - window
    ensures |InWindow(crashes, to, window)| <= |InWindow(crashes, at, wider)|
  {
    if crashes != [] {
      NarrowerIsFewer(crashes[..|crashes| - 1], to, window, at, wider);
    }
  }

  // The bound: every span of one window holds fewer than Limit automatic restarts.
  lemma {:induction false} RestartsAreBounded(crashes: seq<int>, policy: Policy, from: int)
    requires Ordered(crashes)
    ensures
      var p := policy.OrDefault();
      RestartsBetween(crashes, p, from, from + p.window) < p.limit
  {
    var p := policy.OrDefault();
    if crashes != [] {
      var rest, at := crashes[..|crashes| - 1], crashes[|crashes| - 1];
      if from < at <= from + p.window && Restarted(crashes, p) {
        RestartsAreCrashes(crashes, p, from, from + p.window);
        NarrowerIsFewer(crashes, from + p.window, p.window, at, p.window);
        StoredIsTheHistoryInTheWindow(crashes, p.window);
      } else {
        RestartsAreBounded(rest, policy, from);
      }
    }
  }

  // There was a crash at this time, and it was restarted.
  ghost predicate RestartedAt(crashes: seq<int>, p: Policy, t: int) {
    exists k :: 0 < k <= |crashes| && crashes[k - 1] == t && Restarted(crashes[..k], p)
  }

  lemma RestartedAtOneMore(crashes: seq<int>, p: Policy, t: int)
    requires crashes != []
    ensures RestartedAt(crashes, p, t) <==>
            RestartedAt(crashes[..|crashes| - 1], p, t) || (crashes[|crashes| - 1] == t && Restarted(crashes, p))
  {
    var n, rest := |crashes|, crashes[..|crashes| - 1];
    forall k | 0 < k <= |rest| ensures rest[..k] == crashes[..k] && rest[k - 1] == crashes[k - 1] {
    }
    assert crashes[..n] == crashes;
    if k :| 0 < k <= |rest| && rest[k - 1] == t && Restarted(rest[..k], p) {
      assert crashes[k - 1] == t && Restarted(crashes[..k], p);
    }
  }

  // Closing a span adds its first instant, at which there is one crash at most.
  lemma {:induction false} ClosedSpanAddsOne(crashes: seq<int>, p: Policy, from: int, to: int)
    requires Ordered(crashes) && from <= to
    ensures RestartsBetween(crashes, p, from - 1, to) == RestartsBetween(crashes, p, from, to) +
              if RestartedAt(crashes, p, from) then 1 else 0
    ensures RestartedAt(crashes, p, from) ==> from in crashes
  {
    if crashes != [] {
      var rest, last := crashes[..|crashes| - 1], crashes[|crashes| - 1];
      ClosedSpanAddsOne(rest, p, from, to);
      RestartedAtOneMore(crashes, p, from);
      if last == from {
        assert forall k :: 0 <= k < |rest| ==> rest[k] + SECOND <= last;
        assert from !in rest;
      }
    }
  }

  // A closed span of one window holds Limit automatic restarts at most, and that many only if the crash at
  // its first instant was restarted.
  lemma ClosedSpansHoldTheLimit(crashes: seq<int>, policy: Policy, from: int)
    requires Ordered(crashes)
    ensures
      var p := policy.OrDefault();
      var n := RestartsBetween(crashes, p, from - 1, from + p.window);
      n <= p.limit && (n == p.limit ==> RestartedAt(crashes, p, from))
  {
    var p := policy.OrDefault();
    RestartsAreBounded(crashes, policy, from);
    ClosedSpanAddsOne(crashes, p, from, from + p.window);
  }

  lemma {:induction false} InWindowIsFewer(crashes: seq<int>, at: int, window: int)
    ensures |InWindow(crashes, at, window)| <= |crashes|
    ensures crashes != [] && crashes[0] + window <= at ==> |InWindow(crashes, at, window)| < |crashes|
  {
    if crashes != [] {
      InWindowIsFewer(crashes[..|crashes| - 1], at, window);
      if |crashes| == 1 {
        assert crashes[..0] == [];
      }
    }
  }

  // Crashes second by second, and one exactly a window after the first.
  function Busy(p: Policy): (crashes: seq<int>)
    requires p.limit >= 2
    ensures |crashes| == p.limit
    ensures forall k :: 0 <= k < p.limit ==> crashes[k] == if k < p.limit - 1 then k * SECOND else p.window
  {
    seq(p.limit, k => if k < p.limit - 1 then k * SECOND else p.window)
  }

  lemma BusyIsOrdered(p: Policy)
    requires p.limit >= 2 && p.window >= (p.limit - 1) * SECOND
    ensures Ordered(Busy(p))
  {
  }

  lemma {:induction false} BusyIsRestarted(p: Policy, k: nat)
    requires p.limit >= 2 && p.window >= (p.limit - 1) * SECOND && k <= p.limit
    ensures RestartsBetween(Busy(p)[..k], p, -1, p.window) == k
  {
    if k > 0 {
      var crashes := Busy(p)[..k];
      assert crashes[..k - 1] == Busy(p)[..k - 1];
      BusyIsRestarted(p, k - 1);
      BusyIsOrdered(p);
      StoredIsTheHistoryInTheWindow(crashes, p.window);
      InWindowIsFewer(crashes, crashes[k - 1], p.window);
    }
  }

  // It does hold that many, for every limit that allows a restart at all and every window with room.
  lemma ClosedSpanCanReachTheLimit(p: Policy)
    requires p.limit >= 2 && p.window >= (p.limit - 1) * SECOND
    ensures Ordered(Busy(p)) && RestartsBetween(Busy(p), p, -1, p.window) == p.limit
  {
    BusyIsOrdered(p);
    BusyIsRestarted(p, p.limit);
    assert Busy(p)[..p.limit] == Busy(p);
  }

  // The decision of the code is the one the history calls for.
  lemma DecisionFollowsTheHistory(crashes: seq<int>, term: Termination, policy: Policy)
    requires term.exitCode != 0 || IsOOMKilled(term)
    ensures
      var p := policy.OrDefault();
      var d := Decide(term, true, Stored(crashes, p.window), policy);
      && d.recent == Stored(crashes + [term.finishedAt], p.window)
      && (d.action.Restart? <==> Restarted(crashes + [term.finishedAt], p))
  {
    assert (crashes + [term.finishedAt])[..|crashes|] == crashes;
  }
}
