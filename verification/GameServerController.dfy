/**
 The game server controller around the Pod: create it, delete it for a stop or a restart, handle a
 crash, and keep the crash window. Every API call may fail, may take effect although its answer is
 lost, and lets users and the kubelet act first. Reads lag but never go back. What else a reconcile
 depends on comes in as its answers. In a quiet cluster nobody interferes and no call fails.

 The methods follow the controller branch by branch and are shown to take only steps of
 GameServerProtocol, whose lemmas then apply.
 */
module GameServerController {
  import opened Clock
  import opened Wrappers

  import opened Crash
  import opened GameServerProtocol

  // The controller's copy of the GameServer, edited in place and then written.
  class GameServerObject {
    var version: nat
    var obj: GameServer

    constructor (version: nat, obj: GameServer)
      ensures this.version == version && this.obj == obj
    {
      this.version := version;
      this.obj := obj;
    }
  }

  ghost predicate StatusWrite(w: World, g: GameServer, b: GameServer)
    requires Shape(w)
  {
    || b == g
    || (!Wanted(g) && b == g.(recentCrashes := []))
    || (&& w.pods[w.podSeen].Some? && w.pods[w.podSeen].value.term.Some?
        && IsCrash(w.pods[w.podSeen].value.term.value)
        && b == AfterCrash(g, w.pods[w.podSeen].value.term.value, w.policy))
  }

  // The state once this status is written over the last version.
  function Written(w: World, b: GameServer): World
    requires Shape(w)
  {
    var g, past := LastGs(w), LastPast(w);
    var next :=
      if b == g then past
      else if !Wanted(g) && b == g.(recentCrashes := []) then Past(past.epoch + 1, [])
      else if w.pods[w.podSeen].Some? && w.pods[w.podSeen].value.term.Some? then
        past.(crashes := AddCrash(past.crashes, w.pods[w.podSeen].value.term.value.finishedAt))
      else past;
    w.(gs := w.gs + [b], past := w.past + [next])
  }

  lemma WritingIsAStep(w: World, b: GameServer)
    requires Shape(w) && StatusWrite(w, LastGs(w), b)
    ensures Shape(Written(w, b)) && Step(w, Written(w, b))
  {
    var g := LastGs(w);
    if b == g {
      assert OtherWrite(w, Written(w, b));
    } else if !Wanted(g) && b == g.(recentCrashes := []) {
      assert ClearCrashes(w, Written(w, b));
    } else {
      assert RecordCrash(w, Written(w, b));
    }
  }

  datatype Answer = Done | NotFound | Failed

  // There is no Pod, or it is on its way out.
  predicate PodIsGoing(w: World)
    requires Shape(w)
  {
    Current(w).None? || Current(w).value.deleting
  }

  // From this time on the Pod that was read may be deleted for this crash.
  ghost predicate JustifiedFrom(w: World, at: int, version: nat, from: int)
    requires Shape(w)
  {
    forall now {:trigger CrashRestart(at, now)} :: from <= now ==> Justified(w, CrashRestart(at, now), version)
  }

  // The crash is on record, with the window that deciding on it left.
  ghost predicate OnRecord(w: World, version: nat, term: Termination, recent: seq<int>)
    requires Shape(w)
  {
    && version < |w.gs| && IsCrash(term)
    && w.pods[w.podSeen].Some? && !w.pods[w.podSeen].value.deleting && w.pods[w.podSeen].value.term == Some(term)
    && w.gs[version].lastCrash == Some(term.finishedAt)
    && w.gs[version].recentCrashes == Decide(term, w.gs[version].autoRestart, recent, w.policy).recent
  }

  // Then deciding again comes to the same restart.
  lemma RestartIsJustified(w: World, version: nat, term: Termination, recent: seq<int>, now: int)
    requires Shape(w) && OnRecord(w, version, term, recent)
    requires
      var d := Decide(term, w.gs[version].autoRestart, recent, w.policy);
      d.action.Restart? && d.action.restartAt <= now
    ensures Justified(w, CrashRestart(term.finishedAt, now), version)
  {
    DecidingTwiceIsDecidingOnce(term, w.gs[version].autoRestart, recent, w.policy);
  }

  lemma RestartIsJustifiedFrom(w: World, version: nat, term: Termination, recent: seq<int>)
    requires Shape(w) && OnRecord(w, version, term, recent)
    requires Decide(term, w.gs[version].autoRestart, recent, w.policy).action.Restart?
    ensures JustifiedFrom(w, term.finishedAt, version,
              Decide(term, w.gs[version].autoRestart, recent, w.policy).action.restartAt)
  {
    var from := Decide(term, w.gs[version].autoRestart, recent, w.policy).action.restartAt;
    forall now {:trigger CrashRestart(term.finishedAt, now)} | from <= now
      ensures Justified(w, CrashRestart(term.finishedAt, now), version)
    {
      RestartIsJustified(w, version, term, recent, now);
    }
  }

  // ---- what a reconcile makes of a server ------------------------------------------------------

  datatype Prepared = Ready | NotYet | PrepareFailed

  // What one reconcile gets to see besides the server and its Pod: how far it comes before the Pod is
  // looked at (finalizer, Secret, Egg, image, volume, Service, NetworkPolicy), whether a Pod can be built
  // and the crash log saved, which conditions are out of date, the clock, and when the observed phase
  // asks to be looked at again.
  datatype Answers = Answers(
    prepared: Prepared, built: bool, saved: bool, conditionChanges: bool, observedChanges: bool, now: int, requeue: nat)

  // A termination counts as the game's own doing only while nothing else takes the Pod down.
  function CrashedPod(g: GameServer, pod: Option<Pod>): (t: Option<Termination>)
    ensures t.Some? <==>
              pod.Some? && !pod.value.deleting && Wanted(g) && !RestartRequested(g, pod.value) && pod.value.term.Some?
  {
    if pod.None? || pod.value.deleting || !g.running || g.suspended || RestartRequested(g, pod.value) then None
    else pod.value.term
  }

  function DecisionOn(g: GameServer, term: Termination, policy: Policy): Decision {
    Decide(term, g.autoRestart, g.recentCrashes, policy)
  }

  // The server with the crash on record, and stopped when the decision is to give up.
  function CarriedOut(g: GameServer, term: Termination, d: Decision): GameServer {
    g.(lastCrash := Some(term.finishedAt), recentCrashes := d.recent, running := g.running && !d.action.GiveUp?)
  }

  // Nothing without a crash; a clean exit stops the server; otherwise the crash goes on record, and the
  // decision is carried out.
  function AfterExit(g: GameServer, pod: Option<Pod>, policy: Policy): GameServer {
    var t := CrashedPod(g, pod);
    if t.None? then g
    else
      var d := DecisionOn(g, t.value, policy);
      if d.action.CleanExit? then g.(running := false) else CarriedOut(g, t.value, d)
  }

  // A stopped server starts a fresh crash count.
  function WithFreshCount(g: GameServer): GameServer {
    if Wanted(g) then g else g.(recentCrashes := [])
  }

  // How long the Pod of a crashed server is still left alone.
  function CrashWait(g: GameServer, pod: Option<Pod>, policy: Policy, now: int): (wait: nat) {
    var t := CrashedPod(g, pod);
    if t.None? then 0
    else
      match DecisionOn(g, t.value, policy).action
      case Restart(at) => if at > now then at - now else 0
      case _ => 0
  }

  // The earlier of the two, none being 0.
  function Requeue(observed: nat, wait: nat): nat {
    if wait > 0 && (observed == 0 || wait < observed) then wait else observed
  }

  predicate MustGo(g: GameServer, pod: Option<Pod>) {
    pod.Some? && !pod.value.deleting && (!Wanted(g) || RestartRequested(g, pod.value))
  }

  predicate NeedsPod(g: GameServer, pod: Option<Pod>) {
    pod.None? && Wanted(g)
  }

  // The crash is a new one, whose console has to be kept first.
  predicate SavesLog(g: GameServer, term: Termination) {
    g.lastCrash.None? || Unix(g.lastCrash.value) != Unix(term.finishedAt)
  }

  predicate CrashFails(g: GameServer, pod: Option<Pod>, policy: Policy, a: Answers) {
    var t := CrashedPod(g, pod);
    t.Some? && !DecisionOn(g, t.value, policy).action.CleanExit? && SavesLog(g, t.value) && !a.saved
  }

  ghost predicate Makes(g: GameServer, pod: Option<Pod>, w: World, w': World) {
    && w.created <= w'.created
    && if NeedsPod(g, pod) then |w'.created| == |w.created| + 1 && w'.created[|w.created|].version == w'.gsSeen
       else w'.created == w.created
  }

  // A Pod is made for a server that needs one, and the one that is there goes for a stop or a restart.
  ghost predicate PodActs(g: GameServer, pod: Option<Pod>, w: World, w': World)
    requires Shape(w')
  {
    && Makes(g, pod, w, w')
    && if MustGo(g, pod) then PodIsGoing(w') else w'.deleted == w.deleted
  }

  predicate EndedForGood(g: GameServer, pod: Option<Pod>, policy: Policy, now: int) {
    CrashedPod(g, pod).Some? && CrashWait(g, pod, policy, now) == 0
  }

  // The Pod whose game ended goes once any delay is over.
  ghost predicate ExitActs(g: GameServer, pod: Option<Pod>, now: int, w: World, w': World)
    requires Shape(w) && Shape(w')
  {
    && w'.created == w.created && w'.gsSeen == w.gsSeen && w'.podSeen == w.podSeen && w'.policy == w.policy
    && w.gs <= w'.gs && w.pods <= w'.pods && (CrashedPod(g, pod).None? && PodIsGoing(w) ==> PodIsGoing(w'))
    && if EndedForGood(g, pod, w.policy, now) then PodIsGoing(w') else w'.deleted == w.deleted
  }

  // What a reconcile makes and deletes; otherwise it leaves Pods alone.
  ghost predicate Acts(g: GameServer, pod: Option<Pod>, now: int, w: World, w': World)
    requires Shape(w')
  {
    && Makes(g, pod, w, w')
    && if MustGo(g, pod) || EndedForGood(g, pod, w'.policy, now) then PodIsGoing(w') else w'.deleted == w.deleted
  }

  lemma ActsTogether(g: GameServer, seen: Option<Pod>, pod: Option<Pod>, now: int, w: World, between: World, w': World)
    requires Shape(between) && Shape(w') && PodActs(g, seen, w, between) && ExitActs(g, pod, now, between, w')
    requires CrashedPod(g, pod) == CrashedPod(g, seen)
    ensures Acts(g, seen, now, w, w')
  {
  }

  // What it leaves, and when it comes back.
  predicate Ends(g: GameServer, pod: Option<Pod>, policy: Policy, a: Answers, left: GameServer, requeueAfter: nat) {
    && left == WithFreshCount(AfterExit(g, pod, policy))
    && requeueAfter == Requeue(a.requeue, CrashWait(g, pod, policy, a.now))
  }

  // What that comes to for a Pod whose game ended on its own. After a clean exit, or when the controller gives
  // up, the server is left stopped with a fresh count and the Pod is on its way out. Otherwise the Pod goes as
  // well, or the restart is not due yet and the next reconcile comes by then.
  lemma EndedGamesAreHandled(g: GameServer, pod: Option<Pod>, a: Answers, left: GameServer, requeueAfter: nat, w: World,
                             w': World)
    requires Shape(w') && CrashedPod(g, pod).Some?
    requires Ends(g, pod, w'.policy, a, left, requeueAfter) && Acts(g, pod, a.now, w, w')
    ensures
      var term := CrashedPod(g, pod).value;
      match DecisionOn(g, term, w'.policy).action
      case CleanExit => !left.running && left.recentCrashes == [] && PodIsGoing(w') && left.lastCrash == g.lastCrash
      case GiveUp(_) => !left.running && left.recentCrashes == [] && PodIsGoing(w')
          && left.lastCrash == Some(term.finishedAt)
      case Restart(at) =>
        && Wanted(left) && left.lastCrash == Some(term.finishedAt)
        && if a.now < at then w'.deleted == w.deleted && 0 < requeueAfter && a.now + requeueAfter <= at
            else PodIsGoing(w')
  {
  }

  // What it cannot do even when left alone.
  predicate CannotGoOn(g: GameServer, pod: Option<Pod>, policy: Policy, a: Answers) {
    (NeedsPod(g, pod) && !a.built) || CrashFails(g, pod, policy, a)
  }

  // A version of the server has this crash as its last one, and with it the window that the history of
  // crashes since the last stop calls for.
  ghost predicate HasCrash(w: World, version: nat, term: Termination, recent: seq<int>)
    requires Shape(w)
  {
    && version < |w.gs| && w.gs[version].lastCrash == Some(term.finishedAt) && w.gs[version].recentCrashes == recent
    && var crashes := w.past[version].crashes;
    && crashes != [] && crashes[|crashes| - 1] == term.finishedAt
    && recent == InWindow(crashes, term.finishedAt, w.policy.window)
  }

  // Unless the game ended with a clean exit, or did not end, this version has the crash that was seen.
  ghost predicate Records(w: World, g: GameServer, pod: Option<Pod>, version: nat) {
    var t := CrashedPod(g, pod);
    t.Some? && DecisionOn(g, t.value, w.policy).action != CleanExit ==>
      && version < |w.gs| && w.gs[version].lastCrash == Some(t.value.finishedAt)
      && w.gs[version].recentCrashes == DecisionOn(g, t.value, w.policy).recent
  }

  ghost predicate RecordsWithHistory(w: World, g: GameServer, pod: Option<Pod>)
    requires Shape(w)
  {
    var t := CrashedPod(g, pod);
    t.Some? && DecisionOn(g, t.value, w.policy).action != CleanExit ==>
      exists version :: HasCrash(w, version, t.value, DecisionOn(g, t.value, w.policy).recent)
  }

  lemma RecordedCrashHasHistory(run: seq<World>, g: GameServer, pod: Option<Pod>, version: nat)
    requires IsRun(run) && Records(run[|run| - 1], g, pod, version)
    ensures RecordsWithHistory(run[|run| - 1], g, pod)
  {
    var w, t := run[|run| - 1], CrashedPod(g, pod);
    if t.Some? && DecisionOn(g, t.value, w.policy).action != CleanExit {
      RunKeepsInv(run, |run| - 1);
      assert PastFits(w.gs[version], w.past[version], w.policy.window);
      StoredWindowIsTheHistory(run, |run| - 1, version);
      assert HasCrash(w, version, t.value, DecisionOn(g, t.value, w.policy).recent);
    }
  }

  // ---- the API server --------------------------------------------------------------------------

  class Cluster {
    const quiet: bool // nobody else acts, and no call fails
    var w: World
    ghost var run: seq<World>

    ghost predicate Valid()
      reads this
    {
      IsRun(run) && run[|run| - 1] == w
    }

    ghost predicate Holds(gs: GameServerObject)
      reads this, gs
    {
      gs.version < |w.gs| && w.gs[gs.version] == gs.obj
    }

    // The controller's view did not move, and what it rests on is still there.
    twostate predicate Kept()
      reads this
    {
      && w.policy == old(w.policy) && w.gsSeen == old(w.gsSeen) && w.podSeen == old(w.podSeen)
      && old(w.gs) <= w.gs && old(w.pods) <= w.pods && old(w.deleted) <= w.deleted && old(w.created) <= w.created
      && old(run) <= run
    }

    // The copy is the last version, the Pod was seen as it is, and writes will get through.
    ghost predicate Calm(gs: GameServerObject)
      reads this, gs
    {
      quiet && Holds(gs) && gs.version == |w.gs| - 1
    }

    constructor (policy: Policy, spec: GameServer, quiet: bool)
      requires spec.recentCrashes == [] && spec.lastCrash.None?
      ensures Valid() && w.policy == policy.OrDefault() && this.quiet == quiet
    {
      this.quiet := quiet;
      w := World(policy.OrDefault(), [spec], [Past(0, [])], 0, [None], 0, [], [], []);
      run := [w];
    }

    // Whether a call that may fail does.
    method Fails() returns (fails: bool)
      ensures quiet ==> !fails
    {
      fails := *;
      fails := fails && !quiet;
    }

    method Take(next: World)
      requires Valid() && Shape(next) && Step(w, next)
      modifies this
      ensures Valid() && w == next && old(run) <= run
    {
      w := next;
      run := run + [next];
    }

    // A Pod that was marked is gone, or somebody else deletes it.
    method OtherDeletion()
      requires Valid() && Current(w).Some?
      modifies this
      ensures Valid() && Kept() && w.deleted == old(w.deleted) && w.created == old(w.created)
      ensures PodIsGoing(w)
    {
      var gone: bool := *;
      var next := if gone then w.(pods := w.pods + [None])
          else w.(pods := w.pods + [Some(Current(w).value.(deleting := true))]);
      assert Evict(w, next);
      Take(next);
    }

    method UserEdits()
      requires Valid()
      modifies this
      ensures Valid() && Kept() && w.deleted == old(w.deleted) && w.created == old(w.created)
      ensures old(PodIsGoing(w)) ==> PodIsGoing(w)
    {
      var g: GameServer := *;
      g := g.(recentCrashes := LastGs(w).recentCrashes, lastCrash := LastGs(w).lastCrash);
      if g.restartAt != LastGs(w).restartAt && !Fresh(w, g.restartAt) {
        g := g.(restartAt := "");
      }
      assert UserEdit(w, w.(gs := w.gs + [g], past := w.past + [LastPast(w)]), g);
      Take(w.(gs := w.gs + [g], past := w.past + [LastPast(w)]));
    }

    method GameEnds()
      requires Valid()
      modifies this
      ensures Valid() && Kept() && w.deleted == old(w.deleted) && w.created == old(w.created)
      ensures old(PodIsGoing(w)) ==> PodIsGoing(w)
    {
      var t: Termination := *;
      if Current(w).Some? && Current(w).value.term.None?
          && (w.exits != [] ==> w.exits[|w.exits| - 1] + SECOND <= t.finishedAt) {
        ghost var next := w.(pods := w.pods + [Some(Current(w).value.(term := Some(t)))],
                               exits := w.exits + [t.finishedAt]);
        assert GameExit(w, next, t);
        Take(w.(pods := w.pods + [Some(Current(w).value.(term := Some(t)))], exits := w.exits + [t.finishedAt]));
      }
    }

    // Users, the kubelet and others who delete Pods, any number of times.
    method Others()
      requires Valid()
      modifies this
      ensures Valid() && Kept() && w.deleted == old(w.deleted) && w.created == old(w.created)
      ensures (quiet ==> w == old(w)) && (old(PodIsGoing(w)) ==> PodIsGoing(w))
    {
      var steps: nat := *;
      while steps > 0 && !quiet
        invariant Valid() && Kept() && w.deleted == old(w.deleted) && w.created == old(w.created)
        invariant (quiet ==> w == old(w)) && (old(PodIsGoing(w)) ==> PodIsGoing(w))
      {
        var who: int := *;
        if who == 0 {
          UserEdits();
        } else if who == 1 {
          GameEnds();
        } else if Current(w).Some? {
          OtherDeletion();
        }
        steps := steps - 1;
      }
    }

    // A cached read: as old as the last one at most.
    method GetGameServer() returns (gs: GameServerObject?, err: bool)
      requires Valid()
      modifies this
      ensures Valid() && old(run) <= run && w.created == old(w.created) && w.deleted == old(w.deleted)
      ensures w.policy == old(w.policy)
      ensures gs != null ==> fresh(gs) && Holds(gs) && gs.version == w.gsSeen
      ensures quiet ==> gs != null && Calm(gs) && w == old(w).(gsSeen := |old(w.gs)| - 1)
    {
      Others();
      err := Fails();
      var found: bool := *;
      var version: int := *;
      if quiet {
        found, version := true, |w.gs| - 1;
      }
      if err || !found || version < w.gsSeen || version >= |w.gs| {
        return null, err;
      }
      Take(w.(gsSeen := version));
      gs := new GameServerObject(version, w.gs[version]);
    }

    method GetPod() returns (pod: Option<Pod>, err: bool)
      requires Valid()
      modifies this
      ensures Valid() && w.gsSeen == old(w.gsSeen) && old(w.gs) <= w.gs && w.policy == old(w.policy) && old(run) <= run
      ensures w.deleted == old(w.deleted) && w.created == old(w.created)
      ensures !err ==> pod == w.pods[w.podSeen]
      ensures quiet ==> !err && w == old(w).(podSeen := |old(w.pods)| - 1)
    {
      Others();
      var state: int := *;
      err := Fails();
      if quiet {
        state := |w.pods| - 1;
      }
      if err || state < w.podSeen || state >= |w.pods| {
        return None, true;
      }
      Take(w.(podSeen := state));
      pod := w.pods[state];
    }

    method CreatePod() returns (pod: Option<Pod>)
      requires Valid() && w.pods[w.podSeen].None? && Wanted(w.gs[w.gsSeen])
      modifies this
      ensures Valid() && Kept() && w.deleted == old(w.deleted)
      ensures pod.Some? ==> |w.created| == |old(w.created)| + 1 && w.created[|old(w.created)|].version == w.gsSeen
      ensures pod.Some? ==> pod.value.term.None? && !pod.value.deleting && pod.value.stamp == w.gs[w.gsSeen].restartAt
      ensures quiet && old(Current(w)).None? ==> pod.Some? && w.gs == old(w.gs)
    {
      Others();
      var lost := Fails();
      if lost || Current(w).Some? {
        return None;
      }
      var p := Pod(|w.created|, w.gs[w.gsSeen].restartAt, false, None);
      Take(w.(pods := w.pods + [Some(p)], created := w.created + [Creation(w.gsSeen, |w.pods|)]));
      var unanswered := Fails();
      return if unanswered then None else Some(p);
    }

    // By name: it hits whatever Pod is there.
    method DeletePod(cause: Cause, version: nat) returns (answer: Answer)
      requires Valid() && Justified(w, cause, version)
      modifies this
      ensures Valid() && Kept() && w.created == old(w.created)
      ensures answer != Failed ==> PodIsGoing(w)
      ensures quiet ==> answer != Failed && w.gs == old(w.gs)
      ensures forall k :: |old(w.deleted)| <= k < |w.deleted| ==>
                w.deleted[k].cause == cause && w.deleted[k].version == version
    {
      Others();
      var lost := Fails();
      if lost {
        return Failed;
      }
      if Current(w).None? {
        return NotFound;
      }
      if !Current(w).value.deleting {
        var d := Deletion(Current(w).value.uid, w.pods[w.podSeen].value.uid, cause, version);
        var next := w.(pods := w.pods + [Some(Current(w).value.(deleting := true))], deleted := w.deleted + [d]);
        assert GameServerProtocol.DeletePod(w, next, d);
        Take(next);
      }
      var unanswered := Fails();
      answer := if unanswered then Failed else Done;
    }

    method UpdateStatus(gs: GameServerObject) returns (ok: bool)
      requires Valid() && gs.version < |w.gs|
      requires StatusWrite(w, w.gs[gs.version], gs.obj)
      modifies this, gs
      ensures Valid() && Kept() && gs.obj == old(gs.obj)
      ensures w.deleted == old(w.deleted) && w.created == old(w.created) && (old(PodIsGoing(w)) ==> PodIsGoing(w))
      ensures ok ==> Holds(gs)
      ensures quiet && old(gs.version == |w.gs| - 1) ==> ok && Calm(gs)
    {
      Others();
      var lost := Fails();
      if lost || gs.version != |w.gs| - 1 {
        return false;
      }
      WritingIsAStep(w, gs.obj);
      Take(Written(w, gs.obj));
      var unanswered := Fails();
      ok := !unanswered;
      if ok {
        gs.version := |w.gs| - 1;
      }
    }

    // spec.state goes to Stopped.
    method UpdateStopped(gs: GameServerObject) returns (ok: bool)
      requires Valid() && gs.version < |w.gs| && gs.obj == w.gs[gs.version].(running := false)
      modifies this, gs
      ensures Valid() && Kept() && gs.obj == old(gs.obj)
      ensures w.deleted == old(w.deleted) && w.created == old(w.created) && (old(PodIsGoing(w)) ==> PodIsGoing(w))
      ensures ok ==> Holds(gs)
      ensures quiet && old(gs.version == |w.gs| - 1) ==> ok && Calm(gs)
    {
      Others();
      var lost := Fails();
      if lost || gs.version != |w.gs| - 1 {
        return false;
      }
      Take(w.(gs := w.gs + [gs.obj], past := w.past + [LastPast(w)]));
      var unanswered := Fails();
      ok := !unanswered;
      if ok {
        gs.version := |w.gs| - 1;
      }
    }
  }

  class GameServerReconciler {
    const api: Cluster

    constructor (api: Cluster)
      ensures this.api == api
    {
      this.api := api;
    }

    // A Pod is made exactly when there is none and the server should run; the Pod that is there is
    // deleted exactly when the server should not run or a restart is asked for.
    method ReconcilePod(gs: GameServerObject, a: Answers) returns (pod: Option<Pod>, err: bool, ghost seen: Option<Pod>)
      requires api.Valid() && api.Holds(gs) && gs.version == api.w.gsSeen
      modifies api
      ensures api.Valid() && api.Holds(gs) && api.w.policy == old(api.w.policy) && old(api.run) <= api.run
      ensures api.w.gsSeen == gs.version && (!err ==> seen == api.w.pods[api.w.podSeen])
      ensures !err && pod.Some? && pod.value.term.Some? ==> api.w.pods[api.w.podSeen] == pod
      ensures !err ==>
                if MustGo(gs.obj, seen) then pod == seen || pod.None?
                else if NeedsPod(gs.obj, seen) then
                  pod.Some? && pod.value.stamp == gs.obj.restartAt && !pod.value.deleting && pod.value.term.None?
                else pod == seen
      ensures !err ==> PodActs(gs.obj, seen, old(api.w), api.w) && CrashedPod(gs.obj, pod) == CrashedPod(gs.obj, seen)
      ensures !err && NeedsPod(gs.obj, seen) ==> a.built
      ensures old(api.Calm(gs)) ==>
                && seen == old(Current(api.w)) && (NeedsPod(gs.obj, seen) && !a.built <==> err)
                && api.Calm(gs)
    {
      pod, err := api.GetPod();
      seen := pod;
      if err {
        return;
      }
      if !gs.obj.running || gs.obj.suspended {
        if pod.Some? && !pod.value.deleting {
          var answer := api.DeletePod(Stopped, gs.version);
          if answer != Done {
            return None, answer == Failed, seen;
          }
        }
        return;
      }
      if pod.Some? {
        if !pod.value.deleting && RestartRequested(gs.obj, pod.value) {
          var answer := api.DeletePod(RestartAsked(gs.obj.restartAt), gs.version);
          if answer != Done {
            return None, answer == Failed, seen;
          }
        }
        return;
      }
      if !a.built {
        return None, true, seen;
      }
      pod := api.CreatePod();
      err := pod.None?;
    }

    method StopAfterExit(gs: GameServerObject) returns (err: bool)
      requires api.Valid() && api.Holds(gs)
      requires api.w.pods[api.w.podSeen].Some? && !api.w.pods[api.w.podSeen].value.deleting
      modifies api, gs
      ensures api.Valid() && api.Kept() && gs.obj == old(gs.obj).(running := false)
      ensures api.w.created == old(api.w.created)
      ensures !err ==> api.Holds(gs) && PodIsGoing(api.w)
      ensures old(api.Calm(gs)) ==> !err && api.Calm(gs)
    {
      gs.obj := gs.obj.(running := false);
      var ok := api.UpdateStopped(gs);
      if !ok {
        return true;
      }
      var answer := api.DeletePod(Stopped, gs.version);
      err := answer == Failed;
    }

    // The crash goes on record first, whatever is then done about it.
    method RecordCrash(gs: GameServerObject, term: Termination, d: Decision, a: Answers) returns (err: bool)
      requires api.Valid() && api.Holds(gs)
      requires api.w.pods[api.w.podSeen].Some? && api.w.pods[api.w.podSeen].value.term == Some(term)
      requires d == DecisionOn(gs.obj, term, api.w.policy) && d.action != CleanExit
      modifies api, gs
      ensures api.Valid() && api.Kept() && api.w.deleted == old(api.w.deleted) && api.w.created == old(api.w.created)
      ensures !err ==>
                api.Holds(gs) && gs.obj == old(gs.obj).(lastCrash := Some(term.finishedAt), recentCrashes := d.recent)
      ensures SavesLog(old(gs.obj), term) && !a.saved ==> err
      ensures old(api.Calm(gs)) && !(SavesLog(old(gs.obj), term) && !a.saved) ==> !err && api.Calm(gs)
    {
      if gs.obj.lastCrash.None? || Unix(gs.obj.lastCrash.value) != Unix(term.finishedAt) {
        if !a.saved { // the crash log
          return true;
        }
      }
      var before := gs.obj;
      gs.obj := gs.obj.(lastCrash := Some(term.finishedAt), recentCrashes := d.recent);
      if gs.obj != before || (d.action.GiveUp? && a.conditionChanges) {
        var ok := api.UpdateStatus(gs);
        return !ok;
      }
      err := false;
    }

    // What is done about a crash when no API call fails. `recorded` is the version in which it was put on
    // record.
    method ReconcileCrash(gs: GameServerObject, pod: Option<Pod>, a: Answers)
      returns (wait: nat, err: bool, ghost recorded: nat)
      requires api.Valid() && api.Holds(gs)
      requires pod.Some? && pod.value.term.Some? ==> api.w.pods[api.w.podSeen] == pod
      modifies api, gs
      ensures api.Valid() && api.Kept() && api.w.created == old(api.w.created)
      ensures !err ==>
                && api.Holds(gs) && gs.obj == AfterExit(old(gs.obj), pod, old(api.w.policy))
                && wait == CrashWait(old(gs.obj), pod, old(api.w.policy), a.now)
                && if CrashedPod(old(gs.obj), pod).Some? && wait == 0 then PodIsGoing(api.w)
                   else api.w.deleted == old(api.w.deleted)
      ensures CrashedPod(old(gs.obj), pod).None? ==> api.w == old(api.w) && !err
      ensures !err ==> Records(api.w, old(gs.obj), pod, recorded)
      ensures CrashFails(old(gs.obj), pod, old(api.w.policy), a) ==> err
      ensures old(api.Calm(gs)) && !CrashFails(old(gs.obj), pod, old(api.w.policy), a) ==> !err && api.Calm(gs)
    {
      wait, err, recorded := 0, false, 0;
      var crashed := CrashedPod(gs.obj, pod);
      if crashed.None? {
        return;
      }
      var term := crashed.value;
      var d := DecideCrash(term, gs.obj.autoRestart, gs.obj.recentCrashes, api.w.policy);
      if d.action == CleanExit {
        err := StopAfterExit(gs);
        return;
      }
      wait, err, recorded := CarryOut(gs, term, d, a);
    }

    // The crash is on record: its Pod goes once the delay is over.
    method RestartWhenDue(gs: GameServerObject, at: int, restartAt: int, a: Answers) returns (wait: nat, err: bool)
      requires api.Valid() && api.Holds(gs) && JustifiedFrom(api.w, at, gs.version, restartAt)
      modifies api
      ensures api.Valid() && api.Kept() && api.w.created == old(api.w.created) && api.Holds(gs)
      ensures wait == if restartAt > a.now then restartAt - a.now else 0
      ensures !err ==> if wait > 0 then api.w.deleted == old(api.w.deleted) else PodIsGoing(api.w)
      ensures old(api.Calm(gs)) ==> !err && api.Calm(gs)
    {
      if restartAt > a.now {
        return restartAt - a.now, false;
      }
      wait := 0;
      assert Justified(api.w, CrashRestart(at, a.now), gs.version);
      var answer := api.DeletePod(CrashRestart(at, a.now), gs.version);
      err := answer == Failed;
    }

    method CarryOut(gs: GameServerObject, term: Termination, d: Decision, a: Answers)
      returns (wait: nat, err: bool, ghost recorded: nat)
      requires api.Valid() && api.Holds(gs)
      requires api.w.pods[api.w.podSeen].Some? && !api.w.pods[api.w.podSeen].value.deleting
      requires api.w.pods[api.w.podSeen].value.term == Some(term)
      requires d == DecisionOn(gs.obj, term, api.w.policy) && d.action != CleanExit && IsCrash(term)
      modifies api, gs
      ensures api.Valid() && api.Kept() && api.w.created == old(api.w.created)
      ensures !err ==>
                && api.Holds(gs) && gs.obj == CarriedOut(old(gs.obj), term, d)
                && wait == (if d.action.Restart? && d.action.restartAt > a.now then d.action.restartAt - a.now else 0)
                && if wait > 0 then api.w.deleted == old(api.w.deleted) else PodIsGoing(api.w)
      ensures !err ==>
                && recorded < |api.w.gs| && api.w.gs[recorded].lastCrash == Some(term.finishedAt)
                && api.w.gs[recorded].recentCrashes == d.recent
      ensures SavesLog(old(gs.obj), term) && !a.saved ==> err
      ensures old(api.Calm(gs)) && !(SavesLog(old(gs.obj), term) && !a.saved) ==> !err && api.Calm(gs)
    {
      wait, recorded := 0, 0;
      ghost var recent := gs.obj.recentCrashes;
      err := RecordCrash(gs, term, d, a);
      if err {
        return;
      }
      recorded := gs.version;
      if d.action.GiveUp? {
        err := StopAfterExit(gs);
      } else {
        RestartIsJustifiedFrom(api.w, gs.version, term, recent);
        wait, err := RestartWhenDue(gs, term.finishedAt, d.action.restartAt, a);
      }
    }

    method UpdateStatus(gs: GameServerObject, a: Answers) returns (err: bool)
      requires api.Valid() && api.Holds(gs)
      modifies api, gs
      ensures api.Valid() && api.Kept() && api.w.created == old(api.w.created) && api.w.deleted == old(api.w.deleted)
      ensures old(PodIsGoing(api.w)) ==> PodIsGoing(api.w)
      ensures gs.obj == WithFreshCount(old(gs.obj)) && (!err ==> api.Holds(gs))
      ensures old(api.Calm(gs)) ==> !err && api.Calm(gs)
    {
      var changed := a.observedChanges; // the Ready, RestartRequired and Crashed conditions, the phase, the Pod's name
      if gs.obj.running && !gs.obj.suspended {
      } else if |gs.obj.recentCrashes| > 0 {
        gs.obj := gs.obj.(recentCrashes := []);
        changed := true;
      }
      if !changed {
        return false;
      }
      var ok := api.UpdateStatus(gs);
      err := !ok;
    }

    // The end of the game, and the status.
    method ReconcileExit(gs: GameServerObject, pod: Option<Pod>, a: Answers)
      returns (requeueAfter: nat, err: bool, ghost recorded: nat)
      requires api.Valid() && api.Holds(gs)
      requires pod.Some? && pod.value.term.Some? ==> api.w.pods[api.w.podSeen] == pod
      modifies api, gs
      ensures api.Valid() && old(api.run) <= api.run && api.Kept()
      ensures !err ==> ExitActs(old(gs.obj), pod, a.now, old(api.w), api.w)
      ensures !err ==> api.Holds(gs) && Ends(old(gs.obj), pod, api.w.policy, a, gs.obj, requeueAfter)
      ensures !err ==> Records(api.w, old(gs.obj), pod, recorded)
      ensures CrashFails(old(gs.obj), pod, api.w.policy, a) ==> err
      ensures old(api.Calm(gs)) && !CrashFails(old(gs.obj), pod, api.w.policy, a) ==> !err && api.Calm(gs)
    {
      requeueAfter := 0;
      var wait;
      wait, err, recorded := ReconcileCrash(gs, pod, a);
      if err {
        return;
      }
      err := UpdateStatus(gs, a);
      requeueAfter := if wait > 0 && (a.requeue == 0 || wait < a.requeue) then wait else a.requeue;
    }

    // From the Pod on.
    method ReconcileServer(gs: GameServerObject, a: Answers)
      returns (requeueAfter: nat, err: bool, ghost seen: Option<Pod>, ghost recorded: nat)
      requires api.Valid() && api.Holds(gs) && gs.version == api.w.gsSeen
      modifies api, gs
      ensures api.Valid() && old(api.run) <= api.run
      ensures old(gs.version) == api.w.gsSeen && api.w.gs[api.w.gsSeen] == old(gs.obj)
      ensures !err ==> seen == api.w.pods[api.w.podSeen] && Acts(old(gs.obj), seen, a.now, old(api.w), api.w)
      ensures !err ==> api.Holds(gs) && Ends(old(gs.obj), seen, api.w.policy, a, gs.obj, requeueAfter)
      ensures !err ==> Records(api.w, old(gs.obj), seen, recorded)
      ensures old(api.Calm(gs)) ==>
                && seen == old(Current(api.w))
                && (err <==> CannotGoOn(old(gs.obj), seen, api.w.policy, a))
                && (!err ==> api.Calm(gs))
    {
      requeueAfter, recorded := 0, 0;
      var pod: Option<Pod>;
      pod, err, seen := ReconcilePod(gs, a);
      if err {
        return;
      }
      ghost var between := api.w;
      requeueAfter, err, recorded := ReconcileExit(gs, pod, a);
      if !err {
        ActsTogether(old(gs.obj), seen, pod, a.now, old(api.w), between, api.w);
      }
    }

    // One reconcile from any state of the cluster, dying anywhere. `worked` tells that it came to the Pod;
    // `read` and `seen` are the server and the Pod it acted on, as its view has them. Unless it reports an
    // error, the Pod is made or goes as it should, what it leaves of the server is persisted, a crash is on
    // record with the window that the history calls for, and it comes back when the restart is due. Left
    // alone, it sees the last states and fails only when a Pod cannot be built or a crash log not be saved.
    method Reconcile(a: Answers)
      returns (requeueAfter: nat, err: bool, ghost worked: bool, ghost read: GameServer, ghost seen: Option<Pod>,
          ghost left: GameServer)
      requires api.Valid()
      modifies api
      ensures api.Valid() && old(api.run) <= api.run
      ensures !worked ==> api.w.created == old(api.w.created) && api.w.deleted == old(api.w.deleted)
      ensures worked && !err ==> read == api.w.gs[api.w.gsSeen] && seen == api.w.pods[api.w.podSeen]
      ensures worked && !err ==> Acts(read, seen, a.now, old(api.w), api.w) && RecordsWithHistory(api.w, read, seen)
      ensures worked && !err ==> left in api.w.gs && Ends(read, seen, api.w.policy, a, left, requeueAfter)
      ensures api.quiet ==>
                && (worked <==> a.prepared.Ready?)
                && (worked ==> read == LastGs(old(api.w)) && seen == old(Current(api.w)))
                && (worked ==> (err <==> CannotGoOn(read, seen, api.w.policy, a)))
                && (worked && !err ==> left == LastGs(api.w))
    {
      requeueAfter, worked, read, seen, left := 0, false, LastGs(api.w), None, LastGs(api.w);
      var gs;
      gs, err := api.GetGameServer();
      if gs == null || a.prepared.NotYet? {
        return;
      }
      if a.prepared.PrepareFailed? {
        err := true;
        return;
      }
      worked, read := true, gs.obj;
      ghost var recorded;
      requeueAfter, err, seen, recorded := ReconcileServer(gs, a);
      left := gs.obj;
      if !err {
        RecordedCrashHasHistory(api.run, read, seen, recorded);
      }
    }
  }
}
