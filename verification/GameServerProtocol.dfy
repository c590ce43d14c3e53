/**
 A game server and its Pod, as a protocol: the persisted versions of the GameServer, the states the
 Pod went through, and how far into both the controller's cache has advanced. The cache never goes
 back, but it may lag. Others may delete Pods too, at any time. A user who asks for a restart never
 reuses an earlier restart-at value.

 `past` is history, kept for the proofs: the crashes recorded since the server was last stopped.
 */
module GameServerProtocol {
  import opened Clock
  import opened Sets
  import opened Wrappers

  import opened Crash

  datatype GameServer = GameServer(
    running: bool, suspended: bool, restartAt: string, autoRestart: bool,
    recentCrashes: seq<int>, lastCrash: Option<int>)

  datatype Past = Past(epoch: nat, crashes: seq<int>)

  datatype Pod = Pod(uid: nat, stamp: string, deleting: bool, term: Option<Termination>)

  // A Pod the controller created, from which version of the GameServer, as which Pod state.
  datatype Creation = Creation(version: nat, at: nat)

  datatype Cause = Stopped | RestartAsked(value: string) | CrashRestart(at: int, now: int)

  // `read` is the Pod that the deletion was decided on, `uid` the one it hit.
  datatype Deletion = Deletion(uid: nat, read: nat, cause: Cause, version: nat)

  datatype World = World(
    policy: Policy,
    gs: seq<GameServer>, past: seq<Past>, gsSeen: nat,
    pods: seq<Option<Pod>>, podSeen: nat,
    created: seq<Creation>, deleted: seq<Deletion>,
    exits: seq<int>)

  predicate Wanted(g: GameServer) {
    g.running && !g.suspended
  }

  predicate RestartRequested(g: GameServer, p: Pod) {
    g.restartAt != "" && g.restartAt != p.stamp
  }

  predicate IsCrash(t: Termination) {
    !(t.exitCode == 0 && !IsOOMKilled(t))
  }

  ghost predicate Init(w: World) {
    && |w.gs| == |w.past| == 1 && w.gsSeen == 0
    && w.gs[0].recentCrashes == [] && w.gs[0].lastCrash.None? && w.past[0] == Past(0, [])
    && w.pods == [None] && w.podSeen == 0
    && w.created == [] && w.deleted == [] && w.exits == []
    && w.policy == w.policy.OrDefault()
  }

  ghost predicate Shape(w: World) {
    && |w.gs| == |w.past| && w.gsSeen < |w.gs| && w.podSeen < |w.pods|
    && w.policy == w.policy.OrDefault()
  }

  function LastGs(w: World): GameServer
    requires w.gs != []
  {
    w.gs[|w.gs| - 1]
  }

  function LastPast(w: World): Past
    requires w.past != []
  {
    w.past[|w.past| - 1]
  }

  function Current(w: World): Option<Pod>
    requires w.pods != []
  {
    w.pods[|w.pods| - 1]
  }

  // ---- steps of everybody else -----------------------------------------------------------------

  predicate Fresh(w: World, value: string) {
    forall i :: 0 <= i < |w.gs| ==> w.gs[i].restartAt != value
  }

  ghost predicate UserEdit(w: World, w': World, g: GameServer)
    requires Shape(w)
  {
    && g.recentCrashes == LastGs(w).recentCrashes && g.lastCrash == LastGs(w).lastCrash
    && (g.restartAt == LastGs(w).restartAt || g.restartAt == "" || Fresh(w, g.restartAt))
    && w' == w.(gs := w.gs + [g], past := w.past + [LastPast(w)])
  }

  // The game container ends, a second or more after any earlier end.
  ghost predicate GameExit(w: World, w': World, t: Termination)
    requires Shape(w)
  {
    && Current(w).Some? && Current(w).value.term.None?
    && (w.exits != [] ==> w.exits[|w.exits| - 1] + SECOND <= t.finishedAt)
    && w' == w.(pods := w.pods + [Some(Current(w).value.(term := Some(t)))], exits := w.exits + [t.finishedAt])
  }

  ghost predicate PodGone(w: World, w': World)
    requires Shape(w)
  {
    Current(w).Some? && Current(w).value.deleting && w' == w.(pods := w.pods + [None])
  }

  // ---- steps of the controller -----------------------------------------------------------------

  ghost predicate Observe(w: World, w': World)
    requires Shape(w)
  {
    && w.gsSeen <= w'.gsSeen < |w.gs| && w.podSeen <= w'.podSeen < |w.pods|
    && w' == w.(gsSeen := w'.gsSeen, podSeen := w'.podSeen)
  }

  ghost predicate CreatePod(w: World, w': World)
    requires Shape(w)
  {
    && w.pods[w.podSeen].None? && Current(w).None?
    && Wanted(w.gs[w.gsSeen])
    && w' == w.(pods := w.pods + [Some(Pod(|w.created|, w.gs[w.gsSeen].restartAt, false, None))],
                created := w.created + [Creation(w.gsSeen, |w.pods|)])
  }

  // A Pod is evicted, drained or deleted by hand: it is marked, or gone at once.
  ghost predicate Evict(w: World, w': World)
    requires Shape(w)
  {
    && Current(w).Some?
    && (w' == w.(pods := w.pods + [None]) || w' == w.(pods := w.pods + [Some(Current(w).value.(deleting := true))]))
  }

  // A deletion is decided on the Pod the controller read, and by name hits the one that is there.
  ghost predicate Justified(w: World, cause: Cause, version: nat)
    requires Shape(w)
  {
    && version < |w.gs|
    && w.pods[w.podSeen].Some? && !w.pods[w.podSeen].value.deleting
    && var g, p := w.gs[version], w.pods[w.podSeen].value;
    match cause
    case Stopped => !Wanted(g)
    case RestartAsked(value) =>
      version == w.gsSeen && Wanted(g) && value == g.restartAt && RestartRequested(g, p)
    case CrashRestart(at, now) =>
      && p.term.Some? && IsCrash(p.term.value) && p.term.value.finishedAt == at
      && g.lastCrash == Some(at)
      && var d := Decide(p.term.value, g.autoRestart, g.recentCrashes, w.policy);
      d.recent == g.recentCrashes && d.action.Restart? && d.action.restartAt <= now
  }

  ghost predicate DeletePod(w: World, w': World, d: Deletion)
    requires Shape(w)
  {
    && Justified(w, d.cause, d.version)
    && Current(w).Some? && !Current(w).value.deleting
    && d.uid == Current(w).value.uid && d.read == w.pods[w.podSeen].value.uid
    && w' == w.(pods := w.pods + [Some(Current(w).value.(deleting := true))], deleted := w.deleted + [d])
  }

  // Version-checked writes.
  ghost predicate RecordCrash(w: World, w': World)
    requires Shape(w)
  {
    && w.pods[w.podSeen].Some? && w.pods[w.podSeen].value.term.Some?
    && var t, past := w.pods[w.podSeen].value.term.value, LastPast(w);
    && IsCrash(t)
    && w' == w.(gs := w.gs + [AfterCrash(LastGs(w), t, w.policy)],
                past := w.past + [past.(crashes := AddCrash(past.crashes, t.finishedAt))])
  }

  function AfterCrash(g: GameServer, t: Termination, policy: Policy): GameServer {
    g.(lastCrash := Some(t.finishedAt), recentCrashes := Decide(t, g.autoRestart, g.recentCrashes, policy).recent)
  }

  function AddCrash(crashes: seq<int>, at: int): seq<int> {
    if crashes != [] && crashes[|crashes| - 1] == at then crashes else crashes + [at]
  }

  // A stopped server starts a fresh count.
  ghost predicate ClearCrashes(w: World, w': World)
    requires Shape(w)
  {
    && !Wanted(LastGs(w))
    && w' == w.(gs := w.gs + [LastGs(w).(recentCrashes := [])], past := w.past + [Past(LastPast(w).epoch + 1, [])])
  }

  // The server is left stopped after its game exited or the controller gave up.
  ghost predicate StopServer(w: World, w': World)
    requires Shape(w)
  {
    w' == w.(gs := w.gs + [LastGs(w).(running := false)], past := w.past + [LastPast(w)])
  }

  // Phase, conditions: nothing the protocol reads.
  ghost predicate OtherWrite(w: World, w': World)
    requires Shape(w)
  {
    w' == w.(gs := w.gs + [LastGs(w)], past := w.past + [LastPast(w)])
  }

  // A step in which nobody else deletes a Pod.
  ghost predicate CalmStep(w: World, w': World)
    requires Shape(w)
  {
    || (exists g :: UserEdit(w, w', g))
    || (exists t :: GameExit(w, w', t))
    || PodGone(w, w') || Observe(w, w') || CreatePod(w, w')
    || (exists d :: DeletePod(w, w', d))
    || RecordCrash(w, w') || ClearCrashes(w, w') || StopServer(w, w') || OtherWrite(w, w')
  }

  ghost predicate Step(w: World, w': World)
    requires Shape(w)
  {
    CalmStep(w, w') || Evict(w, w')
  }

  ghost predicate IsRun(run: seq<World>) {
    && run != [] && Init(run[0])
    && (forall i :: 0 <= i < |run| ==> Shape(run[i]))
    && (forall i :: 0 <= i < |run| - 1 ==> Step(run[i], run[i + 1]))
  }

  // ---- invariant: Pods -------------------------------------------------------------------------

  // Of two times the later one is the same, or a second or more later.
  predicate Follows(s: int, t: int) {
    s == t || s + SECOND <= t
  }

  function EndOf(p: Option<Pod>): Option<int> {
    if p.Some? && p.value.term.Some? then Some(p.value.term.value.finishedAt) else None
  }

  // The Pod that is there is the newest one. The ends that the Pods' states show are exits, in order.
  ghost predicate PodInv(pods: seq<Option<Pod>>, created: seq<Creation>, exits: seq<int>) {
    && (pods != [] && pods[|pods| - 1].Some? ==> pods[|pods| - 1].value.uid == |created| - 1)
    && (forall i {:trigger EndOf(pods[i])} :: 0 <= i < |pods| && EndOf(pods[i]).Some? ==>
          exits != [] && EndOf(pods[i]).value <= exits[|exits| - 1])
    && (forall i, j {:trigger EndOf(pods[i]), EndOf(pods[j])} ::
          0 <= i <= j < |pods| && EndOf(pods[i]).Some? && EndOf(pods[j]).Some? ==>
              Follows(EndOf(pods[i]).value, EndOf(pods[j]).value))
  }

  // The last crash on record is no later than any that the cache can still show, or that is to come.
  ghost predicate RecordInv(crashes: seq<int>, pods: seq<Option<Pod>>, seen: nat, exits: seq<int>) {
    crashes != [] ==>
      && exits != [] && crashes[|crashes| - 1] <= exits[|exits| - 1]
      && forall i {:trigger EndOf(pods[i])} :: seen <= i < |pods| && EndOf(pods[i]).Some? ==>
           Follows(crashes[|crashes| - 1], EndOf(pods[i]).value)
  }

  // Pods carry the restart-at value of the version they were made from, and versions only advance.
  ghost predicate MadeFrom(gs: seq<GameServer>, gsSeen: nat, created: seq<Creation>) {
    && (forall i :: 0 <= i < |created| ==>
          created[i].version <= gsSeen && created[i].version < |gs| && Wanted(gs[created[i].version]))
    && (forall i, j :: 0 <= i <= j < |created| ==> created[i].version <= created[j].version)
  }

  ghost predicate Stamped(gs: seq<GameServer>, created: seq<Creation>, p: Pod) {
    && p.uid < |created| && created[p.uid].version < |gs|
    && p.stamp == gs[created[p.uid].version].restartAt
  }

  ghost predicate StampInv(gs: seq<GameServer>, created: seq<Creation>, pods: seq<Option<Pod>>) {
    forall i {:trigger Stamped(gs, created, pods[i].value)} :: 0 <= i < |pods| && pods[i].Some? ==>
      Stamped(gs, created, pods[i].value)
  }

  // A restart-at value is in force over one stretch of versions: where it is seen again, it still was.
  ghost predicate ValueInv(gs: seq<GameServer>) {
    forall i, k :: 0 <= i < k < |gs| && gs[i].restartAt == gs[k].restartAt && gs[i].restartAt != "" ==>
      gs[k - 1].restartAt == gs[i].restartAt
  }

  lemma {:induction false} ValueInBetween(gs: seq<GameServer>, i: nat, j: nat, k: nat)
    requires ValueInv(gs) && i <= j <= k < |gs| && gs[i].restartAt == gs[k].restartAt != ""
    ensures gs[j].restartAt == gs[i].restartAt
    decreases k
  {
    if j < k {
      ValueInBetween(gs, i, j, k - 1);
    }
  }

  // ---- invariant: deletions --------------------------------------------------------------------

  // The newest Pod is deleted at most once, and every deletion is of a later Pod than the last.
  ghost predicate OnceInv(deleted: seq<Deletion>, pods: nat, current: Option<Pod>) {
    && (forall i :: 0 <= i < |deleted| ==>
          && deleted[i].uid < pods
          && (deleted[i].uid == pods - 1 && current.Some? ==> current.value.deleting))
    && (forall i, j :: 0 <= i < j < |deleted| ==> deleted[i].uid < deleted[j].uid)
  }

  // The Pod that was read was older than the request; every Pod after the one that was hit was made with
  // the request in sight.
  ghost predicate RestartDeletion(gs: seq<GameServer>, gsSeen: nat, created: seq<Creation>, d: Deletion) {
    d.cause.RestartAsked? ==>
      && d.uid < |created| && d.read < |created| && d.version < |gs| && d.version <= gsSeen
      && d.cause.value == gs[d.version].restartAt && d.cause.value != ""
      && created[d.uid].version <= d.version
      && created[d.read].version < |gs| && gs[created[d.read].version].restartAt != d.cause.value
      && (forall u :: d.uid < u < |created| ==> d.version <= created[u].version)
  }

  ghost predicate RestartInv(gs: seq<GameServer>, gsSeen: nat, created: seq<Creation>, deleted: seq<Deletion>) {
    forall i {:trigger RestartDeletion(gs, gsSeen, created, deleted[i])} :: 0 <= i < |deleted| ==>
      RestartDeletion(gs, gsSeen, created, deleted[i])
  }

  // ---- invariant: crashes ----------------------------------------------------------------------

  ghost predicate Continues(a: Past, b: Past) {
    a.epoch <= b.epoch && (a.epoch == b.epoch ==> a.crashes <= b.crashes)
  }

  ghost predicate ChainInv(past: seq<Past>) {
    forall i, j {:trigger Continues(past[i], past[j])} :: 0 <= i <= j < |past| ==> Continues(past[i], past[j])
  }

  ghost predicate PastFits(g: GameServer, past: Past, window: int) {
    && Ordered(past.crashes) && g.recentCrashes == Stored(past.crashes, window)
    && (past.crashes != [] ==> g.lastCrash == Some(past.crashes[|past.crashes| - 1]))
  }

  ghost predicate PastInv(gs: seq<GameServer>, past: seq<Past>, window: int) {
    |gs| == |past|
    && forall i {:trigger PastFits(gs[i], past[i], window)} :: 0 <= i < |gs| ==> PastFits(gs[i], past[i], window)
  }

  ghost predicate CrashDeletion(gs: seq<GameServer>, past: seq<Past>, policy: Policy, d: Deletion) {
    d.cause.CrashRestart? ==>
      && d.version < |gs| && d.version < |past|
      && var crashes := past[d.version].crashes;
      && Restarted(crashes, policy) && crashes[|crashes| - 1] == d.cause.at
      && d.cause.at + 10 * SECOND <= d.cause.now
      && gs[d.version].lastCrash == Some(d.cause.at)
  }

  ghost predicate CrashInv(gs: seq<GameServer>, past: seq<Past>, policy: Policy, deleted: seq<Deletion>) {
    forall i {:trigger CrashDeletion(gs, past, policy, deleted[i])} :: 0 <= i < |deleted| ==>
      CrashDeletion(gs, past, policy, deleted[i])
  }

  ghost predicate Inv(w: World) {
    && Shape(w)
    && PodInv(w.pods, w.created, w.exits) && RecordInv(LastPast(w).crashes, w.pods, w.podSeen, w.exits)
    && MadeFrom(w.gs, w.gsSeen, w.created)
    && StampInv(w.gs, w.created, w.pods)
    && ValueInv(w.gs)
    && OnceInv(w.deleted, |w.created|, Current(w))
    && RestartInv(w.gs, w.gsSeen, w.created, w.deleted)
    && ChainInv(w.past)
    && PastInv(w.gs, w.past, w.policy.window)
    && CrashInv(w.gs, w.past, w.policy, w.deleted)
  }

  // ---- steps keep it ---------------------------------------------------------------------------

  lemma NewVersionKeepsValues(gs: seq<GameServer>, g: GameServer)
    requires gs != [] && ValueInv(gs)
    requires g.restartAt == gs[|gs| - 1].restartAt || g.restartAt == "" || forall i :: 0 <= i < |gs| ==>
               gs[i].restartAt != g.restartAt
    ensures ValueInv(gs + [g])
  {
  }

  lemma NewVersionKeepsPast(gs: seq<GameServer>, past: seq<Past>, window: int, g: GameServer, next: Past)
    requires PastInv(gs, past, window) && PastFits(g, next, window)
    requires ChainInv(past) && past != [] && Continues(past[|past| - 1], next)
    ensures PastInv(gs + [g], past + [next], window) && ChainInv(past + [next])
  {
    forall i | 0 <= i < |past| ensures Continues(past[i], next) {
      assert Continues(past[i], past[|past| - 1]);
    }
  }

  lemma NewVersionKeepsDeletions(gs: seq<GameServer>, gsSeen: nat, past: seq<Past>, policy: Policy,
                                 created: seq<Creation>, deleted: seq<Deletion>, g: GameServer, next: Past)
    requires RestartInv(gs, gsSeen, created, deleted) && CrashInv(gs, past, policy, deleted)
    ensures RestartInv(gs + [g], gsSeen, created, deleted) && CrashInv(gs + [g], past + [next], policy, deleted)
  {
    forall i | 0 <= i < |deleted|
      ensures RestartDeletion(gs + [g], gsSeen, created, deleted[i])
                && CrashDeletion(gs + [g], past + [next], policy, deleted[i])
    {
      assert RestartDeletion(gs, gsSeen, created, deleted[i]) && CrashDeletion(gs, past, policy, deleted[i]);
    }
  }

  // A new version of the GameServer leaves Pods alone.
  lemma VersionKeepsInv(w: World, w': World, g: GameServer, next: Past)
    requires Inv(w)
    requires w' == w.(gs := w.gs + [g], past := w.past + [next])
    requires PastFits(g, next, w.policy.window) && Continues(LastPast(w), next)
    requires RecordInv(next.crashes, w.pods, w.podSeen, w.exits)
    requires g.restartAt == LastGs(w).restartAt || g.restartAt == "" || Fresh(w, g.restartAt)
    ensures Inv(w')
  {
    NewVersionKeepsValues(w.gs, g);
    NewVersionKeepsPast(w.gs, w.past, w.policy.window, g, next);
    NewVersionKeepsDeletions(w.gs, w.gsSeen, w.past, w.policy, w.created, w.deleted, g, next);
    assert StampInv(w'.gs, w.created, w.pods) by {
      forall i | 0 <= i < |w.pods| && w.pods[i].Some? ensures Stamped(w'.gs, w.created, w.pods[i].value) {
        assert Stamped(w.gs, w.created, w.pods[i].value);
      }
    }
  }

  lemma ObserveKeepsInv(w: World, w': World)
    requires Inv(w) && Observe(w, w')
    ensures Inv(w')
  {
    forall i | 0 <= i < |w.deleted| ensures RestartDeletion(w.gs, w'.gsSeen, w.created, w.deleted[i]) {
      assert RestartDeletion(w.gs, w.gsSeen, w.created, w.deleted[i]);
    }
  }

  // A new state of the Pod that is there, which ends now, keeps its end, or is gone.
  lemma NewStateKeepsPods(pods: seq<Option<Pod>>, seen: nat, created: seq<Creation>, exits: seq<int>, crashes: seq<int>,
                          next: Option<Pod>)
    requires PodInv(pods, created, exits) && RecordInv(crashes, pods, seen, exits) && pods != []
               && pods[|pods| - 1].Some?
    requires next.Some? ==>
               next.value.uid == pods[|pods| - 1].value.uid && next.value.term == pods[|pods| - 1].value.term
    requires seen < |pods|
    ensures PodInv(pods + [next], created, exits) && RecordInv(crashes, pods + [next], seen, exits)
  {
    var last := pods[|pods| - 1];
    assert next.Some? ==> EndOf(next) == EndOf(last);
    forall i {:trigger EndOf(pods[i])} | 0 <= i < |pods| && EndOf(pods[i]).Some? && EndOf(next).Some?
      ensures Follows(EndOf(pods[i]).value, EndOf(next).value)
    {
      assert EndOf(last).Some?;
    }
  }

  lemma NewEndKeepsPods(pods: seq<Option<Pod>>, seen: nat, created: seq<Creation>, exits: seq<int>, crashes: seq<int>,
                        next: Pod, at: int)
    requires PodInv(pods, created, exits) && RecordInv(crashes, pods, seen, exits) && pods != []
               && pods[|pods| - 1].Some?
    requires next.uid == pods[|pods| - 1].value.uid && EndOf(Some(next)) == Some(at)
    requires exits != [] ==> exits[|exits| - 1] + SECOND <= at
    ensures PodInv(pods + [Some(next)], created, exits + [at])
              && RecordInv(crashes, pods + [Some(next)], seen, exits + [at])
  {
  }

  lemma NewStateKeepsStamps(gs: seq<GameServer>, created: seq<Creation>, pods: seq<Option<Pod>>, next: Option<Pod>)
    requires StampInv(gs, created, pods) && (next.Some? ==> Stamped(gs, created, next.value))
    ensures StampInv(gs, created, pods + [next])
  {
  }

  lemma ExitKeepsInv(w: World, w': World, t: Termination)
    requires Inv(w) && GameExit(w, w', t)
    ensures Inv(w')
  {
    var next := Current(w).value.(term := Some(t));
    NewEndKeepsPods(w.pods, w.podSeen, w.created, w.exits, LastPast(w).crashes, next, t.finishedAt);
    assert Stamped(w.gs, w.created, Current(w).value);
    NewStateKeepsStamps(w.gs, w.created, w.pods, Some(next));
  }

  // The Pod is gone, or is being deleted; the controller had no part in it.
  lemma GoneKeepsInv(w: World, w': World)
    requires Inv(w) && (PodGone(w, w') || Evict(w, w'))
    ensures Inv(w')
  {
    var next := Current(w');
    NewStateKeepsPods(w.pods, w.podSeen, w.created, w.exits, LastPast(w).crashes, next);
    assert Stamped(w.gs, w.created, Current(w).value);
    NewStateKeepsStamps(w.gs, w.created, w.pods, next);
    assert w'.pods == w.pods + [next];
  }

  lemma NewPodKeepsPods(pods: seq<Option<Pod>>, seen: nat, created: seq<Creation>, exits: seq<int>, crashes: seq<int>,
                        c: Creation, p: Pod)
    requires PodInv(pods, created, exits) && RecordInv(crashes, pods, seen, exits)
    requires p.uid == |created| && p.term.None?
    ensures PodInv(pods + [Some(p)], created + [c], exits) && RecordInv(crashes, pods + [Some(p)], seen, exits)
  {
    assert EndOf(Some(p)).None?;
  }

  lemma NewPodKeepsStamps(gs: seq<GameServer>, created: seq<Creation>, pods: seq<Option<Pod>>, c: Creation, p: Pod)
    requires StampInv(gs, created, pods) && Stamped(gs, created + [c], p)
    ensures StampInv(gs, created + [c], pods + [Some(p)])
  {
    forall i | 0 <= i < |pods| && pods[i].Some? ensures Stamped(gs, created + [c], pods[i].value) {
      assert Stamped(gs, created, pods[i].value);
    }
  }

  lemma NewPodKeepsRestarts(gs: seq<GameServer>, gsSeen: nat, created: seq<Creation>, deleted: seq<Deletion>,
                            c: Creation)
    requires RestartInv(gs, gsSeen, created, deleted) && gsSeen <= c.version
    ensures RestartInv(gs, gsSeen, created + [c], deleted)
  {
    forall i | 0 <= i < |deleted| ensures RestartDeletion(gs, gsSeen, created + [c], deleted[i]) {
      assert RestartDeletion(gs, gsSeen, created, deleted[i]);
    }
  }

  lemma CreateKeepsInv(w: World, w': World)
    requires Inv(w) && CreatePod(w, w')
    ensures Inv(w')
  {
    var p, c := Pod(|w.created|, w.gs[w.gsSeen].restartAt, false, None), Creation(w.gsSeen, |w.pods|);
    NewPodKeepsPods(w.pods, w.podSeen, w.created, w.exits, LastPast(w).crashes, c, p);
    NewPodKeepsStamps(w.gs, w.created, w.pods, c, p);
    NewPodKeepsRestarts(w.gs, w.gsSeen, w.created, w.deleted, c);
    assert MadeFrom(w.gs, w.gsSeen, w'.created);
  }

  // A crash is restarted on the strength of a version that holds it as the last crash of its history.
  lemma RestartedVersionFits(g: GameServer, past: Past, t: Termination, policy: Policy)
    requires PastFits(g, past, policy.window) && policy == policy.OrDefault() && g.lastCrash == Some(t.finishedAt)
    requires var d := Decide(t, g.autoRestart, g.recentCrashes, policy);
             d.recent == g.recentCrashes && d.action.Restart?
    ensures Restarted(past.crashes, policy) && past.crashes[|past.crashes| - 1] == t.finishedAt
  {
    RestartMeansRoom(t, g.autoRestart, g.recentCrashes, policy);
    assert Window(g.recentCrashes, t.finishedAt, policy.window) != [];
  }

  lemma CrashRestartFollowsTheHistory(w: World, d: Deletion)
    requires Inv(w) && Justified(w, d.cause, d.version)
    ensures CrashDeletion(w.gs, w.past, w.policy, d)
  {
    if d.cause.CrashRestart? {
      var t := w.pods[w.podSeen].value.term.value;
      RestartMeansRoom(t, w.gs[d.version].autoRestart, w.gs[d.version].recentCrashes, w.policy);
      RestartedVersionFits(w.gs[d.version], w.past[d.version], t, w.policy);
    }
  }

  lemma DeletionKeepsOnce(deleted: seq<Deletion>, pods: nat, p: Pod, d: Deletion)
    requires OnceInv(deleted, pods, Some(p)) && !p.deleting && d.uid == p.uid == pods - 1
    ensures OnceInv(deleted + [d], pods, Some(p.(deleting := true)))
  {
  }

  lemma DeleteKeepsInv(w: World, w': World, d: Deletion)
    requires Inv(w) && DeletePod(w, w', d)
    ensures Inv(w')
  {
    CrashRestartFollowsTheHistory(w, d);
    var next := Some(Current(w).value.(deleting := true));
    NewStateKeepsPods(w.pods, w.podSeen, w.created, w.exits, LastPast(w).crashes, next);
    assert Stamped(w.gs, w.created, Current(w).value) && Stamped(w.gs, w.created, w.pods[w.podSeen].value);
    NewStateKeepsStamps(w.gs, w.created, w.pods, next);
    assert RestartDeletion(w.gs, w.gsSeen, w.created, d);
    DeletionKeepsOnce(w.deleted, |w.created|, Current(w).value, d);
  }

  // Adding a crash to the history, once, adds it to the stored window, once.
  lemma RecordedWindowFits(crashes: seq<int>, at: int, window: int)
    requires Ordered(crashes) && window > 0 && (crashes != [] ==> Follows(crashes[|crashes| - 1], at))
    ensures Ordered(AddCrash(crashes, at)) && crashes <= AddCrash(crashes, at)
    ensures Stored(AddCrash(crashes, at), window) == Window(Stored(crashes, window), at, window)
  {
    if crashes != [] && crashes[|crashes| - 1] == at {
      WindowTwice(Stored(crashes[..|crashes| - 1], window), at, window);
    } else {
      assert (crashes + [at])[..|crashes|] == crashes;
    }
  }

  lemma RecordedVersionFits(g: GameServer, past: Past, t: Termination, policy: Policy)
    requires PastFits(g, past, policy.window) && policy == policy.OrDefault() && IsCrash(t)
    requires past.crashes != [] ==> Follows(past.crashes[|past.crashes| - 1], t.finishedAt)
    ensures
      var next := past.(crashes := AddCrash(past.crashes, t.finishedAt));
      PastFits(AfterCrash(g, t, policy), next, policy.window) && Continues(past, next)
  {
    RecordedWindowFits(past.crashes, t.finishedAt, policy.window);
  }

  // What the cache shows is not after anything it can still show.
  lemma SeenIsBehind(crashes: seq<int>, pods: seq<Option<Pod>>, seen: nat, created: seq<Creation>, exits: seq<int>)
    requires PodInv(pods, created, exits) && seen < |pods| && EndOf(pods[seen]).Some?
    ensures RecordInv(AddCrash(crashes, EndOf(pods[seen]).value), pods, seen, exits)
  {
  }

  lemma RecordKeepsInv(w: World, w': World)
    requires Inv(w) && RecordCrash(w, w')
    ensures Inv(w')
  {
    var t, past := w.pods[w.podSeen].value.term.value, LastPast(w);
    assert EndOf(w.pods[w.podSeen]) == Some(t.finishedAt);
    RecordedVersionFits(LastGs(w), past, t, w.policy);
    SeenIsBehind(past.crashes, w.pods, w.podSeen, w.created, w.exits);
    VersionKeepsInv(w, w', AfterCrash(LastGs(w), t, w.policy), past.(crashes := AddCrash(past.crashes, t.finishedAt)));
  }

  lemma EditKeepsInv(w: World, w': World, g: GameServer)
    requires Inv(w) && UserEdit(w, w', g)
    ensures Inv(w')
  {
    assert PastFits(LastGs(w), LastPast(w), w.policy.window);
    VersionKeepsInv(w, w', g, LastPast(w));
  }

  lemma OwnWriteKeepsInv(w: World, w': World)
    requires Inv(w) && (ClearCrashes(w, w') || StopServer(w, w') || OtherWrite(w, w'))
    ensures Inv(w')
  {
    assert PastFits(LastGs(w), LastPast(w), w.policy.window);
    VersionKeepsInv(w, w', LastGs(w'), LastPast(w'));
  }

  lemma StepKeepsInv(w: World, w': World)
    requires Inv(w) && Step(w, w')
    ensures Inv(w')
  {
    if g :| UserEdit(w, w', g) {
      EditKeepsInv(w, w', g);
    } else if t :| GameExit(w, w', t) {
      ExitKeepsInv(w, w', t);
    } else if PodGone(w, w') || Evict(w, w') {
      GoneKeepsInv(w, w');
    } else if Observe(w, w') {
      ObserveKeepsInv(w, w');
    } else if CreatePod(w, w') {
      CreateKeepsInv(w, w');
    } else if d :| DeletePod(w, w', d) {
      DeleteKeepsInv(w, w', d);
    } else if RecordCrash(w, w') {
      RecordKeepsInv(w, w');
    } else {
      OwnWriteKeepsInv(w, w');
    }
  }

  lemma {:induction false} RunKeepsInv(run: seq<World>, k: nat)
    requires IsRun(run) && k < |run|
    ensures Inv(run[k])
  {
    if k > 0 {
      RunKeepsInv(run, k - 1);
      StepKeepsInv(run[k - 1], run[k]);
    }
  }

  // ---- the properties --------------------------------------------------------------------------

  // Every Pod was made from a version in which the server is Running and not suspended, and carries
  // that version's restart-at value.
  lemma PodsAreMadeForRunningServers(run: seq<World>, k: nat, i: nat)
    requires IsRun(run) && k < |run| && i < |run[k].pods| && run[k].pods[i].Some?
    ensures
      var w := run[k];
      var p := w.pods[i].value;
      && p.uid < |w.created| && w.created[p.uid].version < |w.gs|
      && Wanted(w.gs[w.created[p.uid].version])
      && p.stamp == w.gs[w.created[p.uid].version].restartAt
  {
    RunKeepsInv(run, k);
    assert Stamped(run[k].gs, run[k].created, run[k].pods[i].value);
  }

  // The deletion hit the Pod it was decided on.
  predicate Hits(d: Deletion) {
    d.uid == d.read
  }

  // No Pod is deleted twice. A restart-at value deletes a second Pod only by missing the Pod that was read:
  // the one that is hit carries the value already.
  lemma RepeatedRestartsMiss(run: seq<World>, k: nat, i: nat, j: nat)
    requires IsRun(run) && k < |run| && i < j < |run[k].deleted|
    ensures
      var w := run[k];
      var d, e := w.deleted[i], w.deleted[j];
      && d.uid != e.uid
      && (d.cause.RestartAsked? && e.cause == d.cause ==>
            && !Hits(e) && e.uid < |w.created| && w.created[e.uid].version < |w.gs|
            && w.gs[w.created[e.uid].version].restartAt == d.cause.value)
  {
    RunKeepsInv(run, k);
    var w := run[k];
    var d, e := w.deleted[i], w.deleted[j];
    assert RestartDeletion(w.gs, w.gsSeen, w.created, d) && RestartDeletion(w.gs, w.gsSeen, w.created, e);
    if d.cause.RestartAsked? && e.cause == d.cause {
      ValueInBetween(w.gs, d.version, w.created[e.uid].version, e.version);
    }
  }

  // So among the deletions that hit the Pod they were decided on, no restart-at value deletes two Pods.
  lemma OneDeletionPerRestartValue(run: seq<World>, k: nat, i: nat, j: nat)
    requires IsRun(run) && k < |run| && i < j < |run[k].deleted| && Hits(run[k].deleted[j])
    ensures run[k].deleted[i].cause.RestartAsked? ==> run[k].deleted[j].cause != run[k].deleted[i].cause
  {
    RepeatedRestartsMiss(run, k, i, j);
  }

  // A crash is on record, as last crash and in the crash window, before its Pod is deleted for it,
  // and the deletion comes no sooner than ten seconds after the crash.
  lemma CrashIsPersistedBeforeThePodGoes(run: seq<World>, k: nat, i: nat)
    requires IsRun(run) && k < |run| && i < |run[k].deleted| && run[k].deleted[i].cause.CrashRestart?
    ensures
      var w, d := run[k], run[k].deleted[i];
      && d.version < |w.gs| && w.gs[d.version].lastCrash == Some(d.cause.at)
      && d.cause.at in w.past[d.version].crashes
      && d.cause.at + 10 * SECOND <= d.cause.now
  {
    RunKeepsInv(run, k);
    assert CrashDeletion(run[k].gs, run[k].past, run[k].policy, run[k].deleted[i]);
  }

  // The stored crash window is the full history of crashes since the last stop, cut to the window.
  lemma StoredWindowIsTheHistory(run: seq<World>, k: nat, i: nat)
    requires IsRun(run) && k < |run| && i < |run[k].gs|
    ensures
      var w := run[k];
      var crashes := w.past[i].crashes;
      w.gs[i].recentCrashes == if crashes == [] then [] else InWindow(crashes, crashes[|crashes| - 1], w.policy.window)
  {
    RunKeepsInv(run, k);
    var w := run[k];
    assert PastFits(w.gs[i], w.past[i], w.policy.window);
    if w.past[i].crashes != [] {
      StoredIsTheHistoryInTheWindow(w.past[i].crashes, w.policy.window);
    }
  }

  // The crashes of one stretch between stops that were restarted, after `from` and at most `to`.
  ghost function RestartedCrashes(w: World, epoch: nat, from: int, to: int): set<int> {
    set i | 0 <= i < |w.deleted| && w.deleted[i].cause.CrashRestart? && from < w.deleted[i].cause.at <= to
            && w.deleted[i].version < |w.past| && w.past[w.deleted[i].version].epoch == epoch
      :: w.deleted[i].cause.at
  }

  // The same, read off a history.
  ghost function RestartTimes(crashes: seq<int>, p: Policy, from: int, to: int): set<int> {
    if crashes == [] then {}
    else
      RestartTimes(crashes[..|crashes| - 1], p, from, to)
      + (if from < crashes[|crashes| - 1] <= to && Restarted(crashes, p) then {crashes[|crashes| - 1]} else {})
  }

  lemma {:induction false} RestartTimesAreCounted(crashes: seq<int>, p: Policy, from: int, to: int)
    ensures |RestartTimes(crashes, p, from, to)| <= RestartsBetween(crashes, p, from, to)
  {
    if crashes != [] {
      RestartTimesAreCounted(crashes[..|crashes| - 1], p, from, to);
    }
  }

  lemma {:induction false} RestartOfAPrefixIsARestart(prefix: seq<int>, crashes: seq<int>, p: Policy, from: int,
                                                      to: int)
    requires prefix != [] && prefix <= crashes
    requires Restarted(prefix, p) && from < prefix[|prefix| - 1] <= to
    ensures prefix[|prefix| - 1] in RestartTimes(crashes, p, from, to)
  {
    if |prefix| < |crashes| {
      assert prefix <= crashes[..|crashes| - 1];
      RestartOfAPrefixIsARestart(prefix, crashes[..|crashes| - 1], p, from, to);
    } else {
      assert prefix == crashes;
    }
  }

  lemma RestartedCrashesAreInTheHistory(w: World, j: nat, from: int, to: int)
    requires Shape(w) && ChainInv(w.past) && CrashInv(w.gs, w.past, w.policy, w.deleted)
    requires j < |w.past| && (j == |w.past| - 1 || w.past[j + 1].epoch != w.past[j].epoch)
    ensures RestartedCrashes(w, w.past[j].epoch, from, to) <= RestartTimes(w.past[j].crashes, w.policy, from, to)
  {
    forall i | 0 <= i < |w.deleted| && w.deleted[i].cause.CrashRestart? && from < w.deleted[i].cause.at <= to
               && w.deleted[i].version < |w.past| && w.past[w.deleted[i].version].epoch == w.past[j].epoch
      ensures w.deleted[i].cause.at in RestartTimes(w.past[j].crashes, w.policy, from, to)
    {
      assert CrashDeletion(w.gs, w.past, w.policy, w.deleted[i]);
      RestartIsInTheHistory(w.past, w.deleted[i].version, j, w.policy, from, to);
    }
  }

  lemma RestartsAreBoundedInState(w: World, j: nat, from: int)
    requires Inv(w) && j < |w.past| && (j == |w.past| - 1 || w.past[j + 1].epoch != w.past[j].epoch)
    ensures |RestartedCrashes(w, w.past[j].epoch, from, from + w.policy.window)| < w.policy.limit
  {
    var crashes, to := w.past[j].crashes, from + w.policy.window;
    assert Ordered(crashes) by {
      assert PastFits(w.gs[j], w.past[j], w.policy.window);
    }
    RestartedCrashesAreInTheHistory(w, j, from, to);
    SubsetIsSmaller(RestartedCrashes(w, w.past[j].epoch, from, to), RestartTimes(crashes, w.policy, from, to));
    RestartTimesAreCounted(crashes, w.policy, from, to);
    RestartsAreBounded(crashes, w.policy, from);
  }

  // The bound over runs: as long as the user does not stop the server, fewer than Limit crashes of any
  // one window are restarted. `j` is the last version before the next stop, or the last so far.
  lemma AutomaticRestartsAreBounded(run: seq<World>, k: nat, j: nat, from: int)
    requires IsRun(run) && k < |run| && j < |run[k].past|
    requires j == |run[k].past| - 1 || run[k].past[j + 1].epoch != run[k].past[j].epoch
    ensures
      var w := run[k];
      |RestartedCrashes(w, w.past[j].epoch, from, from + w.policy.window)| < w.policy.limit
  {
    RunKeepsInv(run, k);
    RestartsAreBoundedInState(run[k], j, from);
  }

  lemma EpochsGrow(past: seq<Past>, i: nat, j: nat)
    requires ChainInv(past) && i <= j < |past|
    ensures past[i].epoch <= past[j].epoch
  {
    assert Continues(past[i], past[j]);
  }

  // A version of the same stretch holds a prefix of what its last version holds.
  lemma RestartIsInTheHistory(past: seq<Past>, i: nat, j: nat, p: Policy, from: int, to: int)
    requires ChainInv(past) && i < |past| && j < |past| && past[i].epoch == past[j].epoch
    requires j == |past| - 1 || past[j + 1].epoch != past[j].epoch
    requires Restarted(past[i].crashes, p)
    requires from < past[i].crashes[|past[i].crashes| - 1] <= to
    ensures past[i].crashes[|past[i].crashes| - 1] in RestartTimes(past[j].crashes, p, from, to)
  {
    if j + 1 < |past| {
      EpochsGrow(past, j, j + 1);
      EpochsGrow(past, j + 1, if j < i then i else j + 1);
    }
    assert Continues(past[i], past[j]);
    RestartOfAPrefixIsARestart(past[i].crashes, past[j].crashes, p, from, to);
  }

  // ---- when deletions miss -----------------------------------------------------------------------

  // Nobody else deletes Pods in this run.
  ghost predicate IsCalmRun(run: seq<World>) {
    IsRun(run) && forall i :: 0 <= i < |run| - 1 ==> CalmStep(run[i], run[i + 1])
  }

  // Where the newest Pod starts in the sequence of Pod states.
  function Start(created: seq<Creation>, pods: seq<Option<Pod>>): nat {
    if created == [] then |pods| else created[|created| - 1].at
  }

  // What the cache can still show: before the newest Pod nothing, from there on only that Pod, which
  // stays until it is gone; and it is untouched as long as the cache has not reached it.
  ghost predicate CalmInv(pods: seq<Option<Pod>>, seen: nat, created: seq<Creation>) {
    var start := Start(created, pods);
    && (created != [] ==> start < |pods|)
    && (forall i :: seen <= i < |pods| && i < start ==> pods[i].None?)
    && (forall i :: start <= i < |pods| && pods[i].Some? ==> pods[i].value.uid == |created| - 1)
    && (forall i, k :: start <= i <= k < |pods| && pods[i].None? ==> pods[k].None?)
    && (seen < start ==> forall i :: start <= i < |pods| ==> pods[i].Some? && !pods[i].value.deleting)
  }

  lemma NewStateKeepsCalm(pods: seq<Option<Pod>>, seen: nat, created: seq<Creation>, next: Option<Pod>)
    requires CalmInv(pods, seen, created) && seen < |pods| && pods[|pods| - 1].Some?
    requires next.None? ==> pods[|pods| - 1].value.deleting
    requires next.Some? ==> next.value.uid == pods[|pods| - 1].value.uid
    requires next.Some? && next.value.deleting ==> pods[|pods| - 1].value.deleting || pods[seen].Some?
    ensures CalmInv(pods + [next], seen, created)
  {
  }

  lemma NewPodKeepsCalm(pods: seq<Option<Pod>>, seen: nat, created: seq<Creation>, c: Creation, p: Pod)
    requires CalmInv(pods, seen, created) && seen < |pods|
    requires pods[seen].None? && pods[|pods| - 1].None?
    requires c.at == |pods| && p.uid == |created| && !p.deleting
    ensures CalmInv(pods + [Some(p)], seen, created + [c])
  {
    // Had the cache not reached the newest Pod, that Pod would still be there.
    assert forall i :: seen <= i < |pods| ==> pods[i].None?;
  }

  ghost predicate AllHit(w: World)
    requires Shape(w)
  {
    CalmInv(w.pods, w.podSeen, w.created) && forall i :: 0 <= i < |w.deleted| ==> Hits(w.deleted[i])
  }

  lemma CalmExitHits(w: World, w': World, t: Termination)
    requires Shape(w) && AllHit(w) && GameExit(w, w', t)
    ensures AllHit(w')
  {
    NewStateKeepsCalm(w.pods, w.podSeen, w.created, Some(Current(w).value.(term := Some(t))));
  }

  lemma CalmDeletionHits(w: World, w': World, d: Deletion)
    requires Shape(w) && AllHit(w) && DeletePod(w, w', d)
    ensures AllHit(w')
  {
    NewStateKeepsCalm(w.pods, w.podSeen, w.created, Some(Current(w).value.(deleting := true)));
  }

  lemma CalmStepHits(w: World, w': World)
    requires Shape(w) && AllHit(w) && CalmStep(w, w') && Shape(w')
    ensures AllHit(w')
  {
    if t :| GameExit(w, w', t) {
      CalmExitHits(w, w', t);
    } else if d :| DeletePod(w, w', d) {
      CalmDeletionHits(w, w', d);
    } else if PodGone(w, w') {
      NewStateKeepsCalm(w.pods, w.podSeen, w.created, None);
    } else if CreatePod(w, w') {
      var p, c := Pod(|w.created|, w.gs[w.gsSeen].restartAt, false, None), Creation(w.gsSeen, |w.pods|);
      NewPodKeepsCalm(w.pods, w.podSeen, w.created, c, p);
    }
  }

  // It takes somebody else's deletion for one of the controller's to miss.
  lemma {:induction false} CalmRunsHit(run: seq<World>, k: nat)
    requires IsCalmRun(run) && k < |run|
    ensures AllHit(run[k])
  {
    if k > 0 {
      CalmRunsHit(run, k - 1);
      CalmStepHits(run[k - 1], run[k]);
    }
  }

  ghost predicate EndsIn(run: seq<World>, w: World) {
    IsRun(run) && run[|run| - 1] == w
  }

  ghost predicate CanBecome(w: World) {
    exists run :: EndsIn(run, w)
  }

  lemma Goes(w: World, w': World)
    requires CanBecome(w) && Shape(w) && Shape(w') && Step(w, w')
    ensures CanBecome(w')
  {
    var run :| EndsIn(run, w);
    var more := run + [w'];
    forall i | 0 <= i < |more| - 1 ensures Step(more[i], more[i + 1]) {
      if i < |run| - 1 {
        assert more[i] == run[i] && more[i + 1] == run[i + 1];
      }
    }
    assert EndsIn(more, w');
  }

  // The Pod that the controller makes next.
  function NextPod(w: World): Pod
    requires Shape(w)
  {
    Pod(|w.created|, w.gs[w.gsSeen].restartAt, false, None)
  }

  ghost predicate MakesAPod(w: World)
    requires Shape(w)
  {
    w.pods[w.podSeen].None? && Current(w).None? && Wanted(w.gs[w.gsSeen])
  }

  // A Pod is made on a stale view that shows none, and evicted before the view has moved.
  lemma MadeAndEvicted(w: World) returns (w': World)
    requires CanBecome(w) && Shape(w) && MakesAPod(w)
    ensures CanBecome(w')
    ensures w' == w.(pods := w.pods + [Some(NextPod(w)), None], created := w.created + [Creation(w.gsSeen, |w.pods|)])
  {
    var made := w.(pods := w.pods + [Some(NextPod(w))], created := w.created + [Creation(w.gsSeen, |w.pods|)]);
    assert CreatePod(w, made);
    Goes(w, made);
    w' := made.(pods := made.pods + [None]);
    assert Evict(made, w');
    Goes(made, w');
    assert w'.pods == w.pods + [Some(NextPod(w)), None];
  }

  // A Pod is made on a stale view that shows none. Then the view shows an older Pod, which was made before
  // the restart was asked for, and the deletion hits the new one, which was not.
  lemma MadeAndDeleted(w: World, earlier: nat) returns (w': World)
    requires CanBecome(w) && Shape(w) && MakesAPod(w) && w.podSeen <= earlier < |w.pods|
    requires w.pods[earlier].Some? && !w.pods[earlier].value.deleting
    requires RestartRequested(w.gs[w.gsSeen], w.pods[earlier].value)
    ensures CanBecome(w')
    ensures
      var p := NextPod(w);
      w' == w.(podSeen := earlier, pods := w.pods + [Some(p), Some(p.(deleting := true)), None],
               created := w.created + [Creation(w.gsSeen, |w.pods|)],
               deleted := w.deleted + [Deletion(p.uid, w.pods[earlier].value.uid, RestartAsked(p.stamp), w.gsSeen)])
  {
    var p := NextPod(w);
    var made := w.(pods := w.pods + [Some(p)], created := w.created + [Creation(w.gsSeen, |w.pods|)]);
    assert CreatePod(w, made);
    Goes(w, made);
    var seen := made.(podSeen := earlier);
    assert Observe(made, seen);
    Goes(made, seen);
    var d := Deletion(p.uid, w.pods[earlier].value.uid, RestartAsked(p.stamp), w.gsSeen);
    var gone := seen.(pods := seen.pods + [Some(p.(deleting := true))], deleted := seen.deleted + [d]);
    assert DeletePod(seen, gone, d);
    Goes(seen, gone);
    w' := gone.(pods := gone.pods + [None]);
    assert PodGone(gone, w');
    Goes(gone, w');
    assert w'.pods == w.pods + [Some(p), Some(p.(deleting := true)), None];
  }

  // The view of the Pod moves on.
  lemma Looks(w: World, state: nat) returns (w': World)
    requires CanBecome(w) && Shape(w) && w.podSeen <= state < |w.pods|
    ensures CanBecome(w') && w' == w.(podSeen := state)
  {
    w' := w.(podSeen := state);
    assert Observe(w, w');
    Goes(w, w');
  }

  // A restart is asked for with a new value, and the controller sees it.
  lemma Asks(w: World, value: string) returns (w': World)
    requires CanBecome(w) && Shape(w) && Fresh(w, value)
    ensures CanBecome(w')
    ensures w' == w.(gs := w.gs + [LastGs(w).(restartAt := value)], past := w.past + [LastPast(w)], gsSeen := |w.gs|)
  {
    var asked := w.(gs := w.gs + [LastGs(w).(restartAt := value)], past := w.past + [LastPast(w)]);
    assert UserEdit(w, asked, LastGs(w).(restartAt := value));
    Goes(w, asked);
    w' := asked.(gsSeen := |w.gs|);
    assert Observe(asked, w');
    Goes(asked, w');
  }

  // Two Pods come and go unseen, and then a restart is asked for.
  lemma AskedAfterEvictions(policy: Policy, value: string) returns (w: World)
    requires policy == policy.OrDefault() && value != ""
    ensures CanBecome(w)
    ensures
      var g := GameServer(true, false, "", true, [], None);
      var a, b := Pod(0, "", false, None), Pod(1, "", false, None);
      w == World(policy, [g, g.(restartAt := value)], [Past(0, []), Past(0, [])], 1,
                 [None, Some(a), None, Some(b), None], 0, [Creation(0, 1), Creation(0, 3)], [], [])
  {
    var g := GameServer(true, false, "", true, [], None);
    w := World(policy, [g], [Past(0, [])], 0, [None], 0, [], [], []);
    assert EndsIn([w], w);
    w := MadeAndEvicted(w);
    w := MadeAndEvicted(w);
    w := Asks(w, value);
  }

  // With evictions, it does happen: after two of them behind a view that lags, one restart-at value
  // deletes two Pods, both made with the value in sight.
  lemma EvictionsRepeatARestart(policy: Policy, value: string) returns (w: World)
    requires policy == policy.OrDefault() && value != ""
    ensures CanBecome(w)
    ensures
      && w.deleted == [Deletion(2, 0, RestartAsked(value), 1), Deletion(3, 1, RestartAsked(value), 1)]
      && |w.created| == 4 && w.created[2].version == w.created[3].version == 1 && |w.gs| == 2
          && w.gs[1].restartAt == value
  {
    w := AskedAfterEvictions(policy, value);
    w := MadeAndDeleted(w, 1);
    w := Looks(w, 2);
    w := MadeAndDeleted(w, 3);
  }
}
