/**
 The world-save pause around one backup, as a protocol over a versioned API object.

 Only what the protocol is about is kept: the persisted versions of the object, the console commands
 that were started, and the single piece of volatile state that matters, the Before commands a
 reconcile has just recorded and is about to send. The lemmas are about every run of the protocol.
 BackupController shows that the controller's code only ever takes these steps.
 */
module BackupProtocol {
  import opened Wrappers

  import opened BackupPhases

  type UID = string

  datatype Reason = Saved | Delay | Timeout | SendFailed | Sent | PodReplaced | NothingToSend

  datatype Condition = Condition(status: bool, reason: Reason)

  datatype Quiesce = Quiesce(podUID: UID, beforeSentAt: Option<int>, resumedAt: Option<int>, resumeAttempts: nat)

  // One persisted version of a GameServerBackup.
  datatype Backup = Backup(
    deleting: bool,
    finalizer: bool,
    phase: Phase,
    quiesce: Option<Quiesce>,
    quiesced: Option<Condition>,
    resumed: Option<Condition>)

  const RESUME_MAX_ATTEMPTS := 5

  predicate Recorded(b: Backup) {
    b.quiesce.Some? && b.quiesce.value.beforeSentAt.Some?
  }

  predicate Resumed(b: Backup) {
    Recorded(b) && b.quiesce.value.resumedAt.Some?
  }

  // Nothing is paused on account of this backup, or the After step is over.
  predicate Settled(b: Backup) {
    Recorded(b) ==> Resumed(b)
  }

  datatype Kind = Before | After

  // Commands started on the Pod whose UID is `uid`, on the strength of version `version` of the backup.
  datatype Send = Send(kind: Kind, uid: UID, version: nat)

  datatype World = World(
    history: seq<Backup>,      // every version the API server accepted, oldest first
    gone: bool,                // the API server removed the object
    armed: Option<nat>,        // the version in which the current reconcile recorded Before, not sent yet
    sends: seq<Send>,
    jobs: seq<nat>)            // the version each creation of the restic Job was decided on

  ghost predicate Init(w: World) {
    && |w.history| == 1
    && w.history[0] == Backup(false, w.history[0].finalizer, Unset, None, None, None)
    && !w.gone && w.armed.None? && w.sends == [] && w.jobs == []
  }

  // ---- what the controller may write over version c --------------------------------------------

  predicate RecordsBefore(c: Backup, b: Backup) {
    && c.finalizer && !c.deleting && !Recorded(c)
    && Recorded(b) && b.quiesce.value.resumedAt.None? && b.quiesce.value.resumeAttempts == 0
    && b == c.(quiesce := b.quiesce)
  }

  predicate DecidesWait(c: Backup, b: Backup) {
    c.finalizer && !c.deleting && Recorded(c) && b.quiesced.Some? && b == c.(quiesced := b.quiesced)
  }

  predicate MovesPhase(c: Backup, b: Backup) {
    && c.finalizer && b == c.(phase := b.phase)
    && (if c.deleting then Settled(c) && b.phase == Deleting else b.phase != Deleting)
  }

  predicate RecordsResume(c: Backup, b: Backup) {
    && Recorded(c) && !Resumed(c) && Recorded(b)
    && var q, q' := c.quiesce.value, b.quiesce.value;
    && q' == q.(resumedAt := q'.resumedAt, resumeAttempts := q'.resumeAttempts)
    && q.resumeAttempts <= q'.resumeAttempts <= q.resumeAttempts + 1
    && (q'.resumedAt.None? ==> q'.resumeAttempts < RESUME_MAX_ATTEMPTS)
    && b == c.(quiesce := b.quiesce, resumed := b.resumed)
  }

  predicate StatusWrite(c: Backup, b: Backup) {
    RecordsBefore(c, b) || DecidesWait(c, b) || MovesPhase(c, b) || RecordsResume(c, b)
  }

  predicate AddsFinalizer(c: Backup, b: Backup) {
    !c.deleting && !c.finalizer && b == c.(finalizer := true)
  }

  predicate ReleasesFinalizer(c: Backup, b: Backup) {
    c.deleting && c.finalizer && Settled(c) && b == c.(finalizer := false)
  }

  predicate MetaWrite(c: Backup, b: Backup) {
    AddsFinalizer(c, b) || ReleasesFinalizer(c, b)
  }

  // ---- steps -----------------------------------------------------------------------------------

  function Last(w: World): Backup
    requires w.history != []
  {
    w.history[|w.history| - 1]
  }

  // Users and other programs: touch something the protocol does not read, or delete the object.
  // Without a finalizer the API server removes a deleted object at once.
  ghost predicate Environment(w: World, w': World)
    requires w.history != []
  {
    || w' == w
    || (!w.gone && w' == w.(history := w.history + [Last(w)]))
    || (!w.gone && Last(w).finalizer && w' == w.(history := w.history + [Last(w).(deleting := true)]))
    || (!w.gone && !Last(w).finalizer && w' == w.(gone := true))
  }

  // A version-checked write of the controller. Only a status write that records Before arms a send, only
  // when the controller saw it succeed, and only until the next write.
  ghost predicate Write(w: World, w': World)
    requires w.history != []
  {
    && !w.gone && |w'.history| == |w.history| + 1
    && w'.history[..|w.history|] == w.history
    && var c, b := Last(w), Last(w');
    && (StatusWrite(c, b) || MetaWrite(c, b))
    && w'.gone == (b.deleting && !b.finalizer)
    && w'.sends == w.sends && w'.jobs == w.jobs
    && (w'.armed.None? || (RecordsBefore(c, b) && w'.armed == Some(|w.history|)))
  }

  // The commands of s go to a Pod that is found in the cluster; it has to be the one on record in the
  // version that s rests on.
  predicate ToTheRecordedPod(w: World, s: Send) {
    && s.version < |w.history| && Recorded(w.history[s.version])
    && s.uid == w.history[s.version].quiesce.value.podUID
  }

  ghost predicate SendBefore(w: World, w': World, s: Send) {
    && s.kind == Before && w.armed == Some(s.version) && ToTheRecordedPod(w, s)
    && w' == w.(armed := None, sends := w.sends + [s])
  }

  // After goes out on the strength of any version the controller read, however old.
  ghost predicate SendAfter(w: World, w': World, s: Send) {
    && s.kind == After && ToTheRecordedPod(w, s) && !Resumed(w.history[s.version])
    && w' == w.(sends := w.sends + [s])
  }

  ghost predicate CreateJob(w: World, w': World, version: nat) {
    && version < |w.history|
    && (Recorded(w.history[version]) ==> w.history[version].quiesced.Some?)
    && w' == w.(jobs := w.jobs + [version])
  }

  // A reconcile ends or dies: whatever it was about to send is forgotten.
  ghost predicate Forget(w: World, w': World) {
    w' == w.(armed := None)
  }

  ghost predicate Step(w: World, w': World)
    requires w.history != []
  {
    || Environment(w, w') || Write(w, w') || Forget(w, w')
    || (exists s :: SendBefore(w, w', s) || SendAfter(w, w', s))
    || (exists version: nat :: CreateJob(w, w', version))
  }

  ghost predicate IsRun(run: seq<World>) {
    && run != [] && Init(run[0])
    && (forall i :: 0 <= i < |run| ==> run[i].history != [])
    && (forall i :: 0 <= i < |run| - 1 ==> Step(run[i], run[i + 1]))
  }

  // ---- the invariant ---------------------------------------------------------------------------

  // What no write ever takes back.
  ghost predicate Evolves(c: Backup, b: Backup) {
    && (Recorded(c) ==>
          && Recorded(b)
          && b.quiesce.value.podUID == c.quiesce.value.podUID
          && b.quiesce.value.beforeSentAt == c.quiesce.value.beforeSentAt
          && c.quiesce.value.resumeAttempts <= b.quiesce.value.resumeAttempts)
    && (Resumed(c) ==> Resumed(b))
    && (c.quiesced.Some? ==> b.quiesced.Some?)
    && (c.deleting ==> b.deleting)
    && (c.deleting && !c.finalizer ==> !b.finalizer)
  }

  ghost predicate Sound(b: Backup) {
    && (Recorded(b) ==> b.finalizer || Resumed(b))
    && (Recorded(b) ==> b.quiesce.value.resumeAttempts <= RESUME_MAX_ATTEMPTS)
    && (Recorded(b) && !Resumed(b) ==> b.quiesce.value.resumeAttempts < RESUME_MAX_ATTEMPTS)
    && (b.quiesce.Some? ==> Recorded(b))
  }

  function CountBefore(sends: seq<Send>): nat {
    if sends == [] then 0
    else CountBefore(sends[..|sends| - 1]) + (if sends[|sends| - 1].kind == Before then 1 else 0)
  }

  ghost predicate Inv(w: World) {
    && w.history != []
    && (forall i :: 0 <= i < |w.history| ==> Sound(w.history[i]) && Evolves(w.history[i], Last(w)))
    && (forall i :: 0 <= i < |w.sends| ==> ToTheRecordedPod(w, w.sends[i]))
    && CountBefore(w.sends) <= 1
    && (CountBefore(w.sends) == 1 ==> Recorded(Last(w)))
    && (w.armed.Some? ==>
          w.armed.value < |w.history| && Recorded(w.history[w.armed.value]) && CountBefore(w.sends) == 0
              && !Resumed(Last(w)))
    && (w.gone ==> Settled(Last(w)))
    && (forall i :: 0 <= i < |w.jobs| ==>
          && w.jobs[i] < |w.history|
          && (Recorded(w.history[w.jobs[i]]) ==> w.history[w.jobs[i]].quiesced.Some?))
  }

  lemma WriteKeepsInv(w: World, w': World)
    requires Inv(w) && Write(w, w')
    ensures Inv(w')
  {
    var c, b := Last(w), Last(w');
    assert Sound(c) && Sound(b) && Evolves(c, b);
    forall i | 0 <= i < |w'.history| ensures Sound(w'.history[i]) && Evolves(w'.history[i], b) {
      if i < |w.history| {
        assert w'.history[i] == w.history[i];
      }
    }
    forall i | 0 <= i < |w.sends| ensures ToTheRecordedPod(w', w.sends[i]) {
      assert w'.history[w.sends[i].version] == w.history[w.sends[i].version];
    }
    forall i | 0 <= i < |w.jobs| ensures w'.history[w.jobs[i]] == w.history[w.jobs[i]] {
    }
  }

  lemma EnvironmentKeepsInv(w: World, w': World)
    requires Inv(w) && Environment(w, w')
    ensures Inv(w')
  {
    forall i | 0 <= i < |w'.history| ensures Sound(w'.history[i]) && Evolves(w'.history[i], Last(w')) {
      if i < |w.history| {
        assert w'.history[i] == w.history[i];
      }
    }
    forall i | 0 <= i < |w.sends| ensures ToTheRecordedPod(w', w.sends[i]) {
      assert w'.history[w.sends[i].version] == w.history[w.sends[i].version];
    }
  }

  lemma SendKeepsInv(w: World, w': World, s: Send)
    requires Inv(w) && ToTheRecordedPod(w, s)
    requires w'.sends == w.sends + [s] && w' == w.(armed := w'.armed, sends := w'.sends)
    requires s.kind == Before ==> CountBefore(w.sends) == 0 && w'.armed.None?
    requires s.kind == After ==> w'.armed == w.armed
    ensures Inv(w')
  {
    assert w'.sends[..|w.sends|] == w.sends;
    forall i | 0 <= i < |w'.sends| ensures ToTheRecordedPod(w', w'.sends[i]) {
      assert ToTheRecordedPod(w, w'.sends[i]);
    }
  }

  lemma JobKeepsInv(w: World, w': World, version: nat)
    requires Inv(w) && CreateJob(w, w', version)
    ensures Inv(w')
  {
    forall i | 0 <= i < |w.sends| ensures ToTheRecordedPod(w', w.sends[i]) {
      assert ToTheRecordedPod(w, w.sends[i]);
    }
  }

  lemma ForgetKeepsInv(w: World, w': World)
    requires Inv(w) && Forget(w, w')
    ensures Inv(w')
  {
    forall i | 0 <= i < |w.sends| ensures ToTheRecordedPod(w', w.sends[i]) {
      assert ToTheRecordedPod(w, w.sends[i]);
    }
  }

  lemma StepKeepsInv(w: World, w': World)
    requires Inv(w) && Step(w, w')
    ensures Inv(w')
  {
    if Environment(w, w') {
      EnvironmentKeepsInv(w, w');
    } else if Write(w, w') {
      WriteKeepsInv(w, w');
    } else if Forget(w, w') {
      ForgetKeepsInv(w, w');
    } else if s :| SendBefore(w, w', s) || SendAfter(w, w', s) {
      SendKeepsInv(w, w', s);
    } else {
      var version: nat :| CreateJob(w, w', version);
      JobKeepsInv(w, w', version);
    }
  }

  lemma {:induction false} RunKeepsInv(run: seq<World>, k: nat)
    requires IsRun(run) && k < |run|
    ensures Inv(run[k])
  {
    if k > 0 {
      RunKeepsInv(run, k - 1);
      StepKeepsInv(run[k - 1], run[k]);
    }
  }

  // ---- the properties --------------------------------------------------------------------------

  // However reads go stale, writes conflict and the operator dies, Before is started at most once.
  lemma BeforeAtMostOnce(run: seq<World>, k: nat)
    requires IsRun(run) && k < |run|
    ensures CountBefore(run[k].sends) <= 1
  {
    RunKeepsInv(run, k);
  }

  // Any two started sends of one backup go to the same Pod, and the Pod was on record, with
  // beforeSentAt, in a version persisted before the send.
  lemma SendsGoToTheRecordedPod(run: seq<World>, k: nat, i: nat, j: nat)
    requires IsRun(run) && k < |run|
    requires i < |run[k].sends| && j < |run[k].sends|
    ensures run[k].sends[i].uid == run[k].sends[j].uid
    ensures Recorded(Last(run[k])) && Last(run[k]).quiesce.value.podUID == run[k].sends[i].uid
  {
    RunKeepsInv(run, k);
    var w := run[k];
    assert ToTheRecordedPod(w, w.sends[i]) && ToTheRecordedPod(w, w.sends[j]);
    assert Evolves(w.history[w.sends[i].version], Last(w)) && Evolves(w.history[w.sends[j].version], Last(w));
  }

  lemma {:induction false} HistoryGrows(run: seq<World>, i: nat, j: nat)
    requires IsRun(run) && i <= j < |run|
    ensures run[i].history <= run[j].history
    decreases j
  {
    if i < j {
      HistoryGrows(run, i, j - 1);
      assert Step(run[j - 1], run[j]);
    }
  }

  // Before never starts once a resume is on record.
  lemma NoPauseAfterTheResume(run: seq<World>, k: nat, s: Send, v: nat)
    requires IsRun(run) && k + 1 < |run| && v < |run[k].history|
    requires run[k + 1].sends == run[k].sends + [s] && s.kind == Before
    ensures !Resumed(run[k].history[v])
  {
    RunKeepsInv(run, k);
    var w, w' := run[k], run[k + 1];
    assert Step(w, w');
    assert w'.sends[|w.sends|] == s;
    assert Evolves(w.history[v], Last(w));
  }

  // Record, then send: the version a send relies on is in the history of the state before the send.
  lemma RecordedBeforeSent(run: seq<World>, k: nat, s: Send)
    requires IsRun(run) && k + 1 < |run|
    requires run[k + 1].sends == run[k].sends + [s]
    ensures ToTheRecordedPod(run[k], s)
  {
    RunKeepsInv(run, k);
    var w, w' := run[k], run[k + 1];
    assert Step(w, w');
    assert w'.sends[|w.sends|] == s;
  }

  // The finalizer is off a deleted backup only when nothing is left paused.
  lemma NoLeakedPause(run: seq<World>, k: nat)
    requires IsRun(run) && k < |run|
    requires run[k].gone || !Last(run[k]).finalizer
    ensures !Recorded(Last(run[k])) || Last(run[k]).quiesce.value.resumedAt.Some?
  {
    RunKeepsInv(run, k);
    assert Sound(Last(run[k]));
  }

  lemma AttemptsAreBounded(run: seq<World>, k: nat, i: nat)
    requires IsRun(run) && k < |run| && i < |run[k].history|
    ensures Recorded(run[k].history[i]) ==> run[k].history[i].quiesce.value.resumeAttempts <= RESUME_MAX_ATTEMPTS
  {
    RunKeepsInv(run, k);
    assert Sound(run[k].history[i]);
  }

  // Once Before is on record, no Job is created before the wait is decided.
  lemma JobsWaitForTheDecision(run: seq<World>, k: nat, i: nat)
    requires IsRun(run) && k < |run| && i < |run[k].jobs|
    ensures run[k].jobs[i] < |run[k].history|
    ensures Recorded(run[k].history[run[k].jobs[i]]) ==> Last(run[k]).quiesced.Some?
  {
    RunKeepsInv(run, k);
    assert Evolves(run[k].history[run[k].jobs[i]], Last(run[k]));
  }
}
