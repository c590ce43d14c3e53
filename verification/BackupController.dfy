/**
 The backup controller's code around the world-save pause: the phase machine, the bounded wait, the
 Before and After commands, and the finalizer. Every API call may fail, may take effect although its
 answer is lost, and lets other writers act first, so a call that fails also stands for an operator
 that dies there. Reads of the backup return any version that ever existed; what else a reconcile reads
 comes in as its answers. In a quiet cluster nobody interferes and no call fails.

 The methods follow the controller branch by branch. They promise what they make of the backup, what they
 send and what they create, and that the states they leave behind form a run of BackupProtocol, whose
 lemmas then apply.
 */
module BackupController {
  import opened Clock
  import opened Wrappers

  import opened BackupPhases
  import opened BackupProtocol

  const QUIESCE_POLL_INTERVAL := 3 * SECOND
  const RESUME_RETRY_STEP := 10 * SECOND
  const BACKUP_JOB_POLL_INTERVAL := 5 * SECOND
  const MAX_RETENTION_WAIT := 3600 * SECOND

  datatype Hooks = Hooks(
    before: seq<string>, after: seq<string>, savedRegex: string,
    timeoutSeconds: Option<int>, delaySeconds: Option<int>)
  {
    function Timeout(): int {
      if timeoutSeconds.None? then 60 * SECOND else timeoutSeconds.value * SECOND
    }

    function DelayTime(): int {
      if delaySeconds.None? then 10 * SECOND else delaySeconds.value * SECOND
    }
  }

  const NO_HOOKS := Hooks([], [], "", None, None)

  // ---- the bounded wait ------------------------------------------------------------------------

  datatype Wait = Over(reason: Reason) | Again(wait: int)

  function Deadline(h: Hooks, sentAt: int): int {
    sentAt + (if h.savedRegex != "" then h.Timeout() else h.DelayTime())
  }

  function QuiesceWait(h: Hooks, sentAt: int, now: int, matched: bool): Wait {
    if h.savedRegex != "" then
      if matched then Over(Saved)
      else
        var deadline := sentAt + h.Timeout();
        if !(now < deadline) then Over(Timeout)
        else Again(if QUIESCE_POLL_INTERVAL < deadline - now then QUIESCE_POLL_INTERVAL else deadline - now)
    else
      var deadline := sentAt + h.DelayTime();
      if !(now < deadline) then Over(Delay) else Again(deadline - now)
  }

  // The wait goes on exactly while the deadline is ahead and no save was seen, and no nap passes the
  // deadline. Saved is reported for a match only, and Timeout only without one.
  lemma WaitEndsExactlyAtTheDeadline(h: Hooks, sentAt: int, now: int, matched: bool)
    ensures
      var r, saved := QuiesceWait(h, sentAt, now, matched), h.savedRegex != "" && matched;
      && (r.Again? <==> now < Deadline(h, sentAt) && !saved)
      && (r.Again? ==> 0 < r.wait && now + r.wait <= Deadline(h, sentAt))
      && (r.Over? ==> (r.reason == Saved <==> saved) && (r.reason == Timeout <==> h.savedRegex != "" && !matched))
  {
  }

  // The times at which a save that never shows up is looked for, when every nap is as long as asked.
  function PollTimes(h: Hooks, sentAt: int, now: int): (times: seq<int>)
    decreases Deadline(h, sentAt) - now
  {
    match QuiesceWait(h, sentAt, now, false)
    case Over(_) => [now]
    case Again(wait) => [now] + PollTimes(h, sentAt, now + wait)
  }

  // The last look is at the deadline itself, and there are as few looks as a nap of at most the poll
  // interval allows: one per interval begun, and the last one.
  lemma {:induction false} PollsAreBounded(h: Hooks, sentAt: int, now: int)
    requires h.savedRegex != "" && now <= Deadline(h, sentAt)
    ensures
      var times := PollTimes(h, sentAt, now);
      && times[|times| - 1] == Deadline(h, sentAt)
      && (|times| - 2) * QUIESCE_POLL_INTERVAL < Deadline(h, sentAt) - now <= (|times| - 1) * QUIESCE_POLL_INTERVAL
    decreases Deadline(h, sentAt) - now
  {
    var r := QuiesceWait(h, sentAt, now, false);
    if r.Again? {
      PollsAreBounded(h, sentAt, now + r.wait);
      var rest := PollTimes(h, sentAt, now + r.wait);
      assert PollTimes(h, sentAt, now) == [now] + rest;
      if now + r.wait == Deadline(h, sentAt) {
        assert rest == [now + r.wait];
      }
    } else {
      assert PollTimes(h, sentAt, now) == [now];
    }
  }

  // ---- who gets After --------------------------------------------------------------------------

  datatype ResumeAction = ResumeNone | ResumeSkip | ResumeSend

  function ResumeDecision(q: Option<Quiesce>, h: Option<Hooks>, currentPodUID: UID): ResumeAction {
    if q.None? || q.value.beforeSentAt.None? || q.value.resumedAt.Some? then ResumeNone
    else if h.None? || h.value.after == [] || currentPodUID == "" || currentPodUID != q.value.podUID then ResumeSkip
    else ResumeSend
  }

  // ---- the cluster as the controller sees it ---------------------------------------------------

  datatype Read<T> = Found(value: T) | NotFound | ReadError

  datatype ContainerStatus = ContainerStatus(name: string, running: bool)

  datatype Pod = Pod(uid: UID, deleting: bool, containers: seq<ContainerStatus>)

  datatype GameServer = GameServer(podName: string)

  datatype JobStatus = JobStatus(succeeded: int, failed: int, finished: bool)

  datatype Result = Ok(requeueAfter: int) | Error

  const SERVER_CONTAINER := "server"

  // What the reads behind gameTarget bring back. The Egg and the Pod are read only for a server, the
  // Pod only when the server has one.
  datatype TargetFound = TargetFound(server: Read<GameServer>, egg: Read<Option<Hooks>>, pod: Read<Pod>) {
    predicate Fails() {
      server.ReadError? || (server.Found? && (egg.ReadError? || (server.value.podName != "" && pod.ReadError?)))
    }

    function Hooks(): Option<Hooks> {
      if server.Found? && egg.Found? then egg.value else None
    }

    function RunningPod(): Option<Pod> {
      if server.Found? && server.value.podName != "" && pod.Found? && !pod.value.deleting
         && ContainerStatus(SERVER_CONTAINER, true) in pod.value.containers
      then Some(pod.value) else None
    }
  }

  // What one reconcile gets to see: the reads, the clock when Before is recorded and when it is looked
  // for the save, how many commands the console takes before one fails, whether the save shows in its
  // log, the Jobs, and the time that is left of a valid expiry.
  datatype Answers = Answers(
    target: TargetFound, sentAt: int, now: int, taken: nat, logged: bool, volume: Read<()>,
    job: Read<JobStatus>, cleanup: Read<JobStatus>, cleanupMade: bool, remaining: Option<int>)
  {
    function Hooks(): Option<Hooks> {
      target.Hooks()
    }

    function Pod(): Option<Pod> {
      target.RunningPod()
    }

    function UID(): UID {
      if Pod().Some? then Pod().value.uid else ""
    }

    predicate Finds(uid: UID) {
      Pod().Some? && Pod().value.uid == uid
    }

    predicate Takes(commands: seq<string>) {
      |commands| <= taken
    }

    predicate SomethingToSend() {
      Hooks().Some? && Hooks().value.after != []
    }
  }

  // ---- what a reconcile makes of a backup ------------------------------------------------------

  // The backup it leaves, whether this part of the work is over, and when to come back.
  datatype Next = Next(b: Backup, over: bool, wait: int)

  predicate NothingToPause(b: Backup, a: Answers) {
    !Recorded(b) && (a.Hooks().None? || a.Hooks().value.before == [] || a.Pod().None?)
  }

  // The pause on record: the one of an earlier reconcile, or a new one.
  function PauseOf(b: Backup, a: Answers): (q: Quiesce)
    requires !NothingToPause(b, a)
    ensures q.beforeSentAt.Some?
  {
    if Recorded(b) then b.quiesce.value else Quiesce(a.Pod().value.uid, Some(a.sentAt), None, 0)
  }

  predicate SaveShows(logs: bool, hooks: Hooks, uid: UID, a: Answers) {
    hooks.savedRegex != "" && a.Finds(uid) && logs && a.logged
  }

  // The pause before the Job.
  function Paused(exec: bool, logs: bool, b: Backup, a: Answers): Next {
    if !exec || b.quiesced.Some? || NothingToPause(b, a) then Next(b, true, 0)
    else
      var q := PauseOf(b, a);
      var c := b.(quiesce := Some(q));
      var hooks := if a.Hooks().Some? then a.Hooks().value else NO_HOOKS;
      if !Recorded(b) && !a.Takes(hooks.before) then Next(c.(quiesced := Some(Condition(false, SendFailed))), true, 0)
      else
        match QuiesceWait(hooks, q.beforeSentAt.value, a.now, SaveShows(logs, hooks, q.podUID, a))
        case Again(wait) => Next(c, false, wait)
        case Over(reason) => Next(c.(quiesced := Some(Condition(reason != Timeout, reason))), true, 0)
  }

  // When there is no more to wait for, a recorded pause is decided.
  lemma PauseIsDecided(exec: bool, logs: bool, b: Backup, a: Answers)
    requires Paused(exec, logs, b, a).over && (exec || !Recorded(b))
    ensures Recorded(Paused(exec, logs, b, a).b) ==> Paused(exec, logs, b, a).b.quiesced.Some?
  {
  }

  // The After step is over without a send.
  function Closed(b: Backup, now: int, reason: Reason): Backup
    requires Recorded(b)
  {
    b.(quiesce := Some(b.quiesce.value.(resumedAt := Some(now))), resumed := Some(Condition(true, reason)))
  }

  // The After commands have been sent, or one of them failed: then once more, five times in all.
  function AfterSend(b: Backup, now: int, sent: bool): Next
    requires Recorded(b)
  {
    var q := b.quiesce.value;
    var over, attempts := q.(resumedAt := Some(now)), q.resumeAttempts + 1;
    if sent then Next(b.(quiesce := Some(over), resumed := Some(Condition(true, Sent))), true, 0)
    else if attempts < RESUME_MAX_ATTEMPTS then
      Next(b.(quiesce := Some(q.(resumeAttempts := attempts))), false, attempts * RESUME_RETRY_STEP)
    else
      Next(b.(quiesce := Some(over.(resumeAttempts := attempts)), resumed := Some(Condition(false, SendFailed))),
           true, 0)
  }

  // The After step.
  function AfterResume(exec: bool, b: Backup, a: Answers): Next {
    if !exec || !Recorded(b) || Resumed(b) then Next(b, true, 0)
    else
      match ResumeDecision(b.quiesce, a.Hooks(), a.UID())
      case ResumeNone => Next(b, true, 0)
      case ResumeSkip => Next(Closed(b, a.now, if a.SomethingToSend() then PodReplaced else NothingToSend), true, 0)
      case ResumeSend => AfterSend(b, a.now, a.Takes(a.Hooks().value.after))
  }

  // Resumes that stay pending have all found the paused Pod, wait longer each time, and are fewer than
  // the attempts that are left: the After step ends.
  lemma {:induction false} RetriesEnd(bs: seq<Backup>, seen: seq<Answers>, waits: seq<int>)
    requires |bs| == |seen| + 1 && |waits| == |seen|
    requires Recorded(bs[0]) && !Resumed(bs[0]) && bs[0].quiesce.value.resumeAttempts < RESUME_MAX_ATTEMPTS
    requires forall i {:trigger seen[i]} :: 0 <= i < |seen| ==>
               AfterResume(true, bs[i], seen[i]) == Next(bs[i + 1], false, waits[i])
    ensures
      var q, n := bs[0].quiesce.value, |seen|;
      && q.resumeAttempts + n < RESUME_MAX_ATTEMPTS
      && bs[n] == bs[0].(quiesce := Some(q.(resumeAttempts := q.resumeAttempts + n)))
      && forall i {:trigger seen[i]} :: 0 <= i < n ==>
           && seen[i].Finds(q.podUID) && seen[i].SomethingToSend()
           && waits[i] == (q.resumeAttempts + i + 1) * RESUME_RETRY_STEP
  {
    if seen != [] {
      var n := |seen| - 1;
      RetriesEnd(bs[..n + 1], seen[..n], waits[..n]);
      assert AfterResume(true, bs[n], seen[n]) == Next(bs[n + 1], false, waits[n]);
    }
  }

  // What is on record after a last resume.
  predicate Tells(uid: UID, a: Answers, b: Backup) {
    var sends := a.SomethingToSend() && a.Finds(uid);
    && Recorded(b) && b.quiesce.value.podUID == uid && b.quiesce.value.resumedAt == Some(a.now)
    && (b.resumed == Some(Condition(true, Sent)) <==> sends && a.Takes(a.Hooks().value.after))
    && (b.resumed == Some(Condition(false, SendFailed)) <==> sends && !a.Takes(a.Hooks().value.after))
    && (b.resumed == Some(Condition(true, PodReplaced)) <==> a.SomethingToSend() && !a.Finds(uid))
    && (b.resumed == Some(Condition(true, NothingToSend)) <==> !a.SomethingToSend())
  }

  lemma TheLastResumeTells(b: Backup, a: Answers)
    requires Recorded(b) && !Resumed(b) && b.quiesce.value.podUID != "" && AfterResume(true, b, a).over
    ensures Tells(b.quiesce.value.podUID, a, AfterResume(true, b, a).b)
    ensures AfterResume(true, b, a).b.resumed == Some(Condition(false, SendFailed)) ==>
              b.quiesce.value.resumeAttempts >= RESUME_MAX_ATTEMPTS - 1
  {
  }

  // From the pause of a Pod's world to the end of its After step, over any number of resumes that stay
  // pending: what is on record in the end tells whether the Pod that was paused got the After commands, is
  // no longer there, got nothing because there was nothing to send, or failed to take them five times.
  lemma TheAfterStepIsOnRecord(logs: bool, b: Backup, s: Answers, bs: seq<Backup>, seen: seq<Answers>, waits: seq<int>,
                               last: Answers, b': Backup)
    requires !Recorded(b) && Recorded(Paused(true, logs, b, s).b) && s.UID() != ""
    requires |bs| == |seen| + 1 && |waits| == |seen| && bs[0].quiesce == Paused(true, logs, b, s).b.quiesce
    requires forall i {:trigger seen[i]} :: 0 <= i < |seen| ==>
               AfterResume(true, bs[i], seen[i]) == Next(bs[i + 1], false, waits[i])
    requires AfterResume(true, bs[|seen|], last) == Next(b', true, 0)
    ensures Tells(s.UID(), last, b')
    ensures forall i {:trigger seen[i]} :: 0 <= i < |seen| ==> seen[i].Finds(s.UID())
    ensures b'.resumed == Some(Condition(false, SendFailed)) ==> |seen| == RESUME_MAX_ATTEMPTS - 1
  {
    RetriesEnd(bs, seen, waits);
    TheLastResumeTells(bs[|seen|], last);
  }

  // The pause, and once it is decided the Job, or no volume.
  function Started(exec: bool, logs: bool, b: Backup, a: Answers): Next {
    var n := Paused(exec, logs, b, a);
    if !n.over then n
    else if a.volume.NotFound? then Next(n.b.(phase := Failed), true, 0)
    else Next(n.b.(phase := Running), true, BACKUP_JOB_POLL_INTERVAL)
  }

  predicate JobIsOver(status: JobStatus) {
    status.succeeded > 0 || (status.failed > 0 && status.finished)
  }

  // A vanished Job is a failed one.
  function Polled(b: Backup, job: Read<JobStatus>): Next {
    match job
    case Found(status) =>
      if JobIsOver(status) then Next(b.(phase := if status.succeeded > 0 then Completed else Failed), true, 0)
      else Next(b, false, BACKUP_JOB_POLL_INTERVAL)
    case _ => Next(b.(phase := Failed), true, 0)
  }

  // The finalizer goes once the clean-up Job is over, or none is needed.
  function Pruned(b: Backup, a: Answers): Next {
    if b.phase != Completed && b.phase != Deleting then Next(b.(finalizer := false), true, 0)
    else
      match a.cleanup
      case Found(status) =>
        if JobIsOver(status) then Next(b.(finalizer := false), true, 0)
        else Next(b, false, BACKUP_JOB_POLL_INTERVAL)
      case _ => Next(b.(phase := Deleting), false, BACKUP_JOB_POLL_INTERVAL)
  }

  // The After step comes first.
  function Deleted(exec: bool, b: Backup, a: Answers): Next {
    var n := AfterResume(exec, b, a);
    if n.over then Pruned(n.b, a) else n
  }

  predicate Expired(a: Answers) {
    a.remaining.Some? && a.remaining.value <= 0
  }

  function RetentionWait(a: Answers): int {
    if a.remaining.None? || Expired(a) then 0
    else if a.remaining.value + SECOND < MAX_RETENTION_WAIT then a.remaining.value + SECOND
    else MAX_RETENTION_WAIT
  }

  // Completed or failed: the After step, and then the retention.
  function Finished(exec: bool, b: Backup, a: Answers): Next {
    var n := AfterResume(exec, b, a);
    if n.over then n.(wait := RetentionWait(a)) else n
  }

  datatype Work = Deletion | Finalizer | Start | Poll | Finish

  function WorkOn(b: Backup): Work {
    if b.deleting then Deletion
    else if !b.finalizer then Finalizer
    else if b.phase == Unset || b.phase == Pending then Start
    else if b.phase == Running then Poll
    else Finish
  }

  // What a reconcile leaves of the backup it read, when no call fails.
  function Reconciled(exec: bool, logs: bool, b: Backup, a: Answers): Next {
    match WorkOn(b)
    case Deletion => if b.finalizer then Deleted(exec, b, a) else Next(b, true, 0)
    case Finalizer => Next(b.(finalizer := true), true, 0)
    case Start => Started(exec, logs, b, a)
    case Poll => Polled(b, a.job)
    case Finish => Finished(exec, b, a)
  }

  // ---- what it sends and creates ---------------------------------------------------------------

  // Commands for the console of one Pod.
  datatype Batch = Batch(kind: Kind, uid: UID, commands: seq<string>)

  function PauseBatch(exec: bool, b: Backup, a: Answers): Option<Batch> {
    if !exec || b.quiesced.Some? || Recorded(b) || NothingToPause(b, a) then None
    else Some(Batch(Before, a.UID(), a.Hooks().value.before))
  }

  function ResumeBatch(exec: bool, b: Backup, a: Answers): Option<Batch> {
    if exec && ResumeDecision(b.quiesce, a.Hooks(), a.UID()).ResumeSend? then
      Some(Batch(After, b.quiesce.value.podUID, a.Hooks().value.after))
    else None
  }

  function BatchOf(exec: bool, b: Backup, a: Answers): Option<Batch> {
    match WorkOn(b)
    case Start => PauseBatch(exec, b, a)
    case Deletion => if b.finalizer then ResumeBatch(exec, b, a) else None
    case Finish => ResumeBatch(exec, b, a)
    case _ => None
  }

  function JobsOf(exec: bool, logs: bool, b: Backup, a: Answers): nat {
    if WorkOn(b) == Start && Paused(exec, logs, b, a).over && a.volume.Found? then 1 else 0
  }

  // One line handed to the console of a Pod.
  datatype Line = Line(uid: UID, command: string)

  // The commands in order, up to the first that fails.
  function Lines(uid: UID, commands: seq<string>, taken: nat): seq<Line> {
    seq(if taken < |commands| then taken + 1 else |commands|, i requires 0 <= i < |commands| => Line(uid, commands[i]))
  }

  // The batch is sent to its Pod, command by command, and nothing else is.
  predicate Sends(batch: Option<Batch>, taken: nat, sends: seq<Send>, sends': seq<Send>, console: seq<Line>,
                  console': seq<Line>) {
    match batch
    case None => sends' == sends && console' == console
    case Some(x) =>
      && |sends'| == |sends| + 1 && sends <= sends'
      && sends'[|sends|].kind == x.kind && sends'[|sends|].uid == x.uid
      && console' == console + Lines(x.uid, x.commands, taken)
  }

  // The reads that its work needs do not all succeed.
  predicate ReadsFail(exec: bool, logs: bool, b: Backup, a: Answers) {
    match WorkOn(b)
    case Start => PauseReadsFail(exec, b, a) || (Paused(exec, logs, b, a).over && a.volume.ReadError?)
    case Poll => a.job.ReadError?
    case Deletion =>
      && b.finalizer
      && (ResumeReadsFail(exec, b, a) || (AfterResume(exec, b, a).over && PruneFails(AfterResume(exec, b, a).b, a)))
    case Finish => ResumeReadsFail(exec, b, a)
    case Finalizer => false
  }

  predicate PauseReadsFail(exec: bool, b: Backup, a: Answers) {
    exec && b.quiesced.None? && a.target.Fails()
  }

  predicate ResumeReadsFail(exec: bool, b: Backup, a: Answers) {
    exec && Recorded(b) && !Resumed(b) && a.target.Fails()
  }

  predicate PruneFails(b: Backup, a: Answers) {
    && (b.phase == Completed || b.phase == Deleting)
    && (a.cleanup.ReadError? || (a.cleanup.NotFound? && !a.cleanupMade))
  }

  // How a reconcile ends that read b, when it reports no error.
  predicate Comes(exec: bool, logs: bool, b: Backup, a: Answers, b': Backup, wait: int) {
    var n := Reconciled(exec, logs, b, a);
    b' == n.b && wait == n.wait
  }

  // What it has sent and created by then.
  predicate Does(exec: bool, logs: bool, b: Backup, a: Answers, w: World, w': World, console: seq<Line>,
                 console': seq<Line>) {
    && Sends(BatchOf(exec, b, a), a.taken, w.sends, w'.sends, console, console')
    && |w'.jobs| == |w.jobs| + JobsOf(exec, logs, b, a) && w.jobs <= w'.jobs
  }

  // The retention marks what the reconcile left for deletion.
  function AfterRetention(exec: bool, b: Backup, a: Answers, left: Backup): Backup {
    if WorkOn(b) == Finish && AfterResume(exec, b, a).over && Expired(a) then left.(deleting := true) else left
  }

  // Of a backup that is over, with its pause open: each reconcile resolves the pause, or puts one more
  // attempt on record and comes back. With the paused Pod there and something to send, it sends exactly
  // the After commands to it; otherwise nothing, and the pause is resolved.
  lemma FinishedBackupsTryToResume(logs: bool, b: Backup, a: Answers)
    requires WorkOn(b) == Finish && Recorded(b) && !Resumed(b) && b.quiesce.value.podUID != ""
    ensures
      var n, q := Reconciled(true, logs, b, a), b.quiesce.value;
      && WorkOn(n.b) == Finish
      && (if n.over then Resumed(n.b) && Tells(q.podUID, a, n.b)
          else n.b.quiesce == Some(q.(resumeAttempts := q.resumeAttempts + 1)) && n.wait > 0)
      && if a.SomethingToSend() && a.Finds(q.podUID) then
           BatchOf(true, b, a) == Some(Batch(After, q.podUID, a.Hooks().value.after))
         else n.over && BatchOf(true, b, a).None?
  {
    if AfterResume(true, b, a).over {
      TheLastResumeTells(b, a);
    }
  }

  // So after as many reconciles as attempts are left, its pause is resolved.
  lemma {:induction false} FinishedBackupsAreResumed(logs: bool, bs: seq<Backup>, seen: seq<Answers>)
    requires |bs| == |seen| + 1 && WorkOn(bs[0]) == Finish && Recorded(bs[0]) && bs[0].quiesce.value.podUID != ""
    requires forall i {:trigger seen[i]} :: 0 <= i < |seen| ==> bs[i + 1] == Reconciled(true, logs, bs[i], seen[i]).b
    ensures
      var b, b' := bs[0], bs[|seen|];
      && WorkOn(b') == Finish && Recorded(b') && b'.quiesce.value.podUID == b.quiesce.value.podUID
      && (Resumed(b') || b'.quiesce.value.resumeAttempts == b.quiesce.value.resumeAttempts + |seen|)
      && (b.quiesce.value.resumeAttempts + |seen| >= RESUME_MAX_ATTEMPTS && seen != [] ==> Resumed(b'))
  {
    if seen != [] {
      var n := |seen| - 1;
      FinishedBackupsAreResumed(logs, bs[..n + 1], seen[..n]);
      assert bs[n + 1] == Reconciled(true, logs, bs[n], seen[n]).b;
      if !Resumed(bs[n]) {
        FinishedBackupsTryToResume(logs, bs[n], seen[n]);
      }
    }
  }

  // ---- the API server --------------------------------------------------------------------------

  // The controller's copy of the object. It is edited in place and then written.
  class BackupObject {
    var version: nat
    var obj: Backup

    constructor (version: nat, obj: Backup)
      ensures this.version == version && this.obj == obj
    {
      this.version := version;
      this.obj := obj;
    }
  }

  ghost predicate NeverRecorded(w: World) {
    forall i :: 0 <= i < |w.history| ==> !Recorded(w.history[i])
  }

  class Cluster {
    const quiet: bool // nobody else acts, and no call fails
    var w: World
    ghost var run: seq<World>

    ghost predicate Valid()
      reads this
    {
      IsRun(run) && run[|run| - 1] == w
    }

    // The copy is one of the persisted versions.
    ghost predicate Holds(bkp: BackupObject)
      reads this, bkp
    {
      bkp.version < |w.history| && w.history[bkp.version] == bkp.obj
    }

    // It is the last one, and writes will get through.
    ghost predicate Calm(bkp: BackupObject)
      reads this, bkp
    {
      quiet && !w.gone && Holds(bkp) && bkp.version == |w.history| - 1
    }

    constructor (finalizer: bool, quiet: bool)
      ensures Valid() && NeverRecorded(w) && this.quiet == quiet
    {
      this.quiet := quiet;
      w := World([Backup(false, finalizer, Unset, None, None, None)], false, None, [], []);
      run := [w];
    }

    // A copy that is still to be resumed has an attempt left.
    lemma AttemptLeft(bkp: BackupObject)
      requires Valid() && Holds(bkp) && Recorded(bkp.obj) && !Resumed(bkp.obj)
      ensures bkp.obj.quiesce.value.resumeAttempts < RESUME_MAX_ATTEMPTS
    {
      RunKeepsInv(run, |run| - 1);
      assert Sound(w.history[bkp.version]);
    }

    // Whether a call that may fail does.
    method Fails() returns (fails: bool)
      ensures quiet ==> !fails
    {
      fails := *;
      fails := fails && !quiet;
    }

    method Take(next: World)
      requires Valid() && next.history != [] && Step(w, next)
      modifies this
      ensures Valid() && w == next && run == old(run) + [next]
    {
      w := next;
      run := run + [next];
    }

    // Everybody else, any number of times.
    method Others()
      requires Valid()
      modifies this
      ensures Valid() && old(w.history) <= w.history && w.armed == old(w.armed) && (quiet ==> w == old(w))
      ensures old(NeverRecorded(w)) ==> NeverRecorded(w)
      ensures old(run) <= run && w.sends == old(w.sends) && w.jobs == old(w.jobs)
    {
      var steps: nat := *;
      while steps > 0 && !quiet
        invariant Valid() && old(w.history) <= w.history && w.armed == old(w.armed) && (quiet ==> w == old(w))
        invariant old(NeverRecorded(w)) ==> NeverRecorded(w)
        invariant old(run) <= run && w.sends == old(w.sends) && w.jobs == old(w.jobs)
      {
        var delete: bool := *;
        if !w.gone {
          if !delete {
            Take(w.(history := w.history + [Last(w)]));
          } else if Last(w).finalizer {
            Take(w.(history := w.history + [Last(w).(deleting := true)]));
          } else {
            Take(w.(gone := true));
          }
        }
        steps := steps - 1;
      }
    }

    method Get() returns (bkp: BackupObject?, err: bool)
      requires Valid()
      modifies this
      ensures Valid() && old(run) <= run && w.sends == old(w.sends) && w.jobs == old(w.jobs)
      ensures old(NeverRecorded(w)) ==> NeverRecorded(w)
      ensures bkp != null ==> fresh(bkp) && Holds(bkp) && !err
      ensures quiet ==> !err && w == old(w) && if w.gone then bkp == null else bkp != null && Calm(bkp)
    {
      Others();
      err := Fails();
      if err {
        return null, true;
      }
      var found: bool := *;
      var version: int := *;
      if quiet {
        found, version := !w.gone, |w.history| - 1;
      }
      if !found || version < 0 || version >= |w.history| {
        return null, false;
      }
      bkp := new BackupObject(version, w.history[version]);
    }

    method UpdateStatus(bkp: BackupObject) returns (ok: bool)
      requires Valid() && bkp.version < |w.history|
      requires StatusWrite(w.history[bkp.version], bkp.obj)
      modifies this, bkp
      ensures Valid() && old(run) <= run && bkp.obj == old(bkp.obj) && w.sends == old(w.sends) && w.jobs == old(w.jobs)
      ensures ok ==> Holds(bkp)
      ensures ok && old(RecordsBefore(w.history[bkp.version], bkp.obj)) ==>
                w.armed == Some(bkp.version)
      ensures old(NeverRecorded(w)) && !Recorded(bkp.obj) ==> NeverRecorded(w)
      ensures quiet && old(!w.gone && bkp.version == |w.history| - 1) ==> ok && (bkp.obj.finalizer ==> Calm(bkp))
    {
      Others();
      var lost := Fails();
      if lost || w.gone || bkp.version != |w.history| - 1 {
        return false;
      }
      var unanswered := Fails();
      ok := !unanswered;
      var c, b := Last(w), bkp.obj;
      var armed := if ok && RecordsBefore(c, b) then Some(|w.history|) else None;
      var next := w.(history := w.history + [b], gone := b.deleting && !b.finalizer, armed := armed);
      assert Write(w, next);
      Take(next);
      if ok {
        bkp.version := |w.history| - 1;
      }
    }

    method UpdateMeta(bkp: BackupObject) returns (ok: bool)
      requires Valid() && bkp.version < |w.history|
      requires MetaWrite(w.history[bkp.version], bkp.obj)
      modifies this, bkp
      ensures Valid() && old(run) <= run && bkp.obj == old(bkp.obj) && w.sends == old(w.sends) && w.jobs == old(w.jobs)
      ensures ok ==> Holds(bkp)
      ensures old(NeverRecorded(w)) && !Recorded(bkp.obj) ==> NeverRecorded(w)
      ensures quiet && old(!w.gone && bkp.version == |w.history| - 1) ==> ok && bkp.version == |w.history| - 1
    {
      Others();
      var lost := Fails();
      if lost || w.gone || bkp.version != |w.history| - 1 {
        return false;
      }
      var unanswered := Fails();
      ok := !unanswered;
      var next := w.(history := w.history + [bkp.obj], gone := bkp.obj.deleting && !bkp.obj.finalizer, armed := None);
      assert Write(w, next);
      Take(next);
      if ok {
        bkp.version := |w.history| - 1;
      }
    }

    // Before the first command of either kind is handed to the console of a Pod.
    method StartSend(kind: Kind, bkp: BackupObject, pod: Pod)
      requires Valid() && Holds(bkp) && Recorded(bkp.obj) && pod.uid == bkp.obj.quiesce.value.podUID
      requires if kind == Before then w.armed == Some(bkp.version) else !Resumed(bkp.obj)
      modifies this
      ensures Valid() && old(run) <= run && Holds(bkp) && (old(Calm(bkp)) ==> Calm(bkp))
      ensures w.sends == old(w.sends) + [Send(kind, pod.uid, bkp.version)] && w.jobs == old(w.jobs)
    {
      Others();
      var s := Send(kind, pod.uid, bkp.version);
      if kind == Before {
        var next := w.(armed := None, sends := w.sends + [s]);
        assert SendBefore(w, next, s);
        Take(next);
      } else {
        var next := w.(sends := w.sends + [s]);
        assert BackupProtocol.SendAfter(w, next, s);
        Take(next);
      }
    }

    method CreateBackupJob(bkp: BackupObject) returns (ok: bool)
      requires Valid() && Holds(bkp)
      requires Recorded(bkp.obj) ==> bkp.obj.quiesced.Some?
      modifies this
      ensures Valid() && old(run) <= run && Holds(bkp) && w.sends == old(w.sends)
      ensures ok ==> w.jobs == old(w.jobs) + [bkp.version]
      ensures old(NeverRecorded(w)) ==> NeverRecorded(w)
      ensures old(Calm(bkp)) ==> ok && Calm(bkp)
    {
      Others();
      var lost := Fails();
      if lost {
        return false;
      }
      var next := w.(jobs := w.jobs + [bkp.version]);
      assert CreateJob(w, next, bkp.version);
      Take(next);
      var unanswered := Fails();
      ok := !unanswered;
    }

    // DELETE: with a finalizer the object is only marked.
    method Delete() returns (ok: bool)
      requires Valid()
      modifies this
      ensures Valid() && old(run) <= run && old(w.history) <= w.history && w.sends == old(w.sends)
                && w.jobs == old(w.jobs)
      ensures old(NeverRecorded(w)) ==> NeverRecorded(w)
      ensures quiet ==> ok
      ensures quiet && !old(w.gone) && Last(old(w)).finalizer ==> Last(w) == Last(old(w)).(deleting := true) && !w.gone
    {
      Others();
      var lost := Fails();
      if lost {
        return false;
      }
      if !w.gone {
        if Last(w).finalizer {
          Take(w.(history := w.history + [Last(w).(deleting := true)]));
        } else {
          Take(w.(gone := true));
        }
      }
      var unanswered := Fails();
      ok := !unanswered;
    }
  }

  // ---- the reconciler --------------------------------------------------------------------------

  class BackupReconciler {
    const exec: bool  // Exec is configured
    const logs: bool  // Logs is configured
    const api: Cluster
    ghost var console: seq<Line> // what was handed to consoles

    constructor (exec: bool, logs: bool, api: Cluster)
      ensures this.exec == exec && this.logs == logs && this.api == api && console == []
    {
      this.exec, this.logs, this.api := exec, logs, api;
      console := [];
    }

    // Pauses are only recorded, and only resolved, by an operator that has Exec.
    ghost predicate Ready()
      reads api
    {
      api.Valid() && (exec || NeverRecorded(api.w))
    }

    // The Egg's hooks, and the Pod while it is not going away and its game container runs.
    method GameTarget(a: Answers) returns (hooks: Option<Hooks>, pod: Option<Pod>, err: bool)
      ensures err <==> a.target.Fails()
      ensures !err ==> hooks == a.Hooks() && pod == a.Pod()
    {
      hooks, pod, err := None, None, false;
      match a.target.server {
        case NotFound => return;
        case ReadError =>
          err := true;
          return;
        case Found(gs) =>
          var egg := a.target.egg;
          if egg.Found? {
            hooks := egg.value;
          } else if egg.ReadError? {
            err := true;
            return;
          }
          if gs.podName == "" {
            return;
          }
          var read := a.target.pod;
          if read.NotFound? {
            return;
          } else if read.ReadError? {
            err := true;
            return;
          }
          if read.value.deleting {
            return;
          }
          for i := 0 to |read.value.containers|
            invariant forall k :: 0 <= k < i ==> read.value.containers[k] != ContainerStatus(SERVER_CONTAINER, true)
          {
            var cs := read.value.containers[i];
            if cs.name == SERVER_CONTAINER && cs.running {
              assert cs == ContainerStatus(SERVER_CONTAINER, true);
              assert cs in read.value.containers;
              pod := Some(read.value);
              return;
            }
          }
      }
    }

    method Exec(pod: Pod, command: string, takes: bool) returns (ok: bool)
      modifies this`console
      ensures ok == takes && console == old(console) + [Line(pod.uid, command)]
    {
      console := console + [Line(pod.uid, command)];
      ok := takes;
    }

    method SendCommands(kind: Kind, bkp: BackupObject, pod: Pod, commands: seq<string>, a: Answers) returns (ok: bool)
      requires api.Valid() && api.Holds(bkp)
      requires Recorded(bkp.obj) && pod.uid == bkp.obj.quiesce.value.podUID
      requires if kind == Before then api.w.armed == Some(bkp.version) else !Resumed(bkp.obj)
      modifies api, this`console
      ensures api.Valid() && api.Holds(bkp) && old(api.run) <= api.run && (old(api.Calm(bkp)) ==> api.Calm(bkp))
      ensures api.w.sends == old(api.w.sends) + [Send(kind, pod.uid, bkp.version)] && api.w.jobs == old(api.w.jobs)
      ensures ok == a.Takes(commands) && console == old(console) + Lines(pod.uid, commands, a.taken)
    {
      api.StartSend(kind, bkp, pod);
      for i := 0 to |commands|
        modifies this`console
        invariant i <= a.taken && console == old(console) + Lines(pod.uid, commands, a.taken)[..i]
      {
        ok := Exec(pod, commands[i], i < a.taken);
        if !ok {
          return;
        }
      }
      ok := true;
    }

    // The Before commands, once the pause is on record.
    method RecordAndSend(bkp: BackupObject, hooks: Hooks, pod: Pod, a: Answers) returns (sent: bool, ok: bool)
      requires Ready() && exec && api.Holds(bkp)
      requires bkp.obj.finalizer && !bkp.obj.deleting && !Recorded(bkp.obj)
      modifies api, bkp, this`console
      ensures Ready() && old(api.run) <= api.run
      ensures bkp.obj == old(bkp.obj).(quiesce := Some(BackupProtocol.Quiesce(pod.uid, Some(a.sentAt), None, 0)))
      ensures ok ==>
                && api.Holds(bkp) && api.w.jobs == old(api.w.jobs) && sent == a.Takes(hooks.before)
                && Sends(Some(Batch(Before, pod.uid, hooks.before)), a.taken, old(api.w.sends), api.w.sends,
                    old(console), console)
      ensures old(api.Calm(bkp)) ==> ok && api.Calm(bkp)
    {
      sent := false;
      bkp.obj := bkp.obj.(quiesce := Some(BackupProtocol.Quiesce(pod.uid, Some(a.sentAt), None, 0)));
      ok := api.UpdateStatus(bkp);
      if ok {
        sent := SendCommands(Before, bkp, pod, hooks.before, a);
      }
    }

    method Quiesce(bkp: BackupObject, a: Answers) returns (done: bool, res: Result)
      requires Ready() && api.Holds(bkp)
      requires bkp.obj.finalizer && !bkp.obj.deleting
      modifies api, bkp, this`console
      ensures Ready() && old(api.run) <= api.run
      ensures bkp.obj == old(bkp.obj).(quiesce := bkp.obj.quiesce, quiesced := bkp.obj.quiesced)
      ensures res.Ok? ==>
                && api.Holds(bkp) && api.w.jobs == old(api.w.jobs)
                && Next(bkp.obj, done, res.requeueAfter) == Paused(exec, logs, old(bkp.obj), a)
                && Sends(PauseBatch(exec, old(bkp.obj), a), a.taken, old(api.w.sends), api.w.sends, old(console),
                    console)
      ensures PauseReadsFail(exec, old(bkp.obj), a) ==> res.Error?
      ensures old(api.Calm(bkp)) && !PauseReadsFail(exec, old(bkp.obj), a) ==> res.Ok? && api.Calm(bkp)
    {
      if !exec || bkp.obj.quiesced.Some? {
        return true, Ok(0);
      }
      var target, pod, err := GameTarget(a);
      if err {
        return false, Error;
      }
      if !Recorded(bkp.obj) {
        if target.None? || target.value.before == [] || pod.None? {
          return true, Ok(0);
        }
        var sent, ok := RecordAndSend(bkp, target.value, pod.value, a);
        if !ok {
          return false, Error;
        }
        if !sent {
          bkp.obj := bkp.obj.(quiesced := Some(Condition(false, SendFailed)));
          ok := api.UpdateStatus(bkp);
          return true, if ok then Ok(0) else Error;
        }
      }
      done, res := LookForTheSave(bkp, target, pod, a);
    }

    method LookForTheSave(bkp: BackupObject, target: Option<Hooks>, pod: Option<Pod>, a: Answers)
      returns (done: bool, res: Result)
      requires Ready() && exec && api.Holds(bkp) && pod == a.Pod()
      requires bkp.obj.finalizer && !bkp.obj.deleting && Recorded(bkp.obj)
      modifies api, bkp
      ensures Ready() && old(api.run) <= api.run
      ensures bkp.obj == old(bkp.obj).(quiesced := bkp.obj.quiesced)
      ensures res.Ok? ==> api.Holds(bkp) && api.w.sends == old(api.w.sends) && api.w.jobs == old(api.w.jobs)
      ensures
        var hooks, q := if target.Some? then target.value else NO_HOOKS, bkp.obj.quiesce.value;
        match QuiesceWait(hooks, q.beforeSentAt.value, a.now, SaveShows(logs, hooks, q.podUID, a))
        case Again(more) => !done && res == Ok(more) && bkp.obj == old(bkp.obj)
        case Over(reason) =>
          && done && (res == Ok(0) || res == Error)
          && bkp.obj == old(bkp.obj).(quiesced := Some(Condition(reason != Timeout, reason)))
      ensures old(api.Calm(bkp)) ==> res.Ok? && api.Calm(bkp)
    {
      var q := bkp.obj.quiesce.value;
      var hooks := if target.Some? then target.value else NO_HOOKS;
      var matched := false;
      if hooks.savedRegex != "" && pod.Some? && pod.value.uid == q.podUID && logs {
        matched := a.logged; // the regex may not compile, the console may not be readable
      }
      match QuiesceWait(hooks, q.beforeSentAt.value, a.now, matched) {
        case Again(wait) =>
          return false, Ok(wait);
        case Over(reason) =>
          bkp.obj := bkp.obj.(quiesced := Some(Condition(reason != Timeout, reason)));
          var ok := api.UpdateStatus(bkp);
          return true, if ok then Ok(0) else Error;
      }
    }

    method Resume(bkp: BackupObject, a: Answers) returns (pending: bool, res: Result)
      requires Ready() && api.Holds(bkp)
      modifies api, bkp, this`console
      ensures Ready() && old(api.run) <= api.run
      ensures bkp.obj == old(bkp.obj).(quiesce := bkp.obj.quiesce, resumed := bkp.obj.resumed)
      ensures res.Ok? ==>
                && api.Holds(bkp) && api.w.jobs == old(api.w.jobs)
                && Next(bkp.obj, !pending, res.requeueAfter) == AfterResume(exec, old(bkp.obj), a)
                && Sends(ResumeBatch(exec, old(bkp.obj), a), a.taken, old(api.w.sends), api.w.sends, old(console),
                    console)
                && (!pending ==> Settled(bkp.obj))
      ensures ResumeReadsFail(exec, old(bkp.obj), a) ==> res.Error?
      ensures old(api.Calm(bkp)) && bkp.obj.finalizer && !ResumeReadsFail(exec, old(bkp.obj), a) ==>
                res.Ok? && api.Calm(bkp)
    {
      if !exec || !Recorded(bkp.obj) || Resumed(bkp.obj) {
        return false, Ok(0);
      }
      var hooks, pod, err := GameTarget(a);
      if err {
        return true, Error;
      }
      var uid := if pod.Some? then pod.value.uid else "";
      match ResumeDecision(bkp.obj.quiesce, hooks, uid) {
        case ResumeNone => assert false;
        case ResumeSkip =>
          var reason := if hooks.None? || hooks.value.after == [] then NothingToSend else PodReplaced;
          pending := false;
          res := Close(bkp, a.now, reason);
        case ResumeSend =>
          pending, res := SendAfter(bkp, pod.value, hooks.value.after, a);
      }
    }

    // The After step is over without a send.
    method Close(bkp: BackupObject, now: int, reason: Reason) returns (res: Result)
      requires Ready() && exec && api.Holds(bkp) && Recorded(bkp.obj) && !Resumed(bkp.obj)
      modifies api, bkp
      ensures Ready() && old(api.run) <= api.run && (res == Ok(0) || res == Error)
      ensures bkp.obj == Closed(old(bkp.obj), now, reason)
      ensures res.Ok? ==> api.Holds(bkp) && api.w.sends == old(api.w.sends) && api.w.jobs == old(api.w.jobs)
      ensures old(api.Calm(bkp)) && bkp.obj.finalizer ==> res.Ok? && api.Calm(bkp)
    {
      api.AttemptLeft(bkp);
      var q := bkp.obj.quiesce.value;
      bkp.obj := bkp.obj.(quiesce := Some(q.(resumedAt := Some(now))), resumed := Some(Condition(true, reason)));
      var ok := api.UpdateStatus(bkp);
      res := if ok then Ok(0) else Error;
    }

    method SendAfter(bkp: BackupObject, pod: Pod, after: seq<string>, a: Answers) returns (pending: bool, res: Result)
      requires Ready() && exec && api.Holds(bkp) && Recorded(bkp.obj) && !Resumed(bkp.obj)
      requires pod.uid == bkp.obj.quiesce.value.podUID
      modifies api, bkp, this`console
      ensures Ready() && old(api.run) <= api.run
      ensures
        var n := AfterSend(old(bkp.obj), a.now, a.Takes(after));
        bkp.obj == n.b && pending == !n.over && (res == Ok(n.wait) || res == Error)
      ensures res.Ok? ==>
                && api.Holds(bkp) && api.w.jobs == old(api.w.jobs)
                && Sends(Some(Batch(After, pod.uid, after)), a.taken, old(api.w.sends), api.w.sends, old(console),
                    console)
      ensures old(api.Calm(bkp)) && bkp.obj.finalizer ==> res.Ok? && api.Calm(bkp)
    {
      var sent := SendCommands(After, bkp, pod, after, a);
      pending, res := RecordSend(bkp, a.now, sent);
    }

    // What came of the After commands goes on record.
    method RecordSend(bkp: BackupObject, now: int, sent: bool) returns (pending: bool, res: Result)
      requires Ready() && exec && api.Holds(bkp) && Recorded(bkp.obj) && !Resumed(bkp.obj)
      modifies api, bkp
      ensures Ready() && old(api.run) <= api.run
      ensures
        var n := AfterSend(old(bkp.obj), now, sent);
        bkp.obj == n.b && pending == !n.over && (res == Ok(n.wait) || res == Error)
      ensures res.Ok? ==> api.Holds(bkp) && api.w.sends == old(api.w.sends) && api.w.jobs == old(api.w.jobs)
      ensures old(api.Calm(bkp)) && bkp.obj.finalizer ==> res.Ok? && api.Calm(bkp)
    {
      api.AttemptLeft(bkp);
      var q := bkp.obj.quiesce.value;
      if !sent {
        q := q.(resumeAttempts := q.resumeAttempts + 1);
        if q.resumeAttempts < RESUME_MAX_ATTEMPTS {
          bkp.obj := bkp.obj.(quiesce := Some(q));
          var ok := api.UpdateStatus(bkp);
          return true, if ok then Ok(q.resumeAttempts * RESUME_RETRY_STEP) else Error;
        }
        bkp.obj := bkp.obj.(quiesce := Some(q.(resumedAt := Some(now))), resumed := Some(Condition(false, SendFailed)));
      } else {
        bkp.obj := bkp.obj.(quiesce := Some(q.(resumedAt := Some(now))), resumed := Some(Condition(true, Sent)));
      }
      var ok := api.UpdateStatus(bkp);
      return false, if ok then Ok(0) else Error;
    }

    method CompleteJob(bkp: BackupObject, phase: Phase) returns (res: Result)
      requires Ready() && api.Holds(bkp) && bkp.obj.finalizer && !bkp.obj.deleting && phase != Deleting
      modifies api, bkp
      ensures Ready() && old(api.run) <= api.run && bkp.obj == old(bkp.obj).(phase := phase)
      ensures res.Ok? ==>
                res == Ok(0) && api.Holds(bkp) && api.w.sends == old(api.w.sends) && api.w.jobs == old(api.w.jobs)
      ensures old(api.Calm(bkp)) ==> res.Ok? && api.Calm(bkp)
    {
      bkp.obj := bkp.obj.(phase := phase);
      assert MovesPhase(api.w.history[bkp.version], bkp.obj);
      var ok := api.UpdateStatus(bkp);
      return if ok then Ok(0) else Error;
    }

    // Ends by waiting for the pause, by failing because there is no volume, or with a Job, which is
    // created only when the pause is decided.
    method StartJob(bkp: BackupObject, a: Answers) returns (res: Result)
      requires Ready() && api.Holds(bkp) && WorkOn(bkp.obj) == Start
      modifies api, bkp, this`console
      ensures Ready() && old(api.run) <= api.run
      ensures res.Ok? ==> api.Holds(bkp) && Comes(exec, logs, old(bkp.obj), a, bkp.obj, res.requeueAfter)
      ensures res.Ok? ==> Does(exec, logs, old(bkp.obj), a, old(api.w), api.w, old(console), console)
      ensures ReadsFail(exec, logs, old(bkp.obj), a) ==> res.Error?
      ensures old(api.Calm(bkp)) && !ReadsFail(exec, logs, old(bkp.obj), a) ==> res.Ok? && api.Calm(bkp)
    {
      var done;
      done, res := Quiesce(bkp, a);
      if res.Error? || !done {
        return;
      }
      PauseIsDecided(exec, logs, old(bkp.obj), a);
      res := MakeJob(bkp, a);
    }

    // The pause is decided: without a volume the backup fails, otherwise one Job is created.
    method MakeJob(bkp: BackupObject, a: Answers) returns (res: Result)
      requires Ready() && api.Holds(bkp) && bkp.obj.finalizer && !bkp.obj.deleting
      requires Recorded(bkp.obj) ==> bkp.obj.quiesced.Some?
      modifies api, bkp
      ensures Ready() && old(api.run) <= api.run
      ensures res.Ok? ==> api.Holds(bkp) && api.w.sends == old(api.w.sends)
      ensures res.Ok? && a.volume.NotFound? ==>
                bkp.obj == old(bkp.obj).(phase := Failed) && res == Ok(0) && api.w.jobs == old(api.w.jobs)
      ensures res.Ok? && a.volume.Found? ==>
                && bkp.obj == old(bkp.obj).(phase := Running) && res == Ok(BACKUP_JOB_POLL_INTERVAL)
                && api.w.jobs == old(api.w.jobs) + [old(bkp.version)]
      ensures a.volume.ReadError? ==> res.Error?
      ensures old(api.Calm(bkp)) && !a.volume.ReadError? ==> res.Ok? && api.Calm(bkp)
    {
      if a.volume.NotFound? {
        res := CompleteJob(bkp, Failed);
        return;
      } else if a.volume.ReadError? {
        return Error;
      }
      var ok := api.CreateBackupJob(bkp);
      if !ok {
        return Error;
      }
      bkp.obj := bkp.obj.(phase := Running);
      assert MovesPhase(api.w.history[bkp.version], bkp.obj);
      ok := api.UpdateStatus(bkp);
      return if ok then Ok(BACKUP_JOB_POLL_INTERVAL) else Error;
    }

    method PollJob(bkp: BackupObject, a: Answers) returns (res: Result)
      requires Ready() && api.Holds(bkp) && WorkOn(bkp.obj) == Poll
      modifies api, bkp
      ensures Ready() && old(api.run) <= api.run
      ensures res.Ok? ==> api.Holds(bkp) && Comes(exec, logs, old(bkp.obj), a, bkp.obj, res.requeueAfter)
      ensures res.Ok? ==> Does(exec, logs, old(bkp.obj), a, old(api.w), api.w, console, console)
      ensures a.job.ReadError? ==> res.Error?
      ensures old(api.Calm(bkp)) && !a.job.ReadError? ==> res.Ok? && api.Calm(bkp)
    {
      match a.job {
        case NotFound => res := CompleteJob(bkp, Failed);
        case ReadError => res := Error;
        case Found(status) =>
          if status.succeeded > 0 {
            res := CompleteJob(bkp, Completed);
          } else if status.failed > 0 && status.finished {
            res := CompleteJob(bkp, Failed);
          } else {
            res := Ok(BACKUP_JOB_POLL_INTERVAL);
          }
      }
    }

    method ReleaseFinalizer(bkp: BackupObject) returns (res: Result)
      requires Ready() && api.Holds(bkp) && bkp.obj.finalizer && bkp.obj.deleting && Settled(bkp.obj)
      modifies api, bkp
      ensures Ready() && old(api.run) <= api.run && bkp.obj == old(bkp.obj).(finalizer := false)
      ensures res.Ok? ==>
                res == Ok(0) && api.Holds(bkp) && api.w.sends == old(api.w.sends) && api.w.jobs == old(api.w.jobs)
      ensures old(api.Calm(bkp)) ==> res.Ok? && bkp.version == |api.w.history| - 1
    {
      bkp.obj := bkp.obj.(finalizer := false);
      assert ReleasesFinalizer(api.w.history[bkp.version], bkp.obj);
      var ok := api.UpdateMeta(bkp);
      return if ok then Ok(0) else Error;
    }

    // The pause is resolved: the finalizer goes once the clean-up Job is over, or none is needed.
    method Prune(bkp: BackupObject, a: Answers) returns (res: Result)
      requires Ready() && api.Holds(bkp) && bkp.obj.deleting && bkp.obj.finalizer && Settled(bkp.obj)
      modifies api, bkp
      ensures Ready() && old(api.run) <= api.run
      ensures res.Ok? ==>
                && api.Holds(bkp) && api.w.sends == old(api.w.sends) && api.w.jobs == old(api.w.jobs)
                && bkp.obj == Pruned(old(bkp.obj), a).b && res.requeueAfter == Pruned(old(bkp.obj), a).wait
      ensures PruneFails(old(bkp.obj), a) ==> res.Error?
      ensures old(api.Calm(bkp)) && !PruneFails(old(bkp.obj), a) ==> res.Ok? && bkp.version == |api.w.history| - 1
    {
      if bkp.obj.phase != Completed && bkp.obj.phase != Deleting {
        res := ReleaseFinalizer(bkp);
        return;
      }
      match a.cleanup {
        case NotFound =>
          if !a.cleanupMade {
            return Error;
          }
          bkp.obj := bkp.obj.(phase := Deleting);
          assert MovesPhase(api.w.history[bkp.version], bkp.obj);
          var ok := api.UpdateStatus(bkp);
          return if ok then Ok(BACKUP_JOB_POLL_INTERVAL) else Error;
        case ReadError => return Error;
        case Found(status) =>
          if status.succeeded > 0 || (status.failed > 0 && status.finished) {
            res := ReleaseFinalizer(bkp);
          } else {
            return Ok(BACKUP_JOB_POLL_INTERVAL);
          }
      }
    }

    // The After step comes first.
    method ReconcileDelete(bkp: BackupObject, a: Answers) returns (res: Result)
      requires Ready() && api.Holds(bkp) && WorkOn(bkp.obj) == Deletion
      modifies api, bkp, this`console
      ensures Ready() && old(api.run) <= api.run
      ensures res.Ok? ==> api.Holds(bkp) && Comes(exec, logs, old(bkp.obj), a, bkp.obj, res.requeueAfter)
      ensures res.Ok? ==> Does(exec, logs, old(bkp.obj), a, old(api.w), api.w, old(console), console)
      ensures res.Ok? && old(bkp.obj.finalizer) && !bkp.obj.finalizer ==> Settled(bkp.obj)
      ensures ReadsFail(exec, logs, old(bkp.obj), a) ==> res.Error?
      ensures old(api.Calm(bkp)) && !ReadsFail(exec, logs, old(bkp.obj), a) ==>
                res.Ok? && bkp.version == |api.w.history| - 1
    {
      if !bkp.obj.finalizer {
        return Ok(0);
      }
      var pending: bool;
      pending, res := Resume(bkp, a);
      if pending || res.Error? {
        return;
      }
      res := Prune(bkp, a);
    }

    // A backup that is over is deleted once it has expired, and looked at again until then.
    method EnforceRetention(a: Answers) returns (res: Result)
      requires Ready()
      modifies api
      ensures Ready() && old(api.run) <= api.run && old(api.w.history) <= api.w.history
      ensures res.Ok? ==>
                res == Ok(RetentionWait(a)) && api.w.sends == old(api.w.sends) && api.w.jobs == old(api.w.jobs)
      ensures api.quiet ==> res.Ok?
      ensures !Expired(a) ==> api.w == old(api.w)
      ensures api.quiet && Expired(a) && !old(api.w.gone) && Last(old(api.w)).finalizer ==>
                Last(api.w) == Last(old(api.w)).(deleting := true)
    {
      if a.remaining.None? {
        return Ok(0);
      }
      if a.remaining.value > 0 {
        var wait := a.remaining.value + SECOND;
        return Ok(if wait < MAX_RETENTION_WAIT then wait else MAX_RETENTION_WAIT);
      }
      var ok := api.Delete();
      res := if ok then Ok(0) else Error;
    }

    // The After step comes first.
    method AfterTheEnd(bkp: BackupObject, a: Answers) returns (res: Result)
      requires Ready() && api.Holds(bkp) && WorkOn(bkp.obj) == Finish
      modifies api, bkp, this`console
      ensures Ready() && old(api.run) <= api.run
      ensures res.Ok? ==> api.Holds(bkp) && Comes(exec, logs, old(bkp.obj), a, bkp.obj, res.requeueAfter)
      ensures res.Ok? ==> Does(exec, logs, old(bkp.obj), a, old(api.w), api.w, old(console), console)
      ensures ResumeReadsFail(exec, old(bkp.obj), a) ==> res.Error?
      ensures old(api.Calm(bkp)) && !ResumeReadsFail(exec, old(bkp.obj), a) ==>
                res.Ok? && Last(api.w) == AfterRetention(exec, old(bkp.obj), a, bkp.obj)
    {
      var pending: bool;
      pending, res := Resume(bkp, a);
      if pending || res.Error? {
        return;
      }
      res := EnforceRetention(a);
    }

    // What a backup that is not deleted and has its finalizer is due for.
    method Work(bkp: BackupObject, a: Answers) returns (res: Result)
      requires Ready() && api.Holds(bkp) && !bkp.obj.deleting && bkp.obj.finalizer
      modifies api, bkp, this`console
      ensures Ready() && old(api.run) <= api.run
      ensures res.Ok? ==>
                && api.Holds(bkp)
                && Comes(exec, logs, old(bkp.obj), a, bkp.obj, res.requeueAfter)
                && Does(exec, logs, old(bkp.obj), a, old(api.w), api.w, old(console), console)
      ensures ReadsFail(exec, logs, old(bkp.obj), a) ==> res.Error?
      ensures old(api.Calm(bkp)) && !ReadsFail(exec, logs, old(bkp.obj), a) ==>
                res.Ok? && Last(api.w) == AfterRetention(exec, old(bkp.obj), a, bkp.obj)
    {
      match bkp.obj.phase {
        case Unset | Pending => res := StartJob(bkp, a);
        case Running => res := PollJob(bkp, a);
        case _ => res := AfterTheEnd(bkp, a);
      }
    }

    method AddFinalizer(bkp: BackupObject) returns (res: Result)
      requires Ready() && api.Holds(bkp) && WorkOn(bkp.obj) == Finalizer
      modifies api, bkp
      ensures Ready() && old(api.run) <= api.run
      ensures res.Ok? ==>
                && res == Ok(0) && api.Holds(bkp) && bkp.obj == old(bkp.obj).(finalizer := true)
                && api.w.sends == old(api.w.sends) && api.w.jobs == old(api.w.jobs)
      ensures old(api.Calm(bkp)) ==> res.Ok? && bkp.version == |api.w.history| - 1
    {
      bkp.obj := bkp.obj.(finalizer := true);
      assert AddsFinalizer(api.w.history[bkp.version], bkp.obj);
      var ok := api.UpdateMeta(bkp);
      return if ok then Ok(0) else Error;
    }

    method Dispatch(bkp: BackupObject, a: Answers) returns (res: Result)
      requires Ready() && api.Holds(bkp)
      modifies api, bkp, this`console
      ensures Ready() && old(api.run) <= api.run
      ensures res.Ok? ==>
                && api.Holds(bkp)
                && Comes(exec, logs, old(bkp.obj), a, bkp.obj, res.requeueAfter)
                && Does(exec, logs, old(bkp.obj), a, old(api.w), api.w, old(console), console)
      ensures ReadsFail(exec, logs, old(bkp.obj), a) ==> res.Error?
      ensures old(api.Calm(bkp)) && !ReadsFail(exec, logs, old(bkp.obj), a) ==>
                res.Ok? && Last(api.w) == AfterRetention(exec, old(bkp.obj), a, bkp.obj)
    {
      if bkp.obj.deleting {
        res := ReconcileDelete(bkp, a);
      } else if !bkp.obj.finalizer {
        res := AddFinalizer(bkp);
      } else {
        res := Work(bkp, a);
      }
    }

    // The version that is read, and what is left of it.
    method ReadAndDispatch(a: Answers) returns (res: Result, ghost read: Option<Backup>, ghost left: Backup)
      requires Ready()
      modifies api, this`console
      ensures Ready() && old(api.run) <= api.run
      ensures read.Some? ==> read.value in api.w.history
      ensures res.Ok? && read.Some? ==>
                left in api.w.history && Comes(exec, logs, read.value, a, left, res.requeueAfter)
      ensures res.Ok? && read.Some? ==> Does(exec, logs, read.value, a, old(api.w), api.w, old(console), console)
      ensures read.None? ==> api.w.sends == old(api.w.sends) && console == old(console) && api.w.jobs == old(api.w.jobs)
      ensures api.quiet ==>
                && read == (if old(api.w.gone) then None else Some(Last(old(api.w))))
                && (res.Error? <==> read.Some? && ReadsFail(exec, logs, read.value, a))
                && (res.Ok? && read.Some? ==> Last(api.w) == AfterRetention(exec, read.value, a, left))
    {
      read, left := None, Last(api.w);
      var bkp, err := api.Get();
      if bkp == null {
        res := if err then Error else Ok(0);
        return;
      }
      read := Some(bkp.obj);
      ghost var began := |api.run| - 1;
      assert api.run[began] == api.w;
      res := Dispatch(bkp, a);
      HistoryGrows(api.run, began, |api.run| - 1);
      left := bkp.obj;
    }

    // One reconcile from any state of the cluster, dying anywhere. Whatever version it reads, and whoever
    // interferes: unless it reports an error, what it leaves is persisted, and is what its work on that
    // version comes to, down to the commands sent and the Jobs made. Left alone, it reads the last version
    // and reports an error only for reads that fail.
    method Reconcile(a: Answers) returns (res: Result, ghost read: Option<Backup>, ghost left: Backup)
      requires Ready()
      modifies api, this`console
      ensures Ready() && old(api.run) <= api.run
      ensures CountBefore(api.w.sends) <= 1
      ensures api.w.gone ==> Settled(Last(api.w))
      ensures read.Some? ==> read.value in api.w.history
      ensures res.Ok? && read.Some? ==>
                left in api.w.history && Comes(exec, logs, read.value, a, left, res.requeueAfter)
      ensures res.Ok? && read.Some? ==> Does(exec, logs, read.value, a, old(api.w), api.w, old(console), console)
      ensures read.None? ==> api.w.sends == old(api.w.sends) && console == old(console) && api.w.jobs == old(api.w.jobs)
      ensures api.quiet ==>
                && read == (if old(api.w.gone) then None else Some(Last(old(api.w))))
                && (res.Error? <==> read.Some? && ReadsFail(exec, logs, read.value, a))
                && (res.Ok? && read.Some? ==> Last(api.w) == AfterRetention(exec, read.value, a, left))
    {
      api.Take(api.w.(armed := None)); // a new reconcile knows nothing of the last one
      res, read, left := ReadAndDispatch(a);
      BeforeAtMostOnce(api.run, |api.run| - 1);
      if api.w.gone {
        NoLeakedPause(api.run, |api.run| - 1);
      }
    }
  }
}
