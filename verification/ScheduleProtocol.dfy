/**
 One GameServerSchedule as a protocol: fire times and manual requests are handled, a run's tasks are
 done one by one, and the status is written at the end of a reconcile, or lost when that write fails
 or the operator dies. A reconcile reads the clock once. Users may change the cron between reconciles; a
 change during one is seen by the next. Times are nanoseconds; the status keeps whole seconds.

 Handled fires and requests are numbered from one in the order they were handled; the number is the
 model's own, the run's ID in the status is only the second it started in. ScheduleController shows
 that the controller's code only ever takes these steps.
 */
module ScheduleProtocol {
  import opened Clock
  import opened Wrappers

  const MISSED_RUN_WINDOW := 300 * SECOND

  function Truncate(t: int): int {
    t - t % SECOND
  }

  // ---- fire times ------------------------------------------------------------------------------

  // A parsed cron gives the fire time after its argument.
  type Cron = int -> int

  // It is the least one strictly after it, and always a whole second.
  ghost predicate IsCron(next: Cron) {
    && (forall t :: t < next(t) && Truncate(next(t)) == next(t))
    && (forall t, u :: t <= u < next(t) ==> next(u) == next(t))
  }

  predicate Fires(next: Cron, f: int) {
    next(f - 1) == f
  }

  ghost predicate NoFireIn(next: Cron, from: int, now: int) {
    forall f :: from < f <= now ==> !Fires(next, f)
  }

  // The one fire time that a reconcile at this time may take, if the last one it knows of is `from`.
  ghost predicate IsLatestFire(next: Cron, from: int, now: int, latest: int) {
    from < latest <= now && Fires(next, latest) && NoFireIn(next, latest, now)
  }

  lemma NextIsTheFirstFire(next: Cron, t: int)
    requires IsCron(next)
    ensures Fires(next, next(t)) && NoFireIn(next, t, next(t) - 1)
  {
    assert t <= next(t) - 1 < next(t);
    forall f | t < f <= next(t) - 1 ensures !Fires(next, f) {
      assert next(f - 1) == next(t);
    }
  }

  lemma FiresAreWholeSeconds(next: Cron, f: int)
    requires IsCron(next) && Fires(next, f)
    ensures Truncate(f) == f
  {
    assert next(f - 1) == f;
  }

  // A fire is the latest one exactly until the next one.
  lemma LatestUntilTheNext(next: Cron, from: int, now: int, f: int)
    requires IsCron(next)
    ensures IsLatestFire(next, from, now, f) <==> from < f <= now < next(f) && Fires(next, f)
  {
    NextIsTheFirstFire(next, f);
  }

  // ---- the status and its writes -----------------------------------------------------------------

  datatype Run = Run(id: int, startedAt: int, taskIndex: nat, nextTaskAt: int)

  datatype RunResult = Succeeded | Failed | Skipped

  datatype LastRun = LastRun(startedAt: int, finishedAt: int, result: RunResult)

  // lastRunNow is the last manual request taken, 0 for none.
  datatype Status = Status(active: Option<Run>, lastRun: Option<LastRun>, lastScheduleTime: Option<int>,
      lastRunNow: nat)

  // The delays of a schedule's tasks, in seconds. Users edit the list at any time, so every step that
  // looks at it says which one it saw.
  type Tasks = seq<nat>

  // A status, with the number of what was handled last, the delay its active run is waiting for, and
  // the length of the task list when its last run succeeded.
  datatype Progress = Progress(status: Status, serial: nat, delay: nat, tasks: nat)

  datatype Handled = Handled(at: int, fire: Option<int>, started: bool)

  datatype Event = Event(serial: nat, index: nat, at: int, delay: nat, ok: bool)

  // A status write, and how many tasks had been done by then.
  datatype Save = Save(progress: Progress, done: nat)

  // `clock` is the time that the last reconcile has read.
  datatype World = World(
    next: Cron,
    created: int,
    clock: int,
    saves: seq<Save>,
    memory: Option<Progress>,   // the copy a reconcile is working on
    handled: seq<Handled>,
    log: seq<Event>)            // every task ever begun, with its outcome

  function Stored(p: Progress): Progress {
    var s := p.status;
    var active := if s.active.None? then None
                  else Some(s.active.value.(startedAt := Truncate(s.active.value.startedAt),
                                                 nextTaskAt := Truncate(s.active.value.nextTaskAt)));
    var lastRun := if s.lastRun.None? then None
                   else Some(s.lastRun.value.(startedAt := Truncate(s.lastRun.value.startedAt),
                                                   finishedAt := Truncate(s.lastRun.value.finishedAt)));
    var last := if s.lastScheduleTime.None? then None else Some(Truncate(s.lastScheduleTime.value));
    p.(status := Status(active, lastRun, last, s.lastRunNow))
  }

  const NEW := Progress(Status(None, None, None, 0), 0, 0, 0)

  ghost predicate Init(w: World) {
    IsCron(w.next) && w == World(w.next, w.created, w.clock, [Save(NEW, 0)], None, [], [])
  }

  function Saved(w: World): Progress
    requires w.saves != []
  {
    w.saves[|w.saves| - 1].progress
  }

  // ---- steps -----------------------------------------------------------------------------------

  ghost predicate Read(w: World, w': World)
    requires w.saves != []
  {
    w.clock <= w'.clock && w' == w.(clock := w'.clock, memory := Some(Saved(w)))
  }

  // Users change the cron.
  ghost predicate Edit(w: World, w': World) {
    w.memory.None? && IsCron(w'.next) && w' == w.(next := w'.next)
  }

  // The reconcile dies, or its status write does not reach the API server.
  ghost predicate Lose(w: World, w': World) {
    w' == w.(memory := None)
  }

  ghost predicate Write(w: World, w': World) {
    w.memory.Some? && w' == w.(memory := None, saves := w.saves + [Save(Stored(w.memory.value), |w.log|)])
  }

  // A fire or a manual request is taken while no run is active: a run starts, or is skipped. A fire
  // lies after all handled ones, and one that is long past starts nothing.
  predicate Handles(p: Progress, h: Handled, tasks: Tasks, serial: nat, p': Progress) {
    && p.status.active.None?
    && p' == Progress(p'.status, serial, p'.delay, p.tasks)
    && (if h.fire.None? then p'.status.lastScheduleTime == p.status.lastScheduleTime
        else
          && p'.status.lastScheduleTime == h.fire
          && Truncate(h.fire.value) == h.fire.value <= h.at
          && (p.status.lastScheduleTime.Some? ==> p.status.lastScheduleTime.value < h.fire.value)
          && (h.started ==> h.at - h.fire.value <= MISSED_RUN_WINDOW))
    && (if h.started then
          && tasks != [] && p'.delay == tasks[0]
          && p'.status.lastRun == p.status.lastRun
          && p'.status.active == Some(Run(Truncate(h.at), h.at, 0, h.at + p'.delay * SECOND))
        else
          p'.status.active.None? && p'.status.lastRun == Some(LastRun(h.at, h.at, Skipped)))
  }

  function CatchUpFrom(s: Status, created: int): int {
    if s.lastScheduleTime.Some? then s.lastScheduleTime.value else created
  }

  // A reconcile begins by that, if at all. Of the fires that have passed it takes the latest.
  ghost predicate Handle(w: World, w': World, h: Handled, tasks: Tasks)
    requires w.saves != []
  {
    && w.memory == Some(Saved(w)) && w'.memory.Some? && h.at == w.clock
    && (h.fire.Some? ==> IsLatestFire(w.next, CatchUpFrom(Saved(w).status, w.created), w.clock, h.fire.value))
    && Handles(w.memory.value, h, tasks, |w.handled| + 1, w'.memory.value)
    && w' == w.(memory := w'.memory, handled := w.handled + [h])
  }

  predicate Finishes(p: Progress, at: int, result: RunResult, p': Progress)
    requires p.status.active.Some?
  {
    && p' == p.(status := p.status.(active := None, lastRun := p'.status.lastRun), tasks := p'.tasks)
    && p'.status.lastRun == Some(LastRun(p.status.active.value.startedAt, at, result))
  }

  // The task the run waits for is due. A failure ends the run; the last task of the list ends it too.
  predicate DoesTask(p: Progress, e: Event, tasks: Tasks, p': Progress) {
    && p.status.active.Some?
    && var a := p.status.active.value;
    && e == Event(p.serial, a.taskIndex, e.at, p.delay, e.ok) && a.nextTaskAt <= e.at && a.taskIndex < |tasks|
    && if !e.ok then Finishes(p, e.at, Failed, p')
       else if a.taskIndex + 1 >= |tasks| then Finishes(p, e.at, Succeeded, p') && p'.tasks == |tasks|
       else
         p' == p.(delay := tasks[a.taskIndex + 1], status := p.status.(active :=
           Some(a.(taskIndex := a.taskIndex + 1, nextTaskAt := e.at + tasks[a.taskIndex + 1] * SECOND))))
  }

  ghost predicate Task(w: World, w': World, e: Event, tasks: Tasks) {
    && w.memory.Some? && w'.memory.Some? && e.at == w.clock
    && DoesTask(w.memory.value, e, tasks, w'.memory.value)
    && w' == w.(memory := w'.memory, log := w.log + [e])
  }

  // The task list was cut to at most as many tasks as are done.
  predicate Cuts(p: Progress, at: int, tasks: Tasks, p': Progress) {
    && p.status.active.Some? && p.status.active.value.nextTaskAt <= at
    && |tasks| <= p.status.active.value.taskIndex
    && Finishes(p, at, Succeeded, p') && p'.tasks == |tasks|
  }

  ghost predicate Cut(w: World, w': World, at: int, tasks: Tasks) {
    && w.memory.Some? && w'.memory.Some? && at == w.clock
    && Cuts(w.memory.value, at, tasks, w'.memory.value)
    && w' == w.(memory := w'.memory)
  }

  // A fire or a request is taken.
  ghost predicate Takes(w: World, w': World)
    requires w.saves != []
  {
    exists h, tasks :: Handle(w, w', h, tasks)
  }

  // A reconcile that sees this task list does a task of a run, or finds the list cut.
  ghost predicate Works(w: World, w': World, tasks: Tasks) {
    (exists e :: Task(w, w', e, tasks)) || (exists at :: Cut(w, w', at, tasks))
  }

  ghost predicate Step(w: World, w': World)
    requires w.saves != []
  {
    || Read(w, w') || Edit(w, w') || Lose(w, w') || Write(w, w') || Takes(w, w')
    || exists tasks :: Works(w, w', tasks)
  }

  ghost predicate IsRun(run: seq<World>) {
    && run != [] && Init(run[0])
    && (forall i :: 0 <= i < |run| ==> run[i].saves != [])
    && (forall i :: 0 <= i < |run| - 1 ==> Step(run[i], run[i + 1]))
  }

  // ---- the invariant ---------------------------------------------------------------------------

  // Task j of the log is what task k waited for: the one before it in the same run. It succeeded, and
  // the delay has passed since, down to the second.
  predicate WaitedFor(log: seq<Event>, j: nat, e: Event)
    requires j < |log|
  {
    && log[j].ok && log[j].serial == e.serial && log[j].index + 1 == e.index
    && Truncate(log[j].at + e.delay * SECOND) <= e.at
  }

  ghost predicate InOrder(handled: seq<Handled>, log: seq<Event>, e: Event) {
    && 1 <= e.serial <= |handled| && handled[e.serial - 1].started
    && if e.index == 0 then Truncate(handled[e.serial - 1].at + e.delay * SECOND) <= e.at
       else exists j: nat :: j < |log| && WaitedFor(log, j, e)
  }

  ghost predicate LogInOrder(handled: seq<Handled>, log: seq<Event>) {
    forall k :: 0 <= k < |log| ==> InOrder(handled, log[..k], log[k])
  }

  ghost predicate Done(log: seq<Event>, serial: nat, index: nat) {
    exists j: nat :: j < |log| && log[j].serial == serial && log[j].index == index && log[j].ok
  }

  ghost predicate DoneUpTo(log: seq<Event>, serial: nat, n: nat) {
    forall i: nat :: i < n ==> Done(log, serial, i)
  }

  // What an active run, or one that just ended, stands for.
  ghost predicate Sound(handled: seq<Handled>, log: seq<Event>, p: Progress) {
    && p.serial <= |handled|
    && (p.status.active.Some? ==>
          && InOrder(handled, log,
              Event(p.serial, p.status.active.value.taskIndex, p.status.active.value.nextTaskAt, p.delay, true))
          && DoneUpTo(log, p.serial, p.status.active.value.taskIndex))
    && (p.status.active.None? && p.status.lastRun.Some? && p.status.lastRun.value.result == Succeeded ==>
          DoneUpTo(log, p.serial, p.tasks))
    && (p.serial >= 1 && handled[p.serial - 1].fire.Some? ==>
          p.status.lastScheduleTime.Some? && handled[p.serial - 1].fire.value <= p.status.lastScheduleTime.value)
    && (p.status.lastScheduleTime.Some? ==>
        Truncate(p.status.lastScheduleTime.value) == p.status.lastScheduleTime.value)
  }

  // p' is p or what came of it.
  predicate Extends(p: Progress, p': Progress) {
    && (p.status.lastScheduleTime.Some? ==>
          && p'.status.lastScheduleTime.Some?
          && p.status.lastScheduleTime.value <= p'.status.lastScheduleTime.value)
    && p.serial <= p'.serial
    && (p.serial == p'.serial ==>
          && p.status.lastScheduleTime == p'.status.lastScheduleTime
          && (p'.status.active.Some? ==>
                p.status.active.Some? && p.status.active.value.taskIndex <= p'.status.active.value.taskIndex))
  }

  // What may still be done once p is saved: tasks of later runs, and those of p's run it has not passed.
  predicate Ahead(p: Progress, e: Event) {
    || p.serial < e.serial
    || (p.serial == e.serial && p.status.active.Some? && p.status.active.value.taskIndex <= e.index)
  }

  predicate LogAhead(s: Save, log: seq<Event>) {
    s.done <= |log| && forall k :: s.done <= k < |log| ==> Ahead(s.progress, log[k])
  }

  // Fires handled after what p knows of lie after p's last one.
  predicate FiresAhead(p: Progress, handled: seq<Handled>) {
    forall t :: p.serial <= t < |handled| && handled[t].fire.Some? && p.status.lastScheduleTime.Some? ==>
      p.status.lastScheduleTime.value < handled[t].fire.value
  }

  ghost predicate SaveOk(handled: seq<Handled>, log: seq<Event>, s: Save) {
    Sound(handled, log, s.progress) && LogAhead(s, log) && FiresAhead(s.progress, handled)
  }

  ghost predicate SavesOk(w: World) {
    forall i {:trigger w.saves[i]} :: 0 <= i < |w.saves| ==> SaveOk(w.handled, w.log, w.saves[i])
  }

  ghost predicate SavesExtend(saves: seq<Save>, p: Progress) {
    forall i {:trigger saves[i]} :: 0 <= i < |saves| ==> Extends(saves[i].progress, p)
  }

  ghost predicate MemoryOk(w: World)
    requires w.saves != []
  {
    w.memory.Some? ==>
      && Sound(w.handled, w.log, w.memory.value)
      && SavesExtend(w.saves, w.memory.value)
      && FiresAhead(w.memory.value, w.handled)
  }

  predicate NotTooLate(h: Handled) {
    h.started && h.fire.Some? ==> 0 <= h.at - h.fire.value <= MISSED_RUN_WINDOW
  }

  ghost predicate Inv(w: World) {
    && w.saves != []
    && LogInOrder(w.handled, w.log)
    && SavesOk(w) && SavesExtend(w.saves, Saved(w)) && MemoryOk(w)
    && (forall t :: 0 <= t < |w.handled| ==> NotTooLate(w.handled[t]))
  }

  lemma TruncateIsMonotone(s: int, t: int)
    requires Truncate(s) <= t
    ensures Truncate(s) <= Truncate(t) <= t
  {
    var m, n := s / SECOND, t / SECOND;
    assert Truncate(s) == m * SECOND && Truncate(t) == n * SECOND;
    assert m <= n;
  }

  lemma InOrderGrows(handled: seq<Handled>, log: seq<Event>, handled': seq<Handled>, log': seq<Event>, e: Event)
    requires handled <= handled' && log <= log' && InOrder(handled, log, e)
    ensures InOrder(handled', log', e)
  {
    if e.index > 0 {
      var j: nat :| j < |log| && WaitedFor(log, j, e);
      assert WaitedFor(log', j, e);
    }
  }

  lemma DoneGrows(log: seq<Event>, log': seq<Event>, serial: nat, n: nat)
    requires log <= log' && DoneUpTo(log, serial, n)
    ensures DoneUpTo(log', serial, n)
  {
    forall i: nat | i < n ensures Done(log', serial, i) {
      assert Done(log, serial, i);
      var j: nat :| j < |log| && log[j].serial == serial && log[j].index == i && log[j].ok;
      assert log'[j] == log[j];
    }
  }

  lemma SoundGrows(handled: seq<Handled>, log: seq<Event>, handled': seq<Handled>, log': seq<Event>, p: Progress)
    requires handled <= handled' && log <= log' && Sound(handled, log, p)
    ensures Sound(handled', log', p)
  {
    if p.status.active.Some? {
      var a := p.status.active.value;
      InOrderGrows(handled, log, handled', log', Event(p.serial, a.taskIndex, a.nextTaskAt, p.delay, true));
      DoneGrows(log, log', p.serial, a.taskIndex);
    } else if p.status.lastRun.Some? && p.status.lastRun.value.result == Succeeded {
      DoneGrows(log, log', p.serial, p.tasks);
    }
  }

  lemma LogGrows(handled: seq<Handled>, handled': seq<Handled>, log: seq<Event>)
    requires handled <= handled' && LogInOrder(handled, log)
    ensures LogInOrder(handled', log)
  {
    forall k | 0 <= k < |log| ensures InOrder(handled', log[..k], log[k]) {
      InOrderGrows(handled, log[..k], handled', log[..k], log[k]);
    }
  }

  // ---- every step keeps the invariant ----------------------------------------------------------

  lemma StoredIsSound(handled: seq<Handled>, log: seq<Event>, p: Progress)
    requires Sound(handled, log, p)
    ensures Sound(handled, log, Stored(p)) && Extends(p, Stored(p))
    ensures forall e :: Ahead(Stored(p), e) <==> Ahead(p, e)
  {
    var q := Stored(p);
    if p.status.active.Some? {
      var a := p.status.active.value;
      var due := Event(p.serial, a.taskIndex, a.nextTaskAt, p.delay, true);
      if a.taskIndex == 0 {
        TruncateIsMonotone(handled[p.serial - 1].at + p.delay * SECOND, a.nextTaskAt);
      } else {
        var j: nat :| j < |log| && WaitedFor(log, j, due);
        TruncateIsMonotone(log[j].at + p.delay * SECOND, a.nextTaskAt);
        assert WaitedFor(log, j, due.(at := Truncate(a.nextTaskAt)));
      }
    }
  }

  lemma WriteKeepsInv(w: World, w': World)
    requires Inv(w) && Write(w, w')
    ensures Inv(w')
  {
    var m := w.memory.value;
    StoredIsSound(w.handled, w.log, m);
    var s := Save(Stored(m), |w.log|);
    assert SaveOk(w.handled, w.log, s);
    forall i | 0 <= i < |w'.saves|
      ensures SaveOk(w'.handled, w'.log, w'.saves[i]) && Extends(w'.saves[i].progress, s.progress) {
      if i < |w.saves| {
        assert w'.saves[i] == w.saves[i];
      }
    }
  }

  lemma HandlingIsSound(handled: seq<Handled>, log: seq<Event>, p: Progress, h: Handled, tasks: Tasks, p': Progress)
    requires Sound(handled, log, p) && Handles(p, h, tasks, |handled| + 1, p')
    ensures Sound(handled + [h], log, p') && Extends(p, p') && NotTooLate(h)
  {
    var handled' := handled + [h];
    assert handled'[|handled|] == h;
    if h.started {
      TruncateIsMonotone(h.at + p'.delay * SECOND, h.at + p'.delay * SECOND);
    }
  }

  lemma SaveStaysOk(handled: seq<Handled>, log: seq<Event>, s: Save, p: Progress, h: Handled, tasks: Tasks,
                    p': Progress)
    requires SaveOk(handled, log, s) && Extends(s.progress, p) && Handles(p, h, tasks, |handled| + 1, p')
    ensures SaveOk(handled + [h], log, s)
  {
    SoundGrows(handled, log, handled + [h], log, s.progress);
  }

  lemma ExtendsIsTransitive(p: Progress, q: Progress, r: Progress)
    requires Extends(p, q) && Extends(q, r)
    ensures Extends(p, r)
  {
  }

  lemma HandleKeepsInv(w: World, w': World, h: Handled, tasks: Tasks)
    requires Inv(w) && Handle(w, w', h, tasks)
    ensures Inv(w')
  {
    var m, m' := w.memory.value, w'.memory.value;
    HandlingIsSound(w.handled, w.log, m, h, tasks, m');
    LogGrows(w.handled, w'.handled, w.log);
    forall i | 0 <= i < |w'.saves|
      ensures SaveOk(w'.handled, w'.log, w'.saves[i]) && Extends(w'.saves[i].progress, m') {
      assert SaveOk(w.handled, w.log, w.saves[i]);
      SaveStaysOk(w.handled, w.log, w.saves[i], m, h, tasks, m');
      ExtendsIsTransitive(w.saves[i].progress, m, m');
    }
  }

  lemma TaskIsSound(handled: seq<Handled>, log: seq<Event>, p: Progress, e: Event, tasks: Tasks, p': Progress)
    requires Sound(handled, log, p) && DoesTask(p, e, tasks, p')
    ensures InOrder(handled, log, e) && Sound(handled, log + [e], p') && Extends(p, p')
  {
    var a := p.status.active.value;
    var due := Event(p.serial, a.taskIndex, a.nextTaskAt, p.delay, true);
    if a.taskIndex > 0 {
      var j: nat :| j < |log| && WaitedFor(log, j, due);
      assert WaitedFor(log, j, e);
    }
    var log' := log + [e];
    assert log'[|log|] == e;
    if e.ok {
      DoneGrows(log, log', p.serial, a.taskIndex);
      assert Done(log', p.serial, a.taskIndex);
      if p'.status.active.Some? {
        var a' := p'.status.active.value;
        TruncateIsMonotone(e.at + p'.delay * SECOND, a'.nextTaskAt);
        assert WaitedFor(log', |log|, Event(p.serial, a'.taskIndex, a'.nextTaskAt, p'.delay, true));
      }
    }
  }

  lemma TaskIsAhead(p: Progress, m: Progress, e: Event, tasks: Tasks, m': Progress)
    requires Extends(p, m) && DoesTask(m, e, tasks, m')
    ensures Ahead(p, e)
  {
  }

  lemma TaskKeepsInv(w: World, w': World, e: Event, tasks: Tasks)
    requires Inv(w) && Task(w, w', e, tasks)
    ensures Inv(w')
  {
    var m, m' := w.memory.value, w'.memory.value;
    TaskIsSound(w.handled, w.log, m, e, tasks, m');
    forall k | 0 <= k < |w'.log| ensures InOrder(w'.handled, w'.log[..k], w'.log[k]) {
      assert w'.log[..k] == if k < |w.log| then w.log[..k] else w.log;
    }
    forall i | 0 <= i < |w'.saves|
      ensures SaveOk(w'.handled, w'.log, w'.saves[i]) && Extends(w'.saves[i].progress, m') {
      var s := w.saves[i];
      assert SaveOk(w.handled, w.log, s);
      SoundGrows(w.handled, w.log, w.handled, w'.log, s.progress);
      TaskIsAhead(s.progress, m, e, tasks, m');
      ExtendsIsTransitive(s.progress, m, m');
    }
  }

  lemma CutKeepsInv(w: World, w': World, at: int, tasks: Tasks)
    requires Inv(w) && Cut(w, w', at, tasks)
    ensures Inv(w')
  {
    var m, m' := w.memory.value, w'.memory.value;
    assert Extends(m, m');
    forall i | 0 <= i < |w'.saves|
      ensures SaveOk(w'.handled, w'.log, w'.saves[i]) && Extends(w'.saves[i].progress, m') {
      assert SaveOk(w.handled, w.log, w.saves[i]);
      ExtendsIsTransitive(w.saves[i].progress, m, m');
    }
  }

  lemma WorkKeepsInv(w: World, w': World, tasks: Tasks)
    requires Inv(w) && Works(w, w', tasks)
    ensures Inv(w')
  {
    if e :| Task(w, w', e, tasks) {
      TaskKeepsInv(w, w', e, tasks);
    } else {
      var at :| Cut(w, w', at, tasks);
      CutKeepsInv(w, w', at, tasks);
    }
  }

  lemma ReadKeepsInv(w: World, w': World)
    requires Inv(w) && (Read(w, w') || Edit(w, w') || Lose(w, w'))
    ensures Inv(w')
  {
    assert SaveOk(w.handled, w.log, w.saves[|w.saves| - 1]);
    assert SavesOk(w');
  }

  lemma StepKeepsInv(w: World, w': World)
    requires Inv(w) && Step(w, w')
    ensures Inv(w')
  {
    if Read(w, w') || Edit(w, w') || Lose(w, w') {
      ReadKeepsInv(w, w');
    } else if Write(w, w') {
      WriteKeepsInv(w, w');
    } else if Takes(w, w') {
      var h, tasks :| Handle(w, w', h, tasks);
      HandleKeepsInv(w, w', h, tasks);
    } else {
      var tasks :| Works(w, w', tasks);
      WorkKeepsInv(w, w', tasks);
    }
  }

  lemma {:induction false} RunKeepsInv(run: seq<World>, k: nat)
    requires IsRun(run) && k < |run|
    ensures Inv(run[k])
  {
    if k > 0 {
      var i := k - 1;
      RunKeepsInv(run, i);
      assert Step(run[i], run[i + 1]);
      StepKeepsInv(run[i], run[i + 1]);
    }
  }

  // ---- the properties --------------------------------------------------------------------------

  // However many writes are lost: a task is begun only once the one before it in the same run has
  // succeeded and the task's delay has passed since, down to the second; the first task, once its delay
  // has passed since the run was started. So nothing follows a failed task.
  lemma TasksGoInOrder(run: seq<World>, n: nat, k: nat)
    requires IsRun(run) && n < |run| && k < |run[n].log|
    ensures InOrder(run[n].handled, run[n].log[..k], run[n].log[k])
  {
    RunKeepsInv(run, n);
  }

  // A lost write makes a run go on from exactly the progress that was written: tasks begun after a
  // status write never go back behind it, and a run that was written down as over does nothing more.
  lemma NothingIsRepeatedOnceSaved(run: seq<World>, n: nat, i: nat, k: nat)
    requires IsRun(run) && n < |run| && i < |run[n].saves|
    requires run[n].saves[i].done <= k < |run[n].log|
    ensures Ahead(run[n].saves[i].progress, run[n].log[k])
  {
    RunKeepsInv(run, n);
    assert SaveOk(run[n].handled, run[n].log, run[n].saves[i]);
  }

  // The run of this number is over and has succeeded, when the list was `tasks` long.
  predicate HasSucceeded(p: Progress, serial: nat, tasks: nat) {
    && p.status.active.None? && p.status.lastRun.Some? && p.status.lastRun.value.result == Succeeded
    && p.serial == serial && p.tasks == tasks
  }

  ghost predicate Knows(w: World, serial: nat, tasks: nat) {
    || (w.memory.Some? && HasSucceeded(w.memory.value, serial, tasks))
    || exists i :: 0 <= i < |w.saves| && HasSucceeded(w.saves[i].progress, serial, tasks)
  }

  lemma NewsComesFromWork(w: World, w': World, serial: nat, tasks: nat)
    requires w.saves != [] && Step(w, w') && Knows(w', serial, tasks) && !Knows(w, serial, tasks)
    ensures w'.memory.Some? && HasSucceeded(w'.memory.value, serial, tasks)
    ensures exists list: Tasks :: Works(w, w', list) && |list| == tasks
  {
    var list: Tasks :| Works(w, w', list);
  }

  // It is known of this reconcile, which ended the run and saw a task list of that length.
  ghost predicate EndsWith(w: World, w': World, serial: nat, tasks: nat, list: Tasks) {
    Works(w, w', list) && |list| == tasks && w'.memory.Some? && HasSucceeded(w'.memory.value, serial, tasks)
  }

  lemma NewsEndsARun(w: World, w': World, serial: nat, tasks: nat) returns (list: Tasks)
    requires w.saves != [] && Step(w, w') && Knows(w', serial, tasks) && !Knows(w, serial, tasks)
    ensures EndsWith(w, w', serial, tasks, list)
  {
    NewsComesFromWork(w, w', serial, tasks);
    list :| Works(w, w', list) && |list| == tasks;
  }

  // Whatever is known of a success goes back to the reconcile that ended the run, and to the task list
  // it saw.
  lemma {:induction false} SuccessWasSeen(run: seq<World>, n: nat, serial: nat, tasks: nat)
    returns (k: nat, list: Tasks)
    requires IsRun(run) && n < |run| && Knows(run[n], serial, tasks)
    ensures k < n && EndsWith(run[k], run[k + 1], serial, tasks, list)
  {
    NothingIsKnownAtFirst(run[0], serial, tasks);
    k := n - 1;
    if Knows(run[k], serial, tasks) {
      k, list := SuccessWasSeen(run, k, serial, tasks);
    } else {
      assert Step(run[k], run[k + 1]);
      list := NewsEndsARun(run[k], run[k + 1], serial, tasks);
    }
  }

  lemma NothingIsKnownAtFirst(w: World, serial: nat, tasks: nat)
    requires Init(w)
    ensures !Knows(w, serial, tasks)
  {
  }

  // A run is written down as Succeeded only after a reconcile that saw a task list of which every task
  // had succeeded in that run.
  lemma SucceededMeansAllTasksDid(run: seq<World>, n: nat, i: nat) returns (k: nat, list: Tasks)
    requires IsRun(run) && n < |run| && i < |run[n].saves|
    requires
      var s := run[n].saves[i].progress.status;
      s.active.None? && s.lastRun.Some? && s.lastRun.value.result == Succeeded
    ensures k < n && Works(run[k], run[k + 1], list)
    ensures run[k + 1].memory.Some? && run[k + 1].memory.value.serial == run[n].saves[i].progress.serial
    ensures DoneUpTo(run[k + 1].log, run[n].saves[i].progress.serial, |list|)
  {
    var p := run[n].saves[i].progress;
    assert HasSucceeded(p, p.serial, p.tasks);
    k, list := SuccessWasSeen(run, n, p.serial, p.tasks);
    RunKeepsInv(run, k + 1);
  }

  // Once what was made of a fire is written down, only later fires are handled: no fire twice, and in order.
  lemma FiresAreHandledOnceAndInOrder(run: seq<World>, n: nat, i: nat, t: nat)
    requires IsRun(run) && n < |run| && i < |run[n].saves|
    requires 1 <= run[n].saves[i].progress.serial <= t < |run[n].handled|
    ensures
      var first, second := run[n].handled[run[n].saves[i].progress.serial - 1].fire, run[n].handled[t].fire;
      first.Some? && second.Some? ==> first.value < second.value
  {
    RunKeepsInv(run, n);
    assert SaveOk(run[n].handled, run[n].log, run[n].saves[i]);
  }

  // LastScheduleTime never goes back, and when the handling of another fire is written down it grows.
  lemma LastScheduleTimeGrows(run: seq<World>, n: nat, i: nat, j: nat)
    requires IsRun(run) && n < |run| && i <= j < |run[n].saves|
    ensures
      var p, q := run[n].saves[i].progress, run[n].saves[j].progress;
      && (p.status.lastScheduleTime.Some? ==>
            && q.status.lastScheduleTime.Some?
            && p.status.lastScheduleTime.value <= q.status.lastScheduleTime.value)
      && q.serial <= |run[n].handled|
      && (p.status.lastScheduleTime.Some? && p.serial < q.serial && run[n].handled[q.serial - 1].fire.Some? ==>
            p.status.lastScheduleTime.value < q.status.lastScheduleTime.value)
  {
    RunKeepsInv(run, n);
    SavesAreInOrder(run, n, i, j);
    var w := run[n];
    assert SaveOk(w.handled, w.log, w.saves[i]) && SaveOk(w.handled, w.log, w.saves[j]);
  }

  lemma {:induction false} SavesAreInOrder(run: seq<World>, n: nat, i: nat, j: nat)
    requires IsRun(run) && n < |run| && i <= j < |run[n].saves|
    ensures Extends(run[n].saves[i].progress, run[n].saves[j].progress)
  {
    RunKeepsInv(run, n);
    if n > 0 && j < |run[n].saves| - 1 {
      var w, w' := run[n - 1], run[n];
      assert Step(w, w');
      assert j < |w.saves| && w.saves[i] == w'.saves[i] && w.saves[j] == w'.saves[j];
      SavesAreInOrder(run, n - 1, i, j);
    }
  }

  // A fire that is more than five minutes old when it is noticed starts nothing.
  lemma LateFiresStartNothing(run: seq<World>, n: nat, t: nat)
    requires IsRun(run) && n < |run| && t < |run[n].handled|
    ensures NotTooLate(run[n].handled[t])
  {
    RunKeepsInv(run, n);
  }

  function LastWorld(run: seq<World>): World
    requires run != []
  {
    run[|run| - 1]
  }

  // ---- when a fire can be handled again --------------------------------------------------------

  // No status that was written knows of this fire or of a later one.
  predicate BehindNoSave(saves: seq<Save>, fire: int) {
    forall i :: 0 <= i < |saves| ==>
      var last := saves[i].progress.status.lastScheduleTime;
      last.Some? ==> last.value < fire
  }

  predicate IsAfter(p: Progress, created: int) {
    p.status.lastScheduleTime.Some? ==> created < p.status.lastScheduleTime.value
  }

  predicate WaitsForWholeSecond(p: Progress) {
    p.status.active.Some? ==> Truncate(p.status.active.value.nextTaskAt) == p.status.active.value.nextTaskAt
  }

  // The written status has a run that still waits.
  predicate IsWaiting(w: World, t: int)
    requires w.saves != []
  {
    Saved(w).status.active.Some? && t <= Saved(w).status.active.value.nextTaskAt
  }

  // No fire before the schedule's creation is on record. A run that still waits is the one in memory.
  ghost predicate TimeInv(w: World)
    requires w.saves != []
  {
    && IsCron(w.next)
    && (forall i :: 0 <= i < |w.saves| ==> IsAfter(w.saves[i].progress, w.created))
    && (w.memory.Some? ==> IsAfter(w.memory.value, w.created))
    && WaitsForWholeSecond(Saved(w))
    && (w.memory.Some? && IsWaiting(w, w.clock + 1) ==> w.memory.value.status.active == Saved(w).status.active)
  }

  lemma WriteKeepsTime(w: World, w': World)
    requires Inv(w) && TimeInv(w) && Write(w, w')
    ensures TimeInv(w')
  {
    var m := w.memory.value;
    assert Sound(w.handled, w.log, m);
    if m.status.active.Some? {
      NextSecond(m.status.active.value.nextTaskAt);
    }
  }

  lemma TaskKeepsTime(w: World, w': World, tasks: Tasks)
    requires w.saves != [] && TimeInv(w) && Works(w, w', tasks)
    ensures w'.saves == w.saves && TimeInv(w')
  {
    assert !IsWaiting(w, w.clock + 1);
    if e :| Task(w, w', e, tasks) {
    } else {
      var at :| Cut(w, w', at, tasks);
    }
  }

  lemma TakeKeepsTime(w: World, w': World, h: Handled, tasks: Tasks)
    requires w.saves != [] && TimeInv(w) && Handle(w, w', h, tasks)
    ensures w'.saves == w.saves && TimeInv(w')
  {
    assert !IsWaiting(w, w.clock + 1);
  }

  lemma StepKeepsTime(w: World, w': World)
    requires Inv(w) && TimeInv(w) && w'.saves != [] && Step(w, w')
    ensures TimeInv(w')
  {
    if Write(w, w') {
      WriteKeepsTime(w, w');
    } else if h, tasks :| Handle(w, w', h, tasks) {
      TakeKeepsTime(w, w', h, tasks);
    } else if tasks :| Works(w, w', tasks) {
      TaskKeepsTime(w, w', tasks);
    }
  }

  lemma {:induction false} RunKeepsTime(run: seq<World>, k: nat)
    requires IsRun(run) && k < |run|
    ensures TimeInv(run[k])
  {
    if k > 0 {
      var i := k - 1;
      RunKeepsTime(run, i);
      RunKeepsInv(run, i);
      assert Step(run[i], run[i + 1]);
      StepKeepsTime(run[i], run[i + 1]);
    }
  }

  // What only grows.
  lemma {:induction false} RunGrows(run: seq<World>, i: nat, j: nat)
    requires IsRun(run) && i <= j < |run|
    ensures run[i].saves <= run[j].saves && run[i].handled <= run[j].handled
    ensures run[i].clock <= run[j].clock && run[i].created == run[j].created
  {
    if i < j {
      RunGrows(run, i, j - 1);
      assert Step(run[j - 1], run[j - 1 + 1]);
    }
  }

  // A written run that waits until then is still waiting when a reconcile reads the clock before.
  lemma {:induction false} WaitsOn(run: seq<World>, i: nat, j: nat, until: int)
    requires IsRun(run) && i <= j < |run| && run[j].clock < until == Truncate(until) && IsWaiting(run[i], until)
    ensures IsWaiting(run[j], until)
  {
    if i < j {
      var k := j - 1;
      assert Step(run[k], run[k + 1]);
      RunGrows(run, k, j);
      WaitsOn(run, i, k, until);
      RunKeepsTime(run, k);
    }
  }

  lemma OneIsHandled(w: World, w': World, t: nat) returns (tasks: Tasks)
    requires w.saves != [] && Step(w, w') && |w.handled| <= t < |w'.handled|
    ensures Handle(w, w', w'.handled[t], tasks)
  {
    var h;
    h, tasks :| Handle(w, w', h, tasks);
  }

  // The step in which number t + 1 of all is handled.
  lemma {:induction false} WhenHandled(run: seq<World>, n: nat, m: nat, t: nat) returns (k: nat, tasks: Tasks)
    requires IsRun(run) && n <= m < |run| && |run[n].handled| <= t < |run[m].handled|
    ensures n <= k < m && Handle(run[k], run[k + 1], run[m].handled[t], tasks)
  {
    assert n < m;
    k := m - 1;
    assert Step(run[k], run[k + 1]);
    if t < |run[k].handled| {
      RunGrows(run, k, m);
      k, tasks := WhenHandled(run, n, k, t);
    } else {
      tasks := OneIsHandled(run[k], run[m], t);
    }
  }

  // In the continuation `more`, the fire is handled, as number t + 1 of all.
  ghost predicate HandledLater(run: seq<World>, more: seq<World>, t: nat, fire: int)
    requires run != []
  {
    && IsRun(run + more)
    && |LastWorld(run).handled| <= t < |LastWorld(run + more).handled|
    && LastWorld(run + more).handled[t].fire == Some(fire)
  }

  // Nobody changes the cron.
  ghost predicate Unedited(run: seq<World>, more: seq<World>)
    requires run != []
  {
    forall i :: 0 <= i < |more| ==> more[i].next == LastWorld(run).next
  }

  ghost predicate CanStillBeHandled(run: seq<World>, fire: int)
    requires run != []
  {
    exists more, t: nat :: HandledLater(run, more, t, fire) && Unedited(run, more)
  }

  ghost predicate CanBeHandledAfterAnEdit(run: seq<World>, fire: int)
    requires run != []
  {
    exists more, t: nat :: HandledLater(run, more, t, fire)
  }

  // It is a fire of the cron, no written status has reached it, no later one has passed yet, and a run
  // that is written down as active ends its wait before the next one.
  predicate IsOpen(w: World, fire: int)
    requires w.saves != []
  {
    && Fires(w.next, fire) && w.created < fire && BehindNoSave(w.saves, fire)
    && w.clock < w.next(fire) && !IsWaiting(w, w.next(fire))
  }

  // Whether a fire, handled before or not, can be handled later on: while the cron is left alone, exactly
  // as long as it is open. So a fire whose status write was lost can be handled again until the next one
  // comes, and one whose write got through never.
  lemma FiresCanBeHandledUntilSaved(run: seq<World>, fire: int)
    requires IsRun(run)
    ensures CanStillBeHandled(run, fire) <==> IsOpen(LastWorld(run), fire)
  {
    if more, t: nat :| HandledLater(run, more, t, fire) && Unedited(run, more) {
      HandledFiresAreAhead(run, more, t, fire);
      HandledFiresAreOpen(run, more, t, fire);
    }
    var w := LastWorld(run);
    if IsOpen(w, fire) {
      var idle := if Saved(w).status.active.Some? then Saved(w).status.active.value.nextTaskAt else fire;
      var at := LaterOf(LaterOf(w.clock, fire), idle);
      RunKeepsTime(run, |run| - 1);
      assert fire < w.next(fire);
      var more := HandleAgain(run, fire, at, [0]);
      assert HandledLater(run, more, |w.handled|, fire);
    }
  }

  function LaterOf(s: int, t: int): int {
    if s < t then t else s
  }

  // When the cron may be changed, any whole second since the creation can come back that no written
  // status has reached.
  lemma AnEditBringsFiresBack(run: seq<World>, fire: int)
    requires IsRun(run)
    ensures CanBeHandledAfterAnEdit(run, fire) <==>
            Truncate(fire) == fire && LastWorld(run).created < fire && BehindNoSave(LastWorld(run).saves, fire)
  {
    var w := LastWorld(run);
    if more, t: nat :| HandledLater(run, more, t, fire) {
      HandledFiresAreAhead(run, more, t, fire);
    }
    if Truncate(fire) == fire && w.created < fire && BehindNoSave(w.saves, fire) {
      var idle := if Saved(w).status.active.Some? then Saved(w).status.active.value.nextTaskAt else fire;
      var at := LaterOf(LaterOf(w.clock, fire), idle);
      NextSecond(at);
      var end := Truncate(at) + SECOND;
      OnlyIsACron(fire, end);
      var more := Edited(run, Only(fire, end));
      var further := HandleAgain(run + more, fire, at, [0]);
      assert run + more + further == run + (more + further);
      assert HandledLater(run, more + further, |w.handled|, fire);
    }
  }

  lemma Edited(run: seq<World>, next: Cron) returns (more: seq<World>)
    requires IsRun(run) && IsCron(next)
    ensures IsRun(run + more) && LastWorld(run + more) == LastWorld(run).(memory := None, next := next)
  {
    var w1 := LastWorld(run).(memory := None);
    assert Lose(LastWorld(run), w1);
    RunGoesOn(run, w1);
    var w2 := w1.(next := next);
    assert Edit(w1, w2);
    RunGoesOn(run + [w1], w2);
    more := [w1, w2];
    assert run + [w1] + [w2] == run + more;
  }

  // A cron that fires at these two times, and from the second on every second.
  function Only(fire: int, end: int): Cron {
    t => if t < fire then fire else if t < end then end else Truncate(t) + SECOND
  }

  lemma NextSecond(t: int)
    ensures t < Truncate(t) + SECOND && Truncate(Truncate(t) + SECOND) == Truncate(t) + SECOND
    ensures Truncate(t) <= t && Truncate(Truncate(t)) == Truncate(t)
  {
    var m := t / SECOND;
    assert Truncate(t) == m * SECOND && Truncate(t) + SECOND == (m + 1) * SECOND;
  }

  lemma SameSecond(t: int, u: int)
    requires t <= u < Truncate(t) + SECOND
    ensures Truncate(u) == Truncate(t)
  {
    var m, n := t / SECOND, u / SECOND;
    assert Truncate(t) == m * SECOND && Truncate(u) == n * SECOND;
    assert m == n;
  }

  lemma OnlyIsACron(fire: int, end: int)
    requires Truncate(fire) == fire < end == Truncate(end)
    ensures IsCron(Only(fire, end)) && Fires(Only(fire, end), fire)
  {
    var next := Only(fire, end);
    forall t ensures t < next(t) && Truncate(next(t)) == next(t) {
      NextSecond(t);
    }
    forall t, u | t <= u < next(t) ensures next(u) == next(t) {
      if end <= t {
        SameSecond(t, u);
      }
    }
  }

  // A fire that is handled later was neither written down nor before the creation.
  lemma HandledFiresAreAhead(run: seq<World>, more: seq<World>, t: nat, fire: int)
    requires IsRun(run) && HandledLater(run, more, t, fire)
    ensures BehindNoSave(LastWorld(run).saves, fire) && LastWorld(run).created < fire && Truncate(fire) == fire
  {
    var all, n := run + more, |run| - 1;
    var w := all[n];
    assert w == LastWorld(run);
    var k, tasks := WhenHandled(all, n, |all| - 1, t);
    RunGrows(all, n, k);
    RunKeepsTime(all, k);
    RunKeepsInv(all, k);
    FiresAreWholeSeconds(all[k].next, fire);
    forall i | 0 <= i < |w.saves|
      ensures
        var last := w.saves[i].progress.status.lastScheduleTime;
        last.Some? ==> last.value < fire
    {
      assert all[k].saves[i] == w.saves[i] && Extends(all[k].saves[i].progress, Saved(all[k]));
    }
  }

  lemma HandledFiresAreOpen(run: seq<World>, more: seq<World>, t: nat, fire: int)
    requires IsRun(run) && HandledLater(run, more, t, fire) && Unedited(run, more)
    ensures
      var w := LastWorld(run);
      Fires(w.next, fire) && w.clock < w.next(fire) && !IsWaiting(w, w.next(fire))
  {
    var all, n := run + more, |run| - 1;
    var w := all[n];
    assert w == LastWorld(run);
    var k, tasks := WhenHandled(all, n, |all| - 1, t);
    assert all[k].next == w.next by {
      if k > n {
        assert all[k] == more[k - |run|];
      }
    }
    RunGrows(all, n, k);
    RunKeepsTime(all, n);
    LatestUntilTheNext(w.next, CatchUpFrom(Saved(all[k]).status, all[k].created), all[k].clock, fire);
    if IsWaiting(w, w.next(fire)) {
      WaitsOn(all, n, k, w.next(fire));
    }
  }

  lemma RunGoesOn(run: seq<World>, w: World)
    requires IsRun(run) && w.saves != [] && Step(LastWorld(run), w)
    ensures IsRun(run + [w])
  {
    var all := run + [w];
    forall i | 0 <= i < |all| - 1 ensures Step(all[i], all[i + 1]) {
      if i + 1 < |run| {
        assert Step(run[i], run[i + 1]);
      }
    }
  }

  // A reconcile at this time that has read the status and finds no active run: if one is written down,
  // the one before lets its task fail.
  lemma Idle(run: seq<World>, at: int) returns (more: seq<World>)
    requires IsRun(run) && LastWorld(run).clock <= at
    requires var p := Saved(LastWorld(run)); p.status.active.Some? ==> p.status.active.value.nextTaskAt <= at
    ensures IsRun(run + more) && more != [] && Unedited(run, more)
    ensures
      var w, idle := LastWorld(run), LastWorld(run + more);
      && idle.memory == Some(Saved(idle)) && Saved(idle).status.active.None? && idle.handled == w.handled
      && idle.clock == at && idle.created == w.created
      && Saved(idle).status.lastScheduleTime == Saved(w).status.lastScheduleTime
  {
    var w := LastWorld(run);
    var p := Saved(w);
    var w1 := w.(clock := at, memory := Some(p));
    assert Read(w, w1);
    RunGoesOn(run, w1);
    more := [w1];
    if p.status.active.Some? {
      var a := p.status.active.value;
      var e := Event(p.serial, a.taskIndex, at, p.delay, false);
      var p' := p.(status := p.status.(active := None, lastRun := Some(LastRun(a.startedAt, at, Failed))));
      var tasks: Tasks := seq(a.taskIndex + 1, i => 0);
      var w2 := w1.(memory := Some(p'), log := w.log + [e]);
      assert Task(w1, w2, e, tasks);
      assert Works(w1, w2, tasks);
      RunGoesOn(run + [w1], w2);
      var w3 := w2.(memory := None, saves := w.saves + [Save(Stored(p'), |w2.log|)]);
      assert Write(w2, w3);
      RunGoesOn(run + [w1] + [w2], w3);
      var w4 := w3.(memory := Some(Saved(w3)));
      assert Read(w3, w4);
      RunGoesOn(run + [w1] + [w2] + [w3], w4);
      more := [w1, w2, w3, w4];
      assert run + [w1] + [w2] + [w3] + [w4] == run + more;
      RunKeepsInv(run, |run| - 1);
      assert Sound(w.handled, w.log, p);
    }
  }

  // The continuation: the next reconcile at this time handles the fire. The run it starts is known by the
  // second it starts in.
  lemma HandleAgain(run: seq<World>, fire: int, at: int, tasks: Tasks) returns (more: seq<World>)
    requires IsRun(run) && tasks != [] && fire <= at && LastWorld(run).clock <= at < LastWorld(run).next(fire)
    requires
      var w := LastWorld(run);
      && Fires(w.next, fire) && w.created < fire && BehindNoSave(w.saves, fire)
      && (Saved(w).status.active.Some? ==> Saved(w).status.active.value.nextTaskAt <= at)
    ensures IsRun(run + more) && Unedited(run, more)
    ensures
      var w, start := LastWorld(run + more), at - fire <= MISSED_RUN_WINDOW;
      && w.handled == LastWorld(run).handled + [Handled(at, Some(fire), start)] && w.memory.Some?
      && (start ==> w.memory.value.status.active.Some? && w.memory.value.status.active.value.id == Truncate(at))
  {
    more := Idle(run, at);
    var idle := LastWorld(run + more);
    assert idle == more[|more| - 1];
    var p := Saved(idle);
    var start, h := at - fire <= MISSED_RUN_WINDOW, Handled(at, Some(fire), at - fire <= MISSED_RUN_WINDOW);
    var status := p.status.(lastScheduleTime := Some(fire));
    var p' := Progress(
      if start then status.(active := Some(Run(Truncate(at), at, 0, at + tasks[0] * SECOND)))
      else status.(lastRun := Some(LastRun(at, at, Skipped))),
      |idle.handled| + 1, tasks[0], p.tasks);
    var taken := idle.(memory := Some(p'), handled := idle.handled + [h]);
    RunKeepsTime(run, |run| - 1);
    FiresAreWholeSeconds(idle.next, fire);
    LatestUntilTheNext(idle.next, CatchUpFrom(p.status, idle.created), at, fire);
    assert Handle(idle, taken, h, tasks);
    RunGoesOn(run + more, taken);
    assert (run + more) + [taken] == run + (more + [taken]);
    more := more + [taken];
  }

  function ActiveID(w: World): Option<int> {
    if w.memory.Some? && w.memory.value.status.active.Some? then Some(w.memory.value.status.active.value.id) else None
  }

  // A reconcile that takes the fire and does the run's one task, and whose status write is lost.
  lemma LostAttempt(run: seq<World>, fire: int, at: int) returns (more: seq<World>)
    requires IsRun(run) && IsOpen(LastWorld(run), fire) && Saved(LastWorld(run)).status.active.None?
    requires LastWorld(run).clock <= at < LastWorld(run).next(fire) && fire <= at <= fire + MISSED_RUN_WINDOW
    ensures |more| == 4 && IsRun(run + more) && ActiveID(more[1]) == Some(Truncate(at))
    ensures
      var w := LastWorld(run);
      LastWorld(run + more) == w.(clock := at, memory := None, handled := w.handled + [Handled(at, Some(fire), true)],
                                  log := w.log + [Event(|w.handled| + 1, 0, at, 0, true)])
  {
    var w := LastWorld(run);
    var p, serial := Saved(w), |w.handled| + 1;
    var h, e := Handled(at, Some(fire), true), Event(serial, 0, at, 0, true);
    var started := p.status.(lastScheduleTime := Some(fire), active := Some(Run(Truncate(at), at, 0, at)));
    var over := started.(active := None, lastRun := Some(LastRun(at, at, Succeeded)));
    var w1 := w.(clock := at, memory := Some(p));
    assert Read(w, w1);
    RunGoesOn(run, w1);
    var w2 := w1.(memory := Some(Progress(started, serial, 0, p.tasks)), handled := w.handled + [h]);
    RunKeepsTime(run, |run| - 1);
    FiresAreWholeSeconds(w.next, fire);
    LatestUntilTheNext(w.next, CatchUpFrom(p.status, w.created), at, fire);
    assert Handle(w1, w2, h, [0]);
    RunGoesOn(run + [w1], w2);
    var w3 := w2.(memory := Some(Progress(over, serial, 0, 1)), log := w.log + [e]);
    assert Task(w2, w3, e, [0]);
    assert Works(w2, w3, [0]);
    RunGoesOn(run + [w1] + [w2], w3);
    var w4 := w3.(memory := None);
    assert Lose(w3, w4);
    RunGoesOn(run + [w1] + [w2] + [w3], w4);
    more := [w1, w2, w3, w4];
    assert run + [w1] + [w2] + [w3] + [w4] == run + more;
  }

  // From any state whose written status is idle and in which the fire is open, the fire's tasks can be done
  // twice: they are done before the status is written, so when that write is lost they are done again, as
  // another run. The two runs have one ID exactly when they start in the same second.
  lemma ALostWriteRepeatsTheFire(run: seq<World>, fire: int, first: int, second: int)
    returns (more: seq<World>, again: seq<World>)
    requires IsRun(run) && IsOpen(LastWorld(run), fire) && Saved(LastWorld(run)).status.active.None?
    requires LastWorld(run).clock <= first <= second < LastWorld(run).next(fire)
    requires fire <= first && second <= fire + MISSED_RUN_WINDOW
    ensures |more| == |again| == 4 && IsRun(run + more + again)
    ensures
      var w, w', n := LastWorld(run), LastWorld(run + more + again), |LastWorld(run).handled|;
      && w'.handled == w.handled + [Handled(first, Some(fire), true), Handled(second, Some(fire), true)]
      && w'.log == w.log + [Event(n + 1, 0, first, 0, true), Event(n + 2, 0, second, 0, true)]
    ensures ActiveID(more[1]).Some? && ActiveID(again[1]).Some?
    ensures ActiveID(more[1]) == ActiveID(again[1]) <==> first / SECOND == second / SECOND
  {
    more := LostAttempt(run, fire, first);
    again := LostAttempt(run + more, fire, second);
  }
}
