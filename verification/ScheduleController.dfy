/**
 The schedule controller: catching up over missed fire times, starting a run or recording it as
 skipped, and doing every task that is due. The status is read fresh and written once at the end; the
 write may fail, may succeed although its answer is lost, and the operator may die before it.

 The methods follow the controller branch by branch and are shown to take only steps of
 ScheduleProtocol, whose lemmas then apply. The rotation of backups is in BackupLimits.
 */
module ScheduleController {
  import opened Clock
  import opened Wrappers

  import opened ScheduleProtocol

  // ---- fire times ------------------------------------------------------------------------------

  // Catching up ends at the last fire time that is not ahead, however many were missed.
  method LatestFire(next: Cron, from: int, now: int) returns (latest: Option<int>)
    requires IsCron(next)
    ensures latest.None? ==> NoFireIn(next, from, now)
    ensures latest.Some? ==> IsLatestFire(next, from, now, latest.value)
  {
    var due := next(from);
    NextIsTheFirstFire(next, from);
    if due > now {
      return None;
    }
    var last := due;
    var n := next(last);
    NextIsTheFirstFire(next, last);
    while n <= now
      invariant from < last <= now && Fires(next, last)
      invariant n == next(last) && NoFireIn(next, last, n - 1)
      decreases now - last
    {
      last := n;
      n := next(last);
      NextIsTheFirstFire(next, last);
    }
    latest := Some(last);
  }

  lemma LatestFireIsUnique(next: Cron, from: int, now: int, f: int, g: int)
    requires IsLatestFire(next, from, now, f) && IsLatestFire(next, from, now, g)
    ensures f == g
  {
  }

  // ---- what a reconcile works on ---------------------------------------------------------------

  // The tasks' delays in seconds. A manual request is a non-zero number, a new one each time.
  datatype Spec = Spec(delays: seq<int>, next: Cron, suspend: bool, onlyWhenRunning: bool, runNow: nat, created: int)

  datatype GameServer = GameServer(suspended: bool, restoring: bool, running: bool)

  // What ValidateSchedule lets through.
  ghost predicate ValidSpec(s: Spec) {
    && 1 <= |s.delays| <= 10 && IsCron(s.next)
    && forall i :: 0 <= i < |s.delays| ==> 0 <= s.delays[i] <= 900
  }

  predicate HasTask(s: Spec) {
    |s.delays| >= 1 && s.delays[0] >= 0
  }

  predicate CanRun(spec: Spec, gs: GameServer) {
    !gs.suspended && !gs.restoring && (spec.onlyWhenRunning ==> gs.running)
  }

  // A run begins with its first task's delay, or is written down as skipped.
  predicate StartsOrSkips(spec: Spec, now: int, start: bool, s: Status, s': Status)
    requires |spec.delays| >= 1
  {
    && s'.lastScheduleTime == s.lastScheduleTime && s'.lastRunNow == s.lastRunNow
    && if start then
         && s'.active == Some(Run(Truncate(now), now, 0, now + spec.delays[0] * SECOND))
         && s'.lastRun == s.lastRun
       else s'.active == None && s'.lastRun == Some(LastRun(now, now, Skipped))
  }

  predicate WantsManualRun(spec: Spec, s: Status) {
    spec.runNow != 0 && spec.runNow != s.lastRunNow
  }

  // Whether the task of each index succeeds when it is done.
  type Outcomes = nat -> bool

  // The i-th due task done since progress p: it is the next by index, done at once, and not after a
  // failed one. Only the first had to wait.
  predicate IsNext(delays: seq<int>, ran: Outcomes, now: int, p: Progress, done: seq<Event>, i: nat)
    requires p.status.active.Some? && i < |done|
  {
    var index := p.status.active.value.taskIndex + i;
    && index < |delays|
    && done[i] == Event(p.serial, index, now, if i == 0 then p.delay else 0, ran(index))
    && (i > 0 ==> done[i - 1].ok && delays[index] == 0)
  }

  ghost predicate InARow(delays: seq<int>, ran: Outcomes, now: int, p: Progress, done: seq<Event>)
    requires p.status.active.Some?
  {
    forall i: nat :: i < |done| ==> IsNext(delays, ran, now, p, done, i)
  }

  // Progress p after the tasks `done`, all successful, while there are more.
  ghost predicate Doing(delays: seq<int>, ran: Outcomes, now: int, p: Progress, done: seq<Event>, p': Progress) {
    && p.status.active.Some? && p'.status.active.Some?
    && InARow(delays, ran, now, p, done)
    && if done == [] then p' == p
       else
         var a := p.status.active.value;
         && done[|done| - 1].ok && a.nextTaskAt <= now && a.taskIndex + |done| < |delays|
         && p'.delay == delays[a.taskIndex + |done|]
         && p' == p.(delay := p'.delay, status := p.status.(active :=
              Some(a.(taskIndex := a.taskIndex + |done|, nextTaskAt := now + p'.delay * SECOND))))
  }

  // What doing the due tasks of progress p makes of it: either the next task still has to wait, or the
  // run is over, Failed when the last task done failed and Succeeded when there are no more.
  ghost predicate Advances(delays: seq<int>, ran: Outcomes, now: int, p: Progress, done: seq<Event>, p': Progress) {
    if p'.status.active.Some? then Doing(delays, ran, now, p, done, p') && now < p'.status.active.value.nextTaskAt
    else
      && p.status.active.Some? && p'.serial == p.serial
      && InARow(delays, ran, now, p, done)
      && var a, failed := p.status.active.value, done != [] && !done[|done| - 1].ok;
      && a.nextTaskAt <= now && (!failed ==> a.taskIndex + |done| >= |delays| == p'.tasks)
      && p'.status == p.status.(active := None, lastRun :=
          Some(LastRun(a.startedAt, now, if failed then Failed else Succeeded)))
  }

  // One round of the loop over the due tasks.
  ghost predicate Round(delays: seq<int>, ran: Outcomes, now: int, m: Progress, did: seq<Event>, m': Progress,
                        more: bool) {
    && m.status.active.Some? && m'.serial == m.serial
    && var a := m.status.active.value;
    if now < a.nextTaskAt then did == [] && m' == m && !more
    else if a.taskIndex >= |delays| then
      did == [] && !more && m'.tasks == |delays|
          && m'.status == m.status.(active := None, lastRun := Some(LastRun(a.startedAt, now, Succeeded)))
    else
      && |did| == 1 && did[0] == Event(m.serial, a.taskIndex, now, m.delay, ran(a.taskIndex))
      && more == (did[0].ok && a.taskIndex + 1 < |delays|)
      && if more then
           && m'.delay == delays[a.taskIndex + 1]
           && m' == m.(delay := m'.delay, status := m.status.(active :=
                Some(a.(taskIndex := a.taskIndex + 1, nextTaskAt := now + m'.delay * SECOND))))
         else
           && (did[0].ok ==> m'.tasks == |delays|)
           && m'.status == m.status.(active := None, lastRun :=
                Some(LastRun(a.startedAt, now, if did[0].ok then Succeeded else Failed)))
  }

  lemma OneMoreInARow(delays: seq<int>, ran: Outcomes, now: int, p: Progress, done: seq<Event>, m: Progress, e: Event)
    requires Doing(delays, ran, now, p, done, m) && m.status.active.value.nextTaskAt <= now
    requires m.status.active.value.taskIndex < |delays|
    requires e == Event(m.serial, m.status.active.value.taskIndex, now, m.delay, ran(m.status.active.value.taskIndex))
    ensures InARow(delays, ran, now, p, done + [e])
  {
    var more := done + [e];
    forall i: nat | i < |more| ensures IsNext(delays, ran, now, p, more, i) {
      if i < |done| {
        assert IsNext(delays, ran, now, p, done, i);
      }
    }
  }

  lemma RoundAdvances(delays: seq<int>, ran: Outcomes, now: int, p: Progress, done: seq<Event>, m: Progress,
                      did: seq<Event>, m': Progress, more: bool)
    requires Doing(delays, ran, now, p, done, m) && Round(delays, ran, now, m, did, m', more)
    ensures if more then Doing(delays, ran, now, p, done + did, m') else Advances(delays, ran, now, p, done + did, m')
  {
    if did == [] {
      assert done + did == done;
    } else {
      assert did == [did[0]] && (done + did)[|done|] == did[0];
      OneMoreInARow(delays, ran, now, p, done, m, did[0]);
    }
  }

  // ---- what a reconcile makes of a schedule ----------------------------------------------------

  // A fire or request is taken: what it leaves, numbered by how many have been taken, and the record of it.
  predicate TakesUp(spec: Spec, gs: GameServer, now: int, fire: Option<int>, s: Status, p: Progress, p': Progress,
                    handled: seq<Handled>, handled': seq<Handled>)
    requires HasTask(spec)
  {
    var start := (fire.Some? ==> now - fire.value <= MISSED_RUN_WINDOW) && CanRun(spec, gs);
    && StartsOrSkips(spec, now, start, s, p'.status)
    && p' == Progress(p'.status, |handled| + 1, spec.delays[0], p.tasks)
    && handled' == handled + [Handled(now, fire, start)]
  }

  // A schedule without an active run: a new manual request is taken once and comes first, else the latest
  // fire that has passed since the last one, unless the schedule is suspended; otherwise nothing happens.
  ghost predicate Begins(spec: Spec, gs: GameServer, now: int, p: Progress, p': Progress,
                         handled: seq<Handled>, handled': seq<Handled>)
    requires HasTask(spec)
  {
    var s, from := p.status, CatchUpFrom(p.status, spec.created);
    if s.active.Some? then p' == p && handled' == handled
    else if WantsManualRun(spec, s) then
      TakesUp(spec, gs, now, None, s.(lastRunNow := spec.runNow), p, p', handled, handled')
    else if spec.suspend || NoFireIn(spec.next, from, now) then p' == p && handled' == handled
    else
      exists f :: IsLatestFire(spec.next, from, now, f) &&
                  TakesUp(spec, gs, now, Some(f), s.(lastScheduleTime := Some(f)), p, p', handled, handled')
  }

  // The tasks that are due are done.
  ghost predicate Proceeds(spec: Spec, ran: Outcomes, now: int, p: Progress, done: seq<Event>, p': Progress) {
    if p.status.active.Some? then Advances(spec.delays, ran, now, p, done, p') else done == [] && p' == p
  }

  // Without an active run: a new manual request is handled, at this time, and so is every latest fire unless
  // there is a request or the schedule is suspended; and nothing else is. A run is skipped exactly when the
  // server is suspended, being restored, or not running though it has to be, or when the fire is more than
  // five minutes old.
  lemma DueRunsAreHandled(spec: Spec, gs: GameServer, now: int, p: Progress, p': Progress, handled: seq<Handled>,
                          handled': seq<Handled>)
    requires HasTask(spec) && p.status.active.None? && Begins(spec, gs, now, p, p', handled, handled')
    ensures
      var from := CatchUpFrom(p.status, spec.created);
      var blocked := gs.suspended || gs.restoring || (spec.onlyWhenRunning && !gs.running);
      && (WantsManualRun(spec, p.status) ==>
            && handled' == handled + [Handled(now, None, !blocked)] && p'.status.lastRunNow == spec.runNow
            && p'.status.lastScheduleTime == p.status.lastScheduleTime)
      && (forall f :: !WantsManualRun(spec, p.status) && !spec.suspend && IsLatestFire(spec.next, from, now, f) ==>
            && handled' == handled + [Handled(now, Some(f), !blocked && now - f <= 5 * 60 * SECOND)]
            && p'.status.lastScheduleTime == Some(f) && p'.status.lastRunNow == p.status.lastRunNow)
      && (handled' == handled ==> p' == p)
      && (handled' == handled <==>
            !WantsManualRun(spec, p.status) && (spec.suspend || NoFireIn(spec.next, from, now)))
  {
    var from := CatchUpFrom(p.status, spec.created);
    forall f, g | IsLatestFire(spec.next, from, now, f) && IsLatestFire(spec.next, from, now, g) ensures f == g {
      LatestFireIsUnique(spec.next, from, now, f, g);
    }
  }

  // A run that was started has its first task done in the same reconcile, unless that has a delay.
  lemma StartedRunsBegin(spec: Spec, gs: GameServer, ran: Outcomes, now: int, p: Progress, begun: Progress,
                         p': Progress,
                         handled: seq<Handled>, handled': seq<Handled>, done: seq<Event>)
    requires HasTask(spec) && p.status.active.None? && Begins(spec, gs, now, p, begun, handled, handled')
    requires handled' != handled && handled'[|handled|].started && Proceeds(spec, ran, now, begun, done, p')
    ensures
      if spec.delays[0] > 0
          then done == [] && p'.status.active == Some(Run(Truncate(now), now, 0, now + spec.delays[0] * SECOND))
      else done != [] && done[0] == Event(|handled'|, 0, now, 0, ran(0))
  {
    if spec.delays[0] == 0 {
      assert done != [];
      assert IsNext(spec.delays, ran, now, begun, done, 0);
    }
  }

  // ---- the API server --------------------------------------------------------------------------

  class ScheduleObject {
    var status: Status

    constructor (status: Status)
      ensures this.status == status
    {
      this.status := status;
    }
  }

  class Cluster {
    const quiet: bool // no call fails
    var w: World
    ghost var run: seq<World>

    ghost predicate Valid()
      reads this
    {
      IsRun(run) && run[|run| - 1] == w
    }

    ghost predicate Holds(s: ScheduleObject)
      reads this, s
    {
      w.memory.Some? && w.memory.value.status == s.status
    }

    constructor (next: Cron, created: int, now: int, quiet: bool)
      requires IsCron(next)
      ensures Valid() && Init(w) && this.quiet == quiet
    {
      this.quiet := quiet;
      w := World(next, created, now, [Save(NEW, 0)], None, [], []);
      run := [World(next, created, now, [Save(NEW, 0)], None, [], [])];
    }

    method Take(next: World)
      requires Valid() && next.saves != [] && w.saves != [] && Step(w, next)
      modifies this
      ensures Valid() && w == next && old(run) <= run
    {
      w := next;
      run := run + [next];
    }

    // Users change the cron between reconciles.
    method EditCron(next: Cron)
      requires Valid() && IsCron(next)
      modifies this
      ensures Valid() && old(run) <= run && w == old(w).(memory := None, next := next)
    {
      Take(w.(memory := None));
      Take(w.(next := next));
    }

    // Whether a call that may fail does.
    method Fails() returns (fails: bool)
      ensures quiet ==> !fails
    {
      fails := *;
      fails := fails && !quiet;
    }

    // The schedule is read, and then the clock.
    method GetSchedule(now: int) returns (s: ScheduleObject?, err: bool)
      requires Valid() && w.clock <= now
      modifies this
      ensures Valid() && old(run) <= run
      ensures s != null ==> fresh(s) && Holds(s)
      ensures w == if s == null then old(w) else old(w).(clock := now, memory := Some(Saved(old(w))))
      ensures (quiet ==> s != null) && (s != null ==> !err)
    {
      err := Fails();
      var gone := Fails();
      if err || gone {
        return null, err;
      }
      Take(w.(clock := now, memory := Some(Saved(w))));
      s := new ScheduleObject(w.memory.value.status);
    }

    // One merge patch, without a version check.
    method PatchStatus(s: ScheduleObject) returns (ok: bool)
      requires Valid() && Holds(s)
      modifies this
      ensures Valid() && old(run) <= run && w.handled == old(w.handled) && w.log == old(w.log)
      ensures w.saves == old(w.saves) || w.saves == old(w.saves) + [Save(Stored(old(w.memory.value)), |w.log|)]
      ensures (ok ==> w.saves != old(w.saves)) && (quiet ==> ok)
    {
      var lost := Fails();
      if lost {
        Take(w.(memory := None));
        return false;
      }
      Take(w.(memory := None, saves := w.saves + [Save(Stored(w.memory.value), |w.log|)]));
      var unanswered := Fails();
      ok := !unanswered;
    }
  }

  class ScheduleReconciler {
    const api: Cluster

    constructor (api: Cluster)
      ensures this.api == api
    {
      this.api := api;
    }

    // A reconcile with this spec has begun at this time and done nothing yet.
    ghost predicate Begun(s: ScheduleObject, spec: Spec, now: int)
      reads api, s
    {
      && api.w.saves != [] && api.w.memory == Some(Saved(api.w)) && Saved(api.w).status == s.status
      && api.w.clock == now && api.w.next == spec.next && api.w.created == spec.created
    }

    method Finish(s: ScheduleObject, started: int, now: int, result: RunResult)
      modifies s
      ensures s.status == old(s.status).(active := None, lastRun := Some(LastRun(started, now, result)))
    {
      s.status := s.status.(active := None);
      s.status := s.status.(lastRun := Some(LastRun(started, now, result)));
    }

    method Start(s: ScheduleObject, spec: Spec, gs: GameServer, now: int)
      requires ValidSpec(spec) && s.status.active.None?
      modifies s
      ensures StartsOrSkips(spec, now, CanRun(spec, gs), old(s.status), s.status)
    {
      if gs.suspended || gs.restoring || (spec.onlyWhenRunning && !gs.running) {
        Finish(s, now, now, Skipped);
        return;
      }
      s.status := s.status.(active := Some(Run(Truncate(now), now, 0, now + spec.delays[0] * SECOND)));
    }

    // The fire or request is handled: what became of it is one step of the protocol.
    method Record(s: ScheduleObject, spec: Spec, h: Handled)
      requires api.Valid() && api.w.saves != [] && api.w.memory == Some(Saved(api.w)) && h.at == api.w.clock
      requires ValidSpec(spec)
      requires h.fire.Some? ==>
                 IsLatestFire(api.w.next, CatchUpFrom(Saved(api.w).status, api.w.created), api.w.clock, h.fire.value)
      requires Handles(api.w.memory.value, h, spec.delays, |api.w.handled| + 1,
                       Progress(s.status, |api.w.handled| + 1, spec.delays[0], api.w.memory.value.tasks))
      modifies api
      ensures api.Valid() && old(api.run) <= api.run
      ensures api.w == old(api.w).(
                memory := Some(Progress(s.status, |old(api.w.handled)| + 1, spec.delays[0],
                    old(api.w.memory.value.tasks))),
                handled := old(api.w.handled) + [h])
    {
      var m := Progress(s.status, |api.w.handled| + 1, spec.delays[0], api.w.memory.value.tasks);
      var next := api.w.(memory := Some(m), handled := api.w.handled + [h]);
      assert Handle(api.w, next, h, spec.delays);
      assert Takes(api.w, next);
      api.Take(next);
    }

    // A fire time is taken: it starts a run, unless it is more than five minutes old.
    method TakeFire(s: ScheduleObject, spec: Spec, gs: GameServer, now: int, f: int)
      requires api.Valid() && Begun(s, spec, now) && ValidSpec(spec) && s.status.active.None?
      requires IsLatestFire(spec.next, CatchUpFrom(s.status, spec.created), now, f)
      modifies s, api
      ensures api.Valid() && old(api.run) <= api.run && api.Holds(s)
      ensures api.w == old(api.w).(memory := api.w.memory, handled := api.w.handled)
      ensures TakesUp(spec, gs, now, Some(f), old(s.status).(lastScheduleTime := Some(f)),
                      old(api.w.memory.value), api.w.memory.value, old(api.w.handled), api.w.handled)
    {
      FiresAreWholeSeconds(spec.next, f);
      s.status := s.status.(lastScheduleTime := Some(f));
      if now - f > MISSED_RUN_WINDOW {
        Finish(s, now, now, Skipped);
        Record(s, spec, Handled(now, Some(f), false));
        return;
      }
      Start(s, spec, gs, now);
      Record(s, spec, Handled(now, Some(f), CanRun(spec, gs)));
    }

    // A manual request is taken once and comes first. Otherwise the last fire that has passed is
    // taken, unless there is none since the last one or the schedule is suspended; it starts a run
    // unless it is more than five minutes old.
    method MaybeStart(s: ScheduleObject, spec: Spec, gs: GameServer, now: int)
      requires api.Valid() && Begun(s, spec, now) && ValidSpec(spec) && s.status.active.None?
      modifies s, api
      ensures api.Valid() && old(api.run) <= api.run && api.Holds(s)
      ensures api.w == old(api.w).(memory := api.w.memory, handled := api.w.handled)
                && old(api.w.handled) <= api.w.handled
      ensures Begins(spec, gs, now, Saved(old(api.w)), api.w.memory.value, old(api.w.handled), api.w.handled)
    {
      var v := spec.runNow;
      if v != 0 && v != s.status.lastRunNow {
        s.status := s.status.(lastRunNow := v);
        Start(s, spec, gs, now);
        Record(s, spec, Handled(now, None, CanRun(spec, gs)));
        return;
      }
      if spec.suspend {
        return;
      }
      var from := if s.status.lastScheduleTime.Some? then s.status.lastScheduleTime.value else spec.created;
      var latest := LatestFire(spec.next, from, now);
      if latest.None? {
        return;
      }
      TakeFire(s, spec, gs, now, latest.value);
    }

    // A task has been done: it is one step of the protocol.
    method Log(s: ScheduleObject, spec: Spec, e: Event, delay: nat, tasks: nat)
      requires api.Valid() && api.w.memory.Some? && ValidSpec(spec)
      requires DoesTask(api.w.memory.value, e, spec.delays, Progress(s.status, api.w.memory.value.serial, delay, tasks))
      requires e.at == api.w.clock
      modifies api
      ensures api.Valid() && old(api.run) <= api.run
      ensures api.w == old(api.w).(log := old(api.w.log) + [e],
                                   memory := Some(Progress(s.status, old(api.w.memory.value.serial), delay, tasks)))
    {
      var m := Progress(s.status, api.w.memory.value.serial, delay, tasks);
      var next := api.w.(memory := Some(m), log := api.w.log + [e]);
      assert Task(api.w, next, e, spec.delays);
      assert Works(api.w, next, spec.delays);
      api.Take(next);
    }

    // The run is over although no task was done: the list was cut.
    method EndEarly(s: ScheduleObject, spec: Spec, now: int)
      requires api.Valid() && api.w.memory.Some? && ValidSpec(spec)
      requires Cuts(api.w.memory.value, now, spec.delays,
                 api.w.memory.value.(status := s.status, tasks := |spec.delays|))
      requires now == api.w.clock
      modifies api
      ensures api.Valid() && old(api.run) <= api.run
      ensures api.w == old(api.w).(memory := Some(old(api.w.memory.value).(status := s.status, tasks := |spec.delays|)))
    {
      var next := api.w.(memory := Some(api.w.memory.value.(status := s.status, tasks := |spec.delays|)));
      assert Cut(api.w, next, now, spec.delays);
      assert Works(api.w, next, spec.delays);
      api.Take(next);
    }

    method DoTaskIfDue(s: ScheduleObject, spec: Spec, ran: Outcomes, now: int) returns (more: bool, did: seq<Event>)
      requires api.Valid() && api.Holds(s) && ValidSpec(spec) && s.status.active.Some? && api.w.clock == now
      modifies s, api
      ensures api.Valid() && old(api.run) <= api.run && api.Holds(s)
      ensures api.w == old(api.w).(memory := api.w.memory, log := old(api.w.log) + did)
      ensures Round(spec.delays, ran, now, old(api.w.memory.value), did, api.w.memory.value, more)
    {
      var a := s.status.active.value;
      if now < a.nextTaskAt {
        return false, [];
      }
      if a.taskIndex >= |spec.delays| {
        Finish(s, a.startedAt, now, Succeeded);
        EndEarly(s, spec, now);
        return false, [];
      }
      var ok := ran(a.taskIndex); // the task itself
      var e := Event(api.w.memory.value.serial, a.taskIndex, now, api.w.memory.value.delay, ok);
      var delay, tasks := api.w.memory.value.delay, api.w.memory.value.tasks;
      if !ok {
        Finish(s, a.startedAt, now, Failed);
        Log(s, spec, e, delay, tasks);
        return false, [e];
      }
      a := a.(taskIndex := a.taskIndex + 1);
      if a.taskIndex >= |spec.delays| {
        Finish(s, a.startedAt, now, Succeeded);
        Log(s, spec, e, delay, |spec.delays|);
        return false, [e];
      }
      delay := spec.delays[a.taskIndex];
      a := a.(nextTaskAt := now + delay * SECOND);
      s.status := s.status.(active := Some(a));
      Log(s, spec, e, delay, tasks);
      return true, [e];
    }

    // Every task that is due is done, up to the first that fails or still has to wait.
    method Advance(s: ScheduleObject, spec: Spec, ran: Outcomes, now: int) returns (ghost done: seq<Event>)
      requires api.Valid() && api.Holds(s) && ValidSpec(spec) && s.status.active.Some? && api.w.clock == now
      modifies s, api
      ensures api.Valid() && old(api.run) <= api.run && api.Holds(s)
      ensures api.w == old(api.w).(memory := api.w.memory, log := old(api.w.log) + done)
      ensures Advances(spec.delays, ran, now, old(api.w.memory.value), done, api.w.memory.value)
    {
      ghost var p := api.w.memory.value;
      done := [];
      var more := true;
      while more
        invariant api.Valid() && old(api.run) <= api.run && api.Holds(s)
        invariant api.w == old(api.w).(memory := api.w.memory, log := old(api.w.log) + done)
        invariant more ==> Doing(spec.delays, ran, now, p, done, api.w.memory.value)
        invariant !more ==> Advances(spec.delays, ran, now, p, done, api.w.memory.value)
        decreases more, if more then |spec.delays| - s.status.active.value.taskIndex else 0
      {
        ghost var m := api.w.memory.value;
        var did;
        more, did := DoTaskIfDue(s, spec, ran, now);
        RoundAdvances(spec.delays, ran, now, p, done, m, did, api.w.memory.value, more);
        done := done + did;
      }
    }

    // When to look again: at the next fire time or when the next task is due, whichever comes first, but not
    // within a second.
    function Wake(next: int, active: Option<Run>, now: int): (wake: int)
      ensures SECOND <= wake
      ensures active.Some? && now + SECOND < active.value.nextTaskAt ==> now + wake <= active.value.nextTaskAt
      ensures now + SECOND < next ==> now + wake <= next
      ensures now + SECOND < next && (active.Some? ==> now + SECOND < active.value.nextTaskAt) ==>
                now + wake == next || (active.Some? && now + wake == active.value.nextTaskAt)
    {
      var first := if active.Some? && active.value.nextTaskAt < next then active.value.nextTaskAt else next;
      if first - now < SECOND then SECOND else first - now
    }

    // One reconcile, from any state, dying anywhere. `worked` tells that it got as far as the runs, `begun` is
    // what it made of the status it read before the tasks, and `done` are the tasks it did. What is due is
    // handled, whatever becomes of the writes. Unless an error is reported, what it left is written down, no
    // task that is due is left, and it comes back in time for the next one. When no call fails, it works on
    // every valid schedule whose server is there, once the backups are rotated.
    method Reconcile(spec: Spec, valid: bool, gs: Option<GameServer>, rotated: bool, ran: Outcomes, now: int)
      returns (requeueAfter: int, err: bool, ghost worked: bool, ghost begun: Progress, ghost done: seq<Event>,
          ghost left: Progress)
      requires api.Valid() && api.w.clock <= now
      requires valid ==> ValidSpec(spec) && spec.next == api.w.next && spec.created == api.w.created
      modifies api
      ensures api.Valid() && old(api.run) <= api.run
      ensures worked ==> valid && gs.Some? && rotated
      ensures !worked ==> api.w.log == old(api.w.log) && api.w.handled == old(api.w.handled)
      ensures worked ==>
                && Begins(spec, gs.value, now, Saved(old(api.w)), begun, old(api.w.handled), api.w.handled)
                && Proceeds(spec, ran, now, begun, done, left) && api.w.log == old(api.w.log) + done
      ensures worked && !err ==>
                && api.w.saves == old(api.w.saves) + [Save(Stored(left), |api.w.log|)]
                && (left.status.active.Some? ==> now < left.status.active.value.nextTaskAt)
                && requeueAfter == Wake(spec.next(now), left.status.active, now)
      ensures api.quiet ==> (worked <==> valid && gs.Some? && rotated) && (err <==> valid && gs.Some? && !rotated)
    {
      requeueAfter, worked, begun, done, left := 0, false, NEW, [], NEW;
      var s;
      s, err := api.GetSchedule(now);
      if s == null {
        return;
      }
      if !valid {
        var ok := api.PatchStatus(s);
        return 0, !ok, worked, begun, done, left;
      }
      if gs.None? {
        var ok := api.PatchStatus(s);
        return 60 * SECOND, !ok, worked, begun, done, left;
      }
      if !rotated {
        return 0, true, worked, begun, done, left;
      }
      worked := true;
      if s.status.active.None? {
        MaybeStart(s, spec, gs.value, now);
      }
      begun := api.w.memory.value;
      if s.status.active.Some? {
        done := Advance(s, spec, ran, now);
      }
      left := api.w.memory.value;
      requeueAfter, err := Write(s, spec, now);
    }

    // The status is written, and the next look is at the earlier of the next fire and the next task.
    method Write(s: ScheduleObject, spec: Spec, now: int) returns (requeueAfter: int, err: bool)
      requires api.Valid() && api.Holds(s) && ValidSpec(spec)
      modifies api
      ensures api.Valid() && old(api.run) <= api.run && api.w.log == old(api.w.log)
                && api.w.handled == old(api.w.handled)
      ensures !err ==>
                && api.w.saves == old(api.w.saves) + [Save(Stored(old(api.w.memory.value)), |api.w.log|)]
                && requeueAfter == Wake(spec.next(now), s.status.active, now)
      ensures api.quiet ==> !err
    {
      var next := spec.next(now);
      var ok := api.PatchStatus(s);
      if !ok {
        return 0, true;
      }
      var wake := next - now;
      if s.status.active.Some? {
        var d := s.status.active.value.nextTaskAt - now;
        if d < wake {
          wake := d;
        }
      }
      if wake < SECOND {
        wake := SECOND;
      }
      return wake, false;
    }
  }
}
