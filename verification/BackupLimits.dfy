/**
 Backups made by schedules: the rotation of old ones, the platform's limits that the next one has to
 fit under, and the Panel's rule on keepLast that is meant to make it fit.

 Backups are identified by creation second and name, which is also how they are ordered. A name is
 represented by its place in the order of names.
 */
module BackupLimits {
  import opened Sets
  import opened Wrappers

  import opened BackupPhases

  datatype Id = Id(created: int, name: nat)

  // deleting: the object has a deletion timestamp. schedule and run are the label and the annotation of
  // backups made by a schedule.
  datatype Backup = Backup(phase: Phase, deleting: bool, server: nat, platform: bool, schedule: Option<nat>, run: int)

  type Backups = map<Id, Backup>

  predicate Newer(a: Id, b: Id) {
    a.created > b.created || (a.created == b.created && a.name > b.name)
  }

  predicate IsNewest(ids: set<Id>, a: Id) {
    a in ids && forall b :: b in ids && b != a ==> Newer(a, b)
  }

  // ---- sets of backups -------------------------------------------------------------------------

  function OfSchedule(m: Backups, me: nat): set<Id> {
    set i | i in m && m[i].schedule == Some(me)
  }

  predicate IsLive(b: Backup) {
    b.phase == Completed && !b.deleting
  }

  function Live(m: Backups, me: nat): set<Id> {
    set i | i in m && m[i].schedule == Some(me) && IsLive(m[i])
  }

  function NewerThan(ids: set<Id>, a: Id): set<Id> {
    set i | i in ids && Newer(i, a)
  }

  // A failed backup holds no space and a deleted one is on its way out.
  predicate CountsForLimits(b: Backup) {
    b.platform && b.phase != Failed && !b.deleting
  }

  function PerServer(m: Backups, server: nat): set<Id> {
    set i | i in m && CountsForLimits(m[i]) && m[i].server == server
  }

  function PerOrg(m: Backups): set<Id> {
    set i | i in m && CountsForLimits(m[i])
  }

  // A backup takes a place under the organization's limit as long as it is on the platform, not failed and
  // not deleted, and under its own server's.
  lemma OneBackupMore(m: Backups, i: Id, b: Backup)
    requires i !in m
    ensures |PerOrg(m[i := b])| == |PerOrg(m)| + if b.platform && b.phase != Failed && !b.deleting then 1 else 0
    ensures PerOrg(map[]) == {}
  {
    assert PerOrg(m[i := b]) == if CountsForLimits(b) then PerOrg(m) + {i} else PerOrg(m);
  }

  lemma PerServerIsOfPerOrg(m: Backups, server: nat)
    ensures PerServer(m, server) == set i | i in PerOrg(m) && m[i].server == server
  {
  }

  // ---- rotation --------------------------------------------------------------------------------

  predicate NewestIsCompleted(m: Backups, me: nat) {
    exists i :: i in m && IsNewest(OfSchedule(m, me), i) && m[i].phase == Completed
  }

  // A live completed backup behind the `keep` newest such ones, while the newest of all is completed.
  predicate ShouldGo(m: Backups, me: nat, keep: nat, i: Id) {
    keep > 0 && NewestIsCompleted(m, me) && i in Live(m, me) && |NewerThan(Live(m, me), i)| >= keep
  }

  function Rotated(m: Backups, me: nat, keep: nat): Backups {
    map i | i in m :: if ShouldGo(m, me, keep, i) then m[i].(deleting := true) else m[i]
  }

  lemma RotationKeepsTheOrder(m: Backups, me: nat, keep: nat)
    ensures OfSchedule(Rotated(m, me, keep), me) == OfSchedule(m, me)
    ensures NewestIsCompleted(Rotated(m, me, keep), me) <==> NewestIsCompleted(m, me)
  {
    var m' := Rotated(m, me, keep);
    assert OfSchedule(m', me) == OfSchedule(m, me);
    if NewestIsCompleted(m, me) {
      var i :| i in m && IsNewest(OfSchedule(m, me), i) && m[i].phase == Completed;
      assert i in m' && m'[i].phase == Completed;
    }
    if NewestIsCompleted(m', me) {
      var i :| i in m' && IsNewest(OfSchedule(m', me), i) && m'[i].phase == Completed;
      assert i in m && m[i].phase == Completed;
    }
  }

  // Rotating again finds nothing to delete.
  lemma RotatingTwiceIsRotatingOnce(m: Backups, me: nat, keep: nat)
    ensures Rotated(Rotated(m, me, keep), me, keep) == Rotated(m, me, keep)
  {
    var m' := Rotated(m, me, keep);
    RotationKeepsTheOrder(m, me, keep);
    assert Live(m', me) <= Live(m, me);
    forall i | i in Live(m', me) ensures !ShouldGo(m', me, keep, i) {
      assert !ShouldGo(m, me, keep, i);
      SubsetIsSmaller(NewerThan(Live(m', me), i), NewerThan(Live(m, me), i));
    }
  }

  lemma {:induction false} OldestExists(ids: set<Id>) returns (o: Id)
    requires ids != {}
    ensures o in ids && forall i :: i in ids && i != o ==> Newer(i, o)
    decreases |ids|
  {
    o :| o in ids;
    if ids != {o} {
      var p := OldestExists(ids - {o});
      assert ids == {o} + (ids - {o});
      if Newer(o, p) {
        o := p;
      }
    }
  }

  // The `keep` newest of a set of backups are min(|ids|, keep) many.
  lemma {:induction false} NewestCount(ids: set<Id>, keep: nat, kept: set<Id>)
    requires forall i :: i in kept <==> i in ids && |NewerThan(ids, i)| < keep
    ensures |kept| == if |ids| < keep then |ids| else keep
    decreases |ids|
  {
    if ids == {} {
      assert kept == {};
    } else {
      var o := OldestExists(ids);
      var rest := ids - {o};
      assert NewerThan(ids, o) == rest;
      forall i | i in rest ensures NewerThan(rest, i) == NewerThan(ids, i) {
      }
      var kept' := kept - {o};
      NewestCount(rest, keep, kept');
      if |rest| < keep {
        assert kept == kept' + {o};
      } else {
        assert kept == kept';
      }
    }
  }

  // What rotation leaves: the newest keepLast live completed backups, unless the newest backup of all
  // is not completed, and every other backup.
  lemma RotationLeaves(m: Backups, me: nat, keep: nat)
    ensures keep > 0 && NewestIsCompleted(m, me) ==>
              |Live(Rotated(m, me, keep), me)| == if |Live(m, me)| < keep then |Live(m, me)| else keep
    ensures keep == 0 || !NewestIsCompleted(m, me) ==> Rotated(m, me, keep) == m
    ensures forall i :: i in m && i !in Live(m, me) ==> Rotated(m, me, keep)[i] == m[i]
  {
    if keep > 0 && NewestIsCompleted(m, me) {
      var kept := Live(Rotated(m, me, keep), me);
      forall i ensures i in kept <==> i in Live(m, me) && |NewerThan(Live(m, me), i)| < keep {
        if i in m {
          assert ShouldGo(m, me, keep, i) <==> i in Live(m, me) && |NewerThan(Live(m, me), i)| >= keep;
        }
      }
      NewestCount(Live(m, me), keep, kept);
    }
  }

  // ---- the Panel's rule ------------------------------------------------------------------------

  datatype Action = Command | Restart | Start | Stop | TakeBackup

  datatype Task = Task(action: Action, keepLast: nat)

  datatype Limits = Limits(maxPerServer: nat, maxPerOrg: nat)

  predicate HasRoom(tasks: seq<Task>, limits: Limits) {
    forall t :: t in tasks && t.action == TakeBackup ==> 1 <= t.keepLast < limits.maxPerServer
  }

  // A schedule is refused exactly when it backs up to the platform's limited storage and one of its
  // Backup tasks keeps nothing at all in check, or too much.
  method ScheduleBackupHeadroom(tasks: seq<Task>, toPlatform: bool, limits: Option<Limits>) returns (refused: bool)
    ensures refused <==> toPlatform && limits.Some? && !HasRoom(tasks, limits.value)
  {
    if !toPlatform {
      return false;
    }
    var hasBackup := false;
    for i := 0 to |tasks|
      invariant hasBackup <==> exists j :: 0 <= j < i && tasks[j].action == TakeBackup
    {
      hasBackup := hasBackup || tasks[i].action == TakeBackup;
    }
    if !hasBackup {
      return false;
    }
    if limits.None? {
      return false;
    }
    for i := 0 to |tasks|
      invariant forall j :: 0 <= j < i && tasks[j].action == TakeBackup ==>
                1 <= tasks[j].keepLast < limits.value.maxPerServer
    {
      if tasks[i].action == TakeBackup {
        if tasks[i].keepLast == 0 || tasks[i].keepLast >= limits.value.maxPerServer {
          assert tasks[i] in tasks;
          return true;
        }
      }
    }
    refused := false;
  }

  predicate IsKeep(tasks: seq<Task>, keep: nat) {
    && (forall t :: t in tasks && t.action == TakeBackup ==> t.keepLast <= keep)
    && (keep == 0 || exists t :: t in tasks && t.action == TakeBackup && t.keepLast == keep)
  }

  // The largest keepLast of the Backup tasks.
  method KeepOf(tasks: seq<Task>) returns (keep: nat)
    ensures IsKeep(tasks, keep)
  {
    keep := 0;
    for i := 0 to |tasks|
      invariant IsKeep(tasks[..i], keep)
    {
      var t := tasks[i];
      assert tasks[..i + 1] == tasks[..i] + [t];
      assert t in tasks[..i + 1];
      if t.action == TakeBackup && t.keepLast > keep {
        keep := t.keepLast;
      }
    }
    assert tasks[..|tasks|] == tasks;
  }

  // A schedule that backs up to the platform's storage and that the Panel let through.
  predicate Accepted(tasks: seq<Task>, limits: Limits) {
    HasRoom(tasks, limits) && exists t :: t in tasks && t.action == TakeBackup
  }

  lemma HeadroomBoundsKeep(tasks: seq<Task>, limits: Limits, keep: nat)
    requires Accepted(tasks, limits) && IsKeep(tasks, keep)
    ensures 1 <= keep < limits.maxPerServer
  {
  }

  // ---- lists -----------------------------------------------------------------------------------

  // The API server lists every backup once, in any order.
  ghost predicate IsListOf(items: seq<Id>, ids: set<Id>) {
    && (forall i :: i in items <==> i in ids)
    && (forall i, j :: 0 <= i < j < |items| ==> items[i] != items[j])
  }

  predicate NewestFirst(items: seq<Id>) {
    forall i, j :: 0 <= i < j < |items| ==> Newer(items[i], items[j])
  }

  function Insert(i: Id, items: seq<Id>): (r: seq<Id>)
    requires NewestFirst(items) && i !in items
    ensures NewestFirst(r) && forall j :: j in r <==> j == i || j in items
  {
    if items == [] || Newer(i, items[0]) then [i] + items
    else
      assert items == [items[0]] + items[1..];
      var rest := Insert(i, items[1..]);
      assert forall k :: 0 <= k < |rest| ==> rest[k] in rest;
      assert forall j :: j in items[1..] ==> Newer(items[0], j);
      [items[0]] + rest
  }

  function Sorted(items: seq<Id>): (r: seq<Id>)
    requires forall i, j :: 0 <= i < j < |items| ==> items[i] != items[j]
    ensures NewestFirst(r) && (forall j :: j in r <==> j in items)
    ensures forall k :: 0 <= k < |r| ==> r[k] in items
  {
    if items == [] then []
    else
      assert items == [items[0]] + items[1..];
      Insert(items[0], Sorted(items[1..]))
  }

  lemma FirstDecides(items: seq<Id>, m: Backups, me: nat)
    requires NewestFirst(items) && (forall i :: i in items <==> i in OfSchedule(m, me))
    ensures items != [] ==> items[0] in m
    ensures NewestIsCompleted(m, me) <==> items != [] && m[items[0]].phase == Completed
  {
    if items != [] {
      var n := items[0];
      assert n in items;
      forall b | b in OfSchedule(m, me) && b != n ensures Newer(n, b) {
        var k :| 0 <= k < |items| && items[k] == b;
      }
      assert IsNewest(OfSchedule(m, me), n);
    } else {
      assert OfSchedule(m, me) == {};
    }
  }

  // Those of `some` that are in the list.
  function ListedIn(items: seq<Id>, some: set<Id>): set<Id> {
    set i | i in items && i in some
  }

  lemma OneMoreListed(items: seq<Id>, some: set<Id>, k: nat)
    requires k < |items| && items[k] !in items[..k]
    ensures |ListedIn(items[..k + 1], some)| == |ListedIn(items[..k], some)| + if items[k] in some then 1 else 0
  {
    assert items[..k + 1] == items[..k] + [items[k]];
    var before := ListedIn(items[..k], some);
    assert ListedIn(items[..k + 1], some) == if items[k] in some then before + {items[k]} else before;
  }

  // In a sorted list, what is newer than entry k comes before it.
  lemma NewerComeFirst(items: seq<Id>, ids: set<Id>, some: set<Id>, k: nat)
    requires NewestFirst(items) && (forall i :: i in items <==> i in ids) && some <= ids && k < |items|
    ensures NewerThan(some, items[k]) == ListedIn(items[..k], some)
  {
    forall i | i in some && Newer(i, items[k]) ensures i in items[..k] {
      var j :| 0 <= j < |items| && items[j] == i;
      assert j < k;
      assert items[..k][j] == i;
    }
  }

  // m' is m with backups deleted that rotation may delete.
  predicate PartlyRotated(m: Backups, me: nat, keep: nat, m': Backups) {
    m'.Keys == m.Keys && forall i :: i in m ==> m'[i] == m[i] || m'[i] == Rotated(m, me, keep)[i]
  }

  // ---- whole runs ------------------------------------------------------------------------------

  // ready: the last rotation found every backup over, and none was made since.
  datatype World = World(backups: Backups, ready: bool)

  predicate Finished(b: Backup) {
    b.phase == Completed || b.phase == Failed || b.deleting
  }

  predicate AllFinished(m: Backups, me: nat) {
    forall i :: i in OfSchedule(m, me) ==> Finished(m[i])
  }

  ghost predicate HasRun(m: Backups, me: nat, run: int) {
    exists i :: i in m && m[i].schedule == Some(me) && m[i].run == run
  }

  // A backup with this ID would be the newest of the schedule.
  predicate SortsFirst(m: Backups, me: nat, id: Id) {
    forall j :: j in OfSchedule(m, me) && j != id ==> Newer(id, j)
  }

  // Time passes: backups go on, fail, are deleted, disappear; other servers' backups do as they please.
  ghost predicate Moves(m: Backups, m': Backups, me: nat) {
    forall i :: i in OfSchedule(m', me) ==>
      && i in OfSchedule(m, me) && m'[i].run == m[i].run
      && (CountsForLimits(m'[i]) ==> CountsForLimits(m[i]))
  }

  ghost predicate Passes(w: World, w': World, me: nat) {
    Moves(w.backups, w'.backups, me) && w'.ready == w.ready
  }

  ghost predicate Rotates(w: World, w': World, me: nat, keep: nat) {
    w' == World(Rotated(w.backups, me, keep), AllFinished(w.backups, me))
  }

  ghost predicate Creates(w: World, w': World, me: nat, id: Id, b: Backup) {
    && id !in w.backups && SortsFirst(w.backups, me, id)
    && b.schedule == Some(me) && !HasRun(w.backups, me, b.run)
    && w' == World(w.backups[id := b], false)
  }

  ghost predicate Step(w: World, w': World, me: nat, keep: nat) {
    Passes(w, w', me) || Rotates(w, w', me, keep) || (exists id, b :: Creates(w, w', me, id, b))
  }

  ghost predicate IsRun(run: seq<World>, me: nat, keep: nat) {
    && run != [] && OfSchedule(run[0].backups, me) == {} && !run[0].ready
    && (forall k :: 0 <= k < |run| - 1 ==> Step(run[k], run[k + 1], me, keep))
  }

  // Every backup was over when the rotation before the next one began.
  ghost predicate OneAfterTheOther(run: seq<World>, me: nat, keep: nat) {
    forall k :: 0 <= k < |run| - 1 && !Passes(run[k], run[k + 1], me) && !Rotates(run[k], run[k + 1], me, keep) ==>
        run[k].ready
  }

  // The platform's backups of this server are exactly the schedule's.
  predicate OnlyMine(m: Backups, me: nat, server: nat) {
    forall i :: i in m ==> (m[i].schedule == Some(me) <==> m[i].platform && m[i].server == server)
  }

  ghost function Counted(m: Backups, me: nat): set<Id> {
    set i | i in OfSchedule(m, me) && CountsForLimits(m[i])
  }

  ghost predicate HasNewer(m: Backups, me: nat, i: Id) {
    exists j :: j in OfSchedule(m, me) && Newer(j, i)
  }

  // The counted backups but the newest one of all.
  ghost function Older(m: Backups, me: nat): set<Id> {
    set i | i in Counted(m, me) && HasNewer(m, me, i)
  }

  ghost function Unfinished(m: Backups, me: nat): set<Id> {
    set i | i in Counted(m, me) && m[i].phase != Completed
  }

  lemma PerServerIsCounted(m: Backups, me: nat, server: nat)
    requires OnlyMine(m, me, server)
    ensures PerServer(m, server) == Counted(m, me)
  {
  }

  lemma RotatedIsMine(m: Backups, me: nat, server: nat, keep: nat)
    requires OnlyMine(m, me, server)
    ensures OnlyMine(Rotated(m, me, keep), me, server)
  {
  }

  // How many backups the next Plan counts: the completed ones rotation leaves, and the unfinished ones.
  lemma CountAfterRotation(m: Backups, me: nat, server: nat, keep: nat)
    requires OnlyMine(m, me, server)
    ensures
      var live := if keep > 0 && NewestIsCompleted(m, me) && keep < |Live(m, me)| then keep else |Live(m, me)|;
      |PerServer(Rotated(m, me, keep), server)| == live + |Unfinished(m, me)|
  {
    var m' := Rotated(m, me, keep);
    RotatedIsMine(m, me, server, keep);
    PerServerIsCounted(m', me, server);
    RotationLeaves(m, me, keep);
    assert Unfinished(m', me) == Unfinished(m, me);
    assert Counted(m', me) == Live(m', me) + Unfinished(m', me);
    assert Live(m', me) !! Unfinished(m', me);
  }

  lemma NewestExists(ids: set<Id>) returns (n: Id)
    requires ids != {}
    ensures IsNewest(ids, n)
    decreases |ids|
  {
    n :| n in ids;
    if ids != {n} {
      var p := NewestExists(ids - {n});
      assert ids == {n} + (ids - {n});
      if !Newer(n, p) {
        n := p;
      }
    }
  }

  // The newest backup is over: what is left to count after rotation fits in keepLast.
  lemma RotationMakesRoom(m: Backups, me: nat, keep: nat)
    requires keep > 0 && AllFinished(m, me) && |Older(m, me)| <= keep
    ensures |Counted(Rotated(m, me, keep), me)| <= keep
  {
    var m' := Rotated(m, me, keep);
    RotationLeaves(m, me, keep);
    if NewestIsCompleted(m, me) {
      SubsetIsSmaller(Counted(m', me), Live(m', me));
    } else if OfSchedule(m, me) == {} {
      assert Counted(m', me) == {};
    } else {
      var n := NewestExists(OfSchedule(m, me));
      assert m[n].phase != Completed;
      forall i | i in Counted(m', me) ensures i in Older(m, me) {
        assert Newer(n, i);
      }
      SubsetIsSmaller(Counted(m', me), Older(m, me));
    }
  }

  lemma MovesKeepsOlder(m: Backups, m': Backups, me: nat)
    requires Moves(m, m', me)
    ensures |Older(m', me)| <= |Older(m, me)|
  {
    forall i | i in Older(m', me) ensures i in Older(m, me) {
      var j :| j in OfSchedule(m', me) && Newer(j, i);
      assert j in OfSchedule(m, me);
    }
    SubsetIsSmaller(Older(m', me), Older(m, me));
  }

  // Before and after every step there is room for the newest backup besides the others.
  ghost predicate Fits(w: World, me: nat, keep: nat) {
    |Older(w.backups, me)| <= keep && (w.ready ==> |Counted(w.backups, me)| <= keep)
  }

  lemma PassesKeepsFits(w: World, w': World, me: nat, keep: nat)
    requires Passes(w, w', me) && Fits(w, me, keep)
    ensures Fits(w', me, keep)
  {
    MovesKeepsOlder(w.backups, w'.backups, me);
    SubsetIsSmaller(Counted(w'.backups, me), Counted(w.backups, me));
  }

  lemma RotatesKeepsFits(w: World, w': World, me: nat, keep: nat)
    requires Rotates(w, w', me, keep) && Fits(w, me, keep) && keep > 0
    ensures Fits(w', me, keep)
  {
    RotationMoves(w.backups, me, keep, w'.backups);
    MovesKeepsOlder(w.backups, w'.backups, me);
    if w'.ready {
      RotationMakesRoom(w.backups, me, keep);
    }
  }

  lemma CreatesKeepsFits(w: World, w': World, me: nat, keep: nat, id: Id, b: Backup)
    requires Creates(w, w', me, id, b) && w.ready && Fits(w, me, keep)
    ensures Fits(w', me, keep)
  {
    forall i | i in Older(w'.backups, me) ensures i in Counted(w.backups, me) {
      var j :| j in OfSchedule(w'.backups, me) && Newer(j, i);
      assert j == id || j in OfSchedule(w.backups, me);
      assert i != id;
    }
    SubsetIsSmaller(Older(w'.backups, me), Counted(w.backups, me));
  }

  // Deleting some or all of what rotation may delete is one of the ways backups go.
  lemma RotationMoves(m: Backups, me: nat, keep: nat, m': Backups)
    requires PartlyRotated(m, me, keep, m')
    ensures Moves(m, m', me)
  {
    forall i | i in OfSchedule(m', me)
      ensures i in OfSchedule(m, me) && m'[i].run == m[i].run && (CountsForLimits(m'[i]) ==> CountsForLimits(m[i]))
    {
      assert m'[i] == m[i] || m'[i] == Rotated(m, me, keep)[i];
    }
  }

  lemma {:induction false} AlwaysFits(run: seq<World>, me: nat, keep: nat, k: nat)
    requires IsRun(run, me, keep) && OneAfterTheOther(run, me, keep) && keep > 0 && k < |run|
    ensures Fits(run[k], me, keep)
  {
    if k == 0 {
      assert Older(run[0].backups, me) == {};
    } else {
      AlwaysFits(run, me, keep, k - 1);
      var w, w' := run[k - 1], run[k];
      assert Step(w, w', me, keep);
      if Passes(w, w', me) {
        PassesKeepsFits(w, w', me, keep);
      } else if Rotates(w, w', me, keep) {
        RotatesKeepsFits(w, w', me, keep);
      } else {
        var id, b :| Creates(w, w', me, id, b);
        CreatesKeepsFits(w, w', me, keep, id, b);
      }
    }
  }

  // A schedule the Panel let through never runs into the per-server limit: whenever its last backup is
  // over, what rotation leaves is below the limit that the next Plan checks.
  lemma NextPlanFitsPerServer(run: seq<World>, me: nat, server: nat, tasks: seq<Task>, keep: nat, limits: Limits,
                              k: nat)
    requires IsRun(run, me, keep) && OneAfterTheOther(run, me, keep) && k < |run|
    requires AllFinished(run[k].backups, me) && OnlyMine(run[k].backups, me, server)
    requires Accepted(tasks, limits) && IsKeep(tasks, keep)
    ensures |PerServer(Rotated(run[k].backups, me, keep), server)| <= keep < limits.maxPerServer
  {
    var m := run[k].backups;
    HeadroomBoundsKeep(tasks, limits, keep);
    AlwaysFits(run, me, keep, k);
    RotationMakesRoom(m, me, keep);
    RotatedIsMine(m, me, server, keep);
    PerServerIsCounted(Rotated(m, me, keep), me, server);
  }

  // The same while a rotation that found every backup over is the last thing that was done: the limit
  // that Plan checks is not reached, whatever else has happened since.
  lemma ReadyPlansFit(run: seq<World>, me: nat, server: nat, tasks: seq<Task>, keep: nat, limits: Limits, k: nat)
    requires IsRun(run, me, keep) && OneAfterTheOther(run, me, keep) && k < |run|
    requires run[k].ready && OnlyMine(run[k].backups, me, server)
    requires Accepted(tasks, limits) && IsKeep(tasks, keep)
    ensures |PerServer(run[k].backups, server)| <= keep < limits.maxPerServer
  {
    HeadroomBoundsKeep(tasks, limits, keep);
    AlwaysFits(run, me, keep, k);
    PerServerIsCounted(run[k].backups, me, server);
  }

  // Without waiting for the last backup to be over this fails: an unfinished one is counted beside the
  // completed one that rotation may not touch yet.
  lemma AnUnfinishedBackupFillsTheLimit(me: nat, server: nat)
    ensures
      var prev, last := Backup(Completed, false, server, true, Some(me), 1),
          Backup(Running, false, server, true, Some(me), 2);
      var m: Backups := map[Id(1, 0) := prev, Id(2, 0) := last];
      && HasRoom([Task(TakeBackup, 1)], Limits(2, 2)) && IsKeep([Task(TakeBackup, 1)], 1)
      && OnlyMine(m, me, server) && Rotated(m, me, 1) == m && |PerServer(m, server)| == 2
  {
    var prev, last := Backup(Completed, false, server, true, Some(me), 1),
        Backup(Running, false, server, true, Some(me), 2);
    var m: Backups := map[Id(1, 0) := prev, Id(2, 0) := last];
    assert Task(TakeBackup, 1) in [Task(TakeBackup, 1)];
    assert IsNewest(OfSchedule(m, me), Id(2, 0));
    assert Newer(Id(2, 0), Id(1, 0));
    assert !NewestIsCompleted(m, me);
    assert PerServer(m, server) == {Id(1, 0), Id(2, 0)};
  }

  // ---- one backup a run ------------------------------------------------------------------------

  ghost predicate OnePerRun(m: Backups, me: nat) {
    forall i, j :: i in OfSchedule(m, me) && j in OfSchedule(m, me) && m[i].run == m[j].run ==> i == j
  }

  // However often a run's Backup task is done again, no two backups carry the run's ID.
  lemma {:induction false} OneBackupPerRun(run: seq<World>, me: nat, keep: nat, k: nat)
    requires IsRun(run, me, keep) && k < |run|
    ensures OnePerRun(run[k].backups, me)
  {
    if k > 0 {
      OneBackupPerRun(run, me, keep, k - 1);
      var w, w' := run[k - 1], run[k];
      var m, m' := w.backups, w'.backups;
      assert Step(w, w', me, keep);
      if Passes(w, w', me) {
      } else if Rotates(w, w', me, keep) {
        RotationMoves(m, me, keep, m');
      } else {
        var id, b :| Creates(w, w', me, id, b);
        forall i | i in OfSchedule(m', me) && i != id ensures i in OfSchedule(m, me) && m'[i].run == m[i].run
            && m[i].run != b.run {
        }
      }
    }
  }

  // That rests on a fresh list. When the run's backup is looked for in an older list, a second one is
  // made exactly if there is one and the list does not show it.
  lemma StaleListsMakeSecondBackups(seen: Backups, m: Backups, me: nat, id: Id, b: Backup)
    requires OnePerRun(m, me) && id !in m && b.schedule == Some(me)
    ensures
      var m' := if HasRun(seen, me, b.run) then m else m[id := b];
      OnePerRun(m', me) <==> (HasRun(m, me, b.run) ==> HasRun(seen, me, b.run))
  {
    if !HasRun(seen, me, b.run) {
      var m' := m[id := b];
      if HasRun(m, me, b.run) {
        var i :| i in m && m[i].schedule == Some(me) && m[i].run == b.run;
        assert i in OfSchedule(m', me) && id in OfSchedule(m', me) && m'[i].run == m'[id].run;
      } else {
        forall i | i in OfSchedule(m', me) && i != id ensures i in OfSchedule(m, me) && m'[i] == m[i] {
        }
      }
    }
  }

  // ---- the operations --------------------------------------------------------------------------

  datatype Outcome = Done | NotAvailable | PerServerLimit | PerOrgLimit | Error

  // Whether the planner takes one more backup, and which limit stands against it.
  function PlanOf(m: Backups, server: nat, toPlatform: bool, limits: Option<Limits>): Outcome {
    if !toPlatform then Done
    else if limits.None? then NotAvailable
    else if |PerServer(m, server)| >= limits.value.maxPerServer then PerServerLimit
    else if |PerOrg(m)| >= limits.value.maxPerOrg then PerOrgLimit
    else Done
  }

  // What a Backup task comes to, when no call fails: nothing more if its run has a backup; else a new one, or
  // the limit that stands against it. Names are made up, and a name may be taken.
  ghost function BackedUp(m: Backups, me: nat, server: nat, runID: int, id: Id, toPlatform: bool,
                          limits: Option<Limits>): (Backups, Outcome) {
    if HasRun(m, me, runID) then (m, Done)
    else if PlanOf(m, server, toPlatform, limits) != Done then (m, PlanOf(m, server, toPlatform, limits))
    else if id in m then (m, Error)
    else (m[id := Backup(Unset, false, server, toPlatform, Some(me), runID)], Done)
  }

  // Rotation has got through the backups in `done`.
  function RotatedIn(m: Backups, me: nat, keep: nat, done: set<Id>): Backups {
    map i | i in m :: if i in done then Rotated(m, me, keep)[i] else m[i]
  }

  lemma OneMoreRotated(m: Backups, me: nat, keep: nat, items: seq<Id>, k: nat)
    requires NewestFirst(items) && (forall i :: i in items <==> i in OfSchedule(m, me)) && k < |items|
    requires keep > 0 && NewestIsCompleted(m, me) && items[k] in m
    ensures
      var before, i := ListedIn(items[..k], Live(m, me)), items[k];
      && |ListedIn(items[..k + 1], Live(m, me))| == |before| + (if IsLive(m[i]) then 1 else 0)
      && RotatedIn(m, me, keep, Elements(items[..k + 1])) ==
           (if IsLive(m[i]) && |before| >= keep
               then RotatedIn(m, me, keep, Elements(items[..k]))[i := m[i].(deleting := true)]
            else RotatedIn(m, me, keep, Elements(items[..k])))
      && RotatedIn(m, me, keep, Elements(items[..k]))[i] == m[i]
  {
    var i := items[k];
    assert i in items && i in OfSchedule(m, me);
    assert i !in items[..k];
    NewerComeFirst(items, OfSchedule(m, me), Live(m, me), k);
    OneMoreListed(items, Live(m, me), k);
    assert ShouldGo(m, me, keep, i) <==> IsLive(m[i]) && |ListedIn(items[..k], Live(m, me))| >= keep;
    assert Elements(items[..k + 1]) == Elements(items[..k]) + {i};
  }

  lemma SomeAreRotated(m: Backups, me: nat, keep: nat, done: set<Id>)
    ensures PartlyRotated(m, me, keep, RotatedIn(m, me, keep, done))
  {
  }

  lemma AllRotated(m: Backups, me: nat, keep: nat, items: seq<Id>)
    requires forall i :: i in items <==> i in OfSchedule(m, me)
    ensures RotatedIn(m, me, keep, Elements(items)) == Rotated(m, me, keep)
  {
  }

  lemma KeepIsUnique(tasks: seq<Task>, keep: nat, keep': nat)
    requires IsKeep(tasks, keep) && IsKeep(tasks, keep')
    ensures keep == keep'
  {
  }

  // The backups of the cluster, and the schedule that rotates and makes some of them.
  class Store {
    const quiet: bool // nobody else acts, and no call fails
    var backups: Backups
    const me: nat
    const tasks: seq<Task>
    ghost const keep: nat
    ghost var run: seq<World>

    ghost predicate Valid()
      reads this
    {
      IsKeep(tasks, keep) && IsRun(run, me, keep) && run[|run| - 1].backups == backups
    }

    constructor (me: nat, tasks: seq<Task>, ghost keep: nat, quiet: bool)
      requires IsKeep(tasks, keep)
      ensures Valid() && backups == map[] && this.me == me && this.tasks == tasks && this.keep == keep
                && this.quiet == quiet
    {
      this.quiet := quiet;
      this.me, this.tasks, this.keep := me, tasks, keep;
      backups := map[];
      run := [World(map[], false)];
    }

    // Whether the last rotation found every backup over, and none was made since.
    ghost predicate Ready()
      requires run != []
      reads this
    {
      run[|run| - 1].ready
    }

    ghost method Took(w: World)
      requires IsRun(run, me, keep) && Step(run[|run| - 1], w, me, keep) && IsKeep(tasks, keep) && w.backups == backups
      modifies this`run
      ensures Valid() && run == old(run) + [w]
    {
      run := run + [w];
    }

    // Whether a call that may fail does.
    method Fails() returns (fails: bool)
      ensures quiet ==> !fails
    {
      fails := *;
      fails := fails && !quiet;
    }

    method List(ids: set<Id>) returns (items: seq<Id>)
      ensures IsListOf(items, ids)
      ensures forall k :: 0 <= k < |items| ==> items[k] in ids
    {
      items := [];
      var rest := ids;
      while rest != {}
        invariant rest <= ids && IsListOf(items, ids - rest)
      {
        var i :| i in rest;
        rest := rest - {i};
        items := items + [i];
      }
    }

    method Delete(i: Id) returns (ok: bool)
      requires i in backups
      modifies this`backups
      ensures backups == old(backups) || backups == old(backups)[i := old(backups)[i].(deleting := true)]
      ensures ok ==> backups == old(backups)[i := old(backups)[i].(deleting := true)]
      ensures quiet ==> ok
    {
      var lost := Fails();
      if lost {
        return false;
      }
      backups := backups[i := backups[i].(deleting := true)];
      var unanswered := Fails();
      ok := !unanswered;
    }

    // The loop over the listed backups, newest first.
    method DeleteBeyond(items: seq<Id>, most: nat) returns (ok: bool)
      requires NewestFirst(items) && (forall i :: i in items <==> i in OfSchedule(backups, me))
      requires most > 0 && NewestIsCompleted(backups, me)
      modifies this`backups
      ensures ok ==> backups == Rotated(old(backups), me, most)
      ensures PartlyRotated(old(backups), me, most, backups) && (quiet ==> ok)
    {
      var seen := backups;
      var completed := 0;
      assert backups == RotatedIn(seen, me, most, Elements(items[..0]));
      for k := 0 to |items|
        invariant completed == |ListedIn(items[..k], Live(seen, me))|
        invariant backups == RotatedIn(seen, me, most, Elements(items[..k]))
      {
        var i := items[k];
        assert i in items;
        OneMoreRotated(seen, me, most, items, k);
        if seen[i].phase != Completed || seen[i].deleting {
          continue;
        }
        completed := completed + 1;
        if completed > most {
          var deleted := Delete(i);
          if !deleted {
            SomeAreRotated(seen, me, most, Elements(items[..k]));
            SomeAreRotated(seen, me, most, Elements(items[..k + 1]));
            return false;
          }
        }
      }
      assert items[..|items|] == items;
      SomeAreRotated(seen, me, most, Elements(items));
      AllRotated(seen, me, most, items);
      ok := true;
    }

    // Exactly the backups that should go are deleted, or, when a call fails, some of them.
    method RotateBackups() returns (ok: bool)
      requires IsKeep(tasks, keep)
      modifies this`backups
      ensures ok ==> backups == Rotated(old(backups), me, keep)
      ensures PartlyRotated(old(backups), me, keep, backups) && (quiet ==> ok)
    {
      var most := KeepOf(tasks);
      KeepIsUnique(tasks, keep, most);
      if most == 0 {
        return true;
      }
      var unlisted := Fails();
      if unlisted {
        return false;
      }
      var items := List(OfSchedule(backups, me));
      items := Sorted(items);
      FirstDecides(items, backups, me);
      if items == [] || backups[items[0]].phase != Completed {
        return true;
      }
      ok := DeleteBeyond(items, most);
    }

    // At most one backup for a run, and one the limits leave room for.
    method RunBackup(server: nat, runID: int, id: Id, toPlatform: bool, limits: Option<Limits>) returns (r: Outcome)
      modifies this`backups
      ensures r != Error ==> (backups, r) == BackedUp(old(backups), me, server, runID, id, toPlatform, limits)
      ensures r == Error ==>
                || backups == old(backups)
                || (backups, Done) == BackedUp(old(backups), me, server, runID, id, toPlatform, limits)
      ensures quiet ==> (backups, r) == BackedUp(old(backups), me, server, runID, id, toPlatform, limits)
    {
      var unlisted := Fails();
      if unlisted {
        return Error;
      }
      var items := List(OfSchedule(backups, me));
      for k := 0 to |items|
        invariant forall j :: 0 <= j < k ==> items[j] in backups && backups[items[j]].run != runID
      {
        if backups[items[k]].run == runID {
          return Done;
        }
      }
      forall i | i in OfSchedule(backups, me) ensures backups[i].run != runID {
        assert i in items;
      }
      r := Plan(server, toPlatform, limits);
      if r != Done {
        return;
      }
      var lost := Fails();
      if lost || id in backups {
        return Error;
      }
      backups := backups[id := Backup(Unset, false, server, toPlatform, Some(me), runID)];
      assert backups[id].run == runID;
      var unanswered := Fails();
      r := if unanswered then Error else Done;
    }

    method Plan(server: nat, toPlatform: bool, limits: Option<Limits>) returns (r: Outcome)
      ensures r == Error || r == PlanOf(backups, server, toPlatform, limits)
      ensures quiet ==> r != Error
    {
      var failed := Fails();
      if failed {
        return Error;
      }
      if !toPlatform {
        return Done;
      }
      if limits.None? {
        return NotAvailable;
      }
      var items := List(backups.Keys);
      var perServer, perOrg := 0, 0;
      for k := 0 to |items|
        invariant perOrg == |ListedIn(items[..k], PerOrg(backups))|
        invariant perServer == |ListedIn(items[..k], PerServer(backups, server))|
      {
        OneMoreListed(items, PerOrg(backups), k);
        OneMoreListed(items, PerServer(backups, server), k);
        var b := backups[items[k]];
        if CountsForLimits(b) {
          perOrg := perOrg + 1;
          if b.server == server {
            perServer := perServer + 1;
          }
        }
      }
      assert items[..|items|] == items;
      assert ListedIn(items, PerOrg(backups)) == PerOrg(backups);
      assert ListedIn(items, PerServer(backups, server)) == PerServer(backups, server);
      if perServer >= limits.value.maxPerServer {
        return PerServerLimit;
      }
      if perOrg >= limits.value.maxPerOrg {
        return PerOrgLimit;
      }
      r := Done;
    }

    // What else happens to backups meanwhile.
    method Others()
      requires Valid()
      modifies this`backups, this`run
      ensures Valid() && Moves(old(backups), backups, me) && run == old(run) + [World(backups, old(Ready()))]
      ensures quiet ==> backups == old(backups)
    {
      var next: Backups := *;
      if !quiet && forall i :: i in OfSchedule(next, me) ==>
                       i in OfSchedule(backups, me) && next[i].run == backups[i].run
                           && (CountsForLimits(next[i]) ==> CountsForLimits(backups[i])) {
        backups := next;
      }
      Took(World(backups, Ready()));
    }

    // Rotation as a part of the run: a failed one has deleted some of what it may delete.
    method Rotate() returns (ok: bool)
      requires Valid()
      modifies this`backups, this`run
      ensures Valid()
      ensures ok ==>
                backups == Rotated(old(backups), me, keep)
                    && run == old(run) + [World(backups, AllFinished(old(backups), me))]
      ensures !ok ==> PartlyRotated(old(backups), me, keep, backups) && run == old(run) + [World(backups, old(Ready()))]
      ensures quiet ==> ok
    {
      ok := RotateBackups();
      if ok {
        Took(World(backups, AllFinished(old(backups), me)));
      } else {
        RotationMoves(old(backups), me, keep, backups);
        Took(World(backups, Ready()));
      }
    }

    // A Backup task as a part of the run. The ID that a new backup gets has to sort before the others. An
    // accepted schedule does not run into the per-server limit.
    method DoBackup(server: nat, runID: int, id: Id, toPlatform: bool, limits: Option<Limits>) returns (r: Outcome)
      requires Valid() && SortsFirst(backups, me, id)
      modifies this`backups, this`run
      ensures Valid() && SortsFirst(backups, me, id)
      ensures r != Error || quiet ==> (backups, r) == BackedUp(old(backups), me, server, runID, id, toPlatform, limits)
      ensures r == Done ==> HasRun(backups, me, runID)
      ensures run == old(run)
                || (run == old(run) + [World(backups, false)] && !Passes(old(run)[|old(run)| - 1], run[|run| - 1], me))
      ensures run == old(run) <==> backups == old(backups)
      ensures && old(Ready()) && OneAfterTheOther(old(run), me, keep) && OnlyMine(old(backups), me, server)
              && limits.Some? && Accepted(tasks, limits.value) ==>
                r != PerServerLimit
    {
      if Ready() && OneAfterTheOther(run, me, keep) && OnlyMine(backups, me, server)
         && limits.Some? && Accepted(tasks, limits.value) {
        ReadyPlansFit(run, me, server, tasks, keep, limits.value, |run| - 1);
      }
      r := RunBackup(server, runID, id, toPlatform, limits);
      if backups != old(backups) {
        assert Creates(run[|run| - 1], World(backups, false), me, id,
            Backup(Unset, false, server, toPlatform, Some(me), runID));
        assert id in OfSchedule(backups, me) && id !in OfSchedule(old(backups), me);
        Took(World(backups, false));
      }
    }

    // So many Backup tasks, up to the first that is refused or fails, with others acting in between.
    method DoBackups(server: nat, runID: int, due: nat, id: Id, toPlatform: bool, limits: Option<Limits>)
      returns (r: Outcome)
      requires Valid() && SortsFirst(backups, me, id)
      modifies this`backups, this`run
      ensures Valid() && old(run) <= run
      ensures r == Done && due > 0 ==> exists k :: |old(run)| <= k < |run| && HasRun(run[k].backups, me, runID)
      ensures due == 0 ==> backups == old(backups) && r == Done
      ensures quiet && due > 0 ==> (backups, r) == BackedUp(old(backups), me, server, runID, id, toPlatform, limits)
    {
      r := Done;
      var k := 0;
      ghost var done := |run| - 1;
      while k < due && r == Done
        invariant Valid() && SortsFirst(backups, me, id) && old(run) <= run && k <= due
        invariant r == Done && k > 0 ==> |old(run)| <= done < |run| && HasRun(run[done].backups, me, runID)
        invariant k == 0 ==> backups == old(backups) && r == Done
        invariant quiet && k > 0 ==> (backups, r) == BackedUp(old(backups), me, server, runID, id, toPlatform, limits)
        invariant quiet && k > 0 && r == Done ==> HasRun(backups, me, runID)
        decreases due - k
      {
        Others();
        r := DoBackup(server, runID, id, toPlatform, limits);
        done := |run| - 1;
        k := k + 1;
      }
    }

    // One reconcile of the schedule with so many Backup tasks due: the rotation, then the tasks. `ok` tells
    // that the rotation got through; the tasks come after it only then. `r` is what the last task came to.
    // When no call fails, the rotation gets through, and the first task comes to what it comes to after that.
    method Reconcile(server: nat, runID: int, due: nat, id: Id, toPlatform: bool, limits: Option<Limits>)
      returns (ok: bool, r: Outcome)
      requires Valid() && SortsFirst(backups, me, id)
      modifies this`backups, this`run
      ensures Valid() && OnePerRun(backups, me) && old(run) <= run && |old(run)| < |run|
      ensures ok ==> run[|old(run)|] == World(Rotated(old(backups), me, keep), AllFinished(old(backups), me))
      ensures ok && keep > 0 && NewestIsCompleted(old(backups), me) ==> |Live(run[|old(run)|].backups, me)| <= keep
      ensures !ok ==> PartlyRotated(old(backups), me, keep, backups) && r == Error
      ensures ok && r == Done && due > 0 ==> exists k :: |old(run)| < k < |run| && HasRun(run[k].backups, me, runID)
      ensures ok && due == 0 ==> backups == Rotated(old(backups), me, keep) && r == Done
      ensures quiet ==> ok
      ensures quiet && due > 0 ==>
                (backups, r) == BackedUp(Rotated(old(backups), me, keep), me, server, runID, id, toPlatform, limits)
    {
      r := Error;
      ok := Rotate();
      if ok {
        RotationLeaves(old(backups), me, keep);
        ghost var rotated := run;
        assert rotated <= run && rotated[|old(run)|].backups == backups;
        r := DoBackups(server, runID, due, id, toPlatform, limits);
        assert run[|old(run)|] == rotated[|old(run)|];
      }
      OneBackupPerRun(run, me, keep, |run| - 1);
    }
  }
}
