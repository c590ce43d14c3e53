/**
 Alerts for things that went wrong: what counts as an occurrence and under which identity, and how
 several replicas of the Panel, checking every 15 seconds, announce each one once by claiming its
 identity for a day.
 */
module Notifier {
  import opened Clock
  import opened Wrappers

  const NOTIFY_MAX_AGE := 15 * MINUTE
  const NOTIFY_MAX_LEAD := MINUTE
  const NOTIFIED_TTL := 24 * 60 * MINUTE

  // ---- occurrences -----------------------------------------------------------------------------

  type UID = nat

  // Times in the status are whole seconds.
  datatype GameServer = GameServer(uid: UID, crashed: Option<int>)

  datatype Backup = Backup(uid: UID, created: int, failed: bool, completed: Option<int>, resumeFailed: Option<int>)

  datatype Run = Run(startedAt: int, finishedAt: Option<int>, failed: bool)

  datatype Schedule = Schedule(uid: UID, lastRun: Option<Run>)

  datatype Identity =
    | GaveUp(uid: UID, since: int)
    | BackupFailed(uid: UID)
    | ResumeFailed(uid: UID)
    | ScheduleFailed(uid: UID, startedAt: int)

  datatype Occurrence = Occurrence(identity: Identity, at: int)

  function OfServer(g: GameServer): seq<Occurrence> {
    if g.crashed.Some? then [Occurrence(GaveUp(g.uid, g.crashed.value), g.crashed.value)] else []
  }

  function OfBackup(b: Backup): seq<Occurrence> {
    (if b.failed then [Occurrence(BackupFailed(b.uid), if b.completed.Some? then b.completed.value else b.created)]
        else []) +
    (if b.resumeFailed.Some? then [Occurrence(ResumeFailed(b.uid), b.resumeFailed.value)] else [])
  }

  function OfSchedule(s: Schedule): seq<Occurrence> {
    if s.lastRun.Some? && s.lastRun.value.failed then
      var r := s.lastRun.value;
      [Occurrence(ScheduleFailed(s.uid, r.startedAt), if r.finishedAt.Some? then r.finishedAt.value else r.startedAt)]
    else []
  }

  function FromServers(gss: seq<GameServer>): seq<Occurrence> {
    if gss == [] then [] else FromServers(gss[..|gss| - 1]) + OfServer(gss[|gss| - 1])
  }

  function FromBackups(bkps: seq<Backup>): seq<Occurrence> {
    if bkps == [] then [] else FromBackups(bkps[..|bkps| - 1]) + OfBackup(bkps[|bkps| - 1])
  }

  function FromSchedules(schs: seq<Schedule>): seq<Occurrence> {
    if schs == [] then [] else FromSchedules(schs[..|schs| - 1]) + OfSchedule(schs[|schs| - 1])
  }

  method DetectInServers(gss: seq<GameServer>) returns (out: seq<Occurrence>)
    ensures out == FromServers(gss)
  {
    out := [];
    for k := 0 to |gss|
      invariant out == FromServers(gss[..k])
    {
      assert gss[..k + 1][..k] == gss[..k];
      var c := gss[k].crashed;
      if c.None? {
        continue;
      }
      out := out + [Occurrence(GaveUp(gss[k].uid, c.value), c.value)];
    }
    assert gss[..|gss|] == gss;
  }

  method DetectInBackups(bkps: seq<Backup>) returns (out: seq<Occurrence>)
    ensures out == FromBackups(bkps)
  {
    out := [];
    for k := 0 to |bkps|
      invariant out == FromBackups(bkps[..k])
    {
      assert bkps[..k + 1][..k] == bkps[..k];
      var b := bkps[k];
      if b.failed {
        var at := b.created;
        if b.completed.Some? {
          at := b.completed.value;
        }
        out := out + [Occurrence(BackupFailed(b.uid), at)];
      }
      if b.resumeFailed.Some? {
        out := out + [Occurrence(ResumeFailed(b.uid), b.resumeFailed.value)];
      }
    }
    assert bkps[..|bkps|] == bkps;
  }

  method DetectInSchedules(schs: seq<Schedule>) returns (out: seq<Occurrence>)
    ensures out == FromSchedules(schs)
  {
    out := [];
    for k := 0 to |schs|
      invariant out == FromSchedules(schs[..k])
    {
      assert schs[..k + 1][..k] == schs[..k];
      var run := schs[k].lastRun;
      if run.None? || !run.value.failed {
        continue;
      }
      var at := run.value.startedAt;
      if run.value.finishedAt.Some? {
        at := run.value.finishedAt.value;
      }
      out := out + [Occurrence(ScheduleFailed(schs[k].uid, run.value.startedAt), at)];
    }
    assert schs[..|schs|] == schs;
  }

  method DetectOccurrences(gss: seq<GameServer>, bkps: seq<Backup>, schs: seq<Schedule>) returns (out: seq<Occurrence>)
    ensures out == FromServers(gss) + FromBackups(bkps) + FromSchedules(schs)
  {
    out := DetectInServers(gss);
    var more := DetectInBackups(bkps);
    out := out + more;
    more := DetectInSchedules(schs);
    out := out + more;
  }

  // What went wrong with an object, and the time that stands for it.
  predicate IsOfServer(o: Occurrence, g: GameServer) {
    o.identity == GaveUp(g.uid, o.at) && g.crashed == Some(o.at)
  }

  predicate IsOfBackup(o: Occurrence, b: Backup) {
    || (o.identity == BackupFailed(b.uid) && b.failed
        && o.at == (if b.completed.Some? then b.completed.value else b.created))
    || (o.identity == ResumeFailed(b.uid) && b.resumeFailed == Some(o.at))
  }

  predicate IsOfSchedule(o: Occurrence, s: Schedule) {
    && s.lastRun.Some? && s.lastRun.value.failed && o.identity == ScheduleFailed(s.uid, s.lastRun.value.startedAt)
    && o.at == if s.lastRun.value.finishedAt.Some? then s.lastRun.value.finishedAt.value else s.lastRun.value.startedAt
  }

  lemma {:induction false} ServersOccur(o: Occurrence, gss: seq<GameServer>)
    ensures o in FromServers(gss) <==> exists g :: g in gss && IsOfServer(o, g)
  {
    if gss != [] {
      var rest, last := gss[..|gss| - 1], gss[|gss| - 1];
      ServersOccur(o, rest);
      assert forall g :: g in gss <==> g in rest || g == last;
      assert o in OfServer(last) <==> IsOfServer(o, last);
    }
  }

  lemma {:induction false} BackupsOccur(o: Occurrence, bkps: seq<Backup>)
    ensures o in FromBackups(bkps) <==> exists b :: b in bkps && IsOfBackup(o, b)
  {
    if bkps != [] {
      var rest, last := bkps[..|bkps| - 1], bkps[|bkps| - 1];
      BackupsOccur(o, rest);
      assert forall b :: b in bkps <==> b in rest || b == last;
      assert o in OfBackup(last) <==> IsOfBackup(o, last);
    }
  }

  lemma {:induction false} SchedulesOccur(o: Occurrence, schs: seq<Schedule>)
    ensures o in FromSchedules(schs) <==> exists s :: s in schs && IsOfSchedule(o, s)
  {
    if schs != [] {
      var rest, last := schs[..|schs| - 1], schs[|schs| - 1];
      SchedulesOccur(o, rest);
      assert forall s :: s in schs <==> s in rest || s == last;
      assert o in OfSchedule(last) <==> IsOfSchedule(o, last);
    }
  }

  // The occurrences are exactly these: servers that were given up on, failed backups, failed resumes and
  // failed runs.
  lemma OccurrencesAreExact(o: Occurrence, gss: seq<GameServer>, bkps: seq<Backup>, schs: seq<Schedule>)
    ensures o in FromServers(gss) + FromBackups(bkps) + FromSchedules(schs) <==>
              || (exists g :: g in gss && IsOfServer(o, g))
              || (exists b :: b in bkps && IsOfBackup(o, b))
              || (exists s :: s in schs && IsOfSchedule(o, s))
  {
    ServersOccur(o, gss);
    BackupsOccur(o, bkps);
    SchedulesOccur(o, schs);
  }

  predicate Distinct(out: seq<Occurrence>) {
    forall i, j :: 0 <= i < j < |out| ==> out[i].identity != out[j].identity
  }

  predicate UIDsIn(out: seq<Occurrence>, uids: set<UID>) {
    forall o :: o in out ==> o.identity.uid in uids
  }

  lemma {:induction false} ServersAreDistinct(gss: seq<GameServer>) returns (uids: set<UID>)
    requires forall i, j :: 0 <= i < j < |gss| ==> gss[i].uid != gss[j].uid
    ensures uids == (set k | 0 <= k < |gss| :: gss[k].uid)
    ensures Distinct(FromServers(gss)) && UIDsIn(FromServers(gss), uids)
    ensures forall o :: o in FromServers(gss) ==> o.identity.GaveUp?
  {
    uids := set k | 0 <= k < |gss| :: gss[k].uid;
    if gss != [] {
      var n := |gss| - 1;
      var rest := ServersAreDistinct(gss[..n]);
      OneMoreObject(FromServers(gss[..n]), OfServer(gss[n]), rest, gss[n].uid, uids);
    }
  }

  lemma {:induction false} BackupsAreDistinct(bkps: seq<Backup>) returns (uids: set<UID>)
    requires forall i, j :: 0 <= i < j < |bkps| ==> bkps[i].uid != bkps[j].uid
    ensures uids == (set k | 0 <= k < |bkps| :: bkps[k].uid)
    ensures Distinct(FromBackups(bkps)) && UIDsIn(FromBackups(bkps), uids)
    ensures forall o :: o in FromBackups(bkps) ==> o.identity.BackupFailed? || o.identity.ResumeFailed?
  {
    uids := set k | 0 <= k < |bkps| :: bkps[k].uid;
    if bkps != [] {
      var n := |bkps| - 1;
      var rest := BackupsAreDistinct(bkps[..n]);
      OneMoreObject(FromBackups(bkps[..n]), OfBackup(bkps[n]), rest, bkps[n].uid, uids);
    }
  }

  lemma {:induction false} SchedulesAreDistinct(schs: seq<Schedule>) returns (uids: set<UID>)
    requires forall i, j :: 0 <= i < j < |schs| ==> schs[i].uid != schs[j].uid
    ensures uids == (set k | 0 <= k < |schs| :: schs[k].uid)
    ensures Distinct(FromSchedules(schs)) && UIDsIn(FromSchedules(schs), uids)
    ensures forall o :: o in FromSchedules(schs) ==> o.identity.ScheduleFailed?
  {
    uids := set k | 0 <= k < |schs| :: schs[k].uid;
    if schs != [] {
      var n := |schs| - 1;
      var rest := SchedulesAreDistinct(schs[..n]);
      OneMoreObject(FromSchedules(schs[..n]), OfSchedule(schs[n]), rest, schs[n].uid, uids);
    }
  }

  lemma OneMoreObject(out: seq<Occurrence>, more: seq<Occurrence>, rest: set<UID>, uid: UID, uids: set<UID>)
    requires Distinct(out) && UIDsIn(out, rest) && uid !in rest && rest <= uids && uid in uids
    requires Distinct(more) && forall o :: o in more ==> o.identity.uid == uid
    ensures Distinct(out + more) && UIDsIn(out + more, uids)
  {
    forall i, j | 0 <= i < j < |out + more| ensures (out + more)[i].identity != (out + more)[j].identity {
      if i < |out| <= j {
        assert out[i] in out && more[j - |out|] in more;
      }
    }
  }

  lemma DistinctTogether(out: seq<Occurrence>, more: seq<Occurrence>)
    requires Distinct(out) && Distinct(more)
    requires forall o, p :: o in out && p in more ==> o.identity != p.identity
    ensures Distinct(out + more)
  {
    forall i, j | 0 <= i < j < |out + more| ensures (out + more)[i].identity != (out + more)[j].identity {
      if i < |out| <= j {
        assert out[i] in out && more[j - |out|] in more;
      }
    }
  }

  // A listing yields no identity twice.
  lemma IdentitiesAreDistinct(gss: seq<GameServer>, bkps: seq<Backup>, schs: seq<Schedule>)
    requires forall i, j :: 0 <= i < j < |gss| ==> gss[i].uid != gss[j].uid
    requires forall i, j :: 0 <= i < j < |bkps| ==> bkps[i].uid != bkps[j].uid
    requires forall i, j :: 0 <= i < j < |schs| ==> schs[i].uid != schs[j].uid
    ensures Distinct(FromServers(gss) + FromBackups(bkps) + FromSchedules(schs))
  {
    var a := ServersAreDistinct(gss);
    var b := BackupsAreDistinct(bkps);
    var c := SchedulesAreDistinct(schs);
    DistinctTogether(FromServers(gss), FromBackups(bkps));
    DistinctTogether(FromServers(gss) + FromBackups(bkps), FromSchedules(schs));
  }

  // ---- claims ----------------------------------------------------------------------------------

  datatype Key = Key(org: string, identity: Identity)

  // An alert that went out: claimed at `at` for an occurrence of time `occurredAt`, by a round that had
  // read the clock at `readAt`.
  datatype Alert = Alert(key: Key, occurredAt: int, readAt: int, at: int)

  predicate Eligible(occurredAt: int, now: int) {
    -NOTIFY_MAX_LEAD <= now - occurredAt <= NOTIFY_MAX_AGE
  }

  // The claims that all replicas share, each with the time it ends, and the alerts that went out.
  datatype Log = Log(claims: map<Key, int>, clock: int, alerts: seq<Alert>)

  predicate Claimed(claims: map<Key, int>, key: Key, now: int) {
    key in claims && now < claims[key]
  }

  predicate CanBeSent(a: Alert) {
    Eligible(a.occurredAt, a.readAt) && a.readAt <= a.at
  }

  // A claim: nothing happens if there is a live one.
  function AfterClaim(claims: map<Key, int>, key: Key, at: int): map<Key, int> {
    if Claimed(claims, key, at) then claims else claims[key := at + NOTIFIED_TTL]
  }

  // A claim without an alert: it was too late, or its answer was lost.
  ghost predicate Claims(l: Log, l': Log, key: Key, at: int) {
    l.clock <= at && l' == l.(claims := AfterClaim(l.claims, key, at), clock := at)
  }

  // A claim that came first, and its alert.
  ghost predicate Sends(l: Log, l': Log, a: Alert) {
    && l.clock <= a.at && CanBeSent(a) && !Claimed(l.claims, a.key, a.at)
    && l' == Log(AfterClaim(l.claims, a.key, a.at), a.at, l.alerts + [a])
  }

  ghost predicate Step(l: Log, l': Log) {
    (exists key, at :: Claims(l, l', key, at)) || (exists a :: Sends(l, l', a))
  }

  ghost predicate IsRun(run: seq<Log>) {
    && run != [] && run[0].claims == map[] && run[0].alerts == []
    && forall k :: 0 <= k < |run| - 1 ==> Step(run[k], run[k + 1])
  }

  predicate StillClaimed(a: Alert, claims: map<Key, int>, clock: int) {
    CanBeSent(a) && a.at <= clock && a.key in claims && a.at + NOTIFIED_TTL <= claims[a.key]
  }

  predicate Inv(l: Log) {
    && (forall k :: 0 <= k < |l.alerts| ==> StillClaimed(l.alerts[k], l.claims, l.clock))
    && (forall j, k :: 0 <= j < k < |l.alerts| && l.alerts[j].key == l.alerts[k].key ==>
        l.alerts[j].at + NOTIFIED_TTL <= l.alerts[k].at)
  }

  lemma StepKeepsInv(l: Log, l': Log)
    requires Inv(l) && Step(l, l')
    ensures Inv(l')
  {
    forall k | 0 <= k < |l.alerts|
      ensures StillClaimed(l.alerts[k], l'.claims, l'.clock)
      ensures |l'.alerts| > |l.alerts| && l.alerts[k].key == l'.alerts[|l.alerts|].key ==>
                l.alerts[k].at + NOTIFIED_TTL <= l'.alerts[|l.alerts|].at
    {
      assert StillClaimed(l.alerts[k], l.claims, l.clock);
    }
  }

  lemma {:induction false} RunKeepsInv(run: seq<Log>, n: nat)
    requires IsRun(run) && n < |run|
    ensures Inv(run[n])
  {
    if n > 0 {
      RunKeepsInv(run, n - 1);
      StepKeepsInv(run[n - 1], run[n]);
    }
  }

  predicate IsAlert(l: Log, k: nat, a: Alert) {
    k < |l.alerts| && l.alerts[k] == a
  }

  ghost predicate InTurn(l: Log, first: Alert, second: Alert) {
    exists j: nat, k: nat :: j < k && IsAlert(l, j, first) && IsAlert(l, k, second)
  }

  // Both alerts go out in this run, in this order.
  ghost predicate SendsBoth(run: seq<Log>, first: Alert, second: Alert) {
    IsRun(run) && InTurn(run[|run| - 1], first, second)
  }

  ghost predicate BothCanBeSent(first: Alert, second: Alert) {
    exists run :: SendsBoth(run, first, second)
  }

  lemma TwoAlertsCanBeSent(first: Alert, second: Alert)
    requires first.key == second.key
    requires CanBeSent(first) && CanBeSent(second) && first.at + NOTIFIED_TTL <= second.at
    ensures BothCanBeSent(first, second)
  {
    var key := first.key;
    var l0 := Log(map[], first.at, []);
    var l1 := Log(map[key := first.at + NOTIFIED_TTL], first.at, [first]);
    var l2 := Log(map[key := second.at + NOTIFIED_TTL], second.at, [first, second]);
    assert Sends(l0, l1, first) && Sends(l1, l2, second);
    assert IsAlert(l2, 0, first) && IsAlert(l2, 1, second);
    assert SendsBoth([l0, l1, l2], first, second);
  }

  // Two alerts of one identity go out, in some run of all the replicas, exactly if each round could send
  // its own and the second claim comes a day or more after the first.
  lemma TwoAlertsAreADayApart(first: Alert, second: Alert)
    requires first.key == second.key
    ensures BothCanBeSent(first, second) <==>
              CanBeSent(first) && CanBeSent(second) && first.at + NOTIFIED_TTL <= second.at
  {
    if run: seq<Log> :| SendsBoth(run, first, second) {
      RunKeepsInv(run, |run| - 1);
      var l := run[|run| - 1];
      var j: nat, k: nat :| j < k && IsAlert(l, j, first) && IsAlert(l, k, second);
      assert StillClaimed(l.alerts[j], l.claims, l.clock) && StillClaimed(l.alerts[k], l.claims, l.clock);
    }
    if CanBeSent(first) && CanBeSent(second) && first.at + NOTIFIED_TTL <= second.at {
      TwoAlertsCanBeSent(first, second);
    }
  }

  const LONGEST_SAFE_DELAY := NOTIFIED_TTL - NOTIFY_MAX_AGE - NOTIFY_MAX_LEAD

  ghost predicate SecondAlert(first: Alert, second: Alert, key: Key, occurredAt: int, delay: int) {
    && first.key == second.key == key && first.occurredAt == second.occurredAt == occurredAt
    && second.at - second.readAt == delay && BothCanBeSent(first, second)
  }

  // An occurrence is announced a second time, by a claim this long after its round has read the clock, in
  // some run exactly if that is 23 hours and 44 minutes or longer.
  lemma SecondAlertsNeedALongDelay(key: Key, occurredAt: int, delay: int)
    ensures (exists first, second :: SecondAlert(first, second, key, occurredAt, delay)) <==>
              delay >= LONGEST_SAFE_DELAY
  {
    if first, second :| SecondAlert(first, second, key, occurredAt, delay) {
      TwoAlertsAreADayApart(first, second);
    }
    if delay >= LONGEST_SAFE_DELAY {
      var early, late := occurredAt - NOTIFY_MAX_LEAD, occurredAt + NOTIFY_MAX_AGE;
      var first := Alert(key, occurredAt, early, early);
      var second := Alert(key, occurredAt, late, late + delay);
      TwoAlertsAreADayApart(first, second);
      assert SecondAlert(first, second, key, occurredAt, delay);
    }
  }

  // The store that all replicas share: SET if absent, with a time to live.
  class NotifiedStore {
    var claims: map<Key, int> // until when each key is claimed
    ghost var clock: int
    ghost var alerts: seq<Alert>
    ghost var run: seq<Log>

    ghost predicate Valid()
      reads this
    {
      IsRun(run) && run[|run| - 1] == Log(claims, clock, alerts)
    }

    constructor (now: int)
      ensures Valid() && alerts == [] && clock == now && claims == map[]
    {
      claims, clock, alerts := map[], now, [];
      run := [Log(map[], now, [])];
    }

    method Claim(key: Key, now: int) returns (claimed: bool)
      modifies this`claims
      ensures claimed == !Claimed(old(claims), key, now)
      ensures claims == if claimed then old(claims)[key := now + NOTIFIED_TTL] else old(claims)
    {
      claimed := !(key in claims && now < claims[key]);
      if claimed {
        claims := claims[key := now + NOTIFIED_TTL];
      }
    }
  }

  datatype Event = GameServerGaveUp | BackupHasFailed | ResumeHasFailed | ScheduleHasFailed

  function EventOf(i: Identity): Event {
    match i
    case GaveUp(_, _) => GameServerGaveUp
    case BackupFailed(_) => BackupHasFailed
    case ResumeFailed(_) => ResumeHasFailed
    case ScheduleFailed(_, _) => ScheduleHasFailed
  }

  predicate HasAlert(sent: seq<Alert>, key: Key) {
    exists i :: 0 <= i < |sent| && sent[i].key == key
  }

  // It is not due or muted or was claimed before, or there is an alert for it.
  predicate Announced(org: string, occ: Occurrence, muted: set<Event>, now: int, claims: map<Key, int>,
                      sent: seq<Alert>) {
    || !Eligible(occ.at, now) || EventOf(occ.identity) in muted || Claimed(claims, Key(org, occ.identity), now)
    || HasAlert(sent, Key(org, occ.identity))
  }

  ghost predicate OnlySentAreClaimed(claims: map<Key, int>, claims': map<Key, int>, now: int, sent: seq<Alert>) {
    forall key :: Claimed(claims', key, now) ==> Claimed(claims, key, now) || HasAlert(sent, key)
  }

  lemma OneMoreAlert(sent: seq<Alert>, a: Alert)
    ensures forall key :: HasAlert(sent + [a], key) <==> HasAlert(sent, key) || key == a.key
  {
    forall key ensures HasAlert(sent + [a], key) <==> HasAlert(sent, key) || key == a.key {
      if i :| 0 <= i < |sent| && sent[i].key == key {
        assert (sent + [a])[i] == sent[i];
      }
      assert (sent + [a])[|sent|] == a;
    }
  }

  // One claim later, what is claimed now was claimed before the round or has an alert of it.
  lemma OneMoreClaim(claims0: map<Key, int>, claims: map<Key, int>, claims': map<Key, int>, now: int, sent: seq<Alert>,
                     key: Key)
    requires OnlySentAreClaimed(claims0, claims, now, sent) && claims' == AfterClaim(claims, key, now)
    requires !Claimed(claims, key, now) ==> HasAlert(sent, key)
    ensures OnlySentAreClaimed(claims0, claims', now, sent)
  {
  }

  // One replica of the Panel. If it is quiet, no call fails and the other replicas do nothing meanwhile.
  class Panel {
    const store: NotifiedStore
    const quiet: bool

    constructor (store: NotifiedStore, quiet: bool)
      ensures this.store == store && this.quiet == quiet
    {
      this.store, this.quiet := store, quiet;
    }

    method Fails() returns (fails: bool)
      ensures quiet ==> !fails
    {
      fails := *;
      fails := fails && !quiet;
    }

    // muted: the organization's settings, None when they cannot be read. The claim may fail before or
    // after it takes effect.
    method Notify(org: string, occ: Occurrence, muted: Option<set<Event>>, readAt: int, at: int) returns (sent: bool)
      requires store.Valid() && store.clock <= at && readAt <= at && Eligible(occ.at, readAt)
      modifies store
      ensures store.Valid() && (store.clock == at || store.clock == old(store.clock))
      ensures store.alerts == if sent then old(store.alerts) + [Alert(Key(org, occ.identity), occ.at, readAt, at)]
                else old(store.alerts)
      ensures sent ==>
                muted.Some? && EventOf(occ.identity) !in muted.value
                    && !Claimed(old(store.claims), Key(org, occ.identity), at)
      ensures quiet && muted.Some? && EventOf(occ.identity) !in muted.value ==>
                sent == !Claimed(old(store.claims), Key(org, occ.identity), at)
      ensures store.claims == old(store.claims)
                || store.claims == AfterClaim(old(store.claims), Key(org, occ.identity), at)
      ensures store.claims != old(store.claims) ==> muted.Some? && EventOf(occ.identity) !in muted.value
    {
      sent := false;
      if muted.None? {
        return;
      }
      if EventOf(occ.identity) in muted.value {
        return;
      }
      var lost := Fails();
      if lost {
        return;
      }
      ghost var l := Log(store.claims, store.clock, store.alerts);
      var key := Key(org, occ.identity);
      var claimed := store.Claim(key, at);
      store.clock := at;
      var unanswered := Fails();
      if !unanswered && claimed {
        store.alerts := store.alerts + [Alert(key, occ.at, readAt, at)];
        assert Sends(l, Log(store.claims, store.clock, store.alerts), Alert(key, occ.at, readAt, at));
      } else {
        assert Claims(l, Log(store.claims, store.clock, store.alerts), key, at);
      }
      store.run := store.run + [Log(store.claims, store.clock, store.alerts)];
      sent := !unanswered && claimed;
    }

    // Other replicas go on, with their own listings.
    method Elsewhere(at: int) returns (later: int)
      requires store.Valid() && store.clock <= at
      modifies store
      ensures store.Valid() && store.clock <= later && at <= later && old(store.alerts) <= store.alerts
      ensures quiet ==> later == at && store.claims == old(store.claims)
    {
      later := at;
      if quiet {
        return;
      }
      var more: nat := *;
      while more > 0
        invariant store.Valid() && store.clock <= later && at <= later && old(store.alerts) <= store.alerts
      {
        var org: string, occ: Occurrence, muted: Option<set<Event>>, readAt: int, next: int := *, *, *, *, *;
        if later <= next && readAt <= next && Eligible(occ.at, readAt) {
          var sent := Notify(org, occ, muted, readAt, next);
          later := next;
        }
        more := more - 1;
      }
    }

    // One round over one organization: the clock is read once, the claims come later. Only what is listed
    // and due is announced; left alone, all of it that was not claimed before.
    method NotifyOnce(org: string, gss: seq<GameServer>, bkps: seq<Backup>, schs: seq<Schedule>,
                      muted: Option<set<Event>>, now: int)
      returns (sent: seq<Alert>)
      requires store.Valid() && store.clock <= now
      modifies store
      ensures store.Valid() && old(store.alerts) <= store.alerts
      ensures forall a :: a in sent ==>
                && a in store.alerts && a.readAt == now && a.key.org == org
                && Occurrence(a.key.identity, a.occurredAt) in FromServers(gss) + FromBackups(bkps) +
                    FromSchedules(schs)
                && muted.Some? && EventOf(a.key.identity) !in muted.value
      ensures quiet && muted.Some? ==>
                forall occ :: occ in FromServers(gss) + FromBackups(bkps) + FromSchedules(schs) ==>
                  Announced(org, occ, muted.value, now, old(store.claims), sent)
    {
      var occs := DetectOccurrences(gss, bkps, schs);
      sent := NotifyAll(org, occs, muted, now);
    }

    method NotifyAll(org: string, occs: seq<Occurrence>, muted: Option<set<Event>>, now: int) returns (sent: seq<Alert>)
      requires store.Valid() && store.clock <= now
      modifies store
      ensures store.Valid() && old(store.alerts) <= store.alerts
      ensures forall a :: a in sent ==>
                && a in store.alerts && a.readAt == now && a.key.org == org
                    && Occurrence(a.key.identity, a.occurredAt) in occs
                && muted.Some? && EventOf(a.key.identity) !in muted.value
      ensures quiet && muted.Some? ==>
                forall j :: 0 <= j < |occs| ==> Announced(org, occs[j], muted.value, now, old(store.claims), sent)
    {
      sent := [];
      var at := now;
      for k := 0 to |occs|
        invariant store.Valid() && store.clock <= at && now <= at && old(store.alerts) <= store.alerts
        invariant forall a :: a in sent ==>
                    && a in store.alerts && a.readAt == now && a.key.org == org
                        && Occurrence(a.key.identity, a.occurredAt) in occs
                    && muted.Some? && EventOf(a.key.identity) !in muted.value
        invariant quiet ==> at == now && OnlySentAreClaimed(old(store.claims), store.claims, now, sent)
        invariant quiet && muted.Some? ==>
                    forall j :: 0 <= j < k ==> Announced(org, occs[j], muted.value, now, old(store.claims), sent)
      {
        var occ := occs[k];
        var age := now - occ.at;
        if age > NOTIFY_MAX_AGE || age < -NOTIFY_MAX_LEAD {
          continue;
        }
        at := Elsewhere(at);
        ghost var claims, before := store.claims, sent;
        var ok := Notify(org, occ, muted, now, at);
        if ok {
          sent := sent + [Alert(Key(org, occ.identity), occ.at, now, at)];
          OneMoreAlert(before, Alert(Key(org, occ.identity), occ.at, now, at));
        }
        if quiet && store.claims != claims {
          OneMoreClaim(old(store.claims), claims, store.claims, now, sent, Key(org, occ.identity));
        }
      }
    }
  }

  // Over all rounds of all replicas on one clock, an occurrence is announced once, unless a replica claims
  // it almost a day after it has read the clock.
  lemma OneAlertPerOccurrence(store: NotifiedStore, j: nat, k: nat)
    requires store.Valid() && j < k < |store.alerts|
    requires store.alerts[j].key == store.alerts[k].key && store.alerts[j].occurredAt == store.alerts[k].occurredAt
    ensures store.alerts[k].at - store.alerts[k].readAt >= LONGEST_SAFE_DELAY
  {
    var l := store.run[|store.run| - 1];
    assert IsAlert(l, j, l.alerts[j]) && IsAlert(l, k, l.alerts[k]);
    assert SendsBoth(store.run, store.alerts[j], store.alerts[k]);
    TwoAlertsAreADayApart(store.alerts[j], store.alerts[k]);
  }
}
