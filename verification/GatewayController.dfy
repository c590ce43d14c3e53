/**
 The gateway exposure controller: one worker that reallocates one server's public ports at a time and
 rebuilds the shared Gateway after each. Other programs act before every API call; reads of a server
 may be stale, the list behind allocation is not. In a quiet cluster nobody interferes and no call fails.

 The methods follow the controller branch by branch and are shown to take only steps of PublicPorts.
 */
module GatewayController {
  import opened Wrappers
  import opened EffectivePorts
  import opened PublicPorts

  // The controller's copy of a server, edited in place and then written under its revision.
  class ServerObject {
    const key: Key
    var rev: nat
    var server: Server

    constructor (key: Key, rev: nat, server: Server)
      ensures this.key == key && this.rev == rev && this.server == server
    {
      this.key, this.rev, this.server := key, rev, server;
    }
  }

  // The outcome of one look at one server.
  datatype Exposure = Disabled | PoolExhausted | Exposed

  // What else a reconcile of one server finds: whether the server is going away, whether its Egg cannot be
  // read although it exists, whether the Routes cannot be applied or pruned, and whether the host or the
  // condition is out of date.
  datatype Answers = Answers(deleting: bool, eggFails: bool, routesFail: bool, outOfDate: bool)

  class Cluster {
    const quiet: bool // nobody else acts, and no call fails
    var w: World
    ghost var run: seq<World>

    ghost predicate Valid()
      reads this
    {
      IsRun(run) && run[|run| - 1] == w && forall k :: k in w.servers ==> w.servers[k].rev <= w.rev
    }

    // The copy is what the server was at that revision, if the server is still at it.
    ghost predicate Authentic(gs: ServerObject, server: Server)
      reads this, gs
    {
      gs.rev <= w.rev && (gs.key in w.servers && w.servers[gs.key].rev == gs.rev ==> w.servers[gs.key].server == server)
    }

    ghost predicate Current(gs: ServerObject)
      reads this, gs
    {
      gs.key in w.servers && w.servers[gs.key].rev == gs.rev
    }

    // Others neither hand out ports nor bring an old revision back.
    twostate predicate Moved()
      reads this
    {
      && old(w.rev) <= w.rev
      && (forall p :: Used(w.servers, p) ==> Used(old(w.servers), p))
      && (forall k :: k in w.servers && w.servers[k].rev <= old(w.rev) ==>
          k in old(w.servers) && old(w.servers)[k] == w.servers[k])
    }

    constructor (quiet: bool)
      ensures Valid() && this.quiet == quiet
    {
      this.quiet := quiet;
      w := World(0, map[], map[]);
      run := [w];
    }

    // Whether a call that may fail does.
    method Fails() returns (fails: bool)
      ensures quiet ==> !fails
    {
      fails := *;
      fails := fails && !quiet;
    }

    method Take(next: World)
      requires Valid() && Step(w, next) && forall k :: k in next.servers ==> next.servers[k].rev <= next.rev
      modifies this
      ensures Valid() && w == next && old(run) <= run
    {
      w := next;
      run := run + [next];
    }

    method Others()
      requires Valid()
      modifies this
      ensures Valid() && Moved() && old(run) <= run && (quiet ==> w == old(w))
    {
      var steps: nat := *;
      while steps > 0 && !quiet
        invariant Valid() && Moved() && old(run) <= run && (quiet ==> w == old(w))
      {
        ghost var before := w;
        var k: Key := *;
        var s: Server := *;
        var delete: bool := *;
        if delete {
          if k in w.servers {
            assert Environment(w, w.(servers := w.servers - {k}), k);
            Take(w.(servers := w.servers - {k}));
            EnvironmentKeepsPorts(before, w, k);
          }
        } else {
          s := s.(ports := if k in w.servers then w.servers[k].server.ports else []);
          var next := w.(rev := w.rev + 1, servers := w.servers[k := Stored(w.rev + 1, s)]);
          assert Environment(w, next, k);
          Take(next);
          EnvironmentKeepsPorts(before, w, k);
        }
        steps := steps - 1;
      }
    }

    lemma EnvironmentKeepsPorts(before: World, after: World, k: Key)
      requires Environment(before, after, k)
      ensures forall p :: Used(after.servers, p) ==> Used(before.servers, p)
    {
      forall p | Used(after.servers, p) ensures Used(before.servers, p) {
        var n, i :| n in after.servers && 0 <= i < |after.servers[n].server.ports|
            && after.servers[n].server.ports[i].port == p;
        assert n in before.servers && before.servers[n].server.ports == after.servers[n].server.ports;
      }
    }

    // A cached read of a server that exists or existed, as old as it may be.
    method Get(k: Key) returns (gs: ServerObject?, err: bool)
      requires Valid()
      modifies this
      ensures Valid() && old(run) <= run
      ensures gs != null ==> fresh(gs) && gs.key == k && Authentic(gs, gs.server) && !err
      ensures quiet ==> !err && w == old(w) && (gs == null <==> k !in w.servers)
      ensures quiet && gs != null ==> Current(gs) && gs.server == w.servers[k].server
    {
      Others();
      err := Fails();
      var found: bool := *;
      var rev: nat := *;
      var s: Server := *;
      if quiet {
        found, rev := k in w.servers, if k in w.servers then w.servers[k].rev else 0;
      }
      if err || !found || rev > w.rev {
        return null, err;
      }
      gs := new ServerObject(k, rev, if k in w.servers && w.servers[k].rev == rev then w.servers[k].server else s);
    }

    // All servers, uncached.
    method List() returns (list: seq<Listed>, err: bool)
      requires Valid()
      modifies this
      ensures Valid() && Moved() && old(run) <= run
      ensures IsListOf(list, w.servers)
      ensures quiet ==> !err && w == old(w)
    {
      Others();
      err := Fails();
      list := [];
      var todo := w.servers.Keys;
      while todo != {}
        invariant todo <= w.servers.Keys
        invariant forall i :: 0 <= i < |list| ==>
                    list[i].key in w.servers && list[i].key !in todo && w.servers[list[i].key].server == list[i].server
        invariant forall i, j :: 0 <= i < j < |list| ==> list[i].key != list[j].key
        invariant forall k :: k in w.servers && k !in todo ==> exists i :: 0 <= i < |list| && list[i].key == k
        modifies {}
        decreases todo
      {
        var k :| k in todo;
        ghost var before := list;
        list := list + [Listed(k, w.servers[k].server)];
        todo := todo - {k};
        assert list[|before|].key == k && forall i :: 0 <= i < |before| ==> list[i] == before[i];
      }
    }

    method UpdateStatus(gs: ServerObject, ghost from: Server, ghost names: set<string>, ghost range: (int, int))
      returns (ok: bool)
      requires Valid() && Authentic(gs, from)
      requires Current(gs) ==> Reallocates(from, gs.server, names, range) && NewPortsAreFree(w.servers, from, gs.server)
      modifies this
      ensures Valid() && old(run) <= run
      ensures ok ==> gs.key in w.servers && w.servers[gs.key].server == gs.server && run != old(run)
      ensures quiet && old(Current(gs)) ==> ok
    {
      Others();
      var lost := Fails();
      if lost || gs.key !in w.servers || w.servers[gs.key].rev != gs.rev {
        return false;
      }
      var next := w.(rev := w.rev + 1, servers := w.servers[gs.key := Stored(w.rev + 1, gs.server)]);
      assert Allocate(w, next, gs.key, names, range);
      Take(next);
      var unanswered := Fails();
      ok := !unanswered;
    }

    // The Gateway is deleted when no listener is left.
    method WriteGateway(listeners: map<string, Listener>) returns (ok: bool)
      requires Valid() && DistinctPorts(listeners)
      modifies this
      ensures Valid() && old(run) <= run && (ok ==> w.gateway == listeners)
      ensures quiet ==> ok && w == old(w).(gateway := listeners)
    {
      Others();
      var lost := Fails();
      if lost {
        return false;
      }
      Take(w.(gateway := listeners));
      ok := true;
    }
  }

  predicate PortsDiffer(ports: seq<Allocation>) {
    forall i, j :: 0 <= i < j < |ports| ==> ports[i].port != ports[j].port
  }

  // The allocations after the first n are new: one for each of these ports in turn, in the range and free.
  ghost predicate NewAfter(n: nat, missing: seq<Port>, ports: seq<Allocation>, servers: map<Key, Stored>,
                           range: (int, int)) {
    forall i :: n <= i < |ports| ==>
      && range.0 <= ports[i].port <= range.1 && !Used(servers, ports[i].port)
      && i - n < |missing| && ports[i].name == missing[i - n].name
  }

  ghost predicate HasPort(s: Server, name: string) {
    exists a :: a in s.ports && a.name == name
  }

  // Every port of the range is in use in the cluster, or is this server's.
  ghost predicate RangeIsUsedUp(servers: map<Key, Stored>, s: Server, range: (int, int)) {
    forall q :: range.0 <= q <= range.1 ==> Used(servers, q) || exists a :: a in s.ports && a.port == q
  }

  // What a look at a server makes of it, whatever the cluster looks like: its allocations go when it is not
  // exposed; otherwise those with an effective name stay, the others go, and every effective name has one.
  ghost predicate LeavesPorts(s: Server, s': Server, names: set<string>, range: (int, int), all: bool) {
    && Reallocates(s, s', names, range)
    && (all && s.exposed ==> forall n :: n in names ==> HasPort(s', n))
  }

  lemma RebuiltListenersServe(run: seq<World>, list: seq<Listed>, eggs: map<Key, seq<Port>>)
    requires IsRun(run) && IsListOf(list, run[|run| - 1].servers)
    ensures Serves(Entries(list, eggs), ByName(Entries(list, eggs))) && DistinctPorts(ByName(Entries(list, eggs)))
  {
    RunKeepsInv(run, |run| - 1);
    RebuiltPortsAreDistinct(list, run[|run| - 1].servers, eggs);
    TheLastOnesServe(Entries(list, eggs));
  }

  class GatewayReconciler {
    const api: Cluster
    const min: int
    const max: int

    constructor (api: Cluster, min: int, max: int)
      ensures this.api == api && this.min == min && this.max == max
    {
      this.api, this.min, this.max := api, min, max;
    }

    function PortNames(effective: seq<Port>): set<string> {
      set i | 0 <= i < |effective| :: effective[i].name
    }

    // Keep the allocations whose name is still effective.
    method KeepEffective(ports: seq<Allocation>, effective: seq<Port>) returns (kept: seq<Allocation>)
      ensures forall a :: a in kept <==> a in ports && a.name in PortNames(effective)
      ensures |kept| <= |ports|
      ensures PortsDiffer(ports) ==> PortsDiffer(kept)
    {
      kept := [];
      ghost var from: seq<int> := [];
      var names := PortNames(effective);
      for i := 0 to |ports|
        invariant |from| == |kept| <= i
        invariant forall k :: 0 <= k < |kept| ==> 0 <= from[k] < i && kept[k] == ports[from[k]] && kept[k].name in names
        invariant forall k, n :: 0 <= k < n < |kept| ==> from[k] < from[n]
        invariant forall k :: 0 <= k < i && ports[k].name in names ==> ports[k] in kept
      {
        if ports[i].name in names {
          kept := kept + [ports[i]];
          from := from + [i];
        }
      }
    }

    method Missing(kept: seq<Allocation>, effective: seq<Port>) returns (missing: seq<Port>)
      ensures forall p :: p in missing <==> p in effective && forall a :: a in kept ==> a.name != p.name
    {
      var haveNames: set<string> := {};
      for i := 0 to |kept|
        invariant forall n :: n in haveNames <==> exists k :: 0 <= k < i && kept[k].name == n
      {
        haveNames := haveNames + {kept[i].name};
      }
      missing := [];
      for i := 0 to |effective|
        invariant forall p :: p in missing <==> exists k :: 0 <= k < i && effective[k] == p && p.name !in haveNames
      {
        if effective[i].name !in haveNames {
          missing := missing + [effective[i]];
        }
      }
    }

    ghost predicate Sane(kept: seq<Allocation>, taken: set<int>) {
      && (forall i :: 0 <= i < |kept| ==> kept[i].port in taken)
      && PortsDiffer(kept)
    }

    // One port per missing name, until the range is used up. What was assigned before that stays.
    method Assign(kept: seq<Allocation>, missing: seq<Port>, taken: set<int>)
      returns (ports: seq<Allocation>, exhausted: bool)
      ensures kept <= ports
      ensures Sane(kept, taken) ==> PortsDiffer(ports)
      ensures forall i :: |kept| <= i < |ports| ==>
                min <= ports[i].port <= max && ports[i].port !in taken
                && i - |kept| < |missing| && ports[i].name == missing[i - |kept|].name
      ensures exhausted ==> forall q :: min <= q <= max ==>
                q in taken || exists i :: |kept| <= i < |ports| && ports[i].port == q
      ensures !exhausted ==> |ports| == |kept| + |missing|
    {
      ports, exhausted := kept, false;
      var used := taken;
      for i := 0 to |missing|
        invariant kept <= ports && |ports| == |kept| + i
        invariant forall q :: q in used <==> q in taken || exists k :: |kept| <= k < |ports| && ports[k].port == q
        invariant Sane(kept, taken) ==> Sane(ports, used)
        invariant forall k :: |kept| <= k < |ports| ==>
                    min <= ports[k].port <= max && ports[k].port !in taken && ports[k].name == missing[k - |kept|].name
      {
        var port := AllocatePublicPort(min, max, used);
        if port.None? {
          return ports, true;
        }
        ghost var before := ports;
        used := used + {port.value};
        ports := ports + [Allocation(missing[i].name, port.value)];
        assert ports[|before|].port == port.value && forall k :: 0 <= k < |before| ==> ports[k] == before[k];
      }
    }

    // The allocations of a server that is still what the copy says are distinct and in use.
    lemma CurrentPortsAreInUse(gs: ServerObject, s: Server)
      requires api.Valid() && api.Current(gs) && api.Authentic(gs, s)
      ensures forall i :: 0 <= i < |s.ports| ==> Used(api.w.servers, s.ports[i].port)
      ensures PortsDiffer(s.ports)
    {
      RunKeepsInv(api.run, |api.run| - 1);
      forall i, j | 0 <= i < j < |s.ports| ensures s.ports[i].port != s.ports[j].port {
        assert InUse(api.w.servers, gs.key, i) && InUse(api.w.servers, gs.key, j);
      }
    }

    // Fill in the missing names from what is free in the whole cluster.
    method AllocateMissing(gs: ServerObject, kept: seq<Allocation>, missing: seq<Port>)
      returns (ports: seq<Allocation>, exhausted: bool, err: bool)
      requires api.Valid() && api.Authentic(gs, gs.server)
      requires forall a :: a in kept ==> a in gs.server.ports
      requires PortsDiffer(gs.server.ports) ==> PortsDiffer(kept)
      modifies api
      ensures api.Valid() && old(api.run) <= api.run && api.Authentic(gs, gs.server)
      ensures kept <= ports
      ensures NewAfter(|kept|, missing, ports, api.w.servers, (min, max))
      ensures !err && api.Current(gs) ==> PortsDiffer(ports)
      ensures exhausted ==> forall q :: min <= q <= max ==>
                Used(api.w.servers, q) || exists a :: a in ports && a.port == q
      ensures !err && !exhausted ==> |ports| == |kept| + |missing|
      ensures api.quiet ==> !err && api.w == old(api.w)
    {
      if |missing| == 0 {
        if api.Current(gs) {
          CurrentPortsAreInUse(gs, gs.server);
        }
        return kept, false, false;
      }
      var list;
      list, err := api.List();
      if err {
        return kept, false, true;
      }
      var used := UsedPublicPorts(list);
      UsedIsListed(list, api.w.servers, used);
      KeptPortsAreSane(gs, gs.server, kept, used);
      ports, exhausted := Assign(kept, missing, used);
      forall q | exhausted && min <= q <= max ensures Used(api.w.servers, q) || exists a :: a in ports && a.port == q {
        if q !in used {
          var i :| |kept| <= i < |ports| && ports[i].port == q;
          assert ports[i] in ports;
        }
      }
    }

    lemma NewPortsReallocate(servers: map<Key, Stored>, s: Server, names: set<string>,
                             kept: seq<Allocation>, missing: seq<Port>, ports: seq<Allocation>)
      requires s.exposed
      requires forall a :: a in kept <==> a in s.ports && a.name in names
      requires forall p :: p in missing ==> p.name in names
      requires kept <= ports
      requires NewAfter(|kept|, missing, ports, servers, (min, max))
      ensures Reallocates(s, s.(ports := ports), names, (min, max))
      ensures PortsDiffer(ports) ==> NewPortsAreFree(servers, s, s.(ports := ports))
    {
      forall i | 0 <= i < |ports|
        ensures ports[i].name in names
                  && (ports[i] !in s.ports ==> min <= ports[i].port <= max && !Used(servers, ports[i].port))
      {
        if i < |kept| {
          assert ports[i] == kept[i] && kept[i] in kept;
        } else {
          var k := i - |kept|;
          assert ports[i].name == missing[k].name && missing[k] in missing;
        }
      }
      forall a | a in s.ports && a.name in names ensures a in ports {
        assert a in kept;
      }
    }

    // What one look leaves in the copy. PoolExhausted is reported only when every port of the range is
    // in use in the cluster or has just gone to this server.
    method ReconcileOne(gs: ServerObject, egg: seq<Port>, a: Answers) returns (outcome: Exposure, err: bool)
      requires api.Valid() && api.Authentic(gs, gs.server)
      modifies api, gs
      ensures api.Valid() && old(api.run) <= api.run && gs.rev == old(gs.rev) && api.Authentic(gs, old(gs.server))
      ensures !err ==>
                LeavesPorts(old(gs.server), gs.server, PortNames(Effective(egg, old(gs.server.extras))), (min, max),
                            outcome != PoolExhausted)
      ensures !err && api.Current(gs) ==> NewPortsAreFree(api.w.servers, old(gs.server), gs.server)
      ensures !err ==> (outcome == Disabled <==> !old(gs.server.exposed))
      ensures !err && outcome == PoolExhausted ==> RangeIsUsedUp(api.w.servers, gs.server, (min, max))
      ensures api.quiet ==> (err <==> a.routesFail && outcome != PoolExhausted) && api.w == old(api.w)
    {
      var s := gs.server;
      if !s.exposed {
        gs.server := s.(ports := []);
        return Disabled, a.routesFail;
      }
      var effective := ComputeEffectivePorts(egg, s.extras);
      var kept := KeepEffective(s.ports, effective);
      var missing := Missing(kept, effective);
      var ports, exhausted;
      ports, exhausted, err := AllocateMissing(gs, kept, missing);
      if err {
        return Exposed, true;
      }
      gs.server := s.(ports := ports);
      NewPortsReallocate(api.w.servers, s, PortNames(effective), kept, missing, ports);
      if exhausted {
        return PoolExhausted, false;
      }
      forall n | n in PortNames(effective) ensures HasPort(gs.server, n) {
        EveryNameIsAssigned(effective, kept, missing, ports, n);
      }
      return Exposed, a.routesFail;
    }

    lemma KeptPortsAreSane(gs: ServerObject, s: Server, kept: seq<Allocation>, used: set<int>)
      requires api.Valid() && api.Authentic(gs, s)
      requires forall p :: Used(api.w.servers, p) <==> p in used
      requires forall a :: a in kept ==> a in s.ports
      requires PortsDiffer(s.ports) ==> PortsDiffer(kept)
      ensures api.Current(gs) ==> Sane(kept, used)
    {
      if api.Current(gs) {
        CurrentPortsAreInUse(gs, s);
        forall i | 0 <= i < |kept| ensures kept[i].port in used {
          assert kept[i] in s.ports;
        }
      }
    }

    lemma EveryNameIsAssigned(effective: seq<Port>, kept: seq<Allocation>, missing: seq<Port>, ports: seq<Allocation>,
                              n: string)
      requires n in PortNames(effective)
      requires forall p :: p in missing <==> p in effective && forall a :: a in kept ==> a.name != p.name
      requires kept <= ports && |ports| == |kept| + |missing|
      requires forall i :: |kept| <= i < |ports| ==> ports[i].name == missing[i - |kept|].name
      ensures exists a :: a in ports && a.name == n
    {
      var i :| 0 <= i < |effective| && effective[i].name == n;
      if effective[i] in missing {
        var k :| 0 <= k < |missing| && missing[k] == effective[i];
        assert ports[|kept| + k].name == n && ports[|kept| + k] in ports;
      } else {
        var a :| a in kept && a.name == n;
        assert a in ports;
      }
    }

    // From here on the cluster had this list at some time, and the Gateway that is left serves it.
    ghost predicate Rebuilt(from: nat, eggs: map<Key, seq<Port>>, list: seq<Listed>)
      reads api
    {
      && (exists at :: from <= at < |api.run| && IsListOf(list, api.run[at].servers))
      && Serves(Entries(list, eggs), api.w.gateway) && DistinctPorts(api.w.gateway)
    }

    // What was left of the server has been written by then, unless it is what was read.
    ghost predicate IsWritten(from: nat, to: nat, key: Key, read: Server, left: Server)
      reads api
    {
      || left == read
      || exists k :: from <= k <= to && k < |api.run| && key in api.run[k].servers
          && api.run[k].servers[key].server == left
    }

    // Every effective name of an exposed server has a port in what is left, or at a moment of this part of the
    // run the range was used up.
    ghost predicate HasItsPorts(from: nat, read: Server, left: Server, names: set<string>)
      reads api
    {
      || LeavesPorts(read, left, names, (min, max), true)
      || (&& LeavesPorts(read, left, names, (min, max), false)
          && exists k :: from <= k < |api.run| && RangeIsUsedUp(api.run[k].servers, left, (min, max)))
    }

    // One server's ports and their record.
    method ReconcilePorts(gs: ServerObject, egg: seq<Port>, a: Answers) returns (err: bool)
      requires api.Valid() && api.Authentic(gs, gs.server)
      modifies api, gs
      ensures api.Valid() && old(api.run) <= api.run
      ensures !err ==> IsWritten(|old(api.run)| - 1, |api.run| - 1, gs.key, old(gs.server), gs.server)
      ensures !err ==>
                HasItsPorts(|old(api.run)| - 1, old(gs.server), gs.server,
                    PortNames(Effective(egg, old(gs.server.extras))))
      ensures api.quiet && old(api.Current(gs)) && !a.routesFail ==> !err
      ensures api.quiet && old(api.Current(gs)) && old(api.w.servers[gs.key].server == gs.server) && !err ==>
                gs.key in api.w.servers && api.w.servers[gs.key].server == gs.server
    {
      var read := gs.server;
      var outcome: Exposure;
      outcome, err := ReconcileOne(gs, egg, a);
      if err {
        return;
      }
      ghost var looked := |api.run| - 1;
      assert outcome == PoolExhausted ==> RangeIsUsedUp(api.run[looked].servers, gs.server, (min, max));
      if a.outOfDate || gs.server != read {
        var ok := api.UpdateStatus(gs, read, PortNames(Effective(egg, read.extras)), (min, max));
        if !ok {
          return true;
        }
        assert api.run[|api.run| - 1] == api.w;
      }
    }

    // A reconcile of one server and then of the Gateway, dying anywhere. `read` is the server it found, unless
    // there was none or nothing to do, and `left` what it made of it. Unless an error is reported, the server
    // has its ports, on record at `wrote`, and the Gateway serves a list of the cluster from then or later.
    // Left alone, it fails only for an Egg that cannot be read or Routes that cannot be applied.
    method Reconcile(key: Key, eggs: map<Key, seq<Port>>, a: Answers)
      returns (err: bool, ghost read: Option<Server>, ghost left: Server, ghost list: seq<Listed>, ghost wrote: nat,
          ghost gone: bool)
      requires api.Valid()
      modifies api
      ensures api.Valid() && old(api.run) <= api.run
      ensures !err ==> DistinctPorts(api.w.gateway)
      ensures !err && (read.Some? || gone) ==> |old(api.run)| - 1 <= wrote && Rebuilt(wrote, eggs, list)
      ensures read.Some? ==> key in eggs && !a.deleting
      ensures !err && read.Some? ==>
                && IsWritten(|old(api.run)| - 1, wrote, key, read.value, left)
                && HasItsPorts(|old(api.run)| - 1, read.value, left, PortNames(Effective(eggs[key], read.value.extras)))
      ensures api.quiet ==>
                && (gone <==> key !in old(api.w.servers))
                && read == (if key in old(api.w.servers) && !a.deleting && key in eggs
                    then Some(old(api.w.servers[key].server))
                            else None)
                && (err ==> !gone && if read.Some? then a.routesFail else a.eggFails)
      ensures api.quiet && !err && read.Some? ==>
                IsListOf(list, api.w.servers) && key in api.w.servers && api.w.servers[key].server == left
    {
      read, list, wrote, gone := None, [], |api.run| - 1, false;
      left := Server(false, [], []);
      var gs;
      gs, err := api.Get(key);
      if err {
        return;
      }
      if gs == null {
        gone, wrote := true, |api.run| - 1;
        err, list := RebuildGateway(eggs);
        return;
      }
      if a.deleting || key !in eggs {
        RunKeepsInv(api.run, |api.run| - 1);
        err := !a.deleting && a.eggFails;
        return;
      }
      read := Some(gs.server);
      err := ReconcilePorts(gs, eggs[key], a);
      left, wrote := gs.server, |api.run| - 1;
      if err {
        return;
      }
      err, list := RebuildGateway(eggs);
    }

    method RebuildGateway(eggs: map<Key, seq<Port>>) returns (err: bool, ghost list: seq<Listed>)
      requires api.Valid()
      modifies api
      ensures api.Valid() && old(api.run) <= api.run
      ensures !err ==> Rebuilt(|old(api.run)| - 1, eggs, list)
      ensures api.quiet ==> !err && api.w == old(api.w).(gateway := api.w.gateway) && IsListOf(list, api.w.servers)
    {
      var servers;
      servers, err := api.List();
      list := servers;
      if err {
        return;
      }
      ghost var at := |api.run| - 1;
      assert IsListOf(list, api.run[at].servers);
      var listeners := RebuildListeners(servers, eggs);
      RebuiltListenersServe(api.run, servers, eggs);
      var ok := api.WriteGateway(listeners);
      err := !ok;
    }
  }
}
