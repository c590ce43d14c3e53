/**
 Public ports: every exposed server gets one public port per listening port, from one range and one
 shared Gateway. Each reconcile looks at one server only, yet no port may be handed out twice in the
 cluster. Here: the allocation step, the Gateway's listeners, and the runs of the whole cluster.

 A server's status can only be written by naming the revision it was read at. Ports are handed out by
 one worker, which lists the servers uncached.
 */
module PublicPorts {
  import opened Wrappers
  import opened EffectivePorts

  datatype Key = Key(namespace: string, name: string)

  datatype Allocation = Allocation(name: string, port: int)

  datatype Server = Server(exposed: bool, extras: seq<Port>, ports: seq<Allocation>)

  datatype Stored = Stored(rev: nat, server: Server)

  datatype Listener = Listener(port: int, protocol: Protocol)

  datatype World = World(rev: nat, servers: map<Key, Stored>, gateway: map<string, Listener>)

  // ---- steps -----------------------------------------------------------------------------------

  ghost predicate Used(servers: map<Key, Stored>, port: int) {
    exists k, i :: k in servers && 0 <= i < |servers[k].server.ports| && servers[k].server.ports[i].port == port
  }

  ghost predicate InUse(servers: map<Key, Stored>, k: Key, i: int) {
    k in servers && 0 <= i < |servers[k].server.ports|
  }

  // No two allocations share a port.
  ghost predicate Unique(servers: map<Key, Stored>) {
    forall k1, i1, k2, i2 {:trigger InUse(servers, k1, i1), InUse(servers, k2, i2)} ::
      (InUse(servers, k1, i1) && InUse(servers, k2, i2)
       && servers[k1].server.ports[i1].port == servers[k2].server.ports[i2].port) ==> k1 == k2 && i1 == i2
  }

  // Users create, edit and delete servers; other controllers write parts of a server that are not
  // modelled. None of them touches an allocation.
  ghost predicate Environment(w: World, w': World, k: Key) {
    || w' == w
    || (k !in w.servers
        && k in w'.servers && w'.servers[k].server.ports == [] && w'.servers[k].rev == w.rev + 1
        && w' == w.(rev := w.rev + 1, servers := w.servers[k := w'.servers[k]]))
    || (k in w.servers
        && k in w'.servers && w'.servers[k].server.ports == w.servers[k].server.ports && w'.servers[k].rev == w.rev + 1
        && w' == w.(rev := w.rev + 1, servers := w.servers[k := w'.servers[k]]))
    || (k in w.servers && w' == w.(servers := w.servers - {k}))
  }

  // What one reconcile may make of a server's allocations, given the port names it found effective.
  ghost predicate Reallocates(s: Server, s': Server, names: set<string>, range: (int, int)) {
    && s' == s.(ports := s'.ports)
    && (!s.exposed ==> s'.ports == [])
    && (s.exposed ==> forall a :: a in s.ports && a.name in names ==> a in s'.ports)
    && (forall a :: a in s'.ports ==> a.name in names)
    && (forall a :: a in s'.ports && a !in s.ports ==> range.0 <= a.port <= range.1)
  }

  ghost predicate NewPortsAreFree(servers: map<Key, Stored>, s: Server, s': Server) {
    && (forall i :: 0 <= i < |s'.ports| && s'.ports[i] !in s.ports ==> !Used(servers, s'.ports[i].port))
    && (forall i, j :: 0 <= i < j < |s'.ports| ==> s'.ports[i].port != s'.ports[j].port)
  }

  ghost predicate Allocate(w: World, w': World, k: Key, names: set<string>, range: (int, int)) {
    && k in w.servers && k in w'.servers
    && w'.servers[k].rev == w.rev + 1
    && Reallocates(w.servers[k].server, w'.servers[k].server, names, range)
    && NewPortsAreFree(w.servers, w.servers[k].server, w'.servers[k].server)
    && w' == w.(rev := w.rev + 1, servers := w.servers[k := w'.servers[k]])
  }

  ghost predicate DistinctPorts(listeners: map<string, Listener>) {
    forall m, n :: m in listeners && n in listeners && listeners[m].port == listeners[n].port ==> m == n
  }

  ghost predicate Rebuild(w: World, w': World) {
    DistinctPorts(w'.gateway) && w' == w.(gateway := w'.gateway)
  }

  ghost predicate Step(w: World, w': World) {
    || (exists k :: Environment(w, w', k))
    || (exists k, names, range :: Allocate(w, w', k, names, range))
    || Rebuild(w, w')
  }

  ghost predicate Init(w: World) {
    w == World(0, map[], map[])
  }

  ghost predicate IsRun(run: seq<World>) {
    && run != [] && Init(run[0])
    && (forall i :: 0 <= i < |run| - 1 ==> Step(run[i], run[i + 1]))
  }

  // ---- uniqueness over runs --------------------------------------------------------------------

  ghost predicate Inv(w: World) {
    && Unique(w.servers)
    && DistinctPorts(w.gateway)
    && (forall k :: k in w.servers ==> w.servers[k].rev <= w.rev)
  }

  lemma AllocateKeepsUnique(w: World, w': World, k: Key, names: set<string>, range: (int, int))
    requires Unique(w.servers) && Allocate(w, w', k, names, range)
    ensures Unique(w'.servers)
  {
    var s, s' := w.servers[k].server, w'.servers[k].server;
    forall k1, i1, k2, i2 | InUse(w'.servers, k1, i1) && InUse(w'.servers, k2, i2)
                            && w'.servers[k1].server.ports[i1].port == w'.servers[k2].server.ports[i2].port
      ensures k1 == k2 && i1 == i2
    {
      if k1 == k && k2 != k {
        KeptOrFree(w, s, s', k, i1, k2, i2);
      } else if k1 != k && k2 == k {
        KeptOrFree(w, s, s', k, i2, k1, i1);
      } else if k1 != k && k2 != k {
        assert InUse(w.servers, k1, i1) && InUse(w.servers, k2, i2);
      }
    }
  }

  // An allocation of the rewritten server differs from every allocation of another server.
  lemma KeptOrFree(w: World, s: Server, s': Server, k: Key, i: nat, other: Key, j: nat)
    requires Unique(w.servers) && k in w.servers && w.servers[k].server == s
    requires NewPortsAreFree(w.servers, s, s') && i < |s'.ports|
    requires other != k && InUse(w.servers, other, j)
    ensures s'.ports[i].port != w.servers[other].server.ports[j].port
  {
    if s'.ports[i] in s.ports {
      var n :| 0 <= n < |s.ports| && s.ports[n] == s'.ports[i];
      assert InUse(w.servers, k, n);
    }
  }

  lemma EnvironmentKeepsUnique(w: World, w': World, k: Key)
    requires Unique(w.servers) && Environment(w, w', k)
    ensures Unique(w'.servers)
    ensures forall p :: Used(w'.servers, p) ==> Used(w.servers, p)
  {
    forall k1, i1 | InUse(w'.servers, k1, i1)
      ensures InUse(w.servers, k1, i1) && w'.servers[k1].server.ports[i1] == w.servers[k1].server.ports[i1]
    {
    }
    forall p | Used(w'.servers, p) ensures Used(w.servers, p) {
      var k1, i1: nat :| k1 in w'.servers && 0 <= i1 < |w'.servers[k1].server.ports|
          && w'.servers[k1].server.ports[i1].port == p;
      assert InUse(w'.servers, k1, i1);
    }
  }

  lemma StepKeepsInv(w: World, w': World)
    requires Inv(w) && Step(w, w')
    ensures Inv(w')
  {
    if k :| Environment(w, w', k) {
      EnvironmentKeepsUnique(w, w', k);
    } else if k, names, range :| Allocate(w, w', k, names, range) {
      AllocateKeepsUnique(w, w', k, names, range);
    }
  }

  lemma {:induction false} RunKeepsInv(run: seq<World>, k: nat)
    requires IsRun(run) && k < |run|
    ensures Inv(run[k])
  {
    if k > 0 {
      RunKeepsInv(run, k - 1);
      StepKeepsInv(run[k - 1], run[k]);
    }
  }

  // In no state of any run do two (server, port name) allocations share a public port, or two
  // listeners of the Gateway.
  lemma NoPortIsSharedInAnyRun(run: seq<World>, k: nat, k1: Key, i1: nat, k2: Key, i2: nat)
    requires IsRun(run) && k < |run|
    requires InUse(run[k].servers, k1, i1) && InUse(run[k].servers, k2, i2) && (k1, i1) != (k2, i2)
    ensures run[k].servers[k1].server.ports[i1].port != run[k].servers[k2].server.ports[i2].port
    ensures DistinctPorts(run[k].gateway)
  {
    RunKeepsInv(run, k);
  }

  // ---- stability over runs ---------------------------------------------------------------------

  // From i to j the server exists, and whenever it is reallocated it is exposed and the name effective.
  ghost predicate StaysEffective(run: seq<World>, i: nat, j: nat, key: Key, name: string)
    requires i <= j < |run|
  {
    && (forall t :: i <= t <= j ==> key in run[t].servers)
    && (forall t :: i <= t < j ==>
        run[t + 1].servers[key] == run[t].servers[key] || KeepsName(run[t], run[t + 1], key, name))
  }

  ghost predicate KeepsName(w: World, w': World, key: Key, name: string)
    requires key in w.servers && key in w'.servers
  {
    || Environment(w, w', key)
    || (exists names, range :: name in names && w.servers[key].server.exposed && Allocate(w, w', key, names, range))
  }

  // A port stays with its name as long as the name stays effective and the server exposed.
  lemma {:induction false} PortIsStable(run: seq<World>, i: nat, j: nat, key: Key, a: Allocation)
    requires IsRun(run) && i <= j < |run|
    requires StaysEffective(run, i, j, key, a.name)
    requires a in run[i].servers[key].server.ports
    ensures a in run[j].servers[key].server.ports
    decreases j
  {
    if i < j {
      PortIsStable(run, i, j - 1, key, a);
      assert run[j].servers[key] == run[j - 1].servers[key] || KeepsName(run[j - 1], run[j], key, a.name);
    }
  }

  // ---- allocation ------------------------------------------------------------------------------

  // The lowest free port of the range, or none because all are taken.
  method AllocatePublicPort(min: int, max: int, used: set<int>) returns (port: Option<int>)
    ensures port.Some? ==> min <= port.value <= max && port.value !in used && forall q :: min <= q < port.value ==>
              q in used
    ensures port.None? <==> forall q :: min <= q <= max ==> q in used
  {
    var p := min;
    while p <= max
      invariant forall q :: min <= q < p && q <= max ==> q in used
    {
      if p !in used {
        return Some(p);
      }
      p := p + 1;
    }
    port := None;
  }

  datatype Listed = Listed(key: Key, server: Server)

  ghost predicate IsListOf(list: seq<Listed>, servers: map<Key, Stored>) {
    && (forall i :: 0 <= i < |list| ==> list[i].key in servers && servers[list[i].key].server == list[i].server)
    && (forall i, j :: 0 <= i < j < |list| ==> list[i].key != list[j].key)
    && (forall k :: k in servers ==> exists i :: 0 <= i < |list| && list[i].key == k)
  }

  method UsedPublicPorts(list: seq<Listed>) returns (used: set<int>)
    ensures forall p :: p in used <==>
              exists i, j :: 0 <= i < |list| && 0 <= j < |list[i].server.ports| && list[i].server.ports[j].port == p
  {
    used := {};
    for i := 0 to |list|
      invariant forall p :: p in used <==>
                  exists k, j :: 0 <= k < i && 0 <= j < |list[k].server.ports| && list[k].server.ports[j].port == p
    {
      var ports := list[i].server.ports;
      ghost var before := used;
      for j := 0 to |ports|
        invariant forall p :: p in used <==> p in before || exists n :: 0 <= n < j && ports[n].port == p
      {
        used := used + {ports[j].port};
      }
    }
  }

  lemma UsedIsListed(list: seq<Listed>, servers: map<Key, Stored>, used: set<int>)
    requires IsListOf(list, servers)
    requires forall p :: p in used <==>
               exists i, j :: 0 <= i < |list| && 0 <= j < |list[i].server.ports| && list[i].server.ports[j].port == p
    ensures forall p :: Used(servers, p) <==> p in used
  {
    forall p | Used(servers, p) ensures p in used {
      var k, n :| k in servers && 0 <= n < |servers[k].server.ports| && servers[k].server.ports[n].port == p;
      var i :| 0 <= i < |list| && list[i].key == k;
      assert list[i].server.ports[n].port == p;
    }
  }

  // ---- the Gateway's listeners -----------------------------------------------------------------

  function RouteName(server: string, port: string): string {
    server + "-" + port
  }

  // The public port of a name: with several allocations of one name, the last counts.
  function Lookup(ports: seq<Allocation>, name: string): Option<int> {
    if ports == [] then None
    else if ports[|ports| - 1].name == name then Some(ports[|ports| - 1].port)
    else Lookup(ports[..|ports| - 1], name)
  }

  // One listener that is wanted, and whom it is for.
  datatype Entry = Entry(key: Key, portName: string, listener: Listener)

  function EntriesOf(key: Key, ports: seq<Allocation>, effective: seq<Port>): seq<Entry> {
    if effective == [] then []
    else
      var p, rest := effective[|effective| - 1], EntriesOf(key, ports, effective[..|effective| - 1]);
      match Lookup(ports, p.name)
      case None => rest
      case Some(port) => rest + [Entry(key, p.name, Listener(port, if p.protocol == Unset then TCP else p.protocol))]
  }

  // All listeners wanted: exposed servers with allocations, whose Egg can be read.
  function Entries(list: seq<Listed>, eggs: map<Key, seq<Port>>): seq<Entry> {
    if list == [] then []
    else
      var l, rest := list[|list| - 1], Entries(list[..|list| - 1], eggs);
      if !l.server.exposed || l.server.ports == [] || l.key !in eggs then rest
      else rest + EntriesOf(l.key, l.server.ports, Effective(eggs[l.key], l.server.extras))
  }

  function Name(e: Entry): string {
    RouteName(e.key.name, e.portName)
  }

  // Listeners are keyed by route name: of two with one name, the later one stays.
  function ByName(entries: seq<Entry>): map<string, Listener> {
    if entries == [] then map[]
    else
      var e := entries[|entries| - 1];
      ByName(entries[..|entries| - 1])[Name(e) := e.listener]
  }

  method AllocatedByName(ports: seq<Allocation>) returns (portOf: map<string, int>)
    ensures forall name :: name in portOf <==> Lookup(ports, name).Some?
    ensures forall name :: name in portOf ==> Lookup(ports, name) == Some(portOf[name])
  {
    portOf := map[];
    for j := 0 to |ports|
      invariant forall name :: name in portOf <==> Lookup(ports[..j], name).Some?
      invariant forall name :: name in portOf ==> Lookup(ports[..j], name) == Some(portOf[name])
    {
      assert ports[..j + 1][..j] == ports[..j];
      portOf := portOf[ports[j].name := ports[j].port];
    }
    assert ports[..|ports|] == ports;
  }

  // One server's listeners, on top of those of the servers before it.
  method AddListeners(byName: map<string, Listener>, ghost before: seq<Entry>, l: Listed, effective: seq<Port>)
    returns (more: map<string, Listener>)
    requires byName == ByName(before)
    ensures more == ByName(before + EntriesOf(l.key, l.server.ports, effective))
  {
    more := byName;
    var portOf := AllocatedByName(l.server.ports);
    ghost var entries: seq<Entry> := before;
    for j := 0 to |effective|
      invariant entries == before + EntriesOf(l.key, l.server.ports, effective[..j]) && more == ByName(entries)
    {
      assert effective[..j + 1][..j] == effective[..j];
      var p := effective[j];
      if p.name !in portOf {
        continue;
      }
      var protocol := if p.protocol == Unset then TCP else p.protocol;
      ghost var e := Entry(l.key, p.name, Listener(portOf[p.name], protocol));
      assert (entries + [e])[..|entries|] == entries;
      more := more[RouteName(l.key.name, p.name) := Listener(portOf[p.name], protocol)];
      entries := entries + [e];
    }
    assert effective[..|effective|] == effective;
  }

  method RebuildListeners(list: seq<Listed>, eggs: map<Key, seq<Port>>) returns (byName: map<string, Listener>)
    ensures byName == ByName(Entries(list, eggs))
  {
    byName := map[];
    for i := 0 to |list|
      invariant byName == ByName(Entries(list[..i], eggs))
    {
      var l := list[i];
      assert list[..i + 1][..i] == list[..i];
      if !l.server.exposed || |l.server.ports| == 0 || l.key !in eggs {
        continue;
      }
      var effective := ComputeEffectivePorts(eggs[l.key], l.server.extras);
      byName := AddListeners(byName, Entries(list[..i], eggs), l, effective);
    }
    assert list[..|list|] == list;
  }

  // Every wanted listener stands for an allocation of its server.
  lemma {:induction false} LookupIsAnAllocation(ports: seq<Allocation>, name: string)
    ensures Lookup(ports, name).Some? ==>
              exists i :: 0 <= i < |ports| && ports[i] == Allocation(name, Lookup(ports, name).value)
    ensures Lookup(ports, name).None? <==> forall i :: 0 <= i < |ports| ==> ports[i].name != name
  {
    if ports != [] {
      LookupIsAnAllocation(ports[..|ports| - 1], name);
    }
  }

  ghost predicate Stands(e: Entry, list: seq<Listed>) {
    exists n, i :: 0 <= n < |list| && list[n].key == e.key
                   && 0 <= i < |list[n].server.ports|
                       && list[n].server.ports[i] == Allocation(e.portName, e.listener.port)
  }

  lemma {:induction false} EntriesOfStand(l: Listed, effective: seq<Port>, n: nat)
    requires n < |EntriesOf(l.key, l.server.ports, effective)|
    ensures
      var e := EntriesOf(l.key, l.server.ports, effective)[n];
      && e.key == l.key
      && exists i :: 0 <= i < |l.server.ports| && l.server.ports[i] == Allocation(e.portName, e.listener.port)
  {
    var rest := EntriesOf(l.key, l.server.ports, effective[..|effective| - 1]);
    if n < |rest| {
      EntriesOfStand(l, effective[..|effective| - 1], n);
    } else {
      LookupIsAnAllocation(l.server.ports, effective[|effective| - 1].name);
    }
  }

  lemma {:induction false} EntriesStand(list: seq<Listed>, eggs: map<Key, seq<Port>>, n: nat)
    requires n < |Entries(list, eggs)|
    ensures Stands(Entries(list, eggs)[n], list)
  {
    var l, rest := list[|list| - 1], Entries(list[..|list| - 1], eggs);
    if n < |rest| {
      EntriesStand(list[..|list| - 1], eggs, n);
      var m, i :| 0 <= m < |list| - 1 && list[..|list| - 1][m].key == rest[n].key
                  && 0 <= i < |list[m].server.ports|
                      && list[m].server.ports[i] == Allocation(rest[n].portName, rest[n].listener.port);
      assert list[m].key == rest[n].key;
    } else {
      EntriesOfStand(l, Effective(eggs[l.key], l.server.extras), n - |rest|);
    }
  }

  // A server's port is wanted when the server is exposed, its Egg can be read, the port is effective and
  // has an allocation.
  ghost predicate WantedFor(e: Entry, l: Listed, eggs: map<Key, seq<Port>>) {
    && l.key == e.key && l.server.exposed && l.key in eggs
    && IsEntryOf(e, l.key, l.server.ports, Effective(eggs[l.key], l.server.extras))
  }

  ghost predicate IsEntryOf(e: Entry, key: Key, ports: seq<Allocation>, effective: seq<Port>) {
    exists p :: p in effective && IsEntry(e, key, ports, p)
  }

  predicate IsEntry(e: Entry, key: Key, ports: seq<Allocation>, p: Port) {
    && e.key == key && e.portName == p.name && Lookup(ports, p.name) == Some(e.listener.port)
    && e.listener.protocol == if p.protocol == Unset then TCP else p.protocol
  }

  lemma {:induction false} EntriesOfExactly(e: Entry, key: Key, ports: seq<Allocation>, effective: seq<Port>)
    ensures e in EntriesOf(key, ports, effective) <==> IsEntryOf(e, key, ports, effective)
  {
    if effective != [] {
      var rest, last := effective[..|effective| - 1], effective[|effective| - 1];
      EntriesOfExactly(e, key, ports, rest);
      assert forall p :: p in effective <==> p in rest || p == last;
      assert IsEntryOf(e, key, ports, effective) <==> IsEntryOf(e, key, ports, rest) || IsEntry(e, key, ports, last);
      assert e in EntriesOf(key, ports, effective) <==>
               e in EntriesOf(key, ports, rest) || (Lookup(ports, last.name).Some? && IsEntry(e, key, ports, last));
    }
  }

  lemma NothingWithoutAllocations(e: Entry, key: Key, effective: seq<Port>)
    ensures !IsEntryOf(e, key, [], effective)
  {
  }

  // The listeners wanted are exactly those of the servers' allocated effective ports.
  lemma {:induction false} WantedExactly(e: Entry, list: seq<Listed>, eggs: map<Key, seq<Port>>)
    ensures e in Entries(list, eggs) <==> exists l :: l in list && WantedFor(e, l, eggs)
  {
    if list != [] {
      var rest, last := list[..|list| - 1], list[|list| - 1];
      WantedExactly(e, rest, eggs);
      assert forall l :: l in list <==> l in rest || l == last;
      assert (exists l :: l in list && WantedFor(e, l, eggs)) <==>
               (exists l :: l in rest && WantedFor(e, l, eggs)) || WantedFor(e, last, eggs);
      if last.key in eggs {
        EntriesOfExactly(e, last.key, last.server.ports, Effective(eggs[last.key], last.server.extras));
        NothingWithoutAllocations(e, last.key, Effective(eggs[last.key], last.server.extras));
      }
    }
  }

  // Every wanted listener that no later one overwrites is there, and nothing that is not wanted.
  ghost predicate Serves(entries: seq<Entry>, listeners: map<string, Listener>) {
    && (forall i :: 0 <= i < |entries| && Last(entries, i) ==>
          Name(entries[i]) in listeners && listeners[Name(entries[i])] == entries[i].listener)
    && (forall name :: name in listeners ==>
          exists i :: 0 <= i < |entries| && Last(entries, i) && Name(entries[i]) == name)
  }

  lemma TheLastOnesServe(entries: seq<Entry>)
    ensures Serves(entries, ByName(entries))
  {
    forall i | 0 <= i < |entries| && Last(entries, i)
      ensures Name(entries[i]) in ByName(entries) && ByName(entries)[Name(entries[i])] == entries[i].listener {
      ListenersComeFromEntries(entries, Name(entries[i]));
    }
    forall name | name in ByName(entries)
      ensures exists i :: 0 <= i < |entries| && Last(entries, i) && Name(entries[i]) == name {
      ListenersComeFromEntries(entries, name);
      var i :| 0 <= i < |entries| && Name(entries[i]) == name && forall j :: i < j < |entries| ==>
          Name(entries[j]) != name;
      assert Last(entries, i);
    }
  }

  // With unique allocations, one public port is wanted by one server for one name only.
  lemma WantedPortsAreDistinct(list: seq<Listed>, servers: map<Key, Stored>, eggs: map<Key, seq<Port>>, m: nat, n: nat)
    requires IsListOf(list, servers) && Unique(servers)
    requires m < |Entries(list, eggs)| && n < |Entries(list, eggs)|
    ensures
      var d, e := Entries(list, eggs)[m], Entries(list, eggs)[n];
      d.listener.port == e.listener.port ==> d.key == e.key && d.portName == e.portName
  {
    EntriesStand(list, eggs, m);
    EntriesStand(list, eggs, n);
    var d, e := Entries(list, eggs)[m], Entries(list, eggs)[n];
    var x, i :| 0 <= x < |list| && list[x].key == d.key && 0 <= i < |list[x].server.ports|
                && list[x].server.ports[i] == Allocation(d.portName, d.listener.port);
    var y, j :| 0 <= y < |list| && list[y].key == e.key && 0 <= j < |list[y].server.ports|
                && list[y].server.ports[j] == Allocation(e.portName, e.listener.port);
    assert InUse(servers, d.key, i) && InUse(servers, e.key, j);
  }

  lemma {:induction false} ListenersComeFromEntries(entries: seq<Entry>, name: string)
    ensures name in ByName(entries) <==> exists i :: 0 <= i < |entries| && Name(entries[i]) == name
    ensures name in ByName(entries) ==>
              exists i :: 0 <= i < |entries| && Name(entries[i]) == name && entries[i].listener == ByName(entries)[name]
                          && forall j :: i < j < |entries| ==> Name(entries[j]) != name
  {
    if entries != [] {
      ListenersComeFromEntries(entries[..|entries| - 1], name);
    }
  }

  // The rebuilt listeners have distinct public ports.
  lemma RebuiltPortsAreDistinct(list: seq<Listed>, servers: map<Key, Stored>, eggs: map<Key, seq<Port>>)
    requires IsListOf(list, servers) && Unique(servers)
    ensures DistinctPorts(ByName(Entries(list, eggs)))
  {
    var entries := Entries(list, eggs);
    var listeners := ByName(entries);
    forall m, n | m in listeners && n in listeners && listeners[m].port == listeners[n].port ensures m == n {
      ListenersComeFromEntries(entries, m);
      ListenersComeFromEntries(entries, n);
      var i :| 0 <= i < |entries| && Name(entries[i]) == m && entries[i].listener == listeners[m];
      var j :| 0 <= j < |entries| && Name(entries[j]) == n && entries[j].listener == listeners[n];
      WantedPortsAreDistinct(list, servers, eggs, i, j);
    }
  }

  // The wanted port has a listener.
  ghost predicate Served(e: Entry, listeners: map<string, Listener>) {
    exists name :: name in listeners && listeners[name].port == e.listener.port
  }

  // A wanted port is served exactly when no later wanted port, of another number, has its route name:
  // the name leaves the namespace out, and the dash in it can be read in two ways.
  lemma ServedExactlyWithoutACollision(list: seq<Listed>, servers: map<Key, Stored>, eggs: map<Key, seq<Port>>, i: nat)
    requires IsListOf(list, servers) && Unique(servers)
    requires i < |Entries(list, eggs)|
    ensures
      var entries := Entries(list, eggs);
      Served(entries[i], ByName(entries)) <==>
        !exists j :: i < j < |entries| && Name(entries[j]) == Name(entries[i]) && Last(entries, j)
                     && entries[j].listener.port != entries[i].listener.port
  {
    var entries := Entries(list, eggs);
    var e, listeners := entries[i], ByName(entries);
    ListenersComeFromEntries(entries, Name(e));
    var last :| 0 <= last < |entries| && Name(entries[last]) == Name(e) && entries[last].listener == listeners[Name(e)]
                && forall j :: last < j < |entries| ==> Name(entries[j]) != Name(e);
    assert Last(entries, last) && i <= last;
    if entries[last].listener.port == e.listener.port {
      assert Served(e, listeners);
    } else if Served(e, listeners) {
      var name :| name in listeners && listeners[name].port == e.listener.port;
      ListenersComeFromEntries(entries, name);
      var n :| 0 <= n < |entries| && Name(entries[n]) == name && entries[n].listener == listeners[name];
      WantedPortsAreDistinct(list, servers, eggs, i, n);
    }
  }

  ghost predicate Last(entries: seq<Entry>, i: nat)
    requires i < |entries|
  {
    forall j :: i < j < |entries| ==> Name(entries[j]) != Name(entries[i])
  }

  // ---- a wanted port that is not served ----------------------------------------------------------

  // An exposed server that has this one allocation.
  function Exposed(port: string, public: int): Server {
    Server(true, [], [Allocation(port, public)])
  }

  function OnePort(port: string): seq<Port> {
    [Port(port, 25565, TCP)]
  }

  lemma WantsOne(key: Key, port: string, public: int)
    ensures Effective(OnePort(port), []) == OnePort(port)
    ensures EntriesOf(key, [Allocation(port, public)], OnePort(port)) == [Entry(key, port, Listener(public, TCP))]
  {
    assert OnePort(port)[..0] == [];
    assert EntriesOf(key, [Allocation(port, public)], []) == [];
  }

  lemma WantsTwo(a: Key, b: Key, port: string, first: int, second: int)
    requires a != b
    ensures
      var list := [Listed(a, Exposed(port, first)), Listed(b, Exposed(port, second))];
      Entries(list, map[a := OnePort(port), b := OnePort(port)]) ==
        [Entry(a, port, Listener(first, TCP)), Entry(b, port, Listener(second, TCP))]
  {
    var list, eggs := [Listed(a, Exposed(port, first)), Listed(b, Exposed(port, second))],
        map[a := OnePort(port), b := OnePort(port)];
    WantsOne(a, port, first);
    WantsOne(b, port, second);
    assert list[..1] == [list[0]] && [list[0]][..0] == [];
    assert Entries([], eggs) == [];
    assert Entries([list[0]], eggs) == [Entry(a, port, Listener(first, TCP))];
  }

  ghost predicate EndsIn(run: seq<World>, w: World) {
    IsRun(run) && run[|run| - 1] == w
  }

  ghost predicate CanBecome(w: World) {
    exists run :: EndsIn(run, w)
  }

  lemma Goes(w: World, w': World)
    requires CanBecome(w) && Step(w, w')
    ensures CanBecome(w')
  {
    var run :| EndsIn(run, w);
    var more := run + [w'];
    forall k | 0 <= k < |more| - 1 ensures Step(more[k], more[k + 1]) {
      if k < |run| - 1 {
        assert more[k] == run[k] && more[k + 1] == run[k + 1];
      }
    }
    assert EndsIn(more, w');
  }

  // The lowest free port of the range, which is the one AllocatePublicPort gives.
  ghost predicate IsLowestFree(servers: map<Key, Stored>, range: (int, int), port: int) {
    && range.0 <= port <= range.1 && !Used(servers, port)
    && forall q :: range.0 <= q < port ==> Used(servers, q)
  }

  // A server is made, and gets the lowest free port.
  lemma GetsAPort(w: World, key: Key, port: string, public: int, range: (int, int)) returns (w': World)
    requires CanBecome(w) && key !in w.servers && IsLowestFree(w.servers, range, public)
    ensures CanBecome(w')
    ensures w' == World(w.rev + 2, w.servers[key := Stored(w.rev + 2, Exposed(port, public))], w.gateway)
  {
    var made := w.(rev := w.rev + 1, servers := w.servers[key := Stored(w.rev + 1, Server(true, [], []))]);
    assert Environment(w, made, key);
    Goes(w, made);
    w' := World(w.rev + 2, w.servers[key := Stored(w.rev + 2, Exposed(port, public))], w.gateway);
    assert w'.servers == made.servers[key := w'.servers[key]];
    forall k, i | k in made.servers && 0 <= i < |made.servers[k].server.ports|
      ensures made.servers[k].server.ports[i].port != public {
      assert k != key;
    }
    assert Allocate(made, w', key, {port}, range);
    Goes(made, w');
  }

  lemma TheLaterStays(d: Entry, e: Entry)
    requires Name(d) == Name(e)
    ensures ByName([d, e]) == map[Name(e) := e.listener]
  {
    assert [d, e][..1] == [d] && [d][..0] == [];
    assert ByName([]) == map[];
    assert ByName([d]) == map[Name(d) := d.listener];
  }

  // Two servers with a port each, in one cluster: they have the first two of the range.
  lemma TwoServers(a: Key, b: Key, port: string, min: int, max: int) returns (w: World)
    requires a != b && min < max
    ensures CanBecome(w) && w.servers == map[a := Stored(2, Exposed(port, min)), b := Stored(4, Exposed(port, min + 1))]
  {
    w := World(0, map[], map[]);
    assert EndsIn([w], w);
    w := GetsAPort(w, a, port, min, (min, max));
    assert w.servers == map[a := Stored(2, Exposed(port, min))];
    OnePortIsUsed(w.servers, a, port, min);
    w := GetsAPort(w, b, port, min + 1, (min, max));
  }

  lemma OnePortIsUsed(servers: map<Key, Stored>, a: Key, port: string, public: int)
    requires servers == map[a := Stored(2, Exposed(port, public))]
    ensures forall q :: Used(servers, q) <==> q == public
  {
    assert servers[a].server.ports[0].port == public;
  }

  lemma TwoAreListed(a: Key, b: Key, x: Stored, y: Stored)
    requires a != b
    ensures IsListOf([Listed(a, x.server), Listed(b, y.server)], map[a := x, b := y])
  {
    var list := [Listed(a, x.server), Listed(b, y.server)];
    assert list[0].key == a && list[1].key == b;
  }

  // The collisions are real: two servers of one name in two namespaces each get the lowest free port of a
  // range, and the listener of the first one is overwritten.
  lemma AWantedPortIsNotServed(here: string, there: string, name: string, port: string, min: int, max: int)
    returns (w: World, list: seq<Listed>, eggs: map<Key, seq<Port>>)
    requires here != there && min < max
    ensures CanBecome(w) && IsListOf(list, w.servers)
    ensures
      var entries := Entries(list, eggs);
      && entries == [Entry(Key(here, name), port, Listener(min, TCP)),
          Entry(Key(there, name), port, Listener(min + 1, TCP))]
      && !Served(entries[0], ByName(entries))
  {
    var a, b := Key(here, name), Key(there, name);
    w := TwoServers(a, b, port, min, max);
    list, eggs := [Listed(a, Exposed(port, min)), Listed(b, Exposed(port, min + 1))],
        map[a := OnePort(port), b := OnePort(port)];
    TwoAreListed(a, b, Stored(2, Exposed(port, min)), Stored(4, Exposed(port, min + 1)));
    WantsTwo(a, b, port, min, min + 1);
    TheLaterStays(Entry(a, port, Listener(min, TCP)), Entry(b, port, Listener(min + 1, TCP)));
  }

  // The two ways to collide: one server name in two namespaces, and a dash that moves.
  lemma RouteNamesCollide(here: string, there: string, server: string, word: string, port: string, d: Listener,
                          e: Listener)
    ensures Name(Entry(Key(here, server), port, d)) == Name(Entry(Key(there, server), port, e))
    ensures RouteName(server + "-" + word, port) == RouteName(server, word + "-" + port)
  {
    assert server + "-" + word + ("-" + port) == server + "-" + (word + "-" + port);
  }
}
