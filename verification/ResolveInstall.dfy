/**
 The breadth-first closure of one mod install: the requested version and the required dependencies it
 pulls in, at most five steps away and at most twenty files in all, over a catalog that may be cyclic
 or endless.

 The loop is proved against Trace, which says which projects were looked up, in which order, and why.
 What the install promises is then proved about every trace.
 */
module ResolveInstall {
  import opened Wrappers

  type ProjectID = string
  type VersionID = string

  const MAX_DEPENDENCY_DEPTH := 5
  const MAX_INSTALL_FILES := 20

  datatype Dependency = Dependency(project: ProjectID, version: Option<VersionID>)

  datatype Version = Version(id: VersionID, project: ProjectID, dependencies: seq<Dependency>)

  datatype ResolveError = SourceError | NoCompatibleVersion | TooManyDependencies

  datatype Result<T> = Ok(value: T) | Err(error: ResolveError)

  // catalog: a project's versions compatible with the server, newest first, or None when the source
  // fails. installed: what is on the server already.
  datatype Input = Input(
    project: ProjectID, version: Option<VersionID>,
    catalog: ProjectID -> Option<seq<Version>>, installed: ProjectID -> bool)

  datatype Install = Install(versions: seq<Version>, skipped: seq<ProjectID>)

  datatype Item = Item(project: ProjectID, version: Option<VersionID>, depth: nat)

  // ---- the version of one project --------------------------------------------------------------

  predicate Wanted(v: Version, version: Option<VersionID>) {
    version.None? || version.value == v.id
  }

  function FirstWanted(vs: seq<Version>, version: Option<VersionID>): Result<Version> {
    if vs == [] then Err(NoCompatibleVersion)
    else if Wanted(vs[0], version) then Ok(vs[0])
    else FirstWanted(vs[1..], version)
  }

  function Pick(input: Input, item: Item): Result<Version> {
    match input.catalog(item.project)
    case None => Err(SourceError)
    case Some(vs) => FirstWanted(vs, item.version)
  }

  // The first version that fits, and a failure only when none does.
  lemma {:induction false} PickTakesTheFirst(vs: seq<Version>, version: Option<VersionID>, k: nat)
    requires k <= |vs| && (forall j :: 0 <= j < k ==> !Wanted(vs[j], version)) && (k < |vs| ==> Wanted(vs[k], version))
    ensures FirstWanted(vs, version) == if k < |vs| then Ok(vs[k]) else Err(NoCompatibleVersion)
  {
    if k > 0 {
      assert vs[1..][..k - 1] == vs[1..k];
      PickTakesTheFirst(vs[1..], version, k - 1);
    }
  }

  method PickVersion(input: Input, item: Item) returns (r: Result<Version>)
    ensures r == Pick(input, item)
  {
    var versions := input.catalog(item.project);
    if versions.None? {
      return Err(SourceError);
    }
    var vs := versions.value;
    for k := 0 to |vs|
      invariant forall j :: 0 <= j < k ==> !Wanted(vs[j], item.version)
    {
      if Wanted(vs[k], item.version) {
        PickTakesTheFirst(vs, item.version, k);
        return Ok(vs[k]);
      }
    }
    PickTakesTheFirst(vs, item.version, |vs|);
    r := Err(NoCompatibleVersion);
  }

  // ---- traces ----------------------------------------------------------------------------------

  predicate Skips(input: Input, item: Item) {
    item.depth > 0 && input.installed(item.project)
  }

  predicate Chosen(input: Input, item: Item) {
    !Skips(input, item) && Pick(input, item).Ok?
  }

  // The dependencies that count: those of a chosen version less than five steps away.
  function Pulled(input: Input, item: Item): seq<Dependency> {
    if Chosen(input, item) && item.depth < MAX_DEPENDENCY_DEPTH then Pick(input, item).value.dependencies else []
  }

  predicate Pulls(input: Input, parent: Item, child: Item) {
    Dependency(child.project, child.version) in Pulled(input, parent) && child.depth == parent.depth + 1
  }

  function VersionsOf(input: Input, order: seq<Item>): seq<Version> {
    if order == [] then []
    else
      var last, rest := order[|order| - 1], VersionsOf(input, order[..|order| - 1]);
      if Chosen(input, last) then rest + [Pick(input, last).value] else rest
  }

  function SkippedOf(input: Input, order: seq<Item>): seq<ProjectID> {
    if order == [] then []
    else
      var last, rest := order[|order| - 1], SkippedOf(input, order[..|order| - 1]);
      if Skips(input, last) then rest + [last.project] else rest
  }

  // Nobody is queued twice.
  predicate Distinct(order: seq<Item>) {
    forall i, j :: 0 <= i < j < |order| ==> order[i].project != order[j].project
  }

  predicate InLevels(order: seq<Item>) {
    forall i, j :: 0 <= i < j < |order| ==> order[i].depth <= order[j].depth
  }

  // Item k was pulled in by one before it, within the first `head`.
  predicate HasParent(input: Input, order: seq<Item>, head: nat, k: nat)
    requires k < |order|
  {
    exists p :: 0 <= p < k && p < head && Pulls(input, order[p], order[k])
  }

  // Everyone but the request was.
  predicate HasParents(input: Input, order: seq<Item>, head: nat) {
    forall k :: 1 <= k < |order| ==> HasParent(input, order, head, k)
  }

  predicate QueuedAt(order: seq<Item>, project: ProjectID, depth: nat) {
    exists k :: 0 <= k < |order| && order[k].project == project && order[k].depth <= depth
  }

  // What item pulls in is queued, one step further away at most.
  predicate Satisfied(input: Input, order: seq<Item>, item: Item) {
    forall d :: d in Pulled(input, item) ==> QueuedAt(order, d.project, item.depth + 1)
  }

  predicate Closed(input: Input, order: seq<Item>, head: nat) {
    forall p :: 0 <= p < head <= |order| ==> Satisfied(input, order, order[p])
  }

  // No queued item is more than one step further away than the last one that was looked up.
  predicate NextLevel(order: seq<Item>, head: nat) {
    forall k :: 0 <= k < |order| ==> order[k].depth <= if 0 < head <= |order| then order[head - 1].depth + 1 else 0
  }

  predicate LookedUp(input: Input, order: seq<Item>, head: nat) {
    forall p :: 0 <= p < head <= |order| ==> Skips(input, order[p]) || Chosen(input, order[p])
  }

  // order: everyone ever queued. The first `head` of them have been looked up, the others wait.
  predicate Trace(input: Input, order: seq<Item>, head: nat) {
    && 1 <= |order| && head <= |order|
    && order[0] == Item(input.project, input.version, 0)
    && Distinct(order) && InLevels(order) && NextLevel(order, head)
    && HasParents(input, order, head) && Closed(input, order, head) && LookedUp(input, order, head)
    && |VersionsOf(input, order[..head])| <= MAX_INSTALL_FILES
  }

  // ---- the loop --------------------------------------------------------------------------------

  function Projects(order: seq<Item>): set<ProjectID> {
    set k | 0 <= k < |order| :: order[k].project
  }

  // A dependency that was not seen before is queued.
  function AddOne(order: seq<Item>, d: Dependency, depth: nat): seq<Item> {
    if d.project in Projects(order) then order else order + [Item(d.project, d.version, depth)]
  }

  function AddUnseen(order: seq<Item>, dependencies: seq<Dependency>, depth: nat): seq<Item>
    decreases dependencies
  {
    if dependencies == [] then order
    else AddUnseen(AddOne(order, dependencies[0], depth), dependencies[1..], depth)
  }

  // Everyone queued once the first `head` have been looked up, in the order they were queued.
  function OrderAfter(input: Input, head: nat): seq<Item> {
    if head == 0 then [Item(input.project, input.version, 0)]
    else LookedUpNext(input, OrderAfter(input, head - 1), head - 1)
  }

  function LookedUpNext(input: Input, order: seq<Item>, head: nat): seq<Item> {
    if head < |order| then AddUnseen(order, Pulled(input, order[head]), order[head].depth + 1) else order
  }

  lemma AddingGoesOn(order: seq<Item>, dependencies: seq<Dependency>, i: nat, depth: nat)
    requires i < |dependencies|
    ensures AddUnseen(order, dependencies[i..], depth) ==
            AddUnseen(AddOne(order, dependencies[i], depth), dependencies[i + 1..], depth)
  {
    assert dependencies[i..][1..] == dependencies[i + 1..] && dependencies[i..][0] == dependencies[i];
  }

  // Item order[head] has been looked up, and some of what it pulls in may still have to be queued.
  predicate Queuing(input: Input, order: seq<Item>, head: nat) {
    && head < |order|
    && Distinct(order) && InLevels(order) && NextLevel(order, head + 1)
    && HasParents(input, order, head + 1) && Closed(input, order, head)
  }

  lemma NextIsLookedUp(input: Input, order: seq<Item>, head: nat)
    requires Trace(input, order, head) && head < |order|
    ensures Queuing(input, order, head)
  {
    var next := head + 1;
    forall k: nat | 1 <= k < |order| ensures HasParent(input, order, next, k) {
      assert HasParent(input, order, head, k);
    }
  }

  lemma QueuedStays(order: seq<Item>, more: seq<Item>, project: ProjectID, depth: nat)
    requires QueuedAt(order, project, depth)
    ensures QueuedAt(order + more, project, depth)
  {
    var k :| 0 <= k < |order| && order[k].project == project && order[k].depth <= depth;
    assert (order + more)[k] == order[k];
  }

  lemma ClosedStays(input: Input, order: seq<Item>, more: seq<Item>, head: nat)
    requires head <= |order| && Closed(input, order, head)
    ensures Closed(input, order + more, head)
  {
    forall p | 0 <= p < head ensures Satisfied(input, order + more, (order + more)[p]) {
      assert Satisfied(input, order, order[p]);
      forall e | e in Pulled(input, order[p]) ensures QueuedAt(order + more, e.project, order[p].depth + 1) {
        QueuedStays(order, more, e.project, order[p].depth + 1);
      }
    }
  }

  lemma ParentsStay(input: Input, order: seq<Item>, item: Item, head: nat)
    requires head < |order| && HasParents(input, order, head + 1) && Pulls(input, order[head], item)
    ensures HasParents(input, order + [item], head + 1)
  {
    var order', next := order + [item], head + 1;
    forall k: nat | 1 <= k < |order'| ensures HasParent(input, order', next, k) {
      if k < |order| {
        assert HasParent(input, order, next, k);
        var p :| 0 <= p < k && p < head + 1 && Pulls(input, order[p], order[k]);
        assert Pulls(input, order'[p], order'[k]);
      } else {
        assert Pulls(input, order'[head], order'[k]);
      }
    }
  }

  lemma ShapeStays(order: seq<Item>, item: Item, head: nat)
    requires head < |order| && Distinct(order) && InLevels(order) && NextLevel(order, head + 1)
    requires item.depth == order[head].depth + 1 && item.project !in Projects(order)
    ensures Distinct(order + [item]) && InLevels(order + [item]) && NextLevel(order + [item], head + 1)
  {
  }

  lemma OneMoreIsQueued(input: Input, order: seq<Item>, head: nat, item: Item)
    requires Queuing(input, order, head)
    requires Pulls(input, order[head], item) && item.project !in Projects(order)
    ensures Queuing(input, order + [item], head)
    ensures QueuedAt(order + [item], item.project, order[head].depth + 1)
    ensures Projects(order + [item]) == Projects(order) + {item.project}
  {
    ProjectsOfOneMore(order, item);
    ShapeStays(order, item, head);
    ParentsStay(input, order, item, head);
    ClosedStays(input, order, [item], head);
  }

  lemma ProjectsOfOneMore(order: seq<Item>, item: Item)
    ensures Projects(order + [item]) == Projects(order) + {item.project}
    ensures (order + [item])[|order|] == item
  {
    var order' := order + [item];
    assert order'[|order|] == item;
    forall p | p in Projects(order) ensures p in Projects(order') {
      var k :| 0 <= k < |order| && order[k].project == p;
      assert order'[k] == order[k];
    }
  }

  // Whoever was seen was queued at the same level or before.
  lemma SeenIsQueued(order: seq<Item>, head: nat, project: ProjectID)
    requires head < |order| && NextLevel(order, head + 1) && project in Projects(order)
    ensures QueuedAt(order, project, order[head].depth + 1)
  {
    var k :| 0 <= k < |order| && order[k].project == project;
  }

  // What order[head] pulls in is queued: one iteration is over.
  lemma RoundIsOver(input: Input, order: seq<Item>, head: nat)
    requires Queuing(input, order, head) && Satisfied(input, order, order[head])
    requires Skips(input, order[head]) || Chosen(input, order[head])
    requires order[0] == Item(input.project, input.version, 0) && LookedUp(input, order, head)
    requires |VersionsOf(input, order[..head + 1])| <= MAX_INSTALL_FILES
    ensures Trace(input, order, head + 1)
  {
  }

  lemma SplitLast(input: Input, order: seq<Item>, head: nat)
    requires head < |order|
    ensures
      var last := order[head];
      && VersionsOf(input, order[..head + 1]) ==
           VersionsOf(input, order[..head]) + (if Chosen(input, last) then [Pick(input, last).value] else [])
      && SkippedOf(input, order[..head + 1]) ==
           SkippedOf(input, order[..head]) + (if Skips(input, last) then [last.project] else [])
  {
    assert order[..head + 1][..head] == order[..head];
  }

  lemma LookedUpStays(input: Input, order: seq<Item>, more: seq<Item>, head: nat)
    requires head <= |order| && LookedUp(input, order, head)
    ensures LookedUp(input, order + more, head)
  {
  }

  predicate QueuedBefore(order: seq<Item>, dependencies: seq<Dependency>, i: nat, depth: nat) {
    forall j :: 0 <= j < i <= |dependencies| ==> QueuedAt(order, dependencies[j].project, depth)
  }

  lemma QueuedBeforeStays(order: seq<Item>, item: Item, dependencies: seq<Dependency>, i: nat, depth: nat)
    requires QueuedBefore(order, dependencies, i, depth) && i < |dependencies|
    requires QueuedAt(order + [item], dependencies[i].project, depth)
    ensures QueuedBefore(order + [item], dependencies, i + 1, depth)
  {
    forall j | 0 <= j < i ensures QueuedAt(order + [item], dependencies[j].project, depth) {
      QueuedStays(order, [item], dependencies[j].project, depth);
    }
  }

  // Queueing what order[head] pulls in: its first i dependencies have been seen to.
  predicate QueuedSome(input: Input, order: seq<Item>, head: nat, dependencies: seq<Dependency>, i: nat,
                       order': seq<Item>, queue': seq<Item>, seen': set<ProjectID>)
    requires head < |order| && i <= |dependencies|
  {
    var depth := order[head].depth + 1;
    && order' == order[..head + 1] + queue' && seen' == Projects(order')
    && Queuing(input, order', head) && order'[head] == order[head]
    && QueuedBefore(order', dependencies, i, depth)
    && AddUnseen(order', dependencies[i..], depth) == AddUnseen(order, dependencies, depth)
  }

  lemma QueueOne(input: Input, order: seq<Item>, head: nat, dependencies: seq<Dependency>, i: nat,
                 order': seq<Item>, queue': seq<Item>, seen': set<ProjectID>, next: Item)
    requires head < |order| && i < |dependencies| && dependencies == Pulled(input, order[head])
    requires QueuedSome(input, order, head, dependencies, i, order', queue', seen')
    requires dependencies[i].project !in seen'
               && next == Item(dependencies[i].project, dependencies[i].version, order[head].depth + 1)
    ensures QueuedSome(input, order, head, dependencies, i + 1, order' + [next], queue' + [next],
              seen' + {next.project})
  {
    assert dependencies[i] == Dependency(next.project, next.version);
    OneMoreIsQueued(input, order', head, next);
    QueuedBeforeStays(order', next, dependencies, i, next.depth);
    AddingGoesOn(order', dependencies, i, next.depth);
  }

  lemma QueueNone(input: Input, order: seq<Item>, head: nat, dependencies: seq<Dependency>, i: nat,
                  order': seq<Item>, queue': seq<Item>, seen': set<ProjectID>)
    requires head < |order| && i < |dependencies| && dependencies[i].project in seen'
    requires QueuedSome(input, order, head, dependencies, i, order', queue', seen')
    ensures QueuedSome(input, order, head, dependencies, i + 1, order', queue', seen')
  {
    SeenIsQueued(order', head, dependencies[i].project);
    AddingGoesOn(order', dependencies, i, order[head].depth + 1);
  }

  lemma QueueNothingYet(input: Input, order: seq<Item>, head: nat, dependencies: seq<Dependency>, queue: seq<Item>,
                        seen: set<ProjectID>)
    requires Queuing(input, order, head) && order == order[..head + 1] + queue && seen == Projects(order)
    ensures QueuedSome(input, order, head, dependencies, 0, order, queue, seen)
  {
    assert dependencies[0..] == dependencies;
  }

  lemma QueuedAll(input: Input, order: seq<Item>, head: nat, dependencies: seq<Dependency>,
                  order': seq<Item>, queue': seq<Item>, seen': set<ProjectID>)
    requires head < |order| && dependencies == Pulled(input, order[head])
    requires QueuedSome(input, order, head, dependencies, |dependencies|, order', queue', seen')
    ensures Satisfied(input, order', order[head]) && order' == AddUnseen(order, dependencies, order[head].depth + 1)
  {
    var depth := order[head].depth + 1;
    forall d | d in dependencies ensures QueuedAt(order', d.project, depth) {
      var j :| 0 <= j < |dependencies| && dependencies[j] == d;
    }
    assert dependencies[|dependencies|..] == [];
  }

  method QueueDependencies(input: Input, item: Item, dependencies: seq<Dependency>, queue: seq<Item>,
                           seen: set<ProjectID>,
                           ghost order: seq<Item>, ghost head: nat)
    returns (queue': seq<Item>, seen': set<ProjectID>, ghost order': seq<Item>)
    requires Queuing(input, order, head) && item == order[head] && dependencies == Pulled(input, item)
    requires order == order[..head + 1] + queue && seen == Projects(order)
    ensures order' == order[..head + 1] + queue' && queue <= queue' && seen' == Projects(order')
    ensures Queuing(input, order', head) && Satisfied(input, order', item)
    ensures order' == AddUnseen(order, dependencies, item.depth + 1)
  {
    queue', seen', order' := queue, seen, order;
    QueueNothingYet(input, order, head, dependencies, queue, seen);
    for i := 0 to |dependencies|
      invariant QueuedSome(input, order, head, dependencies, i, order', queue', seen') && queue <= queue'
    {
      var d := dependencies[i];
      if d.project !in seen' {
        var next := Item(d.project, d.version, item.depth + 1);
        QueueOne(input, order, head, dependencies, i, order', queue', seen', next);
        seen' := seen' + {d.project};
        queue' := queue' + [next];
        order' := order' + [next];
      } else {
        QueueNone(input, order, head, dependencies, i, order', queue', seen');
      }
    }
    QueuedAll(input, order, head, dependencies, order', queue', seen');
  }

  // The result of a resolution, told by the projects that were looked up and those that still waited
  // when it stopped: none when it succeeds; on a failure the next one is the one that failed.
  predicate Outcome(input: Input, order: seq<Item>, head: nat, r: Result<Install>) {
    && Trace(input, order, head)
    && match r
       case Ok(install) =>
         head == |order| && install == Install(VersionsOf(input, order), SkippedOf(input, order))
       case Err(e) =>
         && head < |order| && !Skips(input, order[head])
         && if e == TooManyDependencies then
              Pick(input, order[head]).Ok? && |VersionsOf(input, order[..head])| == MAX_INSTALL_FILES
            else Pick(input, order[head]) == Err(e)
  }

  // The loop's variables between two rounds.
  predicate Running(input: Input, order: seq<Item>, head: nat, queue: seq<Item>, seen: set<ProjectID>,
                    install: seq<Version>, skipped: seq<ProjectID>) {
    && Trace(input, order, head)
    && order == order[..head] + queue && seen == Projects(order)
    && install == VersionsOf(input, order[..head]) && skipped == SkippedOf(input, order[..head])
  }

  lemma SkipRound(input: Input, order: seq<Item>, head: nat, queue: seq<Item>, seen: set<ProjectID>,
                  install: seq<Version>, skipped: seq<ProjectID>)
    requires Running(input, order, head, queue, seen, install, skipped) && queue != [] && Skips(input, queue[0])
    ensures Running(input, order, head + 1, queue[1..], seen, install, skipped + [queue[0].project])
  {
    assert order[head] == queue[0];
    assert order == order[..head + 1] + queue[1..];
    NextIsLookedUp(input, order, head);
    SplitLast(input, order, head);
    RoundIsOver(input, order, head);
  }

  // The next item has a version, and room for it.
  lemma PickRound(input: Input, order: seq<Item>, head: nat, queue: seq<Item>, seen: set<ProjectID>,
                  install: seq<Version>, skipped: seq<ProjectID>)
    requires Running(input, order, head, queue, seen, install, skipped) && queue != []
    requires Chosen(input, queue[0]) && |install| < MAX_INSTALL_FILES
    ensures order[..head + 1] == order[..head] + [queue[0]] && order == order[..head + 1] + queue[1..]
    ensures Queuing(input, order, head) && order[head] == queue[0]
    ensures VersionsOf(input, order[..head + 1]) == install + [Pick(input, queue[0]).value]
    ensures SkippedOf(input, order[..head + 1]) == skipped
  {
    assert queue == [queue[0]] + queue[1..];
    TakeOne(order, order[..head], queue);
    NextIsLookedUp(input, order, head);
    SplitLast(input, order, head);
  }

  lemma TakeOne(order: seq<Item>, past: seq<Item>, queue: seq<Item>)
    requires order == past + queue && queue != []
    ensures order[|past|] == queue[0] && order[..|past| + 1] == past + [queue[0]]
              && order == order[..|past| + 1] + queue[1..]
  {
  }

  lemma QueuedRound(input: Input, order: seq<Item>, head: nat, waiting: seq<Item>, order': seq<Item>, queue': seq<Item>,
                    seen': set<ProjectID>,
                    install': seq<Version>, skipped: seq<ProjectID>)
    requires Trace(input, order, head) && head < |order| && Chosen(input, order[head])
    requires order == order[..head + 1] + waiting && order' == order[..head + 1] + queue' && waiting <= queue'
    requires Queuing(input, order', head) && Satisfied(input, order', order[head]) && seen' == Projects(order')
    requires install' == VersionsOf(input, order[..head + 1]) && |install'| <= MAX_INSTALL_FILES
    requires skipped == SkippedOf(input, order[..head + 1])
    ensures Running(input, order', head + 1, queue', seen', install', skipped)
  {
    assert order' == order + queue'[|waiting|..];
    assert order'[..head + 1] == order[..head + 1];
    LookedUpStays(input, order, queue'[|waiting|..], head);
    RoundIsOver(input, order', head);
  }

  // The outcome, with the lookups in the order of OrderAfter.
  predicate OrderedOutcome(input: Input, order: seq<Item>, head: nat, r: Result<Install>) {
    Outcome(input, order, head, r) && order == OrderAfter(input, head)
  }

  lemma NextOrder(input: Input, order: seq<Item>, head: nat, order': seq<Item>)
    requires order == OrderAfter(input, head) && head < |order|
    requires order' == AddUnseen(order, Pulled(input, order[head]), order[head].depth + 1)
    ensures order' == OrderAfter(input, head + 1)
  {
  }

  // One lookup that is not skipped. The item is order[head], and the first of the queue.
  method LookUp(input: Input, queue: seq<Item>, seen: set<ProjectID>, install: seq<Version>,
                ghost skipped: seq<ProjectID>, ghost order: seq<Item>, ghost head: nat)
    returns (e: Option<ResolveError>, queue': seq<Item>, seen': set<ProjectID>, install': seq<Version>,
        ghost order': seq<Item>)
    requires Running(input, order, head, queue, seen, install, skipped) && queue != [] && !Skips(input, queue[0])
    ensures e.Some? ==> Outcome(input, order, head, Err(e.value))
    ensures e.None? ==>
              && Running(input, order', head + 1, queue', seen', install', skipped) && |install'| == |install| + 1
              && head < |order| && order' == AddUnseen(order, Pulled(input, order[head]), order[head].depth + 1)
  {
    e, queue', seen', install', order' := None, queue, seen, install, order;
    var item := queue[0];
    assert order[head] == item;
    var v := PickVersion(input, item);
    if v.Err? {
      FailureIsItsOwn(input, item);
      e := Some(v.error);
      return;
    }
    install' := install + [v.value];
    if |install'| > MAX_INSTALL_FILES {
      e := Some(TooManyDependencies);
      return;
    }
    PickRound(input, order, head, queue, seen, install, skipped);
    queue' := queue[1..];
    if item.depth < MAX_DEPENDENCY_DEPTH {
      queue', seen', order' := QueueDependencies(input, item, v.value.dependencies, queue', seen, order, head);
    }
    QueuedRound(input, order, head, queue[1..], order', queue', seen', install', skipped);
  }

  method Resolve(input: Input) returns (r: Result<Install>)
    ensures exists order, head :: OrderedOutcome(input, order, head, r)
  {
    var queue := [Item(input.project, input.version, 0)];
    var seen := {input.project};
    var install, skipped := [], [];
    ghost var order, head := queue, 0;
    assert Projects(order) == {order[0].project};
    while |queue| > 0
      invariant Running(input, order, head, queue, seen, install, skipped) && order == OrderAfter(input, head)
      decreases MAX_INSTALL_FILES - |install|, |queue|
    {
      var item := queue[0];
      ghost var before := order;
      assert order[head] == item;
      if item.depth > 0 && input.installed(item.project) {
        SkipRound(input, order, head, queue, seen, install, skipped);
        queue, skipped := queue[1..], skipped + [item.project];
      } else {
        var e;
        e, queue, seen, install, order := LookUp(input, queue, seen, install, skipped, order, head);
        if e.Some? {
          r := Err(e.value);
          assert OrderedOutcome(input, before, head, r);
          return;
        }
      }
      NextOrder(input, before, head, order);
      head := head + 1;
    }
    assert order[..head] == order;
    r := Ok(Install(install, skipped));
    assert OrderedOutcome(input, order, head, r);
  }

  lemma {:induction false} AddingKeeps(order: seq<Item>, dependencies: seq<Dependency>, depth: nat)
    ensures order <= AddUnseen(order, dependencies, depth)
    decreases dependencies
  {
    if dependencies != [] {
      AddingKeeps(AddOne(order, dependencies[0], depth), dependencies[1..], depth);
    }
  }

  lemma NextKeeps(input: Input, order: seq<Item>, head: nat)
    ensures order <= LookedUpNext(input, order, head)
    ensures |order| <= head ==> LookedUpNext(input, order, head) == order
  {
    if head < |order| {
      AddingKeeps(order, Pulled(input, order[head]), order[head].depth + 1);
    }
  }

  lemma {:induction false} OrderGrows(input: Input, head: nat, more: nat)
    requires head <= more
    ensures OrderAfter(input, head) <= OrderAfter(input, more)
    decreases more
  {
    if head < more {
      OrderGrows(input, head, more - 1);
      NextKeeps(input, OrderAfter(input, more - 1), more - 1);
    }
  }

  lemma {:induction false} OrderStays(input: Input, head: nat, more: nat)
    requires head <= more && head == |OrderAfter(input, head)|
    ensures OrderAfter(input, more) == OrderAfter(input, head)
    decreases more
  {
    if head < more {
      OrderStays(input, head, more - 1);
      NextKeeps(input, OrderAfter(input, more - 1), more - 1);
    }
  }

  lemma {:induction false} VersionsGrow(input: Input, order: seq<Item>, head: nat)
    requires head <= |order|
    ensures |VersionsOf(input, order[..head])| <= |VersionsOf(input, order)|
    decreases |order|
  {
    if head < |order| {
      var rest := order[..|order| - 1];
      assert rest[..head] == order[..head];
      VersionsGrow(input, rest, head);
    } else {
      assert order[..head] == order;
    }
  }

  // No trace goes on past the lookup where an outcome was reached.
  lemma OutcomeStops(input: Input, order: seq<Item>, head: nat, r: Result<Install>, order': seq<Item>, head': nat)
    requires OrderedOutcome(input, order, head, r) && Trace(input, order', head') && order' == OrderAfter(input, head')
    ensures head' <= head
  {
    if head < head' {
      OrderGrows(input, head, head');
      if r.Ok? {
        OrderStays(input, head, head');
      } else {
        StoppedAt(input, order, head, r.error, order', head');
      }
    }
  }

  lemma StoppedAt(input: Input, order: seq<Item>, head: nat, e: ResolveError, order': seq<Item>, head': nat)
    requires Outcome(input, order, head, Err(e)) && order <= order' && head < head' <= |order'|
    ensures !LookedUp(input, order', head') || |VersionsOf(input, order'[..head'])| > MAX_INSTALL_FILES
  {
    assert order'[head] == order[head] && order'[..head] == order[..head];
    SplitLast(input, order', head);
    VersionsGrow(input, order'[..head'], head + 1);
    assert order'[..head'][..head + 1] == order'[..head + 1];
  }

  // A request has one outcome: which projects are looked up, in which order, what is installed, and in
  // which order.
  lemma OutcomeIsUnique(input: Input, order: seq<Item>, head: nat, r: Result<Install>, order': seq<Item>, head': nat,
                        r': Result<Install>)
    requires OrderedOutcome(input, order, head, r) && OrderedOutcome(input, order', head', r')
    ensures order == order' && head == head' && r == r'
  {
    OutcomeStops(input, order, head, r, order', head');
    OutcomeStops(input, order', head', r', order, head);
    if head < |order| {
      FailureIsItsOwn(input, order[head]);
    }
  }

  lemma FailureIsItsOwn(input: Input, item: Item)
    ensures Pick(input, item).Err? ==> Pick(input, item).error != TooManyDependencies
  {
    if input.catalog(item.project).Some? {
      SearchFailure(input.catalog(item.project).value, item.version);
    }
  }

  lemma SearchFailure(vs: seq<Version>, version: Option<VersionID>)
    ensures FirstWanted(vs, version).Err? ==> FirstWanted(vs, version).error == NoCompatibleVersion
  {
  }

  // ---- what a resolution promises --------------------------------------------------------------

  lemma {:induction false} VersionsAreChosen(input: Input, order: seq<Item>, k: nat)
    requires k < |order| && Chosen(input, order[k])
    ensures Pick(input, order[k]).value in VersionsOf(input, order)
  {
    var n := |order| - 1;
    if k < n {
      VersionsAreChosen(input, order[..n], k);
    }
  }

  lemma {:induction false} SkippedAreInstalled(input: Input, order: seq<Item>, k: nat)
    requires k < |order| && Skips(input, order[k])
    ensures order[k].project in SkippedOf(input, order)
  {
    var n := |order| - 1;
    if k < n {
      SkippedAreInstalled(input, order[..n], k);
    }
  }

  lemma {:induction false} RequestIsFirst(input: Input, order: seq<Item>)
    requires order != [] && Chosen(input, order[0])
    ensures VersionsOf(input, order) != [] && VersionsOf(input, order)[0] == Pick(input, order[0]).value
  {
    var n := |order| - 1;
    if n > 0 {
      RequestIsFirst(input, order[..n]);
    } else {
      assert order[..0] == [];
    }
  }

  // The request comes first and is never skipped, and there are at most twenty versions.
  lemma TheRequestComesFirst(input: Input, order: seq<Item>, head: nat, r: Result<Install>)
    requires Outcome(input, order, head, r) && r.Ok?
    ensures 1 <= |r.value.versions| <= MAX_INSTALL_FILES
    ensures Pick(input, Item(input.project, input.version, 0)) == Ok(r.value.versions[0])
  {
    assert order[..head] == order;
    RequestIsFirst(input, order);
  }

  // Closed under dependencies: whatever a chosen version less than five steps from the request needs
  // was on the server already, and is reported so, or is installed as well.
  lemma EveryDependencyIsMet(input: Input, order: seq<Item>, head: nat, r: Result<Install>, k: nat, d: Dependency)
    requires Outcome(input, order, head, r) && r.Ok?
    requires k < |order| && Chosen(input, order[k]) && order[k].depth < MAX_DEPENDENCY_DEPTH
    requires d in Pick(input, order[k]).value.dependencies
    ensures Pick(input, order[k]).value in r.value.versions
    ensures
      || (input.installed(d.project) && d.project in r.value.skipped)
      || (exists item :: item in order && item.project == d.project && Chosen(input, item) &&
            Pick(input, item).value in r.value.versions)
  {
    VersionsAreChosen(input, order, k);
    assert Satisfied(input, order, order[k]);
    assert d in Pulled(input, order[k]);
    var j :| 0 <= j < |order| && order[j].project == d.project;
    assert order[j] in order;
    if Skips(input, order[j]) {
      SkippedAreInstalled(input, order, j);
    } else {
      assert Chosen(input, order[j]);
      VersionsAreChosen(input, order, j);
    }
  }

  lemma {:induction false} PickIsWanted(vs: seq<Version>, version: Option<VersionID>)
    ensures FirstWanted(vs, version).Ok? ==>
              FirstWanted(vs, version).value in vs && Wanted(FirstWanted(vs, version).value, version)
  {
    if vs != [] && !Wanted(vs[0], version) {
      PickIsWanted(vs[1..], version);
    }
  }

  // The need that named a project first decides on its version: the one it pins, if it pins one. What a
  // later need pins is met only if the first one pinned the same, or by chance.
  lemma TheFirstNeedPins(input: Input, order: seq<Item>, head: nat, r: Result<Install>, j: nat) returns (p: nat)
    requires Outcome(input, order, head, r) && r.Ok? && 1 <= j < |order| && Chosen(input, order[j])
    ensures p < j && Dependency(order[j].project, order[j].version) in Pulled(input, order[p])
    ensures Pick(input, order[j]).value in r.value.versions && Wanted(Pick(input, order[j]).value, order[j].version)
  {
    VersionsAreChosen(input, order, j);
    assert HasParent(input, order, head, j);
    p :| 0 <= p < j && p < head && Pulls(input, order[p], order[j]);
    PickIsWanted(input.catalog(order[j].project).value, order[j].version);
  }

  // b is needed by the version chosen for a.
  predicate Needs(input: Input, order: seq<Item>, a: ProjectID, b: ProjectID) {
    exists k, n :: 0 <= k < |order| && order[k].project == a && Chosen(input, order[k]) &&
                   0 <= n < |Pick(input, order[k]).value.dependencies|
                       && Pick(input, order[k]).value.dependencies[n].project == b
  }

  predicate IsPath(input: Input, order: seq<Item>, path: seq<ProjectID>) {
    && path != [] && path[0] == input.project
    && forall i {:trigger path[i]} :: 0 <= i < |path| - 1 ==> Needs(input, order, path[i], path[i + 1])
  }

  lemma PathsAreCut(input: Input, order: seq<Item>, path: seq<ProjectID>)
    requires IsPath(input, order, path) && |path| >= 2
    ensures IsPath(input, order, path[..|path| - 1]) && Needs(input, order, path[|path| - 2], path[|path| - 1])
  {
    var rest := path[..|path| - 1];
    forall i {:trigger rest[i]} | 0 <= i < |rest| - 1 ensures Needs(input, order, rest[i], rest[i + 1]) {
      assert path[i] == rest[i] && path[i + 1] == rest[i + 1];
    }
    assert Needs(input, order, path[|path| - 2], path[|path| - 2 + 1]);
  }

  lemma {:induction false} PathsAreFollowed(input: Input, order: seq<Item>, path: seq<ProjectID>)
    requires Trace(input, order, |order|) && IsPath(input, order, path) && |path| - 1 <= MAX_DEPENDENCY_DEPTH
    ensures QueuedAt(order, path[|path| - 1], |path| - 1)
    decreases |path|
  {
    var n := |path| - 1;
    if n == 0 {
      assert order[0].project == path[0];
    } else {
      PathsAreCut(input, order, path);
      PathsAreFollowed(input, order, path[..n]);
      FollowNeed(input, order, path[n - 1], path[n], n - 1);
    }
  }

  lemma FollowNeed(input: Input, order: seq<Item>, a: ProjectID, b: ProjectID, depth: nat)
    requires Trace(input, order, |order|) && Needs(input, order, a, b)
    requires QueuedAt(order, a, depth) && depth < MAX_DEPENDENCY_DEPTH
    ensures QueuedAt(order, b, depth + 1)
  {
    var k, n :| 0 <= k < |order| && order[k].project == a && Chosen(input, order[k]) &&
                0 <= n < |Pick(input, order[k]).value.dependencies|
                    && Pick(input, order[k]).value.dependencies[n].project == b;
    var j :| 0 <= j < |order| && order[j].project == a && order[j].depth <= depth;
    assert j == k;
    var d := Pick(input, order[k]).value.dependencies[n];
    assert d in Pulled(input, order[k]);
    assert Satisfied(input, order, order[k]);
    var m :| 0 <= m < |order| && order[m].project == b && order[m].depth <= order[k].depth + 1;
  }

  lemma ParentNeeds(input: Input, order: seq<Item>, k: nat) returns (p: nat)
    requires Trace(input, order, |order|) && 1 <= k < |order|
    ensures p < k && order[k].depth == order[p].depth + 1 && Needs(input, order, order[p].project, order[k].project)
  {
    assert HasParent(input, order, |order|, k);
    p :| 0 <= p < k && p < |order| && Pulls(input, order[p], order[k]);
    var deps := Pick(input, order[p]).value.dependencies;
    var n :| 0 <= n < |deps| && deps[n] == Dependency(order[k].project, order[k].version);
  }

  lemma PathGoesOn(input: Input, order: seq<Item>, path: seq<ProjectID>, b: ProjectID)
    requires IsPath(input, order, path) && Needs(input, order, path[|path| - 1], b)
    ensures IsPath(input, order, path + [b])
  {
    var more := path + [b];
    forall i {:trigger more[i]} | 0 <= i < |more| - 1 ensures Needs(input, order, more[i], more[i + 1]) {
      if i < |path| - 1 {
        assert more[i] == path[i] && more[i + 1] == path[i + 1];
      }
    }
  }

  lemma {:induction false} PathTo(input: Input, order: seq<Item>, k: nat) returns (path: seq<ProjectID>)
    requires Trace(input, order, |order|) && k < |order|
    ensures IsPath(input, order, path) && path[|path| - 1] == order[k].project && |path| - 1 == order[k].depth
    decreases k
  {
    if k == 0 {
      path := [input.project];
    } else {
      var p := ParentNeeds(input, order, k);
      path := PathTo(input, order, p);
      PathGoesOn(input, order, path, order[k].project);
      path := path + [order[k].project];
    }
  }

  // The depth of a looked-up project is its distance from the request: there is a chain of needs of
  // that length, and no shorter one. Chains of up to five needs miss nobody.
  lemma DepthIsDistance(input: Input, order: seq<Item>, head: nat, r: Result<Install>, k: nat)
    returns (path: seq<ProjectID>)
    requires Outcome(input, order, head, r) && r.Ok? && k < |order|
    ensures IsPath(input, order, path) && path[|path| - 1] == order[k].project && |path| - 1 == order[k].depth
    ensures forall other :: IsPath(input, order, other) && other[|other| - 1] == order[k].project ==>
              |other| - 1 >= order[k].depth
    ensures forall other :: IsPath(input, order, other) && |other| - 1 <= MAX_DEPENDENCY_DEPTH ==>
              other[|other| - 1] in Projects(order)
    ensures order[k].depth <= MAX_DEPENDENCY_DEPTH
  {
    path := PathTo(input, order, k);
    DepthsAreBounded(input, order, k);
    forall other | IsPath(input, order, other) && |other| - 1 <= MAX_DEPENDENCY_DEPTH
      ensures other[|other| - 1] in Projects(order)
      ensures other[|other| - 1] == order[k].project ==> |other| - 1 >= order[k].depth
    {
      PathsAreFollowed(input, order, other);
    }
  }

  lemma DepthsAreBounded(input: Input, order: seq<Item>, k: nat)
    requires Trace(input, order, |order|) && k < |order|
    ensures order[k].depth <= MAX_DEPENDENCY_DEPTH
  {
    if k > 0 {
      assert HasParent(input, order, |order|, k);
    }
  }

  // ---- one project, two names ------------------------------------------------------------------

  predicate Aliases(input: Input, order: seq<Item>) {
    exists i, j :: 0 <= i < j < |order| && Chosen(input, order[i]) && Chosen(input, order[j]) &&
                   Pick(input, order[i]).value.project == Pick(input, order[j]).value.project
  }

  predicate Repeats(versions: seq<Version>) {
    exists i, j :: 0 <= i < j < |versions| && versions[i].project == versions[j].project
  }

  predicate Gives(input: Input, order: seq<Item>, project: ProjectID) {
    exists i :: 0 <= i < |order| && Chosen(input, order[i]) && Pick(input, order[i]).value.project == project
  }

  predicate Lists(versions: seq<Version>, project: ProjectID) {
    exists i :: 0 <= i < |versions| && versions[i].project == project
  }

  lemma {:induction false} GivenIsListed(input: Input, order: seq<Item>, project: ProjectID)
    ensures Gives(input, order, project) <==> Lists(VersionsOf(input, order), project)
  {
    if order != [] {
      var n := |order| - 1;
      var rest, versions := order[..n], VersionsOf(input, order);
      GivenIsListed(input, rest, project);
      if Gives(input, rest, project) {
        var i :| 0 <= i < n && Chosen(input, rest[i]) && Pick(input, rest[i]).value.project == project;
        assert order[i] == rest[i];
        var m :| 0 <= m < |VersionsOf(input, rest)| && VersionsOf(input, rest)[m].project == project;
        assert versions[m].project == project;
      } else if Chosen(input, order[n]) && Pick(input, order[n]).value.project == project {
        assert versions[|versions| - 1].project == project;
      }
    }
  }

  // No id is looked up twice, but a catalog may answer for two ids with versions of one project, as for
  // a project's slug and its id. Exactly then a project is installed twice.
  lemma {:induction false} ProjectsRepeatExactlyForAliases(input: Input, order: seq<Item>)
    ensures Repeats(VersionsOf(input, order)) <==> Aliases(input, order)
  {
    if order != [] {
      var n := |order| - 1;
      var last, rest := order[n], order[..n];
      var had, versions := VersionsOf(input, rest), VersionsOf(input, order);
      ProjectsRepeatExactlyForAliases(input, rest);
      RepeatsOneMore(had, versions);
      if Chosen(input, last) {
        GivenIsListed(input, rest, Pick(input, last).value.project);
      }
      AliasesOneMore(input, order);
    }
  }

  lemma RepeatsOneMore(had: seq<Version>, versions: seq<Version>)
    requires versions == had || (|versions| == |had| + 1 && versions[..|had|] == had)
    ensures Repeats(versions) <==> Repeats(had) || (versions != had && Lists(had, versions[|versions| - 1].project))
  {
    if versions != had {
      assert forall i :: 0 <= i < |had| ==> versions[i] == had[i];
      if Repeats(had) {
        var i, j :| 0 <= i < j < |had| && had[i].project == had[j].project;
        assert versions[i].project == versions[j].project;
      } else if Lists(had, versions[|had|].project) {
        var i :| 0 <= i < |had| && had[i].project == versions[|had|].project;
        assert versions[i].project == versions[|had|].project;
      }
    }
  }

  lemma AliasesOneMore(input: Input, order: seq<Item>)
    requires order != []
    ensures
      var n := |order| - 1;
      Aliases(input, order) <==>
        Aliases(input, order[..n])
            || (Chosen(input, order[n]) && Gives(input, order[..n], Pick(input, order[n]).value.project))
  {
    var n := |order| - 1;
    var rest := order[..n];
    assert forall i :: 0 <= i < n ==> rest[i] == order[i];
    if Aliases(input, rest) {
      var i, j :| 0 <= i < j < n && Chosen(input, rest[i]) && Chosen(input, rest[j]) &&
                  Pick(input, rest[i]).value.project == Pick(input, rest[j]).value.project;
      assert Chosen(input, order[i]) && Chosen(input, order[j]);
    } else if Chosen(input, order[n]) && Gives(input, rest, Pick(input, order[n]).value.project) {
      var i :| 0 <= i < n && Chosen(input, rest[i])
          && Pick(input, rest[i]).value.project == Pick(input, order[n]).value.project;
      assert Chosen(input, order[i]);
    }
  }

  // No project is among the answers for two ids. So it is for a catalog that answers every id with
  // versions of the project of that id.
  ghost predicate NamesProjectsOnce(catalog: ProjectID -> Option<seq<Version>>) {
    forall p, q :: p != q && catalog(p).Some? && catalog(q).Some? ==>
      forall v, w :: v in catalog(p).value && w in catalog(q).value ==> v.project != w.project
  }

  lemma NothingIsInstalledTwice(input: Input, order: seq<Item>, head: nat, r: Result<Install>)
    requires Outcome(input, order, head, r) && r.Ok? && NamesProjectsOnce(input.catalog)
    ensures !Repeats(r.value.versions)
  {
    ProjectsRepeatExactlyForAliases(input, order);
    forall i, j | 0 <= i < j < |order| && Chosen(input, order[i]) && Chosen(input, order[j])
      ensures Pick(input, order[i]).value.project != Pick(input, order[j]).value.project {
      PickIsWanted(input.catalog(order[i].project).value, order[i].version);
      PickIsWanted(input.catalog(order[j].project).value, order[j].version);
    }
  }

  // A project has a slug and an id, and its add-on needs it under the id.
  predicate SlugCatalog(input: Input, id: ProjectID, main: Version, addon: Version) {
    && input.project != id && input.project != addon.project && id != addon.project && input.version.None?
    && input.catalog(input.project) == Some([main]) && input.catalog(id) == Some([main])
    && input.catalog(addon.project) == Some([addon])
    && main.project == id && main.dependencies == [Dependency(addon.project, None)]
    && addon.dependencies == [Dependency(id, None)]
    && !input.installed(id) && !input.installed(addon.project)
  }

  // What the three lookups find.
  lemma SlugPicks(input: Input, id: ProjectID, main: Version, addon: Version)
    requires SlugCatalog(input, id, main, addon)
    ensures Pick(input, Item(input.project, None, 0)) == Ok(main)
    ensures Pick(input, Item(addon.project, None, 1)) == Ok(addon) && Pick(input, Item(id, None, 2)) == Ok(main)
    ensures Chosen(input, Item(input.project, None, 0)) && Chosen(input, Item(addon.project, None, 1))
    ensures Chosen(input, Item(id, None, 2))
  {
  }

  lemma SlugVersions(input: Input, id: ProjectID, main: Version, addon: Version)
    requires SlugCatalog(input, id, main, addon)
    ensures
      var order := [Item(input.project, None, 0), Item(addon.project, None, 1), Item(id, None, 2)];
      VersionsOf(input, order) == [main, addon, main] && SkippedOf(input, order) == []
  {
    var order := [Item(input.project, None, 0), Item(addon.project, None, 1), Item(id, None, 2)];
    SlugPicks(input, id, main, addon);
    SplitLast(input, order, 0);
    SplitLast(input, order, 1);
    SplitLast(input, order, 2);
    assert order[..3] == order && order[..0] == [];
  }

  lemma SlugOrder(input: Input, id: ProjectID, main: Version, addon: Version)
    requires SlugCatalog(input, id, main, addon)
    ensures
      var order := [Item(input.project, None, 0), Item(addon.project, None, 1), Item(id, None, 2)];
      && (forall k :: 0 <= k < 3 ==> Chosen(input, order[k]) && Satisfied(input, order, order[k]))
      && HasParents(input, order, 3)
  {
    var order := [Item(input.project, None, 0), Item(addon.project, None, 1), Item(id, None, 2)];
    SlugPicks(input, id, main, addon);
    assert Pulls(input, order[0], order[1]) && Pulls(input, order[1], order[2]);
    assert HasParent(input, order, 3, 1) && HasParent(input, order, 3, 2);
    assert order[1].project == addon.project && order[2].project == id;
    assert QueuedAt(order, addon.project, 1) && QueuedAt(order, id, 2) && QueuedAt(order, addon.project, 3);
  }

  lemma SlugShape(a: Item, b: Item, c: Item)
    requires a.depth == 0 && b.depth == 1 && c.depth == 2
    requires a.project != b.project && a.project != c.project && b.project != c.project
    ensures Distinct([a, b, c]) && InLevels([a, b, c]) && NextLevel([a, b, c], 3)
  {
  }

  lemma SlugTrace(input: Input, id: ProjectID, main: Version, addon: Version)
    requires SlugCatalog(input, id, main, addon)
    ensures Trace(input, [Item(input.project, None, 0), Item(addon.project, None, 1), Item(id, None, 2)], 3)
  {
    var order := [Item(input.project, None, 0), Item(addon.project, None, 1), Item(id, None, 2)];
    SlugShape(order[0], order[1], order[2]);
    SlugOrder(input, id, main, addon);
    SlugVersions(input, id, main, addon);
    assert Closed(input, order, 3) && LookedUp(input, order, 3);
    assert order[..3] == order;
  }

  lemma SlugLookups(input: Input, id: ProjectID, main: Version, addon: Version)
    requires SlugCatalog(input, id, main, addon)
    ensures OrderAfter(input, 3) == [Item(input.project, None, 0), Item(addon.project, None, 1), Item(id, None, 2)]
  {
    var first, second, third := Item(input.project, None, 0), Item(addon.project, None, 1), Item(id, None, 2);
    assert Pick(input, first) == Ok(main) && Pick(input, second) == Ok(addon) && Pick(input, third) == Ok(main);
    assert OrderAfter(input, 0) == [first];
    assert [first][0].project == input.project && Projects([first]) == {input.project};
    OnlyOneIsAdded([first], Dependency(addon.project, None), 1);
    assert OrderAfter(input, 1) == [first] + [second];
    ProjectsOfOneMore([first], second);
    OnlyOneIsAdded([first] + [second], Dependency(id, None), 2);
    assert OrderAfter(input, 2) == [first] + [second] + [third];
    ProjectsOfOneMore([first] + [second], third);
    OnlyOneIsAdded([first] + [second] + [third], Dependency(addon.project, None), 3);
  }

  lemma OnlyOneIsAdded(order: seq<Item>, d: Dependency, depth: nat)
    ensures AddUnseen(order, [d], depth) == AddOne(order, d, depth)
  {
    assert [d][1..] == [];
  }

  // Asked for by its slug, such a project is installed twice.
  lemma ASlugIsInstalledTwice(input: Input, id: ProjectID, main: Version, addon: Version)
    requires SlugCatalog(input, id, main, addon)
    ensures
      var order := [Item(input.project, None, 0), Item(addon.project, None, 1), Item(id, None, 2)];
      OrderedOutcome(input, order, 3, Ok(Install([main, addon, main], []))) && Repeats([main, addon, main])
  {
    SlugTrace(input, id, main, addon);
    SlugVersions(input, id, main, addon);
    SlugLookups(input, id, main, addon);
    assert [main, addon, main][0].project == [main, addon, main][2].project;
  }
}
