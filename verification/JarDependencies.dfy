/**
 What the jars being installed need and nobody provides: looked up by mod id in at most five rounds,
 added to the plan while it stays below twenty files, and warned about otherwise.
 */
module JarDependencies {
  import opened Sets
  import opened Wrappers

  type ModID = string

  const JAR_DEPENDENCY_ROUNDS := 5
  const MAX_INSTALL_FILES_PER_REQUEST := 20

  datatype JarMeta = JarMeta(provisions: seq<ModID>, depends: seq<ModID>)

  // One jar that will be written, or that is in the mods directory already.
  datatype File = File(project: string, name: string, meta: JarMeta)

  // What the catalog answers for a project: its newest compatible version, whether it may be
  // downloaded and under which safe file name, and the jar's own metadata once it is.
  datatype Candidate = Candidate(project: string, downloadable: bool, name: Option<string>, meta: Option<JarMeta>)

  datatype Cause = NotInstallable | NotFound | TooManyFiles

  datatype Warning = Warning(who: string, id: ModID, cause: Cause)

  datatype Need = Need(id: ModID, who: string)

  // ---- one mod id ------------------------------------------------------------------------------

  const FABRIC_PREFIX: string := "fabric-"
  const FABRIC_API: string := "fabric-api"

  // Fabric API's modules may come from the Fabric API project.
  function Candidates(id: ModID): (r: seq<ModID>)
    ensures id in r && |r| <= 2
  {
    if FABRIC_PREFIX <= id && id != FABRIC_API then [id, FABRIC_API] else [id]
  }

  predicate Fits(c: Option<Candidate>, id: ModID, existing: set<string>, inPlan: set<string>) {
    && c.Some? && c.value.project !in inPlan && c.value.downloadable
    && c.value.name.Some? && c.value.name.value !in existing
    && c.value.meta.Some? && id in c.value.meta.value.provisions
  }

  // The first of the candidate projects that fits, if any.
  method FetchJarDependency(catalog: ModID -> Option<Candidate>, id: ModID, existing: set<string>, inPlan: set<string>)
    returns (r: Option<File>)
    ensures r.None? <==> forall c :: c in Candidates(id) ==> !Fits(catalog(c), id, existing, inPlan)
    ensures r.Some? ==>
              exists k :: 0 <= k < |Candidates(id)| && Fits(catalog(Candidates(id)[k]), id, existing, inPlan) &&
                (forall j :: 0 <= j < k ==> !Fits(catalog(Candidates(id)[j]), id, existing, inPlan)) &&
                r.value == File(catalog(Candidates(id)[k]).value.project, catalog(Candidates(id)[k]).value.name.value,
                                catalog(Candidates(id)[k]).value.meta.value)
    ensures r.Some? ==> r.value.project !in inPlan && r.value.name !in existing && id in r.value.meta.provisions
  {
    var candidates := Candidates(id);
    for k := 0 to |candidates|
      invariant forall j :: 0 <= j < k ==> !Fits(catalog(candidates[j]), id, existing, inPlan)
    {
      assert candidates[k] in candidates;
      var answer := catalog(candidates[k]);
      if answer.None? {
        continue;
      }
      var v := answer.value;
      if v.project in inPlan || !v.downloadable {
        continue;
      }
      if v.name.None? || v.name.value in existing {
        continue;
      }
      if v.meta.None? {
        continue;
      }
      if id !in v.meta.value.provisions {
        continue;
      }
      return Some(File(v.project, v.name.value, v.meta.value));
    }
    r := None;
  }

  // ---- what the files of a plan provide and need -----------------------------------------------

  function Provided(files: seq<File>): set<ModID> {
    if files == [] then {}
    else Provided(files[..|files| - 1]) + Elements(files[|files| - 1].meta.provisions)
  }

  function Projects(files: seq<File>): set<string> {
    if files == [] then {}
    else Projects(files[..|files| - 1]) + {files[|files| - 1].project}
  }

  method ProvidedIds(files: seq<File>) returns (ids: set<ModID>)
    ensures ids == Provided(files)
  {
    ids := {};
    for k := 0 to |files|
      invariant ids == Provided(files[..k])
    {
      assert files[..k + 1][..k] == files[..k];
      ids := ids + Elements(files[k].meta.provisions);
    }
    assert files[..|files|] == files;
  }

  ghost predicate Requires(file: File, id: ModID) {
    id in file.meta.depends
  }

  ghost predicate RequiredBy(plan: seq<File>, id: ModID, who: string) {
    exists p :: p in plan && p.name == who && Requires(p, id)
  }

  ghost predicate Warned(warnings: seq<Warning>, id: ModID) {
    exists w :: w in warnings && w.id == id
  }

  ghost predicate Waits(needs: seq<Need>, id: ModID) {
    exists n :: n in needs && n.id == id
  }

  // The file provides what an earlier one requires and nobody before it did.
  ghost predicate Fills(installed: seq<File>, before: seq<File>, file: File, need: Need) {
    && need.id in file.meta.provisions && need.id !in Provided(installed) + Provided(before)
    && RequiredBy(before, need.id, need.who)
  }

  // A file that was added: it was needed, and its project and its name are new.
  ghost predicate AddedForAReason(installed: seq<File>, existing: set<string>, before: seq<File>, file: File) {
    && file.project !in Projects(before) && file.name !in existing
    && exists need :: Fills(installed, before, file, need)
  }

  // The k-th file of the plan, if it was added, was added for a reason.
  ghost predicate HasReason(installed: seq<File>, existing: set<string>, plan0: seq<File>, plan: seq<File>, k: nat) {
    |plan0| <= k < |plan| ==> AddedForAReason(installed, existing, plan[..k], plan[k])
  }

  // The plan grew out of plan0.
  ghost predicate Grown(installed: seq<File>, existing: set<string>, plan0: seq<File>, plan: seq<File>) {
    && plan0 <= plan
    && (|plan| <= |plan0| || |plan| <= MAX_INSTALL_FILES_PER_REQUEST)
    && forall k: nat :: k < |plan| ==> HasReason(installed, existing, plan0, plan, k)
  }

  ghost predicate Justified(plan: seq<File>, warnings: seq<Warning>) {
    forall w :: w in warnings ==> RequiredBy(plan, w.id, w.who)
  }

  // Every id that was taken up is provided, was warned about, or still waits.
  ghost predicate Settled(taken: set<ModID>, provided: set<ModID>, warnings: seq<Warning>, needs: seq<Need>) {
    forall id :: id in taken ==> id in provided || Warned(warnings, id) || Waits(needs, id)
  }

  // Every requirement of the plan was taken up, or is provided.
  ghost predicate AllTaken(plan: seq<File>, provided: set<ModID>, taken: set<ModID>) {
    forall p, id :: p in plan && Requires(p, id) ==> id in provided || id in taken
  }

  // Every requirement is provided by a file that is there or will be, or was warned about.
  ghost predicate AllMet(installed: seq<File>, plan: seq<File>, warnings: seq<Warning>) {
    forall p, id :: p in plan && Requires(p, id) ==> id in Provided(installed) + Provided(plan) || Warned(warnings, id)
  }

  // ---- one round -------------------------------------------------------------------------------

  // A need was taken up in this round for a requirement of the plan.
  ghost predicate NeedsAreRequired(plan: seq<File>, needs: seq<Need>) {
    forall n :: n in needs ==> RequiredBy(plan, n.id, n.who)
  }

  ghost predicate Taken(file: File, provided: set<ModID>, taken: set<ModID>) {
    forall id :: Requires(file, id) ==> id in provided || id in taken
  }

  method CollectNeedsOf(file: File, provided: set<ModID>, taken: set<ModID>, needs: seq<Need>, ghost plan: seq<File>)
    returns (taken': set<ModID>, needs': seq<Need>)
    requires file in plan && NeedsAreRequired(plan, needs)
    ensures taken <= taken' && needs <= needs' && NeedsAreRequired(plan, needs')
    ensures forall n :: n in needs' && n !in needs ==> n.id !in provided && n.id !in taken
    ensures Taken(file, provided, taken')
    ensures forall id :: id in taken' ==> id in taken || Waits(needs', id)
    ensures needs' == needs ==> taken' == taken
  {
    taken', needs' := taken, needs;
    for k := 0 to |file.meta.depends|
      invariant taken <= taken' && needs <= needs' && NeedsAreRequired(plan, needs')
      invariant forall n :: n in needs' && n !in needs ==> n.id !in provided && n.id !in taken
      invariant forall j :: 0 <= j < k ==> file.meta.depends[j] in provided || file.meta.depends[j] in taken'
      invariant forall id :: id in taken' ==> id in taken || Waits(needs', id)
      invariant needs' == needs ==> taken' == taken
    {
      var id := file.meta.depends[k];
      if id !in provided && id !in taken' {
        assert Requires(file, id);
        WaitsForOneMore(needs', Need(id, file.name));
        taken' := taken' + {id};
        needs' := needs' + [Need(id, file.name)];
      }
    }
  }

  lemma WaitsForOneMore(needs: seq<Need>, n: Need)
    ensures forall id :: Waits(needs + [n], id) <==> Waits(needs, id) || id == n.id
  {
    forall id | Waits(needs, id) ensures Waits(needs + [n], id) {
      var m :| m in needs && m.id == id;
      assert m in needs + [n];
    }
    assert n in needs + [n];
  }

  // What the plan requires, is not provided, and was not taken up in a round before.
  method CollectNeeds(plan: seq<File>, provided: set<ModID>, taken: set<ModID>)
    returns (taken': set<ModID>, needs: seq<Need>)
    ensures taken <= taken' && NeedsAreRequired(plan, needs) && AllTaken(plan, provided, taken')
    ensures forall n :: n in needs ==> n.id !in provided && n.id !in taken
    ensures forall id :: id in taken' ==> id in taken || Waits(needs, id)
    ensures needs == [] ==> taken' == taken
  {
    taken', needs := taken, [];
    for k := 0 to |plan|
      invariant taken <= taken' && NeedsAreRequired(plan, needs)
      invariant forall n :: n in needs ==> n.id !in provided && n.id !in taken
      invariant forall j :: 0 <= j < k ==> Taken(plan[j], provided, taken')
      invariant forall id :: id in taken' ==> id in taken || Waits(needs, id)
      invariant needs == [] ==> taken' == taken
    {
      ghost var before := needs;
      taken', needs := CollectNeedsOf(plan[k], provided, taken', needs, plan);
      WaitsStays(before, needs);
    }
  }

  lemma WaitsStays(needs: seq<Need>, needs': seq<Need>)
    requires needs <= needs'
    ensures forall id :: Waits(needs, id) ==> Waits(needs', id)
  {
    forall id | Waits(needs, id) ensures Waits(needs', id) {
      var n :| n in needs && n.id == id;
      assert n in needs';
    }
  }

  lemma WarnedOnceMore(warnings: seq<Warning>, w: Warning)
    ensures forall id :: Warned(warnings + [w], id) <==> Warned(warnings, id) || id == w.id
  {
    forall id | Warned(warnings, id) ensures Warned(warnings + [w], id) {
      var v :| v in warnings && v.id == id;
      assert v in warnings + [w];
    }
    assert w in warnings + [w];
  }

  lemma RequiredStays(plan: seq<File>, file: File)
    ensures forall id, who :: RequiredBy(plan, id, who) ==> RequiredBy(plan + [file], id, who)
  {
    forall id, who | RequiredBy(plan, id, who) ensures RequiredBy(plan + [file], id, who) {
      var p :| p in plan && p.name == who && Requires(p, id);
      assert p in plan + [file];
    }
  }

  lemma ReasonStays(installed: seq<File>, existing: set<string>, plan0: seq<File>, plan: seq<File>, file: File, k: nat)
    requires k <= |plan| && (k < |plan| ==> HasReason(installed, existing, plan0, plan, k))
    requires k == |plan| ==> AddedForAReason(installed, existing, plan, file)
    ensures HasReason(installed, existing, plan0, plan + [file], k)
  {
    assert (plan + [file])[..k] == plan[..k];
    assert plan[..|plan|] == plan;
  }

  lemma GrownStays(installed: seq<File>, existing: set<string>, plan0: seq<File>, plan: seq<File>, file: File)
    requires Grown(installed, existing, plan0, plan) && |plan| < MAX_INSTALL_FILES_PER_REQUEST
    requires AddedForAReason(installed, existing, plan, file)
    ensures Grown(installed, existing, plan0, plan + [file])
  {
    forall k: nat | k < |plan + [file]| ensures HasReason(installed, existing, plan0, plan + [file], k) {
      ReasonStays(installed, existing, plan0, plan, file, k);
    }
  }

  lemma OneMoreFile(plan: seq<File>, file: File)
    ensures Provided(plan + [file]) == Provided(plan) + Elements(file.meta.provisions)
    ensures Projects(plan + [file]) == Projects(plan) + {file.project}
  {
    assert (plan + [file])[..|plan|] == plan;
  }

  // ---- how far a file is from the original ones --------------------------------------------------

  ghost predicate Serves(file: File, other: File) {
    exists id :: Requires(other, id) && id in file.meta.provisions
  }

  // File j provides what the earlier file i requires.
  ghost predicate Link(plan: seq<File>, i: nat, j: nat) {
    i < j < |plan| && Serves(plan[j], plan[i])
  }

  // The file is at the end of a chain of so many needs, each of an earlier file.
  ghost predicate Far(plan: seq<File>, j: nat, n: nat)
    requires j < |plan|
  {
    n == 0 || exists i: nat :: Link(plan, i, j) && Far(plan, i, n - 1)
  }

  lemma {:induction false} FarStays(plan: seq<File>, file: File, j: nat, n: nat)
    requires j < |plan| && Far(plan, j, n)
    ensures Far(plan + [file], j, n)
  {
    if n > 0 {
      var i: nat :| Link(plan, i, j) && Far(plan, i, n - 1);
      FarStays(plan, file, i, n - 1);
      assert Link(plan + [file], i, j);
    }
  }

  // The files from here on are that far.
  ghost predicate FarFrom(plan: seq<File>, start: nat, n: nat) {
    start <= |plan| && forall j: nat :: start <= j < |plan| ==> Far(plan, j, n)
  }

  // A file that far requires it.
  ghost predicate FarNeed(plan: seq<File>, id: ModID, n: nat) {
    exists i: nat :: i < |plan| && Requires(plan[i], id) && Far(plan, i, n)
  }

  ghost predicate FarNeeds(plan: seq<File>, needs: seq<Need>, n: nat) {
    forall need :: need in needs ==> FarNeed(plan, need.id, n)
  }

  lemma IsOneOfTheFirst(plan: seq<File>, start: nat, i: nat)
    requires start <= |plan| && i < |plan|
    ensures i < start ==> plan[i] in plan[..start]
  {
    if i < start {
      assert plan[..start][i] == plan[i];
    }
  }

  // What was not taken up before is required by a file that was not there before.
  lemma NewNeedsAreFar(plan: seq<File>, start: nat, n: nat, needs: seq<Need>, provided: set<ModID>, taken: set<ModID>)
    requires FarFrom(plan, start, n) && AllTaken(plan[..start], provided, taken) && NeedsAreRequired(plan, needs)
    requires forall need :: need in needs ==> need.id !in provided && need.id !in taken
    ensures FarNeeds(plan, needs, n)
  {
    forall need | need in needs ensures FarNeed(plan, need.id, n) {
      var p :| p in plan && p.name == need.who && Requires(p, need.id);
      var i: nat :| i < |plan| && plan[i] == p;
      IsOneOfTheFirst(plan, start, i);
    }
  }

  lemma OneFileFurther(plan: seq<File>, start: nat, n: nat, needs: seq<Need>, need: Need, file: File)
    requires FarFrom(plan, start, n + 1) && FarNeeds(plan, needs, n) && need in needs && need.id in file.meta.provisions
    ensures FarFrom(plan + [file], start, n + 1) && FarNeeds(plan + [file], needs, n)
  {
    var more := plan + [file];
    forall other | other in needs ensures FarNeed(more, other.id, n) {
      var i: nat :| i < |plan| && Requires(plan[i], other.id) && Far(plan, i, n);
      FarStays(plan, file, i, n);
      assert more[i] == plan[i];
    }
    var further := n + 1;
    forall j: nat | start <= j < |more| ensures Far(more, j, further) {
      if j < |plan| {
        FarStays(plan, file, j, further);
      } else {
        var i: nat :| i < |plan| && Requires(plan[i], need.id) && Far(plan, i, n);
        FarStays(plan, file, i, n);
        assert more[i] == plan[i] && more[j] == file && Link(more, i, j);
      }
    }
  }

  // ---- all rounds ------------------------------------------------------------------------------

  // What the rounds keep: the plan grew for reasons, what it provides and whose projects it holds is
  // known, and warnings are about what it requires.
  ghost predicate Kept(installed: seq<File>, existing: set<string>, plan0: seq<File>, plan: seq<File>,
                       warnings: seq<Warning>, provided: set<ModID>, inPlan: set<string>) {
    && Grown(installed, existing, plan0, plan)
    && provided == Provided(installed) + Provided(plan) && inPlan == Projects(plan)
    && Justified(plan, warnings)
  }

  lemma JustifiedStays(plan: seq<File>, warnings: seq<Warning>, file: File)
    requires Justified(plan, warnings)
    ensures Justified(plan + [file], warnings)
  {
    RequiredStays(plan, file);
  }

  lemma NeedsStay(plan: seq<File>, needs: seq<Need>, file: File)
    requires NeedsAreRequired(plan, needs)
    ensures NeedsAreRequired(plan + [file], needs)
  {
    RequiredStays(plan, file);
  }

  lemma OneNeedLess(needs: seq<Need>, k: nat)
    requires k < |needs|
    ensures forall id :: Waits(needs[k..], id) ==> Waits(needs[k + 1..], id) || id == needs[k].id
  {
    assert needs[k..] == [needs[k]] + needs[k + 1..];
  }

  // One need of a round: it is filled by a file that is added, it has been filled meanwhile, or there
  // is a warning.
  method Fill(catalog: ModID -> Option<Candidate>, findable: bool, need: Need, existing: set<string>, plan: seq<File>,
              warnings: seq<Warning>, provided: set<ModID>, inPlan: set<string>, ghost installed: seq<File>,
                  ghost plan0: seq<File>)
    returns (plan': seq<File>, warnings': seq<Warning>, provided': set<ModID>, inPlan': set<string>)
    requires Kept(installed, existing, plan0, plan, warnings, provided, inPlan) && RequiredBy(plan, need.id, need.who)
    ensures Kept(installed, existing, plan0, plan', warnings', provided', inPlan')
    ensures provided <= provided' && warnings <= warnings'
    ensures plan' == plan || exists f :: plan' == plan + [f] && need.id in f.meta.provisions
    ensures need.id in provided' || Warned(warnings', need.id)
  {
    plan', warnings', provided', inPlan' := plan, warnings, provided, inPlan;
    if need.id in provided {
      return;
    }
    var cause := TooManyFiles;
    if !findable {
      cause := NotInstallable;
    } else {
      var added := FetchJarDependency(catalog, need.id, existing, inPlan);
      if added.None? {
        cause := NotFound;
      } else if |plan| < MAX_INSTALL_FILES_PER_REQUEST {
        var file := added.value;
        assert Fills(installed, plan, file, need);
        GrownStays(installed, existing, plan0, plan, file);
        OneMoreFile(plan, file);
        JustifiedStays(plan, warnings, file);
        plan' := plan + [file];
        inPlan' := inPlan + {file.project};
        provided' := provided + Elements(file.meta.provisions);
        return;
      }
    }
    var w := Warning(need.who, need.id, cause);
    WarnedOnceMore(warnings, w);
    warnings' := warnings + [w];
  }

  lemma SettledStays(taken: set<ModID>, provided: set<ModID>, warnings: seq<Warning>, needs: seq<Need>, k: nat,
                     provided': set<ModID>, warnings': seq<Warning>)
    requires k < |needs| && Settled(taken, provided, warnings, needs[k..])
    requires provided <= provided' && warnings <= warnings'
               && (needs[k].id in provided' || Warned(warnings', needs[k].id))
    ensures Settled(taken, provided', warnings', needs[k + 1..])
  {
    OneNeedLess(needs, k);
    forall id | id in taken ensures id in provided' || Warned(warnings', id) || Waits(needs[k + 1..], id) {
      if Warned(warnings, id) {
        var w :| w in warnings && w.id == id;
        assert w in warnings';
      }
    }
  }

  method FillAll(catalog: ModID -> Option<Candidate>, findable: bool, needs: seq<Need>, existing: set<string>,
                 plan: seq<File>,
                 warnings: seq<Warning>, provided: set<ModID>, inPlan: set<string>,
                 ghost installed: seq<File>, ghost plan0: seq<File>, ghost taken: set<ModID>, ghost far: nat)
    returns (plan': seq<File>, warnings': seq<Warning>, provided': set<ModID>, inPlan': set<string>)
    requires Kept(installed, existing, plan0, plan, warnings, provided, inPlan) && NeedsAreRequired(plan, needs)
    requires Settled(taken, provided, warnings, needs) && FarNeeds(plan, needs, far)
    ensures plan <= plan' && FarFrom(plan', |plan|, far + 1)
    ensures Kept(installed, existing, plan0, plan', warnings', provided', inPlan')
    ensures provided <= provided' && Settled(taken, provided', warnings', [])
  {
    plan', warnings', provided', inPlan' := plan, warnings, provided, inPlan;
    for k := 0 to |needs|
      invariant Kept(installed, existing, plan0, plan', warnings', provided', inPlan')
      invariant provided <= provided' && NeedsAreRequired(plan', needs)
      invariant Settled(taken, provided', warnings', needs[k..])
      invariant plan <= plan' && FarFrom(plan', |plan|, far + 1) && FarNeeds(plan', needs, far)
    {
      ghost var beforePlan, beforeWarnings, beforeProvided := plan', warnings', provided';
      assert needs[k] in needs;
      plan', warnings', provided', inPlan' :=
        Fill(catalog, findable, needs[k], existing, plan', warnings', provided', inPlan', installed, plan0);
      SettledStays(taken, beforeProvided, beforeWarnings, needs, k, provided', warnings');
      if plan' != beforePlan {
        ghost var f :| plan' == beforePlan + [f] && needs[k].id in f.meta.provisions;
        NeedsStay(beforePlan, needs, f);
        OneFileFurther(beforePlan, |plan|, far, needs, needs[k], f);
      }
    }
  }

  lemma TakenAreMet(plan: seq<File>, provided: set<ModID>, taken: set<ModID>, warnings: seq<Warning>)
    requires AllTaken(plan, provided, taken) && Settled(taken, provided, warnings, [])
    ensures forall p, id :: p in plan && Requires(p, id) ==> id in provided || Warned(warnings, id)
  {
  }

  lemma LookedAtAreMet(plan: seq<File>, looked: nat, provided: set<ModID>, taken: set<ModID>, warnings: seq<Warning>)
    requires FarFrom(plan, looked, JAR_DEPENDENCY_ROUNDS) && AllTaken(plan[..looked], provided, taken)
    requires Settled(taken, provided, warnings, [])
    ensures forall j: nat, id :: j < |plan| && Requires(plan[j], id) ==>
              id in provided || Warned(warnings, id) || Far(plan, j, JAR_DEPENDENCY_ROUNDS)
  {
    forall j: nat, id | j < |plan| && Requires(plan[j], id)
      ensures id in provided || Warned(warnings, id) || Far(plan, j, JAR_DEPENDENCY_ROUNDS)
    {
      if j < looked {
        assert plan[..looked][j] == plan[j];
      }
    }
  }

  // kindIsMod: plugins are never looked up. The plan only grows, for reasons, up to twenty files, and
  // warnings are about what it requires. Every requirement of the original files is met in the end or
  // warned about; so is every one of an added file, unless it ends a chain of five needs. When
  // a round finds nothing left to do, all are.
  method ResolveJarDependencies(catalog: Option<ModID -> Option<Candidate>>, kindIsMod: bool, installed: seq<File>,
                                existing: set<string>, plan0: seq<File>)
    returns (plan: seq<File>, warnings: seq<Warning>, done: bool)
    ensures Grown(installed, existing, plan0, plan) && Justified(plan, warnings)
    ensures forall p, id :: p in plan0 && Requires(p, id) ==>
              id in Provided(installed) + Provided(plan) || Warned(warnings, id)
    ensures done ==> AllMet(installed, plan, warnings)
    ensures forall j: nat, id :: j < |plan| && Requires(plan[j], id) ==>
              id in Provided(installed) + Provided(plan) || Warned(warnings, id) || Far(plan, j, JAR_DEPENDENCY_ROUNDS)
  {
    plan, warnings := plan0, [];
    var provided := ProvidedIds(installed);
    var more := ProvidedIds(plan);
    provided := provided + more;
    var inPlan := {};
    for k := 0 to |plan|
      invariant inPlan == Projects(plan[..k])
    {
      assert plan[..k + 1][..k] == plan[..k];
      inPlan := inPlan + {plan[k].project};
    }
    assert plan[..|plan|] == plan;
    var taken := {};
    ghost var looked := 0;
    done := false;
    for round := 0 to JAR_DEPENDENCY_ROUNDS
      invariant Kept(installed, existing, plan0, plan, warnings, provided, inPlan)
      invariant Settled(taken, provided, warnings, [])
      invariant round > 0 ==> AllTaken(plan0, provided, taken)
      invariant FarFrom(plan, looked, round) && AllTaken(plan[..looked], provided, taken)
    {
      var needs;
      ghost var before := taken;
      taken, needs := CollectNeeds(plan, provided, taken);
      NewNeedsAreFar(plan, looked, round, needs, provided, before);
      assert AllTaken(plan0, provided, taken);
      if needs == [] {
        done := true;
        TakenAreMet(plan, provided, taken, warnings);
        break;
      }
      ghost var found := |plan|;
      assert plan[..found] == plan;
      plan, warnings, provided, inPlan := FillAll(if catalog.Some? then catalog.value else (id: ModID) => None,
        kindIsMod && catalog.Some?, needs, existing, plan, warnings, provided, inPlan, installed, plan0, taken, round);
      looked := found;
    }
    TakenAreMet(plan0, provided, taken, warnings);
    if !done {
      LookedAtAreMet(plan, looked, provided, taken, warnings);
    }
  }

  // ---- what a grown plan is --------------------------------------------------------------------

  lemma {:induction false} ProjectsHoldAll(files: seq<File>, k: nat)
    requires k < |files|
    ensures files[k].project in Projects(files)
  {
    if k < |files| - 1 {
      ProjectsHoldAll(files[..|files| - 1], k);
    }
  }

  // The original files stay in front, no added file is of a project that was planned before it, and a
  // plan that starts with at most twenty files ends with at most twenty.
  lemma AddedFilesRepeatNoProject(installed: seq<File>, existing: set<string>, plan0: seq<File>, plan: seq<File>,
                                  i: nat, j: nat)
    requires Grown(installed, existing, plan0, plan) && i < j && |plan0| <= j < |plan|
    ensures plan[i].project != plan[j].project && plan[..|plan0|] == plan0
    ensures |plan0| <= MAX_INSTALL_FILES_PER_REQUEST ==> |plan| <= MAX_INSTALL_FILES_PER_REQUEST
  {
    assert HasReason(installed, existing, plan0, plan, j);
    assert plan[..j][i] == plan[i];
    ProjectsHoldAll(plan[..j], i);
  }

  lemma {:induction false} ProvidedHoldAll(files: seq<File>, k: nat, id: ModID)
    requires k < |files| && id in files[k].meta.provisions
    ensures id in Provided(files)
  {
    if k < |files| - 1 {
      ProvidedHoldAll(files[..|files| - 1], k, id);
    }
  }

  // No added file is superfluous: an earlier one requires something of it that no file installed or
  // planned before it provides.
  lemma AddedFilesAreNeeded(installed: seq<File>, existing: set<string>, plan0: seq<File>, plan: seq<File>, j: nat)
    returns (need: Need, i: nat)
    requires Grown(installed, existing, plan0, plan) && |plan0| <= j < |plan|
    ensures i < j && plan[i].name == need.who && Requires(plan[i], need.id) && need.id in plan[j].meta.provisions
    ensures forall f :: f in installed + plan[..j] ==> need.id !in f.meta.provisions
  {
    assert HasReason(installed, existing, plan0, plan, j);
    need :| Fills(installed, plan[..j], plan[j], need);
    var p :| p in plan[..j] && p.name == need.who && Requires(p, need.id);
    i :| 0 <= i < j && plan[..j][i] == p;
    forall f | f in installed + plan[..j] ensures need.id !in f.meta.provisions {
      if f in installed {
        var k :| 0 <= k < |installed| && installed[k] == f;
        if need.id in f.meta.provisions {
          ProvidedHoldAll(installed, k, need.id);
        }
      } else {
        var k :| 0 <= k < j && plan[..j][k] == f;
        if need.id in f.meta.provisions {
          ProvidedHoldAll(plan[..j], k, need.id);
        }
      }
    }
  }
}
