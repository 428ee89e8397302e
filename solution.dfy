/**
 * The "add Conan dependencies to the solution" menu command
 * (Conan.VisualStudio/Menu/AddConanDependsSolution.cs): a depth-first walk
 * that collects the Conan projects of a solution, then one pass that
 * prepares, installs (once per conanfile path) and integrates each of them,
 * stopping at the first failure.
 */
module SolutionCommand {
  import opened Wrappers
  import opened Runner

  /**
   * A project of the host's object model. `isConanProject` is the answer of
   * `IsConanProject`; `projectItems` may be null.
   */
  datatype Project = Project(name: string, isConanProject: bool, projectItems: ProjectItems)

  /** A project's or an item's `ProjectItems` collection; `NullItems` stands for null. */
  datatype ProjectItems = NullItems | Items(elems: seq<ProjectItem>)

  /** An item of a project: an optional sub-project and its own (possibly null) items. */
  datatype ProjectItem = ProjectItem(subProject: Option<Project>, projectItems: ProjectItems)

  /** Concatenation of a list of lists, read from the back as a loop appends. */
  function Flatten<T>(xss: seq<seq<T>>): seq<T>
  {
    if xss == [] then [] else Flatten(xss[..|xss| - 1]) + xss[|xss| - 1]
  }

  /** The Conan projects the walk collects from one (possibly null) project, in order. */
  function Collected(project: Option<Project>): seq<Project>
    decreases project
  {
    match project
    case None => []
    case Some(p) => if p.isConanProject then [p] else CollectedItems(p.projectItems)
  }

  /** The Conan projects collected from a (possibly null) item collection, item by item. */
  function CollectedItems(items: ProjectItems): seq<Project>
    decreases items
  {
    match items
    case NullItems => []
    case Items(s) => Flatten(seq(|s|, i requires 0 <= i < |s| => assert s[i] in s; CollectedItem(s[i])))
  }

  /** One item: its sub-project first, then its nested items. */
  function CollectedItem(item: ProjectItem): seq<Project>
    decreases item
  {
    Collected(item.subProject) + CollectedItems(item.projectItems)
  }

  /** The projects of a whole solution, top-level project by top-level project. */
  function SolutionProjects(solution: seq<Option<Project>>): seq<Project>
  {
    Flatten(seq(|solution|, i requires 0 <= i < |solution| => Collected(solution[i])))
  }

  lemma {:induction false} FlattenMember<T>(xss: seq<seq<T>>, x: T)
    ensures x in Flatten(xss) <==> exists i | 0 <= i < |xss| :: x in xss[i]
  {
    if xss != [] {
      var init := xss[..|xss| - 1];
      FlattenMember(init, x);
      if x in Flatten(init) {
        var i :| 0 <= i < |init| && x in init[i];
        assert x in xss[i];
      }
      if exists i | 0 <= i < |xss| :: x in xss[i] {
        var i :| 0 <= i < |xss| && x in xss[i];
        if i < |xss| - 1 { assert x in init[i]; }
      }
    }
  }

  /** One step down the tree: into item `index` of a collection, then into its sub-project or its nested items. */
  datatype Step = Step(index: nat, intoSubProject: bool)

  /**
   * Reference definition of what the walk finds: `target` is reached from `p`
   * along `path` without passing through a Conan project, and is one itself.
   */
  ghost predicate FoundFrom(p: Project, path: seq<Step>, target: Project)
    decreases |path|, 1
  {
    if path == [] then p.isConanProject && target == p
    else !p.isConanProject && FoundIn(p.projectItems, path, target)
  }

  ghost predicate FoundIn(items: ProjectItems, path: seq<Step>, target: Project)
    decreases |path|, 0
  {
    && path != []
    && items.Items?
    && path[0].index < |items.elems|
    && var item := items.elems[path[0].index];
       if path[0].intoSubProject then
         item.subProject.Some? && FoundFrom(item.subProject.value, path[1..], target)
       else
         FoundIn(item.projectItems, path[1..], target)
  }

  /** Every project the walk collects is a Conan project. */
  lemma {:induction false} CollectedAreConan(project: Option<Project>)
    ensures forall q | q in Collected(project) :: q.isConanProject
    decreases project
  {
    if project.Some? && !project.value.isConanProject {
      CollectedItemsAreConan(project.value.projectItems);
    }
  }

  lemma {:induction false} CollectedItemsAreConan(items: ProjectItems)
    ensures forall q | q in CollectedItems(items) :: q.isConanProject
    decreases items
  {
    if items.Items? {
      var s := items.elems;
      var found := seq(|s|, i requires 0 <= i < |s| => CollectedItem(s[i]));
      forall q | q in CollectedItems(items) ensures q.isConanProject {
        FlattenMember(found, q);
        var i :| 0 <= i < |found| && q in found[i];
        assert s[i] in s;
        CollectedAreConan(s[i].subProject);
        CollectedItemsAreConan(s[i].projectItems);
      }
    }
  }

  /** A Conan project reached at any depth along a path is collected by the walk. */
  lemma {:induction false} FoundIsCollected(p: Project, path: seq<Step>, target: Project)
    requires FoundFrom(p, path, target)
    ensures target in Collected(Some(p))
    decreases |path|, 1
  {
    if path != [] {
      FoundInIsCollected(p.projectItems, path, target);
    }
  }

  lemma {:induction false} FoundInIsCollected(items: ProjectItems, path: seq<Step>, target: Project)
    requires FoundIn(items, path, target)
    ensures target in CollectedItems(items)
    decreases |path|, 0
  {
    var s := items.elems;
    var k := path[0].index;
    var item := s[k];
    if path[0].intoSubProject {
      FoundIsCollected(item.subProject.value, path[1..], target);
    } else {
      FoundInIsCollected(item.projectItems, path[1..], target);
    }
    assert target in CollectedItem(item);
    var found := seq(|s|, i requires 0 <= i < |s| => CollectedItem(s[i]));
    assert target in found[k];
    FlattenMember(found, target);
  }

  /** Every project the walk collects is reached along some path: nothing else is collected. */
  lemma {:induction false} CollectedIsFound(p: Project, target: Project)
    requires target in Collected(Some(p))
    ensures exists path :: FoundFrom(p, path, target)
    decreases p
  {
    if p.isConanProject {
      assert FoundFrom(p, [], target);
    } else {
      var path := CollectedItemsFound(p.projectItems, target);
      assert FoundFrom(p, path, target);
    }
  }

  lemma {:induction false} CollectedItemsFound(items: ProjectItems, target: Project) returns (path: seq<Step>)
    requires target in CollectedItems(items)
    ensures FoundIn(items, path, target)
    decreases items
  {
    var s := items.elems;
    var found := seq(|s|, i requires 0 <= i < |s| => CollectedItem(s[i]));
    FlattenMember(found, target);
    var k :| 0 <= k < |found| && target in found[k];
    var item := s[k];
    assert item in s;
    if target in Collected(item.subProject) {
      CollectedIsFound(item.subProject.value, target);
      var rest :| FoundFrom(item.subProject.value, rest, target);
      path := [Step(k, true)] + rest;
      assert path[1..] == rest;
    } else {
      var rest := CollectedItemsFound(item.projectItems, target);
      path := [Step(k, false)] + rest;
      assert path[1..] == rest;
    }
  }

  /**
   * The projects of a solution are exactly the Conan projects reachable from
   * one of its top-level projects without passing through another Conan
   * project.
   */
  lemma SolutionProjectsAreFound(solution: seq<Option<Project>>, target: Project)
    ensures target in SolutionProjects(solution) <==>
      exists i, path | 0 <= i < |solution| :: solution[i].Some? && FoundFrom(solution[i].value, path, target)
  {
    var found := seq(|solution|, i requires 0 <= i < |solution| => Collected(solution[i]));
    FlattenMember(found, target);
    if target in SolutionProjects(solution) {
      var i :| 0 <= i < |found| && target in found[i];
      CollectedIsFound(solution[i].value, target);
    }
    if exists i, path | 0 <= i < |solution| :: solution[i].Some? && FoundFrom(solution[i].value, path, target) {
      var i, path :| 0 <= i < |solution| && solution[i].Some? && FoundFrom(solution[i].value, path, target);
      FoundIsCollected(solution[i].value, path, target);
      assert target in found[i];
    }
  }

  /** `List<Project>`: the list the walk appends to in place. */
  class ProjectList {
    var items: seq<Project>

    constructor ()
      ensures items == []
    {
      items := [];
    }

    method Add(project: Project)
      modifies this
      ensures items == old(items) + [project]
    {
      items := items + [project];
    }
  }

  /**
   * The `IConanService` calls the pass makes, as an oracle of their results:
   * `prepare` is `PrepareConanProjectAsync` (null when the project cannot be
   * prepared) and `install` is `InstallAsync`. The result of `IntegrateAsync`
   * is never read, so it has no entry here.
   */
  datatype ConanService = ConanService(prepare: Project -> Option<ConanProject>, install: ConanProject -> bool)

  /** One call of the pass into the Conan service. */
  datatype Call = Prepare(project: Project) | Install(path: string) | Integrate(project: Project)

  /** The outcome of a pass: whether it succeeded and the calls it made, in order. */
  datatype Pass = Pass(ok: bool, trace: seq<Call>)

  /**
   * What the pass over `projects` does when the conanfile paths in
   * `conanfiles` are already installed: for each project in order, prepare
   * it (stop on null), install its conanfile unless its path is already in
   * the set (stop on failure), add the path, integrate it.
   */
  function RunPass(projects: seq<Project>, service: ConanService, conanfiles: set<string>): Pass
    decreases |projects|
  {
    if projects == [] then Pass(true, [])
    else
      var project := projects[0];
      match service.prepare(project)
      case None => Pass(false, [Prepare(project)])
      case Some(conanProject) =>
        if conanProject.path !in conanfiles && !service.install(conanProject) then
          Pass(false, [Prepare(project), Install(conanProject.path)])
        else
          var rest := RunPass(projects[1..], service, conanfiles + {conanProject.path});
          After(StepCalls(project, conanProject.path, conanProject.path in conanfiles), rest)
  }

  /** The calls for one project that gets past install; `installed` says its conanfile was already installed. */
  function StepCalls(project: Project, path: string, installed: bool): seq<Call>
  {
    [Prepare(project)] + (if installed then [] else [Install(path)]) + [Integrate(project)]
  }

  /** The calls `done` already made, followed by the pass `rest`. */
  function After(done: seq<Call>, rest: Pass): Pass
  {
    Pass(rest.ok, done + rest.trace)
  }

  /** One step of the pass, at position `i`. */
  lemma RunPassUnfold(projects: seq<Project>, i: nat, service: ConanService, conanfiles: set<string>)
    requires i < |projects|
    ensures var project := projects[i];
      var rest := RunPass(projects[i..], service, conanfiles);
      match service.prepare(project)
      case None => rest == Pass(false, [Prepare(project)])
      case Some(conanProject) =>
        if conanProject.path !in conanfiles && !service.install(conanProject) then
          rest == Pass(false, [Prepare(project), Install(conanProject.path)])
        else
          rest == After(StepCalls(project, conanProject.path, conanProject.path in conanfiles),
            RunPass(projects[i + 1..], service, conanfiles + {conanProject.path}))
  {
  }

  /** Calls made in two stretches, then the rest of the pass. */
  lemma AfterAfter(first: seq<Call>, second: seq<Call>, rest: Pass)
    ensures After(first, After(second, rest)) == After(first + second, rest)
  {
  }

  /** The projects the calls of a trace prepared, in order. */
  function Prepared(trace: seq<Call>): seq<Project>
  {
    if trace == [] then []
    else (if trace[0].Prepare? then [trace[0].project] else []) + Prepared(trace[1..])
  }

  /** The projects the calls of a trace integrated, in order. */
  function Integrated(trace: seq<Call>): seq<Project>
  {
    if trace == [] then []
    else (if trace[0].Integrate? then [trace[0].project] else []) + Integrated(trace[1..])
  }

  /** How often a trace installs the conanfile at `path`. */
  function Installs(trace: seq<Call>, path: string): nat
  {
    if trace == [] then 0
    else (if trace[0] == Install(path) then 1 else 0) + Installs(trace[1..], path)
  }

  lemma TraceAppend(a: seq<Call>, b: seq<Call>, path: string)
    ensures Prepared(a + b) == Prepared(a) + Prepared(b)
    ensures Integrated(a + b) == Integrated(a) + Integrated(b)
    ensures Installs(a + b, path) == Installs(a, path) + Installs(b, path)
  {
    PreparedAppend(a, b);
    IntegratedAppend(a, b);
    InstallsAppend(a, b, path);
  }

  lemma {:induction false} PreparedAppend(a: seq<Call>, b: seq<Call>)
    ensures Prepared(a + b) == Prepared(a) + Prepared(b)
  {
    if a == [] {
      assert a + b == b;
    } else {
      assert (a + b)[0] == a[0] && (a + b)[1..] == a[1..] + b;
      PreparedAppend(a[1..], b);
    }
  }

  lemma {:induction false} IntegratedAppend(a: seq<Call>, b: seq<Call>)
    ensures Integrated(a + b) == Integrated(a) + Integrated(b)
  {
    if a == [] {
      assert a + b == b;
    } else {
      assert (a + b)[0] == a[0] && (a + b)[1..] == a[1..] + b;
      IntegratedAppend(a[1..], b);
    }
  }

  lemma {:induction false} InstallsAppend(a: seq<Call>, b: seq<Call>, path: string)
    ensures Installs(a + b, path) == Installs(a, path) + Installs(b, path)
  {
    if a == [] {
      assert a + b == b;
    } else {
      assert (a + b)[0] == a[0] && (a + b)[1..] == a[1..] + b;
      InstallsAppend(a[1..], b, path);
    }
  }

  /** What the calls for one project that gets past install prepare, integrate and install. */
  lemma StepCallsContents(project: Project, path: string, installed: bool, q: string)
    ensures Prepared(StepCalls(project, path, installed)) == [project]
    ensures Integrated(StepCalls(project, path, installed)) == [project]
    ensures Installs(StepCalls(project, path, installed), q) == if !installed && q == path then 1 else 0
  {
    var installCall := if installed then [] else [Install(path)];
    TraceAppend([Prepare(project)] + installCall, [Integrate(project)], q);
    TraceAppend([Prepare(project)], installCall, q);
    assert [Integrate(project)][1..] == [] && [Prepare(project)][1..] == [];
    if !installed { assert installCall[1..] == []; }
  }

  /** What the calls for a project that stops the pass prepare, integrate and install. */
  lemma FailedCallsContents(project: Project, path: string, q: string)
    ensures Prepared([Prepare(project)]) == Prepared([Prepare(project), Install(path)]) == [project]
    ensures Integrated([Prepare(project)]) == Integrated([Prepare(project), Install(path)]) == []
    ensures Installs([Prepare(project)], q) == 0
    ensures Installs([Prepare(project), Install(path)], q) == if q == path then 1 else 0
  {
    assert [Prepare(project), Install(path)][1..] == [Install(path)];
    assert [Install(path)][1..] == [] && [Prepare(project)][1..] == [];
  }

  /**
   * Within one pass a conanfile path is installed at most once, and never
   * when it was already in the set of installed paths.
   */
  lemma {:induction false} InstallAtMostOnce(projects: seq<Project>, service: ConanService,
                                             conanfiles: set<string>, path: string)
    ensures Installs(RunPass(projects, service, conanfiles).trace, path) <= if path in conanfiles then 0 else 1
    decreases |projects|
  {
    if projects != [] {
      var project := projects[0];
      match service.prepare(project)
      case None =>
        FailedCallsContents(project, "", path);
      case Some(conanProject) =>
        var p := conanProject.path;
        FailedCallsContents(project, p, path);
        if p in conanfiles || service.install(conanProject) {
          var rest := RunPass(projects[1..], service, conanfiles + {p});
          InstallAtMostOnce(projects[1..], service, conanfiles + {p}, path);
          StepCallsContents(project, p, p in conanfiles, path);
          TraceAppend(StepCalls(project, p, p in conanfiles), rest.trace, path);
        }
    }
  }

  /**
   * A pass that succeeds prepared every project, and every conanfile path is
   * either already installed or installed by the pass.
   */
  lemma {:induction false} SuccessInstallsEveryConanfile(projects: seq<Project>, service: ConanService,
                                                         conanfiles: set<string>)
    requires RunPass(projects, service, conanfiles).ok
    ensures forall i | 0 <= i < |projects| ::
      service.prepare(projects[i]).Some? &&
      (service.prepare(projects[i]).value.path in conanfiles ||
       Installs(RunPass(projects, service, conanfiles).trace, service.prepare(projects[i]).value.path) == 1)
    ensures AllPrepared(service, projects) && InstallsSucceed(service, projects, conanfiles)
    decreases |projects|
  {
    SuccessTrace(projects, service, conanfiles);
    if projects != [] {
      var project := projects[0];
      var p := service.prepare(project).value.path;
      var calls := StepCalls(project, p, p in conanfiles);
      var rest := RunPass(projects[1..], service, conanfiles + {p});
      var trace := RunPass(projects, service, conanfiles).trace;
      SuccessInstallsEveryConanfile(projects[1..], service, conanfiles + {p});
      forall i | 0 <= i < |projects|
        ensures service.prepare(projects[i]).Some?
        ensures var q := service.prepare(projects[i]).value.path;
          q in conanfiles || Installs(trace, q) == 1
      {
        var q := service.prepare(projects[i]).value.path;
        if i > 0 { assert projects[i] == projects[1..][i - 1]; }
        if q !in conanfiles {
          InstallAtMostOnce(projects, service, conanfiles, q);
          StepCallsContents(project, p, p in conanfiles, q);
          TraceAppend(calls, rest.trace, q);
        }
      }
    }
  }

  /**
   * A pass that succeeds prepared and integrated every project exactly in
   * list order, including projects whose conanfile was installed before.
   */
  lemma SuccessProcessesAllInOrder(projects: seq<Project>, service: ConanService, conanfiles: set<string>)
    requires RunPass(projects, service, conanfiles).ok
    ensures Prepared(RunPass(projects, service, conanfiles).trace) == projects
    ensures Integrated(RunPass(projects, service, conanfiles).trace) == projects
  {
    SuccessTrace(projects, service, conanfiles);
    InOrderCallsContents(service, projects, conanfiles);
  }

  /** Concatenating a first list in front of the others. */
  lemma {:induction false} FlattenCons<T>(xs: seq<T>, xss: seq<seq<T>>)
    ensures Flatten([xs] + xss) == xs + Flatten(xss)
    decreases |xss|
  {
    if xss == [] {
      assert [xs] + xss == [xs];
      assert [xs][..0] == [];
    } else {
      var last := |xss| - 1;
      assert ([xs] + xss)[..last + 1] == [xs] + xss[..last];
      FlattenCons(xs, xss[..last]);
    }
  }

  /** The conanfile path of a project the service can prepare. */
  function PathOf(service: ConanService, project: Project): string
    requires service.prepare(project).Some?
  {
    service.prepare(project).value.path
  }

  /** The service can prepare every project of `projects`. */
  predicate AllPrepared(service: ConanService, projects: seq<Project>)
  {
    forall i | 0 <= i < |projects| :: service.prepare(projects[i]).Some?
  }

  /** The conanfile paths of `projects`. */
  function PathsOf(service: ConanService, projects: seq<Project>): set<string>
    requires AllPrepared(service, projects)
  {
    if projects == [] then {} else {PathOf(service, projects[0])} + PathsOf(service, projects[1..])
  }

  /**
   * The calls for project `i` of a pass that gets past install at every
   * project: its conanfile is installed unless the path is in `conanfiles`
   * or belongs to an earlier project.
   */
  function ProjectStep(service: ConanService, projects: seq<Project>, conanfiles: set<string>, i: nat): seq<Call>
    requires i < |projects| && AllPrepared(service, projects)
  {
    var path := PathOf(service, projects[i]);
    StepCalls(projects[i], path, path in conanfiles + PathsOf(service, projects[..i]))
  }

  /** The calls of every project, one list per project, in list order. */
  function PassSteps(service: ConanService, projects: seq<Project>, conanfiles: set<string>): seq<seq<Call>>
    requires AllPrepared(service, projects)
  {
    seq(|projects|, i requires 0 <= i < |projects| => ProjectStep(service, projects, conanfiles, i))
  }

  /**
   * The trace of a pass written out project by project: all the calls for
   * project `i` come before any call for project `i + 1`.
   */
  function InOrderCalls(service: ConanService, projects: seq<Project>, conanfiles: set<string>): seq<Call>
    requires AllPrepared(service, projects)
  {
    Flatten(PassSteps(service, projects, conanfiles))
  }

  /** The written-out trace starts with the calls for the first project. */
  lemma InOrderCallsCons(service: ConanService, projects: seq<Project>, conanfiles: set<string>)
    requires |projects| > 0 && AllPrepared(service, projects)
    ensures AllPrepared(service, projects[1..])
    ensures var path := PathOf(service, projects[0]);
      InOrderCalls(service, projects, conanfiles)
      == StepCalls(projects[0], path, path in conanfiles) + InOrderCalls(service, projects[1..], conanfiles + {path})
  {
    var path := PathOf(service, projects[0]);
    var tail := projects[1..];
    var steps := PassSteps(service, projects, conanfiles);
    var rest := PassSteps(service, tail, conanfiles + {path});
    assert projects[..0] == [];
    forall i | 1 <= i < |projects|
      ensures steps[i] == rest[i - 1]
    {
      assert projects[..i][1..] == tail[..i - 1];
      assert conanfiles + PathsOf(service, projects[..i]) == conanfiles + {path} + PathsOf(service, tail[..i - 1]);
    }
    assert steps == [steps[0]] + rest;
    FlattenCons(steps[0], rest);
  }

  /**
   * Every install the written-out trace calls returns true: project `i`'s
   * conanfile is installed when its path is neither in `conanfiles` nor the
   * path of an earlier project.
   */
  predicate InstallsSucceed(service: ConanService, projects: seq<Project>, conanfiles: set<string>)
    requires AllPrepared(service, projects)
  {
    forall i | 0 <= i < |projects| ::
      PathOf(service, projects[i]) !in conanfiles + PathsOf(service, projects[..i]) ==>
        service.install(service.prepare(projects[i]).value)
  }

  /** The installs succeed exactly when the first one (if called) and those of the rest succeed. */
  lemma InstallsSucceedCons(service: ConanService, projects: seq<Project>, conanfiles: set<string>)
    requires |projects| > 0 && AllPrepared(service, projects)
    ensures AllPrepared(service, projects[1..])
    ensures var p := PathOf(service, projects[0]);
      InstallsSucceed(service, projects, conanfiles) <==>
        (p in conanfiles || service.install(service.prepare(projects[0]).value)) &&
        InstallsSucceed(service, projects[1..], conanfiles + {p})
  {
    var p := PathOf(service, projects[0]);
    var tail := projects[1..];
    assert projects[..0] == [];
    assert AllPrepared(service, tail) by {
      forall i | 0 <= i < |tail| ensures service.prepare(tail[i]).Some? {
        assert tail[i] == projects[i + 1];
      }
    }
    forall i | 1 <= i < |projects|
      ensures projects[i] == tail[i - 1]
      ensures conanfiles + PathsOf(service, projects[..i]) == conanfiles + {p} + PathsOf(service, tail[..i - 1])
    {
      assert projects[..i][0] == projects[0];
      assert projects[..i][1..] == tail[..i - 1];
    }
    if InstallsSucceed(service, projects, conanfiles) {
      forall i | 0 <= i < |tail| && PathOf(service, tail[i]) !in conanfiles + {p} + PathsOf(service, tail[..i])
        ensures service.install(service.prepare(tail[i]).value)
      {
        assert tail[i] == projects[i + 1];
      }
    }
  }

  /**
   * A pass that succeeds makes exactly the calls of `InOrderCalls`: one
   * project at a time, prepare, then the install of its conanfile unless
   * that path was installed before, then integrate, and nothing else.
   */
  lemma {:induction false} SuccessTrace(projects: seq<Project>, service: ConanService, conanfiles: set<string>)
    requires RunPass(projects, service, conanfiles).ok
    ensures AllPrepared(service, projects)
    ensures RunPass(projects, service, conanfiles).trace == InOrderCalls(service, projects, conanfiles)
    ensures InstallsSucceed(service, projects, conanfiles)
    decreases |projects|
  {
    if projects != [] {
      var path := PathOf(service, projects[0]);
      SuccessTrace(projects[1..], service, conanfiles + {path});
      forall i | 1 <= i < |projects|
        ensures service.prepare(projects[i]).Some?
      {
        assert projects[i] == projects[1..][i - 1];
      }
      InOrderCallsCons(service, projects, conanfiles);
      InstallsSucceedCons(service, projects, conanfiles);
    }
  }

  /**
   * A pass succeeds exactly when every project can be prepared and every
   * install it calls returns true.
   */
  lemma SuccessIff(projects: seq<Project>, service: ConanService, conanfiles: set<string>)
    ensures RunPass(projects, service, conanfiles).ok <==>
      AllPrepared(service, projects) && InstallsSucceed(service, projects, conanfiles)
  {
    if RunPass(projects, service, conanfiles).ok {
      SuccessTrace(projects, service, conanfiles);
    } else {
      var k := FailureTrace(projects, service, conanfiles);
      if service.prepare(projects[k]).Some? && AllPrepared(service, projects) {
        assert !service.install(service.prepare(projects[k]).value);
      }
    }
  }

  /**
   * A failing pass stopped at project `k`: it made the calls of a
   * successful pass over the projects before `k`, then prepared project `k`
   * and, when that returned a conanfile whose path was not installed yet,
   * called its failing install, and nothing after. Every install called
   * before `k` succeeded.
   */
  predicate HaltsAt(service: ConanService, projects: seq<Project>, conanfiles: set<string>, k: nat, trace: seq<Call>)
    requires k < |projects|
  {
    && AllPrepared(service, projects[..k])
    && InstallsSucceed(service, projects[..k], conanfiles)
    && match service.prepare(projects[k])
       case None => trace == InOrderCalls(service, projects[..k], conanfiles) + [Prepare(projects[k])]
       case Some(conanProject) =>
         && conanProject.path !in conanfiles + PathsOf(service, projects[..k])
         && !service.install(conanProject)
         && trace == InOrderCalls(service, projects[..k], conanfiles) + [Prepare(projects[k]), Install(conanProject.path)]
  }

  /** The projects before `j + 1`: the first project, then the first `j` of the rest. */
  lemma PrefixCons(service: ConanService, projects: seq<Project>, conanfiles: set<string>, j: nat)
    requires j + 1 < |projects| && service.prepare(projects[0]).Some?
    requires AllPrepared(service, projects[1..][..j])
    ensures AllPrepared(service, projects[..j + 1])
    ensures var p := PathOf(service, projects[0]);
      && conanfiles + PathsOf(service, projects[..j + 1]) == conanfiles + {p} + PathsOf(service, projects[1..][..j])
      && InOrderCalls(service, projects[..j + 1], conanfiles)
         == StepCalls(projects[0], p, p in conanfiles) + InOrderCalls(service, projects[1..][..j], conanfiles + {p})
  {
    var k := j + 1;
    var tail := projects[1..];
    assert projects[..k][0] == projects[0];
    assert projects[..k][1..] == tail[..j];
    forall i | 1 <= i < k
      ensures service.prepare(projects[..k][i]).Some?
    {
      assert projects[..k][i] == tail[..j][i - 1];
    }
    InOrderCallsCons(service, projects[..k], conanfiles);
  }

  /** A pass that gets past the first project and halts at `j` in the rest halts at `j + 1`. */
  lemma HaltsAtCons(projects: seq<Project>, service: ConanService, conanfiles: set<string>, j: nat, rest: seq<Call>)
    requires j + 1 < |projects| && service.prepare(projects[0]).Some?
    requires var conanProject := service.prepare(projects[0]).value;
      conanProject.path in conanfiles || service.install(conanProject)
    requires var p := PathOf(service, projects[0]);
      HaltsAt(service, projects[1..], conanfiles + {p}, j, rest)
    ensures var p := PathOf(service, projects[0]);
      HaltsAt(service, projects, conanfiles, j + 1, StepCalls(projects[0], p, p in conanfiles) + rest)
  {
    var p := PathOf(service, projects[0]);
    var tail := projects[1..];
    PrefixCons(service, projects, conanfiles, j);
    assert projects[..j + 1][1..] == tail[..j];
    InstallsSucceedCons(service, projects[..j + 1], conanfiles);
    assert projects[j + 1] == tail[j];
    var calls := StepCalls(projects[0], p, p in conanfiles);
    var prior := InOrderCalls(service, tail[..j], conanfiles + {p});
    match service.prepare(tail[j])
    case None =>
      var last := [Prepare(tail[j])];
      assert calls + (prior + last) == (calls + prior) + last;
    case Some(conanProject) =>
      var last := [Prepare(tail[j]), Install(conanProject.path)];
      assert calls + (prior + last) == (calls + prior) + last;
  }


  /** The written-out trace prepares and integrates exactly `projects`, in order. */
  lemma {:induction false} InOrderCallsContents(service: ConanService, projects: seq<Project>, conanfiles: set<string>)
    requires AllPrepared(service, projects)
    ensures Prepared(InOrderCalls(service, projects, conanfiles)) == projects
    ensures Integrated(InOrderCalls(service, projects, conanfiles)) == projects
    decreases |projects|
  {
    if projects == [] {
      assert PassSteps(service, projects, conanfiles) == [];
    } else {
      var p := PathOf(service, projects[0]);
      var calls := StepCalls(projects[0], p, p in conanfiles);
      InOrderCallsCons(service, projects, conanfiles);
      InOrderCallsContents(service, projects[1..], conanfiles + {p});
      StepCallsContents(projects[0], p, p in conanfiles, p);
      TraceAppend(calls, InOrderCalls(service, projects[1..], conanfiles + {p}), p);
      assert projects == [projects[0]] + projects[1..];
    }
  }

  /**
   * The index of the project at which a failing pass stopped, with the
   * trace up to it written out.
   */
  lemma {:induction false} FailureTrace(projects: seq<Project>, service: ConanService, conanfiles: set<string>)
    returns (k: nat)
    requires !RunPass(projects, service, conanfiles).ok
    ensures k < |projects|
    ensures HaltsAt(service, projects, conanfiles, k, RunPass(projects, service, conanfiles).trace)
    decreases |projects|
  {
    var project := projects[0];
    assert projects[..0] == [];
    assert PassSteps(service, projects[..0], conanfiles) == [];
    match service.prepare(project)
    case None =>
      k := 0;
    case Some(conanProject) =>
      var p := conanProject.path;
      if p !in conanfiles && !service.install(conanProject) {
        k := 0;
      } else {
        var rest := RunPass(projects[1..], service, conanfiles + {p});
        var j := FailureTrace(projects[1..], service, conanfiles + {p});
        HaltsAtCons(projects, service, conanfiles, j, rest.trace);
        k := j + 1;
      }
  }

  /**
   * The index of the project at which a failing pass stopped: it prepared
   * exactly the projects up to it and integrated exactly those before it,
   * and the trace ends with the failing call.
   */
  lemma FailurePoint(projects: seq<Project>, service: ConanService, conanfiles: set<string>)
    returns (k: nat)
    requires !RunPass(projects, service, conanfiles).ok
    ensures k < |projects|
    ensures Prepared(RunPass(projects, service, conanfiles).trace) == projects[..k + 1]
    ensures Integrated(RunPass(projects, service, conanfiles).trace) == projects[..k]
    ensures service.prepare(projects[k]).None? || !service.install(service.prepare(projects[k]).value)
    ensures HaltsAt(service, projects, conanfiles, k, RunPass(projects, service, conanfiles).trace)
  {
    k := FailureTrace(projects, service, conanfiles);
    HaltsAtContents(service, projects, conanfiles, k, RunPass(projects, service, conanfiles).trace);
  }

  /** A trace that halts at `k` prepared the projects up to `k` and integrated those before it. */
  lemma HaltsAtContents(service: ConanService, projects: seq<Project>, conanfiles: set<string>, k: nat, trace: seq<Call>)
    requires k < |projects| && HaltsAt(service, projects, conanfiles, k, trace)
    ensures Prepared(trace) == projects[..k + 1]
    ensures Integrated(trace) == projects[..k]
    ensures service.prepare(projects[k]).None? || !service.install(service.prepare(projects[k]).value)
  {
    var prior := InOrderCalls(service, projects[..k], conanfiles);
    InOrderCallsContents(service, projects[..k], conanfiles);
    assert projects[..k + 1] == projects[..k] + [projects[k]];
    match service.prepare(projects[k])
    case None =>
      FailedCallsContents(projects[k], "", "");
      TraceAppend(prior, [Prepare(projects[k])], "");
    case Some(conanProject) =>
      var path := conanProject.path;
      FailedCallsContents(projects[k], path, path);
      TraceAppend(prior, [Prepare(projects[k]), Install(path)], path);
  }

  /**
   * A pass that fails stopped at some project `k` that could not be prepared
   * or whose install failed: it prepared exactly the projects up to `k`,
   * integrated exactly those before it, and its trace ends with the failing
   * call, so no later project was prepared, installed or integrated.
   */
  lemma FailureHaltsAtFirstError(projects: seq<Project>, service: ConanService, conanfiles: set<string>)
    requires !RunPass(projects, service, conanfiles).ok
    ensures exists k | 0 <= k < |projects| ::
      && Prepared(RunPass(projects, service, conanfiles).trace) == projects[..k + 1]
      && Integrated(RunPass(projects, service, conanfiles).trace) == projects[..k]
      && (service.prepare(projects[k]).None? || !service.install(service.prepare(projects[k]).value))
      && HaltsAt(service, projects, conanfiles, k, RunPass(projects, service, conanfiles).trace)
  {
    var k := FailurePoint(projects, service, conanfiles);
  }

  /**
   * Two projects sharing one conanfile: one install, two integrations, in
   * the order prepare, install, integrate, prepare, integrate.
   */
  lemma SharedConanfileInstalledOnce(p1: Project, p2: Project, service: ConanService, conanProject: ConanProject)
    requires service.prepare(p1) == Some(conanProject) && service.prepare(p2) == Some(conanProject)
    requires service.install(conanProject)
    ensures RunPass([p1, p2], service, {}) ==
      Pass(true, [Prepare(p1), Install(conanProject.path), Integrate(p1), Prepare(p2), Integrate(p2)])
  {
    var path := conanProject.path;
    assert [p1, p2][1..] == [p2];
    assert [p2][1..] == [];
    assert RunPass([p2], service, {path}) == Pass(true, [Prepare(p2), Integrate(p2)]);
    var first := [Prepare(p1), Install(path), Integrate(p1)];
    assert first == [Prepare(p1)] + (if path in {} then [] else [Install(path)]) + [Integrate(p1)];
    assert RunPass([p1, p2], service, {}) == After(first, RunPass([p2], service, {} + {path}));
    assert {} + {path} == {path};
    assert first + [Prepare(p2), Integrate(p2)]
        == [Prepare(p1), Install(path), Integrate(p1), Prepare(p2), Integrate(p2)];
  }

  const FailureMessage := "[Conan.VisualStudio] ========== Build failed =========="

  /** The decimal digit for `d`. */
  function DigitChar(d: nat): char
    requires d < 10
  {
    "0123456789"[d]
  }

  /** The number a string of decimal digits denotes. */
  function DigitsValue(s: string): nat
    requires forall i | 0 <= i < |s| :: '0' <= s[i] <= '9'
  {
    if s == [] then 0 else DigitsValue(s[..|s| - 1]) * 10 + (s[|s| - 1] as int - '0' as int)
  }

  /** Decimal formatting of a count, as string interpolation renders it. */
  function NatToString(n: nat): (s: string)
    ensures |s| > 0 && forall i | 0 <= i < |s| :: '0' <= s[i] <= '9'
    ensures DigitsValue(s) == n
    ensures s[0] == '0' <==> n == 0
    ensures |s| == 1 || s[0] != '0'
  {
    if n < 10 then [DigitChar(n)]
    else
      var s := NatToString(n / 10) + [DigitChar(n % 10)];
      assert s[..|s| - 1] == NatToString(n / 10);
      s
  }

  /** The final log line of the command: the collected count on success, no count on failure. */
  function OutcomeMessage(ok: bool, count: nat): string
  {
    if ok then "[Conan.VisualStudio] ========== Build succeeded, " + NatToString(count) + " updated =========="
    else FailureMessage
  }

  /** The log line tells success from failure. */
  lemma MessageTellsOutcome(ok: bool, count: nat)
    ensures OutcomeMessage(ok, count) == FailureMessage <==> !ok
  {
  }

  /** On success the log line states the count: different counts give different lines. */
  lemma SuccessMessageStatesCount(count1: nat, count2: nat)
    requires OutcomeMessage(true, count1) == OutcomeMessage(true, count2)
    ensures count1 == count2
  {
    var head := "[Conan.VisualStudio] ========== Build succeeded, ";
    var tail := " updated ==========";
    var d1, d2 := NatToString(count1), NatToString(count2);
    var m := OutcomeMessage(true, count1);
    assert m == head + d1 + tail == head + d2 + tail;
    assert |d1| == |d2|;
    assert m[|head|..|m| - |tail|] == d1;
    assert m[|head|..|m| - |tail|] == d2;
  }

  /**
   * The count on the success line is the number of collected projects, and
   * on success that is the number of projects integrated.
   */
  lemma SuccessCountIsIntegrations(solution: seq<Option<Project>>, service: ConanService)
    requires RunPass(SolutionProjects(solution), service, {}).ok
    ensures |Integrated(RunPass(SolutionProjects(solution), service, {}).trace)| == |SolutionProjects(solution)|
  {
    SuccessProcessesAllInOrder(SolutionProjects(solution), service, {});
  }

  /** The menu command, holding the service it calls. */
  class AddConanDependsSolution {
    const conanService: ConanService

    constructor (conanService: ConanService)
      ensures this.conanService == conanService
    {
      this.conanService := conanService;
    }

    /** `MenuItemCallbackAsync`: collect, run the pass, report the outcome. */
    method MenuItemCallback(solution: seq<Option<Project>>) returns (message: string, trace: seq<Call>)
      ensures var projects := SolutionProjects(solution);
        var pass := RunPass(projects, conanService, {});
        trace == pass.trace && message == OutcomeMessage(pass.ok, |projects|)
    {
      var projects := GetSolutionProjects(solution);
      var ok;
      ok, trace := IntegrateConanProps(projects.items);
      if !ok {
        message := FailureMessage;
        return;
      }
      message := "[Conan.VisualStudio] ========== Build succeeded, " + NatToString(|projects.items|) + " updated ==========";
    }

    /**
     * `IntegrateConanPropsAsync`: the pass over the collected projects, with
     * the set of installed conanfile paths as a local.
     */
    method IntegrateConanProps(projects: seq<Project>) returns (ok: bool, trace: seq<Call>)
      ensures Pass(ok, trace) == RunPass(projects, conanService, {})
    {
      var conanfiles: set<string> := {};
      trace := [];
      for i := 0 to |projects|
        invariant RunPass(projects, conanService, {}) == After(trace, RunPass(projects[i..], conanService, conanfiles))
      {
        var project := projects[i];
        ghost var done, rest := trace, RunPass(projects[i..], conanService, conanfiles);
        RunPassUnfold(projects, i, conanService, conanfiles);
        trace := trace + [Prepare(project)];
        var conanProject := conanService.prepare(project);
        if conanProject.None? {
          assert rest == Pass(false, [Prepare(project)]);
          return false, trace;
        }
        var path := conanProject.value.path;
        ghost var calls := StepCalls(project, path, path in conanfiles);
        if path !in conanfiles {
          trace := trace + [Install(path)];
          var installed := conanService.install(conanProject.value);
          if !installed {
            assert rest == Pass(false, [Prepare(project), Install(path)]);
            return false, trace;
          }
        }
        ghost var next := RunPass(projects[i + 1..], conanService, conanfiles + {path});
        assert rest == After(calls, next);
        conanfiles := conanfiles + {path};
        trace := trace + [Integrate(project)];
        assert trace == done + calls;
        AfterAfter(done, calls, next);
      }
      return true, trace;
    }

    /** `GetSolutionProjects`: the walk over every top-level project of the solution. */
    method GetSolutionProjects(solution: seq<Option<Project>>) returns (projects: ProjectList)
      ensures fresh(projects)
      ensures projects.items == SolutionProjects(solution)
    {
      projects := new ProjectList();
      ghost var found := seq(|solution|, i requires 0 <= i < |solution| => Collected(solution[i]));
      for i := 0 to |solution|
        invariant projects.items == Flatten(found[..i])
      {
        AddProjects(projects, solution[i]);
        assert found[..i + 1][..i] == found[..i];
      }
      assert found[..|solution|] == found;
    }

    /** `AddProjects(List<Project>, Project)`: a Conan project is taken whole, any other is searched. */
    method AddProjects(projects: ProjectList, project: Option<Project>)
      modifies projects
      ensures projects.items == old(projects.items) + Collected(project)
      decreases project
    {
      if project.None? {
        return;
      }
      if project.value.isConanProject {
        projects.Add(project.value);
        return;
      }
      AddProjectItems(projects, project.value.projectItems);
    }

    /** `AddProjects(List<Project>, ProjectItems)`: each item's sub-project, then its nested items. */
    method AddProjectItems(projects: ProjectList, items: ProjectItems)
      modifies projects
      ensures projects.items == old(projects.items) + CollectedItems(items)
      decreases items
    {
      if items.NullItems? {
        return;
      }
      var s := items.elems;
      ghost var found := seq(|s|, i requires 0 <= i < |s| => CollectedItem(s[i]));
      for i := 0 to |s|
        invariant projects.items == old(projects.items) + Flatten(found[..i])
      {
        assert s[i] in s;
        AddProjects(projects, s[i].subProject);
        AddProjectItems(projects, s[i].projectItems);
        assert found[..i + 1][..i] == found[..i];
      }
      assert found[..|s|] == found;
    }
  }
}
