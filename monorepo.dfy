/** Monorepo detection: the evidence gathered from the working directory (configuration files,
 *  a `workspaces` field, groups of application directories), the rule that decides from it, and
 *  the flattening of the groups into the applications to deploy. The functions state the result
 *  of a detection over a file-system snapshot; the `MonorepoDetector` class computes it step by
 *  step and is proved to agree with them. */
module Monorepo {
  import opened Common
  import opened FileSystem

  /** A configuration file whose presence hints at a monorepo tool. */
  datatype Indicator = Indicator(file: string, kind: string)

  /** The configuration files, in the order they are checked. */
  const ConfigIndicators: seq<Indicator> := [
    Indicator("lerna.json", "Lerna"),
    Indicator("nx.json", "Nx"),
    Indicator("rush.json", "Rush"),
    Indicator("pnpm-workspace.yaml", "PNPM Workspace"),
    Indicator("pnpm-workspace.yml", "PNPM Workspace"),
    Indicator("yarn.lock", "Yarn Workspace (potential)")
  ]

  /** The indicator recorded for a `package.json` with workspaces. */
  const WorkspacesIndicator: Indicator := Indicator("package.json", "Yarn/NPM Workspaces")

  /** The conventional container directories, in the order they are checked. */
  const ContainerDirs: seq<string> :=
    ["packages", "apps", "projects", "modules", "libs", "services", "components", "workspaces", "sites"]

  /** The entries whose presence makes a directory a project. */
  const ProjectMarkers: seq<string> := [
    "package.json", "index.js", "index.ts", "src", "next.config.js", "next.config.ts",
    "vite.config.js", "vite.config.ts", "Dockerfile"
  ]

  /** A group of application directories: where they are (`.` for the root) and their names. */
  datatype Group = Group(dir: string, count: nat, apps: seq<string>)

  /** An application to deploy: its directory name and its path relative to the root. */
  datatype Folder = Folder(name: string, path: string)

  /** The result of `checkMonorepo`. */
  datatype Detection = Detection(isMonorepo: bool, monorepoFolders: seq<Folder>)

  /** `readdirSync` of the working directory throws outside any `try`. */
  datatype DetectionError = RootUnreadable

  /** Every recorded group counts its applications, and has at least one. */
  predicate WellFormed(g: Group)
  {
    g.count == |g.apps| && g.count >= 1
  }

  // ---------------------------------------------------------------------------
  // Evidence

  /** `isProjectDirectory`: the directory holds a package manifest, an entry point or a `src`
   *  entry, a Next.js or Vite configuration, or a Dockerfile. */
  predicate IsProjectDirectory(t: Tree, p: string)
  {
    var hasPackageJson := Exists(t, Join(p, "package.json"));
    var hasIndex := Exists(t, Join(p, "index.js")) || Exists(t, Join(p, "index.ts")) || Exists(t, Join(p, "src"));
    var hasNextConfig := Exists(t, Join(p, "next.config.js")) || Exists(t, Join(p, "next.config.ts"));
    var hasViteConfig := Exists(t, Join(p, "vite.config.js")) || Exists(t, Join(p, "vite.config.ts"));
    var hasDockerfile := Exists(t, Join(p, "Dockerfile"));
    hasPackageJson || hasIndex || hasNextConfig || hasViteConfig || hasDockerfile
  }

  /** A directory is a project exactly when one of the markers exists in it. */
  lemma ProjectDirectoryMarkers(t: Tree, p: string)
    ensures IsProjectDirectory(t, p) <==> exists k :: 0 <= k < |ProjectMarkers| && Exists(t, Join(p, ProjectMarkers[k]))
  {
    if IsProjectDirectory(t, p) {
      var k :| 0 <= k < |ProjectMarkers| && Exists(t, Join(p, ProjectMarkers[k])) by {
        if Exists(t, Join(p, ProjectMarkers[0])) {
        } else if Exists(t, Join(p, ProjectMarkers[1])) {
        } else if Exists(t, Join(p, ProjectMarkers[2])) {
        } else if Exists(t, Join(p, ProjectMarkers[3])) {
        } else if Exists(t, Join(p, ProjectMarkers[4])) {
        } else if Exists(t, Join(p, ProjectMarkers[5])) {
        } else if Exists(t, Join(p, ProjectMarkers[6])) {
        } else if Exists(t, Join(p, ProjectMarkers[7])) {
        } else {
          assert Exists(t, Join(p, ProjectMarkers[8]));
        }
      }
    } else {
      forall k | 0 <= k < |ProjectMarkers| ensures !Exists(t, Join(p, ProjectMarkers[k])) {
        assert ProjectMarkers[k] in ProjectMarkers;
      }
    }
  }

  /** The configuration indicators whose file exists in `cwd`, in list order. */
  function ExistingIndicators(t: Tree, cwd: string, xs: seq<Indicator>): (r: seq<Indicator>)
    ensures Subseq(r, xs)
    ensures forall i :: i in r <==> i in xs && Exists(t, Join(cwd, i.file))
    decreases |xs|
  {
    if xs == [] then []
    else
      var init := xs[..|xs| - 1];
      var i := xs[|xs| - 1];
      var r := ExistingIndicators(t, cwd, init);
      assert init + [i] == xs;
      if Exists(t, Join(cwd, i.file)) then
        SubseqSnoc(r, init, i);
        r + [i]
      else
        SubseqExtend(r, init, i);
        r
  }

  /** The workspaces indicator, when `package.json` exists, parses and has truthy `workspaces`. */
  function WorkspacesIndicators(t: Tree, cwd: string): seq<Indicator>
  {
    var manifest := Join(cwd, "package.json");
    if Exists(t, manifest) && Workspaces(t, manifest) == Some(true) then [WorkspacesIndicator] else []
  }

  /** All indicators, configuration files first and the workspaces indicator last. */
  function Indicators(t: Tree, cwd: string): seq<Indicator>
  {
    ExistingIndicators(t, cwd, ConfigIndicators) + WorkspacesIndicators(t, cwd)
  }

  /** A root entry worth examining: a directory, not hidden, not `node_modules`. */
  predicate IsRootCandidate(t: Tree, cwd: string, item: string)
  {
    IsDirectory(t, Join(cwd, item)) && !StartsWith(item, ".") && item != "node_modules"
  }

  /** The root entries worth examining, in listing order. */
  function RootCandidates(t: Tree, cwd: string, xs: seq<string>): (r: seq<string>)
    ensures Subseq(r, xs)
    ensures forall item :: item in r <==> item in xs && IsRootCandidate(t, cwd, item)
    decreases |xs|
  {
    if xs == [] then []
    else
      var init := xs[..|xs| - 1];
      var item := xs[|xs| - 1];
      var r := RootCandidates(t, cwd, init);
      assert init + [item] == xs;
      if IsRootCandidate(t, cwd, item) then
        SubseqSnoc(r, init, item);
        r + [item]
      else
        SubseqExtend(r, init, item);
        r
  }

  /** The root candidates that qualify as projects, in order. */
  function RootApps(t: Tree, cwd: string, xs: seq<string>): (r: seq<string>)
    ensures Subseq(r, xs)
    ensures forall item :: item in r <==> item in xs && IsProjectDirectory(t, Join(cwd, item))
    decreases |xs|
  {
    if xs == [] then []
    else
      var init := xs[..|xs| - 1];
      var item := xs[|xs| - 1];
      var r := RootApps(t, cwd, init);
      assert init + [item] == xs;
      if IsProjectDirectory(t, Join(cwd, item)) then
        SubseqSnoc(r, init, item);
        r + [item]
      else
        SubseqExtend(r, init, item);
        r
  }

  /** The root group `.`, recorded only when at least two root directories qualify. */
  function RootGroup(apps: seq<string>): (r: seq<Group>)
    ensures forall g :: g in r ==> WellFormed(g) && g.dir == "."
  {
    if |apps| > 1 then [Group(".", |apps|, apps)] else []
  }

  /** An entry of a container that is an application: a directory that qualifies as a project. */
  predicate IsAppDir(t: Tree, full: string, item: string)
  {
    IsDirectory(t, Join(full, item)) && IsProjectDirectory(t, Join(full, item))
  }

  /** The entries of a container listing that are applications, in listing order. */
  function ContainerApps(t: Tree, full: string, xs: seq<string>): (r: seq<string>)
    ensures Subseq(r, xs)
    ensures forall item :: item in r <==> item in xs && IsAppDir(t, full, item)
    decreases |xs|
  {
    if xs == [] then []
    else
      var init := xs[..|xs| - 1];
      var item := xs[|xs| - 1];
      var r := ContainerApps(t, full, init);
      assert init + [item] == xs;
      if IsAppDir(t, full, item) then
        SubseqSnoc(r, init, item);
        r + [item]
      else
        SubseqExtend(r, init, item);
        r
  }

  /** The group of one container: nothing when the container is missing, not a directory or
   *  unreadable, or holds no application. */
  function ContainerGroup(t: Tree, cwd: string, dir: string): (r: seq<Group>)
    ensures forall g :: g in r ==> WellFormed(g) && g.dir == dir
  {
    var full := Join(cwd, dir);
    if Exists(t, full) && IsDirectory(t, full) then
      match ReadDir(t, full)
      case None => []
      case Some(items) =>
        var subDirs := ContainerApps(t, full, items);
        if |subDirs| > 0 then [Group(dir, |subDirs|, subDirs)] else []
    else []
  }

  /** The groups of the containers, in container order. */
  function ContainerGroups(t: Tree, cwd: string, dirs: seq<string>): (r: seq<Group>)
    ensures |r| <= |dirs|
    ensures forall g :: g in r ==> WellFormed(g) && g.dir in dirs
    decreases |dirs|
  {
    if dirs == [] then []
    else ContainerGroups(t, cwd, dirs[..|dirs| - 1]) + ContainerGroup(t, cwd, dirs[|dirs| - 1])
  }

  /** The groups of one more container are those of the earlier ones followed by its own. */
  lemma ContainerGroupsStep(t: Tree, cwd: string, dirs: seq<string>, i: nat)
    requires i < |dirs|
    ensures ContainerGroups(t, cwd, dirs[..i + 1]) == ContainerGroups(t, cwd, dirs[..i]) + ContainerGroup(t, cwd, dirs[i])
  {
    var next := dirs[..i + 1];
    assert next[..|next| - 1] == dirs[..i];
  }

  /** Appending the groups of one more container to what was found so far. Stated apart, as a small lemma over plain
   *  sequences, only to keep the proofs that use it within the solver's limits. */
  lemma GroupsExtend(found: seq<Group>, earlier: seq<Group>, own: seq<Group>)
    ensures found + earlier + own == found + (earlier + own)
  {
  }

  /** `checkDirectoryStructures`: the root group, then one group per container in order; `None`
   *  when the root cannot be listed. */
  function DirectoryGroups(t: Tree, cwd: string): (r: Option<seq<Group>>)
    ensures r.Some? ==> forall g :: g in r.value ==> WellFormed(g)
  {
    match ReadDir(t, cwd)
    case None => None
    case Some(items) =>
      Some(RootGroup(RootApps(t, cwd, RootCandidates(t, cwd, items))) + ContainerGroups(t, cwd, ContainerDirs))
  }

  // ---------------------------------------------------------------------------
  // Decision and flattening

  /** Some group holds more than `n` applications (`foundDirectories.some(d => d.count > n)`). */
  predicate AnyCountAbove(groups: seq<Group>, n: nat)
  {
    exists g :: g in groups && g.count > n
  }

  /** The condition under which `processDetectionResults` declares a monorepo. */
  predicate Decide(hasConfigIndicators: bool, hasMultipleApps: bool, hasSingleAppInStructuredDir: bool,
                   groups: seq<Group>)
  {
    if hasConfigIndicators && (hasMultipleApps || hasSingleAppInStructuredDir) then true
    else if |groups| > 0 && !hasConfigIndicators then AnyCountAbove(groups, 0)
    else false
  }

  /** Where an application is: its bare name in the root group, `dir/name` otherwise. */
  function AppPath(dir: string, app: string): string
  {
    if dir == "." then app else Join(dir, app)
  }

  /** The folders of one group, in the order of its applications. */
  function FoldersOf(dir: string, apps: seq<string>): (r: seq<Folder>)
    ensures |r| == |apps|
    ensures forall k {:trigger r[k]} :: 0 <= k < |apps| ==> r[k] == Folder(apps[k], AppPath(dir, apps[k]))
    decreases |apps|
  {
    if apps == [] then []
    else FoldersOf(dir, apps[..|apps| - 1]) + [Folder(apps[|apps| - 1], AppPath(dir, apps[|apps| - 1]))]
  }

  /** `collectApplications`: the folders of every group with applications, group after group. */
  function Flatten(groups: seq<Group>): seq<Folder>
    decreases |groups|
  {
    if groups == [] then []
    else
      Flatten(groups[..|groups| - 1]) + GroupFolders(groups[|groups| - 1])
  }

  /** The number of applications the groups announce. */
  function TotalCount(groups: seq<Group>): nat
    decreases |groups|
  {
    if groups == [] then 0 else TotalCount(groups[..|groups| - 1]) + groups[|groups| - 1].count
  }

  /** `checkMonorepo` over a snapshot: the indicators and groups decide, and the folders are the
   *  flattened groups for a monorepo and empty otherwise. */
  function Classify(t: Tree, cwd: string): (r: Result<Detection, DetectionError>)
    ensures r.Err? <==> ReadDir(t, cwd).None?
    ensures r.Ok? && !r.value.isMonorepo ==> r.value.monorepoFolders == []
    ensures r.Ok? && r.value.isMonorepo ==> r.value.monorepoFolders == Flatten(DirectoryGroups(t, cwd).value)
  {
    var found := Indicators(t, cwd);
    match DirectoryGroups(t, cwd)
    case None => Err(RootUnreadable)
    case Some(groups) =>
      var isMonorepo := Decide(|found| > 0, AnyCountAbove(groups, 1), AnyCountAbove(groups, 0), groups);
      Ok(Detection(isMonorepo, if isMonorepo then Flatten(groups) else []))
  }

  // ---------------------------------------------------------------------------
  // Properties

  /** The indicators are the configuration files that exist, in list order, and the workspaces
   *  indicator after them exactly when `package.json` exists and declares workspaces. */
  lemma IndicatorsOrder(t: Tree, cwd: string)
    ensures Subseq(ExistingIndicators(t, cwd, ConfigIndicators), ConfigIndicators)
    ensures forall i :: i in ExistingIndicators(t, cwd, ConfigIndicators) <==>
              i in ConfigIndicators && Exists(t, Join(cwd, i.file))
    ensures var ws := Join(cwd, "package.json");
            Indicators(t, cwd) == ExistingIndicators(t, cwd, ConfigIndicators)
                                  + (if Exists(t, ws) && Workspaces(t, ws) == Some(true) then [WorkspacesIndicator] else [])
  {
  }

  /** Since every group holds an application, the rule declares a monorepo exactly when some
   *  group was recorded, whether or not any configuration file was found. */
  lemma {:induction false} DecideIgnoresIndicators(hasConfigIndicators: bool, groups: seq<Group>)
    requires forall g :: g in groups ==> WellFormed(g)
    ensures Decide(hasConfigIndicators, AnyCountAbove(groups, 1), AnyCountAbove(groups, 0), groups) <==> |groups| > 0
  {
    if |groups| > 0 {
      assert groups[0] in groups;
    }
  }

  /** A detection finds a monorepo exactly when some group was recorded. */
  lemma MonorepoIffGroups(t: Tree, cwd: string)
    requires ReadDir(t, cwd).Some?
    ensures Classify(t, cwd).Ok?
    ensures Classify(t, cwd).value.isMonorepo <==> |DirectoryGroups(t, cwd).value| > 0
  {
    DecideIgnoresIndicators(|Indicators(t, cwd)| > 0, DirectoryGroups(t, cwd).value);
  }

  /** A monorepo always has applications: every recorded group announces at least one. */
  lemma MonorepoHasFolders(t: Tree, cwd: string)
    requires Classify(t, cwd).Ok? && Classify(t, cwd).value.isMonorepo
    ensures |Classify(t, cwd).value.monorepoFolders| > 0
  {
    var groups := DirectoryGroups(t, cwd).value;
    MonorepoIffGroups(t, cwd);
    assert forall j :: 0 <= j < |groups| ==> WellFormed(groups[j]) by {
      forall j | 0 <= j < |groups| ensures WellFormed(groups[j]) { assert groups[j] in groups; }
    }
    FlattenNonEmpty(groups);
  }

  /** Well-formed groups, when there is at least one, announce at least one application. */
  lemma FlattenNonEmpty(groups: seq<Group>)
    requires forall j :: 0 <= j < |groups| ==> WellFormed(groups[j])
    requires groups != []
    ensures |Flatten(groups)| > 0
  {
    FlattenLength(groups);
    assert TotalCount(groups) >= groups[|groups| - 1].count;
  }

  /** The root group is recorded, and comes first, exactly when two or more root directories
   *  qualify. */
  lemma {:induction false} RootGroupIff(t: Tree, cwd: string)
    requires ReadDir(t, cwd).Some?
    ensures var groups := DirectoryGroups(t, cwd).value;
            var apps := RootApps(t, cwd, RootCandidates(t, cwd, ReadDir(t, cwd).value));
            (|apps| >= 2 <==> groups != [] && groups[0].dir == ".")
            && (|apps| >= 2 ==> groups[0] == Group(".", |apps|, apps))
  {
    var groups := DirectoryGroups(t, cwd).value;
    var apps := RootApps(t, cwd, RootCandidates(t, cwd, ReadDir(t, cwd).value));
    var containers := ContainerGroups(t, cwd, ContainerDirs);
    assert groups == RootGroup(apps) + containers;
    if |apps| < 2 && groups != [] {
      assert groups[0] in containers;
      assert groups[0].dir in ContainerDirs;
    }
  }

  /** A container contributes a group exactly when it exists, is a directory, can be listed and
   *  holds at least one application directory; the group then lists those in listing order. */
  lemma ContainerGroupIff(t: Tree, cwd: string, dir: string)
    ensures var full := Join(cwd, dir);
            ContainerGroup(t, cwd, dir) != [] <==>
              Exists(t, full) && IsDirectory(t, full) && ReadDir(t, full).Some?
              && exists item :: item in ReadDir(t, full).value && IsAppDir(t, full, item)
    ensures var full := Join(cwd, dir);
            ContainerGroup(t, cwd, dir) != [] ==>
              var apps := ContainerGroup(t, cwd, dir)[0].apps;
              Subseq(apps, ReadDir(t, full).value)
              && forall item :: item in apps <==> item in ReadDir(t, full).value && IsAppDir(t, full, item)
  {
    var full := Join(cwd, dir);
    if Exists(t, full) && IsDirectory(t, full) && ReadDir(t, full).Some? {
      var items := ReadDir(t, full).value;
      var subDirs := ContainerApps(t, full, items);
      if subDirs != [] {
        assert subDirs[0] in subDirs;
      }
      if exists item :: item in items && IsAppDir(t, full, item) {
        var item :| item in items && IsAppDir(t, full, item);
        assert item in subDirs;
      }
    }
  }

  /** The groups of the containers appear in the fixed container order. */
  lemma {:induction false} ContainerGroupsOrder(t: Tree, cwd: string, dirs: seq<string>)
    ensures Subseq(DirsOf(ContainerGroups(t, cwd, dirs)), dirs)
    decreases |dirs|
  {
    if dirs != [] {
      var init := dirs[..|dirs| - 1];
      var d := dirs[|dirs| - 1];
      var before := ContainerGroups(t, cwd, init);
      ContainerGroupsOrder(t, cwd, init);
      assert init + [d] == dirs;
      var last := ContainerGroup(t, cwd, d);
      if last == [] {
        assert ContainerGroups(t, cwd, dirs) == before;
        SubseqExtend(DirsOf(before), init, d);
      } else {
        assert last[0] in last;
        assert ContainerGroups(t, cwd, dirs) == before + [last[0]];
        DirsOfSnoc(before, last[0]);
        SubseqSnoc(DirsOf(before), init, d);
      }
    }
  }

  /** The directories of a sequence of groups. */
  function DirsOf(groups: seq<Group>): (dirs: seq<string>)
    ensures |dirs| == |groups|
    ensures forall i :: 0 <= i < |groups| ==> dirs[i] == groups[i].dir
  {
    seq(|groups|, i requires 0 <= i < |groups| => groups[i].dir)
  }

  lemma DirsOfSnoc(groups: seq<Group>, g: Group)
    ensures DirsOf(groups + [g]) == DirsOf(groups) + [g.dir]
  {
  }

  /** The folders a single group contributes. */
  function GroupFolders(g: Group): seq<Folder>
  {
    if g.count > 0 then FoldersOf(g.dir, g.apps) else []
  }

  /** The folders of one more group are those of the earlier ones followed by its own. */
  lemma FlattenStep(groups: seq<Group>, i: nat)
    requires i < |groups|
    ensures Flatten(groups[..i + 1]) == Flatten(groups[..i]) + GroupFolders(groups[i])
  {
    var next := groups[..i + 1];
    assert next[..|next| - 1] == groups[..i];
  }

  /** One folder per announced application: the flattened list is as long as the counts add up
   *  to. */
  lemma {:induction false} FlattenLength(groups: seq<Group>)
    requires forall j :: 0 <= j < |groups| ==> WellFormed(groups[j])
    ensures |Flatten(groups)| == TotalCount(groups)
    decreases |groups|
  {
    if groups != [] {
      FlattenLength(groups[..|groups| - 1]);
    }
  }

  /** The `k`-th application of the `i`-th group is at the offset of all earlier groups' counts
   *  plus `k`: group order, then application order, and duplicate names are all kept. */
  lemma {:induction false} FlattenAt(groups: seq<Group>, i: nat, k: nat)
    requires forall j :: 0 <= j < |groups| ==> WellFormed(groups[j])
    requires i < |groups| && k < |groups[i].apps|
    ensures TotalCount(groups[..i]) + k < |Flatten(groups)|
    ensures Flatten(groups)[TotalCount(groups[..i]) + k]
            == Folder(groups[i].apps[k], AppPath(groups[i].dir, groups[i].apps[k]))
    decreases |groups|, 1
  {
    if i < |groups| - 1 {
      FlattenAtEarlier(groups, i, k);
    } else {
      FlattenAtLast(groups, k);
    }
  }

  /** `FlattenAt` for a group before the last: the folders of the last group come after it. */
  lemma {:induction false} FlattenAtEarlier(groups: seq<Group>, i: nat, k: nat)
    requires forall j :: 0 <= j < |groups| ==> WellFormed(groups[j])
    requires i < |groups| - 1 && k < |groups[i].apps|
    ensures TotalCount(groups[..i]) + k < |Flatten(groups)|
    ensures Flatten(groups)[TotalCount(groups[..i]) + k]
            == Folder(groups[i].apps[k], AppPath(groups[i].dir, groups[i].apps[k]))
    decreases |groups|, 0
  {
    var init := groups[..|groups| - 1];
    var offset := TotalCount(groups[..i]) + k;
    var earlier := Flatten(init);
    assert Flatten(groups) == earlier + GroupFolders(groups[|groups| - 1]);
    assert init[..i] == groups[..i];
    assert TotalCount(init[..i]) + k == offset;
    var g := init[i];
    assert g == groups[i];
    FlattenAt(init, i, k);
    assert earlier[offset] == Folder(g.apps[k], AppPath(g.dir, g.apps[k]));
  }

  /** `FlattenAt` for the last group: its folders follow all the others'. */
  lemma FlattenAtLast(groups: seq<Group>, k: nat)
    requires forall j :: 0 <= j < |groups| ==> WellFormed(groups[j])
    requires |groups| > 0 && k < |groups[|groups| - 1].apps|
    ensures var i := |groups| - 1;
            TotalCount(groups[..i]) + k < |Flatten(groups)|
            && Flatten(groups)[TotalCount(groups[..i]) + k]
               == Folder(groups[i].apps[k], AppPath(groups[i].dir, groups[i].apps[k]))
  {
    var init := groups[..|groups| - 1];
    var last := groups[|groups| - 1];
    WellFormedPrefix(groups, |groups| - 1);
    FlattenLength(init);
    GroupFolderAt(last, k);
    FolderAfter(Flatten(groups), Flatten(init), GroupFolders(last), k, Folder(last.apps[k], AppPath(last.dir, last.apps[k])));
  }

  /** The groups before `n` are well formed when all are. */
  lemma WellFormedPrefix(groups: seq<Group>, n: nat)
    requires forall j :: 0 <= j < |groups| ==> WellFormed(groups[j])
    requires n <= |groups|
    ensures forall j :: 0 <= j < n ==> WellFormed(groups[..n][j])
  {
  }

  /** The `k`-th folder of a well-formed group is its `k`-th application. */
  lemma GroupFolderAt(g: Group, k: nat)
    requires WellFormed(g) && k < |g.apps|
    ensures k < |GroupFolders(g)| && GroupFolders(g)[k] == Folder(g.apps[k], AppPath(g.dir, g.apps[k]))
  {
  }

  /** The `k`-th folder of the part after `earlier`. */
  lemma FolderAfter(whole: seq<Folder>, earlier: seq<Folder>, own: seq<Folder>, k: nat, f: Folder)
    requires whole == earlier + own && k < |own| && own[k] == f
    ensures |earlier| + k < |whole| && whole[|earlier| + k] == f
  {
  }

  /** A working directory `root` with a lock file and a `packages` container holding two
   *  applications `a` and `b`, each with a package manifest. */
  function PackagesTree(root: string): Tree
  {
    var packages := Join(root, "packages");
    Tree({Join(root, "yarn.lock"), packages, Join(packages, "a"), Join(packages, "b"),
          Join(Join(packages, "a"), "package.json"), Join(Join(packages, "b"), "package.json")},
         {packages, Join(packages, "a"), Join(packages, "b")},
         map[root := ["packages", "yarn.lock"], packages := ["a", "b"]],
         map[], map[])
  }

  /** In that tree only `packages` contributes a group. */
  lemma PackagesTreeGroups(root: string)
    ensures DirectoryGroups(PackagesTree(root), root) == Some([Group("packages", 2, ["a", "b"])])
  {
    var t := PackagesTree(root);
    assert ReadDir(t, root) == Some(["packages", "yarn.lock"]);
    PackagesTreeRoot(root);
    PackagesTreeContainers(root);
    var groups := ContainerGroups(t, root, ContainerDirs);
    assert [] + groups == groups;
  }

  /** No root group: `packages` is the only root directory. */
  lemma PackagesTreeRoot(root: string)
    ensures RootGroup(RootApps(PackagesTree(root), root, RootCandidates(PackagesTree(root), root, ["packages", "yarn.lock"]))) == []
  {
    var t := PackagesTree(root);
    var n := |root| + 1;
    assert !IsRootCandidate(t, root, "yarn.lock") by {
      var p := Join(root, "yarn.lock");
      assert p[n..] == "yarn.lock";
      assert Join(root, "packages")[n..] == "packages";
      assert |Join(Join(root, "packages"), "a")| > |p| && |Join(Join(root, "packages"), "b")| > |p|;
    }
    var single := RootCandidates(t, root, ["packages"]);
    assert ["packages", "yarn.lock"][..1] == ["packages"] && ["packages"][..0] == [];
    assert RootCandidates(t, root, ["packages", "yarn.lock"]) == single;
    assert single == [] || single == ["packages"];
    assert |RootApps(t, root, single)| <= 1 by {
      if single != [] {
        assert single[..0] == [];
      }
    }
  }

  /** Of the containers, only `packages` holds applications. */
  lemma PackagesTreeContainers(root: string)
    ensures ContainerGroups(PackagesTree(root), root, ContainerDirs) == [Group("packages", 2, ["a", "b"])]
  {
    PackagesTreePackages(root);
    PackagesTreeOthers(root);
    OnlyPackagesContributes(PackagesTree(root), root, [Group("packages", 2, ["a", "b"])]);
  }

  /** `packages` holds the two applications, in listing order. */
  lemma PackagesTreePackages(root: string)
    ensures ContainerGroup(PackagesTree(root), root, "packages") == [Group("packages", 2, ["a", "b"])]
  {
    var t := PackagesTree(root);
    var full := Join(root, "packages");
    PackagesTreeListing(root);
    BothAppDirs(t, full, "a", "b");
  }

  /** `packages` is a listable directory holding the application directories `a` and `b`. */
  lemma PackagesTreeListing(root: string)
    ensures var t := PackagesTree(root);
            var full := Join(root, "packages");
            Exists(t, full) && IsDirectory(t, full) && ReadDir(t, full) == Some(["a", "b"])
            && IsAppDir(t, full, "a") && IsAppDir(t, full, "b")
  {
    var t := PackagesTree(root);
    var full := Join(root, "packages");
    assert IsAppDir(t, full, "a") by { assert Exists(t, Join(Join(full, "a"), "package.json")); }
    assert IsAppDir(t, full, "b") by { assert Exists(t, Join(Join(full, "b"), "package.json")); }
  }

  /** A listing of two application directories keeps both, in order. */
  lemma BothAppDirs(t: Tree, full: string, a: string, b: string)
    requires IsAppDir(t, full, a) && IsAppDir(t, full, b)
    ensures ContainerApps(t, full, [a, b]) == [a, b]
  {
    assert [a, b][..1] == [a] && [a][..0] == [];
    assert ContainerApps(t, full, [a]) == [a];
  }

  /** No other container exists: the only paths directly below the root are `packages` and the
   *  lock file, and every container name ends in `s`. */
  lemma PackagesTreeOthers(root: string)
    ensures forall d :: d in ContainerDirs && d != "packages" ==> ContainerGroup(PackagesTree(root), root, d) == []
  {
    var t := PackagesTree(root);
    var packages := Join(root, "packages");
    var n := |root| + 1;
    forall d | d in ContainerDirs && d != "packages"
      ensures ContainerGroup(t, root, d) == []
    {
      var p := Join(root, d);
      assert p[n..] == d;
      assert Join(root, "yarn.lock")[n..] == "yarn.lock";
      assert packages[n..] == "packages";
      assert p[|p| - 1] == d[|d| - 1] == 's';
      assert Join(packages, "a")[|Join(packages, "a")| - 1] == 'a';
      assert Join(packages, "b")[|Join(packages, "b")| - 1] == 'b';
      assert !Exists(t, p);
    }
  }

  /** When only `packages` contributes, the groups of the containers are its group. */
  lemma OnlyPackagesContributes(t: Tree, cwd: string, g: seq<Group>)
    requires ContainerGroup(t, cwd, "packages") == g
    requires forall d :: d in ContainerDirs && d != "packages" ==> ContainerGroup(t, cwd, d) == []
    ensures ContainerGroups(t, cwd, ContainerDirs) == g
  {
    ContainerGroupsOnly(t, cwd, ContainerDirs, "packages");
  }

  /** When only the first container can contribute, the groups are its group alone. */
  lemma {:induction false} ContainerGroupsOnly(t: Tree, cwd: string, dirs: seq<string>, only: string)
    requires dirs != [] && dirs[0] == only
    requires forall d :: d in dirs && d != only ==> ContainerGroup(t, cwd, d) == []
    requires only !in dirs[1..]
    ensures ContainerGroups(t, cwd, dirs) == ContainerGroup(t, cwd, only)
    decreases |dirs|
  {
    if |dirs| == 1 {
      assert dirs[..0] == [];
    } else {
      var init := dirs[..|dirs| - 1];
      assert dirs[|dirs| - 1] in dirs[1..];
      assert init[1..] == dirs[1..|dirs| - 1];
      assert forall d :: d in init ==> d in dirs;
      ContainerGroupsOnly(t, cwd, init, only);
    }
  }

  /** Whenever some group is recorded, the detection is a monorepo of the flattened groups. */
  lemma ClassifyWithGroups(t: Tree, cwd: string, groups: seq<Group>)
    requires DirectoryGroups(t, cwd) == Some(groups) && groups != []
    ensures Classify(t, cwd) == Ok(Detection(true, Flatten(groups)))
  {
    MonorepoIffGroups(t, cwd);
  }

  /** The packages tree is a monorepo of exactly `a` and `b`, built from `packages/a` and
   *  `packages/b`. */
  lemma PackagesExample(root: string)
    ensures Classify(PackagesTree(root), root)
            == Ok(Detection(true, [Folder("a", "packages/a"), Folder("b", "packages/b")]))
  {
    PackagesTreeGroups(root);
    PackagesGroupClassified(PackagesTree(root), root);
  }

  /** A tree whose only group is `packages` with `a` and `b` deploys `packages/a` and
   *  `packages/b`. */
  lemma PackagesGroupClassified(t: Tree, cwd: string)
    requires DirectoryGroups(t, cwd) == Some([Group("packages", 2, ["a", "b"])])
    ensures Classify(t, cwd) == Ok(Detection(true, [Folder("a", "packages/a"), Folder("b", "packages/b")]))
  {
    ClassifyWithGroups(t, cwd, [Group("packages", 2, ["a", "b"])]);
    FlattenPackagesGroup();
  }

  /** A single group flattens to its own folders. */
  lemma FlattenOne(g: Group)
    ensures Flatten([g]) == GroupFolders(g)
  {
    assert [g][..0] == [];
  }

  /** The group `packages` with `a` and `b` flattens to `packages/a` then `packages/b`. */
  lemma FlattenPackagesGroup()
    ensures Flatten([Group("packages", 2, ["a", "b"])]) == [Folder("a", "packages/a"), Folder("b", "packages/b")]
  {
    FlattenOne(Group("packages", 2, ["a", "b"]));
    assert AppPath("packages", "a") == "packages/a";
    assert AppPath("packages", "b") == "packages/b";
  }

  // ---------------------------------------------------------------------------
  // The detector

  /** `MonorepoDetector`: the working directory and the fields a detection sets. */
  class MonorepoDetector {
    const currentDir: string
    var isMonorepo: bool
    var monorepoFolders: seq<Folder>

    constructor(currentDir: string)
      ensures this.currentDir == currentDir && !isMonorepo && monorepoFolders == []
    {
      this.currentDir := currentDir;
      isMonorepo := false;
      monorepoFolders := [];
    }

    /** `checkMonorepo`: resets the fields, gathers the evidence, decides. The outcome depends on
     *  the snapshot alone, so running it again on an unchanged tree gives the same result. */
    method CheckMonorepo(t: Tree) returns (r: Result<Detection, DetectionError>)
      modifies this
      ensures r == Classify(t, currentDir)
      ensures r.Ok? ==> isMonorepo == r.value.isMonorepo && monorepoFolders == r.value.monorepoFolders
      ensures r.Err? ==> !isMonorepo && monorepoFolders == []
    {
      isMonorepo := false;
      monorepoFolders := [];
      var foundIndicators := CheckConfigIndicators(t, ConfigIndicators);
      foundIndicators := CheckPackageJsonWorkspaces(t, foundIndicators);
      var foundDirectories := CheckDirectoryStructures(t);
      if foundDirectories.None? {
        return Err(RootUnreadable);
      }
      var groups := foundDirectories.value;
      var hasConfigIndicators := |foundIndicators| > 0;
      var hasMultipleApps := AnyCountAbove(groups, 1);
      var hasSingleAppInStructuredDir := AnyCountAbove(groups, 0);
      ProcessDetectionResults(hasConfigIndicators, hasMultipleApps, hasSingleAppInStructuredDir, groups);
      return Ok(Detection(isMonorepo, monorepoFolders));
    }

    /** `checkConfigIndicators`: the indicators whose file exists, in the given order. */
    method CheckConfigIndicators(t: Tree, configIndicators: seq<Indicator>) returns (found: seq<Indicator>)
      ensures found == ExistingIndicators(t, currentDir, configIndicators)
    {
      found := [];
      for i := 0 to |configIndicators|
        invariant found == ExistingIndicators(t, currentDir, configIndicators[..i])
      {
        var indicator := configIndicators[i];
        assert configIndicators[..i + 1] == configIndicators[..i] + [indicator];
        if Exists(t, Join(currentDir, indicator.file)) {
          found := found + [indicator];
        }
      }
      assert configIndicators[..|configIndicators|] == configIndicators;
    }

    /** `checkPackageJsonWorkspaces`: appends the workspaces indicator when it applies; a read or
     *  parse failure adds nothing. */
    method CheckPackageJsonWorkspaces(t: Tree, found: seq<Indicator>) returns (found': seq<Indicator>)
      ensures found' == found + WorkspacesIndicators(t, currentDir)
    {
      found' := found;
      var packageJsonPath := Join(currentDir, "package.json");
      if Exists(t, packageJsonPath) {
        var workspaces := Workspaces(t, packageJsonPath);
        if workspaces == Some(true) {
          found' := found' + [WorkspacesIndicator];
        }
      }
    }

    /** `checkDirectoryStructures`: the root group, then the containers; `None` when listing the
     *  root throws. */
    method CheckDirectoryStructures(t: Tree) returns (r: Option<seq<Group>>)
      ensures r == DirectoryGroups(t, currentDir)
    {
      var listing := ReadDir(t, currentDir);
      if listing.None? {
        return None;
      }
      var rootItems := RootCandidates(t, currentDir, listing.value);
      var foundDirectories := CheckRootLevelApps(t, rootItems, []);
      ghost var rootGroup := foundDirectories;
      assert rootGroup == RootGroup(RootApps(t, currentDir, rootItems));
      foundDirectories := CheckStructuredDirectories(t, ContainerDirs, foundDirectories);
      assert foundDirectories == rootGroup + ContainerGroups(t, currentDir, ContainerDirs);
      r := Some(foundDirectories);
    }

    /** `checkRootLevelApps`: records the root group when two or more candidates qualify. */
    method CheckRootLevelApps(t: Tree, rootItems: seq<string>, found: seq<Group>) returns (found': seq<Group>)
      ensures found' == found + RootGroup(RootApps(t, currentDir, rootItems))
    {
      var rootApps := RootApps(t, currentDir, rootItems);
      found' := found;
      if |rootApps| > 1 {
        found' := found' + [Group(".", |rootApps|, rootApps)];
      }
    }

    /** `checkStructuredDirectories`: records one group per container that holds applications,
     *  in container order. */
    method CheckStructuredDirectories(t: Tree, possibleAppDirs: seq<string>, found: seq<Group>)
      returns (found': seq<Group>)
      ensures found' == found + ContainerGroups(t, currentDir, possibleAppDirs)
    {
      found' := found;
      for i := 0 to |possibleAppDirs|
        invariant found' == found + ContainerGroups(t, currentDir, possibleAppDirs[..i])
      {
        var dir := possibleAppDirs[i];
        ContainerGroupsStep(t, currentDir, possibleAppDirs, i);
        ghost var before := found';
        var fullPath := Join(currentDir, dir);
        if Exists(t, fullPath) && IsDirectory(t, fullPath) {
          var items := ReadDir(t, fullPath);
          if items.Some? {
            var subDirs := ContainerApps(t, fullPath, items.value);
            if |subDirs| > 0 {
              found' := found' + [Group(dir, |subDirs|, subDirs)];
            }
          }
        }
        assert found' == before + ContainerGroup(t, currentDir, dir);
        GroupsExtend(found, ContainerGroups(t, currentDir, possibleAppDirs[..i]), ContainerGroup(t, currentDir, dir));
      }
      assert possibleAppDirs[..|possibleAppDirs|] == possibleAppDirs;
    }

    /** `processDetectionResults`: when the rule holds, the detector becomes a monorepo with the
     *  flattened groups; otherwise the fields stay as they are. */
    method ProcessDetectionResults(hasConfigIndicators: bool, hasMultipleApps: bool,
                                   hasSingleAppInStructuredDir: bool, groups: seq<Group>)
      modifies this
      ensures Decide(hasConfigIndicators, hasMultipleApps, hasSingleAppInStructuredDir, groups) ==>
                isMonorepo && monorepoFolders == Flatten(groups)
      ensures !Decide(hasConfigIndicators, hasMultipleApps, hasSingleAppInStructuredDir, groups) ==>
                isMonorepo == old(isMonorepo) && monorepoFolders == old(monorepoFolders)
    {
      if hasConfigIndicators && (hasMultipleApps || hasSingleAppInStructuredDir) {
        isMonorepo := true;
        CollectApplications(groups);
      } else if |groups| > 0 && !hasConfigIndicators {
        if AnyCountAbove(groups, 0) {
          isMonorepo := true;
          CollectApplications(groups);
        }
      }
    }

    /** `collectApplications`: replaces the folders by the flattened groups. */
    method CollectApplications(groups: seq<Group>)
      modifies this
      ensures monorepoFolders == Flatten(groups) && isMonorepo == old(isMonorepo)
    {
      monorepoFolders := [];
      for i := 0 to |groups|
        invariant monorepoFolders == Flatten(groups[..i]) && isMonorepo == old(isMonorepo)
      {
        var dirInfo := groups[i];
        FlattenStep(groups, i);
        if dirInfo.count > 0 {
          var appsInDir := FoldersOf(dirInfo.dir, dirInfo.apps);
          monorepoFolders := monorepoFolders + appsInDir;
        }
      }
      assert groups[..|groups|] == groups;
    }
  }
}
