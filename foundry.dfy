/**
 * The Foundry project locator: the upward search for `foundry.toml`, the
 * project's directory layout, the OpenZeppelin probes and the `forge
 * install` calls.
 */
module Foundry {
  import opened Errors
  import opened FileSystem

  datatype FoundryProject = FoundryProject(root: Path, srcDir: Path, testDir: Path, scriptDir: Path)

  const Marker := "foundry.toml"

  /** The directory holds a `foundry.toml` (a file or, as `exists` allows, anything else of that name). */
  predicate HasMarker(s: Snapshot, dir: Path)
  {
    Exists(s, Child(dir, Marker))
  }

  /**
   * The nearest directory at or above `start` that holds the marker; the
   * search fails once the root has been looked at.
   */
  function FoundryRoot(s: Snapshot, start: Path): (r: Result<Path>)
    ensures r.Ok? ==> r.value <= start && HasMarker(s, r.value)
    ensures r.Ok? ==> forall k :: |r.value| < k <= |start| ==> !HasMarker(s, start[..k])
    ensures r.Err? ==> r.error == NotFoundryProject
    ensures r.Err? ==> forall k :: 0 <= k <= |start| ==> !HasMarker(s, start[..k])
    decreases |start|
  {
    if HasMarker(s, start) then Ok(start)
    else if |start| == 0 then Err(NotFoundryProject)
    else
      var parent := start[..|start| - 1];
      var r := FoundryRoot(s, parent);
      assert forall k :: 0 <= k <= |parent| ==> parent[..k] == start[..k];
      assert start[..|start|] == start;
      r
  }

  /** `find_foundry_root`: looks at `current`, and pops one component at a time. */
  method FindFoundryRoot(host: Host, start: Path) returns (r: Result<Path>)
    ensures r == FoundryRoot(host.State(), start)
  {
    var current := start;
    while true
      invariant FoundryRoot(host.State(), current) == FoundryRoot(host.State(), start)
      decreases |current|
    {
      if HasMarker(host.State(), current) {
        return Ok(current);
      }
      if |current| == 0 {
        return Err(NotFoundryProject);
      }
      current := current[..|current| - 1];
    }
  }

  /** The layout of a project found at `root`. */
  function Layout(root: Path): (p: FoundryProject)
    ensures p.root == root
    ensures p.srcDir == root + ["src"] && p.testDir == root + ["test"] && p.scriptDir == root + ["script"]
  {
    FoundryProject(root, Child(root, "src"), Child(root, "test"), Child(root, "script"))
  }

  /**
   * `detect` from the working directory `cwd`; `hasForge` is whether
   * `forge` is on the search path.
   */
  function Detect(s: Snapshot, cwd: Path, hasForge: bool): (r: Result<FoundryProject>)
    ensures !hasForge ==> r == Err(FoundryNotInstalled)
    ensures hasForge ==> (r.Ok? <==> FoundryRoot(s, cwd).Ok?)
    ensures hasForge && r.Err? ==> r.error == NotFoundryProject
    ensures r.Ok? ==> r.value == Layout(FoundryRoot(s, cwd).value)
  {
    if !hasForge then Err(FoundryNotInstalled)
    else match FoundryRoot(s, cwd)
      case Ok(root) => Ok(Layout(root))
      case Err(e) => Err(e)
  }

  /** Run from inside a project, detection finds the nearest enclosing project root. */
  lemma DetectFindsNearestRoot(s: Snapshot, root: Path, below: seq<string>)
    requires HasMarker(s, root)
    requires forall k :: |root| < k <= |root + below| ==> !HasMarker(s, (root + below)[..k])
    ensures Detect(s, root + below, true) == Ok(Layout(root))
  {
    var cwd := root + below;
    assert cwd[..|root|] == root;
    var r := FoundryRoot(s, cwd);
    if r.Ok? {
      assert r.value == cwd[..|r.value|];
    }
  }

  const OpenZeppelinDir: seq<string> := ["lib", ("openzeppelin" + "-contracts")]
  const OpenZeppelinUpgradeableDir: seq<string> := ["lib", ("openzeppelin" + "-contracts-u" + "pgradeable")]

  /** `has_openzeppelin`: the library is present under `lib/`. */
  predicate HasOpenZeppelin(s: Snapshot, p: FoundryProject)
  {
    Exists(s, p.root + OpenZeppelinDir)
  }

  /** `has_openzeppelin_upgradeable`. */
  predicate HasOpenZeppelinUpgradeable(s: Snapshot, p: FoundryProject)
  {
    Exists(s, p.root + OpenZeppelinUpgradeableDir)
  }

  /** The two probes look at different paths: installing one library never satisfies the other probe. */
  lemma ProbesIndependent(s: Snapshot, p: FoundryProject)
    ensures HasOpenZeppelinUpgradeable(Snapshot(s.files, s.dirs + {p.root + OpenZeppelinDir}), p)
        <==> HasOpenZeppelinUpgradeable(s, p)
    ensures HasOpenZeppelin(Snapshot(s.files, s.dirs + {p.root + OpenZeppelinUpgradeableDir}), p)
        <==> HasOpenZeppelin(s, p)
  {
    var a, b := p.root + OpenZeppelinDir, p.root + OpenZeppelinUpgradeableDir;
    assert a[|p.root| + 1] != b[|p.root| + 1] by {
      assert |OpenZeppelinDir[1]| != |OpenZeppelinUpgradeableDir[1]|;
    }
  }

  /** The directories `ensure_directories` makes: each of the three with its ancestors. */
  function ProjectDirs(p: FoundryProject): set<Path>
  {
    Ancestry(p.srcDir) + Ancestry(p.testDir) + Ancestry(p.scriptDir)
  }

  /** `ensure_directories`: `src`, then `test`, then `script`, each with all its ancestors. */
  method EnsureDirectories(host: Host, p: FoundryProject) returns (r: Result<Unit>)
    modifies host
    ensures r.Ok? <==> old(host.DirsCreatable(p.srcDir) && host.DirsCreatable(p.testDir) && host.DirsCreatable(p.scriptDir))
    ensures r.Ok? ==> host.dirs == old(host.dirs) + ProjectDirs(p)
    ensures old(host.dirs) <= host.dirs <= old(host.dirs) + ProjectDirs(p)
    ensures r.Err? ==> r.error.IoError?
    ensures host.files == old(host.files) && host.commands == old(host.commands)
    ensures old(host.Valid()) ==> host.Valid()
    ensures old(host.Valid() && ProjectDirs(p) <= host.dirs)
        ==> r.Ok? && host.dirs == old(host.dirs)
  {
    ghost var dirs0 := host.dirs;
    if old(host.Valid() && Ancestry(p.srcDir) + Ancestry(p.testDir) + Ancestry(p.scriptDir) <= host.dirs) {
      PresentDirsCreatable(host, p.srcDir);
      PresentDirsCreatable(host, p.testDir);
      PresentDirsCreatable(host, p.scriptDir);
    }
    r := host.CreateDirAll(p.srcDir);
    if r.Err? { return; }
    CreatableAfter(host, dirs0, p.srcDir, p.testDir);
    CreatableAfter(host, dirs0, p.srcDir, p.scriptDir);
    ghost var dirs1 := host.dirs;
    r := host.CreateDirAll(p.testDir);
    if r.Err? { return; }
    CreatableAfter(host, dirs1, p.testDir, p.scriptDir);
    r := host.CreateDirAll(p.scriptDir);
  }

  /**
   * Making the directories of `made` changes no other path's blockage: a
   * path newly a directory was not blocked before either.
   */
  lemma CreatableAfter(host: Host, before: set<Path>, made: Path, p: Path)
    requires before <= host.dirs <= before + Ancestry(made)
    requires forall k :: 1 <= k <= |made| ==> !(made[..k] in host.files || (made[..k] !in before && made[..k] in host.readOnly))
    ensures host.DirsCreatable(p) <==>
      forall k :: 1 <= k <= |p| ==> !(p[..k] in host.files || (p[..k] !in before && p[..k] in host.readOnly))
  {
  }

  /** The `forge install` command for the library. */
  function InstallCommand(p: FoundryProject, upgradeable: bool): Command
  {
    Command("forge", ["install", if upgradeable then ("OpenZeppelin" + "/openzeppeli" + "n-contracts-" + "upgradeable")
                                 else ("OpenZeppelin" + "/openzeppeli" + "n-contracts")], p.root)
  }

  /** `install_openzeppelin` / `install_openzeppelin_upgradeable`: a failing `forge` reports its standard error. */
  method Install(host: Host, p: FoundryProject, upgradeable: bool) returns (r: Result<Unit>)
    modifies host
    ensures host.commands == old(host.commands) + [InstallCommand(p, upgradeable)]
    ensures r.Ok? <==> InstallCommand(p, upgradeable) !in host.failures
    ensures r.Err? ==> r.error == ForgeCommandError(host.failures[InstallCommand(p, upgradeable)])
    ensures host.files == old(host.files) && host.dirs == old(host.dirs)
  {
    var stderr := host.Run(InstallCommand(p, upgradeable));
    match stderr
    case Some(e) => r := Err(ForgeCommandError(e));
    case None => r := Ok(Unit);
  }
}
