/**
 * The two kinds of project the scaffolder writes into: a Foundry project
 * for Solidity and a Cargo project for Rust/Stylus, and the forwarding of
 * every project operation to the kind at hand.
 */
module Projects {
  import opened Errors
  import opened Chars
  import opened Text
  import opened FileSystem
  import opened Languages
  import Foundry

  datatype CargoProject = CargoProject(root: Path)

  function CargoToml(p: CargoProject): Path
  {
    Child(p.root, "Cargo.toml")
  }

  function CargoSrcDir(p: CargoProject): Path { Child(p.root, "src") }

  function CargoTestDir(p: CargoProject): Path { Child(p.root, "tests") }

  /** Kept for the deployment notes; Stylus projects have no scripts directory of their own. */
  function CargoScriptDir(p: CargoProject): Path { Child(p.root, "scripts") }

  const NoCargoToml := "No Cargo.toml found. Please run from a Rust project directory."

  /** `CargoProject::detect`: only the working directory itself is looked at. */
  function CargoDetect(s: Snapshot, cwd: Path): (r: Result<CargoProject>)
    ensures r.Ok? <==> Exists(s, cwd + ["Cargo.toml"])
    ensures r.Ok? ==> r.value.root == cwd
    ensures r.Err? ==> r.error == ProjectNotFound(NoCargoToml)
  {
    if Exists(s, Child(cwd, "Cargo.toml")) then Ok(CargoProject(cwd)) else Err(ProjectNotFound(NoCargoToml))
  }

  /** A Cargo.toml in a parent directory does not make a Cargo project. */
  lemma CargoDetectDoesNotClimb(s: Snapshot, root: Path, sub: string)
    requires Exists(s, root + ["Cargo.toml"])
    requires root + [sub, "Cargo.toml"] !in s.files && root + [sub, "Cargo.toml"] !in s.dirs
    ensures CargoDetect(s, root).Ok?
    ensures CargoDetect(s, root + [sub]) == Err(ProjectNotFound(NoCargoToml))
  {
    assert root + [sub] + ["Cargo.toml"] == root + [sub, "Cargo.toml"];
  }

  const StylusPackage := "openzeppelin-stylus"

  /**
   * `has_openzeppelin`: the manifest can be read and mentions the package;
   * an unreadable manifest (missing, or a directory) gives false.
   */
  function CargoHasOpenZeppelin(s: Snapshot, p: CargoProject): (r: bool)
    ensures r <==> CargoToml(p) in s.files && Contains(s.files[CargoToml(p)], StylusPackage)
  {
    CargoToml(p) in s.files && Contains(s.files[CargoToml(p)], StylusPackage)
  }

  /** Upgradeable contracts come in the same package. */
  function CargoHasOpenZeppelinUpgradeable(s: Snapshot, p: CargoProject): (r: bool)
    ensures r == CargoHasOpenZeppelin(s, p)
  {
    CargoHasOpenZeppelin(s, p)
  }

  lemma ManifestExamples(p: CargoProject, s: Snapshot)
    requires s.files == map[CargoToml(p) := ("openzeppelin" + "-stylus " + "= " + "\"0.3.0\"")]
    ensures CargoHasOpenZeppelin(s, p)
    ensures !CargoHasOpenZeppelin(Snapshot(map[], s.dirs), p)
    ensures !CargoHasOpenZeppelin(Snapshot(map[CargoToml(p) := ("[dependencie" + "s]")], s.dirs), p)
  {
    ContainsInfix("", StylusPackage, " = \"0.3.0\"");
    assert "" + StylusPackage + " = \"0.3.0\"" == ("openzeppelin" + "-stylus " + "= " + "\"0.3.0\"");
    NotContained(("[dependencie" + "s]"), StylusPackage);
  }

  /** A needle longer than what is left of the haystack is not in it. */
  lemma {:induction false} NotContained(hay: string, needle: string)
    requires |hay| < |needle|
    ensures !Contains(hay, needle)
    decreases |hay|
  {
    if |hay| > 0 {
      NotContained(hay[1..], needle);
    }
  }

  const NotYetForStylus := "not yet supported for Rust/Stylus projects"
  const UpgradeableUnsupported := "Upgradeable contracts are " + NotYetForStylus

  /** `install_openzeppelin_upgradeable` on a Cargo project always fails and runs nothing. */
  function CargoInstallUpgradeable(p: CargoProject): (r: Result<Unit>)
    ensures r.Err? && Contains(Message(r.error), NotYetForStylus)
  {
    var r := Err(Other(UpgradeableUnsupported));
    assert Message(r.error) == ("Other error: " + "Upgradeable contracts are ") + NotYetForStylus + "";
    ContainsInfix("Other error: " + "Upgradeable contracts are ", NotYetForStylus, "");
    r
  }


  function CargoAddCommand(p: CargoProject): Command
  {
    Command("cargo", ["add", ("openzeppelin" + "-stylus@=0.3" + ".0")], p.root)
  }

  /** `install_openzeppelin`: `cargo add` of the pinned package, its standard error reported on failure. */
  method CargoInstall(host: Host, p: CargoProject) returns (r: Result<Unit>)
    modifies host
    ensures host.commands == old(host.commands) + [CargoAddCommand(p)]
    ensures r.Ok? <==> CargoAddCommand(p) !in host.failures
    ensures r.Err? ==> r.error == Other(("Failed " + "to " + "add " + "openzeppelin" + "-stylus: ") + host.failures[CargoAddCommand(p)])
    ensures host.files == old(host.files) && host.dirs == old(host.dirs)
  {
    var stderr := host.Run(CargoAddCommand(p));
    match stderr
    case Some(e) => r := Err(Other(("Failed " + "to " + "add " + "openzeppelin" + "-stylus: ") + e));
    case None => r := Ok(Unit);
  }

  /** `create_dir_all` of a directory that does not exist yet, reported under `what`. */
  method CreateIfMissing(host: Host, dir: Path, what: string) returns (r: Result<Unit>)
    requires |dir| > 0
    modifies host
    ensures old(Exists(host.State(), dir)) ==> r.Ok? && host.dirs == old(host.dirs)
    ensures !old(Exists(host.State(), dir)) ==> (r.Ok? <==> old(host.DirsCreatable(dir)))
    ensures r.Ok? ==> Exists(host.State(), dir)
    ensures old(host.DirsCreatable(dir)) ==> r.Ok? && dir in host.dirs
    ensures r.Err? ==> r.error == Other(("Failed " + "to " + "create ") + what + " directory: " + OsError(dir))
    ensures old(host.dirs) <= host.dirs <= old(host.dirs) + Ancestry(dir)
    ensures host.files == old(host.files) && host.commands == old(host.commands)
    ensures old(host.Valid()) ==> host.Valid()
  {
    assert dir[..|dir|] == dir;
    if dir in host.files || dir in host.dirs {
      return Ok(Unit);
    }
    r := host.CreateDirAll(dir);
    if r.Err? {
      r := Err(Other(("Failed " + "to " + "create ") + what + " directory: " + OsError(dir)));
    } else {
      assert dir == dir[..|dir|];
    }
  }

  /** `ensure_directories` of a Cargo project: `src` and `tests` when missing, and never `scripts`. */
  method CargoEnsureDirectories(host: Host, p: CargoProject) returns (r: Result<Unit>)
    modifies host
    ensures r.Ok? ==> Exists(host.State(), CargoSrcDir(p)) && Exists(host.State(), CargoTestDir(p))
    ensures old(host.DirsCreatable(CargoSrcDir(p)) && host.DirsCreatable(CargoTestDir(p))) ==>
      r.Ok? && CargoSrcDir(p) in host.dirs && CargoTestDir(p) in host.dirs
    ensures r.Err? ==> r.error.Other?
    ensures old(host.dirs) <= host.dirs <= old(host.dirs) + Ancestry(CargoSrcDir(p)) + Ancestry(CargoTestDir(p))
    ensures CargoScriptDir(p) in host.dirs <==> old(CargoScriptDir(p) in host.dirs)
    ensures host.files == old(host.files) && host.commands == old(host.commands)
    ensures old(host.Valid()) ==> host.Valid()
  {
    NotAnAncestor(p.root, "scripts", "src");
    NotAnAncestor(p.root, "scripts", "tests");
    ghost var dirs0 := host.dirs;
    r := CreateIfMissing(host, CargoSrcDir(p), "src");
    if r.Err? { return; }
    if old(host.DirsCreatable(CargoSrcDir(p))) {
      Foundry.CreatableAfter(host, dirs0, CargoSrcDir(p), CargoTestDir(p));
    }
    r := CreateIfMissing(host, CargoTestDir(p), "tests");
  }

  /** A sibling directory is never among the directories another one's creation makes. */
  lemma NotAnAncestor(root: Path, a: string, b: string)
    requires a != b
    ensures root + [a] !in Ancestry(root + [b])
  {
    forall k | 1 <= k <= |root + [b]| ensures (root + [b])[..k] != root + [a] {
      if k == |root| + 1 {
        assert (root + [b])[..k][|root|] == b != (root + [a])[|root|];
      }
    }
  }

  // ---------------------------------------------------------------------
  // Either kind of project

  datatype ProjectType = Foundry(foundry: Foundry.FoundryProject) | Cargo(cargo: CargoProject)

  function Root(pt: ProjectType): Path
  {
    match pt
    case Foundry(f) => f.root
    case Cargo(c) => c.root
  }

  function SrcDir(pt: ProjectType): Path
  {
    match pt
    case Foundry(f) => f.srcDir
    case Cargo(c) => CargoSrcDir(c)
  }

  function TestDir(pt: ProjectType): Path
  {
    match pt
    case Foundry(f) => f.testDir
    case Cargo(c) => CargoTestDir(c)
  }

  function ScriptDir(pt: ProjectType): Path
  {
    match pt
    case Foundry(f) => f.scriptDir
    case Cargo(c) => CargoScriptDir(c)
  }

  predicate HasOpenZeppelin(s: Snapshot, pt: ProjectType)
  {
    match pt
    case Foundry(f) => Foundry.HasOpenZeppelin(s, f)
    case Cargo(c) => CargoHasOpenZeppelin(s, c)
  }

  predicate HasOpenZeppelinUpgradeable(s: Snapshot, pt: ProjectType)
  {
    match pt
    case Foundry(f) => Foundry.HasOpenZeppelinUpgradeable(s, f)
    case Cargo(c) => CargoHasOpenZeppelinUpgradeable(s, c)
  }

  /** Each project found by detection keeps its sources, tests and scripts in these children of its root. */
  lemma DetectedLayouts(s: Snapshot, language: Language, cwd: Path, hasForge: bool)
    requires Detect(s, language, cwd, hasForge).Ok?
    ensures var pt := Detect(s, language, cwd, hasForge).value;
      SrcDir(pt) == Root(pt) + ["src"] &&
      TestDir(pt) == Root(pt) + (if pt.Foundry? then ["test"] else ["tests"]) &&
      ScriptDir(pt) == Root(pt) + (if pt.Foundry? then ["script"] else ["scripts"])
  {
  }

  /** `ProjectType::detect`: Foundry for Solidity, Cargo for Rust/Stylus. */
  function Detect(s: Snapshot, language: Language, cwd: Path, hasForge: bool): (r: Result<ProjectType>)
    ensures language == Solidity ==> r == (match Foundry.Detect(s, cwd, hasForge)
                                           case Ok(f) => Ok(Foundry(f))
                                           case Err(e) => Err(e))
    ensures language == RustStylus ==> r == (match CargoDetect(s, cwd)
                                             case Ok(c) => Ok(Cargo(c))
                                             case Err(e) => Err(e))
    ensures r.Ok? ==> (r.value.Foundry? <==> language == Solidity)
  {
    match language
    case Solidity =>
      (match Foundry.Detect(s, cwd, hasForge)
       case Ok(f) => Ok(Foundry(f))
       case Err(e) => Err(e))
    case RustStylus =>
      (match CargoDetect(s, cwd)
       case Ok(c) => Ok(Cargo(c))
       case Err(e) => Err(e))
  }

  /** A Rust/Stylus project needs no `forge`. */
  lemma StylusDetectionIgnoresForge(s: Snapshot, cwd: Path)
    ensures Detect(s, RustStylus, cwd, false) == Detect(s, RustStylus, cwd, true)
  {
  }

  method EnsureDirectories(host: Host, pt: ProjectType) returns (r: Result<Unit>)
    modifies host
    ensures pt.Foundry? && r.Ok? ==> host.dirs == old(host.dirs) + Foundry.ProjectDirs(pt.foundry)
    ensures pt.Foundry? ==> (r.Ok? <==> old(DirsReady(host, pt)))
    ensures pt.Cargo? && r.Ok? ==> Exists(host.State(), SrcDir(pt)) && Exists(host.State(), TestDir(pt))
    ensures pt.Cargo? ==> (ScriptDir(pt) in host.dirs <==> old(ScriptDir(pt) in host.dirs))
    ensures old(DirsReady(host, pt)) ==> r.Ok? && old(host.dirs) + ReadyDirs(pt) <= host.dirs
    ensures old(host.dirs) <= host.dirs <= old(host.dirs) + RunDirs(pt)
    ensures host.files == old(host.files) && host.commands == old(host.commands)
    ensures old(host.Valid()) ==> host.Valid()
  {
    match pt
    case Foundry(f) => r := Foundry.EnsureDirectories(host, f);
    case Cargo(c) => r := CargoEnsureDirectories(host, c);
  }

  /** The directories a run of `ensure_directories` may make. */
  function RunDirs(pt: ProjectType): set<Path>
  {
    Ancestry(SrcDir(pt)) + Ancestry(TestDir(pt)) + Ancestry(ScriptDir(pt))
  }

  /** The directories a successful `ensure_directories` leaves in place: a Cargo project gets no `scripts`. */
  function ReadyDirs(pt: ProjectType): set<Path>
  {
    match pt
    case Foundry(f) => Foundry.ProjectDirs(f)
    case Cargo(c) => {CargoSrcDir(c), CargoTestDir(c)}
  }

  /** Nothing blocks the directories `ensure_directories` may have to make. */
  predicate DirsReady(host: Host, pt: ProjectType)
    reads host
  {
    host.DirsCreatable(SrcDir(pt)) && host.DirsCreatable(TestDir(pt)) &&
    (pt.Foundry? ==> host.DirsCreatable(ScriptDir(pt)))
  }

  /** `install_openzeppelin` of either kind. */
  method InstallOpenZeppelin(host: Host, pt: ProjectType) returns (r: Result<Unit>)
    modifies host
    ensures host.commands == old(host.commands) + [InstallCommand(pt, false).value]
    ensures r.Ok? <==> InstallCommand(pt, false).value !in host.failures
    ensures r.Err? ==> r.error == InstallError(pt, host.failures[InstallCommand(pt, false).value])
    ensures host.files == old(host.files) && host.dirs == old(host.dirs)
  {
    match pt
    case Foundry(f) => r := Foundry.Install(host, f, false);
    case Cargo(c) => r := CargoInstall(host, c);
  }

  /** `install_openzeppelin_upgradeable`: `forge install` for Foundry, an immediate error for Cargo. */
  method InstallOpenZeppelinUpgradeable(host: Host, pt: ProjectType) returns (r: Result<Unit>)
    modifies host
    ensures pt.Foundry? ==> host.commands == old(host.commands) + [InstallCommand(pt, true).value]
    ensures pt.Foundry? ==> (r.Ok? <==> InstallCommand(pt, true).value !in host.failures)
    ensures pt.Foundry? && r.Err? ==> r.error == InstallError(pt, host.failures[InstallCommand(pt, true).value])
    ensures pt.Cargo? ==> r == CargoInstallUpgradeable(pt.cargo) && host.commands == old(host.commands)
    ensures host.files == old(host.files) && host.dirs == old(host.dirs)
  {
    match pt
    case Foundry(f) => r := Foundry.Install(host, f, true);
    case Cargo(c) => r := CargoInstallUpgradeable(c);
  }

  /** How a failed install command is reported: `forge` errors as such, `cargo add` errors as other errors. */
  function InstallError(pt: ProjectType, stderr: string): GramrError
  {
    match pt
    case Foundry(_) => ForgeCommandError(stderr)
    case Cargo(_) => Other(("Failed " + "to " + "add " + "openzeppelin" + "-stylus: ") + stderr)
  }

  /** The command an install runs, if it runs one. */
  function InstallCommand(pt: ProjectType, upgradeable: bool): (c: Option<Command>)
    ensures c.None? <==> pt.Cargo? && upgradeable
    ensures c.Some? ==> c.value.dir == Root(pt)
  {
    match pt
    case Foundry(f) => Some(Foundry.InstallCommand(f, upgradeable))
    case Cargo(cp) => if upgradeable then None else Some(CargoAddCommand(cp))
  }
}
