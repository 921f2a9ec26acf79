/**
 * The Solidity contract generator of a Foundry project: checks the name,
 * makes the project's directories, installs the OpenZeppelin library the
 * type needs, and writes the contract, then the test and the deployment
 * script when asked, refusing to replace any file that exists.
 */
module ContractGeneration {
  import opened Errors
  import opened Contracts
  import opened FileSystem
  import opened Names
  import opened FileCreation
  import opened Dependencies
  import Foundry
  import Projects
  import SolidityTemplates
  import Gramr

  datatype ContractGenerator = ContractGenerator(
    project: Foundry.FoundryProject,
    contractName: string,
    contractType: ContractType,
    withTest: bool,
    withScript: bool,
    pragma: string,
    license: string)

  function Template(g: ContractGenerator): SolidityTemplates.SolidityTemplate
  {
    SolidityTemplates.SolidityTemplate(g.contractName, g.contractType, g.pragma, g.license)
  }

  function ContractPath(g: ContractGenerator): Path { Child(g.project.srcDir, g.contractName + ".sol") }

  function TestPath(g: ContractGenerator): Path { Child(g.project.testDir, g.contractName + ".t.sol") }

  function ScriptPath(g: ContractGenerator): Path { Child(g.project.scriptDir, g.contractName + ".s.sol") }

  /** The files a successful run writes: the Solidity template's contract, test and script texts. */
  function Writes(g: ContractGenerator): seq<FileWrite>
    requires SolidityTemplates.Renderable(g.contractType)
  {
    var t := Template(g);
    Plan(FileWrite(ContractPath(g), SolidityTemplates.GenerateContract(t)),
         FileWrite(TestPath(g), SolidityTemplates.GenerateTest(t)),
         FileWrite(ScriptPath(g), SolidityTemplates.GenerateScript(t)),
         g.withTest, g.withScript)
  }

  /** The three files never collide, whatever the project's directories: their names differ. */
  lemma PathsDistinct(g: ContractGenerator)
    ensures ContractPath(g) != TestPath(g) && ContractPath(g) != ScriptPath(g) && TestPath(g) != ScriptPath(g)
  {
    var n := g.contractName;
    assert |n + ".sol"| != |n + ".t.sol"|;
    assert (n + ".t.sol")[|n| + 1] != (n + ".s.sol")[|n| + 1];
    assert ContractPath(g)[|g.project.srcDir|] == n + ".sol";
    assert TestPath(g)[|g.project.testDir|] == n + ".t.sol";
    assert ScriptPath(g)[|g.project.scriptDir|] == n + ".s.sol";
  }

  /** A path that is free, and writable once the project's directories are made. */
  predicate FreeOnceReady(host: Host, g: ContractGenerator, p: Path)
    reads host
  {
    p !in host.files && host.CanWriteAfter(Foundry.ProjectDirs(g.project), Foundry.ProjectDirs(g.project), p)
  }

  /** The steps before the writes can succeed: a valid name, creatable directories, an install that does not fail. */
  predicate Ready(host: Host, g: ContractGenerator)
    reads host
  {
    ValidName(g.contractName) &&
    host.DirsCreatable(g.project.srcDir) && host.DirsCreatable(g.project.testDir) && host.DirsCreatable(g.project.scriptDir) &&
    InstallCanSucceed(host, Projects.Foundry(g.project), g.contractType)
  }

  /**
   * `generate`. `done` counts the files written: whatever the outcome, the
   * files are the old ones with the first `done` writes applied, and no
   * file that existed is ever changed. When the name, the directories and
   * the install are fine, `done` is the number of leading planned paths
   * that are free and writable.
   */
  method Generate(host: Host, g: ContractGenerator) returns (r: Result<Unit>, ghost done: nat)
    requires SolidityTemplates.Renderable(g.contractType)
    modifies host
    ensures !ValidName(g.contractName) ==>
      r == ValidateName("Contract", AsInvalidName, g.contractName) &&
      host.files == old(host.files) && host.dirs == old(host.dirs) && host.commands == old(host.commands)
    ensures done <= |Writes(g)| && host.files == Apply(old(host.files), Writes(g)[..done])
    ensures r.Ok? ==> ValidName(g.contractName) && done == |Writes(g)|
    ensures r.Err? ==> done < |Writes(g)|
    ensures forall p :: p in old(host.files) ==> p in host.files && host.files[p] == old(host.files)[p]
    ensures old(Exists(host.State(), ContractPath(g))) ==> r.Err? && host.files == old(host.files)
    ensures done >= 1 ==> old(FreeOnceReady(host, g, Writes(g)[0].path))
    ensures done >= 2 ==> old(FreeOnceReady(host, g, Writes(g)[1].path))
    ensures done >= 3 ==> old(FreeOnceReady(host, g, Writes(g)[2].path))
    ensures old(Ready(host, g)) ==>
      (done < |Writes(g)| ==> !old(FreeOnceReady(host, g, Writes(g)[done].path))) &&
      (done >= 1 <==> old(FreeOnceReady(host, g, ContractPath(g))))
    ensures old(Ready(host, g)) && (forall k :: 0 <= k < |Writes(g)| ==> old(FreeOnceReady(host, g, Writes(g)[k].path))) ==> r.Ok?
    ensures r.Ok? ==> Foundry.ProjectDirs(g.project) <= host.dirs
    ensures old(host.dirs) <= host.dirs <= old(host.dirs) + Foundry.ProjectDirs(g.project)
    ensures DependencyNeed(g.contractType) == NoDependency ==> host.commands == old(host.commands)
    ensures host.commands == old(host.commands) ||
            host.commands == old(host.commands) + [Foundry.InstallCommand(g.project, DependencyNeed(g.contractType) == UpgradeableLibrary)]
    ensures old(host.Valid()) ==> host.Valid()
  {
    done := 0;
    r := Prepare(host, g);
    if r.Err? { return; }
    assert forall p :: host.CanCreate(p) == old(FreeOnceReady(host, g, p));
    var t := Template(g);
    ghost var ws;
    r, done, ws := CreateFiles(host, g, SolidityTemplates.GenerateContract(t), SolidityTemplates.GenerateTest(t), SolidityTemplates.GenerateScript(t));
  }

  /** The steps before any file is written: the name, the directories, the dependencies. */
  method Prepare(host: Host, g: ContractGenerator) returns (r: Result<Unit>)
    modifies host
    ensures !ValidName(g.contractName) ==>
      r == ValidateName("Contract", AsInvalidName, g.contractName) &&
      host.dirs == old(host.dirs) && host.commands == old(host.commands)
    ensures ValidName(g.contractName) &&
            !old(host.DirsCreatable(g.project.srcDir) && host.DirsCreatable(g.project.testDir) && host.DirsCreatable(g.project.scriptDir)) ==>
      r.Err? && r.error.IoError? && host.commands == old(host.commands)
    ensures old(Ready(host, g)) ==> r.Ok?
    ensures r.Ok? ==> ValidName(g.contractName) && host.dirs == old(host.dirs) + Foundry.ProjectDirs(g.project)
    ensures old(host.dirs) <= host.dirs <= old(host.dirs) + Foundry.ProjectDirs(g.project)
    ensures DependencyNeed(g.contractType) == NoDependency ==> host.commands == old(host.commands)
    ensures host.commands == old(host.commands) ||
            host.commands == old(host.commands) + [Foundry.InstallCommand(g.project, DependencyNeed(g.contractType) == UpgradeableLibrary)]
    ensures host.files == old(host.files)
    ensures old(host.Valid()) ==> host.Valid()
  {
    r := ValidateName("Contract", AsInvalidName, g.contractName);
    if r.Err? { return; }
    r := Foundry.EnsureDirectories(host, g.project);
    if r.Err? { return; }
    r := CheckAndInstallDependencies(host, Projects.Foundry(g.project), g.contractType);
  }

  /**
   * `create_contract_file`, then `create_test_file` and `create_script_file`
   * when asked, stopping at the first path that is taken or cannot be written.
   */
  method CreateFiles(host: Host, g: ContractGenerator, contract: string, test: string, script: string)
    returns (r: Result<Unit>, ghost done: nat, ghost ws: seq<FileWrite>)
    modifies host
    ensures ws == Plan(FileWrite(ContractPath(g), contract), FileWrite(TestPath(g), test), FileWrite(ScriptPath(g), script),
                       g.withTest, g.withScript)
    ensures done <= |ws| && host.files == Apply(old(host.files), ws[..done])
    ensures r.Ok? <==> done == |ws|
    ensures done >= 2 ==> old(host.CanCreate(ws[1].path))
    ensures done >= 3 ==> old(host.CanCreate(ws[2].path))
    ensures done < |ws| ==> !old(host.CanCreate(ws[done].path))
    ensures done >= 1 <==> old(host.CanCreate(ContractPath(g)))
    ensures forall p :: p in old(host.files) ==> p in host.files && host.files[p] == old(host.files)[p]
    ensures old(Exists(host.State(), ContractPath(g))) ==> r == Err(FileExists(Display(ContractPath(g)))) && done == 0
    ensures host.dirs == old(host.dirs) && host.commands == old(host.commands)
    ensures old(host.Valid()) ==> host.Valid()
  {
    var plan := Plan(FileWrite(ContractPath(g), contract), FileWrite(TestPath(g), test), FileWrite(ScriptPath(g), script),
               g.withTest, g.withScript);
    ws := plan;
    done := 0;
    PathsDistinct(g);
    ghost var files0 := host.files;
    assert plan[..0] == [];
    r := CreateNewFile(host, plan[0].path, plan[0].content);
    if r.Err? { return; }
    ApplyStep(files0, plan, 0);
    done := 1;
    if g.withTest {
      assert host.CanCreate(plan[1].path) == old(host.CanCreate(plan[1].path));
      r := CreateNewFile(host, plan[1].path, plan[1].content);
      if r.Err? {
        assert !old(host.CanCreate(plan[done].path));
        return;
      }
      ApplyStep(files0, plan, 1);
      done := 2;
    }
    if g.withScript {
      var w := plan[|plan| - 1];
      assert host.CanCreate(w.path) == old(host.CanCreate(w.path));
      r := CreateNewFile(host, w.path, w.content);
      if r.Err? {
        assert !old(host.CanCreate(plan[done].path));
        return;
      }
      ApplyStep(files0, plan, |plan| - 1);
      done := |plan|;
    }
    assert plan[..done] == plan;
  }

  /** `ContractBuilder::generate`: the contract generator without test or script. */
  method BuilderGenerate(host: Host, b: Gramr.ContractBuilder, project: Foundry.FoundryProject) returns (r: Result<Unit>)
    requires SolidityTemplates.Renderable(b.contractType)
    modifies host
    ensures r.Ok? ==> host.files == old(host.files)[Child(project.srcDir, b.name + ".sol") := Gramr.Build(b)]
    ensures r.Ok? ==> Child(project.srcDir, b.name + ".sol") !in old(host.files)
    ensures r.Err? ==> host.files == old(host.files)
    ensures !ValidName(b.name) ==> r.Err? && host.dirs == old(host.dirs) && host.commands == old(host.commands)
    ensures old(Ready(host, ContractGenerator(project, b.name, b.contractType, false, false, b.pragma, b.license))) ==>
      (r.Ok? <==> old(Child(project.srcDir, b.name + ".sol") !in host.files &&
                      host.CanWriteAfter(Foundry.ProjectDirs(project), Foundry.ProjectDirs(project), Child(project.srcDir, b.name + ".sol"))))
  {
    var g := ContractGenerator(project, b.name, b.contractType, false, false, b.pragma, b.license);
    ghost var files0 := host.files;
    ghost var done;
    r, done := Generate(host, g);
    ghost var ws := Writes(g);
    assert Template(g) == Gramr.Template(b);
    assert ws[..0] == [];
    if done == 1 {
      ApplyStep(files0, ws, 0);
      assert ws[..1] == ws;
    }
  }
}
