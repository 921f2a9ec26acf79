/**
 * The stand-alone deployment-script generator of a Foundry project: an
 * empty `forge-std` script named after the request, written to the script
 * directory, never over an existing file.
 */
module ScriptGeneration {
  import opened Errors
  import opened Chars
  import opened Text
  import opened FileSystem
  import opened Names
  import opened FileCreation
  import Foundry
  import SolidityTemplates

  datatype ScriptGenerator = ScriptGenerator(
    project: Foundry.FoundryProject,
    scriptName: string,
    pragma: string,
    license: string)

  const ScriptImport := (";\n" +
      "\n" +
      "import " + "\"forge-std/S" + "cript.sol\";\n" +
      "\n")
  const ScriptBody := (" {\n" +
      "    " + "function " + "setUp() " + "public " + "{}\n" +
      "\n" +
      "    " + "function " + "run() " + "public " + "{\n" +
      "        " + "uint256 " + "deployerPriv" + "ateKey " + "= " + "vm.envUint(\"" + "PRIVATE_KEY\"" + ");\n" +
      "        " + "vm.startBroa" + "dcast(deploy" + "erPrivateKey" + ");\n" +
      "\n" +
      "        " + "// " + "Deploy " + "contracts " + "here\n" +
      "\n" +
      "        " + "vm.stopBroad" + "cast();\n" +
      "    " + "}\n" +
      "}")

  /** The script text with holes for the licence, the pragma and the name. */
  const ScriptPieces: seq<string> :=
    [SolidityTemplates.SpdxPrefix, SolidityTemplates.PragmaPrefix, ScriptImport + "contract ", " is Script" + ScriptBody]

  /** The declaration line of the script contract. */
  function Declaration(name: string): string
  {
    "contract " + name + " is Script"
  }

  /**
   * `generate_script_content`: opens with the licence and pragma lines and
   * declares a contract of the script's name deriving from `Script`.
   */
  function ScriptContent(g: ScriptGenerator): (r: string)
    ensures SolidityTemplates.Header(g.license, g.pragma) <= r
    ensures Contains(r, Declaration(g.scriptName))
  {
    var r := SolidityTemplates.Render(ScriptPieces, g.license, g.pragma, [g.scriptName]);
    assert [g.license, g.pragma] + [g.scriptName] == [g.license, g.pragma, g.scriptName];
    FormatThreeLastHole(ScriptPieces, g.license, g.pragma, g.scriptName, ScriptImport, "contract ", " is Script", ScriptBody);
    r
  }

  /** `script/<Name>.s.sol`. */
  function ScriptPath(g: ScriptGenerator): (p: Path)
    ensures |p| == |g.project.scriptDir| + 1 && p[..|p| - 1] == g.project.scriptDir
  {
    Child(g.project.scriptDir, g.scriptName + ".s.sol")
  }

  /** Scripts of different names never share a file. */
  lemma PathsDistinct(g: ScriptGenerator, h: ScriptGenerator)
    requires g.project == h.project && g.scriptName != h.scriptName
    ensures ScriptPath(g) != ScriptPath(h)
  {
    var n, m := g.scriptName + ".s.sol", h.scriptName + ".s.sol";
    assert n[..|n| - 6] == g.scriptName && m[..|m| - 6] == h.scriptName;
    assert ScriptPath(g)[|g.project.scriptDir|] == n;
    assert ScriptPath(h)[|h.project.scriptDir|] == m;
  }

  /**
   * `generate`: the name, the project's directories, then the script,
   * refused with `FileExists` when its path is taken. A failed run writes
   * nothing; a run whose name and directories are fine and whose path is
   * free and writable succeeds.
   */
  method Generate(host: Host, g: ScriptGenerator) returns (r: Result<Unit>)
    modifies host
    ensures !ValidName(g.scriptName) ==>
      r == ValidateName("Script", AsInvalidName, g.scriptName) &&
      host.files == old(host.files) && host.dirs == old(host.dirs)
    ensures r.Ok? ==> ValidName(g.scriptName) && Foundry.ProjectDirs(g.project) <= host.dirs
    ensures r.Ok? ==> old(host.CanWriteAfter(Foundry.ProjectDirs(g.project), Foundry.ProjectDirs(g.project), ScriptPath(g)))
    ensures r.Ok? ==> ScriptPath(g) !in old(host.files) && host.files == old(host.files)[ScriptPath(g) := ScriptContent(g)]
    ensures r.Err? ==> host.files == old(host.files)
    ensures old(Exists(host.State(), ScriptPath(g))) ==> r.Err?
    ensures ValidName(g.scriptName) && old(host.DirsCreatable(g.project.srcDir) && host.DirsCreatable(g.project.testDir) && host.DirsCreatable(g.project.scriptDir)) ==>
      (old(Exists(host.State(), ScriptPath(g))) ==> r == Err(FileExists(Display(ScriptPath(g))))) &&
      (old(host.Valid()) && !old(Exists(host.State(), ScriptPath(g))) &&
       ScriptPath(g) !in host.readOnly && ScriptPath(g) !in Foundry.ProjectDirs(g.project)
       ==> r.Ok?)
    ensures old(host.dirs) <= host.dirs <= old(host.dirs) + Foundry.ProjectDirs(g.project)
    ensures host.commands == old(host.commands)
    ensures old(host.Valid()) ==> host.Valid()
  {
    r := ValidateName("Script", AsInvalidName, g.scriptName);
    if r.Err? { return; }
    r := Foundry.EnsureDirectories(host, g.project);
    if r.Err? { return; }
    var dir := g.project.scriptDir;
    assert |dir| > 0 ==> dir == dir[..|dir|];
    r := CreateNewFile(host, ScriptPath(g), ScriptContent(g));
  }
}
