/**
 * The stand-alone test generator of a Foundry project: a `forge-std` test
 * with an example unit test and an example fuzz test, written to the test
 * directory, never over an existing file.
 */
module TestGeneration {
  import opened Errors
  import opened Chars
  import opened Text
  import opened FileSystem
  import opened Names
  import opened FileCreation
  import Foundry
  import SolidityTemplates

  datatype TestGenerator = TestGenerator(
    project: Foundry.FoundryProject,
    testName: string,
    pragma: string,
    license: string)

  const TestImport := (";\n" +
      "\n" +
      "import " + "\"forge-std/T" + "est.sol\";\n" +
      "\n")
  const TestBody := (" {\n" +
      "    " + "function " + "setUp() " + "public " + "{\n" +
      "        " + "// " + "Setup " + "test " + "environment\n" +
      "    " + "}\n" +
      "\n" +
      "    " + "function " + "test_Example" + "() " + "public " + "{\n" +
      "        " + "// " + "Write " + "your " + "test " + "here\n" +
      "        " + "assertTrue(t" + "rue);\n" +
      "    " + "}\n" +
      "\n" +
      "    " + "function " + "testFuzz_Exa" + "mple(uint256" + " value) " + "public " + "{\n" +
      "        " + "// " + "Write " + "your " + "fuzz " + "test " + "here\n" +
      "        " + "assertGe(val" + "ue, " + "0);\n" +
      "    " + "}\n" +
      "}")

  /** The test text with holes for the licence, the pragma and the name. */
  const TestPieces: seq<string> :=
    [SolidityTemplates.SpdxPrefix, SolidityTemplates.PragmaPrefix, TestImport + "contract ", " is Test" + TestBody]

  /** The declaration line of the test contract. */
  function Declaration(name: string): string
  {
    "contract " + name + " is Test"
  }

  /**
   * `generate_test_content`: opens with the licence and pragma lines and
   * declares a contract of the test's name deriving from `Test`.
   */
  function TestContent(g: TestGenerator): (r: string)
    ensures SolidityTemplates.Header(g.license, g.pragma) <= r
    ensures Contains(r, Declaration(g.testName))
  {
    var r := SolidityTemplates.Render(TestPieces, g.license, g.pragma, [g.testName]);
    assert [g.license, g.pragma] + [g.testName] == [g.license, g.pragma, g.testName];
    FormatThreeLastHole(TestPieces, g.license, g.pragma, g.testName, TestImport, "contract ", " is Test", TestBody);
    r
  }

  /** `test/<Name>.t.sol`. */
  function TestPath(g: TestGenerator): (p: Path)
    ensures |p| == |g.project.testDir| + 1 && p[..|p| - 1] == g.project.testDir
  {
    Child(g.project.testDir, g.testName + ".t.sol")
  }

  /** Tests of different names never share a file. */
  lemma PathsDistinct(g: TestGenerator, h: TestGenerator)
    requires g.project == h.project && g.testName != h.testName
    ensures TestPath(g) != TestPath(h)
  {
    var n, m := g.testName + ".t.sol", h.testName + ".t.sol";
    assert n[..|n| - 6] == g.testName && m[..|m| - 6] == h.testName;
    assert TestPath(g)[|g.project.testDir|] == n;
    assert TestPath(h)[|h.project.testDir|] == m;
  }

  /**
   * `generate`: the name, the project's directories, then the test,
   * refused with `FileExists` when its path is taken. A failed run writes
   * nothing; a run whose name and directories are fine and whose path is
   * free and writable succeeds.
   */
  method Generate(host: Host, g: TestGenerator) returns (r: Result<Unit>)
    modifies host
    ensures !ValidName(g.testName) ==>
      r == ValidateName("Test", AsInvalidName, g.testName) &&
      host.files == old(host.files) && host.dirs == old(host.dirs)
    ensures r.Ok? ==> ValidName(g.testName) && Foundry.ProjectDirs(g.project) <= host.dirs
    ensures r.Ok? ==> old(host.CanWriteAfter(Foundry.ProjectDirs(g.project), Foundry.ProjectDirs(g.project), TestPath(g)))
    ensures r.Ok? ==> TestPath(g) !in old(host.files) && host.files == old(host.files)[TestPath(g) := TestContent(g)]
    ensures r.Err? ==> host.files == old(host.files)
    ensures old(Exists(host.State(), TestPath(g))) ==> r.Err?
    ensures ValidName(g.testName) && old(host.DirsCreatable(g.project.srcDir) && host.DirsCreatable(g.project.testDir) && host.DirsCreatable(g.project.scriptDir)) ==>
      (old(Exists(host.State(), TestPath(g))) ==> r == Err(FileExists(Display(TestPath(g))))) &&
      (old(host.Valid()) && !old(Exists(host.State(), TestPath(g))) &&
       TestPath(g) !in host.readOnly && TestPath(g) !in Foundry.ProjectDirs(g.project)
       ==> r.Ok?)
    ensures old(host.dirs) <= host.dirs <= old(host.dirs) + Foundry.ProjectDirs(g.project)
    ensures host.commands == old(host.commands)
    ensures old(host.Valid()) ==> host.Valid()
  {
    r := ValidateName("Test", AsInvalidName, g.testName);
    if r.Err? { return; }
    r := Foundry.EnsureDirectories(host, g.project);
    if r.Err? { return; }
    var dir := g.project.testDir;
    assert |dir| > 0 ==> dir == dir[..|dir|];
    r := CreateNewFile(host, TestPath(g), TestContent(g));
  }
}
