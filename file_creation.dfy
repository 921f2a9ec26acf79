/**
 * The two ways the generators write a file: refusing a path that already
 * exists, or overwriting whatever is there.
 */
module FileCreation {
  import opened Errors
  import opened FileSystem

  /**
   * Writes a new file; an existing path (file or directory) is refused with
   * `FileExists` and left as it is, and a failed write is an I/O error.
   */
  method CreateNewFile(host: Host, p: Path, content: string) returns (r: Result<Unit>)
    modifies host
    ensures old(Exists(host.State(), p)) ==> r == Err(FileExists(Display(p)))
    ensures !old(Exists(host.State(), p)) ==> (r.Ok? <==> old(host.CanWrite(p)))
    ensures r.Ok? <==> old(host.CanCreate(p))
    ensures !old(Exists(host.State(), p)) && r.Err? ==> r.error == IoError(OsError(p))
    ensures r.Ok? ==> p !in old(host.files) && host.files == old(host.files)[p := content]
    ensures r.Err? ==> host.files == old(host.files)
    ensures host.dirs == old(host.dirs) && host.commands == old(host.commands)
    ensures old(host.Valid()) ==> host.Valid()
  {
    if p in host.files || p in host.dirs {
      return Err(FileExists(Display(p)));
    }
    r := host.Write(p, content);
  }

  /** `fs::write` with its error reported as `Other(what + description)`; any existing file is replaced. */
  method WriteFile(host: Host, p: Path, content: string, what: string) returns (r: Result<Unit>)
    modifies host
    ensures r.Ok? <==> old(host.CanWrite(p))
    ensures r.Ok? ==> host.files == old(host.files)[p := content]
    ensures r.Err? ==> host.files == old(host.files) && r.error == Other(what + OsError(p))
    ensures host.dirs == old(host.dirs) && host.commands == old(host.commands)
    ensures old(host.Valid()) ==> host.Valid()
  {
    r := host.Write(p, content);
    if r.Err? {
      r := Err(Other(what + OsError(p)));
    }
  }

  /** The files a generator writes, in order: the contract, then the test and the script exactly when asked for. */
  function Plan(contract: FileWrite, test: FileWrite, script: FileWrite, withTest: bool, withScript: bool): (ws: seq<FileWrite>)
    ensures |ws| == 1 + (if withTest then 1 else 0) + (if withScript then 1 else 0)
    ensures ws[0] == contract
    ensures withTest ==> ws[1] == test
    ensures withScript ==> ws[|ws| - 1] == script
  {
    [contract] + (if withTest then [test] else []) + (if withScript then [script] else [])
  }
}
