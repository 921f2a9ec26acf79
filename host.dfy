/**
 * The machine the scaffolder runs on, reduced to what it touches: a tree
 * of directories and files, and external commands (`forge`, `cargo`) whose
 * outcome is given in advance.
 */
module FileSystem {
  import opened Errors
  import opened Text

  /** A path as its components below the file-system root; `[]` is the root. */
  type Path = seq<string>

  /** `PathBuf::join` with one component. */
  function Child(p: Path, name: string): (r: Path)
    ensures |r| == |p| + 1 && r[..|p|] == p && r[|p|] == name
  {
    p + [name]
  }

  /** `Path::display`. */
  function Display(p: Path): string
  {
    "/" + Join(p, "/")
  }

  /** What a probe can observe: file contents and the set of directories. */
  datatype Snapshot = Snapshot(files: map<Path, string>, dirs: set<Path>)

  /** `Path::exists`. */
  predicate Exists(s: Snapshot, p: Path)
  {
    p in s.files || p in s.dirs
  }

  /** The directories `create_dir_all(p)` brings into being: `p` and each ancestor below the root. */
  function Ancestry(p: Path): set<Path>
  {
    set k | 1 <= k <= |p| :: p[..k]
  }

  /** A program run with arguments in a working directory. */
  datatype Command = Command(program: string, args: seq<string>, dir: Path)

  /** The description an operating-system error carries; its wording is not modelled. */
  function OsError(p: Path): string
  {
    Display(p)
  }

  class Host {
    var files: map<Path, string>
    var dirs: set<Path>
    /** Paths the operating system refuses to create or write. */
    const readOnly: set<Path>
    /** The standard error of each command that exits with a failure; other commands succeed. */
    const failures: map<Command, string>
    /** The commands run so far, oldest first. */
    var commands: seq<Command>

    /** A tree: the root exists, and nothing is both a file and a directory. */
    predicate Valid()
      reads this
    {
      [] in dirs && files.Keys !! dirs
    }

    function State(): Snapshot
      reads this
    {
      Snapshot(files, dirs)
    }

    constructor (files0: map<Path, string>, dirs0: set<Path>, readOnly0: set<Path>, failures0: map<Command, string>)
      ensures files == files0 && dirs == dirs0 && readOnly == readOnly0 && failures == failures0
      ensures commands == []
    {
      files, dirs, readOnly, failures := files0, dirs0, readOnly0, failures0;
      commands := [];
    }

    /** `fs::write` succeeds when the parent directory exists and the path is not a directory or protected. */
    predicate CanWrite(p: Path)
      reads this
    {
      |p| > 0 && p[..|p| - 1] in dirs && p !in dirs && p !in readOnly
    }

    /** `create_new` succeeds: nothing is at the path yet and it can be written. */
    predicate CanCreate(p: Path)
      reads this
    {
      p !in files && CanWrite(p)
    }

    /**
     * Whether `CanWrite(p)` holds once some directories are made: those in
     * `made` certainly, and none outside `may`.
     */
    predicate CanWriteAfter(made: set<Path>, may: set<Path>, p: Path)
      reads this
    {
      |p| > 0 && p[..|p| - 1] in dirs + made && p !in dirs + may && p !in readOnly
    }

    /** `fs::write`: creates the file or replaces its content. */
    method Write(p: Path, content: string) returns (r: Result<Unit>)
      modifies this
      ensures r.Ok? <==> old(CanWrite(p))
      ensures r.Ok? ==> files == old(files)[p := content]
      ensures r.Err? ==> files == old(files) && r.error == IoError(OsError(p))
      ensures dirs == old(dirs) && commands == old(commands)
      ensures old(Valid()) ==> Valid()
    {
      if CanWrite(p) {
        files := files[p := content];
        r := Ok(Unit);
      } else {
        r := Err(IoError(OsError(p)));
      }
    }

    /** A directory that cannot be made: a file is in the way, or it is missing and protected. */
    predicate Blocked(q: Path)
      reads this
    {
      q in files || (q !in dirs && q in readOnly)
    }

    predicate DirsCreatable(p: Path)
      reads this
    {
      forall k :: 1 <= k <= |p| ==> !Blocked(p[..k])
    }

    /**
     * `fs::create_dir_all`: makes each missing directory from the root
     * down, and stops at the first one it cannot make, keeping those
     * already made.
     */
    method CreateDirAll(p: Path) returns (r: Result<Unit>)
      modifies this
      ensures r.Ok? <==> old(DirsCreatable(p))
      ensures r.Ok? ==> dirs == old(dirs) + Ancestry(p)
      ensures r.Err? ==> r.error == IoError(OsError(p))
      ensures old(dirs) <= dirs <= old(dirs) + Ancestry(p)
      ensures files == old(files) && commands == old(commands)
      ensures old(Valid()) ==> Valid()
    {
      var k := 1;
      while k <= |p|
        invariant 1 <= k <= |p| + 1
        invariant files == old(files) && commands == old(commands)
        invariant dirs == old(dirs) + set j | 1 <= j < k :: p[..j]
        invariant forall j :: 1 <= j < k ==> !old(Blocked(p[..j]))
        invariant old(Valid()) ==> Valid()
      {
        var q := p[..k];
        assert q in dirs <==> q in old(dirs) by {
          forall j | 1 <= j < k ensures p[..j] != q {
            assert |p[..j]| != |q|;
          }
        }
        if q in files || (q !in dirs && q in readOnly) {
          return Err(IoError(OsError(p)));
        }
        dirs := dirs + {q};
        k := k + 1;
      }
      assert (set j | 1 <= j < k :: p[..j]) == Ancestry(p);
      r := Ok(Unit);
    }

    /** Runs a command; the result is its standard error when it fails. */
    method Run(c: Command) returns (stderr: Option<string>)
      modifies this
      ensures stderr == if c in failures then Some(failures[c]) else None
      ensures commands == old(commands) + [c]
      ensures files == old(files) && dirs == old(dirs)
    {
      commands := commands + [c];
      stderr := if c in failures then Some(failures[c]) else None;
    }
  }

  /** One file a generator writes. */
  datatype FileWrite = FileWrite(path: Path, content: string)

  /** The file contents after the writes `ws`, in order, over `files`. */
  function Apply(files: map<Path, string>, ws: seq<FileWrite>): (r: map<Path, string>)
    ensures r.Keys == files.Keys + set w | w in ws :: w.path
    decreases |ws|
  {
    if |ws| == 0 then files
    else
      var last := ws[|ws| - 1];
      var r := Apply(files, ws[..|ws| - 1])[last.path := last.content];
      assert forall w :: w in ws <==> w in ws[..|ws| - 1] || w == last by {
        assert ws == ws[..|ws| - 1] + [last];
      }
      r
  }

  /** Applying one more write of a prefix. */
  lemma ApplyStep(files: map<Path, string>, ws: seq<FileWrite>, k: nat)
    requires k < |ws|
    ensures Apply(files, ws[..k + 1]) == Apply(files, ws[..k])[ws[k].path := ws[k].content]
  {
    assert ws[..k + 1][..k] == ws[..k];
  }

  /** Making directories never blocks a chain: with the same files and more directories it stays creatable. */
  lemma CreatableWithMoreDirs(h: Host, files0: map<Path, string>, dirs0: set<Path>, p: Path)
    requires h.files == files0 && dirs0 <= h.dirs
    requires forall k :: 1 <= k <= |p| ==> !(p[..k] in files0 || (p[..k] !in dirs0 && p[..k] in h.readOnly))
    ensures h.DirsCreatable(p)
  {
  }

  /** Directories that are all present already can be made again without change, and in a tree nothing blocks them. */
  lemma PresentDirsCreatable(h: Host, p: Path)
    requires h.Valid() && Ancestry(p) <= h.dirs
    ensures h.DirsCreatable(p)
    ensures h.dirs + Ancestry(p) == h.dirs
  {
    forall k | 1 <= k <= |p| ensures !h.Blocked(p[..k]) {
      assert p[..k] in Ancestry(p);
    }
  }
}
