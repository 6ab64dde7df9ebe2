/** The boundary with the operating system. A child process is not run: the
    model asks an oracle (`Machine`) what an invocation did and what the
    filesystem looks like when it is over, and keeps the filesystem as an
    explicit value so that creating and removing the scratch workspace and the
    temporary source file, and whatever the children write, are visible in
    the state. */
module Process {
  import opened Types

  /** What `subprocess.run` is asked to do: the argument vector, the text fed
      to standard input (`None` when no input is given) and the timeout. */
  datatype Invocation = Invocation(argv: seq<string>, input: Option<string>, timeoutSeconds: nat)

  /** What `subprocess.run` did, with output decoded as text.
      `Exited`: the child finished on its own with this return code.
      `TimedOut`: `subprocess.TimeoutExpired` was raised and the child killed.
      `Raised`: any other exception (a missing executable, an undecodable
      output); the handlers do not catch it. `elapsed` is the clock reading
      `time.time() - start_time` the handler takes after the call. */
  datatype ProcessResult =
    | Exited(returnCode: int, stdout: string, stderr: string, elapsed: real)
    | TimedOut(elapsed: real)
    | Raised(reason: string)
  {
    /** Same behaviour, whatever the clock said. */
    predicate SameExceptTime(other: ProcessResult)
    {
      match this
      case Exited(c, o, e, _) => other.Exited? && other.returnCode == c && other.stdout == o && other.stderr == e
      case TimedOut(_) => other.TimedOut?
      case Raised(m) => other == Raised(m)
    }
  }

  /** A file holds either text written by the program or an executable the
      toolchain built from a source text. */
  datatype FileContent = Source(text: string) | Executable(builtFrom: string)

  datatype FileSystem = FileSystem(dirs: set<Path>, files: map<Path, FileContent>)

  /** What one child process reported, and the filesystem it leaves behind:
      a child may create, change or delete any file it can reach, whether it
      exits, is killed on timeout, or the call raises. */
  datatype ChildRun = ChildRun(result: ProcessResult, fs: FileSystem)

  /** The oracle: what a child process does, given what it was asked and the
      files it can see. */
  type Machine = (Invocation, FileSystem) -> ChildRun

  /** Two oracles that agree on everything but the clock. */
  ghost predicate SameBehaviour(m1: Machine, m2: Machine)
  {
    forall inv, fs :: m1(inv, fs).result.SameExceptTime(m2(inv, fs).result) && m1(inv, fs).fs == m2(inv, fs).fs
  }

  /** What a compile step leaves behind: its output (or the exception that
      escaped it) and the filesystem afterwards. */
  datatype Step = Step(result: Result<Output, string>, fs: FileSystem)

  /** `p` lies inside directory `dir`. */
  predicate Under(p: Path, dir: Path)
  {
    |dir| < |p| && p[..|dir| + 1] == dir + "/"
  }

  /** `a` and `b` agree on every directory and every file that does not lie
      inside `dir` (`dir` itself counts as outside). */
  ghost predicate SameOutside(a: FileSystem, b: FileSystem, dir: Path)
  {
    && (forall p :: !Under(p, dir) ==> (p in a.dirs <==> p in b.dirs))
    && (forall p :: !Under(p, dir) ==> (p in a.files <==> p in b.files))
    && (forall p :: !Under(p, dir) && p in a.files && p in b.files ==> a.files[p] == b.files[p])
  }

  /** Agreement outside `dir` chains: what two steps each keep, both keep. */
  lemma SameOutsideChains(a: FileSystem, b: FileSystem, c: FileSystem, dir: Path)
    requires SameOutside(a, b, dir) && SameOutside(b, c, dir)
    ensures SameOutside(a, c, dir)
  {
  }

  /** Every child process keeps its writes inside `dir`: nothing outside it is
      created, changed or removed, and `dir` itself stays. The service does
      not enforce this; it is what a submitted program must do for the
      service to leave no trace. */
  ghost predicate Confined(m: Machine, dir: Path)
  {
    forall inv, fs :: SameOutside(m(inv, fs).fs, fs, dir)
  }

  /** `open(p, 'w').write(...)`: `p` holds `c`, nothing else changes. */
  function WriteFile(fs: FileSystem, p: Path, c: FileContent): (r: FileSystem)
    ensures p in r.files && r.files[p] == c
    ensures r.dirs == fs.dirs
    ensures forall q :: q != p ==> (q in r.files <==> q in fs.files)
    ensures forall q :: q != p && q in fs.files ==> r.files[q] == fs.files[q]
  {
    fs.(files := fs.files[p := c])
  }

  /** `os.unlink(p)`: `p` is gone, nothing else changes. */
  function Unlink(fs: FileSystem, p: Path): (r: FileSystem)
    ensures p !in r.files
    ensures r.dirs == fs.dirs
    ensures forall q :: q != p ==> (q in r.files <==> q in fs.files)
    ensures forall q :: q != p && q in fs.files ==> r.files[q] == fs.files[q]
  {
    fs.(files := fs.files - {p})
  }

  /** `tempfile.mkdtemp()` returning `dir`. */
  function MakeDir(fs: FileSystem, dir: Path): (r: FileSystem)
    ensures r.dirs == fs.dirs + {dir}
    ensures r.files == fs.files
  {
    fs.(dirs := fs.dirs + {dir})
  }

  /** `shutil.rmtree(dir)`: the directory and everything inside it are gone,
      everything outside it is untouched. */
  function RemoveTree(fs: FileSystem, dir: Path): (r: FileSystem)
    ensures dir !in r.dirs
    ensures forall p :: p in r.dirs ==> !Under(p, dir)
    ensures forall p :: p in r.files ==> !Under(p, dir)
    ensures forall p :: p != dir && !Under(p, dir) ==> (p in r.dirs <==> p in fs.dirs)
    ensures forall p :: !Under(p, dir) ==> (p in r.files <==> p in fs.files)
    ensures forall p :: p in r.files ==> r.files[p] == fs.files[p]
  {
    FileSystem(
      set p | p in fs.dirs && p != dir && !Under(p, dir),
      map p | p in fs.files && !Under(p, dir) :: fs.files[p])
  }

  /** The exception `shutil.rmtree(dir)` raises when `dir` is not a
      directory: `NotADirectoryError` when a file is there, and
      `FileNotFoundError` when nothing is. */
  function RemoveTreeError(fs: FileSystem, dir: Path): string
  {
    if dir in fs.files then "[Errno 20] Not a directory: '" + dir + "'"
    else "[Errno 2] No such file or directory: '" + dir + "'"
  }

  /** `shutil.rmtree(dir)` as the service calls it, which can raise: it
      succeeds exactly when `dir` is a directory, and then removes it with
      everything inside it; otherwise it raises and removes nothing. */
  function RemoveTreeChecked(fs: FileSystem, dir: Path): (r: Result<FileSystem, string>)
    ensures r.Ok? <==> dir in fs.dirs
    ensures r.Ok? ==> r.value == RemoveTree(fs, dir)
    ensures r.Err? ==> r.error == RemoveTreeError(fs, dir)
  {
    if dir in fs.dirs then Ok(RemoveTree(fs, dir)) else Err(RemoveTreeError(fs, dir))
  }

  /** Removing a workspace undoes creating it: when nothing lay inside the
      new directory `dir` before, and the files outside it are as they were
      when it was created, removing it gives back the original filesystem. */
  lemma RemoveTreeUndoesMakeDir(fs: FileSystem, after: FileSystem, dir: Path)
    requires dir !in fs.dirs
    requires forall p :: p in fs.dirs ==> !Under(p, dir)
    requires forall p :: p in fs.files ==> !Under(p, dir)
    requires SameOutside(after, MakeDir(fs, dir), dir)
    ensures RemoveTree(after, dir) == fs
  {
    var r := RemoveTree(after, dir);
    forall p ensures p in r.dirs <==> p in fs.dirs {
      if p != dir && !Under(p, dir) {
        assert p in after.dirs <==> p in MakeDir(fs, dir).dirs;
      }
    }
    forall p ensures p in r.files <==> p in fs.files {
      if !Under(p, dir) {
        assert p in after.files <==> p in fs.files;
      }
    }
    assert r.dirs == fs.dirs;
    assert r.files == fs.files;
  }
}
