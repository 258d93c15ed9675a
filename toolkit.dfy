/**
 * CUDA toolkit discovery and validation: find_in_path and locate_cuda.
 * The filesystem is a snapshot of existing paths, split into the paths that
 * exist at all and those that are directories; the environment is a map.
 */
module Toolkit {
  import opened Wrappers
  import opened Paths

  type Environment = map<string, string>

  /**
   * A filesystem snapshot: os.path.exists holds of files and dirs, os.path.isdir of dirs.
   * Neither holds of the empty path, whatever the sets contain.
   */
  datatype FileSystem = FileSystem(files: set<string>, dirs: set<string>) {
    predicate Exists(p: string) { p != [] && (p in files || p in dirs) }
    predicate IsDir(p: string) { p != [] && p in dirs }
  }

  /** The version-pinned default installation, tried first. */
  const PinnedHome := "/usr/local/cuda-10.2"
  /** The unversioned default installation, tried second. */
  const DefaultHome := "/usr/local/cuda"
  /** The variable naming a custom installation root, tried third. */
  const HomeVar := "CUDAHOME"
  const PathVar := "PATH"
  const NvccName := "nvcc"

  /** The cudaconfig dictionary of locate_cuda. */
  datatype CudaConfig = CudaConfig(home: string, nvcc: string, includeDir: string, lib64: string)

  /** What locate_cuda raises. */
  datatype CudaError =
    | NvccNotFound                      // no strategy found an installation root
    | PathUnset                         // the PATH lookup itself fails: PATH is not set
    | Missing(key: string, path: string) // a chosen installation lacks one of its four paths

  function ErrorMessage(e: CudaError): string
  {
    match e
    case NvccNotFound => "nvcc binary not found. Set " + "$" + HomeVar + " or add nvcc to " + "$" + PathVar + "."
    case PathUnset => "KeyError: 'PATH'"
    case Missing(k, v) => "The CUDA " + k + " path could not be located in " + v
  }

  /** t occurs in s at index i. */
  predicate OccursAt(s: string, t: string, i: int)
  {
    0 <= i <= |s| - |t| && s[i..i + |t|] == t
  }

  /** t occurs in s, as Python's "t in s". */
  predicate Contains(s: string, t: string)
  {
    exists i :: 0 <= i <= |s| - |t| && OccursAt(s, t, i)
  }

  lemma ContainsMiddle(p: string, t: string, q: string)
    ensures Contains(p + t + q, t)
  {
    assert OccursAt(p + t + q, t, |p|);
  }

  /** The not-found error tells the operator which variable to set. */
  lemma NotFoundNamesHomeVar()
    ensures Contains(ErrorMessage(NvccNotFound), "$" + HomeVar)
    ensures Contains(ErrorMessage(NvccNotFound), "$" + PathVar)
  {
    var p := "nvcc binary not found. Set ";
    var q := " or add nvcc to ";
    ContainsMiddle(p, "$" + HomeVar, q + "$" + PathVar + ".");
    ContainsMiddle(p + "$" + HomeVar + q, "$" + PathVar, ".");
    assert ErrorMessage(NvccNotFound) == p + ("$" + HomeVar) + (q + "$" + PathVar + ".");
    assert ErrorMessage(NvccNotFound) == (p + "$" + HomeVar + q) + ("$" + PathVar) + ".";
  }

  /** The compiler under an installation root: home/bin/nvcc. */
  function BinNvcc(home: string): string
  {
    Join(Join(home, "bin"), NvccName)
  }

  // ---------------------------------------------------------------- find_in_path

  /** The first dir/name, in search order, that exists. */
  function FirstOnPath(dirs: seq<string>, name: string, fs: FileSystem): Option<string>
  {
    if dirs == [] then None
    else if fs.Exists(Join(dirs[0], name)) then Some(Join(dirs[0], name))
    else FirstOnPath(dirs[1..], name, fs)
  }

  /**
   * The search finds nothing iff no entry holds the name, and otherwise returns
   * the joined path of the first entry that does; that path exists.
   */
  lemma {:induction false} FirstOnPathIsFirstMatch(dirs: seq<string>, name: string, fs: FileSystem)
    ensures FirstOnPath(dirs, name, fs).None? <==>
      forall i :: 0 <= i < |dirs| ==> !fs.Exists(Join(dirs[i], name))
    ensures FirstOnPath(dirs, name, fs).Some? ==>
      exists i :: 0 <= i < |dirs| && FirstOnPath(dirs, name, fs).value == Join(dirs[i], name)
        && fs.Exists(Join(dirs[i], name))
        && forall j :: 0 <= j < i ==> !fs.Exists(Join(dirs[j], name))
  {
    if dirs != [] {
      FirstOnPathIsFirstMatch(dirs[1..], name, fs);
      if !fs.Exists(Join(dirs[0], name)) {
        forall i | 0 < i < |dirs| ensures dirs[i] == dirs[1..][i - 1] { }
        if FirstOnPath(dirs, name, fs).Some? {
          var k :| 0 <= k < |dirs| - 1 && FirstOnPath(dirs[1..], name, fs).value == Join(dirs[1..][k], name)
            && fs.Exists(Join(dirs[1..][k], name))
            && forall j :: 0 <= j < k ==> !fs.Exists(Join(dirs[1..][j], name));
          assert forall j :: 0 <= j < k + 1 ==> !fs.Exists(Join(dirs[j], name)) by {
            forall j | 0 <= j < k + 1 ensures !fs.Exists(Join(dirs[j], name)) {
              if j > 0 { assert dirs[j] == dirs[1..][j - 1]; }
            }
          }
          assert dirs[k + 1] == dirs[1..][k];
          assert FirstOnPath(dirs, name, fs).value == Join(dirs[k + 1], name);
        }
      } else {
        assert FirstOnPath(dirs, name, fs).value == Join(dirs[0], name);
      }
    }
  }

  /** find_in_path: scans the PATH value split at os.pathsep, returning at the first hit. */
  method FindInPath(name: string, path: string, fs: FileSystem) returns (r: Option<string>)
    ensures r == FirstOnPath(Split(path, PathSep), name, fs)
  {
    var dirs := Split(path, PathSep);
    assert dirs[0..] == dirs;
    var i := 0;
    while i < |dirs|
      invariant 0 <= i <= |dirs|
      invariant FirstOnPath(dirs[i..], name, fs) == FirstOnPath(dirs, name, fs)
    {
      var binpath := Join(dirs[i], name);
      if fs.Exists(binpath) {
        return Some(binpath);
      }
      assert dirs[i..][1..] == dirs[i + 1..];
      i := i + 1;
    }
    return None;
  }

  // ---------------------------------------------------------------- locate_cuda

  /** An installation root and its compiler, as chosen by one of the four strategies. */
  datatype Candidate = Candidate(home: string, nvcc: string)

  /** The four strategies in their fixed order; the first that applies decides, nothing is merged. */
  function Discover(env: Environment, fs: FileSystem): Result<Candidate, CudaError>
  {
    if fs.IsDir(PinnedHome) then Ok(Candidate(PinnedHome, BinNvcc(PinnedHome)))
    else if fs.IsDir(DefaultHome) then Ok(Candidate(DefaultHome, BinNvcc(DefaultHome)))
    else if HomeVar in env then Ok(Candidate(env[HomeVar], BinNvcc(env[HomeVar])))
    else if PathVar !in env then Err(PathUnset)
    else
      match FirstOnPath(Split(env[PathVar], PathSep), NvccName, fs)
      case None => Err(NvccNotFound)
      case Some(nvcc) => Ok(Candidate(Dirname(Dirname(nvcc)), nvcc))
  }

  /** The configuration derived from a candidate root. */
  function ConfigOf(c: Candidate): CudaConfig
  {
    CudaConfig(c.home, c.nvcc, Join(c.home, "include"), Join(c.home, "lib64"))
  }

  /** The configuration's entries in dictionary order, the order they are checked in. */
  function Entries(config: CudaConfig): seq<(string, string)>
  {
    [("home", config.home), ("nvcc", config.nvcc), ("include", config.includeDir), ("lib64", config.lib64)]
  }

  /** The first entry whose path does not exist. */
  function FirstMissing(entries: seq<(string, string)>, fs: FileSystem): Option<(string, string)>
  {
    if entries == [] then None
    else if !fs.Exists(entries[0].1) then Some(entries[0])
    else FirstMissing(entries[1..], fs)
  }

  /** Every one of the four paths exists. */
  predicate AllExist(config: CudaConfig, fs: FileSystem)
  {
    fs.Exists(config.home) && fs.Exists(config.nvcc) && fs.Exists(config.includeDir) && fs.Exists(config.lib64)
  }

  function Validate(config: CudaConfig, fs: FileSystem): Result<CudaConfig, CudaError>
  {
    match FirstMissing(Entries(config), fs)
    case Some(e) => Err(Missing(e.0, e.1))
    case None => Ok(config)
  }

  /** locate_cuda as a function of the environment and the filesystem. */
  function Locate(env: Environment, fs: FileSystem): Result<CudaConfig, CudaError>
  {
    match Discover(env, fs)
    case Err(e) => Err(e)
    case Ok(c) => Validate(ConfigOf(c), fs)
  }

  /** locate_cuda: the if/elif chain, then the check of every cudaconfig entry in order. */
  method LocateCuda(env: Environment, fs: FileSystem) returns (r: Result<CudaConfig, CudaError>)
    ensures r == Locate(env, fs)
  {
    var home: string, nvcc: string;
    if fs.IsDir(PinnedHome) {
      home := PinnedHome;
      nvcc := BinNvcc(home);
    } else if fs.IsDir(DefaultHome) {
      home := DefaultHome;
      nvcc := BinNvcc(home);
    } else if HomeVar in env {
      home := env[HomeVar];
      nvcc := BinNvcc(home);
    } else {
      if PathVar !in env {
        return Err(PathUnset);
      }
      var found := FindInPath(NvccName, env[PathVar], fs);
      if found.None? {
        return Err(NvccNotFound);
      }
      nvcc := found.value;
      home := Dirname(Dirname(nvcc));
    }
    var config := CudaConfig(home, nvcc, Join(home, "include"), Join(home, "lib64"));
    assert Discover(env, fs) == Ok(Candidate(home, nvcc));
    var entries := Entries(config);
    assert entries[0..] == entries;
    for i := 0 to |entries|
      invariant FirstMissing(entries[i..], fs) == FirstMissing(entries, fs)
    {
      var (key, path) := entries[i];
      if !fs.Exists(path) {
        return Err(Missing(key, path));
      }
      assert entries[i..][1..] == entries[i + 1..];
    }
    return Ok(config);
  }

  // ---------------------------------------------------------------- properties

  /** Validation reports nothing iff every entry exists, and otherwise the first entry that does not. */
  lemma {:induction false} FirstMissingIsFirst(entries: seq<(string, string)>, fs: FileSystem)
    ensures FirstMissing(entries, fs).None? <==> forall i :: 0 <= i < |entries| ==> fs.Exists(entries[i].1)
    ensures FirstMissing(entries, fs).Some? ==>
      exists i :: 0 <= i < |entries| && FirstMissing(entries, fs).value == entries[i]
        && !fs.Exists(entries[i].1)
        && forall j :: 0 <= j < i ==> fs.Exists(entries[j].1)
  {
    if entries != [] {
      FirstMissingIsFirst(entries[1..], fs);
      if fs.Exists(entries[0].1) {
        forall i | 0 < i < |entries| ensures entries[i] == entries[1..][i - 1] { }
        if FirstMissing(entries, fs).Some? {
          var k :| 0 <= k < |entries| - 1 && FirstMissing(entries[1..], fs).value == entries[1..][k]
            && !fs.Exists(entries[1..][k].1)
            && forall j :: 0 <= j < k ==> fs.Exists(entries[1..][j].1);
          assert forall j :: 0 <= j < k + 1 ==> fs.Exists(entries[j].1) by {
            forall j | 0 <= j < k + 1 ensures fs.Exists(entries[j].1) {
              if j > 0 { assert entries[j] == entries[1..][j - 1]; }
            }
          }
        }
      }
    }
  }

  /** The four entries are checked in the order home, nvcc, include, lib64; the first missing one is reported. */
  lemma ValidateInOrder(config: CudaConfig, fs: FileSystem)
    ensures Validate(config, fs) ==
      if !fs.Exists(config.home) then Err(Missing("home", config.home))
      else if !fs.Exists(config.nvcc) then Err(Missing("nvcc", config.nvcc))
      else if !fs.Exists(config.includeDir) then Err(Missing("include", config.includeDir))
      else if !fs.Exists(config.lib64) then Err(Missing("lib64", config.lib64))
      else Ok(config)
  {
    var e0 := Entries(config);
    var e1 := [("nvcc", config.nvcc), ("include", config.includeDir), ("lib64", config.lib64)];
    var e2 := [("include", config.includeDir), ("lib64", config.lib64)];
    var e3 := [("lib64", config.lib64)];
    assert e0[1..] == e1 && e1[1..] == e2 && e2[1..] == e3 && e3[1..] == [];
    assert FirstMissing(e3, fs) == if !fs.Exists(config.lib64) then Some(e3[0]) else None;
    assert FirstMissing(e2, fs) == if !fs.Exists(config.includeDir) then Some(e2[0]) else FirstMissing(e3, fs);
    assert FirstMissing(e1, fs) == if !fs.Exists(config.nvcc) then Some(e1[0]) else FirstMissing(e2, fs);
    assert FirstMissing(e0, fs) == if !fs.Exists(config.home) then Some(e0[0]) else FirstMissing(e1, fs);
  }

  /**
   * A located toolkit is valid: it succeeds exactly when a root was found and all four
   * paths exist, and include and lib64 always sit directly under home.
   */
  lemma LocateOkIsValid(env: Environment, fs: FileSystem)
    ensures Locate(env, fs).Ok? <==> Discover(env, fs).Ok? && AllExist(ConfigOf(Discover(env, fs).value), fs)
    ensures Locate(env, fs).Ok? ==>
      var c := Locate(env, fs).value;
      AllExist(c, fs) && c.includeDir == Join(c.home, "include") && c.lib64 == Join(c.home, "lib64")
  {
    if Discover(env, fs).Ok? {
      ValidateInOrder(ConfigOf(Discover(env, fs).value), fs);
    }
  }

  /**
   * A validation error names the first missing entry in the order home, nvcc, include, lib64,
   * and every missing entry is reported when every entry before it exists.
   */
  lemma LocateNamesFirstMissing(env: Environment, fs: FileSystem)
    requires Discover(env, fs).Ok?
    ensures var c := ConfigOf(Discover(env, fs).value);
      && (!fs.Exists(c.home) ==> Locate(env, fs) == Err(Missing("home", c.home)))
      && (fs.Exists(c.home) && !fs.Exists(c.nvcc) ==> Locate(env, fs) == Err(Missing("nvcc", c.nvcc)))
      && (fs.Exists(c.home) && fs.Exists(c.nvcc) && !fs.Exists(c.includeDir) ==>
            Locate(env, fs) == Err(Missing("include", c.includeDir)))
      && (fs.Exists(c.home) && fs.Exists(c.nvcc) && fs.Exists(c.includeDir) && !fs.Exists(c.lib64) ==>
            Locate(env, fs) == Err(Missing("lib64", c.lib64)))
      && (Locate(env, fs).Err? ==> Locate(env, fs).error.Missing?)
  {
    ValidateInOrder(ConfigOf(Discover(env, fs).value), fs);
  }

  /**
   * Strict priority: the pinned directory, else the unversioned one, else $CUDAHOME,
   * else the PATH search, whose root is the parent of the parent of the nvcc found.
   */
  lemma LocatePriority(env: Environment, fs: FileSystem)
    ensures fs.IsDir(PinnedHome) ==>
      Locate(env, fs) == Validate(ConfigOf(Candidate(PinnedHome, BinNvcc(PinnedHome))), fs)
    ensures !fs.IsDir(PinnedHome) && fs.IsDir(DefaultHome) ==>
      Locate(env, fs) == Validate(ConfigOf(Candidate(DefaultHome, BinNvcc(DefaultHome))), fs)
    ensures !fs.IsDir(PinnedHome) && !fs.IsDir(DefaultHome) && HomeVar in env ==>
      Locate(env, fs) == Validate(ConfigOf(Candidate(env[HomeVar], BinNvcc(env[HomeVar]))), fs)
    ensures !fs.IsDir(PinnedHome) && !fs.IsDir(DefaultHome) && HomeVar !in env && PathVar in env
            && FirstOnPath(Split(env[PathVar], PathSep), NvccName, fs).Some? ==>
      var found := FirstOnPath(Split(env[PathVar], PathSep), NvccName, fs).value;
      Locate(env, fs) == Validate(ConfigOf(Candidate(Dirname(Dirname(found)), found)), fs)
  {
  }

  /** No merging: a default directory makes the environment irrelevant, and $CUDAHOME makes PATH irrelevant. */
  lemma NoMergingAcrossSources(env1: Environment, env2: Environment, fs: FileSystem)
    ensures fs.IsDir(PinnedHome) || fs.IsDir(DefaultHome) ==> Locate(env1, fs) == Locate(env2, fs)
    ensures HomeVar in env1 && HomeVar in env2 && env1[HomeVar] == env2[HomeVar] ==>
      Locate(env1, fs) == Locate(env2, fs)
  {
  }

  /** Neither default directory, no $CUDAHOME, and no PATH entry that holds nvcc. */
  predicate NothingToFind(env: Environment, fs: FileSystem)
  {
    && !fs.IsDir(PinnedHome) && !fs.IsDir(DefaultHome) && HomeVar !in env && PathVar in env
    && var dirs := Split(env[PathVar], PathSep);
       forall i :: 0 <= i < |dirs| ==> !fs.Exists(Join(dirs[i], NvccName))
  }

  /**
   * The toolkit is not found exactly when no strategy yields a root: neither default directory
   * exists, $CUDAHOME is unset, PATH is set and none of its entries holds nvcc; the error then
   * names $CUDAHOME.
   */
  lemma LocateNotFound(env: Environment, fs: FileSystem)
    ensures Locate(env, fs) == Err(NvccNotFound) <==> NothingToFind(env, fs)
    ensures Locate(env, fs) == Err(NvccNotFound) ==> Contains(ErrorMessage(Locate(env, fs).error), "$" + HomeVar)
  {
    NotFoundNamesHomeVar();
    if Discover(env, fs).Ok? {
      ValidateInOrder(ConfigOf(Discover(env, fs).value), fs);
    }
    if !fs.IsDir(PinnedHome) && !fs.IsDir(DefaultHome) && HomeVar !in env && PathVar in env {
      var dirs := Split(env[PathVar], PathSep);
      FirstOnPathIsFirstMatch(dirs, NvccName, fs);
      assert Discover(env, fs).Err? <==> FirstOnPath(dirs, NvccName, fs).None?;
    }
  }

  /** The parent of the parent of root/bin/nvcc is root. */
  lemma ParentOfBinNvcc(root: string)
    requires NoTrailingSep(root)
    ensures Dirname(Dirname(BinNvcc(root))) == root
  {
    var bin := Join(root, "bin");
    DirnameOfJoin(root, "bin");
    assert NoTrailingSep(bin);
    DirnameOfJoin(bin, NvccName);
  }

  /**
   * Finding root/bin/nvcc on PATH yields the same result as setting $CUDAHOME to root:
   * the parent of the parent of the compiler is the root again.
   */
  lemma PathSearchAgreesWithHomeVar(env: Environment, fs: FileSystem, root: string)
    requires !fs.IsDir(PinnedHome) && !fs.IsDir(DefaultHome) && HomeVar !in env && PathVar in env
    requires FirstOnPath(Split(env[PathVar], PathSep), NvccName, fs) == Some(BinNvcc(root))
    requires NoTrailingSep(root)
    ensures Locate(env, fs) == Locate(env[HomeVar := root], fs)
    ensures Locate(env, fs).Ok? ==> Locate(env, fs).value.home == root
  {
    ParentOfBinNvcc(root);
    var c := Candidate(root, BinNvcc(root));
    assert Discover(env, fs) == Ok(c);
    var env' := env[HomeVar := root];
    assert HomeVar in env' && env'[HomeVar] == root;
    assert Discover(env', fs) == Ok(c);
    ValidateInOrder(ConfigOf(c), fs);
  }
}
