/**
 * The build plan: the module-level flag, include and source lists of the build
 * script, extended in place when CUDA and trace are enabled.
 */
module Plan {
  import opened Wrappers
  import opened Toolkit

  const BaseCompilerFlags: seq<string> := ["-w", "-std=c++11", "-O3"]
  const BaseNvccFlags: seq<string> :=
    ["-arch=sm_86", "--ptxas-options=-v", "-c", "--compiler-options", "'-fPIC'", "-w", "-std=c++11", "-O3"]
  const Depends: seq<string> := ["../includes/*.h"]
  const BaseSources: seq<string> := ["RangeLibc.pyx", "../vendor/lodepng/lodepng.cpp"]
  const KernelSource := "../includes/kernels.cu"

  /** The two tuning constants shared by the host and the device code. */
  const ChunkSize := "262144"
  const NumThreads := "256"

  /** The defines both compilers receive when CUDA is enabled, in this order. */
  const CudaDefines: seq<string> := ["-DUSE_CUDA=1", "-DCHUNK_SIZE=" + ChunkSize, "-DNUM_THREADS=" + NumThreads]
  /** The host-only define that turns on the trace map. */
  const TraceDefine := "-D_MAKE_TRACE_MAP=1"

  function BaseIncludeDirs(numpyInclude: string): seq<string>
  {
    ["../", numpyInclude]
  }

  datatype BuildPlan = BuildPlan(
    compilerFlags: seq<string>,
    nvccFlags: seq<string>,
    includeDirs: seq<string>,
    depends: seq<string>,
    sources: seq<string>,
    cuda: Option<CudaConfig>)

  /** The plan for the given trace setting and, when CUDA is enabled, the located toolkit. */
  function PlanFor(trace: bool, numpyInclude: string, cuda: Option<CudaConfig>): BuildPlan
  {
    var defines := if cuda.Some? then CudaDefines else [];
    BuildPlan(
      BaseCompilerFlags + defines + (if trace then [TraceDefine] else []),
      BaseNvccFlags + defines,
      BaseIncludeDirs(numpyInclude) + (if cuda.Some? then [cuda.value.includeDir] else []),
      Depends,
      BaseSources + (if cuda.Some? then [KernelSource] else []),
      cuda)
  }

  /**
   * The module-level construction: start from the base lists, append the CUDA defines,
   * locate the toolkit and append its include directory and the kernel source, then
   * append the trace define. A failed toolkit lookup aborts the build with its error.
   */
  method MakePlan(useCuda: bool, trace: bool, numpyInclude: string, env: Environment, fs: FileSystem)
    returns (r: Result<BuildPlan, CudaError>)
    ensures !useCuda ==> r == Ok(PlanFor(trace, numpyInclude, None))
    ensures useCuda && Locate(env, fs).Ok? ==> r == Ok(PlanFor(trace, numpyInclude, Some(Locate(env, fs).value)))
    ensures useCuda && Locate(env, fs).Err? ==> r == Err(Locate(env, fs).error)
  {
    var compilerFlags := BaseCompilerFlags;
    var nvccFlags := BaseNvccFlags;
    var includeDirs := BaseIncludeDirs(numpyInclude);
    var sources := BaseSources;
    var cuda: Option<CudaConfig> := None;
    if useCuda {
      compilerFlags := compilerFlags + CudaDefines;
      nvccFlags := nvccFlags + CudaDefines;
      var located := LocateCuda(env, fs);
      if located.Err? {
        return Err(located.error);
      }
      cuda := Some(located.value);
      includeDirs := includeDirs + [located.value.includeDir];
      sources := sources + [KernelSource];
    }
    if trace {
      compilerFlags := compilerFlags + [TraceDefine];
    }
    ghost var defines := if useCuda then CudaDefines else [];
    assert compilerFlags == BaseCompilerFlags + defines + (if trace then [TraceDefine] else []);
    assert nvccFlags == BaseNvccFlags + defines;
    assert !useCuda ==> includeDirs == BaseIncludeDirs(numpyInclude) + [] && sources == BaseSources + [];
    return Ok(BuildPlan(compilerFlags, nvccFlags, includeDirs, Depends, sources, cuda));
  }

  predicate IsPrefix(p: seq<string>, s: seq<string>)
  {
    |p| <= |s| && s[..|p|] == p
  }

  /** No entry of the list occurs twice. */
  predicate Distinct(s: seq<string>)
  {
    forall i, j :: 0 <= i < j < |s| ==> s[i] != s[j]
  }

  /** The trace define is none of the CUDA defines (it has the length of the chunk-size define but differs from it). */
  lemma TraceDefineIsNew()
    ensures TraceDefine !in CudaDefines && TraceDefine !in BaseCompilerFlags && TraceDefine !in BaseNvccFlags
  {
    assert CudaDefines[1][2] == 'C' && TraceDefine[2] == '_';
  }

  /** Whatever is enabled, every base list survives as a prefix of the final one. */
  lemma PlanKeepsBase(trace: bool, numpyInclude: string, cuda: Option<CudaConfig>)
    ensures var p := PlanFor(trace, numpyInclude, cuda);
      && IsPrefix(BaseCompilerFlags, p.compilerFlags)
      && IsPrefix(BaseNvccFlags, p.nvccFlags)
      && IsPrefix(BaseIncludeDirs(numpyInclude), p.includeDirs)
      && IsPrefix(BaseSources, p.sources)
      && p.depends == Depends
  {
    var p := PlanFor(trace, numpyInclude, cuda);
    var d := if cuda.Some? then CudaDefines else [];
    assert (BaseCompilerFlags + d + (if trace then [TraceDefine] else []))[..3] == BaseCompilerFlags;
  }

  /**
   * With CUDA enabled the three defines come right after the base flags of both compilers,
   * the kernel is the last source and the toolkit's include directory the last include
   * directory; both flag lists hold every define.
   */
  lemma PlanWithCuda(trace: bool, numpyInclude: string, config: CudaConfig)
    ensures var p := PlanFor(trace, numpyInclude, Some(config));
      && p.compilerFlags[|BaseCompilerFlags|..|BaseCompilerFlags| + 3] == CudaDefines
      && p.nvccFlags == BaseNvccFlags + CudaDefines
      && p.sources[|p.sources| - 1] == KernelSource && |p.sources| == |BaseSources| + 1
      && p.includeDirs[|p.includeDirs| - 1] == config.includeDir && |p.includeDirs| == 3
      && (forall d :: d in CudaDefines ==> d in p.compilerFlags && d in p.nvccFlags)
  {
    var p := PlanFor(trace, numpyInclude, Some(config));
    var tail := if trace then [TraceDefine] else [];
    assert p.compilerFlags == BaseCompilerFlags + CudaDefines + tail;
    assert p.compilerFlags[3..6] == CudaDefines;
    forall d | d in CudaDefines ensures d in p.compilerFlags && d in p.nvccFlags {
      var k :| 0 <= k < 3 && CudaDefines[k] == d;
      assert p.compilerFlags[3 + k] == d;
      assert p.nvccFlags[8 + k] == d;
    }
  }

  /** With CUDA disabled the sources, include directories and nvcc flags are the base lists and no CUDA define appears. */
  lemma PlanWithoutCuda(trace: bool, numpyInclude: string)
    ensures var p := PlanFor(trace, numpyInclude, None);
      && p.sources == BaseSources
      && p.includeDirs == BaseIncludeDirs(numpyInclude)
      && p.nvccFlags == BaseNvccFlags
      && (forall d :: d in CudaDefines ==> d !in p.compilerFlags)
  {
    TraceDefineIsNew();
    var p := PlanFor(trace, numpyInclude, None);
    assert p.sources == BaseSources + [];
    assert p.includeDirs == BaseIncludeDirs(numpyInclude) + [];
    assert p.nvccFlags == BaseNvccFlags + [];
    assert p.compilerFlags == if trace then BaseCompilerFlags + [TraceDefine] else BaseCompilerFlags + [];
  }

  /**
   * Trace adds exactly one define, to the host flags only, after any CUDA defines;
   * without trace it is absent, and the nvcc flags never depend on trace.
   */
  lemma PlanTrace(numpyInclude: string, cuda: Option<CudaConfig>)
    ensures var on := PlanFor(true, numpyInclude, cuda);
            var off := PlanFor(false, numpyInclude, cuda);
      && on.compilerFlags == off.compilerFlags + [TraceDefine]
      && TraceDefine !in off.compilerFlags
      && TraceDefine !in on.nvccFlags
      && on.nvccFlags == off.nvccFlags
      && on.sources == off.sources && on.includeDirs == off.includeDirs
  {
    TraceDefineIsNew();
    var d := if cuda.Some? then CudaDefines else [];
    var off := PlanFor(false, numpyInclude, cuda).compilerFlags;
    assert off == BaseCompilerFlags + d + [];
    assert BaseCompilerFlags + d + [] == BaseCompilerFlags + d;
    assert off == if cuda.Some? then BaseCompilerFlags + CudaDefines else BaseCompilerFlags + [];
  }

  /**
   * The flag lists are a function of the pair (CUDA enabled, trace) alone: neither where
   * the toolkit was found nor the numpy include directory changes them.
   */
  lemma FlagsDependOnlyOnSwitches(trace: bool, n1: string, n2: string, c1: Option<CudaConfig>, c2: Option<CudaConfig>)
    requires c1.Some? <==> c2.Some?
    ensures PlanFor(trace, n1, c1).compilerFlags == PlanFor(trace, n2, c2).compilerFlags
    ensures PlanFor(trace, n1, c1).nvccFlags == PlanFor(trace, n2, c2).nvccFlags
  {
  }

  /** Two duplicate-free lists with no common entry concatenate to a duplicate-free list. */
  lemma DistinctConcat(a: seq<string>, b: seq<string>)
    requires Distinct(a) && Distinct(b)
    requires forall x :: x in a ==> x !in b
    ensures Distinct(a + b)
  {
    var s := a + b;
    forall i, j | 0 <= i < j < |s| ensures s[i] != s[j] {
      if j < |a| {
        assert s[i] == a[i] && s[j] == a[j];
      } else if i < |a| {
        assert s[i] == a[i] && a[i] in a && s[j] == b[j - |a|];
      } else {
        assert s[i] == b[i - |a|] && s[j] == b[j - |a|];
      }
    }
  }

  /** The CUDA defines are new to both base lists and to each other. */
  lemma CudaDefinesAreNew()
    ensures Distinct(CudaDefines)
    ensures forall x :: x in BaseCompilerFlags ==> x !in CudaDefines
    ensures forall x :: x in BaseNvccFlags ==> x !in CudaDefines
  {
  }

  /** The host flag list never holds the same flag twice. */
  lemma CompilerFlagsDistinct(trace: bool, numpyInclude: string, cuda: Option<CudaConfig>)
    ensures Distinct(PlanFor(trace, numpyInclude, cuda).compilerFlags)
  {
    var d := if cuda.Some? then CudaDefines else [];
    var t := if trace then [TraceDefine] else [];
    assert Distinct(BaseCompilerFlags);
    CudaDefinesAreNew();
    DistinctConcat(BaseCompilerFlags, d);
    TraceDefineIsNew();
    assert forall x :: x in BaseCompilerFlags + d ==> x in BaseCompilerFlags || x in d;
    DistinctConcat(BaseCompilerFlags + d, t);
    assert PlanFor(trace, numpyInclude, cuda).compilerFlags == BaseCompilerFlags + d + t;
  }

  /** The nvcc flag list never holds the same flag twice. */
  lemma NvccFlagsDistinct(trace: bool, numpyInclude: string, cuda: Option<CudaConfig>)
    ensures Distinct(PlanFor(trace, numpyInclude, cuda).nvccFlags)
  {
    var d := if cuda.Some? then CudaDefines else [];
    assert Distinct(BaseNvccFlags);
    CudaDefinesAreNew();
    DistinctConcat(BaseNvccFlags, d);
    assert PlanFor(trace, numpyInclude, cuda).nvccFlags == BaseNvccFlags + d;
  }
}
