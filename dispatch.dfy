/**
 * Per-file compiler dispatch: custom_build_ext replaces the compiler object's
 * single-file compile with a closure that points the shared compiler_so at nvcc
 * for .cu sources, at the captured default otherwise, compiles, and resets
 * compiler_so to the default.
 */
module Dispatch {
  import opened Paths
  import Plan

  /** The extension routed to nvcc. */
  const KernelExt := ".cu"

  /** The two kinds of source the dispatcher tells apart. */
  datatype SourceKind = HostSource | KernelSource

  function KindOf(src: string): (r: SourceKind)
    ensures r == KernelSource ==> |src| > |KernelExt| && src[|src| - |KernelExt|..] == KernelExt
  {
    if Ext(src) == KernelExt then KernelSource else HostSource
  }

  /** One call of the underlying single-file compile, with the command it ran under. */
  datatype Invocation = Invocation(
    executable: seq<string>,
    obj: string,
    src: string,
    ext: string,
    ccArgs: seq<string>,
    postargs: seq<string>,
    ppOpts: seq<string>)

  /**
   * The part of the compiler object the dispatcher touches: the source extensions it
   * accepts, the compile command compiler_so, and a record of the compiles it has run.
   */
  class CCompiler {
    var srcExtensions: seq<string>
    var compilerSo: seq<string>
    var log: seq<Invocation>

    constructor(srcExtensions: seq<string>, compilerSo: seq<string>)
      ensures this.srcExtensions == srcExtensions && this.compilerSo == compilerSo && log == []
    {
      this.srcExtensions := srcExtensions;
      this.compilerSo := compilerSo;
      log := [];
    }

    /** set_executable("compiler_so", exe) for a path without blanks: the command is that path alone. */
    method SetExecutable(exe: string)
      modifies this`compilerSo
      ensures compilerSo == [exe]
    {
      compilerSo := [exe];
    }

    /**
     * The original single-file compile: runs compilerSo on src. Whether the external
     * compiler succeeds is an input; either way the call is recorded.
     */
    method SuperCompile(obj: string, src: string, ext: string, ccArgs: seq<string>,
                        postargs: seq<string>, ppOpts: seq<string>, succeeds: bool) returns (ok: bool)
      modifies this`log
      ensures log == old(log) + [Invocation(compilerSo, obj, src, ext, ccArgs, postargs, ppOpts)]
      ensures ok == succeeds
    {
      log := log + [Invocation(compilerSo, obj, src, ext, ccArgs, postargs, ppOpts)];
      ok := succeeds;
    }
  }

  /** custom_build_ext, reduced to the state of the nvcc customization. */
  class CustomBuildExt {
    const compiler: CCompiler
    /** CUDA["nvcc"], the located compiler. */
    const nvcc: string
    const nvccFlags: seq<string>
    const compilerFlags: seq<string>
    /** Whether the compiler's single-file compile has been replaced by the dispatching one. */
    var customized: bool
    /** compiler_so as captured by the customization. */
    var defaultCompilerSo: seq<string>

    constructor(compiler: CCompiler, nvcc: string, nvccFlags: seq<string>, compilerFlags: seq<string>)
      ensures this.compiler == compiler && this.nvcc == nvcc
      ensures this.nvccFlags == nvccFlags && this.compilerFlags == compilerFlags
      ensures !customized
    {
      this.compiler := compiler;
      this.nvcc := nvcc;
      this.nvccFlags := nvccFlags;
      this.compilerFlags := compilerFlags;
      customized := false;
      defaultCompilerSo := [];
    }

    /** The command a customized compile of src runs under: nvcc for kernels, the default otherwise. */
    function Executable(src: string): seq<string>
      reads this
    {
      match KindOf(src)
      case KernelSource => [nvcc]
      case HostSource => defaultCompilerSo
    }

    /** The post-arguments a customized compile of src passes: the flag set of the chosen compiler. */
    function PostArgs(src: string): seq<string>
      reads this
    {
      match KindOf(src)
      case KernelSource => nvccFlags
      case HostSource => compilerFlags
    }

    /** The default command is in place and the dispatching compile is installed. */
    predicate Restored()
      reads this, compiler
    {
      customized && compiler.compilerSo == defaultCompilerSo
    }

    /** _customize_compiler_for_nvcc: accept .cu sources, capture compiler_so, install the dispatching compile. */
    method CustomizeCompilerForNvcc()
      modifies this, compiler`srcExtensions
      ensures customized && defaultCompilerSo == compiler.compilerSo
      ensures compiler.srcExtensions == old(compiler.srcExtensions) + [KernelExt]
      ensures compiler.compilerSo == old(compiler.compilerSo) && compiler.log == old(compiler.log)
      ensures Restored()
    {
      compiler.srcExtensions := compiler.srcExtensions + [KernelExt];
      defaultCompilerSo := compiler.compilerSo;
      customized := true;
    }

    /**
     * compiler._compile as installed. Once customized, the call runs under Executable(src)
     * with PostArgs(src), dropping the caller's extra post-arguments and passing ccArgs and
     * ppOpts through; after a successful compile compiler_so is the default again, after a
     * failed one it is still the command the compile ran under. Before the customization
     * the original compile runs unchanged.
     */
    method Compile(obj: string, src: string, ext: string, ccArgs: seq<string>,
                   extraPostargs: seq<string>, ppOpts: seq<string>, succeeds: bool) returns (ok: bool)
      modifies compiler`compilerSo, compiler`log
      ensures ok == succeeds
      ensures compiler.log == old(compiler.log) + [
        if customized then Invocation(Executable(src), obj, src, ext, ccArgs, PostArgs(src), ppOpts)
        else Invocation(old(compiler.compilerSo), obj, src, ext, ccArgs, extraPostargs, ppOpts)]
      ensures compiler.compilerSo ==
        if !customized then old(compiler.compilerSo)
        else if ok then defaultCompilerSo
        else Executable(src)
      ensures customized && ok ==> Restored()
    {
      if !customized {
        ok := compiler.SuperCompile(obj, src, ext, ccArgs, extraPostargs, ppOpts, succeeds);
      } else {
        ok := DispatchingCompile(obj, src, ext, ccArgs, ppOpts, succeeds);
      }
    }

    /** The closure _compile installed by the customization. */
    method DispatchingCompile(obj: string, src: string, ext: string, ccArgs: seq<string>,
                              ppOpts: seq<string>, succeeds: bool) returns (ok: bool)
      modifies compiler`compilerSo, compiler`log
      ensures ok == succeeds
      ensures compiler.log == old(compiler.log) + [Invocation(Executable(src), obj, src, ext, ccArgs, PostArgs(src), ppOpts)]
      ensures compiler.compilerSo == if ok then defaultCompilerSo else Executable(src)
    {
      var postargs: seq<string>;
      if KindOf(src) == KernelSource {
        compiler.SetExecutable(nvcc);
        postargs := nvccFlags;
      } else {
        compiler.compilerSo := defaultCompilerSo;
        postargs := compilerFlags;
      }
      ok := compiler.SuperCompile(obj, src, ext, ccArgs, postargs, ppOpts, succeeds);
      if ok {
        compiler.compilerSo := defaultCompilerSo;
      }
    }
  }

  /** How the file names used below are routed. */
  lemma HostExampleKinds()
    ensures KindOf("host.cpp") == HostSource && KindOf("host2.cpp") == HostSource
  {
    ExtOfAppend("host", ".cpp");
    assert "host" + ".cpp" == "host.cpp";
    ExtOfAppend("host2", ".cpp");
    assert "host2" + ".cpp" == "host2.cpp";
  }

  lemma KernelExampleKind()
    ensures KindOf("kernel.cu") == KernelSource
  {
    ExtOfAppend("kernel", ".cu");
    assert "kernel" + ".cu" == "kernel.cu";
  }

  /** The plan's kernel source goes to nvcc. */
  lemma KernelSourceIsKernel()
    ensures KindOf(Plan.KernelSource) == KernelSource
  {
    ExtOfAppend("../includes/kernels", ".cu");
    assert "../includes/kernels" + ".cu" == Plan.KernelSource;
  }

  /** The plan's other sources go to the host compiler. */
  lemma BaseSourcesAreHost()
    ensures KindOf(Plan.BaseSources[0]) == HostSource
    ensures KindOf(Plan.BaseSources[1]) == HostSource
    ensures |Plan.BaseSources| == 2
  {
    HostByExt("RangeLibc", ".pyx");
    assert "RangeLibc" + ".pyx" == Plan.BaseSources[0];
    HostByExt("../vendor/lodepng/lodepng", ".cpp");
    assert "../vendor/lodepng/lodepng" + ".cpp" == Plan.BaseSources[1];
  }

  /** A stem followed by an extension other than ".cu" names a host source. */
  lemma HostByExt(stem: string, e: string)
    requires |e| >= 1 && e[0] == ExtSep && ExtSep !in e[1..] && Sep !in e && e != KernelExt
    requires |stem| >= 1 && stem[|stem| - 1] != Sep && stem[|stem| - 1] != ExtSep
    ensures KindOf(stem + e) == HostSource
  {
    ExtOfAppend(stem, e);
  }

  /** A file named just ".cu" has no extension (leading dots belong to the name) and goes to the host compiler. */
  lemma BareDotCuIsHost()
    ensures KindOf(KernelExt) == HostSource
  {
    LastIndexOfUnique(KernelExt, Sep, -1);
    LastIndexOfUnique(KernelExt, ExtSep, 0);
  }

  /**
   * Compiling host.cpp, kernel.cu and host2.cpp in turn: the kernel goes to nvcc with the
   * nvcc flags, both host files to the captured default with the host flags, the caller's
   * post-arguments are never used, and the default is in place at the end.
   */
  method HostKernelHost(defaultSo: seq<string>, nvcc: string, nvccFlags: seq<string>, compilerFlags: seq<string>)
    returns (log: seq<Invocation>, finalSo: seq<string>)
    ensures |log| == 3
    ensures log[0].executable == defaultSo && log[0].postargs == compilerFlags && log[0].src == "host.cpp"
    ensures log[1].executable == [nvcc] && log[1].postargs == nvccFlags && log[1].src == "kernel.cu"
    ensures log[2].executable == defaultSo && log[2].postargs == compilerFlags && log[2].src == "host2.cpp"
    ensures finalSo == defaultSo
  {
    HostExampleKinds();
    KernelExampleKind();
    var cc := new CCompiler([".c", ".cc", ".cpp", ".cxx"], defaultSo);
    var b := new CustomBuildExt(cc, nvcc, nvccFlags, compilerFlags);
    b.CustomizeCompilerForNvcc();
    var ok := b.Compile("host.o", "host.cpp", ".cpp", [], ["-ignored"], [], true);
    assert cc.log == [Invocation(defaultSo, "host.o", "host.cpp", ".cpp", [], compilerFlags, [])];
    assert cc.compilerSo == defaultSo;
    ok := b.Compile("kernel.o", "kernel.cu", ".cu", [], ["-ignored"], [], true);
    assert cc.log[1] == Invocation([nvcc], "kernel.o", "kernel.cu", ".cu", [], nvccFlags, []);
    assert cc.compilerSo == defaultSo;
    ok := b.Compile("host2.o", "host2.cpp", ".cpp", [], ["-ignored"], [], true);
    log := cc.log;
    finalSo := cc.compilerSo;
  }

  /**
   * A failed kernel compile leaves compiler_so pointing at nvcc, yet the next host file
   * still compiles with the default, because the host branch sets compiler_so itself.
   */
  method FailedKernelThenHost(defaultSo: seq<string>, nvcc: string, nvccFlags: seq<string>, compilerFlags: seq<string>)
    returns (soAfterFailure: seq<string>, log: seq<Invocation>)
    ensures soAfterFailure == [nvcc]
    ensures |log| == 2 && log[0].executable == [nvcc] && log[1].executable == defaultSo
    ensures log[1].postargs == compilerFlags
  {
    HostExampleKinds();
    KernelExampleKind();
    var cc := new CCompiler([".c", ".cc", ".cpp", ".cxx"], defaultSo);
    var b := new CustomBuildExt(cc, nvcc, nvccFlags, compilerFlags);
    b.CustomizeCompilerForNvcc();
    var ok := b.Compile("kernel.o", "kernel.cu", ".cu", [], [], [], false);
    soAfterFailure := cc.compilerSo;
    ok := b.Compile("host.o", "host.cpp", ".cpp", [], [], [], true);
    log := cc.log;
  }
}
