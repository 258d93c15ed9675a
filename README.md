# range_libc build orchestration, modelled in Dafny

This project models the decision core of `pywrapper/setup.py`, the build script of the
range_libc Python extension. The script compiles C++ sources, plus an optional CUDA kernel,
into one module. The model covers four parts:

- **Flag resolution** (`Flags`). `check_for_flag` reads a variable such as `WITH_CUDA` or
  `TRACE` from the environment. The flag is on iff the lowered value is `"on"`. It reports
  the outcome as printed lines.
- **Toolkit discovery** (`Toolkit`). `find_in_path` scans `PATH` for `nvcc`. `locate_cuda`
  tries, in order, `/usr/local/cuda-10.2`, `/usr/local/cuda`, `$CUDAHOME` and the `PATH`
  search. It then checks that `home`, `nvcc`, `include` and `lib64` all exist.
- **Build plan** (`Plan`). These are the module-level lists of host flags, nvcc flags,
  include directories and sources. The CUDA defines, the kernel source, the toolkit's include
  directory and the trace define are appended to them.
- **Compiler dispatch** (`Dispatch`). `custom_build_ext` swaps the compiler object's
  `compiler_so` to nvcc for `.cu` files. It swaps it back to the captured default for every
  other file, and restores the default after each call that returns normally.

The environment is a `map<string, string>`. The filesystem is a snapshot with two sets:
paths that exist, and paths that are directories. The empty path neither exists nor is a
directory, whatever the sets hold, so `CUDAHOME=""` fails on the home check. `os.path.join`, `dirname`, `splitext` and
`str.split` are written out with their POSIX behaviour in `Paths`. The external compiler is
a recorded call whose success is an input.

Where the code behaves differently from what one might expect, the model follows the code:

- The compile wrapper resets `compiler_so` only after a compile that returns. The reset is
  not in a `finally`, so a failing compile leaves nvcc in place. `CustomBuildExt.Compile`
  says so. `FailedKernelThenHost` shows that the next host file still uses the default,
  because the host branch sets `compiler_so` itself.
- The plan appends only the toolkit's include directory. The library directories and
  `cudart` are arguments of the `Extension` call, which is not modelled.
- `locate_cuda` has a third failure besides "not found" and "invalid": reading `PATH`
  raises when `PATH` is unset. It is modelled as `PathUnset`.

## Model

| member | source | states |
|---|---|---|
| Flags.LowerIsOn | pywrapper/setup.py:15 | lowering a value gives exactly "on" iff it is one of "on", "On", "oN", "ON" |
| Flags.CheckForFlag | pywrapper/setup.py:13-24 | enabled iff the variable is set and spells "on" in any case; unset means disabled, never an error; prints the true message when enabled and the false message plus the enable hint when disabled, unless that message is False |
| Flags.CaseInsensitive | pywrapper/setup.py:14-17 | the four spellings of "on" enable; "1", "true", "" and "onn" do not |
| Flags.FlagReadsOnlyItsVariable | pywrapper/setup.py:14-17 | the result depends on the flag's own variable alone |
| Flags.EmptyMessageIsPrinted | pywrapper/setup.py:19-23 | an empty message is not False and is still printed; only False suppresses |
| Flags.ResolveFlags | pywrapper/setup.py:27-34 | use_cuda and trace are the WITH_CUDA and TRACE flags; the output is the CUDA message (or the no-CUDA message and its enable hint), then the trace message (or the no-trace message and its enable hint), then the banner, in that order and with those exact texts |
| Paths.Split | pywrapper/setup.py:42 | `str.split` always yields at least one piece, even for an empty PATH |
| Paths.SplitWithoutSep | pywrapper/setup.py:42 | a PATH without ':' is a single entry, itself |
| Paths.SplitJoin | pywrapper/setup.py:42 | splitting PATH at ':' loses nothing: no piece holds ':' and joining the pieces gives PATH back |
| Paths.JoinShape | pywrapper/setup.py:43 | `posixpath.join`: an absolute second part is the result; otherwise the result is the first part, at most one '/', then the second part, and the '/' is inserted exactly when the first part is nonempty and lacks a trailing one |
| Paths.DirnameShape | pywrapper/setup.py:63 | `posixpath.dirname` is a prefix of the path, is empty for a path without '/', and ends in '/' only when it is all separators |
| Paths.DirnameIsHead | pywrapper/setup.py:63 | for a path with a '/', `posixpath.dirname` is nonempty and is the text up to the last '/' less only its trailing separators, or that whole text when it is all separators |
| Paths.DirnameOfJoin | pywrapper/setup.py:63 | dirname of dir/name is dir again, for a plain name and a dir without a trailing '/' |
| Paths.Ext | pywrapper/setup.py:104 | `splitext(...)[1]` is empty or a proper suffix of the path starting with '.'; it is empty for a path without '.', and a nonempty one is preceded in the last component by a character other than '.', so leading dots of a name belong to it |
| Paths.ExtIsSuffix | pywrapper/setup.py:104 | a nonempty extension is a suffix of the path that starts with the only dot in it and holds no '/' |
| Paths.ExtOfAppend | pywrapper/setup.py:104 | stem + ext has extension ext when the stem ends in a character other than '/' or '.' |
| Toolkit.FirstOnPathIsFirstMatch | pywrapper/setup.py:41-46 | the search yields None iff no PATH entry holds the name; otherwise it yields the joined path of the first entry that does, and that path exists |
| Toolkit.FindInPath | pywrapper/setup.py:41-46 | the loop with early return over the split PATH computes the first match |
| Toolkit.LocateCuda | pywrapper/setup.py:49-70 | the if/elif chain and the check loop over cudaconfig compute the located configuration or the raised error |
| Toolkit.FirstMissingIsFirst | pywrapper/setup.py:66-68 | validation reports nothing iff every entry exists, and otherwise the first entry, in order, whose path does not exist |
| Toolkit.ValidateInOrder | pywrapper/setup.py:65-68 | the entries are checked in the order home, nvcc, include, lib64, and the first missing one is named with its path |
| Toolkit.LocateOkIsValid | pywrapper/setup.py:65-70 | success iff a root was found and all four paths exist; include and lib64 are always home/include and home/lib64 |
| Toolkit.LocateNamesFirstMissing | pywrapper/setup.py:65-68 | each missing entry is reported exactly when all entries before it exist; a failure after discovery is always a missing-path error |
| Toolkit.LocatePriority | pywrapper/setup.py:50-63 | strict priority: pinned directory, else unversioned directory, else $CUDAHOME, each with home/bin/nvcc; else the PATH search, whose home is the parent of the parent of the nvcc found |
| Toolkit.NoMergingAcrossSources | pywrapper/setup.py:50-58 | an existing default directory makes the environment irrelevant; the same $CUDAHOME gives the same result whatever PATH holds |
| Toolkit.LocateNotFound | pywrapper/setup.py:59-62 | "nvcc not found" iff neither default directory exists, CUDAHOME is unset, PATH is set and no entry holds nvcc; the message names $CUDAHOME |
| Toolkit.NotFoundNamesHomeVar | pywrapper/setup.py:62 | the not-found message names both $CUDAHOME and $PATH |
| Toolkit.ParentOfBinNvcc | pywrapper/setup.py:52-63 | the parent of the parent of root/bin/nvcc is root, for a root without a trailing '/' |
| Toolkit.PathSearchAgreesWithHomeVar | pywrapper/setup.py:59-65 | finding root/bin/nvcc on PATH gives the same result as setting CUDAHOME to root, with home equal to root, for an absolute, normalised root (the script makes the PATH result absolute, the model does not) |
| Plan.MakePlan | pywrapper/setup.py:73-90 | the in-place construction yields the plan for (use_cuda, trace) with the located toolkit, or the lookup's error when CUDA is on and the toolkit is not found or invalid |
| Plan.PlanKeepsBase | pywrapper/setup.py:73-77 | the base host flags, nvcc flags, include directories and sources stay exact prefixes of the final lists |
| Plan.PlanWithCuda | pywrapper/setup.py:79-87 | with CUDA the three defines follow the base flags of both compilers in the same order, the kernel is the last source and the toolkit include directory the last include directory |
| Plan.PlanWithoutCuda | pywrapper/setup.py:82-87 | without CUDA the sources, include directories and nvcc flags are the base lists and no CUDA define appears |
| Plan.PlanTrace | pywrapper/setup.py:89-90 | trace appends exactly one define, last, to the host flags only; without it the define is absent; nvcc flags never change with trace |
| Plan.FlagsDependOnlyOnSwitches | pywrapper/setup.py:79-90 | both flag lists are a function of the pair (use_cuda, trace) alone |
| Plan.CompilerFlagsDistinct | pywrapper/setup.py:73 | the host flag list never holds a flag twice |
| Plan.NvccFlagsDistinct | pywrapper/setup.py:74 | the nvcc flag list never holds a flag twice |
| Plan.TraceDefineIsNew | pywrapper/setup.py:83-90 | the trace define is none of the CUDA defines and none of the base flags |
| Dispatch.CCompiler.SetExecutable | pywrapper/setup.py:106 | setting compiler_so to a path makes the command that path alone |
| Dispatch.CCompiler.SuperCompile | pywrapper/setup.py:101 | the original compile records one call under the current compiler_so |
| Dispatch.CustomBuildExt.CustomizeCompilerForNvcc | pywrapper/setup.py:98-114 | .cu is appended to the source extensions, the current compiler_so is captured as the default and the dispatching compile is installed; nothing else changes |
| Dispatch.CustomBuildExt.DispatchingCompile | pywrapper/setup.py:103-112 | a .cu source runs under nvcc with the nvcc flags, any other under the captured default with the host flags; cc_args and pp_opts pass through; compiler_so is the default after success and still the chosen command after failure |
| Dispatch.CustomBuildExt.Compile | pywrapper/setup.py:103-114 | the compile the compiler object calls: before customization the original one with the caller's extra post-arguments, after it the dispatching one, which drops them and leaves the default compiler_so in place after a successful compile |
| Dispatch.KindOf | pywrapper/setup.py:104-105 | a source is routed to nvcc only when its name ends in ".cu" after a nonempty stem |
| Dispatch.KernelSourceIsKernel | pywrapper/setup.py:87 | the plan's kernel source is routed to nvcc |
| Dispatch.HostByExt | pywrapper/setup.py:104-105 | a stem followed by an extension other than ".cu" is routed to the host compiler |
| Dispatch.BaseSourcesAreHost | pywrapper/setup.py:77 | the plan's .pyx and .cpp sources are routed to the host compiler |
| Dispatch.BareDotCuIsHost | pywrapper/setup.py:104-105 | a file named just ".cu" has no extension and is routed to the host compiler |
| Dispatch.HostKernelHost | pywrapper/setup.py:103-112 | in host.cpp, kernel.cu, host2.cpp the third compile uses the default compiler and host flags again, and the default is in place at the end |
| Dispatch.FailedKernelThenHost | pywrapper/setup.py:106-112 | a failed kernel compile leaves compiler_so at nvcc, and the next host compile still uses the default |

## Left out

- The numpy include lookup (lines 7-10) is library probing. Its result is the `numpyInclude` parameter of the plan.
- The macOS environment changes (lines 36-38) are platform probing and are not modelled.
- The `setup()` and `Extension` calls and the `build_extensions` wiring (lines 93-96, 117-154) are packaging calls into setuptools. This includes the library directories, `cudart` and the runtime library directories.
- Compiling the sources in order and linking are done by setuptools' `build_ext`, which is foreign code. So the stop after the first failing compile is not modelled. The real compile is a recorded call whose success is an input.
- The print of the located configuration (line 69) is operator output. It is not in the model's output. The flag messages and the banner are.
- Toolkit.FindInPath: returns `dir/nvcc` as joined. `os.path.abspath` is not modelled, so a relative PATH entry gives a relative result.
- Toolkit.LocateCuda: because the PATH result is not made absolute, home is two `dirname` steps above the joined path as written. A relative entry such as `bin` holding nvcc gives home `""`, which fails the home check, where the script would use the working directory. An entry such as `/opt/cuda/bin/.` gives home `/opt/cuda/bin` instead of `/opt/cuda`.
- Dispatch.CCompiler.SetExecutable: `set_executable` passes a string through `split_quoted`, which splits at blanks, strips quotes and backslash escapes, and raises `ValueError` on an unmatched quote. The model keeps the path as one word, so a path with blanks, quotes or backslashes behaves differently.
- Flags.LowerIsOn: `str.lower` is modelled on ASCII letters only. No other character lowercases to 'o' or 'n', so whether a flag is on is unaffected.
- Flags.CheckForFlag: `Suppressed` stands for any argument equal to False (False or 0). Other non-string arguments are not modelled.
- Dispatch.CustomBuildExt.CustomizeCompilerForNvcc: a second call would wrap the already wrapped compile. The model keeps a single layer with the default captured again.
- Python's insertion order of the `cudaconfig` dictionary is taken as given: home, nvcc, include, lib64.
