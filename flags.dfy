/**
 * Feature-flag resolution (check_for_flag) and the two flags the build script
 * reads at start-up, WITH_CUDA and TRACE. The environment is a finite map from
 * variable names to values; what the script prints is returned as a list of lines.
 */
module Flags {

  type Environment = map<string, string>

  /**
   * A message argument of check_for_flag: a string is printed (the empty string
   * prints an empty line); only an argument equal to False suppresses the message.
   */
  datatype Message = Suppressed | Text(text: string)

  datatype FlagResult = FlagResult(enabled: bool, output: seq<string>)

  /** str.lower on one character, for the ASCII letters. */
  function LowerChar(c: char): char
  {
    if 'A' <= c <= 'Z' then (c as int - 'A' as int + 'a' as int) as char else c
  }

  /** str.lower on a string, character by character. */
  function Lower(s: string): string
  {
    seq(|s|, k requires 0 <= k < |s| => LowerChar(s[k]))
  }

  /** The value spells "on" in any mix of letter cases. */
  predicate IsOnIgnoringCase(v: string)
  {
    |v| == 2 && (v[0] == 'o' || v[0] == 'O') && (v[1] == 'n' || v[1] == 'N')
  }

  /** Lowering a value gives exactly "on" iff the value is one of "on", "On", "oN", "ON". */
  lemma LowerIsOn(v: string)
    ensures Lower(v) == "on" <==> IsOnIgnoringCase(v)
  {
    if IsOnIgnoringCase(v) {
      assert Lower(v)[0] == 'o' && Lower(v)[1] == 'n';
    }
    if Lower(v) == "on" {
      assert |v| == |Lower(v)| == 2;
      assert Lower(v)[0] == LowerChar(v[0]) == 'o';
      assert Lower(v)[1] == LowerChar(v[1]) == 'n';
    }
  }

  /** The line that tells the operator how to turn a disabled flag on. */
  function EnableHint(flag: string): string
  {
    "   $ sudo " + flag + "=ON python setup.py install"
  }

  /**
   * check_for_flag: a flag is on iff its variable is set and its lowered value is "on";
   * an unset variable is a normal "off", never an error. The true message is printed
   * when the flag is on, the false message and the hint when it is off.
   */
  function CheckForFlag(env: Environment, flag: string, trueMsg: Message, falseMsg: Message): (r: FlagResult)
    ensures r.enabled <==> flag in env && IsOnIgnoringCase(env[flag])
    ensures flag !in env ==> !r.enabled
    ensures r.enabled ==> r.output == (if trueMsg.Text? then [trueMsg.text] else [])
    ensures !r.enabled ==> r.output == (if falseMsg.Text? then [falseMsg.text, EnableHint(flag)] else [])
  {
    var enabled := if flag in env then (LowerIsOn(env[flag]); Lower(env[flag]) == "on") else false;
    var output :=
      if enabled && trueMsg != Suppressed then [trueMsg.text]
      else if !enabled && falseMsg != Suppressed then [falseMsg.text, EnableHint(flag)]
      else [];
    FlagResult(enabled, output)
  }

  const CudaFlag := "WITH_CUDA"
  const TraceFlag := "TRACE"
  const Banner := "\n--------------\n"

  datatype Flags = Flags(useCuda: bool, trace: bool, output: seq<string>)

  /** The start-up resolution: WITH_CUDA, then TRACE, then the banner line. */
  function ResolveFlags(env: Environment): (r: Flags)
    ensures r.useCuda <==> CudaFlag in env && IsOnIgnoringCase(env[CudaFlag])
    ensures r.trace <==> TraceFlag in env && IsOnIgnoringCase(env[TraceFlag])
    ensures |r.output| == (if r.useCuda then 1 else 2) + (if r.trace then 1 else 2) + 1
    ensures r.output[|r.output| - 1] == Banner
    ensures r.output ==
      (if r.useCuda then ["Compiling with CUDA support"]
       else ["Compiling without CUDA support. To enable CUDA use:", EnableHint(CudaFlag)])
      + (if r.trace then ["Compiling with trace enabled for Bresenham's Line"]
         else ["Compiling without trace enabled for Bresenham's Line", EnableHint(TraceFlag)])
      + [Banner]
  {
    var cuda := CheckForFlag(env, CudaFlag,
      Text("Compiling with CUDA support"),
      Text("Compiling without CUDA support. To enable CUDA use:"));
    var trace := CheckForFlag(env, TraceFlag,
      Text("Compiling with trace enabled for Bresenham's Line"),
      Text("Compiling without trace enabled for Bresenham's Line"));
    Flags(cuda.enabled, trace.enabled, cuda.output + trace.output + [Banner])
  }

  /** Case-insensitivity: the four spellings of "on" all enable; "1", "true", "" and "onn" do not. */
  lemma CaseInsensitive(env: Environment, flag: string)
    ensures CheckForFlag(env[flag := "on"], flag, Suppressed, Suppressed).enabled
    ensures CheckForFlag(env[flag := "On"], flag, Suppressed, Suppressed).enabled
    ensures CheckForFlag(env[flag := "oN"], flag, Suppressed, Suppressed).enabled
    ensures CheckForFlag(env[flag := "ON"], flag, Suppressed, Suppressed).enabled
    ensures !CheckForFlag(env[flag := "1"], flag, Suppressed, Suppressed).enabled
    ensures !CheckForFlag(env[flag := "true"], flag, Suppressed, Suppressed).enabled
    ensures !CheckForFlag(env[flag := ""], flag, Suppressed, Suppressed).enabled
    ensures !CheckForFlag(env[flag := "onn"], flag, Suppressed, Suppressed).enabled
  {
  }

  /** The outcome depends on the flag's own variable alone. */
  lemma FlagReadsOnlyItsVariable(env1: Environment, env2: Environment, flag: string, t: Message, f: Message)
    requires (flag in env1 <==> flag in env2)
    requires flag in env1 ==> env1[flag] == env2[flag]
    ensures CheckForFlag(env1, flag, t, f) == CheckForFlag(env2, flag, t, f)
  {
  }

  /** An empty message string is not False: it is still printed, as an empty line. */
  lemma EmptyMessageIsPrinted(env: Environment, flag: string)
    requires flag !in env
    ensures CheckForFlag(env, flag, Text(""), Text("")).output == ["", EnableHint(flag)]
    ensures CheckForFlag(env, flag, Text(""), Suppressed).output == []
  {
  }
}
