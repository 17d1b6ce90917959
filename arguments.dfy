/**
 * The argument vectors the driver hands to Clang and to llvm-link, and readers
 * that recover the request from a vector: each layout is unambiguous.
 */
module Arguments {
  import opened Wrappers
  import opened Toolchain

  /** The flags every Clang invocation starts with (note "-x cl" is one element). */
  function CommonArgs(): seq<string>
  {
    ["-x cl", "-Xclang", "-cl-std=CL1.2", "-v"]
  }

  /** Compile one input to LLVM bitcode. */
  function CompileArgs(input: string, output: string, options: seq<string>): seq<string>
  {
    CommonArgs() + ["-c", "-emit-llvm", input, "-o", output] + options
  }

  /** Compile and link one input to an executable. */
  function CompileAndLinkArgs(input: string, output: string, options: seq<string>): seq<string>
  {
    CommonArgs() + [input, "-o", output] + options
  }

  /** The arguments given to llvm-link: the inputs, then "-o" and the output, then the options. */
  function LinkArgs(inputs: seq<string>, output: string, options: seq<string>): seq<string>
  {
    inputs + ["-o", output] + options
  }

  function Wrap(args: seq<string>): (r: seq<CArg>)
    ensures |r| == |args|
  {
    seq(|args|, i requires 0 <= i < |args| => Arg(args[i]))
  }

  /** The C argument vector of the llvm-link process: program, "-v", the arguments, null. */
  function LinkArgv(program: string, args: seq<string>): seq<CArg>
  {
    [Arg(program), Arg("-v")] + Wrap(args) + [Null]
  }

  /** What a single-input Clang request names. */
  datatype Request = Request(input: string, output: string, options: seq<string>)

  function ParseCompileArgs(args: seq<string>): Option<Request>
  {
    if |args| >= 9 && args[..6] == CommonArgs() + ["-c", "-emit-llvm"] && args[7] == "-o"
    then Some(Request(args[6], args[8], args[9..]))
    else None
  }

  function ParseCompileAndLinkArgs(args: seq<string>): Option<Request>
  {
    if |args| >= 7 && args[..4] == CommonArgs() && args[5] == "-o"
    then Some(Request(args[4], args[6], args[7..]))
    else None
  }

  /** The compile layout: common flags, "-c", "-emit-llvm", input, "-o", output, options; and nothing else reads back. */
  lemma CompileArgsRoundTrip(input: string, output: string, options: seq<string>, args: seq<string>)
    ensures ParseCompileArgs(CompileArgs(input, output, options)) == Some(Request(input, output, options))
    ensures ParseCompileArgs(args) == Some(Request(input, output, options)) ==> args == CompileArgs(input, output, options)
  {
    var a := CompileArgs(input, output, options);
    assert a[..6] == CommonArgs() + ["-c", "-emit-llvm"];
    assert a[9..] == options;
    if ParseCompileArgs(args) == Some(Request(input, output, options)) {
      assert args == args[..6] + [args[6], args[7], args[8]] + args[9..];
    }
  }

  /** The compile-and-link layout: common flags, input, "-o", output, options; and nothing else reads back. */
  lemma CompileAndLinkArgsRoundTrip(input: string, output: string, options: seq<string>, args: seq<string>)
    ensures ParseCompileAndLinkArgs(CompileAndLinkArgs(input, output, options)) == Some(Request(input, output, options))
    ensures ParseCompileAndLinkArgs(args) == Some(Request(input, output, options)) ==>
            args == CompileAndLinkArgs(input, output, options)
  {
    var a := CompileAndLinkArgs(input, output, options);
    assert a[..4] == CommonArgs();
    assert a[7..] == options;
    if ParseCompileAndLinkArgs(args) == Some(Request(input, output, options)) {
      assert args == args[..4] + [args[4], args[5], args[6]] + args[7..];
    }
  }

  /** A compile vector is never a compile-and-link vector: the element after the common flags differs. */
  lemma CompileAndLinkArgsDiffer(i1: string, o1: string, opts1: seq<string>, i2: string, o2: string, opts2: seq<string>)
    ensures CompileArgs(i1, o1, opts1) != CompileAndLinkArgs(i2, o2, opts2)
  {
    assert CompileArgs(i1, o1, opts1)[5] == "-emit-llvm";
    assert CompileAndLinkArgs(i2, o2, opts2)[5] == "-o";
  }

  /**
   * The link layout: with n inputs, the first n arguments are the inputs in order,
   * then "-o" and the output, then the options.
   */
  lemma LinkArgsLayout(inputs: seq<string>, output: string, options: seq<string>)
    ensures var a := LinkArgs(inputs, output, options);
            |a| == |inputs| + 2 + |options| &&
            a[..|inputs|] == inputs && a[|inputs|] == "-o" && a[|inputs| + 1] == output &&
            a[|inputs| + 2..] == options
  {
  }

  /**
   * The spawned program receives the program path, "-v" and exactly the given
   * arguments, and the vector is terminated by its only null.
   */
  lemma LinkArgvLayout(program: string, args: seq<string>)
    ensures var v := LinkArgv(program, args);
            |v| == |args| + 3 && v[0] == Arg(program) && v[1] == Arg("-v") &&
            (forall i :: 0 <= i < |args| ==> v[i + 2] == Arg(args[i])) &&
            v[|v| - 1] == Null && (forall i :: 0 <= i < |v| - 1 ==> v[i].Arg?)
  {
  }
}
