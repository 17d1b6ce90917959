/**
 * The AMDGPU compiler object: it allocates artifacts into a list it owns, names
 * temp files from a process-wide counter, builds Clang and llvm-link argument
 * vectors and orchestrates single- and multi-input compiles.  Each toolchain call
 * is recorded in the ghost trace `calls`, so the methods' contracts say exactly
 * which calls are made, in which order.
 */
module AmdCompiler {
  import opened Wrappers
  import opened Toolchain
  import opened Artifacts
  import opened Arguments
  import opened StatusFold
  import opened TempNames
  import opened Pipeline

  /** The function-local static counter of NewTempFile, shared by every compiler in the process. */
  class TempCounter {
    var value: nat

    constructor()
      ensures value == 1
    {
      value := 1;
    }
  }

  class AMDGPUCompiler {
    const driver: ClangDriver
    const llvmLinkExe: string
    const counter: TempCounter
    var datas: seq<Data>
    ghost var calls: seq<Invocation>

    constructor(llvmBin: string, counter: TempCounter)
      ensures driver == ClangDriver(llvmBin + "/clang", TargetName("amdgcn-amd-amdhsa"), DriverTitle, false)
      ensures llvmLinkExe == llvmBin + "/llvm-link"
      ensures this.counter == counter
      ensures datas == [] && calls == []
    {
      driver := ClangDriver(llvmBin + "/clang", TargetName("amdgcn-amd-amdhsa"), DriverTitle, false);
      llvmLinkExe := llvmBin + "/llvm-link";
      this.counter := counter;
      datas := [];
      calls := [];
    }

    /** The accumulated diagnostics: this compiler never collects any. */
    function Output(): (s: string)
      ensures |s| == 0
    {
      ""
    }

    /** Appends the flags every Clang invocation starts with, keeping what is already there. */
    method AddCommonArgs(args: seq<string>) returns (r: seq<string>)
      ensures |r| == |args| + 4 && r[..|args|] == args
      ensures r[|args|..] == ["-x cl", "-Xclang", "-cl-std=CL1.2", "-v"]
    {
      r := args;
      r := r + ["-x cl"];
      r := r + ["-Xclang"];
      r := r + ["-cl-std=CL1.2"];
      r := r + ["-v"];
    }

    /** The unchecked cast of an input artifact to a file: the artifact must be one. */
    function ToInputFile(input: Data): (f: Data)
      requires input.File?
      ensures f.File? && f.name == input.name && f.Type() == input.Type()
    {
      input
    }

    /** The unchecked cast of an output artifact to a file: the artifact must be one. */
    function ToOutputFile(output: Data): (f: Data)
      requires output.File?
      ensures f.File? && f.name == output.name && f.Type() == output.Type()
    {
      output
    }

    /** Takes ownership of an artifact: it is appended to the owned list and handed back. */
    method AddData(d: Data) returns (r: Data)
      modifies this`datas
      ensures r == d && datas == old(datas) + [d]
    {
      datas := datas + [d];
      r := d;
    }

    method NewInputFile(dataType: DataType, path: string) returns (f: Data)
      modifies this`datas
      ensures f.File? && f.Type() == dataType && f.name == path && f.IsReadOnly()
      ensures datas == old(datas) + [f]
    {
      f := AddData(MakeFile(dataType, path, true));
    }

    method NewOutputFile(dataType: DataType, path: string) returns (f: Data)
      modifies this`datas
      ensures f.File? && f.Type() == dataType && f.name == path && !f.IsReadOnly()
      ensures datas == old(datas) + [f]
    {
      f := AddData(MakeFile(dataType, path, false));
    }

    /** A read-only temp file named after the counter, which moves on by one. */
    method NewTempFile(dataType: DataType, ext: string, env: Env) returns (f: Data)
      modifies this`datas, counter
      ensures f == TempFile(env, old(counter.value), ext, dataType)
      ensures counter.value == old(counter.value) + 1
      ensures datas == old(datas) + [f]
    {
      var n := counter.value;
      counter.value := counter.value + 1;
      var name := TempName(env.mktemp(n), n, ext, env.win32, env.tempPath);
      f := AddData(MakeFile(dataType, name, true));
    }

    /** Buffers are not supported yet: no artifact is made and nothing is tracked. */
    function NewBufferReference(dataType: DataType, ptr: nat, size: nat): (d: Option<Data>)
      ensures d.None?
    {
      None
    }

    function NewBuffer(dataType: DataType): (d: Option<Data>)
      ensures d.None?
    {
      None
    }

    /** Runs Clang on the arguments; succeeds iff the folded exit status is zero. */
    method InvokeDriver(args: seq<string>, env: Env) returns (ok: bool)
      modifies this`calls
      ensures calls == old(calls) + [DriverCall(args)]
      ensures ok <==> DriverOk(env, driver, args)
    {
      var run := env.clang(driver, args);
      var res, diagnosed := FoldExitStatus(run, env.win32);
      calls := calls + [DriverCall(args)];
      ok := res == 0;
    }

    /** Spawns llvm-link with "-v" and the arguments; succeeds iff it exits with status 0. */
    method InvokeLLVMLink(args: seq<string>, env: Env) returns (ok: bool)
      modifies this`calls
      ensures calls == old(calls) + [LinkCall(llvmLinkExe, LinkArgv(llvmLinkExe, args))]
      ensures ok <==> env.exec(llvmLinkExe, LinkArgv(llvmLinkExe, args)) == 0
    {
      var argv: seq<CArg> := [Arg(llvmLinkExe), Arg("-v")];
      for i := 0 to |args|
        invariant |argv| == i + 2 && argv[..2] == [Arg(llvmLinkExe), Arg("-v")]
        invariant forall j :: 0 <= j < i ==> argv[j + 2] == Arg(args[j])
      {
        argv := argv + [Arg(args[i])];
      }
      argv := argv + [Null];
      assert argv == LinkArgv(llvmLinkExe, args);
      var res := env.exec(llvmLinkExe, argv);
      calls := calls + [LinkCall(llvmLinkExe, argv)];
      if res != 0 {
        return false;
      }
      return true;
    }

    method CompileToLLVMBitcodeOne(input: Data, output: Data, options: seq<string>, env: Env) returns (ok: bool)
      requires input.File? && output.File?
      modifies this`calls
      ensures var o := CompileToBitcodeOne(driver, env, input, output, options);
              ok == o.ok && calls == old(calls) + o.trace
    {
      var args := AddCommonArgs([]);
      args := args + ["-c"];
      args := args + ["-emit-llvm"];
      var inputFile := ToInputFile(input);
      args := args + [inputFile.name];
      var bcFile := ToOutputFile(output);
      args := args + ["-o"];
      args := args + [bcFile.name];
      ghost var prefix := args;
      for i := 0 to |options|
        invariant args == prefix + options[..i]
      {
        args := args + [options[i]];
      }
      assert args == CompileArgs(input.name, output.name, options);
      ok := InvokeDriver(args, env);
    }

    /**
     * One input goes straight to Clang.  Otherwise each input, in order, is
     * compiled to a fresh temp bitcode file; the first failure ends the call, and
     * when all succeed the temp files are linked into the output.
     */
    method CompileToLLVMBitcode(inputs: seq<Data>, output: Data, options: seq<string>, env: Env) returns (ok: bool)
      requires AllFiles(inputs) && output.File?
      modifies this`datas, this`calls, counter
      ensures var o := CompileToBitcode(driver, llvmLinkExe, env, inputs, output, options, old(counter.value));
              ok == o.ok && calls == old(calls) + o.trace && datas == old(datas) + o.temps &&
              counter.value == old(counter.value) + |o.temps|
    {
      if |inputs| == 1 {
        ok := CompileToLLVMBitcodeOne(inputs[0], output, options, env);
      } else {
        var bcFiles;
        ok, bcFiles := CompileEachInput(inputs, options, env);
        if ok {
          ok := LinkLLVMBitcode(bcFiles, output, [], env);
        }
      }
    }

    /**
     * The loop of the multi-input compile: whether every input compiled, and the
     * temp files of the inputs that did.  The temp file of a failed input is still
     * allocated (and owned), but is not collected for linking.
     */
    method CompileEachInput(inputs: seq<Data>, options: seq<string>, env: Env) returns (ok: bool, bcFiles: seq<Data>)
      requires AllFiles(inputs)
      modifies this`datas, this`calls, counter
      ensures var o := CompileEach(driver, env, inputs, old(counter.value), options);
              ok == o.ok && calls == old(calls) + o.trace && datas == old(datas) + o.temps &&
              counter.value == old(counter.value) + |o.temps| &&
              bcFiles == (if ok then o.temps else o.temps[..|o.temps| - 1])
    {
      ghost var c0 := counter.value;
      ghost var done: seq<Invocation> := [];
      bcFiles := [];
      var i := 0;
      while i < |inputs|
        invariant 0 <= i <= |inputs| && counter.value == c0 + i
        invariant bcFiles == BatchTemps(env, c0, i) && done == BatchCalls(env, inputs, c0, options, i)
        invariant datas == old(datas) + bcFiles && calls == old(calls) + done
        invariant CompilesBefore(driver, env, inputs, c0, options, i)
      {
        var bcFile := NewTempFile(LLVM_BC, "bc", env);
        assert bcFile == TempBitcode(env, c0 + i);
        var compiled := CompileToLLVMBitcodeOne(inputs[i], bcFile, options, env);
        assert compiled == CompilesAt(driver, env, inputs, c0, options, i);
        BatchGrow(env, inputs, c0, options, i);
        done := done + [StepCall(env, inputs, c0, options, i)];
        if !compiled {
          CompileEachStopsAt(driver, env, inputs, c0, options, i);
          return false, bcFiles;
        }
        CompilesBeforeGrow(driver, env, inputs, c0, options, i);
        bcFiles := bcFiles + [bcFile];
        i := i + 1;
      }
      CompileEachAllCompile(driver, env, inputs, c0, options);
      ok := true;
    }

    /** llvm-link on the inputs' names, "-o" and the output's name, then the options. */
    method LinkLLVMBitcode(inputs: seq<Data>, output: Data, options: seq<string>, env: Env) returns (ok: bool)
      requires AllFiles(inputs) && output.File?
      modifies this`calls
      ensures var o := Link(llvmLinkExe, env, inputs, output, options);
              ok == o.ok && calls == old(calls) + o.trace
    {
      var args: seq<string> := [];
      for i := 0 to |inputs|
        invariant |args| == i
        invariant forall j :: 0 <= j < i ==> args[j] == inputs[j].name
      {
        var inputFile := ToInputFile(inputs[i]);
        args := args + [inputFile.name];
      }
      assert args == Names(inputs);
      var outputFile := ToOutputFile(output);
      args := args + ["-o"];
      args := args + [outputFile.name];
      ghost var prefix := args;
      for i := 0 to |options|
        invariant args == prefix + options[..i]
      {
        args := args + [options[i]];
      }
      assert args == LinkArgs(Names(inputs), output.name, options);
      ok := InvokeLLVMLink(args, env);
    }

    method CompileAndLinkExecutableOne(input: Data, output: Data, options: seq<string>, env: Env) returns (ok: bool)
      requires input.File? && output.File?
      modifies this`calls
      ensures var o := CompileAndLinkOne(driver, env, input, output, options);
              ok == o.ok && calls == old(calls) + o.trace
    {
      var args := AddCommonArgs([]);
      var inputFile := ToInputFile(input);
      args := args + [inputFile.name];
      var outputFile := ToOutputFile(output);
      args := args + ["-o"];
      args := args + [outputFile.name];
      ghost var prefix := args;
      for i := 0 to |options|
        invariant args == prefix + options[..i]
      {
        args := args + [options[i]];
      }
      assert args == CompileAndLinkArgs(input.name, output.name, options);
      ok := InvokeDriver(args, env);
    }

    /**
     * One input goes straight to Clang.  Otherwise all inputs are first compiled
     * into one temp bitcode file without options, and that file is then compiled
     * and linked with the caller's options.
     */
    method CompileAndLinkExecutable(inputs: seq<Data>, output: Data, options: seq<string>, env: Env) returns (ok: bool)
      requires AllFiles(inputs) && output.File?
      modifies this`datas, this`calls, counter
      ensures var o := CompileAndLink(driver, llvmLinkExe, env, inputs, output, options, old(counter.value));
              ok == o.ok && calls == old(calls) + o.trace && datas == old(datas) + o.temps &&
              counter.value == old(counter.value) + |o.temps|
    {
      if |inputs| == 1 {
        ok := CompileAndLinkExecutableOne(inputs[0], output, options, env);
      } else {
        ok := CompileAndLinkViaBitcode(inputs, output, options, env);
      }
    }

    /** Several inputs (or none): compile them all into one temp bitcode file, then build the executable from it. */
    method CompileAndLinkViaBitcode(inputs: seq<Data>, output: Data, options: seq<string>, env: Env) returns (ok: bool)
      requires AllFiles(inputs) && output.File? && |inputs| != 1
      modifies this`datas, this`calls, counter
      ensures var o := CompileAndLink(driver, llvmLinkExe, env, inputs, output, options, old(counter.value));
              ok == o.ok && calls == old(calls) + o.trace && datas == old(datas) + o.temps &&
              counter.value == old(counter.value) + |o.temps|
    {
      var bcFile := NewTempFile(LLVM_BC, "bc", env);
      var compiled := CompileToLLVMBitcode(inputs, bcFile, [], env);
      if !compiled {
        return false;
      }
      ok := CompileAndLinkExecutableOne(bcFile, output, options, env);
    }
  }

  /** The factory: a new compiler for the LLVM installation in llvmBin, sharing the process-wide counter. */
  method CreateAMDGPUCompiler(llvmBin: string, counter: TempCounter) returns (c: AMDGPUCompiler)
    ensures fresh(c) && c.counter == counter && c.datas == [] && c.calls == []
    ensures c.driver == ClangDriver(llvmBin + "/clang", TargetName("amdgcn-amd-amdhsa"), DriverTitle, false)
    ensures c.llvmLinkExe == llvmBin + "/llvm-link"
  {
    c := new AMDGPUCompiler(llvmBin, counter);
  }
}
