/**
 * What the compiler's public operations do, as values: whether they succeed,
 * the toolchain calls they make in order, and the temp files they allocate.
 * The compiler's methods are proved to behave as these functions say; the lemmas
 * below state ordering, short-circuiting and when linking happens.
 */
module Pipeline {
  import opened Toolchain
  import opened Artifacts
  import opened Arguments
  import opened StatusFold
  import opened TempNames

  /** A Clang invocation succeeds when the folded exit status is zero. */
  predicate DriverOk(env: Env, drv: ClangDriver, args: seq<string>)
  {
    FoldStatus(env.clang(drv, args), env.win32) == 0
  }

  /** The result of an operation, the calls it made, in order, and the temp files it allocated, in order. */
  datatype Outcome = Outcome(ok: bool, trace: seq<Invocation>, temps: seq<Data>)

  function Prefixed(trace: seq<Invocation>, temps: seq<Data>, o: Outcome): Outcome
  {
    Outcome(o.ok, trace + o.trace, temps + o.temps)
  }

  /** The temp bitcode file allocated while the counter reads n. */
  function TempBitcode(env: Env, n: nat): (f: Data)
    ensures f.File? && f.IsReadOnly() && f.Type() == LLVM_BC
  {
    TempFile(env, n, "bc", LLVM_BC)
  }

  function CompileToBitcodeOne(drv: ClangDriver, env: Env, input: Data, output: Data, options: seq<string>): Outcome
    requires input.File? && output.File?
  {
    var args := CompileArgs(input.name, output.name, options);
    Outcome(DriverOk(env, drv, args), [DriverCall(args)], [])
  }

  function CompileAndLinkOne(drv: ClangDriver, env: Env, input: Data, output: Data, options: seq<string>): Outcome
    requires input.File? && output.File?
  {
    var args := CompileAndLinkArgs(input.name, output.name, options);
    Outcome(DriverOk(env, drv, args), [DriverCall(args)], [])
  }

  function Link(exe: string, env: Env, inputs: seq<Data>, output: Data, options: seq<string>): Outcome
    requires AllFiles(inputs) && output.File?
  {
    var argv := LinkArgv(exe, LinkArgs(Names(inputs), output.name, options));
    Outcome(env.exec(exe, argv) == 0, [LinkCall(exe, argv)], [])
  }

  /**
   * Compile each input in turn to a fresh temp bitcode file, the counter starting
   * at c, stopping at the first failure.
   */
  function CompileEach(drv: ClangDriver, env: Env, inputs: seq<Data>, c: nat, options: seq<string>): (r: Outcome)
    requires AllFiles(inputs)
    ensures |r.trace| == |r.temps| <= |inputs|
    ensures AllFiles(r.temps)
    decreases |inputs|
  {
    if inputs == [] then Outcome(true, [], [])
    else
      var bc := TempBitcode(env, c);
      var first := CompileToBitcodeOne(drv, env, inputs[0], bc, options);
      if !first.ok then Outcome(false, first.trace, [bc])
      else Prefixed(first.trace, [bc], CompileEach(drv, env, inputs[1..], c + 1, options))
  }

  function CompileToBitcode(drv: ClangDriver, exe: string, env: Env, inputs: seq<Data>, output: Data,
                            options: seq<string>, c: nat): Outcome
    requires AllFiles(inputs) && output.File?
  {
    if |inputs| == 1 then CompileToBitcodeOne(drv, env, inputs[0], output, options)
    else
      var each := CompileEach(drv, env, inputs, c, options);
      if !each.ok then each
      else
        var link := Link(exe, env, each.temps, output, []);
        Outcome(link.ok, each.trace + link.trace, each.temps)
  }

  function CompileAndLink(drv: ClangDriver, exe: string, env: Env, inputs: seq<Data>, output: Data,
                          options: seq<string>, c: nat): Outcome
    requires AllFiles(inputs) && output.File?
  {
    if |inputs| == 1 then CompileAndLinkOne(drv, env, inputs[0], output, options)
    else
      var bc := TempBitcode(env, c);
      var inner := CompileToBitcode(drv, exe, env, inputs, bc, [], c + 1);
      if !inner.ok then Outcome(false, inner.trace, [bc] + inner.temps)
      else Prefixed(inner.trace, [bc] + inner.temps, CompileAndLinkOne(drv, env, bc, output, options))
  }

  /** Whether the j-th input compiles to its temp file (the one allocated at counter c + j). */
  predicate CompilesAt(drv: ClangDriver, env: Env, inputs: seq<Data>, c: nat, options: seq<string>, j: nat)
    requires AllFiles(inputs) && j < |inputs|
  {
    DriverOk(env, drv, CompileArgs(inputs[j].name, TempBitcode(env, c + j).name, options))
  }

  /** The call that compiles input j of a batch into its temp file, with the caller's options. */
  function StepCall(env: Env, inputs: seq<Data>, c: nat, options: seq<string>, j: nat): Invocation
    requires AllFiles(inputs) && j < |inputs|
  {
    DriverCall(CompileArgs(inputs[j].name, TempBitcode(env, c + j).name, options))
  }

  lemma StepCallShift(env: Env, inputs: seq<Data>, c: nat, options: seq<string>, j: nat)
    requires AllFiles(inputs) && 1 <= j < |inputs|
    ensures StepCall(env, inputs[1..], c + 1, options, j - 1) == StepCall(env, inputs, c, options, j)
  {
    assert inputs[1..][j - 1] == inputs[j];
    assert c + 1 + (j - 1) == c + j;
  }

  /** The j-th call compiles the j-th input into the j-th temp file, with the caller's options. */
  lemma {:induction false} CompileEachInOrder(drv: ClangDriver, env: Env, inputs: seq<Data>, c: nat, options: seq<string>)
    requires AllFiles(inputs)
    ensures forall j :: 0 <= j < |CompileEach(drv, env, inputs, c, options).trace| ==>
              CompileEach(drv, env, inputs, c, options).trace[j] == StepCall(env, inputs, c, options, j)
    decreases |inputs|
  {
    if inputs != [] {
      var o := CompileEach(drv, env, inputs, c, options);
      var rest := CompileEach(drv, env, inputs[1..], c + 1, options);
      if CompilesAt(drv, env, inputs, c, options, 0) {
        CompileEachInOrder(drv, env, inputs[1..], c + 1, options);
        assert o.trace == [StepCall(env, inputs, c, options, 0)] + rest.trace;
        forall j | 1 <= j < |o.trace|
          ensures o.trace[j] == StepCall(env, inputs, c, options, j)
        {
          assert o.trace[j] == rest.trace[j - 1];
          StepCallShift(env, inputs, c, options, j);
        }
      } else {
        assert o.trace == [StepCall(env, inputs, c, options, 0)];
      }
    }
  }

  /** The j-th temp file of a batch is the one allocated while the counter reads c + j. */
  lemma {:induction false} CompileEachTemps(drv: ClangDriver, env: Env, inputs: seq<Data>, c: nat, options: seq<string>)
    requires AllFiles(inputs)
    ensures forall j :: 0 <= j < |CompileEach(drv, env, inputs, c, options).temps| ==>
              CompileEach(drv, env, inputs, c, options).temps[j] == TempBitcode(env, c + j)
    decreases |inputs|
  {
    if inputs != [] {
      var o := CompileEach(drv, env, inputs, c, options);
      var rest := CompileEach(drv, env, inputs[1..], c + 1, options);
      if CompilesAt(drv, env, inputs, c, options, 0) {
        CompileEachTemps(drv, env, inputs[1..], c + 1, options);
        assert o.temps == [TempBitcode(env, c)] + rest.temps;
        forall j | 1 <= j < |o.temps|
          ensures o.temps[j] == TempBitcode(env, c + j)
        {
          assert o.temps[j] == rest.temps[j - 1];
          assert c + 1 + (j - 1) == c + j;
        }
      }
    }
  }

  /** Whether the first k inputs all compile. */
  predicate CompilesBefore(drv: ClangDriver, env: Env, inputs: seq<Data>, c: nat, options: seq<string>, k: nat)
    requires AllFiles(inputs) && k <= |inputs|
  {
    forall j :: 0 <= j < k ==> CompilesAt(drv, env, inputs, c, options, j)
  }

  lemma CompilesBeforeGrow(drv: ClangDriver, env: Env, inputs: seq<Data>, c: nat, options: seq<string>, k: nat)
    requires AllFiles(inputs) && k < |inputs|
    requires CompilesBefore(drv, env, inputs, c, options, k) && CompilesAt(drv, env, inputs, c, options, k)
    ensures CompilesBefore(drv, env, inputs, c, options, k + 1)
  {
  }

  /** Input j of a batch is input j - 1 of the batch that starts one step later. */
  lemma CompilesAtShift(drv: ClangDriver, env: Env, inputs: seq<Data>, c: nat, options: seq<string>, j: nat)
    requires AllFiles(inputs) && 1 <= j < |inputs|
    ensures CompilesAt(drv, env, inputs[1..], c + 1, options, j - 1) == CompilesAt(drv, env, inputs, c, options, j)
  {
    assert inputs[1..][j - 1] == inputs[j];
    assert c + 1 + (j - 1) == c + j;
  }

  /** Once the first input compiled, the first k + 1 inputs compile iff the first k of the rest do. */
  lemma CompilesBeforeShift(drv: ClangDriver, env: Env, inputs: seq<Data>, c: nat, options: seq<string>, k: nat)
    requires AllFiles(inputs) && k < |inputs| && CompilesAt(drv, env, inputs, c, options, 0)
    ensures CompilesBefore(drv, env, inputs[1..], c + 1, options, k) <==> CompilesBefore(drv, env, inputs, c, options, k + 1)
  {
    var tail, c1 := inputs[1..], c + 1;
    if CompilesBefore(drv, env, tail, c1, options, k) {
      forall j | 1 <= j < k + 1
        ensures CompilesAt(drv, env, inputs, c, options, j)
      {
        CompilesAtShift(drv, env, inputs, c, options, j);
      }
    }
    if CompilesBefore(drv, env, inputs, c, options, k + 1) {
      forall j | 0 <= j < k
        ensures CompilesAt(drv, env, tail, c1, options, j)
      {
        CompilesAtShift(drv, env, inputs, c, options, j + 1);
      }
    }
  }

  /** The first step of a batch compiles its first input into the temp file at counter c. */
  lemma CompileEachFirst(drv: ClangDriver, env: Env, inputs: seq<Data>, c: nat, options: seq<string>)
    requires AllFiles(inputs) && inputs != []
    ensures var o := CompileEach(drv, env, inputs, c, options);
            var rest := CompileEach(drv, env, inputs[1..], c + 1, options);
            if CompilesAt(drv, env, inputs, c, options, 0) then
              o.ok == rest.ok && |o.trace| == 1 + |rest.trace|
            else !o.ok && |o.trace| == 1
  {
  }

  /** The batch succeeds iff every input compiles, and then it has compiled all of them. */
  lemma {:induction false} CompileEachOkIff(drv: ClangDriver, env: Env, inputs: seq<Data>, c: nat, options: seq<string>)
    requires AllFiles(inputs)
    ensures CompileEach(drv, env, inputs, c, options).ok <==> CompilesBefore(drv, env, inputs, c, options, |inputs|)
    ensures CompileEach(drv, env, inputs, c, options).ok ==> |CompileEach(drv, env, inputs, c, options).trace| == |inputs|
    decreases |inputs|
  {
    if inputs != [] {
      CompileEachFirst(drv, env, inputs, c, options);
      if CompilesAt(drv, env, inputs, c, options, 0) {
        CompileEachOkIff(drv, env, inputs[1..], c + 1, options);
        CompilesBeforeShift(drv, env, inputs, c, options, |inputs| - 1);
      }
    }
  }

  /** A failed batch stops right after the first input that failed to compile. */
  lemma {:induction false} CompileEachStopsAfterFailure(drv: ClangDriver, env: Env, inputs: seq<Data>, c: nat, options: seq<string>)
    requires AllFiles(inputs)
    ensures var o := CompileEach(drv, env, inputs, c, options);
            !o.ok ==> 1 <= |o.trace| && !CompilesAt(drv, env, inputs, c, options, |o.trace| - 1) &&
                      CompilesBefore(drv, env, inputs, c, options, |o.trace| - 1)
    decreases |inputs|
  {
    if inputs != [] {
      CompileEachFirst(drv, env, inputs, c, options);
      var rest := CompileEach(drv, env, inputs[1..], c + 1, options);
      if CompilesAt(drv, env, inputs, c, options, 0) && !rest.ok {
        CompileEachStopsAfterFailure(drv, env, inputs[1..], c + 1, options);
        var k := |rest.trace| - 1;
        CompilesBeforeShift(drv, env, inputs, c, options, k);
        CompilesAtShift(drv, env, inputs, c, options, k + 1);
      }
    }
  }

  /** The temp files of the first k steps of a batch, the counter starting at c. */
  function BatchTemps(env: Env, c: nat, k: nat): (r: seq<Data>)
    ensures |r| == k
  {
    seq(k, j requires 0 <= j => TempBitcode(env, c + j))
  }

  /** The calls of the first k steps of a batch: input j compiled into the j-th temp file. */
  function BatchCalls(env: Env, inputs: seq<Data>, c: nat, options: seq<string>, k: nat): (r: seq<Invocation>)
    requires AllFiles(inputs) && k <= |inputs|
    ensures |r| == k
  {
    seq(k, j requires 0 <= j < k => StepCall(env, inputs, c, options, j))
  }

  lemma BatchGrow(env: Env, inputs: seq<Data>, c: nat, options: seq<string>, k: nat)
    requires AllFiles(inputs) && k < |inputs|
    ensures BatchTemps(env, c, k + 1) == BatchTemps(env, c, k) + [TempBitcode(env, c + k)]
    ensures BatchCalls(env, inputs, c, options, k + 1) ==
            BatchCalls(env, inputs, c, options, k) + [StepCall(env, inputs, c, options, k)]
  {
  }

  /** Whatever its length, a batch's calls and temp files are the first steps of the full batch. */
  lemma CompileEachIsBatchPrefix(drv: ClangDriver, env: Env, inputs: seq<Data>, c: nat, options: seq<string>)
    requires AllFiles(inputs)
    ensures var o := CompileEach(drv, env, inputs, c, options);
            o.trace == BatchCalls(env, inputs, c, options, |o.trace|) && o.temps == BatchTemps(env, c, |o.temps|)
  {
    var o := CompileEach(drv, env, inputs, c, options);
    CompileEachInOrder(drv, env, inputs, c, options);
    CompileEachTemps(drv, env, inputs, c, options);
    assert o.trace == BatchCalls(env, inputs, c, options, |o.trace|);
    assert o.temps == BatchTemps(env, c, |o.temps|);
  }

  /** When every input compiles, the batch makes one call per input and allocates one temp file per input. */
  lemma CompileEachAllCompile(drv: ClangDriver, env: Env, inputs: seq<Data>, c: nat, options: seq<string>)
    requires AllFiles(inputs) && CompilesBefore(drv, env, inputs, c, options, |inputs|)
    ensures CompileEach(drv, env, inputs, c, options) ==
            Outcome(true, BatchCalls(env, inputs, c, options, |inputs|), BatchTemps(env, c, |inputs|))
  {
    CompileEachOkIff(drv, env, inputs, c, options);
    CompileEachIsBatchPrefix(drv, env, inputs, c, options);
  }

  /** When input k is the first that fails to compile, the batch fails right after trying it. */
  lemma CompileEachStopsAt(drv: ClangDriver, env: Env, inputs: seq<Data>, c: nat, options: seq<string>, k: nat)
    requires AllFiles(inputs) && k < |inputs| && CompilesBefore(drv, env, inputs, c, options, k)
    requires !CompilesAt(drv, env, inputs, c, options, k)
    ensures CompileEach(drv, env, inputs, c, options) ==
            Outcome(false, BatchCalls(env, inputs, c, options, k + 1), BatchTemps(env, c, k + 1))
  {
    var o := CompileEach(drv, env, inputs, c, options);
    CompileEachOkIff(drv, env, inputs, c, options);
    CompileEachStopsAfterFailure(drv, env, inputs, c, options);
    assert !o.ok;
    assert |o.trace| == k + 1;
    CompileEachIsBatchPrefix(drv, env, inputs, c, options);
  }

  /** With exactly one input nothing is allocated: the request goes straight to Clang. */
  lemma CompileToBitcodeSingleInput(drv: ClangDriver, exe: string, env: Env, inputs: seq<Data>, output: Data,
                                    options: seq<string>, c: nat)
    requires AllFiles(inputs) && output.File? && |inputs| == 1
    ensures var o := CompileToBitcode(drv, exe, env, inputs, output, options, c);
            o.trace == [DriverCall(CompileArgs(inputs[0].name, output.name, options))] &&
            o.temps == [] && (o.ok <==> DriverOk(env, drv, CompileArgs(inputs[0].name, output.name, options)))
  {
  }

  /**
   * With several inputs (or none), llvm-link runs iff every input compiled; it
   * then runs last, once, on the temp files in input order, with no options, and
   * decides the result.
   */
  lemma LinkOnlyAfterAllCompiled(drv: ClangDriver, exe: string, env: Env, inputs: seq<Data>, output: Data,
                                 options: seq<string>, c: nat)
    requires AllFiles(inputs) && output.File? && |inputs| != 1
    ensures var o := CompileToBitcode(drv, exe, env, inputs, output, options, c);
            (exists j :: 0 <= j < |o.trace| && o.trace[j].LinkCall?) <==>
            CompilesBefore(drv, env, inputs, c, options, |inputs|)
    ensures var o := CompileToBitcode(drv, exe, env, inputs, output, options, c);
            !CompilesBefore(drv, env, inputs, c, options, |inputs|) ==> !o.ok
    ensures var o := CompileToBitcode(drv, exe, env, inputs, output, options, c);
            var argv := LinkArgv(exe, LinkArgs(Names(o.temps), output.name, []));
            CompilesBefore(drv, env, inputs, c, options, |inputs|) ==>
              |o.trace| == |inputs| + 1 && |o.temps| == |inputs| &&
              o.trace[|inputs|] == LinkCall(exe, argv) && (o.ok <==> env.exec(exe, argv) == 0)
  {
    var o := CompileToBitcode(drv, exe, env, inputs, output, options, c);
    var each := CompileEach(drv, env, inputs, c, options);
    CompileEachInOrder(drv, env, inputs, c, options);
    CompileEachOkIff(drv, env, inputs, c, options);
    assert forall j :: 0 <= j < |each.trace| ==> each.trace[j].DriverCall?;
    if each.ok {
      var link := Link(exe, env, each.temps, output, []);
      assert o.trace == each.trace + link.trace;
      assert o.trace[|inputs|].LinkCall?;
    } else {
      assert o == each;
    }
  }

  /** The temp files of a batch are pairwise distinct. */
  lemma CompileEachTempsDistinct(drv: ClangDriver, env: Env, inputs: seq<Data>, c: nat, options: seq<string>)
    requires AllFiles(inputs)
    requires forall n: nat :: c <= n < c + |inputs| ==> ValidStem(env.mktemp(n))
    ensures var o := CompileEach(drv, env, inputs, c, options);
            forall i, j :: 0 <= i < j < |o.temps| ==> o.temps[i].name != o.temps[j].name
  {
    var o := CompileEach(drv, env, inputs, c, options);
    CompileEachTemps(drv, env, inputs, c, options);
    forall i, j | 0 <= i < j < |o.temps|
      ensures o.temps[i].name != o.temps[j].name
    {
      var ni, nj: nat := c + i, c + j;
      assert ValidStem(env.mktemp(ni)) && ValidStem(env.mktemp(nj));
      TempFilesDistinct(env, ni, "bc", LLVM_BC, nj, "bc", LLVM_BC);
      assert o.temps[i] == TempBitcode(env, ni) && o.temps[j] == TempBitcode(env, nj);
    }
  }

  /** The calls of a multi-input bitcode compile are never a compile-and-link call. */
  lemma CompileToBitcodeMakesNoExecutableCall(drv: ClangDriver, exe: string, env: Env, inputs: seq<Data>, output: Data,
                                              options: seq<string>, c: nat, input': string, output': string,
                                              options': seq<string>)
    requires AllFiles(inputs) && output.File? && |inputs| != 1
    ensures var inner := CompileToBitcode(drv, exe, env, inputs, output, options, c);
            forall j :: 0 <= j < |inner.trace| ==> inner.trace[j] != DriverCall(CompileAndLinkArgs(input', output', options'))
  {
    var inner := CompileToBitcode(drv, exe, env, inputs, output, options, c);
    var each := CompileEach(drv, env, inputs, c, options);
    CompileEachInOrder(drv, env, inputs, c, options);
    forall j | 0 <= j < |each.trace|
      ensures each.trace[j] != DriverCall(CompileAndLinkArgs(input', output', options'))
    {
      CompileAndLinkArgsDiffer(inputs[j].name, TempBitcode(env, c + j).name, options, input', output', options');
    }
    if each.ok {
      assert inner.trace == each.trace + Link(exe, env, each.temps, output, []).trace;
    }
  }

  /**
   * With several inputs (or none), everything is first compiled into one temp
   * bitcode file with no options; the executable step, with the caller's options,
   * runs iff that succeeded, and then decides the result.
   */
  lemma CompileAndLinkBitcodeFirst(drv: ClangDriver, exe: string, env: Env, inputs: seq<Data>, output: Data,
                                 options: seq<string>, c: nat)
    requires AllFiles(inputs) && output.File? && |inputs| != 1
    ensures var bc := TempBitcode(env, c);
            var inner := CompileToBitcode(drv, exe, env, inputs, bc, [], c + 1);
            var o := CompileAndLink(drv, exe, env, inputs, output, options, c);
            o.temps == [bc] + inner.temps &&
            o.trace == inner.trace + (if inner.ok then [DriverCall(CompileAndLinkArgs(bc.name, output.name, options))] else [])
    ensures var bc := TempBitcode(env, c);
            var o := CompileAndLink(drv, exe, env, inputs, output, options, c);
            (exists j :: 0 <= j < |o.trace| && o.trace[j] == DriverCall(CompileAndLinkArgs(bc.name, output.name, options))) <==>
            CompileToBitcode(drv, exe, env, inputs, bc, [], c + 1).ok
    ensures var bc := TempBitcode(env, c);
            var o := CompileAndLink(drv, exe, env, inputs, output, options, c);
            CompileToBitcode(drv, exe, env, inputs, bc, [], c + 1).ok ==>
              o.trace[|o.trace| - 1] == DriverCall(CompileAndLinkArgs(bc.name, output.name, options)) &&
              (o.ok <==> DriverOk(env, drv, CompileAndLinkArgs(bc.name, output.name, options)))
    ensures !CompileToBitcode(drv, exe, env, inputs, TempBitcode(env, c), [], c + 1).ok ==>
            !CompileAndLink(drv, exe, env, inputs, output, options, c).ok
  {
    var bc := TempBitcode(env, c);
    var inner := CompileToBitcode(drv, exe, env, inputs, bc, [], c + 1);
    var final := DriverCall(CompileAndLinkArgs(bc.name, output.name, options));
    var o := CompileAndLink(drv, exe, env, inputs, output, options, c);
    CompileToBitcodeMakesNoExecutableCall(drv, exe, env, inputs, bc, [], c + 1, bc.name, output.name, options);
    if inner.ok {
      assert o.trace == inner.trace + [final];
      assert o.trace[|o.trace| - 1] == final;
    } else {
      assert o.trace == inner.trace;
    }
  }
}
