/**
 * How the driver turns the outcome of a Clang compilation into one exit status:
 * start from the compilation's own status, adopt the status of the first failing
 * command while nothing has failed yet, stop at the first command that crashed,
 * and on Windows never report a negative status.
 */
module StatusFold {
  import opened Wrappers
  import opened Toolchain

  /**
   * A status that ends the scan and triggers crash diagnostics: negative (the
   * command signalled an error), 70 (a fatal error) or, on Windows, 3 (an abort).
   */
  predicate IsCrash(status: int, win32: bool)
  {
    status < 0 || status == 70 || (win32 && status == 3)
  }

  /** The position of the first crashed command, or the length of the list if none crashed. */
  function CrashIndex(failing: seq<FailingCommand>, win32: bool): (k: nat)
    ensures k <= |failing|
    ensures forall j :: 0 <= j < k ==> !IsCrash(failing[j].status, win32)
    ensures k < |failing| ==> IsCrash(failing[k].status, win32)
  {
    if failing == [] then 0
    else if IsCrash(failing[0].status, win32) then 0
    else 1 + CrashIndex(failing[1..], win32)
  }

  /** The failing commands the scan reaches: all of them up to and including the first crash. */
  function Scanned(failing: seq<FailingCommand>, win32: bool): seq<FailingCommand>
  {
    var k := CrashIndex(failing, win32);
    if k < |failing| then failing[..k + 1] else failing
  }

  /** The status of the first command whose status is not zero, or 0 when there is none. */
  function FirstNonZero(cmds: seq<FailingCommand>): (r: int)
    ensures r == 0 <==> forall j :: 0 <= j < |cmds| ==> cmds[j].status == 0
    ensures r != 0 ==> exists j :: 0 <= j < |cmds| && cmds[j].status == r &&
                                   forall i :: 0 <= i < j ==> cmds[i].status == 0
  {
    if cmds == [] then 0
    else if cmds[0].status != 0 then cmds[0].status
    else
      var r := FirstNonZero(cmds[1..]);
      assert forall j :: 1 <= j < |cmds| ==> cmds[j] == cmds[1..][j - 1];
      r
  }

  /** The loop over the failing commands, from the running status `res`. */
  function FoldFailing(res: int, failing: seq<FailingCommand>, win32: bool): int
    decreases |failing|
  {
    if failing == [] then res
    else
      var adopted := if res == 0 then failing[0].status else res;
      if IsCrash(failing[0].status, win32) then adopted
      else FoldFailing(adopted, failing[1..], win32)
  }

  /** The Windows rule: a negative status is reported as 1. */
  function Clamp(res: int, win32: bool): (r: int)
    ensures win32 ==> r >= 0
    ensures win32 && res < 0 ==> r == 1
    ensures res >= 0 ==> r == res
    ensures !win32 ==> r == res
    ensures r == 0 <==> res == 0
  {
    if win32 && res < 0 then 1 else res
  }

  /** The status the compilation itself reports; 0 when no compilation was built. */
  function InitialStatus(run: Execution): int
  {
    if run.Executed? then run.status else 0
  }

  function FailingOf(run: Execution): seq<FailingCommand>
  {
    if run.Executed? then run.failing else []
  }

  /** The exit status the driver reports for a compilation. */
  function FoldStatus(run: Execution, win32: bool): int
  {
    Clamp(FoldFailing(InitialStatus(run), FailingOf(run), win32), win32)
  }

  /**
   * The fold keeps a non-zero starting status; from zero it ends with the first
   * non-zero status among the commands the scan reaches.
   */
  lemma {:induction false} FoldAdoptsFirstFailure(res: int, failing: seq<FailingCommand>, win32: bool)
    ensures FoldFailing(res, failing, win32) ==
            if res != 0 then res else FirstNonZero(Scanned(failing, win32))
    decreases |failing|
  {
    if failing != [] {
      var adopted := if res == 0 then failing[0].status else res;
      if IsCrash(failing[0].status, win32) {
        assert Scanned(failing, win32) == [failing[0]];
      } else {
        var tail := failing[1..];
        FoldAdoptsFirstFailure(adopted, tail, win32);
        assert CrashIndex(failing, win32) == 1 + CrashIndex(tail, win32);
        assert Scanned(failing, win32) == [failing[0]] + Scanned(tail, win32);
        assert ([failing[0]] + Scanned(tail, win32))[1..] == Scanned(tail, win32);
      }
    }
  }

  /**
   * The driver reports success exactly when the compilation's own status is zero
   * and every failing command the scan reaches has status zero.
   */
  lemma StatusZeroIff(run: Execution, win32: bool)
    ensures FoldStatus(run, win32) == 0 <==>
            InitialStatus(run) == 0 &&
            forall j :: 0 <= j < |Scanned(FailingOf(run), win32)| ==> Scanned(FailingOf(run), win32)[j].status == 0
  {
    FoldAdoptsFirstFailure(InitialStatus(run), FailingOf(run), win32);
  }

  /** Failing commands after the first crash never influence the reported status. */
  lemma FoldIgnoresAfterCrash(res: int, failing: seq<FailingCommand>, rest: seq<FailingCommand>, win32: bool)
    requires CrashIndex(failing, win32) < |failing|
    ensures var k := CrashIndex(failing, win32);
            FoldFailing(res, failing[..k + 1] + rest, win32) == FoldFailing(res, failing, win32)
  {
    var k := CrashIndex(failing, win32);
    var t := failing[..k + 1] + rest;
    assert forall j :: 0 <= j <= k ==> t[j] == failing[j];
    assert CrashIndex(t, win32) == k;
    assert Scanned(t, win32) == failing[..k + 1] == Scanned(failing, win32);
    FoldAdoptsFirstFailure(res, t, win32);
    FoldAdoptsFirstFailure(res, failing, win32);
  }

  /**
   * The status loop of the driver.  Also returns the command for which crash
   * diagnostics are generated: the first crashed one, if any.
   */
  method FoldExitStatus(run: Execution, win32: bool) returns (res: int, diagnosed: Option<FailingCommand>)
    ensures res == FoldStatus(run, win32)
    ensures var failing := FailingOf(run);
            var k := CrashIndex(failing, win32);
            diagnosed == if k < |failing| then Some(failing[k]) else None
  {
    res := 0;
    var failing: seq<FailingCommand> := [];
    if run.Executed? {
      res := run.status;
      failing := run.failing;
    }
    diagnosed := None;
    var i := 0;
    while i < |failing|
      invariant 0 <= i <= |failing|
      invariant FoldFailing(res, failing[i..], win32) == FoldFailing(InitialStatus(run), failing, win32)
      invariant forall j :: 0 <= j < i ==> !IsCrash(failing[j].status, win32)
    {
      var commandRes := failing[i].status;
      assert failing[i..][1..] == failing[i + 1..];
      if res == 0 {
        res := commandRes;
      }
      if IsCrash(commandRes, win32) {
        diagnosed := Some(failing[i]);
        break;
      }
      i := i + 1;
    }
    if win32 && res < 0 {
      res := 1;
    }
  }
}
