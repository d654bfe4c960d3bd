/** The pre-push hook the `install` command writes: a shell script that runs
    the `scan` command and blocks the push when it fails. */
module Hook {
  import opened Text
  import opened External

  /** The line of the script that runs the scanner. */
  const ScanLine: string := "ai-git-guard scan\n"

  /** The line of the script that rejects the push. */
  const RejectLine: string := "  exit 1\n"

  /** The script up to the line that runs the scanner. */
  const ScriptHead: string :=
    "#!/bin/sh\n" +
    "echo \"  AI Git Guard - Scanning for vulnerabilities...\"\n"

  /** The script between the scanner line and the line that rejects the push. */
  const ScriptMiddle: string :=
    "RESULT=$?\n" +
    "if [ $RESULT -ne 0 ]; then\n" +
    "  echo \"  [BLOCKED] Push blocked due to security risks found by AI.\"\n"

  /** The complete hook script. */
  const HookScript: string := ScriptHead + ScanLine + ScriptMiddle + RejectLine + "fi\n"

  /** The exit status of the hook script when the scan exits with `scanExit`.
      This is the POSIX shell semantics of the script's last lines, taken as
      given rather than derived from `HookScript`: `RESULT=$?` saves the scan's
      status, a non-zero status runs `exit 1`, and otherwise the script ends
      after the `if`, whose status is 0 when no branch ran. */
  function HookExitStatus(scanExit: nat): (status: nat)
    ensures status <= 1
    ensures status == 0 <==> scanExit == 0
  {
    if scanExit != 0 then 1 else 0
  }

  /** The script runs the scanner and holds the line that rejects the push. */
  lemma HookScriptRunsScan()
    ensures Contains(HookScript, "ai-git-guard scan")
    ensures Contains(HookScript, "exit 1")
  {
    var tail := ScriptMiddle + RejectLine + "fi\n";
    assert HookScript == ScriptHead + ScanLine + tail;
    assert OccursAt(ScanLine, "ai-git-guard scan", 0);
    OccursInContext(ScriptHead, ScanLine, tail, "ai-git-guard scan", 0);
    assert OccursAt(RejectLine, "exit 1", 2);
    OccursInContext(ScriptHead + ScanLine + ScriptMiddle, RejectLine, "fi\n", "exit 1", 2);
  }

  /** Git goes on with the push exactly when the scan command ended with code
      0; a scan that crashed blocks it like one that exited with 1. */
  lemma PushProceedsIffScanAllows(status: Status)
    ensures HookExitStatus(ProcessExitCode(status)) == 0 <==> status == Exited(0)
  {
  }
}
