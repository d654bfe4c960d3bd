/** The stand-alone pre-push script: check the key when the module loads,
    take the staged diff, ask the model for a terse verdict and return 0 to
    allow the push or 1 to block it. */
module StagedCheck {
  import opened Text
  import opened External
  import opened Verdict
  import opened Template

  /** The git argument vector that lists the staged changes. */
  const StagedDiffArgs: seq<string> := ["git", "diff", "--cached"]

  /** Nothing to analyze: the git run raised, or its output is only whitespace. */
  predicate NothingStaged(run: GitRun) {
    run.Raised? || IsBlank(run.stdout)
  }

  /** `get_staged_diff`: the stripped output of `git diff --cached`. The return
      code is not looked at, and an exception (git missing, output that is not
      UTF-8) is caught and read as "no staged changes". */
  method GetStagedDiff(run: GitRun) returns (diff: string, calls: seq<Call>)
    ensures calls == [Git(StagedDiffArgs)]
    ensures run.Raised? ==> diff == ""
    ensures run.Ran? ==> diff == Strip(run.stdout)
    ensures diff == "" <==> NothingStaged(run)
  {
    calls := [Git(StagedDiffArgs)];
    match run
    case Raised =>
      diff := "";
    case Ran(_, stdout) =>
      diff := Strip(stdout);
      StripEmptyIffBlank(stdout);
  }

  /** The terse prompt text before the diff. */
  const StagedPrefix: string :=
    "\n" +
    "    Analyze the following git diff for security risks.\n" +
    "\n" +
    "    Your job:\n" +
    "    - Identify OWASP Top 10 vulnerabilities (e.g. XSS, SQL Injection, etc.)\n" +
    "    - Check for hardcoded secrets, API keys, tokens\n" +
    "    - Identify risky functions (eval, exec, system, raw SQL)\n" +
    "\n" +
    "    Git Diff:\n" +
    "    "

  /** The terse prompt text after the diff, up to the line that gives the
      allowing answer. */
  const StagedInstructions: string :=
    "\n" +
    "\n" +
    "    Respond only with:\n"

  /** The line of the prompt that shows the allowing answer. */
  const SafeAnswerLine: string := "    - \"SAFE TO RELEASE\"\n"

  /** The terse prompt text after the allowing answer. */
  const StagedClosing: string :=
    "    - OR \"NEEDS REVIEW - Potential issues: [list the problems]\"\n" +
    "\n" +
    "    Be concise. Explain only if there's an issue.\n" +
    "    "

  /** The terse prompt text after the diff. */
  const StagedSuffix: string := StagedInstructions + SafeAnswerLine + StagedClosing

  /** The terse prompt: the diff is spliced in verbatim between the fixed
      prefix and suffix. */
  function StagedPrompt(diff: string): (prompt: string) {
    Fill(StagedPrefix, diff, StagedSuffix)
  }

  /** The diff a terse prompt was built from, if the text is one. */
  function PromptedDiff(p: string): (diff: Option<string>) {
    Slot(StagedPrefix, StagedSuffix, p)
  }

  /** The diff can be read back from the prompt: nothing in it is lost or
      altered. */
  lemma StagedPromptRoundTrip(diff: string)
    ensures PromptedDiff(StagedPrompt(diff)) == Some(diff)
  {
    SlotOfFill(StagedPrefix, diff, StagedSuffix);
  }

  /** Every text the diff can be read back from is the prompt of that diff. */
  lemma PromptedDiffIsInverse(p: string)
    requires PromptedDiff(p).Some?
    ensures StagedPrompt(PromptedDiff(p).value) == p
  {
    FillOfSlot(StagedPrefix, StagedSuffix, p);
  }

  /** The line that shows the allowing answer allows the push by itself. */
  lemma SafeLineAllows()
    ensures Allows(SafeAnswerLine)
  {
    assert OccursAt(SafeAnswerLine, Marker, 7);
    MarkerAllows(SafeAnswerLine);
  }

  /** The prompt itself spells out the allowing answer, so a reply that merely
      echoes the prompt allows the push, whatever the diff. */
  lemma EchoedStagedPromptAllows(diff: string)
    ensures Allows(StagedPrompt(diff))
  {
    SafeLineAllows();
    FillRegroup(StagedPrefix, diff, StagedInstructions, SafeAnswerLine, StagedClosing);
    AllowsInContext(StagedPrefix + diff + StagedInstructions, SafeAnswerLine, StagedClosing);
  }

  /** `analyze_diff_with_ai`: sends the terse prompt once and returns the
      stripped reply text. Reading `text` from a response without it raises,
      so that case gives the failure sentinel like a failed request. Only a
      reply can allow, and then exactly when its unstripped text would. */
  method AnalyzeDiffWithAi(diff: string, reply: AiOutcome) returns (decision: string, calls: seq<Call>)
    ensures calls == [Generate(StagedPrompt(diff))]
    ensures reply.Replied? ==> decision == Strip(reply.text)
    ensures !reply.Replied? ==> decision == FailSentinel
    ensures reply.Replied? ==> (Allows(decision) <==> Allows(reply.text))
    ensures !reply.Replied? ==> !Allows(decision)
  {
    calls := [Generate(StagedPrompt(diff))];
    if reply.Replied? {
      decision := Strip(reply.text);
      StripKeepsDecision(reply.text);
    } else {
      decision := FailSentinel;
      SentinelBlocks();
    }
  }

  /** `main`: with nothing staged it returns 0 without asking the model;
      otherwise it asks once and returns 0 exactly when the reply contains the
      marker in any letter case, and 1 in every other case. */
  method Run(diffRun: GitRun, reply: AiOutcome) returns (code: nat, calls: seq<Call>)
    ensures code <= 1
    ensures AiCalled(calls) <==> !NothingStaged(diffRun)
    ensures NothingStaged(diffRun) ==> code == 0 && calls == [Git(StagedDiffArgs)]
    ensures !NothingStaged(diffRun) ==>
      calls == [Git(StagedDiffArgs), Generate(StagedPrompt(Strip(diffRun.stdout)))]
    ensures !NothingStaged(diffRun) ==> (code == 0 <==> reply.Replied? && Allows(reply.text))
  {
    var diff;
    diff, calls := GetStagedDiff(diffRun);
    if diff == "" {
      assert !AiCalled(calls);
      return 0, calls;
    }
    var decision, aiCalls := AnalyzeDiffWithAi(diff, reply);
    calls := calls + aiCalls;
    assert calls[1].Generate?;
    code := ExitCode(decision);
  }

  /** Running the script: loading the module reads the key and exits with 1
      when it is missing, before `main` runs; otherwise it configures the client
      and the process exits with the code `main` returns. */
  method Script(key: Option<string>, diffRun: GitRun, reply: AiOutcome) returns (code: nat, calls: seq<Call>)
    ensures code <= 1
    ensures KeyMissing(key) ==> code == 1 && calls == []
    ensures !KeyMissing(key) ==> |calls| >= 2 && calls[0] == Configure(key.value) && calls[1] == Git(StagedDiffArgs)
    ensures AiCalled(calls) <==> !KeyMissing(key) && !NothingStaged(diffRun)
    ensures !KeyMissing(key) ==> (code == 0 <==> NothingStaged(diffRun) || (reply.Replied? && Allows(reply.text)))
  {
    if KeyMissing(key) {
      return 1, [];
    }
    var mainCalls;
    code, mainCalls := Run(diffRun, reply);
    AiCalledConcat([Configure(key.value)], mainCalls);
    calls := [Configure(key.value)] + mainCalls;
  }
}
