/** The `scan` command of the command-line tool: read the key, diff the
    current branch against its upstream, ask the model for a review of that
    diff and turn the verdict into an exit code. */
module BranchScan {
  import opened Text
  import opened External
  import opened Verdict
  import opened Template

  /** The git argument vector that names the current branch. */
  const HeadArgs: seq<string> := ["git", "rev-parse", "--abbrev-ref", "HEAD"]

  /** The git argument vector that resolves the upstream of `branch`. */
  function UpstreamArgs(branch: string): (args: seq<string>) {
    ["git", "rev-parse", "--symbolic-full-name", "--abbrev-ref", branch + "@{upstream}"]
  }

  /** The git argument vector for the zero-context diff from the merge base of
      `upstream` and `branch` to `branch`. */
  function DiffArgs(upstream: string, branch: string): (args: seq<string>) {
    ["git", "diff", upstream + "..." + branch, "--unified=0"]
  }

  /** What looking up the branch diff produced: a diff text, or an exception
      from one of the git runs, which nothing in the command catches. */
  datatype Fetch = Fetched(diff: string) | GitRaised

  /** The branch name was read and git reported that it has no upstream. */
  predicate NoUpstream(head: GitRun, upstream: GitRun) {
    head.Ran? && upstream.Ran? && upstream.returnCode != 0
  }

  /** The branch name was read and its upstream resolved. */
  predicate UpstreamFound(head: GitRun, upstream: GitRun) {
    head.Ran? && upstream.Ran? && upstream.returnCode == 0
  }

  /** The diff of the current branch against its upstream. `head`, `upstream`
      and `diffRun` are what the three git runs yield, in order; the branch
      name and the upstream name are the stripped outputs of the first two, and
      the return codes of the first and the third are not looked at. Without
      an upstream the diff is empty. */
  method GetCurrentBranchDiff(head: GitRun, upstream: GitRun, diffRun: GitRun)
    returns (fetch: Fetch, calls: seq<Call>)
    ensures head.Raised? ==> fetch == GitRaised && calls == [Git(HeadArgs)]
    ensures head.Ran? && upstream.Raised? ==>
      fetch == GitRaised && calls == [Git(HeadArgs), Git(UpstreamArgs(Strip(head.stdout)))]
    ensures NoUpstream(head, upstream) ==>
      fetch == Fetched("") && calls == [Git(HeadArgs), Git(UpstreamArgs(Strip(head.stdout)))]
    ensures UpstreamFound(head, upstream) ==>
      calls == [Git(HeadArgs), Git(UpstreamArgs(Strip(head.stdout))),
                Git(DiffArgs(Strip(upstream.stdout), Strip(head.stdout)))] &&
      fetch == (if diffRun.Raised? then GitRaised else Fetched(Strip(diffRun.stdout)))
    ensures fetch.Fetched? ==> Strip(fetch.diff) == fetch.diff
    ensures !AiCalled(calls)
  {
    calls := [Git(HeadArgs)];
    if head.Raised? {
      return GitRaised, calls;
    }
    var currentBranch := Strip(head.stdout);
    calls := calls + [Git(UpstreamArgs(currentBranch))];
    if upstream.Raised? {
      return GitRaised, calls;
    }
    if upstream.returnCode != 0 {
      return Fetched(""), calls;
    }
    var upstreamName := Strip(upstream.stdout);
    calls := calls + [Git(DiffArgs(upstreamName, currentBranch))];
    if diffRun.Raised? {
      return GitRaised, calls;
    }
    StripIdempotent(diffRun.stdout);
    fetch := Fetched(Strip(diffRun.stdout));
  }

  /** The review prompt text before the diff. */
  const ReviewPrefix: string :=
    "\n" +
    "You are a senior security code reviewer. A developer is trying to push the following committed code changes:\n" +
    "\n"

  /** The review prompt text after the diff, up to the line that gives the
      allowing answer. */
  const ReviewInstructions: string :=
    "\n" +
    "\n" +
    "Your job is to:\n" +
    "1. Identify security vulnerabilities (especially OWASP Top 10)\n" +
    "2. Focus on:\n" +
    "- Code injection (eval, exec)\n" +
    "- Command injection (os.system, subprocess)\n" +
    "- SQL injection (raw queries, string formatting)\n" +
    "- Hardcoded credentials or API keys\n" +
    "- Insecure deserialization\n" +
    "- Dangerous file handling or permissions\n" +
    "- XSS (for web)\n" +
    "3. Provide a severity rating (Low, Medium, High)\n" +
    "4. Output a structured result like:\n" +
    "\n" +
    "---\n" +
    "SEVERITY: High  \n" +
    "STATUS: NEEDS REVIEW - Potential issues: [summary]  \n" +
    "DETAILS:\n" +
    "- [explanation]\n" +
    "- [file/line if possible]\n" +
    "SUGGESTIONS:\n" +
    "- [fix or better practice]\n" +
    "---\n" +
    "\n" +
    "If no issues found, reply with:\n" +
    "---\n" +
    "SEVERITY: None  \n"

  /** The line of the prompt that shows the allowing answer. */
  const SafeStatusLine: string := "STATUS: SAFE TO RELEASE  \n"

  /** The review prompt text after the diff. */
  const ReviewSuffix: string := ReviewInstructions + SafeStatusLine + "---\n"

  /** The structured review prompt: the diff is spliced in verbatim between
      the fixed prefix and suffix. */
  function ReviewPrompt(diff: string): (prompt: string) {
    Fill(ReviewPrefix, diff, ReviewSuffix)
  }

  /** The diff a review prompt was built from, if the text is one. */
  function ReviewedDiff(p: string): (diff: Option<string>) {
    Slot(ReviewPrefix, ReviewSuffix, p)
  }

  /** The diff can be read back from the prompt: nothing in it is lost or
      altered. */
  lemma ReviewPromptRoundTrip(diff: string)
    ensures ReviewedDiff(ReviewPrompt(diff)) == Some(diff)
  {
    SlotOfFill(ReviewPrefix, diff, ReviewSuffix);
  }

  /** Every text the diff can be read back from is the prompt of that diff. */
  lemma ReviewedDiffIsInverse(p: string)
    requires ReviewedDiff(p).Some?
    ensures ReviewPrompt(ReviewedDiff(p).value) == p
  {
    FillOfSlot(ReviewPrefix, ReviewSuffix, p);
  }

  /** Distinct diffs give distinct prompts. */
  lemma ReviewPromptInjective(d1: string, d2: string)
    requires ReviewPrompt(d1) == ReviewPrompt(d2)
    ensures d1 == d2
  {
    FillInjective(ReviewPrefix, ReviewSuffix, d1, d2);
  }

  /** The line that shows the allowing answer allows the push by itself. */
  lemma SafeLineAllows()
    ensures Allows(SafeStatusLine)
  {
    assert OccursAt(SafeStatusLine, Marker, 8);
    MarkerAllows(SafeStatusLine);
  }

  /** The prompt itself spells out the allowing answer, so a reply that merely
      echoes the prompt allows the push, whatever the diff. */
  lemma EchoedReviewPromptAllows(diff: string)
    ensures Allows(ReviewPrompt(diff))
  {
    SafeLineAllows();
    FillRegroup(ReviewPrefix, diff, ReviewInstructions, SafeStatusLine, "---\n");
    AllowsInContext(ReviewPrefix + diff + ReviewInstructions, SafeStatusLine, "---\n");
  }

  /** `analyze_diff_with_ai`: sends the review prompt once and returns the
      stripped reply text; a response without text gives the empty text and a
      failed request gives the failure sentinel. Only a reply can allow, and
      then exactly when its unstripped text would. */
  method AnalyzeDiffWithAi(diff: string, reply: AiOutcome) returns (result: string, calls: seq<Call>)
    ensures calls == [Generate(ReviewPrompt(diff))]
    ensures reply.Replied? ==> result == Strip(reply.text)
    ensures reply.NoTextAttribute? ==> result == ""
    ensures reply.Failed? ==> result == FailSentinel
    ensures reply.Replied? ==> (Allows(result) <==> Allows(reply.text))
    ensures !reply.Replied? ==> !Allows(result)
  {
    calls := [Generate(ReviewPrompt(diff))];
    match reply
    case Replied(text) =>
      result := Strip(text);
      StripKeepsDecision(text);
    case NoTextAttribute =>
      result := "";
      EmptyBlocks();
    case Failed =>
      result := FailSentinel;
      SentinelBlocks();
  }

  /** The `scan` command. A missing key ends it with code 1 before anything
      else happens. Otherwise the client is configured and the branch diff is
      fetched; an empty diff (no upstream, or nothing but whitespace) ends it
      with code 0 and no model request; a non-empty diff is sent to the model
      once and the command ends with code 0 exactly when the reply contains
      the marker in any letter case. Exceptions from git are not caught. */
  method Scan(key: Option<string>, head: GitRun, upstream: GitRun, diffRun: GitRun, reply: AiOutcome)
    returns (status: Status, calls: seq<Call>)
    ensures status == Exited(0) || status == Exited(1) || status == Crashed
    ensures KeyMissing(key) ==> status == Exited(1) && calls == []
    ensures !KeyMissing(key) ==> |calls| >= 2 && calls[0] == Configure(key.value) && calls[1] == Git(HeadArgs)
    ensures status == Crashed <==>
      !KeyMissing(key) &&
      (head.Raised? || (head.Ran? && upstream.Raised?) || (UpstreamFound(head, upstream) && diffRun.Raised?))
    ensures !KeyMissing(key) && NoUpstream(head, upstream) ==> status == Exited(0) && !AiCalled(calls)
    ensures !KeyMissing(key) && UpstreamFound(head, upstream) && diffRun.Ran? ==>
      (AiCalled(calls) <==> !IsBlank(diffRun.stdout))
    ensures !KeyMissing(key) && UpstreamFound(head, upstream) && diffRun.Ran? && IsBlank(diffRun.stdout) ==>
      status == Exited(0)
    ensures AiCalled(calls) ==>
      UpstreamFound(head, upstream) && diffRun.Ran? && !IsBlank(diffRun.stdout) &&
      calls == [Configure(key.value), Git(HeadArgs), Git(UpstreamArgs(Strip(head.stdout))),
                Git(DiffArgs(Strip(upstream.stdout), Strip(head.stdout))),
                Generate(ReviewPrompt(Strip(diffRun.stdout)))]
    ensures AiCalled(calls) ==> (status == Exited(0) <==> reply.Replied? && Allows(reply.text))
    ensures !AiCalled(calls) && status != Crashed ==> status == Exited(if KeyMissing(key) then 1 else 0)
  {
    if KeyMissing(key) {
      return Exited(1), [];
    }
    calls := [Configure(key.value)];
    var fetch, gitCalls := GetCurrentBranchDiff(head, upstream, diffRun);
    AiCalledConcat(calls, gitCalls);
    calls := calls + gitCalls;
    if fetch.GitRaised? {
      return Crashed, calls;
    }
    var diff := fetch.diff;
    StripEmptyIffBlank(if diffRun.Ran? then diffRun.stdout else "");
    if diff == "" {
      return Exited(0), calls;
    }
    var result, aiCalls := AnalyzeDiffWithAi(diff, reply);
    assert calls + aiCalls ==
      [Configure(key.value), Git(HeadArgs), Git(UpstreamArgs(Strip(head.stdout))),
       Git(DiffArgs(Strip(upstream.stdout), Strip(head.stdout))), Generate(ReviewPrompt(diff))];
    calls := calls + aiCalls;
    assert calls[4].Generate?;
    status := Exited(ExitCode(result));
  }
}
