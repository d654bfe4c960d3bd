# ai-git-guard, modelled in Dafny

ai-git-guard blocks a `git push` when a large language model finds security
problems in the changes being pushed. It has two entry points that carry the
same decision pipeline:

- the `scan` command of the command-line tool (`cli.py`), run by a pre-push
  hook that the `install` command writes. It diffs the current branch against
  its upstream and asks for a structured review;
- a stand-alone script (`ai_prepush_check.py`), which diffs the staged
  changes and asks for a terse verdict.

In both, a missing API key blocks at once, and an empty diff allows without
asking the model. Otherwise the model's reply allows the push exactly when its
upper-cased text contains `SAFE TO RELEASE`. A failed request becomes the
sentinel `NEEDS REVIEW - AI check failed`, so it fails closed. The repository
also ships a sample numeric input validator (`sample.py`), modelled here as a
function from the input line to a number or an error message.

The model takes the answers of git and of the model service as inputs. Each
operation returns a trace of the requests it makes: configuring the client,
running git with an argument vector, and sending a prompt. This trace is how
the contracts say "no model request was made" and "nothing happened before
the key check".

Modules:

- `Text` (`text.dfy`): ASCII upper-casing, Python's `strip`, and substring
  search.
- `External` (`external.dfy`): the inputs (key, git runs, model outcome), the
  request trace, and the exit status.
- `Verdict` (`verdict.dfy`): the marker test, the exit code, and its
  properties. These cover case-insensitivity, the fail-closed sentinel, and
  the fact that stripping never changes the decision.
- `Template` (`template.dfy`): splicing a diff verbatim into a fixed prompt,
  and reading it back out.
- `BranchScan` (`branch_scan.dfy`): `scan`, `get_current_branch_diff` and
  `analyze_diff_with_ai` of `cli.py`.
- `Hook` (`hook.dfy`): the hook script that `install_hook` writes, and the
  exit status it gives git.
- `StagedCheck` (`staged_check.dfy`): the key check done when
  `ai_prepush_check.py` is loaded, plus its `get_staged_diff`,
  `analyze_diff_with_ai` and `main`.
- `NumberInput` (`number_input.dfy`): the validator in `sample.py`.

Behaviour worth noting:

- `cli.py` defines only the `install` and `scan` commands.
- In `cli.py`, running outside a repository does not fail. `git rev-parse`
  then exits non-zero and writes nothing to standard output. Its error message
  goes to standard error, which is captured and ignored. The upstream lookup
  fails, the diff is empty, and `scan` exits 0 (`BranchScan.Scan`, the `NoUpstream` case).
- In `ai_prepush_check.py`, a git run that raises is read as "no staged
  changes" and allows the push. This includes output that is not valid UTF-8.
- In `cli.py`, a git run that raises is not caught: `scan` crashes
  (`Crashed`), the process exits with 1, and the push is blocked.

## Model

| member | source | states |
|---|---|---|
| `Verdict.Allows` | cli.py:59 | The decision of both entry points (also ai_prepush_check.py:64): the verdict, upper-cased in ASCII, contains "SAFE TO RELEASE" anywhere. |
| `Text.Contains` | cli.py:59 | Python's substring `in`: the word occurs at some position of the text. The empty word occurs in every text. |
| `Text.Upper` | cli.py:59 | `str.upper` restricted to ASCII, character by character; its properties are stated by `Text.UpperCasesLettersOnly`. |
| `Text.UpperCasesLettersOnly` | cli.py:59 | Upper-casing keeps the length, leaves no lower-case ASCII letter, maps each lower-case letter to its capital (code minus 32), and keeps every other character. |
| `Text.Strip` | cli.py:75 | `str.strip()` as used on git output and replies (also cli.py:90, 99, 141 and ai_prepush_check.py:21, 48): the leading and trailing characters that Python's `isspace` accepts within ASCII are removed. |
| `Text.StripIsTrimmedInfix` | cli.py:99 | The stripped text is a contiguous part of the original that neither starts nor ends with whitespace, and only whitespace was cut off at both ends. |
| `External.KeyMissing` | cli.py:44 | `not GEMINI_API_KEY` (also ai_prepush_check.py:12): the variable is unset or set to the empty string. |
| `External.ProcessExitCode` | cli.py:39-64 | The status the shell sees: the code of `typer.Exit`, or 1 after an uncaught exception. It is 0 only for a clean exit with code 0. |
| `Verdict.ExitCode` | cli.py:59-64 | The exit code is 0 or 1. It is 0 exactly when the upper-cased verdict contains "SAFE TO RELEASE". |
| `Verdict.AllowsIgnoresCase` | cli.py:59 | Two verdicts that differ only in letter case get the same decision. |
| `Verdict.AllowsUpper` | ai_prepush_check.py:64 | Upper-casing the verdict first does not change the decision. |
| `Verdict.MarkerAllows` | ai_prepush_check.py:64-65 | The exact marker anywhere in the text allows the push. |
| `Verdict.AllowsInContext` | cli.py:59-61 | An allowing text still allows with any text before and after it, so only the marker matters. |
| `Verdict.SentinelBlocks` | cli.py:146-148 | The failure sentinel "NEEDS REVIEW - AI check failed" never allows, so model errors fail closed. |
| `Verdict.EmptyBlocks` | cli.py:141 | The empty text does not allow. This is what a response without a `text` attribute yields. |
| `Verdict.StripKeepsDecision` | cli.py:141 | Stripping whitespace from a reply never changes whether it allows. |
| `Text.StripEmptyIffBlank` | cli.py:99 | The stripped diff is empty exactly when the git output is only whitespace. |
| `Text.StripIdempotent` | cli.py:99 | Stripping an already stripped diff leaves it unchanged. |
| `Template.FillKeepsBody` | cli.py:102-135 | The prompt is the fixed prefix, then the diff unchanged, then the fixed suffix. |
| `Template.SlotOfFill` | ai_prepush_check.py:27-43 | The diff can be read back from a filled prompt. |
| `Template.FillOfSlot` | ai_prepush_check.py:27-43 | A text that has the template's shape is the template filled with the diff read back from it. |
| `BranchScan.GetCurrentBranchDiff` | cli.py:67-99 | Lists the git runs in order. If any run raises, the exception propagates. A non-zero upstream lookup gives the empty diff. Otherwise the result is the stripped diff of `upstream...branch` with `--unified=0`, and it is always stripped. No model request is made. |
| `BranchScan.ReviewPrompt` | cli.py:102-135 | The structured review prompt. `ReviewPrefix` and `ReviewSuffix` are the f-string's text byte for byte, and the diff is spliced in between without escaping. |
| `BranchScan.ReviewPromptRoundTrip` | cli.py:102-135 | The diff is recovered unchanged from the review prompt. |
| `BranchScan.ReviewedDiffIsInverse` | cli.py:102-135 | Every text of the review prompt's shape is the review prompt of the diff read back from it. |
| `BranchScan.ReviewPromptInjective` | cli.py:102-135 | Distinct diffs give distinct review prompts. |
| `BranchScan.EchoedReviewPromptAllows` | cli.py:130-135 | The review prompt contains "STATUS: SAFE TO RELEASE". A reply that echoes the prompt therefore allows the push, whatever the diff. |
| `BranchScan.AnalyzeDiffWithAi` | cli.py:101-148 | Sends one request with the review prompt. The result is the stripped reply, "" for a response without text, or the sentinel on failure. A reply allows exactly when its raw text does, and every non-reply blocks. |
| `BranchScan.Scan` | cli.py:39-64 | A missing or empty key exits 1 with no other action. Otherwise the client is configured first. No upstream, or a blank diff, exits 0 with no model request. A non-blank diff makes exactly one request, with the review prompt of the stripped diff, and exits 0 exactly when the reply contains the marker in any case. A raising git run crashes the command. It never exits with anything but 0 or 1. |
| `Hook.HookExitStatus` | cli.py:17-22 | The hook exits 0 exactly when the scan exits 0. Otherwise it exits 1. |
| `Hook.HookScriptRunsScan` | cli.py:15-23 | `HookScript` is the script literal byte for byte: the pieces `ScriptHead`, `ScanLine`, `ScriptMiddle`, `RejectLine` and "fi\n" are its lines in order. The script contains "ai-git-guard scan" and "exit 1". |
| `Hook.PushProceedsIffScanAllows` | cli.py:17-22 | Git proceeds exactly when `scan` ended with code 0. A crashed scan blocks like exit 1. |
| `StagedCheck.GetStagedDiff` | ai_prepush_check.py:18-24 | Runs `git diff --cached` once. The result is its stripped output, or "" if the run raised. The result is empty exactly when nothing (non-blank) is staged. |
| `StagedCheck.StagedPrompt` | ai_prepush_check.py:27-43 | The terse prompt. `StagedPrefix` and `StagedSuffix` are the f-string's text byte for byte, including its four-space indentation, and the diff is spliced in between without escaping. |
| `StagedCheck.StagedPromptRoundTrip` | ai_prepush_check.py:27-43 | The diff is recovered unchanged from the terse prompt. |
| `StagedCheck.PromptedDiffIsInverse` | ai_prepush_check.py:27-43 | Every text of the terse prompt's shape is the terse prompt of the diff read back from it. |
| `StagedCheck.EchoedStagedPromptAllows` | ai_prepush_check.py:38-40 | The terse prompt quotes "SAFE TO RELEASE", so an echoed prompt allows the push. |
| `StagedCheck.AnalyzeDiffWithAi` | ai_prepush_check.py:26-51 | Sends one request with the terse prompt. The result is the stripped reply, or the sentinel for any failure of the request or of reading its text. A reply allows exactly when its raw text does, and every failure blocks. |
| `StagedCheck.Run` | ai_prepush_check.py:53-66 | Returns 0 or 1. With nothing staged it returns 0 and makes no model request. Otherwise it makes exactly one request and returns 0 exactly when the reply contains the marker in any case. |
| `StagedCheck.Script` | ai_prepush_check.py:9-16 | A missing key exits 1 before `main` runs and makes no request. Otherwise the client is configured, then `main` decides. The exit code is 0 exactly when nothing is staged or the reply allows. |
| `NumberInput.MatchesDigitPattern` | sample.py:15 | `re.fullmatch(r"\d{1,5}", s)` on ASCII digits: the whole line is one to five digits. |
| `NumberInput.Validate` | sample.py:11-18 | A line over 5 characters gives "Input too long". A shorter line is accepted exactly when it is 1 to 5 digits, and otherwise gives "Invalid input format". An accepted value is at most 99999. |
| `NumberInput.DecimalValue` | sample.py:18 | The value of a digit string is below 10 to the power of its length. |
| `NumberInput.DecimalString` | sample.py:19 | The printed number is a non-empty digit string with no leading zero, unless the number is 0. |
| `NumberInput.Report` | sample.py:19-23 | An accepted line prints its number. A refused line prints "Invalid input: " followed by the message. |
| `NumberInput.ValidateDecimalString` | sample.py:15-19 | Every n in 0..99999, printed in decimal, is accepted back as n. |
| `NumberInput.DigitsArePaddedDecimal` | sample.py:18-19 | Every non-empty digit string is `str(int(s))` with zeros in front, and `str(int(s))` is never longer than `s`. |
| `NumberInput.AcceptedIsPaddedDecimal` | sample.py:15-19 | An accepted line is the printed number padded with leading zeros, so parsing then printing loses only the padding. |
| `NumberInput.LeadingZerosIgnored` | sample.py:18 | Leading zeros do not change the value. |
| `NumberInput.AcceptsZeroPaddedNumber` | sample.py:15-18 | A number padded with zeros to at most 5 characters is accepted as that number. |
| `NumberInput.LeadingZerosExample` | sample.py:18-19 | "007" is accepted as 7 and printed as "7". |
| `NumberInput.RejectionPrintsNoNumber` | sample.py:21-23 | A refused line prints the refusal prefix and never a digit string. |
| `NumberInput.LengthCheckedFirst` | sample.py:11-16 | The length check comes first. Any line over 5 characters reports "Input too long", whether or not it is numeric. |

## Left out

- Git itself is not modelled. Each git run is an input: a return code with decoded output, or an exception.
- The Gemini request is an input: a reply text, a response without text, or an exception. Neither `genai.configure` nor the model call is modelled beyond the `Configure` and `Generate` entries of the request trace. The model identifier `gemini-1.5-flash` is not recorded.
- Loading the `.env` file and the environment is not modelled. The key is an optional string.
- Printing, the `input_validation.log` logging in `sample.py`, and the typer application wiring (`app`, `main`, the `install` command) are not modelled. Every `print` is assumed never to raise.
- BranchScan.AnalyzeDiffWithAi: assumes that the two `print`s inside the `try` (cli.py:143-144) never raise. When one does (a `UnicodeEncodeError` for "📄" or for a reply character on a stdout that cannot encode it, or a `BrokenPipeError`), the exception is caught there and the result becomes the failure sentinel, so the push is blocked whatever the reply said.
- BranchScan.Scan: assumes that the `print`s outside any `try` (cli.py:45, 53, 56, 60, 63 and 86-87) never raise. When one does, `scan` crashes with exit 1, also on the no-key, no-upstream and empty-diff paths, where the model exits 1, 0 and 0 without a crash.
- StagedCheck.Run: assumes that the `print`s at ai_prepush_check.py:56, 59 and 62 never raise. When one does, the script crashes with exit 1, also on the nothing-staged path, where the model returns 0.
- BranchScan.AnalyzeDiffWithAi and StagedCheck.AnalyzeDiffWithAi: assume that constructing the client, `genai.GenerativeModel(...)` at cli.py:137 and ai_prepush_check.py:45, never raises. It sits outside the `try`, so a failure there crashes the command with exit 1 instead of giving the failure sentinel; the push is blocked either way.
- BranchScan.Scan and StagedCheck.Script: assume that `genai.configure` (cli.py:48, ai_prepush_check.py:16) never raises. A failure there would crash with exit 1 before any git run.
- `install_hook` writing the file, `os.chmod`, and the error path of that I/O are left out. The model keeps only the script's text and how the script's exit status follows the scan's; the hook's path `.git/hooks/pre-push` and its mode 0o755 are not modelled.
- `input()` and the `KeyboardInterrupt` and `EOFError` handlers in `sample.py` are interactive I/O. The validator takes the line as a parameter.
- `setup.py` is packaging metadata and is not modelled.
- `Text.Upper` upper-cases ASCII letters only. Python's `str.upper` also maps other characters, for example 'ſ' to 'S' and 'ı' to 'I', so a reply that spells the marker with such letters allows in Python and not in the model.
- `Text.Strip` removes the ASCII characters that Python's `str.isspace` accepts. Non-ASCII whitespace such as U+00A0 is kept.
- `NumberInput.MatchesDigitPattern` and `NumberInput.DecimalValue` accept ASCII digits only. Python's `\d` and `int` also accept other Unicode decimal digits.
