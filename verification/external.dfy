/** What the scanner receives from its collaborators (the environment, git and
    the remote model) and the record of the requests it makes to them. The
    collaborators themselves are not modelled: their answers are inputs. */
module External {

  datatype Option<T> = None | Some(value: T)

  /** The `GEMINI_API_KEY` lookup after the dotenv file is loaded: absent, or
      the variable's value. Python's `not key` holds for both `None` and "". */
  predicate KeyMissing(key: Option<string>) {
    key.None? || key.value == ""
  }

  /** The outcome of one `subprocess.run` of git: the process ran, with its
      return code and its standard output as the program reads it, or the call
      raised (git could not be started, or its output was not valid UTF-8).
      The output is decoded as UTF-8 in both entry points, but they differ in
      line endings: `cli.py` runs git in text mode, which also turns "\r\n"
      and a lone "\r" into "\n", while `ai_prepush_check.py` calls
      `bytes.decode()`, which keeps them. `stdout` is the text after that
      decoding, so the newline translation is part of the input. */
  datatype GitRun = Ran(returnCode: int, stdout: string) | Raised

  /** The outcome of one `generate_content` request: a response carrying a
      text, a response without a `text` attribute, or an exception raised by the
      request or by reading the response text. */
  datatype AiOutcome = Replied(text: string) | NoTextAttribute | Failed

  /** One request to a collaborator, in the order the scanner makes them:
      configuring the model client with the key, running git with an argument
      vector, and sending a prompt to the model. */
  datatype Call = Configure(apiKey: string) | Git(args: seq<string>) | Generate(prompt: string)

  /** How a command ends: through `typer.Exit` (or a returned exit code) with
      the given code, or through an exception nobody catches. */
  datatype Status = Exited(code: nat) | Crashed

  /** The process exit status the shell sees: Python exits with status 1 after
      an uncaught exception. */
  function ProcessExitCode(status: Status): (code: nat)
    ensures code == 0 <==> status == Exited(0)
    ensures status.Crashed? ==> code == 1
  {
    match status
    case Exited(c) => c
    case Crashed => 1
  }

  /** The calls contain a request to the model. */
  predicate AiCalled(calls: seq<Call>) {
    exists i :: 0 <= i < |calls| && calls[i].Generate?
  }

  /** A concatenation of traces asks the model exactly when one of its parts does. */
  lemma AiCalledConcat(a: seq<Call>, b: seq<Call>)
    ensures AiCalled(a + b) <==> AiCalled(a) || AiCalled(b)
  {
    if AiCalled(a) {
      var i :| 0 <= i < |a| && a[i].Generate?;
      assert (a + b)[i] == a[i];
    }
    if AiCalled(b) {
      var i :| 0 <= i < |b| && b[i].Generate?;
      assert (a + b)[|a| + i] == b[i];
    }
    if AiCalled(a + b) {
      var i :| 0 <= i < |a + b| && (a + b)[i].Generate?;
      if i >= |a| {
        assert b[i - |a|] == (a + b)[i];
      }
    }
  }
}
