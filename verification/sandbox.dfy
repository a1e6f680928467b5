/** What the remote interpreter hands back for one `run_code` call, and how
    `code_interpret` turns it into the optional result list. */
module Sandbox {
  import opened Common

  /** One structured value produced by the executed code, reduced to the
      capabilities the renderer probes: the `png` attribute (absent and `None`
      are both `None`), presence of a `figure` or `show` attribute, and
      whether it is a pandas DataFrame or Series. */
  datatype Artifact = Artifact(png: Option<string>, hasFigure: bool, hasShow: bool, isTabular: bool)

  /** The runtime error the interpreter reports for the submitted code. */
  datatype ExecError = ExecError(name: string, value: string, traceback: string)

  /** The outcome of one `run_code` call: the results in the order the code
      produced them, and the error, if the code raised one. */
  datatype Execution = Execution(results: seq<Artifact>, error: Option<ExecError>)

  /** What the `run_code` call itself does: it returns an execution, or it
      raises (a timeout or a transport failure), and the exception propagates
      out of `code_interpret`. */
  datatype RunOutcome = Executed(execution: Execution) | Raised(reason: string)

  /** Runs `code` in the sandbox `run`. A raising call is an error; otherwise
      the result is `None` when the execution reports an error (even if it
      produced results before failing), and the execution's results
      otherwise. */
  function CodeInterpret(run: string -> RunOutcome, code: string): (r: Result<Option<seq<Artifact>>, string>)
    ensures r.Err? <==> run(code).Raised?
    ensures r.Err? ==> r.error == run(code).reason
    ensures r.Ok? ==> (r.value.None? <==> run(code).execution.error.Some?)
    ensures r.Ok? && r.value.Some? ==> r.value.value == run(code).execution.results
  {
    match run(code)
    case Raised(reason) => Err(reason)
    case Executed(exec) =>
      if exec.error.Some? then Ok(None) else Ok(Some(exec.results))
  }
}
