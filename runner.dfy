/**
 * Running a conda command and classifying what came back
 * (`_run_conda_command`, conda.py:133-156, and `_run_conda_package_command`,
 * conda.py:159-175). The process itself is an input: a function from the
 * argument list to exit code, standard output and standard error.
 */
module Runner {
  import opened Wrappers
  import opened Json
  import opened Parser
  import opened Commands

  /** What `module.run_command` returns. */
  datatype Process = Process(rc: int, stdout: string, stderr: string)

  /** The external process: the same command always gives the same answer within one run of the module. */
  type ProcessRunner = seq<string> -> Process

  /** The module parameters every command sees, and check mode. */
  datatype Config = Config(channels: Option<string>, extraArgs: Option<string>, checkMode: bool)

  /** The exceptions that can leave the module's functions. */
  datatype Failure =
    | CondaCommandError(command: seq<string>, message: Option<Value>, output: Option<Object>, stdout: string, stderr: string)
    | CondaPackageNotFoundError
    | CondaUnexpectedOutputError
      /** `len()` of an `actions` value that has no length (conda.py:205). */
    | LenTypeError

  /** A value returned, or an exception raised. */
  datatype Outcome<T> = Ok(value: T) | Raised(error: Failure)

  /** The pair `(parsed_stdout, stderr)` a successful command returns. */
  datatype Reply = Reply(output: Object, stderr: string)

  /**
   * The outcome of one process run: an error exactly when the exit code is
   * not 0 or no result could be parsed; the error carries the parsed
   * `message` exactly when there is a parsed result with that key whose value
   * is not `null` (a JSON `null` reads back as Python's `None`), together
   * with the command, the parsed result (if any) and the raw output.
   */
  function Classify(command: seq<string>, p: Process, decode: Decoder): (r: Outcome<Reply>)
    ensures var parsed := Parse(decode, p.stdout);
      && (r.Ok? <==> p.rc == 0 && parsed.Some?)
      && (r.Ok? ==> r.value == Reply(parsed.value, p.stderr))
      && (r.Raised? ==> r.error.CondaCommandError?)
      && (r.Raised? ==> r.error == CondaCommandError(command, r.error.message, parsed, p.stdout, p.stderr))
      && (r.Raised? ==>
            (r.error.message.Some? <==> (parsed.Some? && "message" in parsed.value && parsed.value["message"] != Null)))
      && (r.Raised? && r.error.message.Some? ==> r.error.message.value == parsed.value["message"])
  {
    var parsed := Parse(decode, p.stdout);
    if p.rc != 0 || parsed.None? then
      var message :=
        if parsed.Some? && "message" in parsed.value && parsed.value["message"] != Null
        then Some(parsed.value["message"]) else None;
      Raised(CondaCommandError(command, message, parsed, p.stdout, p.stderr))
    else
      Ok(Reply(parsed.value, p.stderr))
  }

  /**
   * `_run_conda_command`: splice in channels and extras, run, parse, classify.
   * A success returns the pair `(parsed_stdout, stderr)` of the spliced
   * command; an error carries that command and its raw and parsed output.
   */
  function RunCondaCommand(cfg: Config, run: ProcessRunner, decode: Decoder, command: seq<string>): (r: Outcome<Reply>)
    ensures var cmd := FinalCommand(command, cfg.channels, cfg.extraArgs);
      var p, parsed := run(cmd), Parse(decode, run(cmd).stdout);
      && (r.Ok? <==> p.rc == 0 && parsed.Some?)
      && (r.Ok? ==> r.value == Reply(parsed.value, p.stderr))
      && (r.Raised? ==> r.error.CondaCommandError? && r.error.command == cmd)
      && (r.Raised? ==> r.error.output == parsed && r.error.stdout == p.stdout && r.error.stderr == p.stderr)
  {
    var cmd := FinalCommand(command, cfg.channels, cfg.extraArgs);
    Classify(cmd, run(cmd), decode)
  }

  /** A command error whose parsed output names conda's `PackageNotFoundError`. */
  predicate ReportsPackageNotFound(e: Failure) {
    && e.CondaCommandError?
    && e.output.Some?
    && "exception_name" in e.output.value
    && e.output.value["exception_name"] == Str("PackageNotFoundError")
  }

  /**
   * `_run_conda_package_command`: a command error reporting
   * `PackageNotFoundError` becomes `CondaPackageNotFoundError`; every other
   * outcome, successful or not, is passed through unchanged.
   */
  function RunCondaPackageCommand(cfg: Config, run: ProcessRunner, decode: Decoder, command: seq<string>)
    : (r: Outcome<Reply>)
    ensures var base := RunCondaCommand(cfg, run, decode, command);
      && (r == Raised(CondaPackageNotFoundError) <==> base.Raised? && ReportsPackageNotFound(base.error))
      && (!(base.Raised? && ReportsPackageNotFound(base.error)) ==> r == base)
      && (r.Ok? <==> base.Ok?)
      && (r.Raised? ==> r.error.CondaCommandError? || r.error == CondaPackageNotFoundError)
  {
    var base := RunCondaCommand(cfg, run, decode, command);
    if base.Raised? && ReportsPackageNotFound(base.error) then Raised(CondaPackageNotFoundError) else base
  }

  /**
   * `CondaPackageNotFoundError` comes exactly from a failing exit code
   * together with a parsed answer whose `exception_name` is
   * `PackageNotFoundError`; the same answer with exit code 0 is a success.
   */
  lemma PackageNotFoundExactly(cfg: Config, run: ProcessRunner, decode: Decoder, command: seq<string>)
    ensures var p := run(FinalCommand(command, cfg.channels, cfg.extraArgs));
      var parsed := Parse(decode, p.stdout);
      (RunCondaPackageCommand(cfg, run, decode, command) == Raised(CondaPackageNotFoundError))
      == (p.rc != 0 && parsed.Some? && "exception_name" in parsed.value
          && parsed.value["exception_name"] == Str("PackageNotFoundError"))
  {
    var base := RunCondaCommand(cfg, run, decode, command);
    var p := run(FinalCommand(command, cfg.channels, cfg.extraArgs));
    if base.Raised? {
      assert base.error.output == Parse(decode, p.stdout);
    }
  }

  /** A failing tool whose output is noise: the error keeps the raw output and no message or parsed result. */
  lemma NoiseFailureKeepsDiagnostics(command: seq<string>, p: Process, decode: Decoder)
    requires p.rc != 0 && Parse(decode, p.stdout).None?
    ensures Classify(command, p, decode) == Raised(CondaCommandError(command, None, None, p.stdout, p.stderr))
  {
  }

  /** A successful exit with unparseable output is an error too, and never a missing package. */
  lemma UnparsedOutputIsCommandError(cfg: Config, run: ProcessRunner, decode: Decoder, command: seq<string>)
    requires Parse(decode, run(FinalCommand(command, cfg.channels, cfg.extraArgs)).stdout).None?
    ensures var r := RunCondaPackageCommand(cfg, run, decode, command);
      r.Raised? && r.error.CondaCommandError? && r.error.output.None?
  {
    var base := RunCondaCommand(cfg, run, decode, command);
    assert base.Raised? && base.error.output.None?;
    assert !ReportsPackageNotFound(base.error);
  }
}
