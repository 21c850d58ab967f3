/**
 * The package-state policy: `_check_package_installed` (conda.py:191-208),
 * `_install_package` and `_uninstall_package` (conda.py:211-232) and the
 * decision logic of `main` (conda.py:303-317). `exit_json` and `fail_json`
 * end the module; here they are the returned `Report`.
 */
module Reconciler {
  import opened Wrappers
  import opened Json
  import opened Commands
  import opened Runner
  import Parser

  datatype State = Present | Absent | Latest

  /** The module parameters that select the package and the state. */
  datatype Params = Params(name: string, version: Option<string>, state: State)

  /** How a run of the module ends. */
  datatype Report =
      /** `exit_json(changed=False)` */
    | Unchanged
      /** `exit_json(changed=True, name=..., version=..., output=..., error=...)` after an install */
    | Installed(name: string, version: Option<string>, output: Object, error: string)
      /** `exit_json(changed=True, output=..., error=...)` after a removal */
    | Removed(output: Object, error: string)
      /** `fail_json(msg=...)` */
    | Failed(msg: string)
      /** an exception that nothing catches */
    | Crashed(exception: Failure)

  /** Tags for the three commands `main` can hand to the process (their argument lists are given by `Sent`). */
  datatype Step = RanQuery | RanInstall | RanRemove

  /** A run of the module: how it ended, and which commands it ran, in order. */
  datatype Invocation = Invocation(report: Report, steps: seq<Step>)

  const AlreadyInstalledMessage := "All requested packages already installed."

  const LatestWithVersionMessage :=
    "`version` must not be set if `state == \"latest\"` (`latest` upgrades to newest version)"

  /** The dry-run answer says every requested package is already installed. */
  predicate SaysInstalled(output: Object) {
    "message" in output && output["message"] == Str(AlreadyInstalledMessage)
  }

  /** The dry-run answer plans at least one action. */
  predicate PlansActions(output: Object) {
    "actions" in output && Len(output["actions"]).Some? && Len(output["actions"]).value > 0
  }

  /**
   * The decision of `_check_package_installed` on the dry-run answer:
   * installed exactly on the exact message, not installed exactly when it
   * plans actions instead, `TypeError` when `actions` has no length, and
   * unexpected output in every other case.
   */
  function InterpretQuery(output: Object): (r: Outcome<bool>)
    ensures r == Ok(true) <==> SaysInstalled(output)
    ensures r == Ok(false) <==> !SaysInstalled(output) && PlansActions(output)
    ensures r == Raised(LenTypeError) <==> !SaysInstalled(output) && "actions" in output && Len(output["actions"]).None?
    ensures r == Raised(CondaUnexpectedOutputError)
        <==> !SaysInstalled(output) && !PlansActions(output) && !("actions" in output && Len(output["actions"]).None?)
  {
    if SaysInstalled(output) then Ok(true)
    else if "actions" in output then
      match Len(output["actions"])
      case None => Raised(LenTypeError)
      case Some(n) => if n > 0 then Ok(false) else Raised(CondaUnexpectedOutputError)
    else Raised(CondaUnexpectedOutputError)
  }

  /** An answer with an empty `actions` dict and no message is unexpected output. */
  lemma EmptyActionsIsUnexpected(output: Object)
    requires !SaysInstalled(output)
    requires "actions" in output && output["actions"] == Object(map[])
    ensures InterpretQuery(output) == Raised(CondaUnexpectedOutputError)
  {
    assert Len(output["actions"]) == Some(0);
  }

  /** The argument list the process sees for a command: channels and extras spliced in. */
  function Sent(cfg: Config, command: seq<string>): seq<string> {
    FinalCommand(command, cfg.channels, cfg.extraArgs)
  }

  /** The process's answer to a command, parsed. */
  function Answer(cfg: Config, run: ProcessRunner, decode: Decoder, command: seq<string>): Option<Object> {
    Parser.Parse(decode, run(Sent(cfg, command)).stdout)
  }

  /** The process accepts the command: exit code 0 and an answer that parses. */
  predicate Accepted(cfg: Config, run: ProcessRunner, decode: Decoder, command: seq<string>) {
    run(Sent(cfg, command)).rc == 0 && Answer(cfg, run, decode, command).Some?
  }

  /** conda accepts a command exactly when the package command returns a value. */
  lemma AcceptedIsOk(cfg: Config, run: ProcessRunner, decode: Decoder, command: seq<string>)
    ensures Accepted(cfg, run, decode, command) <==> RunCondaPackageCommand(cfg, run, decode, command).Ok?
  {
  }

  /** The query command, before channels and extras are spliced in. */
  function Query(conda: string, p: Params): seq<string> {
    QueryCommand(conda, InstallTarget(p.name, p.version))
  }

  /**
   * `_check_package_installed`: a result only when conda accepted the query,
   * and then the decision on its answer; otherwise exactly the exception the
   * package command raised.
   */
  function CheckPackageInstalled(cfg: Config, run: ProcessRunner, decode: Decoder, conda: string, p: Params)
    : (r: Outcome<bool>)
    ensures r.Ok? ==> Accepted(cfg, run, decode, Query(conda, p))
    ensures Accepted(cfg, run, decode, Query(conda, p))
        ==> r == InterpretQuery(Answer(cfg, run, decode, Query(conda, p)).value)
    ensures var q := RunCondaPackageCommand(cfg, run, decode, Query(conda, p));
      !Accepted(cfg, run, decode, Query(conda, p)) ==> q.Raised? && r == Raised(q.error)
  {
    AcceptedIsOk(cfg, run, decode, Query(conda, p));
    var q := RunCondaPackageCommand(cfg, run, decode, Query(conda, p));
    if q.Raised? then Raised(q.error) else InterpretQuery(q.value.output)
  }

  /**
   * `_install_package`: a change, reported with the name, the version,
   * conda's answer and its standard error, exactly when conda accepts the
   * install; otherwise exactly the exception the package command raised.
   */
  function InstallPackage(cfg: Config, run: ProcessRunner, decode: Decoder, conda: string, p: Params): (r: Report)
    ensures r.Installed? || r.Crashed?
    ensures var install := InstallCommand(conda, InstallTarget(p.name, p.version), cfg.checkMode);
      && (r.Installed? <==> Accepted(cfg, run, decode, install))
      && (r.Installed? ==>
            r == Installed(p.name, p.version, Answer(cfg, run, decode, install).value, run(Sent(cfg, install)).stderr))
      && (r.Crashed? ==>
            var q := RunCondaPackageCommand(cfg, run, decode, install); q.Raised? && r.exception == q.error)
  {
    match RunCondaPackageCommand(cfg, run, decode, InstallCommand(conda, InstallTarget(p.name, p.version), cfg.checkMode))
    case Raised(e) => Crashed(e)
    case Ok(reply) => Installed(p.name, p.version, reply.output, reply.stderr)
  }

  /**
   * `_uninstall_package`: a change, reported with conda's answer and its
   * standard error, exactly when conda accepts the removal; otherwise
   * exactly the exception the package command raised.
   */
  function UninstallPackage(cfg: Config, run: ProcessRunner, decode: Decoder, conda: string, name: string)
    : (r: Report)
    ensures r.Removed? || r.Crashed?
    ensures var remove := RemoveCommand(conda, name, cfg.checkMode);
      && (r.Removed? <==> Accepted(cfg, run, decode, remove))
      && (r.Removed? ==> r == Removed(Answer(cfg, run, decode, remove).value, run(Sent(cfg, remove)).stderr))
      && (r.Crashed? ==>
            var q := RunCondaPackageCommand(cfg, run, decode, remove); q.Raised? && r.exception == q.error)
  {
    match RunCondaPackageCommand(cfg, run, decode, RemoveCommand(conda, name, cfg.checkMode))
    case Raised(e) => Crashed(e)
    case Ok(reply) => Removed(reply.output, reply.stderr)
  }

  /**
   * The decision logic of `main` (lines 303-317), given the outcome of the
   * installed check and what the install and the removal would report:
   *  - `latest` with a version fails before any command is run;
   *  - the query always runs first, and every exception it raises (a missing
   *    package included) ends the run;
   *  - a package that is not installed, with state not `absent`, is
   *    installed, and that ends the run;
   *  - with state `absent` the removal always runs, and a missing package
   *    there ends the run with no change;
   *  - an installed package with state `present` or `latest` is left alone.
   */
  function Reconcile(p: Params, check: Outcome<bool>, install: Report, removal: Report): (inv: Invocation)
    requires install.Installed? || install.Crashed?
    requires removal.Removed? || removal.Crashed?
    ensures inv.report.Failed? <==> p.state == Latest && p.version.Some?
    ensures inv.report.Failed? ==> inv == Invocation(Failed(LatestWithVersionMessage), [])
    ensures !inv.report.Failed? ==> 1 <= |inv.steps| <= 2 && inv.steps[0] == RanQuery
    ensures !inv.report.Failed? && check.Raised? ==> inv == Invocation(Crashed(check.error), [RanQuery])
    ensures check == Ok(false) && p.state != Absent && !inv.report.Failed?
        ==> inv == Invocation(install, [RanQuery, RanInstall])
    ensures check.Ok? && p.state == Absent ==> inv.steps == [RanQuery, RanRemove]
    ensures check.Ok? && p.state == Absent && removal == Crashed(CondaPackageNotFoundError) ==> inv.report == Unchanged
    ensures check.Ok? && p.state == Absent && removal != Crashed(CondaPackageNotFoundError) ==> inv.report == removal
    ensures check == Ok(true) && p.state != Absent && !inv.report.Failed? ==> inv == Invocation(Unchanged, [RanQuery])
    ensures RanInstall in inv.steps ==> p.state != Absent
    ensures RanRemove in inv.steps ==> p.state == Absent
    ensures inv.report.Installed? ==> inv.report == install && RanInstall in inv.steps
    ensures inv.report.Removed? ==> inv.report == removal && RanRemove in inv.steps
  {
    if p.state == Latest && p.version.Some? then
      Invocation(Failed(LatestWithVersionMessage), [])
    else
      match check
      case Raised(e) => Invocation(Crashed(e), [RanQuery])
      case Ok(installed) =>
        if !installed && p.state != Absent then
          Invocation(install, [RanQuery, RanInstall])
        else if p.state == Absent then
          var report := if removal == Crashed(CondaPackageNotFoundError) then Unchanged else removal;
          Invocation(report, [RanQuery, RanRemove])
        else
          Invocation(Unchanged, [RanQuery])
  }

  /**
   * `main` from line 303 on, with the process answering each command through
   * `run`: it fails exactly on `latest` with a version, and it reports a
   * change only after conda accepted the install or the removal it ran.
   */
  function Main(cfg: Config, run: ProcessRunner, decode: Decoder, conda: string, p: Params): (inv: Invocation)
    ensures inv.report.Failed? <==> p.state == Latest && p.version.Some?
    ensures inv.report.Installed? ==>
      RanInstall in inv.steps && Accepted(cfg, run, decode, InstallCommand(conda, InstallTarget(p.name, p.version), cfg.checkMode))
    ensures inv.report.Removed? ==>
      RanRemove in inv.steps && Accepted(cfg, run, decode, RemoveCommand(conda, p.name, cfg.checkMode))
  {
    var install := InstallPackage(cfg, run, decode, conda, p);
    var removal := UninstallPackage(cfg, run, decode, conda, p.name);
    Reconcile(p, CheckPackageInstalled(cfg, run, decode, conda, p), install, removal)
  }

  /**
   * The system is already in the requested state: when the query answers
   * that the package is installed, a `present` or `latest` run changes
   * nothing and runs no command besides the query.
   */
  lemma AlreadyInstalledIsNoop(cfg: Config, run: ProcessRunner, decode: Decoder, conda: string, p: Params)
    requires p.state != Absent && !(p.state == Latest && p.version.Some?)
    requires Accepted(cfg, run, decode, Query(conda, p))
    requires SaysInstalled(Answer(cfg, run, decode, Query(conda, p)).value)
    ensures Main(cfg, run, decode, conda, p) == Invocation(Unchanged, [RanQuery])
  {
  }

  /**
   * A package the query plans actions for, with state `present`: the
   * install runs next and, when conda accepts it, the module reports a
   * change with conda's parsed answer and standard error.
   */
  lemma MissingPackageIsInstalled(cfg: Config, run: ProcessRunner, decode: Decoder, conda: string, p: Params)
    requires p.state == Present
    requires Accepted(cfg, run, decode, Query(conda, p))
    requires var o := Answer(cfg, run, decode, Query(conda, p)).value; !SaysInstalled(o) && PlansActions(o)
    requires Accepted(cfg, run, decode, InstallCommand(conda, InstallTarget(p.name, p.version), cfg.checkMode))
    ensures var install := InstallCommand(conda, InstallTarget(p.name, p.version), cfg.checkMode);
      Main(cfg, run, decode, conda, p) == Invocation(
        Installed(p.name, p.version, Answer(cfg, run, decode, install).value, run(Sent(cfg, install)).stderr),
        [RanQuery, RanInstall])
  {
  }

  /** A failed removal whose answer names `PackageNotFoundError` raises `CondaPackageNotFoundError`. */
  lemma RemovalNotFound(cfg: Config, run: ProcessRunner, decode: Decoder, conda: string, name: string)
    requires var remove := RemoveCommand(conda, name, cfg.checkMode);
      var answer := Answer(cfg, run, decode, remove);
      && run(Sent(cfg, remove)).rc != 0
      && answer.Some?
      && "exception_name" in answer.value
      && answer.value["exception_name"] == Str("PackageNotFoundError")
    ensures UninstallPackage(cfg, run, decode, conda, name) == Crashed(CondaPackageNotFoundError)
  {
    var remove := RemoveCommand(conda, name, cfg.checkMode);
    var base := RunCondaCommand(cfg, run, decode, remove);
    var answer := Answer(cfg, run, decode, remove).value;
    assert base.Raised?;
    assert base.error.output == Some(answer);
    assert ReportsPackageNotFound(base.error);
  }

  /**
   * State `absent` with a query that succeeds: the removal runs whatever
   * the query said, and a removal that fails with `PackageNotFoundError`
   * ends the run without a change and without an error.
   */
  lemma AbsentMissingPackageIsNoop(cfg: Config, run: ProcessRunner, decode: Decoder, conda: string, p: Params)
    requires p.state == Absent
    requires CheckPackageInstalled(cfg, run, decode, conda, p).Ok?
    requires var remove := RemoveCommand(conda, p.name, cfg.checkMode);
      var answer := Answer(cfg, run, decode, remove);
      && run(Sent(cfg, remove)).rc != 0
      && answer.Some?
      && "exception_name" in answer.value
      && answer.value["exception_name"] == Str("PackageNotFoundError")
    ensures Main(cfg, run, decode, conda, p) == Invocation(Unchanged, [RanQuery, RanRemove])
  {
    RemovalNotFound(cfg, run, decode, conda, p.name);
  }

  /** A missing package reported by the first query is not caught, not even for state `absent`. */
  lemma QueryNotFoundCrashes(cfg: Config, run: ProcessRunner, decode: Decoder, conda: string, p: Params)
    requires !(p.state == Latest && p.version.Some?)
    requires RunCondaPackageCommand(cfg, run, decode, Query(conda, p)) == Raised(CondaPackageNotFoundError)
    ensures Main(cfg, run, decode, conda, p) == Invocation(Crashed(CondaPackageNotFoundError), [RanQuery])
  {
  }

  /**
   * A missing package reported by the install is not caught either: unlike
   * the removal, the install lets `CondaPackageNotFoundError` reach the caller.
   */
  lemma InstallNotFoundCrashes(cfg: Config, run: ProcessRunner, decode: Decoder, conda: string, p: Params)
    requires p.state != Absent && !(p.state == Latest && p.version.Some?)
    requires CheckPackageInstalled(cfg, run, decode, conda, p) == Ok(false)
    requires var install := InstallCommand(conda, InstallTarget(p.name, p.version), cfg.checkMode);
      RunCondaPackageCommand(cfg, run, decode, install) == Raised(CondaPackageNotFoundError)
    ensures Main(cfg, run, decode, conda, p) == Invocation(Crashed(CondaPackageNotFoundError), [RanQuery, RanInstall])
  {
  }
}
