/**
 * One worker of TentaclePreview/tentacle.py: a branch's working copy, its
 * build steps, its server process and the status flags the dashboard
 * shows. Subprocess results, process exits and the git commit ids are
 * inputs; the command substitution is `CommandTemplate.Render`.
 */
module Tentacles {
  import opened Wrappers
  import opened JsValue
  import opened CommandTemplate
  import opened GitUtils

  /** A command entry of the configuration: one command line or a list of them. */
  datatype CommandSpec = Single(line: string) | Multiple(lines: seq<string>)

  /** `_process` and what its `poll()` says. */
  datatype ProcessState = NoProcess | Running | Exited(code: int)

  /** How `subprocess.run(..., check=True)` ended for one build step. */
  datatype StepOutcome =
    | Completed                  // exit status 0
    | Failed(stderr: string)     // CalledProcessError: a non-zero exit, with the captured stderr
    | Raised(message: string)    // any other exception, which leaves `build`

  /** How `subprocess.Popen` ended for the start command. */
  datatype LaunchOutcome = Launched | LaunchFailed(message: string)

  /** How `git fetch --all --force --prune` in `update` ended. */
  datatype FetchOutcome = Fetched | FetchFailed(message: string)

  /** An exception that leaves `build`, `start` or `update`. */
  datatype Escaped = FormatFailed(error: FormatError) | OsError(message: string) | GitFailed(message: string)

  const CommandsMissing := "'start' and 'build' commands must exist"

  /** The host the worker binds, as `_host` and the start context both hold it. */
  const LocalHost := "127.0.0.1"

  /** The check in `__init__`: both command keys must be configured. */
  function CheckCommands(commands: map<string, CommandSpec>): (r: Option<string>)
    ensures r.None? <==> "start" in commands && "build" in commands
    ensures r.Some? ==> r.value == CommandsMissing
  {
    if "start" in commands && "build" in commands then None else Some(CommandsMissing)
  }

  /** What `str.strip()` removes: the characters Python's `str.isspace()` accepts. */
  predicate IsPyWhitespace(c: char) {
    var n := c as int;
    n == 0x20 || 0x09 <= n <= 0x0D || 0x1C <= n <= 0x1F || n == 0x85 || n == 0xA0 || n == 0x1680 ||
    0x2000 <= n <= 0x200A || n == 0x2028 || n == 0x2029 || n == 0x202F || n == 0x205F || n == 0x3000
  }

  /** `not raw_cmd.strip()` */
  predicate IsBlank(s: string) {
    forall i :: 0 <= i < |s| ==> IsPyWhitespace(s[i])
  }

  /** The build steps: a single command line is a list of one. */
  function BuildSteps(spec: CommandSpec): (steps: seq<string>)
    ensures spec.Single? ==> steps == [spec.line]
    ensures spec.Multiple? ==> steps == spec.lines
  {
    match spec
    case Single(line) => [line]
    case Multiple(lines) => lines
  }

  /** `_command_context`, the names build steps may use. */
  function CommandContext(host: string, port: nat, path: string, branch: string): map<string, string> {
    map["host" := host, "port" := NatToDecimal(port), "path" := path, "branch" := branch]
  }

  /** The names `start` offers its command: no `branch`. */
  function StartContext(path: string, port: nat): map<string, string> {
    map["path" := path, "host" := LocalHost, "port" := NatToDecimal(port)]
  }

  /**
   * The start context is part of the build context of the same worker:
   * a start command that renders renders the same with the build names,
   * while `{branch}` renders only in a build step.
   */
  lemma StartContextWithinBuildContext(path: string, port: nat, branch: string)
    ensures SubContext(StartContext(path, port), CommandContext(LocalHost, port, path, branch))
    ensures Render("{branch}", CommandContext(LocalHost, port, path, branch)) == Success(branch)
    ensures Render("{branch}", StartContext(path, port)) == Failure(MissingKey("branch"))
  {
    assert "{branch}" == "{" + "branch" + "}";
    assert !AllDigits("branch") by { assert "branch"[0] == 'b'; }
    RenderField("branch", CommandContext(LocalHost, port, path, branch));
    RenderField("branch", StartContext(path, port));
  }

  /** The outcome of the build loop: the flag, the error, the commands run, and what escaped. */
  datatype BuildReport = BuildReport(success: bool, error: Option<string>, executed: seq<string>, escaped: Option<Escaped>)

  /** The placeholder substitution a build step goes through (`_render_command`). */
  type Substitution = string -> Result<string, FormatError>

  /** `report` with `done` run before it. */
  function AfterPrefix(done: seq<string>, report: BuildReport): BuildReport {
    report.(executed := done + report.executed)
  }

  /**
   * The `for raw_cmd in commands` loop of `build`: blank steps are skipped,
   * each other step is rendered and run with its outcome, a non-zero exit
   * records the failure and stops, and a render error or any other
   * exception escapes with the flag still set.
   */
  function RunSteps(steps: seq<string>, outcomes: seq<StepOutcome>, render: Substitution): (r: BuildReport)
    requires |outcomes| == |steps|
    ensures r.success <==> r.error.None?
    ensures !r.success ==> r.escaped.None?
    decreases |steps|
  {
    if steps == [] then BuildReport(true, None, [], None)
    else if IsBlank(steps[0]) then RunSteps(steps[1..], outcomes[1..], render)
    else match render(steps[0])
      case Failure(e) => BuildReport(true, None, [], Some(FormatFailed(e)))
      case Success(cmd) =>
        match outcomes[0]
        case Completed => AfterPrefix([cmd], RunSteps(steps[1..], outcomes[1..], render))
        case Failed(err) => BuildReport(false, Some(err), [cmd], None)
        case Raised(m) => BuildReport(true, None, [cmd], Some(OsError(m)))
  }

  /** `RunSteps` from step `i` on, unfolded once. */
  lemma RunStepsAt(steps: seq<string>, outcomes: seq<StepOutcome>, render: Substitution, i: nat)
    requires |outcomes| == |steps| && i < |steps|
    ensures IsBlank(steps[i]) ==>
      RunSteps(steps[i..], outcomes[i..], render) == RunSteps(steps[i + 1..], outcomes[i + 1..], render)
    ensures !IsBlank(steps[i]) && render(steps[i]).Failure? ==>
      RunSteps(steps[i..], outcomes[i..], render) == BuildReport(true, None, [], Some(FormatFailed(render(steps[i]).error)))
    ensures !IsBlank(steps[i]) && render(steps[i]).Success? ==>
      var cmd := render(steps[i]).value;
      RunSteps(steps[i..], outcomes[i..], render) ==
        match outcomes[i]
        case Completed => AfterPrefix([cmd], RunSteps(steps[i + 1..], outcomes[i + 1..], render))
        case Failed(err) => BuildReport(false, Some(err), [cmd], None)
        case Raised(m) => BuildReport(true, None, [cmd], Some(OsError(m)))
  {
    assert steps[i..][1..] == steps[i + 1..] && outcomes[i..][1..] == outcomes[i + 1..];
  }

  /** Whether the loop goes past a step: it is blank, or it renders and completes. */
  predicate PassesStep(step: string, outcome: StepOutcome, render: Substitution) {
    IsBlank(step) || (render(step).Success? && outcome == Completed)
  }

  /** The step at which the build loop ends: the first step it does not go past. */
  function StopAt(steps: seq<string>, outcomes: seq<StepOutcome>, render: Substitution): (k: nat)
    requires |outcomes| == |steps|
    ensures k <= |steps|
    ensures forall j :: 0 <= j < k ==> PassesStep(steps[j], outcomes[j], render)
    ensures k < |steps| ==> !PassesStep(steps[k], outcomes[k], render)
    decreases |steps|
  {
    if steps == [] then 0
    else if PassesStep(steps[0], outcomes[0], render) then 1 + StopAt(steps[1..], outcomes[1..], render)
    else 0
  }

  /** The command a step runs if the loop reaches it: none for a blank step or one that does not render. */
  function Ran(step: string, render: Substitution): seq<string> {
    if !IsBlank(step) && render(step).Success? then [render(step).value] else []
  }

  /** The commands of the steps in order, each as it is run. */
  function RenderedNonBlank(steps: seq<string>, render: Substitution): seq<string> {
    if steps == [] then [] else Ran(steps[0], render) + RenderedNonBlank(steps[1..], render)
  }

  /**
   * The build runs exactly the non-blank steps before the stopping step,
   * in order, then that step itself when it rendered.
   */
  lemma {:induction false} BuildRunsUpToStop(steps: seq<string>, outcomes: seq<StepOutcome>, render: Substitution)
    requires |outcomes| == |steps|
    ensures var k := StopAt(steps, outcomes, render);
      RunSteps(steps, outcomes, render).executed ==
        RenderedNonBlank(steps[..k], render) + (if k < |steps| then Ran(steps[k], render) else [])
    decreases |steps|
  {
    if steps != [] {
      var k := StopAt(steps, outcomes, render);
      FirstStep(steps, outcomes, render);
      if PassesStep(steps[0], outcomes[0], render) {
        BuildRunsUpToStop(steps[1..], outcomes[1..], render);
        var prefix := steps[..k];
        assert prefix[0] == steps[0] && prefix[1..] == steps[1..][..k - 1];
        assert RenderedNonBlank(prefix, render) == Ran(steps[0], render) + RenderedNonBlank(steps[1..][..k - 1], render);
      } else {
        assert k == 0 && steps[..k] == [];
      }
    }
  }

  /** The commands run from the first step on: its own, then the rest's if the loop goes past it. */
  lemma FirstStep(steps: seq<string>, outcomes: seq<StepOutcome>, render: Substitution)
    requires |outcomes| == |steps| && steps != []
    ensures PassesStep(steps[0], outcomes[0], render) ==>
      StopAt(steps, outcomes, render) == 1 + StopAt(steps[1..], outcomes[1..], render) &&
      RunSteps(steps, outcomes, render).executed == Ran(steps[0], render) + RunSteps(steps[1..], outcomes[1..], render).executed
    ensures !PassesStep(steps[0], outcomes[0], render) ==>
      StopAt(steps, outcomes, render) == 0 && RunSteps(steps, outcomes, render).executed == Ran(steps[0], render)
  {
    if IsBlank(steps[0]) {
      assert [] + RunSteps(steps[1..], outcomes[1..], render).executed == RunSteps(steps[1..], outcomes[1..], render).executed;
    }
  }

  /**
   * The build fails exactly when the stopping step rendered and exited
   * non-zero, with that step's stderr as the error; an exception escapes
   * exactly when the stopping step did not render or raised; with no
   * stopping step the build succeeds.
   */
  lemma {:induction false} BuildOutcomeAtStop(steps: seq<string>, outcomes: seq<StepOutcome>, render: Substitution)
    requires |outcomes| == |steps|
    ensures var r, k := RunSteps(steps, outcomes, render), StopAt(steps, outcomes, render);
      (!r.success <==> k < |steps| && render(steps[k]).Success? && outcomes[k].Failed?) &&
      (!r.success ==> r.error == Some(outcomes[k].stderr))
    ensures var r, k := RunSteps(steps, outcomes, render), StopAt(steps, outcomes, render);
      r.escaped.Some? <==> k < |steps| && (render(steps[k]).Failure? || outcomes[k].Raised?)
    decreases |steps|
  {
    if steps != [] {
      BuildOutcomeAtStop(steps[1..], outcomes[1..], render);
    }
  }

  /** A build whose steps all render and all complete succeeds and runs every non-blank step once, in order. */
  lemma CleanBuild(steps: seq<string>, outcomes: seq<StepOutcome>, render: Substitution)
    requires |outcomes| == |steps|
    requires forall j :: 0 <= j < |steps| ==> outcomes[j] == Completed
    requires forall j :: 0 <= j < |steps| ==> IsBlank(steps[j]) || render(steps[j]).Success?
    ensures RunSteps(steps, outcomes, render) == BuildReport(true, None, RenderedNonBlank(steps, render), None)
  {
    BuildRunsUpToStop(steps, outcomes, render);
    BuildOutcomeAtStop(steps, outcomes, render);
    var k := StopAt(steps, outcomes, render);
    assert k == |steps|;
    assert steps[..k] == steps;
  }

  /**
   * The `for raw_cmd in commands` loop of `build`, step by step: blank
   * steps are skipped, a step that does not render or raises ends the
   * loop with that exception, a non-zero exit ends it as a failure.
   */
  method RunBuildSteps(steps: seq<string>, outcomes: seq<StepOutcome>, render: Substitution) returns (report: BuildReport)
    requires |outcomes| == |steps|
    ensures report == RunSteps(steps, outcomes, render)
  {
    var success := true;
    var error: Option<string> := None;
    var ran: seq<string> := [];
    var escaped: Option<Escaped> := None;
    var i := 0;
    while i < |steps|
      invariant i <= |steps|
      invariant RunSteps(steps, outcomes, render) == AfterPrefix(ran, RunSteps(steps[i..], outcomes[i..], render))
    {
      RunStepsAt(steps, outcomes, render, i);
      var raw := steps[i];
      if IsBlank(raw) {
        i := i + 1;
        continue;
      }
      var rendered := render(raw);
      if rendered.Failure? {
        escaped := Some(FormatFailed(rendered.error));
        break;
      }
      var cmd := rendered.value;
      ran := ran + [cmd];
      match outcomes[i]
      case Completed =>
        i := i + 1;
      case Failed(err) =>
        success := false;
        error := Some(err);
        break;
      case Raised(m) =>
        escaped := Some(OsError(m));
        break;
    }
    report := BuildReport(success, error, ran, escaped);
  }

  /** `__str__`'s status: STARTED over BUILT over OFF, each on a flag that is exactly `True`. */
  function StatusLabel(isBuildSuccess: Option<bool>, isStartSuccess: Option<bool>): (s: string)
    ensures s == "STARTED" <==> isStartSuccess == Some(true)
    ensures s == "BUILT" <==> isBuildSuccess == Some(true) && isStartSuccess != Some(true)
    ensures s == "OFF" <==> isBuildSuccess != Some(true) && isStartSuccess != Some(true)
  {
    if isStartSuccess == Some(true) then "STARTED"
    else if isBuildSuccess == Some(true) then "BUILT"
    else "OFF"
  }

  /** `s` ends with `suffix`. */
  predicate EndsWith(s: string, suffix: string) {
    |suffix| <= |s| && s[|s| - |suffix|..] == suffix
  }

  /**
   * Text that closes on `", " + StatusLabel(…) + ")"` closes on exactly one
   * of the three status endings, the one the flags decide.
   */
  lemma StatusEnding(head: string, isBuildSuccess: Option<bool>, isStartSuccess: Option<bool>)
    ensures var d := head + ", " + StatusLabel(isBuildSuccess, isStartSuccess) + ")";
      (EndsWith(d, ", STARTED)") <==> isStartSuccess == Some(true)) &&
      (EndsWith(d, ", BUILT)") <==> isBuildSuccess == Some(true) && isStartSuccess != Some(true)) &&
      (EndsWith(d, ", OFF)") <==> isBuildSuccess != Some(true) && isStartSuccess != Some(true))
  {
    var word := StatusLabel(isBuildSuccess, isStartSuccess);
    var ending := ", " + word + ")";
    var d := head + ending;
    EndsWithAppend(head, ending);
    EndsWithChar(d, ending);
    if isStartSuccess == Some(true) {
      assert ending == ", STARTED)";
    } else if isBuildSuccess == Some(true) {
      assert ending == ", BUILT)";
    } else {
      assert ending == ", OFF)";
    }
    if EndsWith(d, ", STARTED)") {
      EndsWithChar(d, ", STARTED)");
    }
    if EndsWith(d, ", BUILT)") {
      EndsWithChar(d, ", BUILT)");
    }
    if EndsWith(d, ", OFF)") {
      EndsWithChar(d, ", OFF)");
    }
  }

  lemma EndsWithAppend(head: string, e: string)
    ensures EndsWith(head + e, e)
  {
    assert (head + e)[|head|..] == e;
  }

  /** Text that ends with `e` has `e`'s last-but-one character last but one. */
  lemma EndsWithChar(d: string, e: string)
    requires EndsWith(d, e) && |e| >= 2
    ensures d[|d| - 2] == e[|e| - 2]
  {
    assert d[|d| - |e|..][|e| - 2] == d[|d| - 2];
  }

  /** `update_required`: no local checkout, or its commit differs from the remote branch's. */
  function UpdateRequired(localHead: Option<string>, remoteSha: string): (r: bool)
    ensures !r <==> localHead == Some(remoteSha)
  {
    localHead.None? || localHead.value != remoteSha
  }

  /** Every field of a worker that its methods change. */
  datatype TentacleState = TentacleState(
    localHead: Option<string>,
    process: ProcessState,
    isBuildSuccess: Option<bool>,
    isStartSuccess: Option<bool>,
    buildError: Option<string>,
    startError: Option<string>,
    executed: seq<string>,
    launched: seq<CommandSpec>)

  class Tentacle {
    const name: string                    // `remote_branch.name`
    const remoteSha: string               // `remote_branch.commit.sha`, as fetched at construction
    const path: string                    // `branches_dir / name`
    const commands: map<string, CommandSpec>
    const host: string                    // `_host`
    const port: nat                       // `_port`, from `_find_free_port`
    var localHead: Option<string>         // `local_repo.head.commit.sha`, None without a local repository
    var process: ProcessState             // `_process`
    var isBuildSuccess: Option<bool>      // `is_build_success`
    var isStartSuccess: Option<bool>      // `is_start_success`
    var buildError: Option<string>        // `build_error`
    var startError: Option<string>        // `start_error`
    var executed: seq<string>             // every build command run so far, oldest first
    var launched: seq<CommandSpec>        // every start command handed to Popen, oldest first

    function State(): TentacleState
      reads this
    {
      TentacleState(localHead, process, isBuildSuccess, isStartSuccess, buildError, startError, executed, launched)
    }

    /**
     * Both command keys exist, and an error is recorded exactly when its
     * flag is `False`.
     */
    ghost predicate Valid()
      reads this
    {
      "start" in commands && "build" in commands &&
      (buildError.Some? <==> isBuildSuccess == Some(false)) &&
      (startError.Some? <==> isStartSuccess == Some(false))
    }

    /** `_command_context` */
    function Context(): map<string, string> {
      CommandContext(host, port, path, name)
    }

    /** `_render_command`: a build step with the worker's context substituted. */
    function RenderCommand(): Substitution {
      command => Render(command, Context())
    }

    /** The rest of `__init__` once the command check passed; `head` is the commit checked out. */
    constructor(branch: Branch, branchesDir: string, commands: map<string, CommandSpec>, port: nat, head: string)
      requires CheckCommands(commands).None?
      ensures Valid()
      ensures name == branch.name && remoteSha == branch.sha && path == branchesDir + "/" + branch.name
      ensures this.commands == commands && host == LocalHost && this.port == port
      ensures State() == TentacleState(Some(head), NoProcess, None, None, None, None, [], [])
    {
      name := branch.name;
      remoteSha := branch.sha;
      path := branchesDir + "/" + branch.name;
      this.commands := commands;
      host := LocalHost;
      this.port := port;
      localHead := Some(head);
      process := NoProcess;
      isBuildSuccess := None;
      isStartSuccess := None;
      buildError := None;
      startError := None;
      executed := [];
      launched := [];
    }

    /** `Tentacle(...)`: a ValueError unless both commands are configured. */
    static method Create(branch: Branch, branchesDir: string, commands: map<string, CommandSpec>, port: nat, head: string)
      returns (r: Result<Tentacle, string>)
      ensures r.Failure? <==> !("start" in commands && "build" in commands)
      ensures r.Failure? ==> r.error == CommandsMissing
      ensures r.Success? ==> fresh(r.value) && r.value.Valid() && r.value.name == branch.name && r.value.commands == commands
      ensures r.Success? ==> r.value.State() == TentacleState(Some(head), NoProcess, None, None, None, None, [], [])
    {
      var problem := CheckCommands(commands);
      if problem.Some? {
        return Failure(problem.value);
      }
      var t := new Tentacle(branch, branchesDir, commands, port, head);
      return Success(t);
    }

    /**
     * `build()`: the flag is set, the steps run one at a time, and a
     * non-zero exit records its stderr. `outcomes[i]` is the result of
     * running step `i` should it run; an escaping exception is returned.
     */
    method Build(outcomes: seq<StepOutcome>) returns (escaped: Option<Escaped>)
      requires Valid()
      requires |outcomes| == |BuildSteps(commands["build"])|
      modifies this
      ensures Valid()
      ensures var r := RunSteps(BuildSteps(commands["build"]), outcomes, RenderCommand());
        escaped == r.escaped &&
        State() == old(State()).(isBuildSuccess := Some(r.success), buildError := r.error, executed := old(executed) + r.executed)
    {
      isBuildSuccess := Some(true);
      buildError := None;
      var report := RunBuildSteps(BuildSteps(commands["build"]), outcomes, RenderCommand());
      executed := executed + report.executed;
      if !report.success {
        isBuildSuccess := Some(false);
        buildError := report.error;
      }
      escaped := report.escaped;
    }

    /** `if not cmd`: the start command is configured and not empty. */
    predicate HasStartCommand()
      requires "start" in commands
    {
      match commands["start"]
      case Single(line) => line != ""
      case Multiple(lines) => lines != []
    }

    /** What `start` hands to Popen: a single line rendered with the start context, a list as it is. */
    function StartCommand(): Result<CommandSpec, FormatError>
      requires "start" in commands
    {
      match commands["start"]
      case Single(line) =>
        (match Render(line, StartContext(path, port))
         case Success(cmd) => Success(Single(cmd))
         case Failure(e) => Failure(e))
      case Multiple(lines) => Success(Multiple(lines))
    }

    /**
     * `start()`. A running process or an empty command changes nothing; a
     * command that does not render escapes; otherwise the command is
     * launched and the flag and error record whether Popen succeeded.
     */
    method Start(launch: LaunchOutcome) returns (escaped: Option<Escaped>)
      requires Valid()
      modifies this
      ensures Valid()
      ensures old(process).Running? || !HasStartCommand() ==> escaped.None? && State() == old(State())
      ensures !old(process).Running? && HasStartCommand() && StartCommand().Failure? ==>
        escaped == Some(FormatFailed(StartCommand().error)) && State() == old(State())
      ensures !old(process).Running? && HasStartCommand() && StartCommand().Success? && launch.Launched? ==>
        escaped.None? &&
        State() == old(State()).(process := Running, isStartSuccess := Some(true), startError := None,
                                 launched := old(launched) + [StartCommand().value])
      ensures !old(process).Running? && HasStartCommand() && StartCommand().Success? && launch.LaunchFailed? ==>
        escaped.None? &&
        State() == old(State()).(isStartSuccess := Some(false), startError := Some(launch.message),
                                 launched := old(launched) + [StartCommand().value])
    {
      escaped := None;
      if process.Running? {
        return;
      }
      if !HasStartCommand() {
        return;
      }
      var cmd := StartCommand();
      if cmd.Failure? {
        escaped := Some(FormatFailed(cmd.error));
        return;
      }
      launched := launched + [cmd.value];
      match launch
      case Launched =>
        process := Running;
        isStartSuccess := Some(true);
        startError := None;
      case LaunchFailed(message) =>
        isStartSuccess := Some(false);
        startError := Some(message);
    }

    /**
     * `stop()`: whatever the process was doing and however the signal went,
     * the worker ends with no process; the status flags, and so the
     * description, are left as they were.
     */
    method Stop()
      requires Valid()
      modifies this
      ensures Valid()
      ensures State() == old(State()).(process := NoProcess)
      ensures Describe() == old(Describe())
    {
      process := NoProcess;
    }

    /** The server process ends on its own with `code`, which `poll()` then reports. */
    method ProcessExits(code: int)
      requires Valid()
      requires process.Running?
      modifies this
      ensures Valid()
      ensures State() == old(State()).(process := Exited(code))
    {
      process := Exited(code);
    }

    /**
     * `update()`: stop, fetch, build, start. A failed fetch raises and
     * skips both build and start; a build that raised skips start. The
     * fetch moves only the remote-tracking refs: the checked-out commit is
     * the one before, and so is `update_required`.
     */
    method Update(fetch: FetchOutcome, outcomes: seq<StepOutcome>, launch: LaunchOutcome) returns (escaped: Option<Escaped>)
      requires Valid()
      requires |outcomes| == |BuildSteps(commands["build"])|
      modifies this
      ensures Valid()
      ensures UpdateRequired(localHead, remoteSha) == UpdateRequired(old(localHead), remoteSha)
      ensures fetch.FetchFailed? ==>
        escaped == Some(GitFailed(fetch.message)) && State() == old(State()).(process := NoProcess)
      ensures var r := RunSteps(BuildSteps(commands["build"]), outcomes, RenderCommand());
        var built := old(State()).(process := NoProcess, isBuildSuccess := Some(r.success), buildError := r.error,
                                   executed := old(executed) + r.executed);
        fetch.Fetched? ==>
          (r.escaped.Some? ==> escaped == r.escaped && State() == built) &&
          (r.escaped.None? && !HasStartCommand() ==> escaped.None? && State() == built) &&
          (r.escaped.None? && HasStartCommand() && StartCommand().Failure? ==>
             escaped == Some(FormatFailed(StartCommand().error)) && State() == built) &&
          (r.escaped.None? && HasStartCommand() && StartCommand().Success? && launch.Launched? ==>
             escaped.None? &&
             State() == built.(process := Running, isStartSuccess := Some(true), startError := None,
                               launched := old(launched) + [StartCommand().value])) &&
          (r.escaped.None? && HasStartCommand() && StartCommand().Success? && launch.LaunchFailed? ==>
             escaped.None? &&
             State() == built.(isStartSuccess := Some(false), startError := Some(launch.message),
                               launched := old(launched) + [StartCommand().value]))
    {
      Stop();
      if fetch.FetchFailed? {
        return Some(GitFailed(fetch.message));
      }
      escaped := Build(outcomes);
      if escaped.Some? {
        return;
      }
      escaped := Start(launch);
    }

    /**
     * `__str__`: the worker's name and port, then STARTED, BUILT or OFF as
     * the two flags decide.
     */
    function Describe(): (d: string)
      reads this
      ensures "BranchServer(" + name + ", on port:" <= d
      ensures EndsWith(d, ", STARTED)") <==> isStartSuccess == Some(true)
      ensures EndsWith(d, ", BUILT)") <==> isBuildSuccess == Some(true) && isStartSuccess != Some(true)
      ensures EndsWith(d, ", OFF)") <==> isBuildSuccess != Some(true) && isStartSuccess != Some(true)
    {
      var head := "BranchServer(" + name + ", on port:" + NatToDecimal(port);
      StatusEnding(head, isBuildSuccess, isStartSuccess);
      head + ", " + StatusLabel(isBuildSuccess, isStartSuccess) + ")"
    }
  }
}
