/** CargoBuildJob: the output job that runs one cargo command in a project's build
    directory and turns the process's outcome into the job's error state. */
module BuildJob {
  import opened Wrappers
  import opened Host
  import Plugin

  // ---------------------------------------------------------------------------
  // Error codes.

  /** KJob::UserDefinedError, the first code a job subclass may use. */
  const UserDefinedError: int := 100

  /** CargoBuildJob::ErrorType, in declaration order. */
  datatype ErrorType = UndefinedBuildType | FailedToStart | UnknownExecError | Crashed | WrongArgs | ToolDisabled | NoCommand

  const ErrorTypes: seq<ErrorType> :=
    [UndefinedBuildType, ErrorType.FailedToStart, UnknownExecError, ErrorType.Crashed, WrongArgs, ToolDisabled, NoCommand]

  /** The integer value of an ErrorType: UserDefinedError plus its position in the
      declaration, so the seven codes are distinct and consecutive. */
  function Code(e: ErrorType): (c: int)
    ensures UserDefinedError <= c < UserDefinedError + |ErrorTypes|
    ensures ErrorTypes[c - UserDefinedError] == e
  {
    match e
    case UndefinedBuildType => UserDefinedError
    case FailedToStart => UserDefinedError + 1
    case UnknownExecError => UserDefinedError + 2
    case Crashed => UserDefinedError + 3
    case WrongArgs => UserDefinedError + 4
    case ToolDisabled => UserDefinedError + 5
    case NoCommand => UserDefinedError + 6
  }

  lemma CodesConsecutive()
    ensures forall i :: 0 <= i < |ErrorTypes| ==> Code(ErrorTypes[i]) == UserDefinedError + i
    ensures forall e1, e2 :: Code(e1) == Code(e2) ==> e1 == e2
  {
    forall i | 0 <= i < |ErrorTypes|
      ensures Code(ErrorTypes[i]) == UserDefinedError + i
    {
      var e := ErrorTypes[i];
      assert ErrorTypes[Code(e) - UserDefinedError] == e;
      // the seven entries are pairwise different, so the position of e is i
      assert forall j, k :: 0 <= j < k < |ErrorTypes| ==> ErrorTypes[j] != ErrorTypes[k];
    }
  }

  /** The error a job reports: KJob::NoError, one of its own ErrorTypes, or
      OutputJob::FailedShownError (the failure is visible in the output). */
  datatype JobError = NoError | Failed(kind: ErrorType) | FailedShownError

  const NoCommandText := "No Cargo command specified"
  const FailedToStartText := "Failed to start command."
  const CrashedText := "Command crashed."
  const UnknownErrorText := "Unknown error executing command."
  const FailedLine := "*** Failed ***"
  const FinishedLine := "*** Finished ***"

  /** The program every job runs. */
  const Cargo := "cargo"

  // ---------------------------------------------------------------------------
  // What the job leaves behind: its output lines and its executor.

  /** A line of the job's output model: the echo `builddir> cmd args` written before
      the process starts (its arguments joined by KShell::joinArgs), or a plain line. */
  datatype OutputLine = Echo(directory: string, program: string, arguments: seq<string>) | Message(text: string)

  /** The CommandExecutor a started job owns: what it runs, where, and whether kill()
      has been called on it. */
  datatype Executor = Executor(program: string, arguments: seq<string>, workingDirectory: string, killRequested: bool)

  /** The fields of a CargoBuildJob together with the KJob / OutputJob state it sets:
      error code and text, the tool view, the output lines, and how many times it has
      emitted its result. */
  datatype JobState = JobState(
    command: string,
    projectName: string,
    cmd: string,
    builddir: string,
    installPrefix: Url,
    runArguments: seq<string>,
    killed: bool,
    standardViewType: StandardToolView,
    toolView: Option<StandardToolView>,
    error: JobError,
    errorText: string,
    exec: Option<Executor>,
    output: seq<OutputLine>,
    results: nat)

  /** The state the constructor leaves. */
  function Initial(item: ProjectItem, command: string): JobState {
    JobState(command, item.project.name, Cargo, Plugin.BuildDirectory(item), EmptyUrl, [], false,
             BuildView, None, NoError, "", None, [], 0)
  }

  /** A job as the plugin hands it out: constructed, then given its install prefix
      and run arguments. */
  function FromSpec(spec: Plugin.JobSpec): JobState {
    Initial(spec.item, spec.command).(installPrefix := spec.installPrefix, runArguments := spec.runArguments)
  }

  /** The argument list start() hands the executor. */
  function StartArgv(command: string, installPrefix: Url, runArguments: seq<string>): (argv: seq<string>)
    ensures |argv| == 1 + (if installPrefix.IsEmpty() then 0 else 2) + |runArguments|
    ensures argv[0] == command
    ensures !installPrefix.IsEmpty() ==> argv[1] == "--root" && argv[2] == installPrefix.localFile
  {
    [command]
    + (if !installPrefix.IsEmpty() then ["--root", installPrefix.localFile] else [])
    + (if runArguments != [] then runArguments else [])
  }

  /** The run arguments end the list, unchanged and in their order. */
  lemma StartArgvEndsWithRunArguments(command: string, installPrefix: Url, runArguments: seq<string>)
    ensures var argv := StartArgv(command, installPrefix, runArguments);
      argv[|argv| - |runArguments|..] == runArguments
  {
  }

  // ---------------------------------------------------------------------------
  // The job's operations as functions on its state.

  function StartStep(s: JobState): JobState {
    if s.command == "" then
      s.(error := Failed(NoCommand), errorText := NoCommandText, results := s.results + 1)
    else
      var argv := StartArgv(s.command, s.installPrefix, s.runArguments);
      s.(toolView := Some(s.standardViewType),
         exec := Some(Executor(s.cmd, argv, s.builddir, false)),
         output := [Echo(s.builddir, s.cmd, argv)])
  }

  function KillStep(s: JobState): JobState {
    s.(killed := true,
       exec := if s.exec.Some? then Some(s.exec.value.(killRequested := true)) else None)
  }

  function ProcErrorStep(s: JobState, err: ProcessError): JobState {
    var s' := s.(results := s.results + 1);
    if s.killed then s'
    else if err == ProcessError.FailedToStart then
      s'.(error := Failed(ErrorType.FailedToStart), errorText := FailedToStartText)
    else if err == ProcessError.Crashed then
      s'.(error := Failed(ErrorType.Crashed), errorText := CrashedText)
    else
      s'.(error := Failed(UnknownExecError), errorText := UnknownErrorText)
  }

  function ProcFinishedStep(s: JobState, code: int): JobState {
    if code != 0 then
      s.(error := FailedShownError, output := s.output + [Message(FailedLine)], results := s.results + 1)
    else
      s.(output := s.output + [Message(FinishedLine)], results := s.results + 1)
  }

  /** Something that happens to a job: the host starts or kills it, or its executor
      reports failure or completion. */
  datatype Event = Start | Kill | ProcError(err: ProcessError) | ProcFinished(code: int)

  function Step(s: JobState, ev: Event): JobState {
    match ev
    case Start => StartStep(s)
    case Kill => KillStep(s)
    case ProcError(err) => ProcErrorStep(s, err)
    case ProcFinished(code) => ProcFinishedStep(s, code)
  }

  function Run(s: JobState, evs: seq<Event>): JobState
    decreases |evs|
  {
    if evs == [] then s else Run(Step(s, evs[0]), evs[1..])
  }

  /** The argument list start() collects: the command, the install root when there
      is one, then the run arguments. */
  method CollectArguments(command: string, installPrefix: Url, runArguments: seq<string>)
    returns (arguments: seq<string>)
    ensures arguments == StartArgv(command, installPrefix, runArguments)
  {
    arguments := [command];
    if !installPrefix.IsEmpty() {
      arguments := arguments + ["--root", installPrefix.localFile];
    }
    if runArguments != [] {
      arguments := arguments + runArguments;
    }
  }

  // ---------------------------------------------------------------------------
  // The job object.

  class CargoBuildJob {
    var command: string
    var projectName: string
    var cmd: string
    var builddir: string
    var installPrefix: Url
    var runArguments: seq<string>
    var killed: bool
    var standardViewType: StandardToolView
    var toolView: Option<StandardToolView>
    var error: JobError
    var errorText: string
    var exec: Option<Executor>
    var output: seq<OutputLine>
    var results: nat

    function State(): JobState
      reads this
    {
      JobState(command, projectName, cmd, builddir, installPrefix, runArguments, killed,
               standardViewType, toolView, error, errorText, exec, output, results)
    }

    constructor (item: ProjectItem, command: string)
      ensures State() == Initial(item, command)
    {
      this.command := command;
      projectName := item.project.name;
      builddir := Plugin.BuildDirectory(item);
      cmd := Cargo;
      installPrefix := EmptyUrl;
      runArguments := [];
      killed := false;
      standardViewType := BuildView;
      toolView := None;
      error := NoError;
      errorText := "";
      exec := None;
      output := [];
      results := 0;
    }

    method Start()
      modifies this
      ensures State() == StartStep(old(State()))
    {
      if command == "" {
        error := Failed(NoCommand);
        errorText := NoCommandText;
        results := results + 1;
      } else {
        StartExecutor();
      }
    }

    /** The branch of start() that has a command: the output is reset to the echo
        of the command line and the executor is created. */
    method StartExecutor()
      requires command != ""
      modifies this
      ensures State() == StartStep(old(State()))
    {
      var arguments := CollectArguments(command, installPrefix, runArguments);
      toolView := Some(standardViewType);
      output := [];
      exec := Some(Executor(cmd, arguments, builddir, false));
      output := output + [Echo(builddir, cmd, arguments)];
    }

    /** Sets `killed` and kills the executor; the source dereferences the executor,
        so the job must have been started with a command. */
    method DoKill() returns (accepted: bool)
      requires exec.Some?
      modifies this
      ensures State() == KillStep(old(State()))
      ensures accepted
    {
      killed := true;
      exec := Some(exec.value.(killRequested := true));
      accepted := true;
    }

    method ProcError(err: ProcessError)
      modifies this
      ensures State() == ProcErrorStep(old(State()), err)
    {
      if !killed {
        if err == ProcessError.FailedToStart {
          error := Failed(ErrorType.FailedToStart);
          errorText := FailedToStartText;
        } else if err == ProcessError.Crashed {
          error := Failed(ErrorType.Crashed);
          errorText := CrashedText;
        } else {
          error := Failed(UnknownExecError);
          errorText := UnknownErrorText;
        }
      }
      results := results + 1;
    }

    /** Appends to the output model, which only exists once the job has started its
        executor. */
    method ProcFinished(code: int)
      requires exec.Some?
      modifies this
      ensures State() == ProcFinishedStep(old(State()), code)
    {
      if code != 0 {
        error := FailedShownError;
        output := output + [Message(FailedLine)];
      } else {
        output := output + [Message(FinishedLine)];
      }
      results := results + 1;
    }

    method SetInstallPrefix(url: Url)
      modifies this
      ensures State() == old(State()).(installPrefix := url)
    {
      installPrefix := url;
    }

    method SetRunArguments(arguments: seq<string>)
      modifies this
      ensures State() == old(State()).(runArguments := arguments)
    {
      runArguments := arguments;
    }

    method SetStandardViewType(view: StandardToolView)
      modifies this
      ensures State() == old(State()).(standardViewType := view)
    {
      standardViewType := view;
    }
  }

  /** Builds the job object a JobSpec describes. */
  method NewJob(spec: Plugin.JobSpec) returns (job: CargoBuildJob)
    ensures fresh(job)
    ensures job.State() == FromSpec(spec)
  {
    job := new CargoBuildJob(spec.item, spec.command);
    job.SetInstallPrefix(spec.installPrefix);
    job.SetRunArguments(spec.runArguments);
  }
}
