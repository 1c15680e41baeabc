/** What the job's lifecycle guarantees over any sequence of events. */
module BuildJobProperties {
  import opened Wrappers
  import opened Host
  import Plugin
  import opened BuildJob

  /** Running two traces one after the other is running their concatenation. */
  lemma {:induction false} RunAppend(s: JobState, a: seq<Event>, b: seq<Event>)
    ensures Run(s, a + b) == Run(Run(s, a), b)
    decreases |a|
  {
    if a != [] {
      assert (a + b)[0] == a[0];
      assert (a + b)[1..] == a[1..] + b;
      RunAppend(Step(s, a[0]), a[1..], b);
    } else {
      assert a + b == b;
    }
  }

  /** start() either fails at once with NoCommand, creating no executor and writing
      no output, or hands the executor the argv whose first element is the command
      and echoes that argv as the one line of a fresh output. */
  lemma StartOutcome(s: JobState)
    requires s.cmd == Cargo
    ensures var t := StartStep(s);
      if s.command == "" then
        t.error == Failed(NoCommand) && t.errorText == NoCommandText
        && t.exec == s.exec && t.output == s.output && t.results == s.results + 1
      else
        t.exec.Some? && t.exec.value.program == Cargo && t.exec.value.workingDirectory == s.builddir
        && t.exec.value.arguments == StartArgv(s.command, s.installPrefix, s.runArguments)
        && t.exec.value.arguments[0] == s.command
        && t.output == [Echo(s.builddir, Cargo, t.exec.value.arguments)]
        && t.error == s.error && t.results == s.results
  {
  }

  /** The fields set at construction never change afterwards. */
  predicate SameJob(s: JobState, t: JobState) {
    t.command == s.command && t.projectName == s.projectName && t.cmd == s.cmd
    && t.builddir == s.builddir && t.installPrefix == s.installPrefix
    && t.runArguments == s.runArguments && t.standardViewType == s.standardViewType
  }

  function Count(evs: seq<Event>, command: string): nat {
    if evs == [] then 0
    else (if Emits(evs[0], command) then 1 else 0) + Count(evs[1..], command)
  }

  /** Whether handling the event emits the job's result. */
  predicate Emits(ev: Event, command: string) {
    ev.ProcError? || ev.ProcFinished? || (ev.Start? && command == "")
  }

  /** `killed` holds after a trace if and only if it held before or the trace kills
      the job: nothing but doKill sets it and nothing resets it. */
  lemma {:induction false} KilledAfter(s: JobState, evs: seq<Event>)
    ensures Run(s, evs).killed <==> s.killed || Kill in evs
    decreases |evs|
  {
    if evs != [] {
      KilledAfter(Step(s, evs[0]), evs[1..]);
      assert evs == [evs[0]] + evs[1..];
    }
  }

  /** The fields the constructor and the setters fill stay as they were. */
  lemma {:induction false} SameJobAfter(s: JobState, evs: seq<Event>)
    ensures SameJob(s, Run(s, evs))
    decreases |evs|
  {
    if evs != [] {
      SameJobAfter(Step(s, evs[0]), evs[1..]);
    }
  }

  /** The result is emitted once per failed start and once per process outcome. */
  lemma {:induction false} ResultsAfter(s: JobState, evs: seq<Event>)
    ensures Run(s, evs).results == s.results + Count(evs, s.command)
    decreases |evs|
  {
    if evs != [] {
      SameJobAfter(s, [evs[0]]);
      assert Run(s, [evs[0]]) == Step(s, evs[0]) by {
        assert [evs[0]][1..] == [];
      }
      ResultsAfter(Step(s, evs[0]), evs[1..]);
    }
  }

  /** A new job is not killed, so `killed` holds after a trace from it exactly when
      the trace contains a kill. */
  lemma KilledOnlyByKill(item: ProjectItem, command: string, evs: seq<Event>)
    ensures !Initial(item, command).killed
    ensures Run(Initial(item, command), evs).killed <==> Kill in evs
  {
    KilledAfter(Initial(item, command), evs);
  }

  /** The errors a failing process can set. */
  predicate IsExecError(e: JobError) {
    e == Failed(ErrorType.FailedToStart) || e == Failed(ErrorType.Crashed) || e == Failed(UnknownExecError)
  }

  /** Once killed, no process error sets an error: any process error in the final
      state was already there when the kill arrived. */
  lemma {:induction false} KilledKeepsExecError(s: JobState, evs: seq<Event>)
    requires s.killed
    ensures IsExecError(Run(s, evs).error) ==> Run(s, evs).error == s.error
    decreases |evs|
  {
    if evs != [] {
      var t := Step(s, evs[0]);
      assert t.killed;
      assert IsExecError(t.error) ==> t.error == s.error;
      KilledKeepsExecError(t, evs[1..]);
    }
  }

  lemma KillSuppressesProcError(s: JobState, evs: seq<Event>, k: nat)
    requires k < |evs| && evs[k] == Kill
    ensures var e := Run(s, evs).error; IsExecError(e) ==> e == Run(s, evs[..k]).error
  {
    assert evs == evs[..k] + ([Kill] + evs[k + 1..]);
    RunAppend(s, evs[..k], [Kill] + evs[k + 1..]);
    var before := Run(s, evs[..k]);
    assert Run(before, [Kill] + evs[k + 1..]) == Run(KillStep(before), evs[k + 1..]) by {
      assert ([Kill] + evs[k + 1..])[1..] == evs[k + 1..];
    }
    KilledKeepsExecError(KillStep(before), evs[k + 1..]);
  }

  /** The errors the job ever reports: none, NoCommand, the three process errors,
      or FailedShownError. */
  predicate Reported(e: JobError) {
    e == NoError || e == FailedShownError || e == Failed(NoCommand) || IsExecError(e)
  }

  lemma {:induction false} ErrorsStayReported(s: JobState, evs: seq<Event>)
    requires Reported(s.error)
    ensures Reported(Run(s, evs).error)
    decreases |evs|
  {
    if evs != [] {
      ErrorsStayReported(Step(s, evs[0]), evs[1..]);
    }
  }

  /** UndefinedBuildType, WrongArgs and ToolDisabled are declared but never set. */
  lemma UnusedErrorTypes(item: ProjectItem, command: string, evs: seq<Event>)
    ensures var e := Run(Initial(item, command), evs).error;
      e != Failed(UndefinedBuildType) && e != Failed(WrongArgs) && e != Failed(ToolDisabled)
  {
    ErrorsStayReported(Initial(item, command), evs);
  }

  /** Every output line the job writes itself is the echo of the command line it
      runs, or one of the two trailers. */
  predicate OutputLinesOf(s: JobState) {
    forall l :: l in s.output ==>
      (l.Echo? ==> l.directory == s.builddir && l.program == s.cmd
                   && l.arguments == StartArgv(s.command, s.installPrefix, s.runArguments))
      && (l.Message? ==> l.text == FailedLine || l.text == FinishedLine)
  }

  lemma {:induction false} OutputStaysOwn(s: JobState, evs: seq<Event>)
    requires OutputLinesOf(s)
    ensures OutputLinesOf(Run(s, evs))
    decreases |evs|
  {
    if evs != [] {
      OutputStep(s, evs[0]);
      OutputStaysOwn(Step(s, evs[0]), evs[1..]);
    }
  }

  lemma OutputStep(s: JobState, ev: Event)
    requires OutputLinesOf(s)
    ensures OutputLinesOf(Step(s, ev))
  {
    match ev
    case Start =>
      if s.command != "" {
        var t := StartStep(s);
        assert t.output == [Echo(s.builddir, s.cmd, StartArgv(s.command, s.installPrefix, s.runArguments))];
      }
    case Kill =>
    case ProcError(_) =>
    case ProcFinished(code) =>
      var t := ProcFinishedStep(s, code);
      assert forall l :: l in t.output ==> l in s.output || l.Message?;
  }

  /** A job without a command never creates an executor, whatever happens to it. */
  lemma {:induction false} NoCommandNeverSpawns(s: JobState, evs: seq<Event>)
    requires s.command == "" && s.exec.None?
    ensures Run(s, evs).exec.None?
    decreases |evs|
  {
    if evs != [] {
      NoCommandNeverSpawns(Step(s, evs[0]), evs[1..]);
    }
  }

  // ---------------------------------------------------------------------------
  // The jobs the plugin hands out, run end to end.

  /** `cargo build` runs in the project root; exit code 0 finishes the job without
      error, any other code fails it with the failure shown in the output. */
  lemma BuildThenExit(item: ProjectItem, code: int)
    ensures var t := Run(FromSpec(Plugin.Build(item)), [Start, ProcFinished(code)]);
      t.exec == Some(Executor(Cargo, ["build"], item.project.path, false))
      && t.output == [Echo(item.project.path, Cargo, ["build"]),
                      Message(if code != 0 then FailedLine else FinishedLine)]
      && t.error == (if code != 0 then FailedShownError else NoError)
      && t.results == 1
  {
    var s0 := FromSpec(Plugin.Build(item));
    var s1 := StartStep(s0);
    assert StartArgv("build", EmptyUrl, []) == ["build"];
    var evs := [Start, ProcFinished(code)];
    assert evs[1..] == [ProcFinished(code)];
    assert Run(s0, evs) == Run(s1, [ProcFinished(code)]);
    assert [ProcFinished(code)][1..] == [];
    assert Run(s1, [ProcFinished(code)]) == Run(ProcFinishedStep(s1, code), []);
  }

  /** Configure jobs have no command: starting one ends with NoCommand, and nothing
      that happens to it ever creates an executor. */
  lemma ConfigureFails(project: Project, evs: seq<Event>)
    ensures var t := Run(FromSpec(Plugin.Configure(project)), [Start]);
      t.error == Failed(NoCommand) && t.exec.None? && t.output == [] && t.results == 1
    ensures Run(FromSpec(Plugin.Configure(project)), evs).exec.None?
  {
    NoCommandNeverSpawns(FromSpec(Plugin.Configure(project)), evs);
  }

  /** A job killed while running reports no error when its process then crashes. */
  lemma KillThenCrash(item: ProjectItem, command: string)
    requires command != ""
    ensures var t := Run(Initial(item, command), [Start, Kill, ProcError(ProcessError.Crashed)]);
      t.killed && t.error == NoError && t.results == 1
      && t.exec.Some? && t.exec.value.killRequested
  {
    var evs := [Start, Kill, ProcError(ProcessError.Crashed)];
    assert evs[1..] == [Kill, ProcError(ProcessError.Crashed)];
    assert evs[1..][1..] == [ProcError(ProcessError.Crashed)];
  }

  /** Without a kill, a process that crashes fails the job with Crashed. */
  lemma CrashWithoutKill(item: ProjectItem, command: string)
    requires command != ""
    ensures var t := Run(Initial(item, command), [Start, ProcError(ProcessError.Crashed)]);
      t.error == Failed(ErrorType.Crashed) && t.errorText == CrashedText && t.results == 1
  {
    var evs := [Start, ProcError(ProcessError.Crashed)];
    assert evs[1..] == [ProcError(ProcessError.Crashed)];
  }

  /** An install job with a prefix runs `cargo install --root <prefix>`. */
  lemma InstallArgv(item: ProjectItem, prefix: Url)
    requires !prefix.IsEmpty()
    ensures StartStep(FromSpec(Plugin.Install(item, prefix))).exec.value.arguments
            == ["install", "--root", prefix.localFile]
  {
  }
}
