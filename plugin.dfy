/** CargoPlugin: the jobs it hands the host for build, clean, prune, configure and
    install, the build directory of an item, and the argument list of a run. */
module Plugin {
  import opened Wrappers
  import opened Host

  /** A CargoBuildJob as the plugin returns it: the item and cargo command it was
      constructed with, and what the setters called before returning put into its
      install prefix and run arguments (a default QUrl and an empty list when no
      setter is called). */
  datatype JobSpec = JobSpec(item: ProjectItem, command: string, installPrefix: Url, runArguments: seq<string>)

  /** `new CargoBuildJob(this, item, command)` with no setter called. */
  function NewJob(item: ProjectItem, command: string): JobSpec {
    JobSpec(item, command, EmptyUrl, [])
  }

  function Build(item: ProjectItem): JobSpec {
    NewJob(item, "build")
  }

  function Clean(item: ProjectItem): JobSpec {
    NewJob(item, "clean")
  }

  /** Cargo has no configure step: the job gets an empty command. */
  function Configure(project: Project): JobSpec {
    NewJob(ProjectRoot(project), "")
  }

  function Install(item: ProjectItem, installPrefix: Url): JobSpec {
    NewJob(item, "install").(installPrefix := installPrefix)
  }

  function Prune(project: Project): JobSpec {
    Clean(ProjectRoot(project))
  }

  /** The directory cargo runs in: the root of the item's project. */
  function BuildDirectory(item: ProjectItem): string {
    item.project.path
  }

  /** The working directory of a launch: the path of the configuration's project. */
  function WorkingDirectory(cfg: LaunchConfig): string {
    cfg.project.path
  }

  lemma JobCommands(item: ProjectItem, project: Project, prefix: Url)
    ensures Build(item).command == "build" && Build(item).item == item
    ensures Clean(item).command == "clean" && Clean(item).item == item
    ensures Configure(project).command == "" && Configure(project).item == ProjectRoot(project)
    ensures Install(item, prefix).command == "install" && Install(item, prefix).installPrefix == prefix
    ensures Prune(project) == Clean(ProjectRoot(project))
    ensures forall j :: j in {Build(item), Clean(item), Configure(project), Prune(project)} ==>
              j.installPrefix.IsEmpty() && j.runArguments == []
  {
  }

  /** Every item of a project builds in the same directory, the project's root,
      which is also where a launch of that project runs. */
  lemma BuildDirectoryIsProjectRoot(item: ProjectItem, cfg: LaunchConfig)
    ensures BuildDirectory(item) == BuildDirectory(ProjectRoot(item.project)) == item.project.path
    ensures WorkingDirectory(cfg) == BuildDirectory(ProjectRoot(cfg.project))
  {
  }

  // ---------------------------------------------------------------------------
  // The argument list of `cargo run`.

  const IdentifierKey := "CargoIdentifier"
  const ArgumentsKey := "CargoArguments"

  /** CargoPlugin::arguments. `splitArgs` stands for KShell::splitArgs. */
  function Arguments(cfg: LaunchConfig, splitArgs: string -> seq<string>): (ret: seq<string>)
    ensures |ret| >= 1 && ret[0] == "run"
    ensures |ret| > 1 ==> ret[1] == "--bin" || ret[1] == "--"
    ensures (|ret| > 1 && ret[1] == "--bin") <==> ReadEntry(cfg, IdentifierKey) != ""
    ensures ReadEntry(cfg, IdentifierKey) != "" ==> |ret| > 2 && ret[2] == ReadEntry(cfg, IdentifierKey)
    ensures var k := if ReadEntry(cfg, IdentifierKey) != "" then 3 else 1;
      (|ret| > k && ret[k] == "--") <==> ReadEntry(cfg, ArgumentsKey) != ""
  {
    var id := ReadEntry(cfg, IdentifierKey);
    var arguments := ReadEntry(cfg, ArgumentsKey);
    ["run"]
    + (if id != "" then ["--bin", id] else [])
    + (if arguments != "" then ["--"] + splitArgs(arguments) else [])
  }

  /** What a `cargo run` argument list asks for: the binary named by `--bin` ("" for
      the default one) and the arguments after `--`, if there is a `--`. */
  datatype RunRequest = RunRequest(binary: string, passThrough: Option<seq<string>>)

  /** A `--bin` must name a binary: `--bin` followed by nothing or by "" is refused. */
  function ParseRunArguments(args: seq<string>): Option<RunRequest> {
    if |args| == 0 || args[0] != "run" then None
    else if |args| >= 2 && args[1] == "--bin" then
      if |args| == 2 || args[2] == "" then None else ParsePassThrough(args[2], args[3..])
    else ParsePassThrough("", args[1..])
  }

  /** What may follow the binary: nothing, or `--` and the arguments. */
  function ParsePassThrough(binary: string, rest: seq<string>): Option<RunRequest> {
    if rest == [] then Some(RunRequest(binary, None))
    else if rest[0] == "--" then Some(RunRequest(binary, Some(rest[1..])))
    else None
  }

  /** The list reads back as the configured identifier, and as the split arguments
      exactly when the configured argument string is not empty: `--bin id` is there
      if and only if the identifier is not empty, `--` if and only if the arguments
      are not, and `--bin` comes first. */
  lemma ArgumentsRoundTrip(cfg: LaunchConfig, splitArgs: string -> seq<string>)
    ensures var arguments := ReadEntry(cfg, ArgumentsKey);
      ParseRunArguments(Arguments(cfg, splitArgs))
        == Some(RunRequest(ReadEntry(cfg, IdentifierKey),
                           if arguments != "" then Some(splitArgs(arguments)) else None))
  {
    var id := ReadEntry(cfg, IdentifierKey);
    var arguments := ReadEntry(cfg, ArgumentsKey);
    var ret := Arguments(cfg, splitArgs);
    var tail := if arguments != "" then ["--"] + splitArgs(arguments) else [];
    if id != "" {
      assert ret == ["run", "--bin", id] + tail;
      assert ret[3..] == tail;
    } else {
      assert ret == ["run"] + tail;
      assert ret[1..] == tail;
    }
  }
}
