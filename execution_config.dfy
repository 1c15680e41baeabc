/** CargoLauncher and its helpers: how a launch configuration becomes a `cargo run`
    job, and the first-word listing readProcess makes of a process's output. */
module ExecutionConfig {
  import opened Wrappers
  import opened Host
  import opened QtText
  import Plugin
  import BuildJob

  const ExecuteMode := "execute"

  function SupportedModes(): (modes: seq<string>)
    ensures |modes| == 1 && ExecuteMode in modes
  {
    [ExecuteMode]
  }

  /** CargoLauncher::start: no configuration gives no job; in execute mode the job
      runs `run` with the rest of the plugin's argument list; any other mode gives
      no job. */
  function Start(launchMode: string, cfg: Option<LaunchConfig>, splitArgs: string -> seq<string>)
    : (job: Option<Plugin.JobSpec>)
    ensures job.Some? <==> cfg.Some? && launchMode in SupportedModes()
    ensures job.Some? ==>
      job.value.command == "run" && job.value.item == ProjectRoot(cfg.value.project)
      && ["run"] + job.value.runArguments == Plugin.Arguments(cfg.value, splitArgs)
  {
    if cfg.None? then None
    else if launchMode == ExecuteMode then
      var runArguments := Plugin.Arguments(cfg.value, splitArgs)[1..];
      Some(Plugin.NewJob(ProjectRoot(cfg.value.project), "run").(runArguments := runArguments))
    else None
  }

  /** The argv an execute launch finally runs is the plugin's argument list itself:
      it starts with exactly one "run", since the launcher drops the list's own
      leading "run" and the job puts its command back in front. It runs in the
      configuration's working directory. */
  lemma ExecuteArgv(cfg: LaunchConfig, splitArgs: string -> seq<string>)
    ensures var spec := Start(ExecuteMode, Some(cfg), splitArgs).value;
      var exec := BuildJob.StartStep(BuildJob.FromSpec(spec)).exec.value;
      exec.arguments == Plugin.Arguments(cfg, splitArgs)
      && exec.program == BuildJob.Cargo
      && exec.workingDirectory == Plugin.WorkingDirectory(cfg)
      && exec.arguments[0] == "run"
      && (|exec.arguments| == 1 || exec.arguments[1] != "run")
  {
    var args := Plugin.Arguments(cfg, splitArgs);
    var spec := Start(ExecuteMode, Some(cfg), splitArgs).value;
    assert spec.runArguments == args[1..];
    assert BuildJob.StartArgv("run", EmptyUrl, args[1..]) == ["run"] + args[1..];
    assert ["run"] + args[1..] == args;
  }

  /** CargoExecutionConfigType::canLaunch(QUrl): no URL can be launched. */
  function CanLaunchUrl(url: Url): (r: bool)
    ensures !r
  {
    false
  }

  /** A launch needs no job to run before it. */
  function CalculateDependencies(cfg: LaunchConfig): (job: Option<Plugin.JobSpec>)
    ensures job.None?
  {
    None
  }

  function Dependencies(cfg: LaunchConfig): (job: Option<Plugin.JobSpec>)
    ensures job.None?
  {
    CalculateDependencies(cfg)
  }

  // ---------------------------------------------------------------------------
  // readProcess

  /** What one line of output contributes: the text before its first space, when
      that space is not the line's first character. */
  function FirstWord(line: string): seq<string> {
    var nameEnd := IndexOf(line, ' ');
    if nameEnd > 0 then [line[..nameEnd]] else []
  }

  /** The first words of the lines, in order. */
  function FirstWords(lines: seq<string>): seq<string> {
    if lines == [] then [] else FirstWords(lines[..|lines| - 1]) + FirstWord(lines[|lines| - 1])
  }

  /** readProcess over the lines the process prints. */
  method ReadProcess(lines: seq<string>) returns (ret: seq<string>)
    ensures ret == FirstWords(lines)
  {
    ret := [];
    var i := 0;
    while i < |lines|
      invariant 0 <= i <= |lines|
      invariant ret == FirstWords(lines[..i])
    {
      var line := lines[i];
      var nameEnd := IndexOf(line, ' ');
      if nameEnd > 0 {
        ret := ret + [line[..nameEnd]];
      }
      assert lines[..i + 1][..i] == lines[..i];
      i := i + 1;
    }
    assert lines[..|lines|] == lines;
  }

  /** A line gives a word exactly when it has a space after its first character;
      the word and that space begin the line, and the word holds no space. */
  lemma FirstWordOfLine(line: string)
    ensures |FirstWord(line)| <= 1
    ensures FirstWord(line) != [] <==> ' ' in line && line[0] != ' '
    ensures forall w :: w in FirstWord(line) ==>
      w != [] && ' ' !in w && StartsWith(line, w + [' '])
  {
    var nameEnd := IndexOf(line, ' ');
    if nameEnd > 0 {
      var w := line[..nameEnd];
      assert (w + [' '])[..] == line[..nameEnd + 1];
    }
  }

  /** Lines are handled one at a time, in order. */
  lemma {:induction false} FirstWordsAppend(a: seq<string>, b: seq<string>)
    ensures FirstWords(a + b) == FirstWords(a) + FirstWords(b)
    decreases |b|
  {
    if b == [] {
      assert a + b == a;
    } else {
      var b' := b[..|b| - 1];
      assert (a + b)[..|a + b| - 1] == a + b';
      assert (a + b)[|a + b| - 1] == b[|b| - 1];
      FirstWordsAppend(a, b');
    }
  }

  /** There are at most as many words as lines, and each word is non-empty, holds no
      space, and starts one of the lines followed by a space. */
  lemma {:induction false} FirstWordsShape(lines: seq<string>)
    ensures |FirstWords(lines)| <= |lines|
    ensures forall w :: w in FirstWords(lines) ==>
      w != [] && ' ' !in w && exists line :: line in lines && StartsWith(line, w + [' '])
    decreases |lines|
  {
    if lines != [] {
      var init := lines[..|lines| - 1];
      var last := lines[|lines| - 1];
      FirstWordsShape(init);
      FirstWordOfLine(last);
      forall w | w in FirstWords(lines)
        ensures w != [] && ' ' !in w && exists line :: line in lines && StartsWith(line, w + [' '])
      {
        if w in FirstWords(init) {
          var line :| line in init && StartsWith(line, w + [' ']);
          assert line in lines;
        } else {
          assert w in FirstWord(last);
          assert last in lines;
        }
      }
    }
  }
}
