/** Values the host IDE hands to the plugin: projects and their items, URLs,
    launch configurations, and the error kinds its process layer reports. */
module Host {

  /** IProject: its name and its root path. */
  datatype Project = Project(name: string, path: string)

  /** ProjectBaseItem: a node of a project's tree. */
  datatype ProjectItem = ProjectItem(project: Project, path: string)

  /** IProject::projectItem: the root node of the project's tree. */
  function ProjectRoot(p: Project): (item: ProjectItem)
    ensures item.project == p
  {
    ProjectItem(p, p.path)
  }

  /** QUrl: its textual form and what toLocalFile() gives for it. */
  datatype Url = Url(text: string, localFile: string) {
    predicate IsEmpty() {
      text == ""
    }
  }

  /** A default-constructed QUrl. */
  const EmptyUrl := Url("", "")

  /** ILaunchConfiguration: its name, its project and the entries of its config group. */
  datatype LaunchConfig = LaunchConfig(name: string, project: Project, entries: map<string, string>)

  /** KConfigGroup::readEntry(key) with no default: a missing entry reads as "". */
  function ReadEntry(cfg: LaunchConfig, key: string): string {
    if key in cfg.entries then cfg.entries[key] else ""
  }

  /** QProcess::ProcessError. */
  datatype ProcessError = FailedToStart | Crashed | Timedout | ReadError | WriteError | UnknownError

  /** IOutputView::StandardToolView. */
  datatype StandardToolView = BuildView | RunView | DebugView | TestView | VcsView
}
