/** The `dotnet` command lines the extension builds for a package operation,
    the task descriptors that carry them, and the test that decides when a
    finished task makes the extension reload its projects. */
module TaskConstruction {

  /** The name every package task gets. Completion events are matched on it. */
  const TaskName: string := "nuget-gallery"
  /** The program the tasks run. It is also the task definition's type and the task's source. */
  const Dotnet: string := "dotnet"
  /** The only command whose arguments include a version and a package source. */
  const AddCommand: string := "add"

  /** `{ type, task }`, the definition object of a task. */
  datatype TaskDefinition = TaskDefinition(taskType: string, task: string)
  /** A shell execution: a program and its ordered argument list. */
  datatype ShellExecution = ShellExecution(program: string, args: seq<string>)
  /** A task built from (definition, name, source, execution). */
  datatype Task = Task(definition: TaskDefinition, name: string, source: string, execution: ShellExecution)

  /** What the handler reads from a package-operation request, besides its projects. */
  datatype PackageRequest = PackageRequest(command: string, packageId: string, version: string, source: string)
  /** One selected project, as the panel sends it. */
  datatype ProjectRef = ProjectRef(projectPath: string)

  /** `[command, projectPath, "package", id]`, and for `add` then
      `-v version -s source`. */
  function BuildArgs(req: PackageRequest, projectPath: string): (r: seq<string>)
    ensures |r| == if req.command == AddCommand then 8 else 4
    ensures r[..4] == [req.command, projectPath, "package", req.packageId]
    ensures req.command == AddCommand ==> r[4] == "-v" && r[5] == req.version && r[6] == "-s" && r[7] == req.source
  {
    var base := [req.command, projectPath, "package", req.packageId];
    if req.command == AddCommand then base + ["-v", req.version, "-s", req.source] else base
  }

  /** The version and the source reach the command line only for `add`:
      for any other command, two requests that differ in nothing else give the
      same arguments, and for every command they leave the first four alone. */
  lemma ArgsIgnoreVersionUnlessAdd(req: PackageRequest, version: string, source: string, projectPath: string)
    ensures var other := req.(version := version, source := source);
      && BuildArgs(req, projectPath)[..4] == BuildArgs(other, projectPath)[..4]
      && (req.command != AddCommand ==> BuildArgs(req, projectPath) == BuildArgs(other, projectPath))
  {
  }

  /** Different requests give different command lines: the arguments
      determine the command, the project, the package and, for `add`, the
      version and the source. */
  lemma ArgsDetermineRequest(req1: PackageRequest, path1: string, req2: PackageRequest, path2: string)
    requires BuildArgs(req1, path1) == BuildArgs(req2, path2)
    ensures req1.command == req2.command && path1 == path2 && req1.packageId == req2.packageId
    ensures req1.command == AddCommand ==> req1 == req2
  {
  }

  /** The task submitted for one selected project. */
  function BuildTask(req: PackageRequest, project: ProjectRef): Task
  {
    Task(TaskDefinition(Dotnet, Dotnet + " " + req.command), TaskName, Dotnet,
         ShellExecution(Dotnet, BuildArgs(req, project.projectPath)))
  }

  /** The tasks a request submits, one per selected project, in order. */
  function PackageTasks(req: PackageRequest, projects: seq<ProjectRef>): (r: seq<Task>)
    ensures |r| == |projects|
  {
    if projects == [] then []
    else [BuildTask(req, projects[0])] + PackageTasks(req, projects[1..])
  }

  lemma {:induction false} PackageTasksAppend(req: PackageRequest, projects: seq<ProjectRef>, p: ProjectRef)
    ensures PackageTasks(req, projects + [p]) == PackageTasks(req, projects) + [BuildTask(req, p)]
  {
    if projects != [] {
      assert (projects + [p])[1..] == projects[1..] + [p];
      PackageTasksAppend(req, projects[1..], p);
    }
  }

  /** One more selected project adds its own task at the end. */
  lemma PackageTasksStep(req: PackageRequest, projects: seq<ProjectRef>, i: nat)
    requires i < |projects|
    ensures PackageTasks(req, projects[..i + 1]) == PackageTasks(req, projects[..i]) + [BuildTask(req, projects[i])]
  {
    assert projects[..i + 1] == projects[..i] + [projects[i]];
    PackageTasksAppend(req, projects[..i], projects[i]);
  }

  /** The i-th submitted task is the one for the i-th selected project. */
  lemma {:induction false} PackageTasksAt(req: PackageRequest, projects: seq<ProjectRef>, i: nat)
    requires i < |projects|
    ensures PackageTasks(req, projects)[i] == BuildTask(req, projects[i])
  {
    if i > 0 {
      PackageTasksAt(req, projects[1..], i - 1);
    }
  }

  /** Every submitted task: its name, source, program and definition are
      fixed, and its second argument is the path of its own project. */
  lemma PackageTaskShape(req: PackageRequest, projects: seq<ProjectRef>, i: nat)
    requires i < |projects|
    ensures var t := PackageTasks(req, projects)[i];
      && t.name == "nuget-gallery"
      && t.source == "dotnet"
      && t.definition == TaskDefinition("dotnet", "dotnet " + req.command)
      && t.execution.program == "dotnet"
      && t.execution.args == BuildArgs(req, projects[i].projectPath)
      && t.execution.args[0] == req.command
      && t.execution.args[1] == projects[i].projectPath
  {
    PackageTasksAt(req, projects, i);
  }

  /** What a finished task reports back: its name and the work still outstanding. */
  datatype TaskEnded = TaskEnded(name: string, remaining: int)

  /** The end-of-task callback reloads the projects exactly when this holds. */
  predicate ShouldReload(e: TaskEnded)
  {
    e.name == TaskName && e.remaining == 0
  }

  /** The callback fires for the tasks the batch submits, and only at zero
      remaining work: an ended event triggers a reload if and only if nothing
      remains and it carries the name of a submitted task. */
  lemma ReloadMatchesSubmittedTasks(req: PackageRequest, projects: seq<ProjectRef>, i: nat, e: TaskEnded)
    requires i < |projects|
    ensures ShouldReload(e) <==> e.remaining == 0 && e.name == PackageTasks(req, projects)[i].name
  {
    PackageTaskShape(req, projects, i);
  }
}
