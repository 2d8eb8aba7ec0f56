/** One panel session: the handler of the panel's messages and the
    end-of-task callback, over the calls they make into the host. */
module Session {
  import opened TaskConstruction
  import opened MessageRouting

  /** A call the session makes into the host, other than submitting a task. */
  datatype Effect =
    | LoadProjects                      // find, parse, sort and post the projects
    | PostSources(sources: seq<string>) // post the configured package sources
    | ReadCredentials(source: string)   // ask the credential provider for a source

  class PanelSession {
    /** The configured package sources, read when the session starts. */
    const sources: seq<string>
    /** Every task handed to the task manager's `addTask`, in order. */
    var tasks: seq<Task>
    /** Every other host call, in order. */
    var effects: seq<Effect>

    constructor (sources: seq<string>)
      ensures this.sources == sources && tasks == [] && effects == []
    {
      this.sources := sources;
      tasks := [];
      effects := [];
    }

    /** The task manager, seen only as a sink that records what it receives. */
    method AddTask(t: Task)
      modifies this
      ensures tasks == old(tasks) + [t]
      ensures effects == old(effects)
    {
      tasks := tasks + [t];
    }

    /** The callback the task manager runs when a task ends. */
    method OnTaskEnded(e: TaskEnded)
      modifies this
      ensures effects == old(effects) + if ShouldReload(e) then [LoadProjects] else []
      ensures tasks == old(tasks)
    {
      if e.name == "nuget-gallery" && e.remaining == 0 {
        effects := effects + [LoadProjects];
      }
    }

    /** The panel's message handler. */
    method HandleMessage(msg: Message)
      modifies this
      ensures Route(msg.command) == PackageOperation ==>
        tasks == old(tasks) + PackageTasks(RequestOf(msg), msg.projects) && effects == old(effects)
      ensures Route(msg.command) != PackageOperation ==> tasks == old(tasks)
      ensures Route(msg.command) == ReloadProjects ==> effects == old(effects) + [LoadProjects]
      ensures Route(msg.command) == ReloadSources ==> effects == old(effects) + [PostSources(sources)]
      ensures Route(msg.command) == GetCredentials ==> effects == old(effects) + [ReadCredentials(msg.source)]
    {
      if msg.command == "reloadProjects" {
        effects := effects + [LoadProjects];
      } else if msg.command == "reloadSources" {
        effects := effects + [PostSources(sources)];
      } else if msg.command == "getCredentials" {
        effects := effects + [ReadCredentials(msg.source)];
      } else {
        SubmitPackageTasks(msg);
      }
    }

    /** The package-operation branch: one task per selected project, in order. */
    method SubmitPackageTasks(msg: Message)
      modifies this
      ensures tasks == old(tasks) + PackageTasks(RequestOf(msg), msg.projects)
      ensures effects == old(effects)
    {
      ghost var req := PackageRequest(msg.command, msg.packageId, msg.version, msg.source);
      var i := 0;
      while i < |msg.projects|
        invariant 0 <= i <= |msg.projects|
        invariant tasks == old(tasks) + PackageTasks(req, msg.projects[..i])
        invariant effects == old(effects)
      {
        var project := msg.projects[i];
        var args := [msg.command, project.projectPath, "package", msg.packageId];
        if msg.command == "add" {
          args := args + ["-v"];
          args := args + [msg.version];
          args := args + ["-s"];
          args := args + [msg.source];
        }
        assert args == BuildArgs(req, project.projectPath);
        var task := Task(TaskDefinition("dotnet", "dotnet " + msg.command), "nuget-gallery", "dotnet",
                         ShellExecution("dotnet", args));
        assert task == BuildTask(req, project);
        PackageTasksStep(req, msg.projects, i);
        AddTask(task);
        assert tasks == old(tasks) + (PackageTasks(req, msg.projects[..i]) + [task]);
        i := i + 1;
      }
      assert msg.projects[..i] == msg.projects;
      assert req == RequestOf(msg);
    }
  }

  /** A fresh session that handles a package-operation message records one
      task per selected project; the i-th runs `dotnet` with `projects[i]`'s
      path as its second argument and carries the batch name, so the end event
      of that task with zero remaining work makes the callback request exactly
      one project reload. */
  method BatchScenario(msg: Message, i: nat) returns (submitted: seq<Task>, effects: seq<Effect>)
    requires Route(msg.command) == PackageOperation
    requires i < |msg.projects|
    ensures |submitted| == |msg.projects|
    ensures submitted[i].name == TaskName
    ensures submitted[i].execution.program == "dotnet"
    ensures submitted[i].execution.args == BuildArgs(RequestOf(msg), msg.projects[i].projectPath)
    ensures submitted[i].execution.args[1] == msg.projects[i].projectPath
    ensures effects == [LoadProjects]
  {
    var s := new PanelSession([]);
    s.HandleMessage(msg);
    PackageTaskShape(RequestOf(msg), msg.projects, i);
    s.OnTaskEnded(TaskEnded(s.tasks[i].name, 0));
    submitted, effects := s.tasks, s.effects;
  }
}
