# NuGet Gallery extension: message handling, task construction and project order

This project models the logic of the NuGet Gallery editor extension that is not
glue code. The extension shows a panel. The user picks a package, an operation
(`add`, `remove`, …) and a set of projects. The panel then sends the extension a
message. The model covers four things:

- **Routing** (`MessageRouting`). Three named commands (`reloadProjects`,
  `reloadSources`, `getCredentials`) each go to their own branch. Any other
  command is a package operation.
- **Task construction** (`TaskConstruction`). For a package operation, the
  extension builds one `dotnet` task per selected project, in order. Its
  arguments are `[command, projectPath, "package", id]`. For `add` they are
  followed by `-v version -s source`. Every task is named `nuget-gallery`.
  The task manager gets each task through `addTask`.
- **Reload on completion**. When the task manager reports a finished task
  named `nuget-gallery` with zero remaining work, the extension reloads the
  projects.
- **Project order** (`PathOrder`, `ProjectSort`). Discovered projects are
  sorted by path with a three-way comparator before they are posted. A path is
  ordered by JavaScript's string `<`, which the model defines as lexicographic
  order on characters.

`Session.PanelSession` holds the state of one panel session as two ordered
logs. `tasks` records what is handed to the task manager. `effects` records
the other calls into the host: loading projects, posting the sources, and
reading credentials. The message handler and the end-of-task callback are
methods on it. The loop that submits the tasks is proved against
`TaskConstruction.PackageTasks`, and the properties below are proved about
that function. `Session.BatchScenario` runs the handler and then the callback
on one session, and links the two.

The handler reads `project.projectPath` from the selected projects. The
project records that `loadProjects` builds carry `path` instead. The panel's
own code, which maps one to the other, is not part of this model. The model
takes the selected projects as the panel sends them.

## Model

| member | source | states |
|---|---|---|
| `MessageRouting.Route` | src/extension.ts:72-84 | each named command reaches its own branch, and only that command does; a command is a package operation if and only if it is none of the three |
| `Session.PanelSession.HandleMessage` | src/extension.ts:70-101 | a named command makes exactly its one host call and submits no task; a package operation submits exactly `PackageTasks` of the message and makes no other call |
| `Session.PanelSession.SubmitPackageTasks` | src/extension.ts:84-100 | the loop that pushes arguments and calls `addTask` appends exactly the tasks of `PackageTasks`, one per project, in project order |
| `Session.BatchScenario` | src/extension.ts:63-99 | a fresh session handling a package operation records one task per selected project; the i-th has the batch name, runs `dotnet` and has `projects[i]`'s path as its second argument, and that task's zero-remaining end event makes the callback request exactly one project reload |
| `Session.PanelSession.AddTask` | src/extension.ts:99 | the task manager is a sink: the task is appended to what it has received, and nothing else changes |
| `Session.PanelSession.OnTaskEnded` | src/extension.ts:63-67 | the callback requests a project reload exactly when `ShouldReload` holds, and otherwise does nothing |
| `TaskConstruction.BuildArgs` | src/extension.ts:86-92 | 4 arguments `[command, path, "package", id]` for a command other than `add`; for `add`, 8 arguments with that prefix, then `-v`, the version at index 5, `-s`, and the source at index 7 |
| `TaskConstruction.ArgsIgnoreVersionUnlessAdd` | src/extension.ts:86-92 | the version and the source never change the first four arguments, and for a command other than `add` they do not change the arguments at all |
| `TaskConstruction.ArgsDetermineRequest` | src/extension.ts:86-92 | equal argument lists come from the same command, project and package, and for `add` also from the same version and source |
| `TaskConstruction.PackageTasksAt` | src/extension.ts:84-99 | the i-th submitted task is the task built for `projects[i]` |
| `TaskConstruction.PackageTaskShape` | src/extension.ts:93-98 | every submitted task is named `nuget-gallery`, has source `dotnet`, runs program `dotnet`, has definition `{dotnet, "dotnet " + command}`, and has its own project's path as the second argument |
| `TaskConstruction.ReloadMatchesSubmittedTasks` | src/extension.ts:64 | an ended task triggers a reload if and only if its remaining work is 0 and its name equals the name every batch task is given (line 95) |
| `PathOrder.ComparePaths` | src/extension.ts:48 | returns -1 if and only if a < b, 1 if and only if a > b, and 0 if and only if the paths are equal |
| `PathOrder.CompareConsistent` | src/extension.ts:48 | the comparator is consistent: swapping the operands negates the result, and "not after" is transitive |
| `PathOrder.BelowTrichotomy` | src/extension.ts:48 | string `<` is total: of two paths, one is below the other or they are equal |
| `PathOrder.BelowTransitive` | src/extension.ts:48 | string `<` is transitive |
| `ProjectSort.SortByPath` | src/extension.ts:48 | the posted projects are a permutation of the discovered ones, in non-decreasing order by path under the comparator |
| `ProjectSort.SortByPathStable` | src/extension.ts:48 | projects that share a path keep the order in which they were discovered, as the stable `Array.prototype.sort` keeps them |

## Left out

- The task manager (`src/taskManager.ts`) is not part of this model. Its queue (one task at a time, in order, advancing when a task ends) is not modelled. `addTask` is modelled only as a sink that records what it receives, and the end-of-task callback as a method that the task manager may call with any event.
- Finding project files, reading them and parsing their XML in `loadProjects` (lines 28-47) are file I/O and foreign libraries. Only the sort at line 48 is modelled. `LoadProjects` is an effect in the log, and `ProjectSort.SortByPath` is what such a load posts.
- `path.basename` for the project name is a foreign call. `Project.projectName` is a plain field.
- Reading credentials through a child process and `JSON.parse` (lines 21-25, 79-81) are process spawning and parsing. The handler records a `ReadCredentials(source)` effect. The later posting of the credentials is not modelled.
- Creating the panel, `postMessage`, and loading the HTML (lines 17-19, 56-61, 108-109) are UI and I/O. So are `executeTask` and the `onDidEndTask` subscription (lines 63, 68). Posting the sources is the `PostSources` effect.
- The handler is `async`. It never awaits anything, so the model runs it as one sequential step.
- Message fields are plain strings and sequences, and every selected project is present. The JavaScript cases where a field or an entry is missing are not modelled. A missing `version` or `source` would be pushed as `undefined`. A missing `projects` throws before any task is submitted, and so does a missing `package` (on `message.package.id` at line 86) when `projects` is not empty. A `null` entry in `projects` throws on `project.projectPath` at line 86 after the tasks for the entries before it have already been passed to `addTask` (line 99). The source can therefore submit part of a batch and then throw. The model always submits the whole batch.
- `PathOrder.Below` compares Dafny characters (Unicode scalar values). JavaScript compares UTF-16 code units. The two orders differ only when a character above U+FFFF is compared with one from U+E000 to U+FFFF.
- `ProjectSort.SortByPath` is a function on a sequence. `Array.prototype.sort` sorts the local array in place. The array is not used again after it is posted, so the model keeps only the result.
