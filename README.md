# Conan for Visual Studio: `conan install` arguments and the solution-wide pass

This project models, in Dafny, the core of the Conan extension for Visual Studio.

- **The argument builder** (`Runner`, from `Conan.VisualStudio.Core/ConanRunner.cs`).
  `ConanRunner.Install` turns a project, its build configuration, a generator, a build policy and an update flag into a `ProcessStartInfo` for `conan install`.
  It chooses between three branches, in this order:
  1. an explicit profile;
  2. the raw `"install"` override of the operator's settings file;
  3. `-s key=value` flags for the configuration fields that are set.
- **The shared data types** (`Settings`, from `Conan.VisualStudio.Core/ConanSettings.cs`): the settings file, its commands and the three enumerations.
- **The "add Conan dependencies to the solution" command** (`SolutionCommand`, from `Conan.VisualStudio/Menu/AddConanDependsSolution.cs`).
  - A depth-first walk collects the Conan projects of a solution into a `List<Project>`, which is modelled as the class `ProjectList`.
  - A Conan project is a leaf. Any other project is searched item by item: the item's sub-project first, then its nested items.
  - A pass then handles the collected projects in order: prepare, install (at most once per conanfile path, tracked in a set), integrate.
  - The pass stops at the first project that cannot be prepared or whose install fails.
  - The service calls are an oracle (`ConanService`). Each pass returns the trace of calls it made, so "exactly once" and "halts before" can be stated.

The argument builder and the data types are functions over datatypes. The walk and the pass are methods of the class `AddConanDependsSolution`:

- two mutually recursive methods append to the `ProjectList`;
- a loop keeps the installed-path set and returns early.

Each method is proved against a specification function (`Collected`, `CollectedItems`, `SolutionProjects`, `RunPass`). The lemmas state what the source promises about those functions.

Three details of the code that the model keeps as written:

- the architecture key is `arch`;
- the fallback branch puts a literal space before the build suffix, so two spaces come before `--build`;
- a failed pass logs "Build failed" with no count.

## Model

| member | source | states |
|---|---|---|
| `Settings.GeneratorName` | Conan.VisualStudio.Core/ConanSettings.cs:17-22 | The generator name emitted after `-g` is the enum member's own name: reading it back gives the same generator. |
| `Settings.GeneratorFromNameSound` | Conan.VisualStudio.Core/ConanSettings.cs:17-22 | A name that reads back as a generator is exactly that generator's name, so the three names are the only ones. |
| `Settings.BuildTypeName` | Conan.VisualStudio.Core/ConanSettings.cs:24-32 | The build policy name emitted after `--build=` is the enum member's own name, such as `missing`: reading it back gives the same policy. |
| `Settings.BuildTypeFromNameSound` | Conan.VisualStudio.Core/ConanSettings.cs:24-32 | A name that reads back as a policy is exactly that policy's name. |
| `Settings.FirstNamed` | Conan.VisualStudio.Core/ConanRunner.cs:58 | `FirstOrDefault` by name: the result is null exactly when no command has the name. Otherwise it is the command at the first index with that name, and no earlier command has it. |
| `Runner.Escape` | Conan.VisualStudio.Core/ConanRunner.cs:19-20 | An argument comes back unchanged exactly when it has no space character. Otherwise it is wrapped in one pair of double quotes. Quoting keeps the space test and is undone by `Unescape`. |
| `Runner.EscapeInjective` | Conan.VisualStudio.Core/ConanRunner.cs:19-20 | Two different arguments never escape to the same text. |
| `Runner.PolicyOptionRoundTrip` | Conan.VisualStudio.Core/ConanRunner.cs:24-31 | The `--build` part is empty for `none`, bare `--build` for `always` and `--build=<name>` otherwise. It reads back as its policy and never looks like the `--update` flag. |
| `Runner.BuildOptionsRoundTrip` | Conan.VisualStudio.Core/ConanRunner.cs:22-37 | The suffix is the `--build` part followed by ` --update` when update is set, and it reads back as the policy and update flag it came from. |
| `Runner.BuildOptionsInjective` | Conan.VisualStudio.Core/ConanRunner.cs:22-37 | Different (policy, update) pairs give different suffixes. |
| `Runner.SettingFlagRoundTrip` | Conan.VisualStudio.Core/ConanRunner.cs:41 | `ProcessArgument` writes `-s key=value` with a bare key and an escaped value. For a key without `=`, reading the flag back (key up to the first `=`, value unescaped) gives the key and the original value. |
| `Runner.ConfigurationFlagsReadBack` | Conan.VisualStudio.Core/ConanRunner.cs:64-80 | Each `-s` flag built from a configuration reads back as the (key, value) pair at the same position of the present settings. |
| `Runner.PresentSettings` | Conan.VisualStudio.Core/ConanRunner.cs:76 | `Where(pair => pair.Item2 != null)`: a (key, value) pair is kept exactly when the input holds that key with that value set. |
| `Runner.SettingsInFixedOrder` | Conan.VisualStudio.Core/ConanRunner.cs:64-80 | The flags are exactly one per set field, in the order `arch`, `build_type`, `compiler.toolset`, `compiler.version`, `compiler.runtime`. Null fields are omitted. |
| `Runner.ConanRunner.Install` | Conan.VisualStudio.Core/ConanRunner.cs:87-96 | In every branch: the file name is the executable path, the working directory is the directory of the project path, both streams are redirected, no window and no shell. |
| `Runner.ProfileWins` | Conan.VisualStudio.Core/ConanRunner.cs:45-54 | With a profile, the settings file has no effect. The arguments are `install <path> -g <gen> --install-folder <dir> --profile <profile>` followed by the build suffix, with every value escaped. |
| `Runner.OverrideIgnoresInputs` | Conan.VisualStudio.Core/ConanRunner.cs:56-60 | With no profile and a settings file, the arguments are the `Args` of the first `install` command. Project, configuration, generator, policy and update make no difference. |
| `Runner.FallbackArguments` | Conan.VisualStudio.Core/ConanRunner.cs:61-85 | With neither, the arguments are the shared prefix, the fixed-order flags joined by single spaces, a literal space and the build suffix. This leaves a double space before `--build`. |
| `Runner.BuildSuffixRecoverable` | Conan.VisualStudio.Core/ConanRunner.cs:45-85 | In the profile and fallback branches the arguments end with the build suffix, and the policy and update flag can be read back from it. |
| `SolutionCommand.ProjectList.Add` | Conan.VisualStudio/Menu/AddConanDependsSolution.cs:104 | `List.Add` appends one project at the end. |
| `SolutionCommand.AddConanDependsSolution.AddProjects` | Conan.VisualStudio/Menu/AddConanDependsSolution.cs:94-109 | Appends exactly the projects `Collected` gives. Null adds nothing. A Conan project is appended itself and its items are not searched. Any other project is searched through its items. |
| `SolutionCommand.AddConanDependsSolution.AddProjectItems` | Conan.VisualStudio/Menu/AddConanDependsSolution.cs:111-124 | Appends exactly `CollectedItems`. A null collection adds nothing. Each item adds its sub-project's projects, then its nested items' projects. |
| `SolutionCommand.AddConanDependsSolution.GetSolutionProjects` | Conan.VisualStudio/Menu/AddConanDependsSolution.cs:83-92 | A fresh list holding the projects of every top-level project in solution order. |
| `SolutionCommand.CollectedAreConan` | Conan.VisualStudio/Menu/AddConanDependsSolution.cs:102-106 | Every collected project is a Conan project. |
| `SolutionCommand.CollectedItemsAreConan` | Conan.VisualStudio/Menu/AddConanDependsSolution.cs:119-123 | Every project collected from an item collection is a Conan project. |
| `SolutionCommand.FoundIsCollected` | Conan.VisualStudio/Menu/AddConanDependsSolution.cs:94-109 | A Conan project reachable at any depth is collected. The path goes through sub-projects and nested items and passes no other Conan project. |
| `SolutionCommand.FoundInIsCollected` | Conan.VisualStudio/Menu/AddConanDependsSolution.cs:111-124 | The same for a path that starts in an item collection. |
| `SolutionCommand.CollectedIsFound` | Conan.VisualStudio/Menu/AddConanDependsSolution.cs:94-109 | Conversely, every collected project is reachable along such a path. |
| `SolutionCommand.CollectedItemsFound` | Conan.VisualStudio/Menu/AddConanDependsSolution.cs:111-124 | The same for an item collection, giving the path. |
| `SolutionCommand.SolutionProjectsAreFound` | Conan.VisualStudio/Menu/AddConanDependsSolution.cs:83-92 | A project is in the solution's list if and only if it is reachable in this way from one of the solution's top-level projects. |
| `SolutionCommand.AddConanDependsSolution.IntegrateConanProps` | Conan.VisualStudio/Menu/AddConanDependsSolution.cs:57-81 | The loop with its installed-path set and early returns gives the outcome and call trace of `RunPass` from an empty set. |
| `SolutionCommand.InstallAtMostOnce` | Conan.VisualStudio/Menu/AddConanDependsSolution.cs:72-77 | A conanfile path is installed at most once per pass. It is never installed when it was already in the set. |
| `SolutionCommand.SuccessInstallsEveryConanfile` | Conan.VisualStudio/Menu/AddConanDependsSolution.cs:66-77 | After a successful pass every project was prepared. Each conanfile path was already in the set or was installed exactly once, and every install the pass called returned true. |
| `SolutionCommand.SuccessProcessesAllInOrder` | Conan.VisualStudio/Menu/AddConanDependsSolution.cs:62-80 | A successful pass prepared and integrated every project, exactly in list order. This includes projects whose conanfile was installed earlier. |
| `SolutionCommand.SuccessTrace` | Conan.VisualStudio/Menu/AddConanDependsSolution.cs:62-80 | A successful pass makes exactly the calls of `InOrderCalls`, one project at a time and nothing else. For each project it prepares, then installs the project's conanfile only if that path was not installed before the pass or by an earlier project, then integrates. Every install it called returned true. |
| `SolutionCommand.SuccessIff` | Conan.VisualStudio/Menu/AddConanDependsSolution.cs:66-77 | A pass succeeds if and only if every project can be prepared and every install it calls returns true. |
| `SolutionCommand.InOrderCallsContents` | Conan.VisualStudio/Menu/AddConanDependsSolution.cs:62-80 | The written-out trace of a pass prepares exactly the given projects, in order, and integrates exactly the same projects, in order. |
| `SolutionCommand.FailureTrace` | Conan.VisualStudio/Menu/AddConanDependsSolution.cs:62-75 | A failed pass has an index `k` at which it halted. The trace is the complete calls for the projects before `k` followed by the failing call. Every install called before `k` returned true. |
| `SolutionCommand.FailurePoint` | Conan.VisualStudio/Menu/AddConanDependsSolution.cs:62-75 | The stopping index `k` of a failed pass. The trace is the complete calls for the projects before `k`, then `Prepare` of project `k`. When prepare returned a conanfile, the trace then ends with its failing `Install`, and that path was not installed before. |
| `SolutionCommand.FailureHaltsAtFirstError` | Conan.VisualStudio/Menu/AddConanDependsSolution.cs:66-75 | A failed pass stopped at a project whose prepare returned null or whose install failed. Every earlier project was prepared and every earlier install returned true, so this is the first error. It prepared exactly the projects up to it and integrated exactly those before it. The trace is the complete calls for the earlier projects followed by the failing call, so no later project is prepared, installed or integrated. |
| `SolutionCommand.SharedConanfileInstalledOnce` | Conan.VisualStudio/Menu/AddConanDependsSolution.cs:72-78 | Two projects sharing a conanfile: one install, two integrations, in the order prepare, install, integrate, prepare, integrate. |
| `SolutionCommand.NatToString` | Conan.VisualStudio/Menu/AddConanDependsSolution.cs:53 | The count is rendered as decimal digits that read back as the count, with no leading zero. |
| `SolutionCommand.AddConanDependsSolution.MenuItemCallback` | Conan.VisualStudio/Menu/AddConanDependsSolution.cs:38-55 | The command collects the solution's projects, runs the pass, returns its trace and reports the outcome line for it, with the collected count. |
| `SolutionCommand.MessageTellsOutcome` | Conan.VisualStudio/Menu/AddConanDependsSolution.cs:47-53 | The log line is the failure line exactly when the pass failed. |
| `SolutionCommand.SuccessMessageStatesCount` | Conan.VisualStudio/Menu/AddConanDependsSolution.cs:53 | On success, different counts give different log lines. |
| `SolutionCommand.SuccessCountIsIntegrations` | Conan.VisualStudio/Menu/AddConanDependsSolution.cs:45-53 | On success, the count in the log line (`projects.Count`) is the number of projects integrated. |

## Left out

- Threading: `SwitchToMainThreadAsync`, `TaskScheduler.Default` and `ThrowIfNotOnUIThread` only pin work to the UI thread, so the pass is modelled as sequential.
- Host objects: `Package.GetGlobalService`, the DTE solution and `AsVCProject` are not modelled. The solution is a sequence of (possibly null) top-level projects, and `AsVCProject` is treated as the identity.
- `IsConanProject` is a field of each `Project` value. `PrepareConanProjectAsync` and `InstallAsync` are functions of an oracle, so the same project or conanfile always gets the same answer. Installs lose nothing by this, since each path is installed at most once per pass. A project listed twice would get the same prepare result both times.
- `IntegrateAsync` is recorded in the trace and its result is ignored, as in the source. What integration writes into the project is not modelled.
- Project identity: DTE projects are COM objects, while here two structurally equal projects are the same value.
- Logging: the per-project "Processing ... project" line and `_errorListService.Clear()` are not modelled. The final outcome line is returned as a value.
- Runner.ConanRunner.Install: the override branch requires the settings file to hold an `install` command, because the source dereferences the null result of `FirstOrDefault` otherwise. Null `ConanCommands` or null command names, which would also throw there, are not modelled. Outside the override branch, null project paths and install paths are not modelled either.
- Runner.ConanRunner.Install: a null `Args` in the override command is not modelled. `Args` is a `string`, so the arguments are always some text.
- `project.getProfile(configuration, errorListService)` is an input `Option<string>`. Its diagnostics to the error list are not modelled.
- `Path.GetDirectoryName` is an input function `directoryName`.
- `ConanProject` and `ConanConfiguration` are defined in files that are not part of this model. Only the fields `Install` reads are modelled.
- Running the process, its exit code and its output are not modelled: `Install` only builds the `ProcessStartInfo`.
- `ConanTriggerType` is declared but nothing in the modelled code reads it.
- Not modelled:
  - the options page and its defaults (`Conan.VisualStudio/ConanOptionsPage.cs`);
  - the settings services (`Conan.VisualStudio/Services/`);
  - the single-project command (`Conan.VisualStudio/Menu/AddConanDependsProject.cs`);
  - the release script `make_rc.py`.
