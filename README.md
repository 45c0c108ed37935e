# dev-quick-init: the command-materialisation engine in Dafny

`dev-quick-init` sets up a developer machine from a YAML file. The file names a
package driver and a parameter map. It also lists commands to run before
installing, packages to install, named sections of commands to run afterwards,
and files to write. This project models what the installer does with that
configuration once it is loaded. It covers the order of the echoes, shell
commands and file writes, the substitutions applied to each string, and where a
run stops when something fails. One model covers both copies of the engine,
`dev_quick_init/installer.py` and `quick_setup/installer.py`, whose logic is the
same line for line. The table below cites the first copy. In the second,
`PACKAGE_DRIVERS` is at lines 9-17, `run_cmd` at 19-33, `expand_list_params` at
35-51, `process_commands` at 53-61, `install_software` at 63-75, `create_files`
at 77-86 and the phases of `main` at 98-124.

Modules, in dependency order:

- `Wrappers`: `Option`.
- `Strings`: Python's `p in s` (`Contains`) and `s.replace(p, r)` (`ReplaceAll`), with `Split`/`Join` as a reference definition of replacement.
- `Template`: `string.Template(s).safe_substitute(m)`, as a tokenizer (`Tokenize`) and a renderer (`Render`). `$$` becomes `$`. `$name` takes the longest identifier (ASCII letters, digits and `_`, not starting with a digit, as the default `idpattern` with its ASCII flag allows) and is replaced when bound. `${name}` is replaced when bound. Everything else is kept as written.
- `Expansion`: `expand_list_params`. `FanOut` is the functional specification of the nested loops: parameters are processed in mapping order, and each string mentioning the marker `{{key}}` of a list parameter becomes one copy per item, with every occurrence of the marker replaced by the quoted item. `Expand` adds the final `safe_substitute` pass. `ExpandListParams` is the loop itself, proved equal to `Expand`.
- `Drivers`: the fixed `PACKAGE_DRIVERS` table.
- `Sequencer`: the configuration, the actions a run performs (`Plan`), and `Perform`, which plays them against the outside world in dry-run or real mode.
- `Properties`: the laws of a run.
- `Scenarios`: runs of the bundled sample configurations.
- `Installer`: `run_cmd`, `process_commands`, `install_software`, `create_files` and the body of `main` as methods on a `Host`. The host records the console, the spawned commands and the written files. Each method is proved to leave the host exactly as `Perform` of its actions would.

Which shell commands and file writes fail is an input. `Mode.failing` is the set of positions, among the run's real effects, that fail. A failure ends the run the way the uncaught exception does.

Behaviour of the code that the model reproduces, and that a reader of the configuration format might not expect:

- **Commands are substituted twice.** `expand_list_params` runs `safe_substitute(params)` once, and `run_cmd` runs it again on the command and on the directory. So `$$HOME` in a command reaches the shell as the value of `HOME` when `HOME` is a parameter, whatever the other parameters are, as long as the command mentions no list marker (`Properties.CommandsAreSubstitutedTwice`).
- **File contents are substituted once.** The same text in a file is written as `$HOME`.
- **Install commands get one more pass with empty parameters.** Only `$$` changes in that pass.
- **Install entries get a full substitution.** Entries containing `{{` go through all of `expand_list_params`, so they receive scalar `$name` substitution as well as list fan-out. Entries without `{{` are used as written.
- **File paths are never substituted with parameters.** Only `~` and environment variables are expanded, and that expansion is outside this model.
- **`{{name}}` is only a list marker.** The sample configurations write scalar parameters as `{{name}}`, which `safe_substitute` does not treat as a placeholder. Under the sample's whole parameter map such a command runs with the braces as written (`Scenarios.ScalarMarkerIsKept`).
- **The unknown-driver error is late and conditional.** It fires only when the install list is non-empty, after the before-commands have run and the install banner has been echoed.

## Model

| member | source | states |
|---|---|---|
| Template.Tokenize | dev_quick_init/installer.py:30-31 | the scan of `string.Template`'s pattern: escaped `$$`, `$name`, `${name}`, a lone `$`, and the text between them |
| Template.Render | dev_quick_init/installer.py:30-31 | each piece replaced by its bound value, `$` for `$$`, or its own text |
| Template.SafeSubstitute | dev_quick_init/installer.py:30-31 | `Template(s).safe_substitute(m)` as rendering of the scanned pieces; used at lines 30-31, 69 and 107 |
| Strings.Contains | dev_quick_init/installer.py:61 | Python's `marker in c` |
| Strings.ReplaceAll | dev_quick_init/installer.py:63 | Python's `c.replace(marker, quoted)`, every non-overlapping occurrence left to right |
| Expansion.Variants | dev_quick_init/installer.py:61-65 | one working string becomes one copy per item with the marker replaced, or stays itself |
| Expansion.StepKey | dev_quick_init/installer.py:59-66 | one pass of the outer loop for a list key, building `temp_cmds` from `result_cmds` |
| Expansion.FanOutFrom | dev_quick_init/installer.py:56-66 | the working strings after the outer loop has processed a prefix of the parameters |
| Expansion.Expand | dev_quick_init/installer.py:54-70 | the list `expand_list_params` returns: the fan-out, then one substitution of each string |
| Drivers.TemplateOf | dev_quick_init/installer.py:11-19 | each driver's command template, split around `{pkg}` |
| Drivers.Format | dev_quick_init/installer.py:96 | `driver_template.format(pkg=pkg)` |
| Sequencer.Directory | dev_quick_init/installer.py:31 | the directory substituted when given and non-empty, otherwise none |
| Sequencer.Preview | dev_quick_init/installer.py:33-39 | the echoed command, with ` in <dir>` exactly when the substituted directory is non-empty |
| Sequencer.RunAction | dev_quick_init/installer.py:30-31 | `run_cmd`'s two substitutions, as the command it performs |
| Sequencer.Act | dev_quick_init/installer.py:33-108 | one action against the outside world: a dry run echoes only; a real command echoes, then spawns; a real file write is recorded, then echoed as created unless it fails; a failing effect raises |
| Sequencer.CommandsActions | dev_quick_init/installer.py:73-81 | `process_commands` as the concatenated actions of its items |
| Sequencer.SectionsActions | dev_quick_init/installer.py:214-216 | the `after` loop: each section's label, then its commands |
| Sequencer.Resolve | dev_quick_init/installer.py:90-94 | one install entry: expanded when it is a string containing `{{`, kept as it is otherwise |
| Sequencer.ResolvePackages | dev_quick_init/installer.py:89-94 | `processed_list`, the entries resolved in order |
| Sequencer.InstallActions | dev_quick_init/installer.py:84-96 | `install_software`: the unknown-driver error, or one driver command per resolved package |
| Sequencer.InstallCommands | dev_quick_init/installer.py:95-96 | the second loop of `install_software`: one formatted command per package, no directory, empty parameters |
| Sequencer.FileActions | dev_quick_init/installer.py:99-108 | `create_files`: each path as written, its content substituted once |
| Sequencer.Plan | dev_quick_init/installer.py:197-223 | the actions of `main`: each non-empty phase under its banner, in order, then the completion line |
| Sequencer.Perform | dev_quick_init/installer.py:197-223 | the actions played in order, stopping at the first exception |
| Template.TokenizeIsLossless | dev_quick_init/installer.py:30-31 | the template pieces spell the string back exactly, so substitution can only change `$` forms |
| Template.SafeSubstituteIsLenient | dev_quick_init/installer.py:30-31 | a string whose `$` forms are all unbound placeholders (and no `$$`) is returned unchanged: substitution never fails |
| Template.NoDollarIsVerbatim | dev_quick_init/installer.py:30-31 | a string without `$` is returned unchanged whatever the parameters |
| Template.TextPrefixIsKept | dev_quick_init/installer.py:30-31 | text before the first `$` is copied and the rest substituted on its own |
| Template.EscapeCollapses | dev_quick_init/installer.py:30-31 | `$$` becomes a single `$` and the rest is substituted on its own |
| Template.NamedIsReplaced | dev_quick_init/installer.py:30-31 | `$name` followed by a non-identifier character is replaced by the bound value |
| Template.BracedIsReplaced | dev_quick_init/installer.py:30-31 | `${name}` is replaced by the bound value |
| Template.UnboundNamedIsKept | dev_quick_init/installer.py:30-31 | `$name` with no binding stays as written |
| Strings.ReplaceAllIsJoinOfSplit | dev_quick_init/installer.py:63 | `replace` equals splitting at the marker and joining with the replacement |
| Strings.JoinSplit | dev_quick_init/installer.py:63 | splitting then joining with the same separator gives the string back |
| Strings.ContainsIffSplits | dev_quick_init/installer.py:61 | the marker occurs exactly when splitting at it yields more than one piece |
| Strings.ReplaceAllAbsent | dev_quick_init/installer.py:61-65 | replacing an absent marker changes nothing |
| Expansion.Mapping | dev_quick_init/installer.py:69 | the dictionary `safe_substitute` receives: each parameter name to its rendered value |
| Expansion.MappingKeys | dev_quick_init/installer.py:69 | a name is bound exactly when some parameter has it |
| Expansion.MappingFirst | dev_quick_init/installer.py:69 | a parameter is bound to its own rendered value when no earlier parameter has its name |
| Expansion.Marker | dev_quick_init/installer.py:61 | the marker `{{key}}`: the key between two pairs of braces, starting with `{` |
| Expansion.Quote | dev_quick_init/installer.py:63 | an item as written into a command, between double quotes |
| Expansion.QuoteShape | dev_quick_init/installer.py:63 | a quoted item is the item between two `"`, and different items quote differently |
| Expansion.ExpandListParams | dev_quick_init/installer.py:54-70 | the nested loops return exactly `Expand(cmd, params)`: the fan-out, then one substitution of each string |
| Expansion.ExpandKey | dev_quick_init/installer.py:59-66 | one pass of the outer loop for a list key builds exactly that key's fan-out step over the working strings |
| Expansion.SubstituteEach | dev_quick_init/installer.py:67-70 | the closing loop yields each fanned-out string substituted once, in order |
| Expansion.StepKeyAppend | dev_quick_init/installer.py:60-66 | each working string is expanded independently and results keep the order of the strings |
| Expansion.StepKeyKeepsMiss | dev_quick_init/installer.py:64-65 | a string without the current marker is carried over unchanged, in its place |
| Expansion.StepKeyAllMiss | dev_quick_init/installer.py:64-66 | when no string mentions the marker the working list is unchanged |
| Expansion.StepKeyLength | dev_quick_init/installer.py:59-66 | one list parameter's pass yields one string per miss plus one per item for each hit |
| Expansion.StepKeyIsFlatten | dev_quick_init/installer.py:59-66 | the pass is the concatenation, in order, of each string's variants |
| Expansion.StepKeyAllHitAt | dev_quick_init/installer.py:61-63 | when every string has the marker, position a*N+j holds string a with item j |
| Expansion.FanOutFromAppend | dev_quick_init/installer.py:57-66 | parameters are processed one after another against the already-expanded strings |
| Expansion.FanOutFromScalars | dev_quick_init/installer.py:57-58 | scalar parameters do not take part in the fan-out |
| Expansion.FanOutFromUnmarked | dev_quick_init/installer.py:57-66 | strings mentioning no list marker pass through the fan-out unchanged |
| Expansion.FanOutFromIgnoresList | dev_quick_init/installer.py:57-66 | a list parameter whose marker no working string mentions at its turn leaves the fan-out as if it were absent |
| Expansion.FanOutFromKeep | dev_quick_init/installer.py:57-66 | parameters idle at their turn (scalars, or lists whose marker no working string then mentions) can be dropped: the remaining parameters alone decide the fan-out |
| Expansion.LoneMarkerOnly | dev_quick_init/installer.py:61 | text without `{` around the one marker of `k` does not mention the marker of a key starting with another character |
| Expansion.FanOutOneList | dev_quick_init/installer.py:57-66 | the fan-out is exactly the command's variants for list `p` when no earlier list's marker is in the command and no later list's marker is in any variant; scalars and such unreached lists may sit anywhere |
| Expansion.ExpandWithoutMarkers | dev_quick_init/installer.py:56-69 | with no list marker in the command the result is exactly one string, the command substituted once |
| Expansion.ExpandOneList | dev_quick_init/installer.py:56-69 | a command mentioning the marker of list `p` with N items, and reaching no other list's marker at that list's turn, gives N commands in list order; the j-th has every marker replaced by item j, quoted, then is substituted once with the whole map |
| Expansion.FanOutProduct | dev_quick_init/installer.py:56-66 | when every list marker is present as its parameter is processed, the number of commands is the product of the list lengths |
| Expansion.ExpandEmptyListDrops | dev_quick_init/installer.py:60-66 | an empty list whose marker occurs removes the command entirely |
| Expansion.FanOutTwoLists | dev_quick_init/installer.py:57-66 | for lists at positions p1 < p2, every other parameter idle at its turn, the second list's pass runs over the variants of the first |
| Expansion.FanOutTwoListsLength | dev_quick_init/installer.py:56-69 | lists at p1 < p2 of lengths N and M, both markers reached and every other parameter idle, give N*M fanned-out strings and N*M commands, also when a list is empty |
| Expansion.FanOutTwoListsAt | dev_quick_init/installer.py:57-66 | lists at p1 < p2 of lengths N and M, both markers reached and every other parameter idle, give N*M strings; position x*M+y carries item x of the first and item y of the second |
| Expansion.ExpandTwoLists | dev_quick_init/installer.py:56-69 | under the same conditions, the command at x*M+y is that combination substituted once with the whole map, the earlier list being the outer loop |
| Drivers.Lookup | dev_quick_init/installer.py:11-19 | a found driver is the one with that name; not found means no driver has that name |
| Drivers.LookupName | dev_quick_init/installer.py:11-19 | every driver in the table is found under its own name |
| Drivers.FormatInjective | dev_quick_init/installer.py:96 | different packages give different install commands |
| Drivers.TemplatesHaveNoDollar | dev_quick_init/installer.py:11-19 | no driver template contains `$`, so the final substitution of an install command can only touch the package |
| Drivers.WingetTemplateHasNoDollar | dev_quick_init/installer.py:12 | the winget template has no `$` before or after the package |
| Sequencer.DriverOf | dev_quick_init/installer.py:197 | the configured driver name, `winget` when the key is absent |
| Sequencer.InstallAction | dev_quick_init/installer.py:96 | the driver's template filled in with the package, run with empty parameters and no directory |
| Sequencer.BeforePhase | dev_quick_init/installer.py:204-206 | nothing for an empty before list, else its banner and then its commands |
| Sequencer.InstallPhase | dev_quick_init/installer.py:208-210 | nothing for an empty install list, else its banner and then `install_software` with the configured driver |
| Sequencer.AfterPhase | dev_quick_init/installer.py:212-216 | nothing for an empty after mapping, else its banner and then each section |
| Sequencer.FilesPhase | dev_quick_init/installer.py:218-220 | nothing for an empty file mapping, else its banner and then the files |
| Sequencer.Setup | dev_quick_init/installer.py:197-223 | a whole run of `main` on a loaded configuration: the four phases in order, then the completion line, stopping at the first exception |
| Sequencer.ItemActions | dev_quick_init/installer.py:75-81 | an item runs one command per expansion, all in the item's directory |
| Properties.PerformAppend | dev_quick_init/installer.py:204-223 | performing two action lists in a row is performing the first, then the second from where it left off |
| Properties.FailureEndsTheRun | dev_quick_init/installer.py:204-223 | once an exception is pending, the remaining actions change nothing |
| Properties.PerformDry | dev_quick_init/installer.py:33-38 | a dry performance shows the real trace with every process and write removed and each echo in its dry form, with no effects and the same failure |
| Properties.DryRunPreviewsRealRun | dev_quick_init/installer.py:33-38 | a dry run is exactly the preview of a run in which nothing fails |
| Properties.DryRunOnlyEchoes | dev_quick_init/installer.py:103-104 | a dry run spawns nothing and writes nothing, and can only fail on an unknown driver |
| Properties.NoAbortNoFailure | dev_quick_init/installer.py:42-51 | when no process or write fails, only the unknown-driver error can end a run |
| Properties.PlanAbortsOnlyOnUnknownDriver | dev_quick_init/installer.py:86-88 | the only error the plan raises itself is the unknown driver with a non-empty install list |
| Properties.UnknownDriverStopsAfterBefore | dev_quick_init/installer.py:204-210 | an unknown driver with a non-empty install list ends the run right after the before phase and the install banner, with no install command |
| Properties.FailsOnlyOnUnknownDriver | dev_quick_init/installer.py:86-88 | with no failing effect, a run fails if and only if the install list is non-empty and the driver (default `winget`) is unknown |
| Properties.UnknownDriverInstallsNothing | dev_quick_init/installer.py:86-88 | an unknown driver issues no install command |
| Properties.AnnouncedOfSections | dev_quick_init/installer.py:214-216 | the after phase announces each section's label, in mapping order |
| Properties.PlanFollowsOutline | dev_quick_init/installer.py:204-223 | the banners come in the order before, install, after with its sections, files, then completion; each empty phase is skipped |
| Properties.HeadingsOfRun | dev_quick_init/installer.py:204-223 | a run without failure echoes exactly the banners of its actions, in order |
| Properties.CompletedRunFollowsOutline | dev_quick_init/installer.py:204-223 | a completed run's console shows exactly the outline of its configuration |
| Properties.ResolvePlain | dev_quick_init/installer.py:91-94 | entries without `{{` are used as they are, one package each |
| Properties.InstallPlainPackages | dev_quick_init/installer.py:89-96 | with a known driver and plain entries whose formatted command has no `$$`, one install command per entry, in order, each the driver template around the entry (the extra pass with empty parameters changes only `$$`) |
| Properties.InstallCommandOf | dev_quick_init/installer.py:96 | an install command without `$` in its package runs as formatted, with no directory |
| Properties.InstallCommandWithoutEscape | dev_quick_init/installer.py:96 | an install command without a `$$` runs as formatted, with no directory: the pass with empty parameters leaves every other `$` form as written |
| Properties.MarkedEntryResolves | dev_quick_init/installer.py:91-92 | an entry ending in a list marker contains `{{`, so it resolves to its expansion rather than to itself |
| Properties.VariantsAtEnd | dev_quick_init/installer.py:61-63 | an entry `pre{{key}}`, with `pre` free of `{`, fans out to `pre` plus each quoted item, in list order |
| Properties.ResolveEntryWithMarker | dev_quick_init/installer.py:91-92 | an entry `pre{{key}}` of list `p`, with `pre` free of `{` and `$`, items free of `$`, no earlier list's marker in the entry and no later list's marker in `pre` plus any quoted item, resolves to `pre` plus each quoted item, in list order; other parameters are unrestricted |
| Properties.ResolveEntryWithTwoItems | dev_quick_init/installer.py:91-92 | under the same conditions, an entry ending in the marker of a two-item list resolves to the two quoted items, first item first |
| Properties.ItemWithoutMarkers | dev_quick_init/installer.py:75-81 | an item without list markers runs one command, substituted twice, in its directory |
| Properties.UnresolvedCommandRunsVerbatim | dev_quick_init/installer.py:30 | a command whose placeholders are all unbound runs as written |
| Properties.DollarFreeCommandRunsVerbatim | dev_quick_init/installer.py:75-81 | an item without `$` or list markers runs as written |
| Properties.ItemWithOneList | dev_quick_init/installer.py:75-81 | an item mentioning the marker of list `p`, and reaching no other list's marker at that list's turn, runs one command per item, in order, all in the item's directory |
| Properties.CommandsActionsAppend | dev_quick_init/installer.py:75 | items are processed one after the other |
| Properties.EscapedNameTwice | dev_quick_init/installer.py:30 | `$$name` becomes `$name` after one pass and the value after a second |
| Properties.CommandsAreSubstitutedTwice | dev_quick_init/installer.py:30 | for any parameter map binding `name`, `$$name` in a command mentioning no list marker runs as the value `name` is bound to, while in a file it is written as `$name` |
| Scenarios.DotnetSdkResolved | dev_quick_init/samples.py:6-29 | `Microsoft.DotNet.SDK.{{dotnet_sdk}}` under the sample's whole parameter map, scalars and the `repos` list included, resolves to the two quoted versions, in order |
| Scenarios.DotnetSdkInstall | dev_quick_init/installer.py:84-96 | with the sample's driver and parameters, that entry installs exactly two winget packages, one per SDK version |
| Scenarios.LoneMarkerUnmarked | dev_quick_init/installer.py:61 | under a map shaped like the sample's, a command with one marker whose key starts unlike both list keys mentions no list marker |
| Scenarios.ScalarMarkerIsKept | dev_quick_init/samples.py:45 | the sample's `"{{name}}"` under the sample's whole parameter map, both lists included, runs with the braces as written |
| Installer.Host.Echo | dev_quick_init/installer.py:40 | `click.echo` appends one console line and changes nothing else |
| Installer.Host.Raise | dev_quick_init/installer.py:88 | raising sets the pending exception and changes nothing else |
| Installer.Host.Shell | dev_quick_init/installer.py:42-51 | spawning a command records it, counts one effect and raises when that effect fails |
| Installer.Host.WriteText | dev_quick_init/installer.py:105-107 | an attempted file write is recorded, counts one effect and raises when that effect fails |
| Installer.RunCmd | dev_quick_init/installer.py:22-51 | substitutes command and directory, echoes the preview with ` in <dir>` exactly when the directory is non-empty, and spawns only in a real run |
| Installer.ProcessItem | dev_quick_init/installer.py:76-81 | one item's expansions run in order in its directory until one fails |
| Installer.ProcessCommands | dev_quick_init/installer.py:73-81 | every expansion of every item runs in order until one fails |
| Installer.CollectPackages | dev_quick_init/installer.py:89-94 | the accumulated package list is exactly the resolved install list |
| Installer.InstallSoftware | dev_quick_init/installer.py:84-96 | raises for an unknown driver before any command, else installs each resolved package in order |
| Installer.InstallEach | dev_quick_init/installer.py:95-96 | the driver's command for each resolved package runs in order until one fails, with no directory and no parameters |
| Installer.CreateFiles | dev_quick_init/installer.py:99-108 | a dry run only announces each path; a real run writes each file with its content substituted once, then echoes it |
| Installer.RunSections | dev_quick_init/installer.py:212-216 | each after section's label, then its commands, in mapping order |
| Installer.RunSection | dev_quick_init/installer.py:214-216 | one section leaves the host exactly as performing its label and then its commands would, stopping at the first failure |
| Installer.BeforeCommandsPhase | dev_quick_init/installer.py:204-206 | a non-empty before list is announced and processed; an empty one does nothing |
| Installer.InstallingPhase | dev_quick_init/installer.py:208-210 | a non-empty install list is announced and installed with the configured driver; an empty one does nothing, even with an unknown driver |
| Installer.AfterCommandsPhase | dev_quick_init/installer.py:212-216 | non-empty after sections are announced, then run section by section |
| Installer.CreatingFilesPhase | dev_quick_init/installer.py:218-220 | a non-empty file map is announced and its files created; an empty one does nothing |
| Installer.SetupMachine | dev_quick_init/installer.py:197-223 | the phases run in order under their banners, empty phases skipped, the driver defaulting to `winget`, ending at the first failure |

## Left out

- Process output: `verbose` only decides whether command output goes to the console or to `DEVNULL`, so it is not modelled.
- `subprocess.run`'s exit status and the filesystem: each becomes the `failing` set of effect positions.
- YAML loading: the model starts from a loaded configuration.
- Non-string YAML values, such as numbers and lists referred to as `$name`: each parameter carries its value already rendered as Python's `str()` would render it.
- Non-string install entries: these carry their `str.format` rendering as `Package.Other`.
- `os.path.expanduser` and `os.path.expandvars` on file paths, and `mkdir` of the parent directory: these depend on the environment. Paths are recorded as written in the configuration.
- Console text: the emoji and prefixes are abstracted to the `Note` and `Banner` values.
- Timing: the start time and the elapsed-seconds line are abstracted to the `Completed` banner.
- Command-line handling: the click options, `show_drivers`, `generate_sample_template` and the sample texts are output only. The samples appear only as inputs of `Scenarios`.
- Type errors from malformed configurations are not modelled: a `null` `params`, a dict item without `cmd`, or a section whose commands are `null`.
- A `null` driver is not a type error: `PACKAGE_DRIVERS.get(None)` finds nothing, so it raises the same unknown-driver `ValueError` (naming `None`), and only when the install list is non-empty. The configuration carries it as the driver named `"None"`, which `Lookup` does not find.
- Duplicate keys in the parameter map are not modelled: `Mapping` gives the first binding of a key.
- Template placeholders with an invalid `${...}` are not interpreted: they are kept as written, as `safe_substitute` keeps them.
