/**
 * What one run of the installer does, as data.  `Plan` turns an
 * already-loaded configuration into the ordered list of actions the run
 * performs (echoes, shell commands, file writes, the unknown-driver error);
 * `Perform` plays actions against the outside world in dry-run or real mode,
 * recording what the console, the process spawner and the filesystem see,
 * and stops at the first failure as the uncaught exception does.
 */
module Sequencer {
  import opened Wrappers
  import opened Strings
  import opened Template
  import opened Expansion
  import opened Drivers

  /** An entry of `before` or of an `after` section: a string, or a dict with `cmd` and an optional `dir`. */
  datatype CommandItem = Line(cmd: string) | Entry(cmd: string, dir: Option<string>)

  /** An entry of `install`: a string, or any other YAML value, rendered as `str.format` renders it. */
  datatype Package = Id(id: string) | Other(rendered: string)

  /**
   * The loaded configuration.  `driver` is absent when the key is missing;
   * the mappings (`params`, `after`, `files`) are kept in iteration order.
   */
  datatype Config = Config(
    driver: Option<string>,
    params: Params,
    before: seq<CommandItem>,
    install: seq<Package>,
    after: seq<(string, seq<CommandItem>)>,
    files: seq<(string, string)>)

  datatype Phase = BeforeCommands | Installing | AfterCommands | CreatingFiles

  /** The fixed console lines of the sequencer: a phase banner, a section label, the completion line. */
  datatype Banner = PhaseStart(phase: Phase) | Section(name: string) | Completed

  /** A console line. */
  datatype Note =
    | Heading(banner: Banner)
    | Running(dryRun: bool, preview: string)   // `[DRY-RUN] Running: ...` or `Running: ...`
    | WouldCreate(path: string)
    | Created(path: string)

  /** What the outside world sees: a console line, a spawned shell command, an attempted file write (it may have failed). */
  datatype Event = Say(note: Note) | Spawn(cmd: string, cwd: Option<string>) | WriteFile(path: string, content: string)

  /** The exception that ends a run: `ValueError`, a failed `subprocess.run(check=True)`, a failed write. */
  datatype Failure = UnknownDriver(name: string) | CommandFailed(cmd: string) | WriteFailed(path: string)

  /** The observable state: events so far, how many real effects were attempted, the pending exception. */
  datatype World = World(trace: seq<Event>, effects: nat, failure: Option<Failure>)

  /**
   * How a run is performed.  A real effect (a spawned command or a file
   * write) fails exactly when its index among the real effects of the run is
   * in `failing`; this stands for the exit status and the filesystem.
   */
  datatype Mode = Mode(dryRun: bool, failing: set<nat>)

  /** One step of a run. */
  datatype Action =
    | Announce(banner: Banner)
    | Command(cmd: string, cwd: Option<string>)        // `run_cmd`, after its substitution
    | Materialize(path: string, content: string)      // one entry of `create_files`
    | Abort(failure: Failure)

  const Initial: World := World([], 0, None)

  /** `data.get("driver", "winget")`. */
  function DriverOf(cfg: Config): string {
    cfg.driver.GetOr("winget")
  }

  /** What `run_cmd` echoes after its prefix: the command, then ` in <cwd>` when the directory is non-empty. */
  function Preview(cmd: string, cwd: Option<string>): string {
    if cwd.Some? && cwd.value != [] then cmd + " in " + cwd.value else cmd
  }

  /** The working directory `run_cmd` uses for a raw `dir`: none when it is absent or empty, else its substitution. */
  function Directory(dir: Option<string>, env: map<string, string>): Option<string> {
    if dir.Some? && dir.value != [] then Some(SafeSubstitute(dir.value, env)) else None
  }

  /** `run_cmd(cmd, dir, params)`: the command it runs, after its own `safe_substitute` pass. */
  function RunAction(cmd: string, dir: Option<string>, env: map<string, string>): Action {
    Command(SafeSubstitute(cmd, env), Directory(dir, env))
  }

  /** The command and the raw directory of an item, as `process_commands` reads them. */
  function CommandOf(item: CommandItem): string {
    item.cmd
  }

  function DirOf(item: CommandItem): Option<string> {
    match item
    case Line(_) => None
    case Entry(_, dir) => dir
  }

  /**
   * The commands one item runs: its expansions, in order, each passed to
   * `run_cmd` with the item's directory and the parameters, so each command
   * is substituted a second time.
   */
  function ItemActions(item: CommandItem, ps: Params): (r: seq<Action>)
    ensures |r| == |Expand(CommandOf(item), ps)|
    ensures forall i :: 0 <= i < |r| ==> r[i].Command? && r[i].cwd == Directory(DirOf(item), Mapping(ps))
  {
    var cs := Expand(CommandOf(item), ps);
    seq(|cs|, i requires 0 <= i < |cs| => RunAction(cs[i], DirOf(item), Mapping(ps)))
  }

  /** `process_commands(items, params)`. */
  function CommandsActions(items: seq<CommandItem>, ps: Params): seq<Action>
    decreases |items|
  {
    if items == [] then [] else ItemActions(items[0], ps) + CommandsActions(items[1..], ps)
  }

  /** The `after` loop of `main`: each section's label, then its commands. */
  function SectionsActions(sections: seq<(string, seq<CommandItem>)>, ps: Params): seq<Action>
    decreases |sections|
  {
    if sections == [] then []
    else [Announce(Section(sections[0].0))] + CommandsActions(sections[0].1, ps) + SectionsActions(sections[1..], ps)
  }

  /** The text an install entry contributes when it is not expanded. */
  function PackageText(pkg: Package): string {
    match pkg
    case Id(s) => s
    case Other(r) => r
  }

  /** One entry of `install_software`'s first loop: a string containing `{{` is expanded, anything else is kept. */
  function Resolve(pkg: Package, ps: Params): seq<string> {
    match pkg
    case Id(s) => if Contains(s, "{{") then Expand(s, ps) else [s]
    case Other(r) => [r]
  }

  /** `processed_list` after the first loop of `install_software`. */
  function ResolvePackages(pkgs: seq<Package>, ps: Params): seq<string>
    decreases |pkgs|
  {
    if pkgs == [] then [] else ResolvePackages(pkgs[..|pkgs| - 1], ps) + Resolve(pkgs[|pkgs| - 1], ps)
  }

  /** The install command for one resolved package: the driver template filled in, run with empty parameters. */
  function InstallAction(d: Driver, pkg: string): Action {
    RunAction(Format(TemplateOf(d), pkg), None, map[])
  }

  /** `install_software`: the unknown-driver error, or one command per resolved package. */
  function InstallActions(pkgs: seq<Package>, driver: string, ps: Params): seq<Action> {
    match Lookup(driver)
    case None => [Abort(UnknownDriver(driver))]
    case Some(d) => InstallCommands(d, ResolvePackages(pkgs, ps))
  }

  /** The second loop of `install_software`: one driver command per resolved package, in order. */
  function InstallCommands(d: Driver, resolved: seq<string>): seq<Action> {
    seq(|resolved|, i requires 0 <= i < |resolved| => InstallAction(d, resolved[i]))
  }

  /** `create_files`: each path as given, with its content substituted once. */
  function FileActions(files: seq<(string, string)>, ps: Params): seq<Action> {
    seq(|files|, i requires 0 <= i < |files| => Materialize(files[i].0, SafeSubstitute(files[i].1, Mapping(ps))))
  }

  function BeforePhase(cfg: Config): seq<Action> {
    if cfg.before == [] then [] else [Announce(PhaseStart(BeforeCommands))] + CommandsActions(cfg.before, cfg.params)
  }

  function InstallPhase(cfg: Config): seq<Action> {
    if cfg.install == [] then []
    else [Announce(PhaseStart(Installing))] + InstallActions(cfg.install, DriverOf(cfg), cfg.params)
  }

  function AfterPhase(cfg: Config): seq<Action> {
    if cfg.after == [] then [] else [Announce(PhaseStart(AfterCommands))] + SectionsActions(cfg.after, cfg.params)
  }

  function FilesPhase(cfg: Config): seq<Action> {
    if cfg.files == [] then [] else [Announce(PhaseStart(CreatingFiles))] + FileActions(cfg.files, cfg.params)
  }

  /** The body of `main` after loading: the four phases, each skipped when empty, then the completion line. */
  function Plan(cfg: Config): seq<Action> {
    BeforePhase(cfg) + (InstallPhase(cfg) + (AfterPhase(cfg) + (FilesPhase(cfg) + [Announce(Completed)])))
  }

  /** What one action does to the world. */
  function Act(a: Action, m: Mode, w: World): World {
    match a
    case Announce(b) => w.(trace := w.trace + [Say(Heading(b))])
    case Command(cmd, cwd) =>
      var echo := Say(Running(m.dryRun, Preview(cmd, cwd)));
      if m.dryRun then w.(trace := w.trace + [echo])
      else World(w.trace + [echo, Spawn(cmd, cwd)], w.effects + 1,
                 if w.effects in m.failing then Some(CommandFailed(cmd)) else w.failure)
    case Materialize(path, content) =>
      if m.dryRun then w.(trace := w.trace + [Say(WouldCreate(path))])
      else if w.effects in m.failing then World(w.trace + [WriteFile(path, content)], w.effects + 1, Some(WriteFailed(path)))
      else World(w.trace + [WriteFile(path, content), Say(Created(path))], w.effects + 1, w.failure)
    case Abort(f) => w.(failure := Some(f))
  }

  /** Performs the actions in order; once an exception is pending, nothing more happens. */
  function Perform(acts: seq<Action>, m: Mode, w: World): World
    decreases |acts|
  {
    if acts == [] || w.failure.Some? then w else Perform(acts[1..], m, Act(acts[0], m, w))
  }

  /** A whole run of `main` on a loaded configuration. */
  function Setup(cfg: Config, m: Mode): World {
    Perform(Plan(cfg), m, Initial)
  }
}
