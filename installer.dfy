/**
 * The installer's functions as the imperative code they are: `run_cmd`,
 * `process_commands`, `install_software`, `create_files` and the phases of
 * `main`, acting on a `Host` that stands for the console, the shell and the
 * filesystem.  Each method is proved to leave the host exactly as
 * performing its actions from `Sequencer` would, so the laws proved in
 * `Properties` hold of these loops too.
 */
module Installer {
  import opened Wrappers
  import opened Strings
  import opened Template
  import opened Expansion
  import opened Drivers
  import opened Sequencer
  import opened Properties

  /**
   * The outside world of one run: what was echoed, spawned and written, the
   * number of real effects attempted, and the exception pending, if any.
   * `failing` says which real effects fail (see `Sequencer.Mode`).
   */
  class Host {
    const dryRun: bool
    const failing: set<nat>
    var trace: seq<Event>
    var effects: nat
    var failure: Option<Failure>

    function RunMode(): Mode {
      Mode(dryRun, failing)
    }

    function State(): World
      reads this
    {
      World(trace, effects, failure)
    }

    constructor (dryRun: bool, failing: set<nat>)
      ensures this.dryRun == dryRun && this.failing == failing
      ensures State() == Initial
    {
      this.dryRun := dryRun;
      this.failing := failing;
      trace := [];
      effects := 0;
      failure := None;
    }

    /** `click.echo`. */
    method Echo(note: Note)
      modifies this
      ensures State() == old(State()).(trace := old(trace) + [Say(note)])
    {
      trace := trace + [Say(note)];
    }

    /** `subprocess.run(cmd, shell=True, check=True, cwd=cwd)`: raises when the command fails. */
    method Shell(cmd: string, cwd: Option<string>)
      modifies this
      ensures trace == old(trace) + [Spawn(cmd, cwd)]
      ensures effects == old(effects) + 1
      ensures failure == if old(effects) in failing then Some(CommandFailed(cmd)) else old(failure)
    {
      trace := trace + [Spawn(cmd, cwd)];
      if effects in failing {
        failure := Some(CommandFailed(cmd));
      }
      effects := effects + 1;
    }

    /** `path.write_text(content)` after creating the parent directories: the write is attempted and recorded, and raises when it fails. */
    method WriteText(path: string, content: string)
      modifies this
      ensures trace == old(trace) + [WriteFile(path, content)]
      ensures effects == old(effects) + 1
      ensures failure == if old(effects) in failing then Some(WriteFailed(path)) else old(failure)
    {
      trace := trace + [WriteFile(path, content)];
      if effects in failing {
        failure := Some(WriteFailed(path));
      }
      effects := effects + 1;
    }

    /** `raise`. */
    method Raise(f: Failure)
      modifies this
      ensures State() == old(State()).(failure := Some(f))
    {
      failure := Some(f);
    }
  }

  /** One step of a run whose first action is known. */
  lemma PerformHead(a: Action, rest: seq<Action>, m: Mode, w: World)
    requires w.failure == None
    ensures Perform([a] + rest, m, w) == Perform(rest, m, Act(a, m, w))
  {
    assert ([a] + rest)[1..] == rest;
  }

  /** A run with an exception pending does nothing more. */
  lemma PerformFailed(acts: seq<Action>, m: Mode, w: World)
    requires w.failure.Some?
    ensures Perform(acts, m, w) == w
  {
  }

  /** `run_cmd(cmd, cwd, params, verbose, dry_run)`: substitutes command and directory, then echoes and, unless dry, runs. */
  method RunCmd(h: Host, cmd: string, cwd: Option<string>, env: map<string, string>)
    modifies h
    ensures h.State() == Act(RunAction(cmd, cwd, env), h.RunMode(), old(h.State()))
  {
    var finalCmd := SafeSubstitute(cmd, env);
    var finalCwd := if cwd.Some? && cwd.value != [] then Some(SafeSubstitute(cwd.value, env)) else None;
    if h.dryRun {
      h.Echo(Running(true, Preview(finalCmd, finalCwd)));
      return;
    }
    h.Echo(Running(false, Preview(finalCmd, finalCwd)));
    h.Shell(finalCmd, finalCwd);
  }

  /** One iteration of `process_commands`: the item's expansions, each run in the item's directory, until one fails. */
  method ProcessItem(h: Host, item: CommandItem, ps: Params)
    requires h.failure == None
    modifies h
    ensures h.State() == Perform(ItemActions(item, ps), h.RunMode(), old(h.State()))
  {
    ghost var acts := ItemActions(item, ps);
    ghost var goal := Perform(acts, h.RunMode(), h.State());
    var cmd, cwd := CommandOf(item), DirOf(item);
    var env := Mapping(ps);
    var cmds := ExpandListParams(cmd, ps);
    var j := 0;
    while j < |cmds|
      invariant 0 <= j <= |cmds|
      invariant h.failure == None
      invariant goal == Perform(acts[j..], h.RunMode(), h.State())
    {
      assert acts[j..] == [RunAction(cmds[j], cwd, env)] + acts[j + 1..];
      PerformHead(RunAction(cmds[j], cwd, env), acts[j + 1..], h.RunMode(), h.State());
      RunCmd(h, cmds[j], cwd, env);
      if h.failure.Some? {
        PerformFailed(acts[j + 1..], h.RunMode(), h.State());
        return;
      }
      j := j + 1;
    }
  }

  /** `process_commands(commands, params, verbose, dry_run)`: every expansion of every item, in order, until one fails. */
  method ProcessCommands(h: Host, items: seq<CommandItem>, ps: Params)
    requires h.failure == None
    modifies h
    ensures h.State() == Perform(CommandsActions(items, ps), h.RunMode(), old(h.State()))
  {
    ghost var goal := Perform(CommandsActions(items, ps), h.RunMode(), h.State());
    var k := 0;
    while k < |items|
      invariant 0 <= k <= |items|
      invariant h.failure == None
      invariant goal == Perform(CommandsActions(items[k..], ps), h.RunMode(), h.State())
    {
      ghost var rest := CommandsActions(items[k + 1..], ps);
      assert CommandsActions(items[k..], ps) == ItemActions(items[k], ps) + rest by {
        assert items[k..][1..] == items[k + 1..];
      }
      PerformAppend(ItemActions(items[k], ps), rest, h.RunMode(), h.State());
      ProcessItem(h, items[k], ps);
      if h.failure.Some? {
        PerformFailed(rest, h.RunMode(), h.State());
        return;
      }
      k := k + 1;
    }
  }

  /** The first loop of `install_software`: entries containing `{{` are expanded, the others kept. */
  method CollectPackages(pkgs: seq<Package>, ps: Params) returns (processed: seq<string>)
    ensures processed == ResolvePackages(pkgs, ps)
  {
    processed := [];
    var i := 0;
    while i < |pkgs|
      invariant 0 <= i <= |pkgs|
      invariant processed == ResolvePackages(pkgs[..i], ps)
    {
      var pkg := pkgs[i];
      assert pkgs[..i + 1][..i] == pkgs[..i];
      if pkg.Id? && Contains(pkg.id, "{{") {
        var expanded := ExpandListParams(pkg.id, ps);
        processed := processed + expanded;
      } else {
        processed := processed + [PackageText(pkg)];
      }
      i := i + 1;
    }
    assert pkgs[..i] == pkgs;
  }

  /** `install_software(software_list, driver, params, verbose, dry_run)`. */
  method InstallSoftware(h: Host, pkgs: seq<Package>, driver: string, ps: Params)
    requires h.failure == None
    modifies h
    ensures h.State() == Perform(InstallActions(pkgs, driver, ps), h.RunMode(), old(h.State()))
  {
    var found := Lookup(driver);
    if found.None? {
      h.Raise(UnknownDriver(driver));
      return;
    }
    var processed := CollectPackages(pkgs, ps);
    InstallEach(h, found.value, processed);
  }

  /** The second loop of `install_software`: the driver's command for each resolved package, until one fails. */
  method InstallEach(h: Host, d: Driver, processed: seq<string>)
    requires h.failure == None
    modifies h
    ensures h.State() == Perform(InstallCommands(d, processed), h.RunMode(), old(h.State()))
  {
    var template := TemplateOf(d);
    ghost var acts := InstallCommands(d, processed);
    ghost var goal := Perform(acts, h.RunMode(), h.State());
    var i := 0;
    while i < |processed|
      invariant 0 <= i <= |processed| == |acts|
      invariant h.failure == None
      invariant goal == Perform(acts[i..], h.RunMode(), h.State())
    {
      assert acts[i..] == [InstallAction(d, processed[i])] + acts[i + 1..];
      PerformHead(InstallAction(d, processed[i]), acts[i + 1..], h.RunMode(), h.State());
      RunCmd(h, Format(template, processed[i]), None, map[]);
      if h.failure.Some? {
        PerformFailed(acts[i + 1..], h.RunMode(), h.State());
        return;
      }
      i := i + 1;
    }
  }

  /** `create_files(files_dict, params, dry_run)`: each file announced (dry) or written with its substituted content. */
  method CreateFiles(h: Host, files: seq<(string, string)>, ps: Params)
    requires h.failure == None
    modifies h
    ensures h.State() == Perform(FileActions(files, ps), h.RunMode(), old(h.State()))
  {
    ghost var acts := FileActions(files, ps);
    ghost var goal := Perform(acts, h.RunMode(), h.State());
    var env := Mapping(ps);
    var i := 0;
    while i < |files|
      invariant 0 <= i <= |files|
      invariant h.failure == None
      invariant goal == Perform(acts[i..], h.RunMode(), h.State())
    {
      var (path, content) := files[i];
      assert acts[i..] == [Materialize(path, SafeSubstitute(content, env))] + acts[i + 1..];
      PerformHead(Materialize(path, SafeSubstitute(content, env)), acts[i + 1..], h.RunMode(), h.State());
      ghost var w := h.State();
      if h.dryRun {
        h.Echo(WouldCreate(path));
      } else {
        h.WriteText(path, SafeSubstitute(content, env));
        if h.failure.Some? {
          PerformFailed(acts[i + 1..], h.RunMode(), h.State());
          return;
        }
        h.Echo(Created(path));
        assert h.trace == w.trace + [WriteFile(path, SafeSubstitute(content, env)), Say(Created(path))];
      }
      assert h.State() == Act(Materialize(path, SafeSubstitute(content, env)), h.RunMode(), w);
      i := i + 1;
    }
  }

  /** One pass of the `after` loop of `main`: the section's label, then `process_commands` on its commands. */
  method RunSection(h: Host, name: string, cmds: seq<CommandItem>, ps: Params)
    requires h.failure == None
    modifies h
    ensures h.State() == Perform([Announce(Section(name))] + CommandsActions(cmds, ps), h.RunMode(), old(h.State()))
  {
    PerformHead(Announce(Section(name)), CommandsActions(cmds, ps), h.RunMode(), h.State());
    h.Echo(Heading(Section(name)));
    ProcessCommands(h, cmds, ps);
  }

  /** The `after` loop of `main`: each section's label, then its commands. */
  method RunSections(h: Host, sections: seq<(string, seq<CommandItem>)>, ps: Params)
    requires h.failure == None
    modifies h
    ensures h.State() == Perform(SectionsActions(sections, ps), h.RunMode(), old(h.State()))
  {
    ghost var goal := Perform(SectionsActions(sections, ps), h.RunMode(), h.State());
    var k := 0;
    while k < |sections|
      invariant 0 <= k <= |sections|
      invariant h.failure == None
      invariant goal == Perform(SectionsActions(sections[k..], ps), h.RunMode(), h.State())
    {
      var (name, cmds) := sections[k];
      ghost var section := [Announce(Section(name))] + CommandsActions(cmds, ps);
      ghost var rest := SectionsActions(sections[k + 1..], ps);
      assert SectionsActions(sections[k..], ps) == section + rest by {
        assert sections[k..][1..] == sections[k + 1..];
      }
      PerformAppend(section, rest, h.RunMode(), h.State());
      RunSection(h, name, cmds, ps);
      if h.failure.Some? {
        PerformFailed(rest, h.RunMode(), h.State());
        return;
      }
      k := k + 1;
    }
  }

  /** `if before:` in `main`: the banner, then the before-commands. */
  method BeforeCommandsPhase(h: Host, cfg: Config)
    requires h.failure == None
    modifies h
    ensures h.State() == Perform(BeforePhase(cfg), h.RunMode(), old(h.State()))
  {
    if cfg.before != [] {
      PerformHead(Announce(PhaseStart(BeforeCommands)), CommandsActions(cfg.before, cfg.params), h.RunMode(), h.State());
      h.Echo(Heading(PhaseStart(BeforeCommands)));
      ProcessCommands(h, cfg.before, cfg.params);
    }
  }

  /** `if install_list:` in `main`: the banner, then `install_software` with the configured driver. */
  method InstallingPhase(h: Host, cfg: Config, driver: string)
    requires h.failure == None && driver == DriverOf(cfg)
    modifies h
    ensures h.State() == Perform(InstallPhase(cfg), h.RunMode(), old(h.State()))
  {
    if cfg.install != [] {
      PerformHead(Announce(PhaseStart(Installing)), InstallActions(cfg.install, driver, cfg.params), h.RunMode(), h.State());
      h.Echo(Heading(PhaseStart(Installing)));
      InstallSoftware(h, cfg.install, driver, cfg.params);
    }
  }

  /** `if after_dict:` in `main`: the banner, then every section. */
  method AfterCommandsPhase(h: Host, cfg: Config)
    requires h.failure == None
    modifies h
    ensures h.State() == Perform(AfterPhase(cfg), h.RunMode(), old(h.State()))
  {
    if cfg.after != [] {
      PerformHead(Announce(PhaseStart(AfterCommands)), SectionsActions(cfg.after, cfg.params), h.RunMode(), h.State());
      h.Echo(Heading(PhaseStart(AfterCommands)));
      RunSections(h, cfg.after, cfg.params);
    }
  }

  /** `if files_dict:` in `main`: the banner, then `create_files`. */
  method CreatingFilesPhase(h: Host, cfg: Config)
    requires h.failure == None
    modifies h
    ensures h.State() == Perform(FilesPhase(cfg), h.RunMode(), old(h.State()))
  {
    if cfg.files != [] {
      PerformHead(Announce(PhaseStart(CreatingFiles)), FileActions(cfg.files, cfg.params), h.RunMode(), h.State());
      h.Echo(Heading(PhaseStart(CreatingFiles)));
      CreateFiles(h, cfg.files, cfg.params);
    }
  }

  /**
   * The body of `main` once the YAML file is loaded: each non-empty phase
   * under its banner, in the order before, install, after, files, then the
   * completion line; an exception ends the run where it is raised.
   */
  method SetupMachine(h: Host, cfg: Config)
    requires h.failure == None
    modifies h
    ensures h.State() == Perform(Plan(cfg), h.RunMode(), old(h.State()))
    ensures old(h.State()) == Initial ==> h.State() == Setup(cfg, h.RunMode())
  {
    var m := h.RunMode();
    var driver := cfg.driver.GetOr("winget");
    var done := [Announce(Completed)];
    ghost var files := FilesPhase(cfg) + done;
    ghost var after := AfterPhase(cfg) + files;
    ghost var install := InstallPhase(cfg) + after;
    PerformAppend(BeforePhase(cfg), install, m, h.State());
    BeforeCommandsPhase(h, cfg);
    if h.failure.Some? {
      PerformFailed(install, m, h.State());
      return;
    }
    PerformAppend(InstallPhase(cfg), after, m, h.State());
    InstallingPhase(h, cfg, driver);
    if h.failure.Some? {
      PerformFailed(after, m, h.State());
      return;
    }
    PerformAppend(AfterPhase(cfg), files, m, h.State());
    AfterCommandsPhase(h, cfg);
    if h.failure.Some? {
      PerformFailed(files, m, h.State());
      return;
    }
    PerformAppend(FilesPhase(cfg), done, m, h.State());
    CreatingFilesPhase(h, cfg);
    if h.failure.Some? {
      PerformFailed(done, m, h.State());
      return;
    }
    PerformHead(Announce(Completed), [], m, h.State());
    h.Echo(Heading(Completed));
  }
}
