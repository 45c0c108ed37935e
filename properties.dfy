/**
 * Laws of a run: how performing actions composes, that a dry run shows
 * exactly what a real run would do and touches nothing, when the
 * unknown-driver error fires and what has happened by then, and the order
 * in which the phases and sections announce themselves.
 */
module Properties {
  import opened Wrappers
  import opened Strings
  import opened Template
  import opened Expansion
  import opened Drivers
  import opened Sequencer

  // ---------------------------------------------------------------------
  // Composition and failure

  /** Performing `a + b` is performing `a`, then `b` from where `a` left off. */
  lemma {:induction false} PerformAppend(a: seq<Action>, b: seq<Action>, m: Mode, w: World)
    ensures Perform(a + b, m, w) == Perform(b, m, Perform(a, m, w))
    decreases |a|
  {
    if a == [] {
      assert a + b == b;
    } else if w.failure.Some? {
      assert Perform(b, m, w) == w;
    } else {
      assert (a + b)[1..] == a[1..] + b;
      PerformAppend(a[1..], b, m, Act(a[0], m, w));
    }
  }

  /**
   * The first failure ends the run: once the first `k` actions have left an
   * exception pending, the remaining actions change nothing.
   */
  lemma FailureEndsTheRun(acts: seq<Action>, k: nat, m: Mode, w: World)
    requires k <= |acts| && Perform(acts[..k], m, w).failure.Some?
    ensures Perform(acts, m, w) == Perform(acts[..k], m, w)
  {
    assert acts == acts[..k] + acts[k..];
    PerformAppend(acts[..k], acts[k..], m, w);
  }

  // ---------------------------------------------------------------------
  // Dry run

  /** What the dry run shows in place of one event of a real run. */
  function DryView(e: Event): seq<Event> {
    match e
    case Say(Running(_, line)) => [Say(Running(true, line))]
    case Say(Created(path)) => [Say(WouldCreate(path))]
    case Say(_) => [e]
    case Spawn(_, _) => []
    case WriteFile(_, _) => []
  }

  /** The trace of a real run as a dry run would show it: no process, no write, every echo in its dry form. */
  function DryTrace(es: seq<Event>): seq<Event>
    decreases |es|
  {
    if es == [] then [] else DryTrace(es[..|es| - 1]) + DryView(es[|es| - 1])
  }

  lemma DryTraceSnoc2(t: seq<Event>, e1: Event, e2: Event)
    ensures DryTrace(t + [e1, e2]) == DryTrace(t) + DryView(e1) + DryView(e2)
  {
    assert t + [e1, e2] == (t + [e1]) + [e2];
    DryTraceSnoc(t + [e1], e2);
    DryTraceSnoc(t, e1);
  }

  lemma DryTraceSnoc(t: seq<Event>, e: Event)
    ensures DryTrace(t + [e]) == DryTrace(t) + DryView(e)
  {
    assert (t + [e])[..|t|] == t;
  }

  /** A dry run only echoes. */
  lemma {:induction false} DryTraceOnlyEchoes(es: seq<Event>)
    ensures forall i :: 0 <= i < |DryTrace(es)| ==> DryTrace(es)[i].Say?
    decreases |es|
  {
    if es != [] {
      DryTraceOnlyEchoes(es[..|es| - 1]);
    }
  }

  /** One action, dry and real (with nothing failing), from corresponding worlds. */
  lemma ActDry(a: Action, dryFailing: set<nat>, wd: World, wr: World)
    requires wd.trace == DryTrace(wr.trace) && wd.failure == wr.failure
    ensures Act(a, Mode(true, dryFailing), wd).trace == DryTrace(Act(a, Mode(false, {}), wr).trace)
    ensures Act(a, Mode(true, dryFailing), wd).effects == wd.effects
    ensures Act(a, Mode(true, dryFailing), wd).failure == Act(a, Mode(false, {}), wr).failure
  {
    match a
    case Announce(b) =>
      DryTraceSnoc(wr.trace, Say(Heading(b)));
    case Command(cmd, cwd) =>
      DryTraceSnoc2(wr.trace, Say(Running(false, Preview(cmd, cwd))), Spawn(cmd, cwd));
    case Materialize(path, content) =>
      DryTraceSnoc2(wr.trace, WriteFile(path, content), Say(Created(path)));
    case Abort(_) =>
  }

  lemma {:induction false} PerformDry(acts: seq<Action>, dryFailing: set<nat>, wd: World, wr: World)
    requires wd.trace == DryTrace(wr.trace) && wd.failure == wr.failure
    ensures Perform(acts, Mode(true, dryFailing), wd).trace == DryTrace(Perform(acts, Mode(false, {}), wr).trace)
    ensures Perform(acts, Mode(true, dryFailing), wd).effects == wd.effects
    ensures Perform(acts, Mode(true, dryFailing), wd).failure == Perform(acts, Mode(false, {}), wr).failure
    decreases |acts|
  {
    if acts != [] && wd.failure.None? {
      ActDry(acts[0], dryFailing, wd, wr);
      PerformDry(acts[1..], dryFailing, Act(acts[0], Mode(true, dryFailing), wd), Act(acts[0], Mode(false, {}), wr));
    }
  }

  /**
   * A dry run previews the real run exactly: its console shows the commands
   * and files of a real run in which nothing fails, in the same order, with
   * no process spawned and no file written, and it ends with the same
   * outcome.  What the real run would make fail is irrelevant to it.
   */
  lemma DryRunPreviewsRealRun(cfg: Config, failing: set<nat>)
    ensures Setup(cfg, Mode(true, failing)) ==
            World(DryTrace(Setup(cfg, Mode(false, {})).trace), 0, Setup(cfg, Mode(false, {})).failure)
  {
    PerformDry(Plan(cfg), failing, Initial, Initial);
  }

  // ---------------------------------------------------------------------
  // Failures other than a process or a write

  predicate NoAborts(acts: seq<Action>) {
    forall i :: 0 <= i < |acts| ==> !acts[i].Abort?
  }

  lemma NoAbortsAppend(a: seq<Action>, b: seq<Action>)
    requires NoAborts(a) && NoAborts(b)
    ensures NoAborts(a + b)
  {
    forall i | 0 <= i < |a + b| ensures !(a + b)[i].Abort? {
      if i >= |a| {
        assert (a + b)[i] == b[i - |a|];
      }
    }
  }

  /** Without an `Abort`, a run in which no process or write fails ends as it started. */
  lemma {:induction false} NoAbortNoFailure(acts: seq<Action>, m: Mode, w: World)
    requires NoAborts(acts) && (m.dryRun || m.failing == {})
    ensures Perform(acts, m, w).failure == w.failure
    decreases |acts|
  {
    if acts != [] && w.failure.None? {
      assert NoAborts(acts[1..]) by {
        forall i | 0 <= i < |acts[1..]| ensures !acts[1..][i].Abort? {
          assert acts[1..][i] == acts[i + 1];
        }
      }
      NoAbortNoFailure(acts[1..], m, Act(acts[0], m, w));
    }
  }

  /** Processing command items only ever runs commands. */
  lemma {:induction false} CommandsAreCommands(items: seq<CommandItem>, ps: Params)
    ensures forall i :: 0 <= i < |CommandsActions(items, ps)| ==> CommandsActions(items, ps)[i].Command?
    decreases |items|
  {
    if items != [] {
      CommandsAreCommands(items[1..], ps);
      var a: seq<Action> := ItemActions(items[0], ps);
      var b: seq<Action> := CommandsActions(items[1..], ps);
      forall i | 0 <= i < |a + b| ensures (a + b)[i].Command? {
        if i >= |a| {
          assert (a + b)[i] == b[i - |a|];
        }
      }
    }
  }

  lemma {:induction false} SectionsHaveNoAborts(sections: seq<(string, seq<CommandItem>)>, ps: Params)
    ensures NoAborts(SectionsActions(sections, ps))
    decreases |sections|
  {
    if sections != [] {
      CommandsAreCommands(sections[0].1, ps);
      SectionsHaveNoAborts(sections[1..], ps);
      NoAbortsAppend([Announce(Section(sections[0].0))], CommandsActions(sections[0].1, ps));
      NoAbortsAppend([Announce(Section(sections[0].0))] + CommandsActions(sections[0].1, ps), SectionsActions(sections[1..], ps));
    }
  }

  lemma BeforeHasNoAborts(cfg: Config)
    ensures NoAborts(BeforePhase(cfg))
  {
    if cfg.before != [] {
      CommandsAreCommands(cfg.before, cfg.params);
      NoAbortsAppend([Announce(PhaseStart(BeforeCommands))], CommandsActions(cfg.before, cfg.params));
    }
  }

  /** Only an unknown driver with something to install puts an `Abort` into the plan. */
  lemma PlanAbortsOnlyOnUnknownDriver(cfg: Config)
    requires cfg.install == [] || Lookup(DriverOf(cfg)).Some?
    ensures NoAborts(Plan(cfg))
  {
    BeforeHasNoAborts(cfg);
    if cfg.after != [] {
      SectionsHaveNoAborts(cfg.after, cfg.params);
      NoAbortsAppend([Announce(PhaseStart(AfterCommands))], SectionsActions(cfg.after, cfg.params));
    }
    if cfg.files != [] {
      NoAbortsAppend([Announce(PhaseStart(CreatingFiles))], FileActions(cfg.files, cfg.params));
    }
    if cfg.install != [] {
      NoAbortsAppend([Announce(PhaseStart(Installing))], InstallActions(cfg.install, DriverOf(cfg), cfg.params));
    }
    NoAbortsAppend(FilesPhase(cfg), [Announce(Completed)]);
    NoAbortsAppend(AfterPhase(cfg), FilesPhase(cfg) + [Announce(Completed)]);
    NoAbortsAppend(InstallPhase(cfg), AfterPhase(cfg) + (FilesPhase(cfg) + [Announce(Completed)]));
    NoAbortsAppend(BeforePhase(cfg), InstallPhase(cfg) + (AfterPhase(cfg) + (FilesPhase(cfg) + [Announce(Completed)])));
  }

  /**
   * An unknown driver is detected only once there is something to install,
   * and then only after the before-phase: the run is the before-phase, the
   * install banner and the error, with no install command, no after
   * command, no file and no completion line.
   */
  lemma UnknownDriverStopsAfterBefore(cfg: Config, m: Mode)
    requires cfg.install != [] && Lookup(DriverOf(cfg)).None?
    ensures var wb := Perform(BeforePhase(cfg), m, Initial);
            Setup(cfg, m) ==
              if wb.failure.Some? then wb
              else World(wb.trace + [Say(Heading(PhaseStart(Installing)))], wb.effects, Some(UnknownDriver(DriverOf(cfg))))
  {
    var wb := Perform(BeforePhase(cfg), m, Initial);
    var install := [Announce(PhaseStart(Installing)), Abort(UnknownDriver(DriverOf(cfg)))];
    var rest := AfterPhase(cfg) + (FilesPhase(cfg) + [Announce(Completed)]);
    assert InstallPhase(cfg) == install;
    PerformAppend(BeforePhase(cfg), install + rest, m, Initial);
    PerformAppend(install, rest, m, wb);
    if wb.failure.None? {
      assert install[1..] == [Abort(UnknownDriver(DriverOf(cfg)))];
      var w1 := Act(install[0], m, wb);
      assert Perform(install, m, wb) == Perform(install[1..], m, w1);
      assert Perform(install[1..], m, w1) == Act(install[1], m, w1);
    }
  }

  /**
   * In a dry run, and in a real run in which no process or write fails, the
   * run fails exactly when there is something to install and the driver is
   * not in the table.
   */
  lemma FailsOnlyOnUnknownDriver(cfg: Config, m: Mode)
    requires m.dryRun || m.failing == {}
    ensures Setup(cfg, m).failure ==
              if cfg.install != [] && Lookup(DriverOf(cfg)).None? then Some(UnknownDriver(DriverOf(cfg))) else None
  {
    if cfg.install != [] && Lookup(DriverOf(cfg)).None? {
      BeforeHasNoAborts(cfg);
      NoAbortNoFailure(BeforePhase(cfg), m, Initial);
      UnknownDriverStopsAfterBefore(cfg, m);
    } else {
      PlanAbortsOnlyOnUnknownDriver(cfg);
      NoAbortNoFailure(Plan(cfg), m, Initial);
    }
  }

  /**
   * A dry run spawns no process and writes no file, whatever the real run
   * would make fail; it can fail only on an unknown driver.
   */
  lemma DryRunOnlyEchoes(cfg: Config, failing: set<nat>)
    ensures Setup(cfg, Mode(true, failing)).effects == 0
    ensures forall i :: 0 <= i < |Setup(cfg, Mode(true, failing)).trace| ==> Setup(cfg, Mode(true, failing)).trace[i].Say?
    ensures Setup(cfg, Mode(true, failing)).failure.Some? ==> Setup(cfg, Mode(true, failing)).failure.value.UnknownDriver?
  {
    DryRunPreviewsRealRun(cfg, failing);
    DryTraceOnlyEchoes(Setup(cfg, Mode(false, {})).trace);
    FailsOnlyOnUnknownDriver(cfg, Mode(true, failing));
  }

  // ---------------------------------------------------------------------
  // Phase order

  /** The banners a list of actions announces, in order. */
  function Announced(acts: seq<Action>): seq<Banner>
    decreases |acts|
  {
    if acts == [] then [] else (if acts[0].Announce? then [acts[0].banner] else []) + Announced(acts[1..])
  }

  /** The sequencer's own console lines in a trace, in order. */
  function Headings(es: seq<Event>): seq<Banner>
    decreases |es|
  {
    if es == [] then []
    else
      var e := es[|es| - 1];
      Headings(es[..|es| - 1]) + (if e.Say? && e.note.Heading? then [e.note.banner] else [])
  }

  function SectionLabels(sections: seq<(string, seq<CommandItem>)>): seq<Banner> {
    seq(|sections|, i requires 0 <= i < |sections| => Section(sections[i].0))
  }

  /**
   * The console outline of a configuration: a banner for each non-empty
   * phase in the order before, install, after (with each section's label, in
   * mapping order), files; then the completion line.
   */
  function Outline(cfg: Config): seq<Banner> {
    (if cfg.before != [] then [PhaseStart(BeforeCommands)] else [])
    + ((if cfg.install != [] then [PhaseStart(Installing)] else [])
    + ((if cfg.after != [] then [PhaseStart(AfterCommands)] + SectionLabels(cfg.after) else [])
    + ((if cfg.files != [] then [PhaseStart(CreatingFiles)] else [])
    + [Completed])))
  }

  lemma {:induction false} AnnouncedAppend(a: seq<Action>, b: seq<Action>)
    ensures Announced(a + b) == Announced(a) + Announced(b)
    decreases |a|
  {
    if a == [] {
      assert a + b == b;
    } else {
      var h := if a[0].Announce? then [a[0].banner] else [];
      assert (a + b)[0] == a[0];
      assert (a + b)[1..] == a[1..] + b;
      assert Announced(a + b) == h + Announced(a[1..] + b);
      AnnouncedAppend(a[1..], b);
      assert Announced(a) == h + Announced(a[1..]);
    }
  }

  lemma {:induction false} AnnouncedNothing(acts: seq<Action>)
    requires forall i :: 0 <= i < |acts| ==> !acts[i].Announce?
    ensures Announced(acts) == []
    decreases |acts|
  {
    if acts != [] {
      assert forall i :: 0 <= i < |acts[1..]| ==> acts[1..][i] == acts[i + 1];
      AnnouncedNothing(acts[1..]);
    }
  }

  lemma AnnouncedOfCommands(items: seq<CommandItem>, ps: Params)
    ensures Announced(CommandsActions(items, ps)) == []
  {
    CommandsAreCommands(items, ps);
    AnnouncedNothing(CommandsActions(items, ps));
  }

  /** The after-phase announces exactly its sections' labels, in mapping order. */
  lemma {:induction false} AnnouncedOfSections(sections: seq<(string, seq<CommandItem>)>, ps: Params)
    ensures Announced(SectionsActions(sections, ps)) == SectionLabels(sections)
    decreases |sections|
  {
    if sections != [] {
      var head := [Announce(Section(sections[0].0))];
      var cmds := CommandsActions(sections[0].1, ps);
      var rest := SectionsActions(sections[1..], ps);
      AnnouncedOfSections(sections[1..], ps);
      AnnouncedOfCommands(sections[0].1, ps);
      AnnouncedAppend(head + cmds, rest);
      AnnouncedAppend(head, cmds);
      assert Announced(head) == [Section(sections[0].0)];
      assert SectionLabels(sections) == [Section(sections[0].0)] + SectionLabels(sections[1..]);
    }
  }

  lemma AnnouncedOfInstall(pkgs: seq<Package>, driver: string, ps: Params)
    ensures Announced(InstallActions(pkgs, driver, ps)) == []
  {
    AnnouncedNothing(InstallActions(pkgs, driver, ps));
  }

  lemma AnnouncedOfFiles(files: seq<(string, string)>, ps: Params)
    ensures Announced(FileActions(files, ps)) == []
  {
    AnnouncedNothing(FileActions(files, ps));
  }

  lemma AnnouncedOfBefore(cfg: Config)
    ensures Announced(BeforePhase(cfg)) == if cfg.before != [] then [PhaseStart(BeforeCommands)] else []
  {
    if cfg.before != [] {
      AnnouncedOfCommands(cfg.before, cfg.params);
      AnnouncedAppend([Announce(PhaseStart(BeforeCommands))], CommandsActions(cfg.before, cfg.params));
    }
  }

  lemma AnnouncedOfInstallPhase(cfg: Config)
    ensures Announced(InstallPhase(cfg)) == if cfg.install != [] then [PhaseStart(Installing)] else []
  {
    if cfg.install != [] {
      AnnouncedOfInstall(cfg.install, DriverOf(cfg), cfg.params);
      AnnouncedAppend([Announce(PhaseStart(Installing))], InstallActions(cfg.install, DriverOf(cfg), cfg.params));
    }
  }

  lemma AnnouncedOfAfter(cfg: Config)
    ensures Announced(AfterPhase(cfg)) == if cfg.after != [] then [PhaseStart(AfterCommands)] + SectionLabels(cfg.after) else []
  {
    if cfg.after != [] {
      AnnouncedOfSections(cfg.after, cfg.params);
      AnnouncedAppend([Announce(PhaseStart(AfterCommands))], SectionsActions(cfg.after, cfg.params));
    }
  }

  lemma AnnouncedOfFilesPhase(cfg: Config)
    ensures Announced(FilesPhase(cfg)) == if cfg.files != [] then [PhaseStart(CreatingFiles)] else []
  {
    if cfg.files != [] {
      AnnouncedOfFiles(cfg.files, cfg.params);
      AnnouncedAppend([Announce(PhaseStart(CreatingFiles))], FileActions(cfg.files, cfg.params));
    }
  }

  lemma AnnouncedOfCompletion(f: seq<Action>)
    ensures Announced(f + [Announce(Completed)]) == Announced(f) + [Completed]
  {
    var done := [Announce(Completed)];
    assert Announced(done) == [Completed] by {
      assert done[1..] == [];
      assert Announced(done) == [Completed] + Announced(done[1..]);
    }
    AnnouncedAppend(f, done);
  }

  lemma AnnouncedOfPhases(b: seq<Action>, i: seq<Action>, a: seq<Action>, f: seq<Action>)
    ensures Announced(b + (i + (a + (f + [Announce(Completed)])))) ==
            Announced(b) + (Announced(i) + (Announced(a) + (Announced(f) + [Completed])))
  {
    var x1 := f + [Announce(Completed)];
    var x2 := a + x1;
    var x3 := i + x2;
    AnnouncedOfCompletion(f);
    AnnouncedAppend(a, x1);
    AnnouncedAppend(i, x2);
    AnnouncedAppend(b, x3);
  }

  /** The plan announces the outline: phases in order, empty ones skipped, section labels in order, completion last. */
  lemma PlanFollowsOutline(cfg: Config)
    ensures Announced(Plan(cfg)) == Outline(cfg)
  {
    AnnouncedOfBefore(cfg);
    AnnouncedOfInstallPhase(cfg);
    AnnouncedOfAfter(cfg);
    AnnouncedOfFilesPhase(cfg);
    AnnouncedOfPhases(BeforePhase(cfg), InstallPhase(cfg), AfterPhase(cfg), FilesPhase(cfg));
  }

  lemma HeadingsSnoc(t: seq<Event>, e: Event)
    ensures Headings(t + [e]) == Headings(t) + (if e.Say? && e.note.Heading? then [e.note.banner] else [])
  {
    assert (t + [e])[..|t|] == t;
  }

  lemma ActHeadings(a: Action, m: Mode, w: World)
    ensures Headings(Act(a, m, w).trace) == Headings(w.trace) + (if a.Announce? then [a.banner] else [])
  {
    match a
    case Announce(b) =>
      HeadingsSnoc(w.trace, Say(Heading(b)));
    case Command(cmd, cwd) =>
      var echo := Say(Running(m.dryRun, Preview(cmd, cwd)));
      HeadingsSnoc(w.trace, echo);
      if !m.dryRun {
        assert w.trace + [echo, Spawn(cmd, cwd)] == (w.trace + [echo]) + [Spawn(cmd, cwd)];
        HeadingsSnoc(w.trace + [echo], Spawn(cmd, cwd));
      }
    case Materialize(path, content) =>
      if m.dryRun {
        HeadingsSnoc(w.trace, Say(WouldCreate(path)));
      } else {
        HeadingsSnoc(w.trace, WriteFile(path, content));
        assert w.trace + [WriteFile(path, content), Say(Created(path))] == (w.trace + [WriteFile(path, content)]) + [Say(Created(path))];
        HeadingsSnoc(w.trace + [WriteFile(path, content)], Say(Created(path)));
      }
    case Abort(_) =>
  }

  /** A run that ends without an exception echoes every banner its actions announce, in order. */
  lemma {:induction false} HeadingsOfRun(acts: seq<Action>, m: Mode, w: World)
    requires Perform(acts, m, w).failure == None
    ensures Headings(Perform(acts, m, w).trace) == Headings(w.trace) + Announced(acts)
    decreases |acts|
  {
    if acts != [] {
      ActHeadings(acts[0], m, w);
      HeadingsOfRun(acts[1..], m, Act(acts[0], m, w));
    }
  }

  /**
   * A run that completes, dry or real, shows the outline of its
   * configuration and nothing else from the sequencer.
   */
  lemma CompletedRunFollowsOutline(cfg: Config, m: Mode)
    requires Setup(cfg, m).failure == None
    ensures Headings(Setup(cfg, m).trace) == Outline(cfg)
  {
    HeadingsOfRun(Plan(cfg), m, Initial);
    PlanFollowsOutline(cfg);
  }

  // ---------------------------------------------------------------------
  // Install commands

  /** An install entry that `install_software` passes through without expansion. */
  predicate Plain(pkg: Package) {
    pkg.Id? ==> !Contains(pkg.id, "{{")
  }

  /** Entries that are not strings containing `{{` are used unchanged, one per entry, in order. */
  lemma {:induction false} ResolvePlain(pkgs: seq<Package>, ps: Params)
    requires forall i :: 0 <= i < |pkgs| ==> Plain(pkgs[i])
    ensures ResolvePackages(pkgs, ps) == seq(|pkgs|, i requires 0 <= i < |pkgs| => PackageText(pkgs[i]))
    decreases |pkgs|
  {
    if pkgs != [] {
      var n := |pkgs| - 1;
      ResolvePlain(pkgs[..n], ps);
      assert Resolve(pkgs[n], ps) == [PackageText(pkgs[n])];
    }
  }

  /**
   * With a known driver, plain entries whose install command has no `$$`
   * give exactly one install command each, in order: the driver template
   * around the entry, with no working directory.
   */
  lemma InstallPlainPackages(pkgs: seq<Package>, driver: string, ps: Params)
    requires Lookup(driver).Some?
    requires forall i :: 0 <= i < |pkgs| ==>
      Plain(pkgs[i]) && Untouched(Tokenize(Format(TemplateOf(Lookup(driver).value), PackageText(pkgs[i]))), map[])
    ensures InstallActions(pkgs, driver, ps) ==
            seq(|pkgs|, i requires 0 <= i < |pkgs| => Command(Format(TemplateOf(Lookup(driver).value), PackageText(pkgs[i])), None))
  {
    var d := Lookup(driver).value;
    ResolvePlain(pkgs, ps);
    forall i | 0 <= i < |pkgs|
      ensures InstallAction(d, PackageText(pkgs[i])) == Command(Format(TemplateOf(d), PackageText(pkgs[i])), None)
    {
      InstallCommandWithoutEscape(d, PackageText(pkgs[i]));
    }
  }

  /** The install command for a package without `$` is the driver template around it, with no directory. */
  lemma InstallCommandOf(d: Driver, pkg: string)
    requires '$' !in pkg
    ensures InstallAction(d, pkg) == Command(Format(TemplateOf(d), pkg), None)
  {
    TemplatesHaveNoDollar(d);
    NoDollarIsVerbatim(Format(TemplateOf(d), pkg), map[]);
  }

  /**
   * The pass with empty parameters changes only `$$`: an install command
   * with no escaped `$` runs as formatted, with no directory.
   */
  lemma InstallCommandWithoutEscape(d: Driver, pkg: string)
    requires Untouched(Tokenize(Format(TemplateOf(d), pkg)), map[])
    ensures InstallAction(d, pkg) == Command(Format(TemplateOf(d), pkg), None)
  {
    SafeSubstituteIsLenient(Format(TemplateOf(d), pkg), map[]);
  }

  /** `replace` on an entry ending in a list marker: the text before it is kept and the marker becomes the quoted item. */
  lemma MarkerAtEndFilled(pre: string, key: string, item: string)
    requires '{' !in pre
    ensures ReplaceAll(pre + Marker(key), Marker(key), Quote(item)) == pre + Quote(item)
  {
    var m := Marker(key);
    ReplaceAllSkipsPrefix(pre, m, m, Quote(item));
    assert StartsWith(m, m) && m != [];
    assert m[|m|..] == [];
    assert ReplaceAll(m, m, Quote(item)) == Quote(item) + ReplaceAll([], m, Quote(item));
  }

  /** A list marker at the end of an entry is replaced by the quoted item, and the text before it is kept. */
  lemma MarkerAtEndReplaced(pre: string, key: string, item: string, env: map<string, string>)
    requires '{' !in pre && '$' !in pre && '$' !in item
    ensures SafeSubstitute(ReplaceAll(pre + Marker(key), Marker(key), Quote(item)), env) == pre + Quote(item)
  {
    MarkerAtEndFilled(pre, key, item);
    assert '$' !in pre + Quote(item);
    NoDollarIsVerbatim(pre + Quote(item), env);
  }

  /** An entry with a list marker at its end is expanded, not kept: it resolves to its expansion. */
  lemma MarkedEntryResolves(pre: string, key: string, ps: Params)
    requires '{' !in pre
    ensures Contains(pre + Marker(key), Marker(key))
    ensures ResolvePackages([Id(pre + Marker(key))], ps) == Expand(pre + Marker(key), ps)
  {
    var m := Marker(key);
    assert StartsWith(m, m) && StartsWith(m, "{{");
    ContainsAfter(pre, m, m);
    ContainsAfter(pre, m, "{{");
    assert [Id(pre + m)][..0] == [];
  }

  /** The variants of an entry ending in a list marker: the entry's text, then each quoted item. */
  lemma VariantsAtEnd(pre: string, key: string, items: seq<string>)
    requires '{' !in pre
    ensures Variants(pre + Marker(key), key, items) ==
            seq(|items|, j requires 0 <= j < |items| => pre + Quote(items[j]))
  {
    MarkedEntryResolves(pre, key, []);
    var vs := Variants(pre + Marker(key), key, items);
    forall j | 0 <= j < |items| ensures vs[j] == pre + Quote(items[j]) {
      MarkerAtEndFilled(pre, key, items[j]);
    }
  }

  /**
   * An install entry ending in the marker of list parameter `p` resolves to
   * one package per item, in list order, each the entry's text with the
   * quoted item in place of the marker.  The entry's text before the marker
   * has no `{` and no `$`, nor do the items; earlier lists' markers do not
   * occur in the entry and later lists' markers occur in none of its
   * variants.  Other parameters may be anything else.
   */
  lemma ResolveEntryWithMarker(pre: string, ps: Params, p: nat)
    requires p < |ps| && ps[p].1.List?
    requires '{' !in pre && '$' !in pre
    requires forall j :: 0 <= j < |ps[p].1.items| ==> '$' !in ps[p].1.items[j]
    requires forall q :: 0 <= q < p && ps[q].1.List? ==> !Contains(pre + Marker(ps[p].0), Marker(ps[q].0))
    requires forall q, j :: p < q < |ps| && ps[q].1.List? && 0 <= j < |ps[p].1.items| ==>
      !Contains(pre + Quote(ps[p].1.items[j]), Marker(ps[q].0))
    ensures ResolvePackages([Id(pre + Marker(ps[p].0))], ps) ==
            seq(|ps[p].1.items|, j requires 0 <= j < |ps[p].1.items| => pre + Quote(ps[p].1.items[j]))
  {
    var (key, items) := (ps[p].0, ps[p].1.items);
    var entry := pre + Marker(key);
    MarkedEntryResolves(pre, key, ps);
    VariantsAtEnd(pre, key, items);
    var vs := Variants(entry, key, items);
    forall q, c | p < q < |ps| && ps[q].1.List? && c in vs ensures !Contains(c, Marker(ps[q].0)) {
      var j :| 0 <= j < |vs| && vs[j] == c;
    }
    ExpandOneList(entry, ps, p);
    forall j | 0 <= j < |items| ensures Expand(entry, ps)[j] == pre + Quote(items[j]) {
      MarkerAtEndReplaced(pre, key, items[j], Mapping(ps));
    }
  }

  /** An entry ending in the marker of a two-item list resolves to the two quoted items after the entry's text. */
  lemma ResolveEntryWithTwoItems(pre: string, ps: Params, p: nat)
    requires p < |ps| && ps[p].1.List? && |ps[p].1.items| == 2
    requires '{' !in pre && '$' !in pre && '$' !in ps[p].1.items[0] && '$' !in ps[p].1.items[1]
    requires forall q :: 0 <= q < p && ps[q].1.List? ==> !Contains(pre + Marker(ps[p].0), Marker(ps[q].0))
    requires forall q, j :: p < q < |ps| && ps[q].1.List? && 0 <= j < 2 ==>
      !Contains(pre + Quote(ps[p].1.items[j]), Marker(ps[q].0))
    ensures ResolvePackages([Id(pre + Marker(ps[p].0))], ps) == [pre + Quote(ps[p].1.items[0]), pre + Quote(ps[p].1.items[1])]
  {
    var items := ps[p].1.items;
    ResolveEntryWithMarker(pre, ps, p);
    var r := seq(|items|, j requires 0 <= j < |items| => pre + Quote(items[j]));
    assert r == [pre + Quote(items[0]), pre + Quote(items[1])];
  }

  /** An unknown driver yields the error and no install command, whatever the entries. */
  lemma UnknownDriverInstallsNothing(pkgs: seq<Package>, driver: string, ps: Params)
    requires forall d: Driver :: DriverName(d) != driver
    ensures InstallActions(pkgs, driver, ps) == [Abort(UnknownDriver(driver))]
  {
  }

  // ---------------------------------------------------------------------
  // Command items

  /** No list parameter's marker occurs in `cmd`. */
  predicate Unmarked(cmd: string, ps: Params) {
    forall i :: 0 <= i < |ps| && ps[i].1.List? ==> !Contains(cmd, Marker(ps[i].0))
  }

  /**
   * An item whose command mentions no list marker runs exactly one command:
   * the command substituted twice, once by `expand_list_params` and once by
   * `run_cmd`, in the item's directory.
   */
  lemma ItemWithoutMarkers(item: CommandItem, ps: Params)
    requires Unmarked(CommandOf(item), ps)
    ensures ItemActions(item, ps) ==
            [Command(SafeSubstitute(SafeSubstitute(CommandOf(item), Mapping(ps)), Mapping(ps)), Directory(DirOf(item), Mapping(ps)))]
  {
    ExpandWithoutMarkers(CommandOf(item), ps);
  }

  /**
   * The leniency of substitution reaches the shell: an unmarked command whose
   * `$` forms are all unresolved (and which has no `$$`) runs exactly as
   * written rather than failing.
   */
  lemma UnresolvedCommandRunsVerbatim(item: CommandItem, ps: Params)
    requires Unmarked(CommandOf(item), ps)
    requires Untouched(Tokenize(CommandOf(item)), Mapping(ps))
    ensures ItemActions(item, ps) == [Command(CommandOf(item), Directory(DirOf(item), Mapping(ps)))]
  {
    ItemWithoutMarkers(item, ps);
    SafeSubstituteIsLenient(CommandOf(item), Mapping(ps));
  }

  /** An unmarked command without `$` runs exactly as written. */
  lemma DollarFreeCommandRunsVerbatim(item: CommandItem, ps: Params)
    requires Unmarked(CommandOf(item), ps)
    requires '$' !in CommandOf(item)
    ensures ItemActions(item, ps) == [Command(CommandOf(item), Directory(DirOf(item), Mapping(ps)))]
  {
    ItemWithoutMarkers(item, ps);
    NoDollarIsVerbatim(CommandOf(item), Mapping(ps));
  }

  /**
   * An item whose command mentions the marker of list parameter `p`, and
   * reaches no other list's marker at that list's turn, runs one command per
   * item of the list, in list order, all in the item's directory.
   */
  lemma ItemWithOneList(item: CommandItem, ps: Params, p: nat)
    requires p < |ps| && ps[p].1.List?
    requires forall q :: 0 <= q < p && ps[q].1.List? ==> !Contains(CommandOf(item), Marker(ps[q].0))
    requires forall q, c :: p < q < |ps| && ps[q].1.List? && c in Variants(CommandOf(item), ps[p].0, ps[p].1.items) ==>
      !Contains(c, Marker(ps[q].0))
    requires Contains(CommandOf(item), Marker(ps[p].0))
    ensures |ItemActions(item, ps)| == |ps[p].1.items|
    ensures forall j :: 0 <= j < |ps[p].1.items| ==>
      ItemActions(item, ps)[j] ==
        RunAction(SafeSubstitute(ReplaceAll(CommandOf(item), Marker(ps[p].0), Quote(ps[p].1.items[j])), Mapping(ps)), DirOf(item), Mapping(ps))
  {
    ExpandOneList(CommandOf(item), ps, p);
  }

  /** Processing items one after the other: the commands of a concatenation are the concatenated commands. */
  lemma {:induction false} CommandsActionsAppend(a: seq<CommandItem>, b: seq<CommandItem>, ps: Params)
    ensures CommandsActions(a + b, ps) == CommandsActions(a, ps) + CommandsActions(b, ps)
    decreases |a|
  {
    if a == [] {
      assert a + b == b;
    } else {
      assert (a + b)[0] == a[0];
      assert (a + b)[1..] == a[1..] + b;
      CommandsActionsAppend(a[1..], b, ps);
    }
  }

  /** `$$name` after `$`-free text is substituted to `$name` by one pass and to the name's value by a second. */
  lemma EscapedNameTwice(pre: string, name: string, env: map<string, string>)
    requires '$' !in pre && '$' !in name
    requires IdentLength(name) == |name| > 0 && name in env
    ensures SafeSubstitute(pre + ("$$" + name), env) == pre + ("$" + name)
    ensures SafeSubstitute(pre + ("$" + name), env) == pre + env[name]
  {
    TextPrefixIsKept(pre, "$$" + name, env);
    EscapeCollapses(name, env);
    NoDollarIsVerbatim(name, env);
    TextPrefixIsKept(pre, "$" + name, env);
    assert "$" + name + [] == "$" + name;
    NamedIsReplaced(name, [], env);
    NoDollarIsVerbatim([], env);
  }

  /**
   * Commands are substituted twice, file contents once: an escaped
   * `$$name` in a command that mentions no list marker reaches the shell as
   * the parameter's value, while the same text in a file is written as
   * `$name`.
   */
  lemma CommandsAreSubstitutedTwice(pre: string, name: string, path: string, ps: Params)
    requires '$' !in pre && '$' !in name && IdentLength(name) == |name| > 0
    requires name in Mapping(ps)
    requires Unmarked(pre + ("$$" + name), ps)
    ensures ItemActions(Line(pre + ("$$" + name)), ps) == [Command(pre + Mapping(ps)[name], None)]
    ensures FileActions([(path, pre + ("$$" + name))], ps) == [Materialize(path, pre + ("$" + name))]
  {
    EscapedNameTwice(pre, name, Mapping(ps));
    ItemWithoutMarkers(Line(pre + ("$$" + name)), ps);
  }
}
