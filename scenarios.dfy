/**
 * Concrete runs taken from the bundled sample configurations
 * (dev_quick_init/samples.py), worked out through the general laws.  Each
 * lemma names its inputs as parameters fixed by its precondition.
 */
module Scenarios {
  import opened Wrappers
  import opened Strings
  import opened Template
  import opened Expansion
  import opened Drivers
  import opened Sequencer
  import opened Properties

  /** The parameter map of the `windows_full` sample, in its order, each value as `str()` renders it. */
  const WindowsFullParams: Params := [
    ("name", Scalar("Your Name")),
    ("email", Scalar("you@example.com")),
    ("ssh_key_path", Scalar("C:\\Users\\%USERNAME%\\.ssh\\id_rsa")),
    ("python_default", Scalar("3.12")),
    ("repos", List(["git@github.com:user/repo1.git", "git@github.com:user/repo2.git"],
                   "['git@github.com:user/repo1.git', 'git@github.com:user/repo2.git']")),
    ("repos_dir", Scalar("C:\\Projects")),
    ("dotnet_sdk", List(["8", "10"], "[8, 10]"))
  ]

  /** The sample's SDK package prefix has neither `{` nor `$`. */
  lemma SdkPrefixIsPlain(pre: string)
    requires pre == "Microsoft.DotNet.SDK."
    ensures '{' !in pre && '$' !in pre
  {
  }

  /** `{{dotnet_sdk}}` is the marker of the parameter `dotnet_sdk`. */
  lemma SdkMarker(key: string)
    requires key == "dotnet_sdk"
    ensures Marker(key) == "{{dotnet_sdk}}"
  {
  }

  /** Where the lists of the sample's parameter map are: `repos` fifth, `dotnet_sdk` last, the rest scalars. */
  lemma WindowsFullShape(ps: Params)
    requires ps == WindowsFullParams
    ensures |ps| == 7 && ps[4].0 == "repos" && ps[6] == ("dotnet_sdk", List(["8", "10"], "[8, 10]"))
    ensures forall q :: 0 <= q < 6 && q != 4 ==> ps[q].1.Scalar?
  {
  }

  /** The two SDK versions as they are written into the entry. */
  lemma SdkQuotes(a: string, b: string)
    requires a == "8" && b == "10"
    ensures Quote(a) == "\"8\"" && Quote(b) == "\"10\""
  {
  }

  /**
   * An entry ending in the marker of the last of seven parameters, a
   * two-item list, when the only other list is fifth and its key starts
   * with another character: the entry resolves to the two quoted items.
   */
  lemma LastListEntryResolves(ps: Params, pre: string)
    requires |ps| == 7 && ps[6].1.List? && |ps[6].1.items| == 2
    requires forall q :: 0 <= q < 6 && q != 4 ==> ps[q].1.Scalar?
    requires '{' !in pre && '$' !in pre && '$' !in ps[6].1.items[0] && '$' !in ps[6].1.items[1]
    requires '{' !in ps[6].0 && ps[6].0 != [] && ps[4].0 != [] && ps[6].0[0] != ps[4].0[0]
    ensures ResolvePackages([Id(pre + Marker(ps[6].0))], ps) == [pre + Quote(ps[6].1.items[0]), pre + Quote(ps[6].1.items[1])]
  {
    forall q | 0 <= q < 6 && ps[q].1.List? ensures !Contains(pre + Marker(ps[6].0), Marker(ps[q].0)) {
      assert q == 4;
      LoneMarkerOnly(pre, ps[6].0, [], ps[4].0);
      assert pre + Marker(ps[6].0) + [] == pre + Marker(ps[6].0);
    }
    ResolveEntryWithTwoItems(pre, ps, 6);
  }

  /**
   * `Microsoft.DotNet.SDK.{{dotnet_sdk}}` under the sample's whole parameter
   * map resolves to two packages, in list order: the other list, `repos`,
   * is skipped because the entry never mentions `{{repos}}`, and the
   * scalars have no `$name` to fill.
   */
  lemma DotnetSdkResolved(ps: Params, pre: string)
    requires pre == "Microsoft.DotNet.SDK."
    requires ps == WindowsFullParams
    ensures ResolvePackages([Id(pre + "{{dotnet_sdk}}")], ps) == [pre + "\"8\"", pre + "\"10\""]
  {
    WindowsFullShape(ps);
    SdkPrefixIsPlain(pre);
    SdkMarker(ps[6].0);
    LastListEntryResolves(ps, pre);
    SdkQuotes(ps[6].1.items[0], ps[6].1.items[1]);
  }

  /** The install phase for the SDK entry with winget, once the entry is known to resolve to the two versions. */
  lemma SdkInstallWith(cfg: Config, pre: string)
    requires pre == "Microsoft.DotNet.SDK."
    requires cfg.driver == Some("winget") && cfg.install == [Id(pre + "{{dotnet_sdk}}")]
    requires ResolvePackages(cfg.install, cfg.params) == [pre + "\"8\"", pre + "\"10\""]
    ensures InstallPhase(cfg) ==
      [Announce(PhaseStart(Installing)),
       Command(Format(TemplateOf(Winget), pre + "\"8\""), None),
       Command(Format(TemplateOf(Winget), pre + "\"10\""), None)]
  {
    SdkPrefixIsPlain(pre);
    var p8, p10 := pre + "\"8\"", pre + "\"10\"";
    assert '$' !in p8 && '$' !in p10;
    InstallCommandOf(Winget, p8);
    InstallCommandOf(Winget, p10);
    assert DriverOf(cfg) == "winget";
    assert InstallActions(cfg.install, DriverOf(cfg), cfg.params) == [InstallAction(Winget, p8), InstallAction(Winget, p10)];
  }

  /**
   * The install phase of that sample reduced to its SDK entry: the driver
   * winget installs exactly two packages, one per SDK version, each item
   * keeping its quotes inside the winget command.
   */
  lemma DotnetSdkInstall(cfg: Config, pre: string)
    requires pre == "Microsoft.DotNet.SDK."
    requires cfg == Config(Some("winget"), WindowsFullParams, [], [Id(pre + "{{dotnet_sdk}}")], [], [])
    ensures InstallPhase(cfg) ==
      [Announce(PhaseStart(Installing)),
       Command(Format(TemplateOf(Winget), pre + "\"8\""), None),
       Command(Format(TemplateOf(Winget), pre + "\"10\""), None)]
  {
    DotnetSdkResolved(cfg.params, pre);
    SdkInstallWith(cfg, pre);
  }

  /**
   * A command laid out as text, one marker, text, with no other `{`: under a
   * map shaped like the sample's it mentions neither list's marker when its
   * key starts differently from both.
   */
  lemma LoneMarkerUnmarked(ps: Params, pre: string, k: string, post: string)
    requires |ps| == 7 && ps[6].1.List? && ps[4].0 != [] && ps[6].0 != []
    requires forall q :: 0 <= q < 6 && q != 4 ==> ps[q].1.Scalar?
    requires '{' !in pre && '{' !in k && '{' !in post && k != []
    requires k[0] != ps[4].0[0] && k[0] != ps[6].0[0]
    ensures Unmarked(pre + Marker(k) + post, ps)
  {
    LoneMarkerOnly(pre, k, post, ps[4].0);
    LoneMarkerOnly(pre, k, post, ps[6].0);
    forall q | 0 <= q < |ps| && ps[q].1.List? ensures !Contains(pre + Marker(k) + post, Marker(ps[q].0)) {
      assert q == 4 || q == 6;
    }
  }

  /** The sample's `git config` line, taken apart around its one marker. */
  lemma GitNameLine(cmd: string, a: string, b: string)
    requires cmd == "git config --global user.name \"{{name}}\""
    requires a == "git config --global user.name \"" && b == "\""
    ensures cmd == a + Marker("name") + b
    ensures '{' !in a && '{' !in b && '$' !in cmd
  {
    assert '$' !in a && '$' !in b && '$' !in Marker("name");
  }

  /**
   * The sample's `git` section writes the scalar parameter `name` as
   * `{{name}}`; under the sample's whole parameter map only list parameters
   * have their `{{key}}` replaced and `{{name}}` is not `$name`, so the
   * command runs with the braces as written.
   */
  lemma ScalarMarkerIsKept(cmd: string, ps: Params)
    requires cmd == "git config --global user.name \"{{name}}\""
    requires ps == WindowsFullParams
    ensures ItemActions(Line(cmd), ps) == [Command(cmd, None)]
  {
    WindowsFullShape(ps);
    var a, b := "git config --global user.name \"", "\"";
    GitNameLine(cmd, a, b);
    LoneMarkerUnmarked(ps, a, "name", b);
    DollarFreeCommandRunsVerbatim(Line(cmd), ps);
  }
}
