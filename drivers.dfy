/**
 * The fixed package-driver table (`PACKAGE_DRIVERS`).  Each template holds
 * exactly one `{pkg}` replacement field and no other brace, so
 * `template.format(pkg=p)` is the text before the field, then `p`, then the
 * text after it; the table stores each template split at its field.
 */
module Drivers {
  import opened Wrappers

  datatype Driver = Winget | Scoop | Chocolatey | Brew | Apt | Pacman | Dnf

  /** A driver template `prefix{pkg}suffix`. */
  datatype InstallTemplate = InstallTemplate(prefix: string, suffix: string)

  function DriverName(d: Driver): string {
    match d
    case Winget => "winget"
    case Scoop => "scoop"
    case Chocolatey => "chocolatey"
    case Brew => "brew"
    case Apt => "apt"
    case Pacman => "pacman"
    case Dnf => "dnf"
  }

  /** `PACKAGE_DRIVERS.get(name)`: the driver a configuration names, if the table has it. */
  function Lookup(name: string): (r: Option<Driver>)
    ensures r.Some? ==> DriverName(r.value) == name
    ensures r.None? ==> forall d: Driver :: DriverName(d) != name
  {
    if name == "winget" then Some(Winget)
    else if name == "scoop" then Some(Scoop)
    else if name == "chocolatey" then Some(Chocolatey)
    else if name == "brew" then Some(Brew)
    else if name == "apt" then Some(Apt)
    else if name == "pacman" then Some(Pacman)
    else if name == "dnf" then Some(Dnf)
    else None
  }

  function TemplateOf(d: Driver): InstallTemplate {
    match d
    case Winget => InstallTemplate("winget install --id \"", "\" --silent" + " --accept-source-agreements" + " --accept-package-agreements")
    case Scoop => InstallTemplate("scoop install ", "")
    case Chocolatey => InstallTemplate("choco install ", " -y")
    case Brew => InstallTemplate("brew install ", "")
    case Apt => InstallTemplate("sudo apt-get install -y ", "")
    case Pacman => InstallTemplate("sudo pacman -S --noconfirm ", "")
    case Dnf => InstallTemplate("sudo dnf install -y ", "")
  }

  /** `template.format(pkg=p)`. */
  function Format(t: InstallTemplate, pkg: string): string {
    t.prefix + pkg + t.suffix
  }

  /** Every driver is found under its own name, so the names are distinct. */
  lemma LookupName(d: Driver)
    ensures Lookup(DriverName(d)) == Some(d)
  {
  }

  /** The package can be read back from the install command: formatting is injective. */
  lemma FormatInjective(t: InstallTemplate, p1: string, p2: string)
    requires Format(t, p1) == Format(t, p2)
    ensures p1 == p2
  {
    var c := Format(t, p1);
    assert p1 == c[|t.prefix|..|c| - |t.suffix|];
    assert p2 == Format(t, p2)[|t.prefix|..|c| - |t.suffix|];
  }

  /** The winget template, the longest, holds no `$`: its prefix, then its suffix piece by piece. */
  lemma WingetTemplateHasNoDollar()
    ensures '$' !in TemplateOf(Winget).prefix && '$' !in TemplateOf(Winget).suffix
  {
    var a, b, c := "\" --silent", " --accept-source-agreements", " --accept-package-agreements";
    assert TemplateOf(Winget).suffix == a + b + c;
    assert '$' !in TemplateOf(Winget).prefix;
    NoDollarInSuffix(a, b, c);
  }

  lemma NoDollarInSuffix(a: string, b: string, c: string)
    requires a == "\" --silent" && b == " --accept-source-agreements" && c == " --accept-package-agreements"
    ensures '$' !in a + b + c
  {
    assert '$' !in a && '$' !in b && '$' !in c;
  }

  /** No driver template contains `$`, so the `safe_substitute` pass on an install command can only touch the package. */
  lemma TemplatesHaveNoDollar(d: Driver)
    ensures '$' !in TemplateOf(d).prefix && '$' !in TemplateOf(d).suffix
  {
    match d
    case Winget => WingetTemplateHasNoDollar();
    case Scoop => assert '$' !in "scoop install ";
    case Chocolatey => assert '$' !in "choco install " && '$' !in " -y";
    case Brew => assert '$' !in "brew install ";
    case Apt => assert '$' !in "sudo apt-get install -y ";
    case Pacman => assert '$' !in "sudo pacman -S --noconfirm ";
    case Dnf => assert '$' !in "sudo dnf install -y ";
  }
}
