/** software.ts: the installed-state decision (isInstalled) and the static catalog. */
module Inventory {
  import opened Wrappers
  import opened Types
  import opened Runner

  /** What isInstalled is asked about: a bare command name, or a descriptor. */
  datatype Target = Named(command: string) | Entry(software: AnySoftware)

  /** What Deno.lstat does for a path: finds it, throws NotFound, or throws something else. */
  datatype LstatResult = Exists | NotFound | OtherError(error: string)

  /** software.ts:105: a string stands for a descriptor named after it whose
      command name is that string. */
  function Ware(t: Target): (w: AnySoftware)
    ensures t.Named? ==> w.name == t.command && w.commandName == Some(t.command) && w.litmusFile.None?
    ensures t.Entry? ==> w == t.software
  {
    match t
    case Named(command) => Bare(command).(commandName := Some(command))
    case Entry(software) => software
  }

  /** isInstalled (software.ts:104-123). `commandExists(c)` is whether
      `command -v c` succeeds; `lstat(p)` is what Deno.lstat does for p.
      The first configured check alone decides. */
  function IsInstalled(t: Target, commandExists: string -> bool, lstat: string -> LstatResult): (r: Result<bool, Failure>)
    ensures Ware(t).commandName.Some? ==> r == Ok(commandExists(Ware(t).commandName.value))
    ensures Ware(t).commandName.None? && Ware(t).litmusFile.Some? ==>
              var path := Ware(t).litmusFile.value;
              match lstat(path)
              case Exists => r == Ok(true)
              case NotFound => r == Ok(false)
              case OtherError(e) => r == Err(LstatFailed(path, e))
    ensures r.Err? && r.error.NotSureHowToCheck? <==> Ware(t).commandName.None? && Ware(t).litmusFile.None?
  {
    var ware := Ware(t);
    if ware.commandName.Some? then
      Ok(commandExists(ware.commandName.value))
    else if ware.litmusFile.Some? then
      match lstat(ware.litmusFile.value)
      case Exists => Ok(true)
      case NotFound => Ok(false)
      case OtherError(e) => Err(LstatFailed(ware.litmusFile.value, e))
    else
      Err(NotSureHowToCheck(ware.name))
  }

  /** A string argument is probed as that command, and never throws. */
  lemma NamedProbesCommand(command: string, commandExists: string -> bool, lstat: string -> LstatResult)
    ensures IsInstalled(Named(command), commandExists, lstat) == Ok(commandExists(command))
  {
  }

  /** With a command name, the litmus file is never consulted: no lstat
      behaviour can change the answer. */
  lemma CommandNameDecidesAlone(s: AnySoftware, commandExists: string -> bool, lstat: string -> LstatResult, lstat': string -> LstatResult)
    requires s.commandName.Some?
    ensures IsInstalled(Entry(s), commandExists, lstat) == IsInstalled(Entry(s), commandExists, lstat')
    ensures IsInstalled(Entry(s), commandExists, lstat) == Ok(commandExists(s.commandName.value))
  {
  }

  /** The checks are not OR-ed together: a descriptor with both checks whose
      litmus file exists is still "not installed" when its command is absent. */
  lemma ChecksAreNotCombined()
    ensures var s := Bare("x").(commandName := Some("x"), litmusFile := Some("/x"));
            IsInstalled(Entry(s), _ => false, _ => Exists) == Ok(false)
  {
  }

  /** Every descriptor of a declared shape has a check, so isInstalled never
      reaches its "Not sure how to check" branch for it. */
  lemma TypedSoftwareIsDecidable(s: Software, commandExists: string -> bool, lstat: string -> LstatResult)
    ensures IsInstalled(Entry(s), commandExists, lstat).Ok?
            || IsInstalled(Entry(s), commandExists, lstat).error.LstatFailed?
  {
  }

  const OhMyZshInstall := "sh -c \"$(curl -fsSL https://raw.github.com/ohmyzsh/ohmyzsh/master/tools/install.sh)\""

  /** Zsh (software.ts:6-11): a macOnly brew formula and an apt/eopkg package. */
  const ZshEntry: NonUiSoftware :=
    Bare("Zsh").(
      commandName := Some("zsh"),
      brewPackage := Some(Shell(None, "zsh", true)),
      linuxPackages := Some(["zsh"]))

  /** Oh My Zsh (software.ts:12-29): checked by its litmus file; its postInstall hook is opaque here. */
  const OhMyZshEntry: NonUiSoftware :=
    Bare("Oh My Zsh").(
      litmusFile := Some("~/.oh-my-zsh"),
      macManualInstallCommand := Some(OhMyZshInstall),
      linuxManualInstallCommand := Some(OhMyZshInstall),
      postInstall := Some(Hook("Oh My Zsh postInstall")))

  /** Snap (software.ts:30-34). */
  const SnapEntry: NonUiSoftware :=
    Bare("Snap").(
      commandName := Some("snap"),
      linuxPackages := Some(["snapd"]))

  /** Flatpak (software.ts:35-45); its postInstall hook is opaque here. */
  const FlatpakEntry: NonUiSoftware :=
    Bare("Flatpak").(
      commandName := Some("flatpak"),
      linuxPackages := Some(["flatpak"]),
      postInstall := Some(Hook("Flatpak postInstall")))

  /** Nix (software.ts:46-52): manual commands only. */
  const NixEntry: NonUiSoftware :=
    Bare("Nix").(
      commandName := Some("nix-shell"),
      macManualInstallCommand := Some("sh <(curl -L https://nixos.org/nix/install)"),
      linuxManualInstallCommand := Some("sh <(curl -L https://nixos.org/nix/install) --daemon"),
      wslManualInstallCommand := Some("sh <(curl -L https://nixos.org/nix/install) --no-daemon"))

  /** nonUiSoftware (software.ts:5-53), in its order. The entries declare no platforms. */
  const NonUiCatalog: seq<NonUiSoftware> := [ZshEntry, OhMyZshEntry, SnapEntry, FlatpakEntry, NixEntry]

  const ChromeDebUrl := "https://dl.google.com/linux/direct/google-chrome-stable_current_amd64.deb"
  const ChromeSpecUrl :=
    "https://raw.githubusercontent.com/getsolus/3rd-party/master/network/web/browser/google-chrome-stable/pspec.xml"

  /** Chrome (software.ts:56-65): a cask, a .deb URL and an eopkg build spec. */
  const ChromeEntry: UiSoftware :=
    Bare("Chrome").(
      commandName := Some("google-chrome"),
      brewPackage := Some(Cask(None, "google-chrome")),
      dpkgThirdParty := Some(ChromeDebUrl),
      eopkgThirdParty := Some(EopkgThirdParty(ChromeSpecUrl, "google-chrome-*.eopkg")))

  /** Visual Studio Code (software.ts:66-71): a classic snap. */
  const VsCodeEntry: UiSoftware :=
    Bare("Visual Studio Code").(
      commandName := Some("code"),
      brewPackage := Some(Cask(None, "visual-studio-code")),
      snapPackage := Some(SnapPackage("code", Some(true))))

  /** Zoom (software.ts:72-77). */
  const ZoomEntry: UiSoftware :=
    Bare("Zoom").(
      commandName := Some("zoom"),
      brewPackage := Some(Cask(None, "zoom")),
      snapPackage := Some(SnapPackage("zoom-client", None)))

  /** Slack (software.ts:78-83): a classic snap. */
  const SlackEntry: UiSoftware :=
    Bare("Slack").(
      commandName := Some("slack"),
      brewPackage := Some(Cask(None, "slack")),
      snapPackage := Some(SnapPackage("slack", Some(true))))

  /** Discord (software.ts:84-89). */
  const DiscordEntry: UiSoftware :=
    Bare("Discord").(
      commandName := Some("discord"),
      brewPackage := Some(Cask(None, "discord")),
      snapPackage := Some(SnapPackage("discord", None)))

  /** Insomnia (software.ts:90-95). */
  const InsomniaEntry: UiSoftware :=
    Bare("Insomnia").(
      commandName := Some("insomnia"),
      brewPackage := Some(Cask(None, "insomnia")),
      snapPackage := Some(SnapPackage("insomnia", None)))

  /** GitHub Desktop (software.ts:96-101). Its command name is "insomnia", as written there. */
  const GitHubDesktopEntry: UiSoftware :=
    Bare("GitHub Desktop").(
      commandName := Some("insomnia"),
      brewPackage := Some(Cask(None, "github")),
      flatpakPackage := Some(FlatpakPackage(Some("flathub"), "io.github.shiftey.Desktop")))

  /** uiSoftware (software.ts:55-102), in its order. */
  const UiCatalog: seq<UiSoftware> := [ChromeEntry, VsCodeEntry, ZoomEntry, SlackEntry, DiscordEntry, InsomniaEntry, GitHubDesktopEntry]
}
