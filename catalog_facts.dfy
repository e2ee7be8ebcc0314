/** What the static catalog of software.ts guarantees, and how the two
    installers treat its entries on concrete hosts. */
module CatalogFacts {
  import opened Wrappers
  import opened Types
  import opened Runner
  import opened Environment
  import opened Inventory
  import opened Installers

  /** Every catalog entry configures exactly one of the two checks. */
  lemma CatalogChecksAreExclusive()
    ensures forall i :: 0 <= i < |NonUiCatalog| ==>
              NonUiCatalog[i].commandName.Some? != NonUiCatalog[i].litmusFile.Some?
    ensures forall i :: 0 <= i < |UiCatalog| ==>
              UiCatalog[i].commandName.Some? && UiCatalog[i].litmusFile.None?
  {
  }

  /** isInstalled never reaches its "Not sure how to check" branch for a
      catalog entry, and an entry with a command name never throws at all. */
  lemma CatalogIsAlwaysProbeable(commandExists: string -> bool, lstat: string -> LstatResult)
    ensures forall sw :: sw in NonUiCatalog + UiCatalog ==>
              var r := IsInstalled(Entry(sw), commandExists, lstat);
              (r.Ok? || r.error.LstatFailed?) && (sw.commandName.Some? ==> r.Ok?)
  {
    forall sw | sw in NonUiCatalog + UiCatalog
      ensures var r := IsInstalled(Entry(sw), commandExists, lstat);
              (r.Ok? || r.error.LstatFailed?) && (sw.commandName.Some? ==> r.Ok?)
    {
      TypedSoftwareIsDecidable(sw, commandExists, lstat);
    }
  }

  /** Every brew package of the catalog is macOnly (all casks, and Zsh's
      formula), so the Linux brew branch (installers.ts:40) never applies to
      a catalog entry. */
  lemma CatalogBrewIsMacOnly()
    ensures forall i :: 0 <= i < |NonUiCatalog| && NonUiCatalog[i].brewPackage.Some? ==>
              NonUiCatalog[i].brewPackage.value.MacOnly()
    ensures forall i :: 0 <= i < |UiCatalog| ==> UiCatalog[i].brewPackage.Some? && UiCatalog[i].brewPackage.value.Cask?
  {
  }

  // ---------------------------------------------------------------------------
  // Concrete entries on concrete hosts

  /** Zsh on Linux with apt: its brew formula is macOnly, so apt installs it. */
  lemma ZshOnLinuxWithApt(env: Env)
    requires env.pm == Some("apt")
    ensures InstallLinux(ZshEntry, env) == Ok([Run(["sudo", "apt", "install", "zsh"])])
  {
    assert ["sudo", "apt", "install"] + ["zsh"] == ["sudo", "apt", "install", "zsh"];
  }

  /** Zsh on macOS: `brew install zsh`, with no tap. */
  lemma ZshOnMac()
    ensures InstallMac(ZshEntry) == Ok([Run(["brew", "install", "zsh"])])
  {
    assert ["brew", "install"] + ["zsh"] == ["brew", "install", "zsh"];
    assert [] + [Run(["brew", "install", "zsh"])] == [Run(["brew", "install", "zsh"])];
  }

  /** Zsh on Linux without a detected package manager has no method. */
  lemma ZshOnLinuxWithoutManager(env: Env)
    requires env.pm.None?
    ensures InstallLinux(ZshEntry, env) == Err(NoLinuxMethod("Zsh"))
  {
  }

  /** Oh My Zsh on macOS: its command through `sh -c`, then its postInstall is started. */
  lemma OhMyZshOnMac(env: Env)
    requires env.isMac
    ensures Plan(OhMyZshEntry, env)
            == Ok([Eval(OhMyZshInstall), StartPostInstall(Hook("Oh My Zsh postInstall"))])
  {
    assert [Eval(OhMyZshInstall)] + [StartPostInstall(Hook("Oh My Zsh postInstall"))]
        == [Eval(OhMyZshInstall), StartPostInstall(Hook("Oh My Zsh postInstall"))];
  }

  /** Nix under WSL runs the WSL command; on plain Linux the daemon install. */
  lemma NixOnLinux(env: Env)
    ensures env.isWsl ==>
              InstallLinux(NixEntry, env)
              == Ok([Run(["eval", "sh <(curl -L https://nixos.org/nix/install) --no-daemon"])])
    ensures !env.isWsl ==>
              InstallLinux(NixEntry, env)
              == Ok([Run(["eval", "sh <(curl -L https://nixos.org/nix/install) --daemon"])])
  {
  }

  /** Chrome on Linux with eopkg: build, install, then remove the package file. */
  lemma ChromeWithEopkg(env: Env)
    requires env.tpm == Some("eopkg")
    ensures InstallLinux(ChromeEntry, env) == Ok([
              Run(["sudo", "eopkg", "bi", "--ignore-safety", ChromeSpecUrl]),
              Run(["sudo", "eopkg", "it", "google-chrome-*.eopkg"]),
              Run(["sudo", "rm", "google-chrome-*.eopkg"])])
  {
  }

  /** Chrome on Linux with neither third-party manager has no method. */
  lemma ChromeWithoutThirdPartyManager(env: Env)
    requires env.tpm.None?
    ensures InstallLinux(ChromeEntry, env) == Err(NoLinuxMethod("Chrome"))
  {
  }

  /** Visual Studio Code is a classic snap; Zoom is not. */
  lemma SnapsOnLinux(env: Env)
    ensures InstallLinux(VsCodeEntry, env) == Ok([Run(["sudo", "snap", "install", "code", "--classic"])])
    ensures InstallLinux(ZoomEntry, env) == Ok([Run(["sudo", "snap", "install", "zoom-client"])])
  {
    assert ["sudo", "snap", "install"] + ["code"] + ["--classic"] == ["sudo", "snap", "install", "code", "--classic"];
    assert ["sudo", "snap", "install"] + ["zoom-client"] + [] == ["sudo", "snap", "install", "zoom-client"];
  }

  /** GitHub Desktop comes from flathub. */
  lemma GitHubDesktopOnLinux(env: Env)
    ensures InstallLinux(GitHubDesktopEntry, env)
            == Ok([Run(["sudo", "flatpak", "install", "flathub", "io.github.shiftey.Desktop"])])
  {
    assert ["sudo", "flatpak", "install"] + ["flathub"] + ["io.github.shiftey.Desktop"]
        == ["sudo", "flatpak", "install", "flathub", "io.github.shiftey.Desktop"];
  }

  /** On macOS every UI entry is a cask. */
  lemma UiOnMacIsCask()
    ensures forall i :: 0 <= i < |UiCatalog| ==>
              InstallMac(UiCatalog[i]) == Ok([Run(["brew", "install", "--cask", UiCatalog[i].brewPackage.value.cask])])
  {
    forall i | 0 <= i < |UiCatalog|
      ensures InstallMac(UiCatalog[i]) == Ok([Run(["brew", "install", "--cask", UiCatalog[i].brewPackage.value.cask])])
    {
      var cask := UiCatalog[i].brewPackage.value.cask;
      assert UiCatalog[i].brewPackage == Some(Cask(None, cask));
      assert ["brew", "install"] + ["--cask", cask] == ["brew", "install", "--cask", cask];
      assert [] + [Run(["brew", "install", "--cask", cask])] == [Run(["brew", "install", "--cask", cask])];
    }
  }
}
