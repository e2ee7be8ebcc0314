/** The descriptor shapes of types.ts. */
module Types {
  import opened Wrappers

  /** A callback held by a catalog entry (a postInstall hook or a tarball
      installer). Its body is not modelled; only which callback it is. */
  datatype Hook = Hook(id: string)

  /** HomebrewPackage (types.ts:46-56): a shell package or a cask. The
      installers read one optional `tap`, so that is what both variants hold. */
  datatype HomebrewPackage =
    | Shell(tap: Option<string>, package: string, shellMacOnly: bool)
    | Cask(tap: Option<string>, cask: string)
  {
    /** The `macOnly` field; a cask declares it with the literal type `true`. */
    function MacOnly(): (r: bool)
      ensures Cask? ==> r
      ensures Shell? ==> r == shellMacOnly
    {
      match this
      case Shell(_, _, macOnly) => macOnly
      case Cask(_, _) => true
    }
  }

  /** isCask (types.ts:58-60): the structural "has an own `cask` field" test
      is the variant tag here. */
  function IsCask(p: HomebrewPackage): (r: bool)
    ensures r <==> p.Cask?
    ensures r ==> p.MacOnly()
  {
    p.Cask?
  }

  /** The `remote` is read with a null test by the installer, so it is optional. */
  datatype FlatpakPackage = FlatpakPackage(remote: Option<string>, package: string)

  datatype EopkgThirdParty = EopkgThirdParty(specUrl: string, packageFilePattern: string)

  datatype SnapPackage = SnapPackage(package: string, classic: Option<bool>)

  datatype TarballPackage = TarballPackage(packageUrl: string, installer: Hook)

  /** AnySoftware (types.ts:44): every field of every descriptor shape, each
      optional except the name, plus the `platforms` list the orchestrator
      filters on. */
  datatype AnySoftware = AnySoftware(
    name: string,
    platforms: seq<string>,
    commandName: Option<string>,
    litmusFile: Option<string>,
    brewPackage: Option<HomebrewPackage>,
    macManualInstallCommand: Option<string>,
    snapPackage: Option<SnapPackage>,
    flatpakPackage: Option<FlatpakPackage>,
    eopkgThirdParty: Option<EopkgThirdParty>,
    dpkgThirdParty: Option<string>,
    tarballPackage: Option<TarballPackage>,
    linuxPackages: Option<seq<string>>,
    linuxManualInstallCommand: Option<string>,
    wslManualInstallCommand: Option<string>,
    postInstall: Option<Hook>)

  /** A descriptor with a name and nothing else set. */
  function Bare(name: string): (s: AnySoftware)
    ensures s.name == name && s.commandName.None? && s.litmusFile.None?
  {
    AnySoftware(name, [], None, None, None, None, None, None, None, None, None, None, None, None, None)
  }

  /** CommandSoftware (types.ts:1-15) requires a command name. */
  predicate IsCommandSoftware(s: AnySoftware) {
    s.commandName.Some?
  }

  /** PassiveSoftware (types.ts:16-30) requires a litmus file. */
  predicate IsPassiveSoftware(s: AnySoftware) {
    s.litmusFile.Some?
  }

  /** UiSoftware (types.ts:31-41) requires a command name and has no litmus
      file, no manual commands and no Linux package list; every field it has
      is a field of CommandSoftware, so it is one too. */
  predicate IsUiSoftware(s: AnySoftware): (r: bool)
    ensures r ==> IsCommandSoftware(s)
  {
    && s.commandName.Some?
    && s.litmusFile.None?
    && s.macManualInstallCommand.None?
    && s.linuxPackages.None?
    && s.linuxManualInstallCommand.None?
    && s.wslManualInstallCommand.None?
  }

  /** NonUiSoftware = CommandSoftware | PassiveSoftware (types.ts:42). */
  type NonUiSoftware = s: AnySoftware | IsCommandSoftware(s) || IsPassiveSoftware(s)
    witness Bare("").(commandName := Some(""))

  type UiSoftware = s: AnySoftware | IsUiSoftware(s)
    witness Bare("").(commandName := Some(""))

  /** Software = NonUiSoftware | UiSoftware (types.ts:43). */
  type Software = s: AnySoftware | IsCommandSoftware(s) || IsPassiveSoftware(s) || IsUiSoftware(s)
    witness Bare("").(commandName := Some(""))
}
