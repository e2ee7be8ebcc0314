/** installers.ts: which installation method a descriptor gets on this host,
    the commands that method runs, and what running them in order means. */
module Installers {
  import opened Wrappers
  import opened Types
  import opened Runner
  import opened Environment
  import opened Paths

  /** The installation methods the two cascades choose among. The download
      based ones carry the paths downloadFile and extractTarball compute. */
  datatype Method =
    | Brew(brew: HomebrewPackage)
    | MacManual(command: string)
    | Snap(snap: SnapPackage)
    | Flatpak(flatpak: FlatpakPackage)
    | DpkgThirdParty(url: string, downloadDir: string, localFile: string)
    | EopkgThirdPartyBuild(eopkg: EopkgThirdParty)
    | LinuxPackages(manager: string, packages: seq<string>)
    | Tarball(tarball: TarballPackage, downloadDir: string, localFile: string, extractDir: string)
    | WslManual(command: string)
    | LinuxManual(command: string)

  // ---------------------------------------------------------------------------
  // Argument vectors and file paths

  /** `brew install` for a package or, with `--cask`, for a cask (installers.ts:25-30). */
  function BrewInstallArgv(p: HomebrewPackage): (argv: seq<string>)
    ensures |argv| >= 3 && argv[..2] == ["brew", "install"]
    ensures p.Cask? <==> |argv| == 4
    ensures p.Cask? ==> argv[2] == "--cask" && argv[3] == p.cask
    ensures p.Shell? ==> |argv| == 3 && argv[2] == p.package
  {
    ["brew", "install"] + (if IsCask(p) then ["--cask", p.cask] else [p.package])
  }

  /** The optional `brew tap` that precedes the install (installers.ts:22-24, 41-43). */
  function TapSteps(p: HomebrewPackage): seq<Step> {
    if p.tap.Some? then [Run(["brew", "tap", p.tap.value])] else []
  }

  /** installers.ts:46-50: `--classic` is appended exactly when `classic` is true. */
  function SnapArgv(s: SnapPackage): (argv: seq<string>)
    ensures |argv| >= 4 && argv[..4] == ["sudo", "snap", "install", s.package]
    ensures |argv| == 5 <==> s.classic == Some(true)
    ensures |argv| == 5 ==> argv[4] == "--classic"
    ensures s.classic != Some(true) ==> |argv| == 4
  {
    ["sudo", "snap", "install"] + [s.package] + (if s.classic == Some(true) then ["--classic"] else [])
  }

  /** installers.ts:52-56: the remote, when set, sits between `install` and the package. */
  function FlatpakArgv(f: FlatpakPackage): (argv: seq<string>)
    ensures |argv| >= 4 && argv[..3] == ["sudo", "flatpak", "install"] && argv[|argv| - 1] == f.package
    ensures |argv| == 5 <==> f.remote.Some?
    ensures f.remote.Some? ==> argv[3] == f.remote.value
    ensures f.remote.None? ==> |argv| == 4
  {
    ["sudo", "flatpak", "install"] + (if f.remote.Some? then [f.remote.value] else []) + [f.package]
  }

  /** The download directory (installers.ts:81): Downloads under the home
      directory, or relative to the working directory without one. */
  function DownloadDir(homeDir: string): (d: string)
    ensures homeDir != [] ==> d == homeDir + "/Downloads"
    ensures homeDir == [] ==> d == "Downloads"
  {
    Join(homeDir, "Downloads")
  }

  /** The path downloadFile passes to wget's `-o` and returns (installers.ts:80-82). */
  function LocalFilePath(url: string, homeDir: string): (path: string)
    ensures homeDir != [] && Basename(url) != [] ==> path == homeDir + "/Downloads/" + Basename(url)
    ensures homeDir == [] && Basename(url) != [] ==> path == "Downloads/" + Basename(url)
  {
    Join(DownloadDir(homeDir), Basename(url))
  }

  /** The path passed to wget's `-o` keeps the name the URL ends in. */
  lemma DownloadKeepsFileName(url: string, homeDir: string)
    requires Basename(url) != []
    ensures Basename(LocalFilePath(url, homeDir)) == Basename(url)
  {
    BasenameHasNoSlash(url);
    JoinKeepsLastSegment(DownloadDir(homeDir), Basename(url));
  }

  /** downloadFile (installers.ts:79-86), once its paths are known. */
  function DownloadSteps(url: string, downloadDir: string, localFile: string): seq<Step> {
    [EnsureDir(downloadDir), Run(["wget", url, "-o", localFile])]
  }

  /** The directory extractTarball extracts into: the file path less its
      extension (installers.ts:89-90). */
  function ExtractDir(filePath: string): string {
    filePath[..|filePath| - |Extname(filePath)|]
  }

  /** The extraction directory is a prefix of the archive's path, and the
      path is that directory followed by the extension. */
  lemma ExtractDirStripsExtension(filePath: string)
    ensures ExtractDir(filePath) <= filePath
    ensures |ExtractDir(filePath)| == |filePath| - |Extname(filePath)|
    ensures filePath == [] || filePath[|filePath| - 1] != '/' ==> ExtractDir(filePath) + Extname(filePath) == filePath
  {
    var e := Extname(filePath);
    var n := |filePath| - |e|;
    if filePath == [] || filePath[|filePath| - 1] != '/' {
      assert TrimTrailingSlashes(filePath) == filePath;
      assert e == filePath[n..];
      assert filePath[..n] + filePath[n..] == filePath;
    }
  }

  /** extractTarball (installers.ts:88-94), once its directory is known. */
  function ExtractSteps(filePath: string, extractDir: string): seq<Step> {
    [EnsureDir(extractDir), Run(["tar", "zxf", filePath, "--directory=" + extractDir])]
  }

  /** The dpkg third-party method for a URL: the local path is the one passed to wget's `-o`
      under the home directory's Downloads. */
  function DpkgMethod(url: string, homeDir: string): Method {
    DpkgThirdParty(url, DownloadDir(homeDir), LocalFilePath(url, homeDir))
  }

  /** The tarball method: the local path is the one passed to wget's `-o` under
      the home directory's Downloads, and tar extracts that path next to itself. */
  function TarballMethod(t: TarballPackage, homeDir: string): Method {
    var localFile := LocalFilePath(t.packageUrl, homeDir);
    Tarball(t, DownloadDir(homeDir), localFile, ExtractDir(localFile))
  }

  /** The commands a chosen method runs, in order. */
  function MethodSteps(m: Method): (steps: seq<Step>)
    ensures |steps| > 0
    ensures forall i :: 0 <= i < |steps| ==> Awaited(steps[i])
  {
    match m
    case Brew(p) => TapSteps(p) + [Run(BrewInstallArgv(p))]
    case MacManual(command) => [Eval(command)]
    case Snap(s) => [Run(SnapArgv(s))]
    case Flatpak(f) => [Run(FlatpakArgv(f))]
    case DpkgThirdParty(url, downloadDir, localFile) =>
      DownloadSteps(url, downloadDir, localFile) + [Run(["sudo", "dpkg", "-i", localFile])]
    case EopkgThirdPartyBuild(e) =>
      [ Run(["sudo", "eopkg", "bi", "--ignore-safety", e.specUrl]),
        Run(["sudo", "eopkg", "it", e.packageFilePattern]),
        Run(["sudo", "rm", e.packageFilePattern]) ]
    case LinuxPackages(manager, packages) => [Run(["sudo", manager, "install"] + packages)]
    case Tarball(t, downloadDir, localFile, extractDir) =>
      DownloadSteps(t.packageUrl, downloadDir, localFile) + ExtractSteps(localFile, extractDir)
      + [CallInstaller(t.installer, extractDir)]
    case WslManual(command) => [Run(["eval", command])]
    case LinuxManual(command) => [Run(["eval", command])]
  }


  // ---------------------------------------------------------------------------
  // Choosing a method

  /** The cascade of installMac (installers.ts:21-36). */
  function SelectMacMethod(sw: AnySoftware): Option<Method> {
    if sw.brewPackage.Some? then Some(Brew(sw.brewPackage.value))
    else if sw.macManualInstallCommand.Some? then Some(MacManual(sw.macManualInstallCommand.value))
    else None
  }

  /** Every macOS method the descriptor configures, highest priority first. */
  function MacCandidates(sw: AnySoftware): seq<Method> {
    (if sw.brewPackage.Some? then [Brew(sw.brewPackage.value)] else [])
    + (if sw.macManualInstallCommand.Some? then [MacManual(sw.macManualInstallCommand.value)] else [])
  }

  /** The cascade of installLinux (installers.ts:40-76). */
  function SelectLinuxMethod(sw: AnySoftware, env: Env): Option<Method> {
    if sw.brewPackage.Some? && !sw.brewPackage.value.MacOnly() then Some(Brew(sw.brewPackage.value))
    else if sw.snapPackage.Some? then Some(Snap(sw.snapPackage.value))
    else if sw.flatpakPackage.Some? then Some(Flatpak(sw.flatpakPackage.value))
    else if env.tpm == Some("dpkg") && sw.dpkgThirdParty.Some? then
      Some(DpkgMethod(sw.dpkgThirdParty.value, env.homeDir))
    else if env.tpm == Some("eopkg") && sw.eopkgThirdParty.Some? then
      Some(EopkgThirdPartyBuild(sw.eopkgThirdParty.value))
    else if env.pm.Some? && sw.linuxPackages.Some? then
      Some(LinuxPackages(env.pm.value, sw.linuxPackages.value))
    else if sw.tarballPackage.Some? then Some(TarballMethod(sw.tarballPackage.value, env.homeDir))
    else if env.isWsl && sw.wslManualInstallCommand.Some? then
      Some(WslManual(sw.wslManualInstallCommand.value))
    else if sw.linuxManualInstallCommand.Some? then
      Some(LinuxManual(sw.linuxManualInstallCommand.value))
    else None
  }

  /** Every Linux method that applies to the descriptor on this host,
      highest priority first. */
  function LinuxCandidates(sw: AnySoftware, env: Env): seq<Method> {
    (if sw.brewPackage.Some? && !sw.brewPackage.value.MacOnly() then [Brew(sw.brewPackage.value)] else [])
    + (if sw.snapPackage.Some? then [Snap(sw.snapPackage.value)] else [])
    + (if sw.flatpakPackage.Some? then [Flatpak(sw.flatpakPackage.value)] else [])
    + (if env.tpm == Some("dpkg") && sw.dpkgThirdParty.Some?
       then [DpkgMethod(sw.dpkgThirdParty.value, env.homeDir)] else [])
    + (if env.tpm == Some("eopkg") && sw.eopkgThirdParty.Some?
       then [EopkgThirdPartyBuild(sw.eopkgThirdParty.value)] else [])
    + (if env.pm.Some? && sw.linuxPackages.Some?
       then [LinuxPackages(env.pm.value, sw.linuxPackages.value)] else [])
    + (if sw.tarballPackage.Some? then [TarballMethod(sw.tarballPackage.value, env.homeDir)] else [])
    + (if env.isWsl && sw.wslManualInstallCommand.Some?
       then [WslManual(sw.wslManualInstallCommand.value)] else [])
    + (if sw.linuxManualInstallCommand.Some? then [LinuxManual(sw.linuxManualInstallCommand.value)] else [])
  }

  /** The position of a Linux method in the installLinux cascade. */
  function LinuxRank(m: Method): nat {
    match m
    case Brew(_) => 0
    case Snap(_) => 1
    case Flatpak(_) => 2
    case DpkgThirdParty(_, _, _) => 3
    case EopkgThirdPartyBuild(_) => 4
    case LinuxPackages(_, _) => 5
    case Tarball(_, _, _, _) => 6
    case WslManual(_) => 7
    case LinuxManual(_) => 8
    case MacManual(_) => 9
  }

  /** The cascade picks the first applicable method of the priority list. */
  lemma SelectLinuxIsFirstCandidate(sw: AnySoftware, env: Env)
    ensures SelectLinuxMethod(sw, env) == if LinuxCandidates(sw, env) == [] then None else Some(LinuxCandidates(sw, env)[0])
  {
  }

  lemma SelectMacIsFirstCandidate(sw: AnySoftware)
    ensures SelectMacMethod(sw) == if MacCandidates(sw) == [] then None else Some(MacCandidates(sw)[0])
  {
  }

  /** installMac (installers.ts:20-37). */
  function InstallMac(sw: AnySoftware): (r: Result<seq<Step>, Failure>)
    ensures r.Err? <==> MacCandidates(sw) == []
    ensures r.Err? ==> r.error == NoMacMethod(sw.name)
    ensures r.Ok? ==> r.value == MethodSteps(MacCandidates(sw)[0])
  {
    SelectMacIsFirstCandidate(sw);
    match SelectMacMethod(sw)
    case None => Err(NoMacMethod(sw.name))
    case Some(m) => Ok(MethodSteps(m))
  }

  /** installLinux (installers.ts:39-77). */
  function InstallLinux(sw: AnySoftware, env: Env): (r: Result<seq<Step>, Failure>)
    ensures r.Err? <==> LinuxCandidates(sw, env) == []
    ensures r.Err? ==> r.error == NoLinuxMethod(sw.name)
    ensures r.Ok? ==> r.value == MethodSteps(LinuxCandidates(sw, env)[0])
  {
    SelectLinuxIsFirstCandidate(sw, env);
    match SelectLinuxMethod(sw, env)
    case None => Err(NoLinuxMethod(sw.name))
    case Some(m) => Ok(MethodSteps(m))
  }

  // ---------------------------------------------------------------------------
  // install and the execution of its commands

  /** The install dispatch (installers.ts:8-14): macOS is tested first. */
  function PlatformInstall(sw: Software, env: Env): (r: Result<seq<Step>, Failure>)
    ensures env.isMac ==> r == InstallMac(sw)
    ensures !env.isMac && env.isLinux ==> r == InstallLinux(sw, env)
    ensures !env.isMac && !env.isLinux ==> r == Err(UnknownOperatingSystem)
  {
    if env.isMac then InstallMac(sw)
    else if env.isLinux then InstallLinux(sw, env)
    else Err(UnknownOperatingSystem)
  }

  /** install (installers.ts:7-18): the platform installer's commands, then
      the start of the postInstall hook when the descriptor has one. */
  function Plan(sw: Software, env: Env): (r: Result<seq<Step>, Failure>)
    ensures r.Err? <==> PlatformInstall(sw, env).Err?
    ensures r.Err? ==> r.error == PlatformInstall(sw, env).error
    ensures r.Ok? && sw.postInstall.None? ==> r.value == PlatformInstall(sw, env).value
    ensures r.Ok? && sw.postInstall.Some? ==>
              r.value == PlatformInstall(sw, env).value + [StartPostInstall(sw.postInstall.value)]
  {
    match PlatformInstall(sw, env)
    case Err(e) => Err(e)
    case Ok(steps) =>
      Ok(steps + if sw.postInstall.Some? then [StartPostInstall(sw.postInstall.value)] else [])
  }

  /** What running a command list gave: the steps started, and the awaited step that threw, if any. */
  datatype Execution = Execution(started: seq<Step>, threw: Option<Step>)

  /** Running commands one after another with `await`: an awaited step that
      fails throws and nothing after it starts; a step that is not awaited
      cannot make its caller throw. `fails(s)` is whether s fails on this host. */
  function Perform(steps: seq<Step>, fails: Step -> bool): (x: Execution)
    ensures x.started <= steps
    ensures x.threw.None? ==> x.started == steps
    ensures x.threw.None? ==> forall i :: 0 <= i < |steps| ==> !(Awaited(steps[i]) && fails(steps[i]))
    ensures x.threw.Some? ==>
              && |x.started| > 0
              && x.started[|x.started| - 1] == x.threw.value
              && Awaited(x.threw.value) && fails(x.threw.value)
              && forall i :: 0 <= i < |x.started| - 1 ==> !(Awaited(steps[i]) && fails(steps[i]))
  {
    if steps == [] then Execution([], None)
    else if Awaited(steps[0]) && fails(steps[0]) then Execution([steps[0]], Some(steps[0]))
    else
      var rest := Perform(steps[1..], fails);
      assert forall i :: 1 <= i < |steps| ==> steps[i] == steps[1..][i - 1];
      Execution([steps[0]] + rest.started, rest.threw)
  }

  /** install with its commands run: the plan's first awaited failure, or the steps it started. */
  function Install(sw: Software, env: Env, fails: Step -> bool): (r: Result<seq<Step>, Failure>)
    ensures Plan(sw, env).Err? ==> r == Err(Plan(sw, env).error)
    ensures Plan(sw, env).Ok? && r.Ok? ==> r.value == Plan(sw, env).value
    ensures r.Ok? ==> forall s :: s in r.value ==> !(Awaited(s) && fails(s))
    ensures r.Err? && Plan(sw, env).Ok? ==>
              r.error.ProcessFailed? && r.error.step in Plan(sw, env).value && fails(r.error.step)
    ensures Plan(sw, env).Ok? ==> (r.Ok? <==> Perform(Plan(sw, env).value, fails).threw.None?)
    ensures r.Err? && Plan(sw, env).Ok? ==>
              r.error == ProcessFailed(Perform(Plan(sw, env).value, fails).threw.value) && Awaited(r.error.step)
  {
    match Plan(sw, env)
    case Err(e) => Err(e)
    case Ok(steps) =>
      var x := Perform(steps, fails);
      if x.threw.Some? then Err(ProcessFailed(x.threw.value)) else Ok(x.started)
  }

  /** Running a + b is running a, then, if nothing in a threw, running b. */
  lemma {:induction false} PerformAppend(a: seq<Step>, b: seq<Step>, fails: Step -> bool)
    ensures Perform(a + b, fails) ==
            if Perform(a, fails).threw.Some? then Perform(a, fails)
            else Execution(a + Perform(b, fails).started, Perform(b, fails).threw)
  {
    if a == [] {
      assert a + b == b;
    } else if Awaited(a[0]) && fails(a[0]) {
      assert (a + b)[0] == a[0];
    } else {
      var ab := a + b;
      assert ab[0] == a[0] && ab[1..] == a[1..] + b;
      PerformAppend(a[1..], b, fails);
      var rest := Perform(a[1..], fails);
      var both := Perform(a[1..] + b, fails);
      assert Perform(ab, fails) == Execution([a[0]] + both.started, both.threw);
      assert Perform(a, fails) == Execution([a[0]] + rest.started, rest.threw);
      if rest.threw.None? {
        var tail := Perform(b, fails).started;
        assert both == Execution(a[1..] + tail, Perform(b, fails).threw);
        assert [a[0]] + (a[1..] + tail) == a + tail;
      } else {
        assert both == rest;
      }
    }
  }

  /** The outcome of a step that is not awaited never matters. */
  lemma {:induction false} UnawaitedFailuresIgnored(steps: seq<Step>, fails: Step -> bool, fails': Step -> bool)
    requires forall s :: Awaited(s) ==> fails(s) == fails'(s)
    ensures Perform(steps, fails) == Perform(steps, fails')
  {
    if steps != [] {
      UnawaitedFailuresIgnored(steps[1..], fails, fails');
    }
  }

  /** The postInstall hook is started exactly when the platform installer
      returned without throwing (installers.ts:15-17), and a failure of the
      hook, which is not awaited, never makes install throw. */
  lemma PostInstallOnlyAfterInstaller(sw: Software, env: Env, fails: Step -> bool)
    requires sw.postInstall.Some? && PlatformInstall(sw, env).Ok?
    ensures var plan := Plan(sw, env).value;
            var x := Perform(plan, fails);
            && plan[|plan| - 1] == StartPostInstall(sw.postInstall.value)
            && (|x.started| == |plan| <==> Perform(PlatformInstall(sw, env).value, fails).threw.None?)
            && (Install(sw, env, fails).Ok? <==> Perform(PlatformInstall(sw, env).value, fails).threw.None?)
  {
    var steps := PlatformInstall(sw, env).value;
    var post := [StartPostInstall(sw.postInstall.value)];
    PerformAppend(steps, post, fails);
  }

  // ---------------------------------------------------------------------------
  // Properties of the two cascades

  /** On macOS a brew package is always chosen, whatever its macOnly flag
      says; its tap, if any, is added first, and a cask is installed with `--cask`. */
  lemma MacPrefersBrew(sw: AnySoftware)
    requires sw.brewPackage.Some?
    ensures var p := sw.brewPackage.value;
            InstallMac(sw) == Ok((if p.tap.Some? then [Run(["brew", "tap", p.tap.value])] else [])
                                 + [Run(BrewInstallArgv(p))])
  {
  }

  /** The manual macOS command runs (through `sh -c`) only for a descriptor
      without a brew package; with neither, installMac throws. */
  lemma MacManualOnlyWithoutBrew(sw: AnySoftware)
    ensures (InstallMac(sw).Ok? && InstallMac(sw).value[0].Eval?)
            <==> sw.brewPackage.None? && sw.macManualInstallCommand.Some?
    ensures sw.brewPackage.None? && sw.macManualInstallCommand.Some? ==>
              InstallMac(sw) == Ok([Eval(sw.macManualInstallCommand.value)])
    ensures InstallMac(sw) == Err(NoMacMethod(sw.name))
            <==> sw.brewPackage.None? && sw.macManualInstallCommand.None?
  {
  }

  /** The manual macOS command is the one process installMac spawns, and it
      runs through `sh -c` (installers.ts:33, run.ts:3-5). */
  lemma MacManualSpawnsShell(sw: AnySoftware)
    requires sw.brewPackage.None? && sw.macManualInstallCommand.Some?
    ensures InstallMac(sw).Ok? && |InstallMac(sw).value| == 1
    ensures SpawnedArgv(InstallMac(sw).value[0]) == Some(["sh", "-c", sw.macManualInstallCommand.value])
  {
  }

  /** Linux uses brew only for a shell package that is not macOnly, and
      then ends with `brew install package`. */
  lemma LinuxBrewIsNeverMacOnly(sw: AnySoftware, env: Env)
    ensures SelectLinuxMethod(sw, env).Some? && SelectLinuxMethod(sw, env).value.Brew? ==>
              var p := SelectLinuxMethod(sw, env).value.brew;
              p.Shell? && !p.shellMacOnly
              && InstallLinux(sw, env).value[|InstallLinux(sw, env).value| - 1] == Run(["brew", "install", p.package])
  {
    if sw.brewPackage.Some? && !sw.brewPackage.value.MacOnly() {
      var p := sw.brewPackage.value;
      assert SelectLinuxMethod(sw, env) == Some(Brew(p));
      assert InstallLinux(sw, env) == Ok(MethodSteps(Brew(p)));
      assert MethodSteps(Brew(p)) == TapSteps(p) + [Run(BrewInstallArgv(p))];
    } else {
      assert !(SelectLinuxMethod(sw, env).Some? && SelectLinuxMethod(sw, env).value.Brew?);
    }
  }

  /** A cask is invisible on Linux: the applicable methods are those of the
      descriptor without its brew package. */
  lemma LinuxIgnoresCasks(sw: AnySoftware, env: Env)
    requires sw.brewPackage.Some? && sw.brewPackage.value.Cask?
    ensures LinuxCandidates(sw, env) == LinuxCandidates(sw.(brewPackage := None), env)
  {
  }

  /** Each gated method is chosen only when its gate holds: dpkg and eopkg
      only for the detected third-party manager, the package list only with a
      detected package manager, the WSL command only under WSL. */
  lemma LinuxGates(sw: AnySoftware, env: Env)
    ensures var m := SelectLinuxMethod(sw, env);
            && (m.Some? && m.value.DpkgThirdParty? ==> env.tpm == Some("dpkg"))
            && (m.Some? && m.value.EopkgThirdPartyBuild? ==> env.tpm == Some("eopkg"))
            && (m.Some? && m.value.LinuxPackages? ==> env.pm == Some(m.value.manager))
            && (m.Some? && m.value.WslManual? ==> env.isWsl)
  {
  }

  /** Two descriptors that agree on every slot the cascade looks at up to
      (and including) rank k. */
  predicate AgreeThrough(a: AnySoftware, b: AnySoftware, k: nat) {
    && a.name == b.name
    && a.brewPackage == b.brewPackage
    && (k >= 1 ==> a.snapPackage == b.snapPackage)
    && (k >= 2 ==> a.flatpakPackage == b.flatpakPackage)
    && (k >= 3 ==> a.dpkgThirdParty == b.dpkgThirdParty)
    && (k >= 4 ==> a.eopkgThirdParty == b.eopkgThirdParty)
    && (k >= 5 ==> a.linuxPackages == b.linuxPackages)
    && (k >= 6 ==> a.tarballPackage == b.tarballPackage)
    && (k >= 7 ==> a.wslManualInstallCommand == b.wslManualInstallCommand)
    && (k >= 8 ==> a.linuxManualInstallCommand == b.linuxManualInstallCommand)
  }

  /** First match wins: once a slot is chosen, no slot after it is consulted,
      so changing the later slots does not change what installLinux runs. */
  lemma LaterSlotsNotConsulted(a: AnySoftware, b: AnySoftware, env: Env)
    requires SelectLinuxMethod(a, env).Some?
    requires AgreeThrough(a, b, LinuxRank(SelectLinuxMethod(a, env).value))
    ensures InstallLinux(a, env) == InstallLinux(b, env)
  {
    SameLinuxChoice(a, b, env);
  }

  /** The cascade's choice depends only on the slots up to the chosen one. */
  lemma SameLinuxChoice(a: AnySoftware, b: AnySoftware, env: Env)
    requires SelectLinuxMethod(a, env).Some?
    requires AgreeThrough(a, b, LinuxRank(SelectLinuxMethod(a, env).value))
    ensures SelectLinuxMethod(a, env) == SelectLinuxMethod(b, env)
  {
    match SelectLinuxMethod(a, env).value
    case Brew(_) =>
    case Snap(_) =>
    case Flatpak(_) =>
    case DpkgThirdParty(_, _, _) =>
    case EopkgThirdPartyBuild(_) =>
    case LinuxPackages(_, _) =>
    case Tarball(_, _, _, _) =>
    case WslManual(_) =>
    case LinuxManual(_) =>
    case MacManual(_) =>
  }

  /** No slot of rank below k (among the ungated brew, snap and flatpak) applies. */
  predicate NoneBefore(sw: AnySoftware, k: nat)
    requires k <= 3
  {
    && (sw.brewPackage.Some? ==> sw.brewPackage.value.MacOnly())
    && (k >= 2 ==> sw.snapPackage.None?)
    && (k >= 3 ==> sw.flatpakPackage.None?)
  }

  /** A snap without `classic` installs exactly like one with `classic: false`. */
  lemma SnapClassicDefaultsToFalse(package: string)
    ensures SnapArgv(SnapPackage(package, None)) == SnapArgv(SnapPackage(package, Some(false)))
            == ["sudo", "snap", "install", package]
  {
  }

  /** The eopkg third-party path builds, installs and removes, in that order. */
  lemma EopkgThreeSteps(sw: AnySoftware, env: Env)
    requires NoneBefore(sw, 3) && env.tpm == Some("eopkg") && sw.eopkgThirdParty.Some?
    ensures var e := sw.eopkgThirdParty.value;
            InstallLinux(sw, env) == Ok([
              Run(["sudo", "eopkg", "bi", "--ignore-safety", e.specUrl]),
              Run(["sudo", "eopkg", "it", e.packageFilePattern]),
              Run(["sudo", "rm", e.packageFilePattern])])
  {
  }

  /** The dpkg third-party path passes wget's `-o` a path in Downloads under the
      home directory, named by the URL's last segment, and hands that same path
      to `dpkg -i`. */
  lemma DpkgInstallsDownloadedFile(sw: AnySoftware, env: Env)
    requires NoneBefore(sw, 3) && env.tpm == Some("dpkg") && sw.dpkgThirdParty.Some?
    ensures var url := sw.dpkgThirdParty.value;
            var file := LocalFilePath(url, env.homeDir);
            InstallLinux(sw, env) == Ok([
              EnsureDir(DownloadDir(env.homeDir)),
              Run(["wget", url, "-o", file]),
              Run(["sudo", "dpkg", "-i", file])])
    ensures env.homeDir != [] && Basename(sw.dpkgThirdParty.value) != [] ==>
              LocalFilePath(sw.dpkgThirdParty.value, env.homeDir)
              == env.homeDir + "/Downloads/" + Basename(sw.dpkgThirdParty.value)
  {
    var url := sw.dpkgThirdParty.value;
    var dir := DownloadDir(env.homeDir);
    var file := LocalFilePath(url, env.homeDir);
    assert SelectLinuxMethod(sw, env) == Some(DpkgThirdParty(url, dir, file));
    assert InstallLinux(sw, env) == Ok(MethodSteps(DpkgThirdParty(url, dir, file)));
    assert [EnsureDir(dir), Run(["wget", url, "-o", file])] + [Run(["sudo", "dpkg", "-i", file])]
        == [EnsureDir(dir), Run(["wget", url, "-o", file]), Run(["sudo", "dpkg", "-i", file])];
  }

  /** A tarball method runs five steps: download, extract, and the installer
      called on the extraction directory. */
  lemma TarballStepsInOrder(t: TarballPackage, downloadDir: string, file: string, dir: string)
    ensures MethodSteps(Tarball(t, downloadDir, file, dir)) == [
              EnsureDir(downloadDir),
              Run(["wget", t.packageUrl, "-o", file]),
              EnsureDir(dir),
              Run(["tar", "zxf", file, "--directory=" + dir]),
              CallInstaller(t.installer, dir)]
  {
    assert [EnsureDir(downloadDir), Run(["wget", t.packageUrl, "-o", file])]
           + [EnsureDir(dir), Run(["tar", "zxf", file, "--directory=" + dir])]
           + [CallInstaller(t.installer, dir)]
        == [EnsureDir(downloadDir), Run(["wget", t.packageUrl, "-o", file]),
            EnsureDir(dir), Run(["tar", "zxf", file, "--directory=" + dir]), CallInstaller(t.installer, dir)];
  }

  /** The tarball method passes wget's `-o` a path under the home directory's
      Downloads, extracts that path into itself less its extension, and hands
      that directory to the installer. */
  lemma TarballMethodSteps(t: TarballPackage, homeDir: string)
    ensures var file := LocalFilePath(t.packageUrl, homeDir);
            var dir := ExtractDir(file);
            MethodSteps(TarballMethod(t, homeDir)) == [
              EnsureDir(DownloadDir(homeDir)),
              Run(["wget", t.packageUrl, "-o", file]),
              EnsureDir(dir),
              Run(["tar", "zxf", file, "--directory=" + dir]),
              CallInstaller(t.installer, dir)]
  {
    var file := LocalFilePath(t.packageUrl, homeDir);
    TarballStepsInOrder(t, DownloadDir(homeDir), file, ExtractDir(file));
  }

  /** On Linux a descriptor whose earlier slots do not apply installs from
      its tarball. */
  lemma LinuxFallsBackToTarball(sw: AnySoftware, env: Env)
    requires NoneBefore(sw, 3) && !(env.tpm == Some("dpkg") && sw.dpkgThirdParty.Some?)
    requires !(env.tpm == Some("eopkg") && sw.eopkgThirdParty.Some?) && !(env.pm.Some? && sw.linuxPackages.Some?)
    requires sw.tarballPackage.Some?
    ensures InstallLinux(sw, env) == Ok(MethodSteps(TarballMethod(sw.tarballPackage.value, env.homeDir)))
  {
    assert SelectLinuxMethod(sw, env) == Some(TarballMethod(sw.tarballPackage.value, env.homeDir));
  }

  /** The brew slot on Linux taps first when a tap is set, then installs the
      formula by name. */
  lemma BrewOnLinux(sw: AnySoftware, env: Env)
    requires sw.brewPackage.Some? && !sw.brewPackage.value.MacOnly()
    ensures var p := sw.brewPackage.value;
            InstallLinux(sw, env) == Ok((if p.tap.Some? then [Run(["brew", "tap", p.tap.value])] else [])
                                        + [Run(["brew", "install", p.package])])
  {
    var p := sw.brewPackage.value;
    assert SelectLinuxMethod(sw, env) == Some(Brew(p));
    assert InstallLinux(sw, env) == Ok(MethodSteps(Brew(p)));
    assert MethodSteps(Brew(p)) == TapSteps(p) + [Run(BrewInstallArgv(p))];
    assert BrewInstallArgv(p) == ["brew", "install", p.package];
  }

  /** The snap slot runs one `snap install`. */
  lemma SnapOnLinux(sw: AnySoftware, env: Env)
    requires NoneBefore(sw, 1) && sw.snapPackage.Some?
    ensures InstallLinux(sw, env) == Ok([Run(SnapArgv(sw.snapPackage.value))])
  {
    assert SelectLinuxMethod(sw, env) == Some(Snap(sw.snapPackage.value));
  }

  /** The flatpak slot runs one `flatpak install`. */
  lemma FlatpakOnLinux(sw: AnySoftware, env: Env)
    requires NoneBefore(sw, 2) && sw.flatpakPackage.Some?
    ensures InstallLinux(sw, env) == Ok([Run(FlatpakArgv(sw.flatpakPackage.value))])
  {
    assert SelectLinuxMethod(sw, env) == Some(Flatpak(sw.flatpakPackage.value));
  }

  /** The package-manager slot runs the host's manager once on every listed package. */
  lemma LinuxPackagesOnLinux(sw: AnySoftware, env: Env)
    requires NoneBefore(sw, 3) && !(env.tpm == Some("dpkg") && sw.dpkgThirdParty.Some?)
    requires !(env.tpm == Some("eopkg") && sw.eopkgThirdParty.Some?)
    requires env.pm.Some? && sw.linuxPackages.Some?
    ensures InstallLinux(sw, env) == Ok([Run(["sudo", env.pm.value, "install"] + sw.linuxPackages.value)])
  {
    assert SelectLinuxMethod(sw, env) == Some(LinuxPackages(env.pm.value, sw.linuxPackages.value));
  }

  /** Under WSL, with every earlier slot empty, the WSL command is evaluated. */
  lemma WslManualOnLinux(sw: AnySoftware, env: Env)
    requires NoneBefore(sw, 3) && !(env.tpm == Some("dpkg") && sw.dpkgThirdParty.Some?)
    requires !(env.tpm == Some("eopkg") && sw.eopkgThirdParty.Some?) && !(env.pm.Some? && sw.linuxPackages.Some?)
    requires sw.tarballPackage.None? && env.isWsl && sw.wslManualInstallCommand.Some?
    ensures InstallLinux(sw, env) == Ok([Run(["eval", sw.wslManualInstallCommand.value])])
  {
    assert SelectLinuxMethod(sw, env) == Some(WslManual(sw.wslManualInstallCommand.value));
  }

  /** The last slot evaluates the Linux manual command. */
  lemma LinuxManualOnLinux(sw: AnySoftware, env: Env)
    requires NoneBefore(sw, 3) && !(env.tpm == Some("dpkg") && sw.dpkgThirdParty.Some?)
    requires !(env.tpm == Some("eopkg") && sw.eopkgThirdParty.Some?) && !(env.pm.Some? && sw.linuxPackages.Some?)
    requires sw.tarballPackage.None? && !(env.isWsl && sw.wslManualInstallCommand.Some?)
    requires sw.linuxManualInstallCommand.Some?
    ensures InstallLinux(sw, env) == Ok([Run(["eval", sw.linuxManualInstallCommand.value])])
  {
    assert SelectLinuxMethod(sw, env) == Some(LinuxManual(sw.linuxManualInstallCommand.value));
  }

  /** A descriptor whose only method is a macOnly brew package has no Linux
      installation method. */
  lemma MacOnlyDescriptorFailsOnLinux(sw: Software, env: Env)
    requires sw.brewPackage.Some? && sw.brewPackage.value.MacOnly()
    requires sw.(brewPackage := None, commandName := None, litmusFile := None, name := "", platforms := [],
                 macManualInstallCommand := None, postInstall := None) == Bare("")
    requires !env.isMac && env.isLinux
    ensures Install(sw, env, _ => false) == Err(NoLinuxMethod(sw.name))
  {
  }
}
