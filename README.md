# Workstation installer core, modelled in Dafny

`env` is a Deno script that sets up a developer workstation: it checks that
`curl` exists, selects entries from a static catalog of software, and for each
one decides whether it is already installed and, if not, how to install it on
this host (Homebrew on macOS; brew, snap, flatpak, a third-party `.deb` or
eopkg build, the distribution's package manager, a tarball or a manual command
on Linux).

The model turns every side effect into data:

- a process the installer would run is a `Step` (`Run(argv)`, `Eval(command)`,
  `EnsureDir(dir)`, `CallInstaller(hook, dir)`, `StartPostInstall(hook)`);
- the host answers through parameters: environment variables, whether a
  command exists, what `lstat` does for a path, and whether a given step fails;
- the installer's choice is a pure cascade (`Installers.SelectLinuxMethod`,
  `Installers.SelectMacMethod`) proved equal to "the first entry of the
  priority list of applicable methods" (`LinuxCandidates`, `MacCandidates`);
- running a plan with `await` is `Installers.Perform`: the first awaited step
  that fails throws, and nothing after it starts; the `postInstall` hook is
  started without being awaited;
- the loop of `doInstall` is an imperative method (`DenoInstall.InstallAll`)
  proved equal to a recursive specification (`DenoInstall.Process`) about
  which the properties of a run are proved.

Files: `wrappers.dfy` (Option, Result), `types.dfy` (descriptor shapes),
`runner.dfy` (steps and errors), `environment.dfy`, `paths.dfy` (the posix
`basename`/`extname`/`join` the installers use), `software.dfy` (module
`Inventory`: `isInstalled` and the catalog), `installers.dfy`,
`deno_install.dfy`, `catalog_facts.dfy` (the catalog as concrete cases).

Behaviour of the code that a reader might expect to be otherwise, and which
the model follows:

- `isInstalled` consults `commandName` alone whenever it is present; it never
  ORs the command test with the litmus file (`Inventory.ChecksAreNotCombined`).
- On macOS a brew package is chosen whatever its `macOnly` flag says
  (`Installers.MacPrefersBrew`); there is no preference for isolated installs.
- The loop of `doInstall` has no try/catch: the first exception ends the run
  (`DenoInstall.AbortIgnoresLaterEntries`).
- The installers read a single optional `brewPackage.tap`, while types.ts
  declares `taps?: string[]`; the model has the single optional `tap`.
- `FlatpakPackage.remote` is declared required but tested for null by the
  installer; the model makes it optional.
- deno_install.ts reads `software.platforms`, `idify` and `platform`, and
  software.ts imports `finishProcess`; none of these is defined in
  types.ts, software.ts, environment.ts or run.ts; `platforms`
  is a descriptor field, and `idify` and the current platform are parameters.

## Model

| member | source | states |
|---|---|---|
| Types.HomebrewPackage.MacOnly | types.ts:46-56 | a cask is always macOnly; a shell package has the flag it declares |
| Types.IsCask | types.ts:58-60 | true exactly for the cask variant, and every cask is macOnly |
| Types.IsCommandSoftware | types.ts:1-15 | a command descriptor is one with a command name |
| Types.IsPassiveSoftware | types.ts:16-30 | a passive descriptor is one with a litmus file |
| Types.IsUiSoftware | types.ts:31-41 | a UI descriptor has a command name and none of the litmus file, manual commands or Linux package list, so it is also a command descriptor |
| Runner.EvalArgv | run.ts:3-5 | runEval's argv is exactly `sh`, `-c`, then the command |
| Runner.SpawnedArgv | run.ts:3-10 | a step spawns a process iff it is a run or an eval; run spawns its argv as given, eval spawns exactly `sh -c command` |
| Runner.Awaited | installers.ts:7-18 | every step is awaited except the start of the postInstall hook |
| Environment.IsGnome | environment.ts:5-12 | true exactly when pgrep exited successfully; a throw gives false |
| Environment.IsMac | environment.ts:41 | true iff OSTYPE starts with "darwin" |
| Environment.IsLinux | environment.ts:42 | true iff OSTYPE starts with "linux-gnu" |
| Environment.IsWsl | environment.ts:43 | false only when IS_WSL is set to the empty string; unset counts as WSL |
| Environment.FirstInstalled | environment.ts:14-36 | reference for a detection chain: the result is installed and every earlier candidate is not; None iff no candidate is installed |
| Environment.LinuxPackageManager | environment.ts:14-24 | off Linux none; on Linux the first installed of apt, eopkg |
| Environment.LinuxThirdPartyPackageManager | environment.ts:26-36 | off Linux none; on Linux the first installed of dpkg, eopkg |
| Environment.Facts | environment.ts:39-45 | HOME defaults to ""; the platform flags are IsMac and IsLinux of OSTYPE (default ""), so they exclude each other and are both false when it is unset; the two managers are the two detection chains, none off Linux, one of their chain and installed when set, apt and dpkg winning when present |
| Paths.SegmentStart | installers.ts:80 | the last segment starts at 0 or right after a '/' |
| Paths.SegmentHasNoSlash | installers.ts:80 | no '/' occurs in the last segment |
| Paths.TrimTrailingSlashes | installers.ts:80 | the result is a prefix that does not end in '/' |
| Paths.TrimRemovesOnlySlashes | installers.ts:80 | everything trimmed away is '/' |
| Paths.Basename | installers.ts:80 | for a path not ending in '/', the basename is a suffix preceded by '/' or the whole path |
| Paths.BasenameHasNoSlash | installers.ts:80 | a basename never contains '/' |
| Paths.LastDot | installers.ts:89 | the position found holds a '.' |
| Paths.LastDotIsLast | installers.ts:89 | no '.' follows the position found, and None means there is no '.' |
| Paths.Extname | installers.ts:89 | the extension is a suffix of the path less its trailing slashes |
| Paths.Join | installers.ts:81-82 | join never gives an empty path; two non-empty parts are kept whole and separated by exactly one '/'; an empty part leaves the other unchanged |
| Paths.SegmentStartSkipsSegment | installers.ts:82 | appending text without '/' leaves the start of the last segment unchanged |
| Paths.JoinKeepsLastSegment | installers.ts:82 | joining a directory and a name without '/' gives a path whose basename is that name |
| Paths.ExtnameShape | installers.ts:89 | an extension is empty, or a '.' followed by neither '/' nor '.' |
| Paths.ExtnameOfArchive | installers.ts:89-90 | of a double extension only the last suffix counts: `d/a.tar.gz` has extension `.gz` |
| Installers.TapSteps | installers.ts:22-24 | the optional `brew tap` step; what it runs is stated by MacPrefersBrew |
| Installers.BrewInstallArgv | installers.ts:25-30 | exactly `brew install --cask c` for a cask and exactly `brew install p` for a shell package |
| Installers.SnapArgv | installers.ts:45-50 | `sudo snap install p`, with `--classic` appended iff classic is true and nothing else appended otherwise |
| Installers.FlatpakArgv | installers.ts:51-56 | exactly `sudo flatpak install remote package` with a remote and `sudo flatpak install package` without |
| Installers.DownloadDir | installers.ts:81 | the download directory is home + "/Downloads", or "Downloads" with no home |
| Installers.LocalFilePath | installers.ts:79-82 | the path passed to wget's `-o` and returned is home + "/Downloads/" + basename(url) ("Downloads/…" with no home) |
| Installers.DownloadKeepsFileName | installers.ts:80-82 | the local file's basename is the URL's basename |
| Installers.DownloadSteps | installers.ts:83-84 | ensureDir of the download directory, then `wget url -o file`; stated in DpkgInstallsDownloadedFile and TarballStepsInOrder |
| Installers.ExtractDir | installers.ts:89-90 | the file path less the length of its extension; stated by ExtractDirStripsExtension |
| Installers.ExtractSteps | installers.ts:91-92 | ensureDir of the extraction directory, then `tar zxf file --directory=dir`; stated in TarballStepsInOrder |
| Installers.DpkgMethod | installers.ts:57-58 | the dpkg method with the paths downloadFile computes; stated in DpkgInstallsDownloadedFile |
| Installers.TarballMethod | installers.ts:66-68 | the tarball method with the paths downloadFile and extractTarball compute; stated in TarballMethodSteps |
| Installers.MethodSteps | installers.ts:21-73 | every method runs at least one command, and every command an installer runs is awaited; the commands of each Linux slot are stated in the lemmas below (BrewOnLinux, SnapOnLinux, FlatpakOnLinux, DpkgInstallsDownloadedFile, EopkgThreeSteps, LinuxPackagesOnLinux, TarballMethodSteps, WslManualOnLinux, LinuxManualOnLinux) and those of macOS in MacPrefersBrew and MacManualSpawnsShell |
| Installers.SelectMacMethod | installers.ts:21-36 | the macOS cascade; stated by SelectMacIsFirstCandidate and the Mac lemmas |
| Installers.MacCandidates | installers.ts:21-36 | the macOS priority list of configured methods (brew, manual command), the reference the cascade is proved against |
| Installers.SelectLinuxMethod | installers.ts:40-76 | the Linux cascade; stated by SelectLinuxIsFirstCandidate, LinuxGates and SameLinuxChoice |
| Installers.LinuxCandidates | installers.ts:40-76 | the Linux priority list of applicable methods, the reference the cascade is proved against |
| Installers.LinuxRank | installers.ts:40-76 | the position of each method in the Linux cascade |
| Installers.ExtractDirStripsExtension | installers.ts:88-90 | the extraction directory is a prefix of the file path, shorter by the extension's length, and dir + extension is the path |
| Installers.SelectMacIsFirstCandidate | installers.ts:20-36 | the macOS cascade picks the first of brew, manual command |
| Installers.SelectLinuxIsFirstCandidate | installers.ts:39-76 | the Linux cascade picks the first applicable method of the nine-slot priority list |
| Installers.InstallMac | installers.ts:20-37 | throws "no method on macOS" iff neither slot is set; otherwise runs the first candidate's commands |
| Installers.InstallLinux | installers.ts:39-77 | throws "no method" iff no slot applies; otherwise runs the first applicable candidate's commands |
| Installers.PlatformInstall | installers.ts:7-14 | mac is tested first, then Linux; neither gives "I don't know your operating system" |
| Installers.Plan | installers.ts:7-18 | the platform installer's commands, followed by the postInstall start iff there is a hook; its errors unchanged |
| Installers.Perform | installers.ts:7-93 | awaited steps run in order; the first failing awaited step is the last started and throws; without a throw every step started and no awaited step failed |
| Installers.Install | installers.ts:7-18 | a plan error passes through; otherwise install succeeds iff running the plan throws nothing, returning the plan's steps, and else throws the plan's first failing awaited step |
| Installers.PerformAppend | installers.ts:7-18 | running a + b runs a and, only if a did not throw, then b |
| Installers.UnawaitedFailuresIgnored | installers.ts:15-17 | how a non-awaited step ends never changes the execution |
| Installers.PostInstallOnlyAfterInstaller | installers.ts:15-17 | the hook is the plan's last step; it starts iff the platform installer did not throw, and install succeeds iff that installer did |
| Installers.MacPrefersBrew | installers.ts:21-31 | with a brew package, macOS runs the optional tap, then brew install, whatever macOnly says |
| Installers.MacManualSpawnsShell | installers.ts:32-33 | without a brew package, the manual command is the one process installMac spawns, as `sh -c command` |
| Installers.MacManualOnlyWithoutBrew | installers.ts:32-36 | the manual command runs iff there is no brew package and a command; "no method" iff neither |
| Installers.LinuxBrewIsNeverMacOnly | installers.ts:40-44 | Linux uses brew only for a shell package that is not macOnly, ending in `brew install p` |
| Installers.LinuxIgnoresCasks | installers.ts:40 | a cask never counts on Linux: the applicable methods are those of the descriptor without it |
| Installers.LinuxGates | installers.ts:57-72 | dpkg and eopkg only with that third-party manager, packages only with a package manager, the WSL command only under WSL |
| Installers.SameLinuxChoice | installers.ts:39-76 | the Linux choice depends only on the slots up to the chosen one |
| Installers.LaterSlotsNotConsulted | installers.ts:39-76 | once a slot is chosen, changing later slots does not change what installLinux runs |
| Installers.SnapClassicDefaultsToFalse | installers.ts:47 | an absent `classic` builds the same argv as `classic: false` |
| Installers.EopkgThreeSteps | installers.ts:60-63 | the eopkg path runs exactly bi --ignore-safety spec, it pattern, rm pattern, in that order |
| Installers.BrewOnLinux | installers.ts:40-44 | with a brew package that is not macOnly, Linux runs `brew tap t` when a tap is set and then exactly `brew install p` |
| Installers.SnapOnLinux | installers.ts:45-50 | with no ungated brew package, a snap package installs by exactly one `sudo snap install` of it |
| Installers.FlatpakOnLinux | installers.ts:51-56 | with no ungated brew package and no snap, a flatpak package installs by exactly one `sudo flatpak install` of it |
| Installers.LinuxPackagesOnLinux | installers.ts:64-65 | with every earlier slot empty, the host's package manager runs once as `sudo pm install` on all listed packages |
| Installers.WslManualOnLinux | installers.ts:70-71 | under WSL, with every earlier slot empty, the only step is `eval` of the WSL command |
| Installers.LinuxManualOnLinux | installers.ts:72-73 | with every earlier slot empty and no applicable WSL command, the only step is `eval` of the Linux command |
| Installers.DpkgInstallsDownloadedFile | installers.ts:57-59 | the dpkg path creates Downloads, runs wget on the URL with `-o` and the local path, and passes that same path to `dpkg -i` |
| Installers.TarballStepsInOrder | installers.ts:66-69 | the tarball path downloads, extracts, then calls the installer on the extraction directory |
| Installers.TarballMethodSteps | installers.ts:66-93 | wget's `-o` gets a path under the home's Downloads, and tar extracts that path into itself less its extension before the installer runs on that directory |
| Installers.LinuxFallsBackToTarball | installers.ts:66-69 | with no earlier slot applicable, Linux installs from the tarball |
| Installers.MacOnlyDescriptorFailsOnLinux | installers.ts:39-76 | a descriptor whose only method is a macOnly brew package throws "no method" on Linux |
| Inventory.Ware | software.ts:105 | a string stands for a descriptor of that name whose command is that string |
| Inventory.IsInstalled | software.ts:104-123 | command name decides alone; else lstat: exists true, NotFound false, other errors re-thrown; "not sure how to check" iff neither check is set |
| Inventory.NamedProbesCommand | software.ts:105-109 | a string argument is probed as that command and never throws |
| Inventory.CommandNameDecidesAlone | software.ts:106-109 | with a command name, the litmus file is never consulted |
| Inventory.ChecksAreNotCombined | software.ts:106-119 | an existing litmus file does not make an absent command installed |
| Inventory.TypedSoftwareIsDecidable | software.ts:120-122 | a descriptor of a declared shape never reaches "not sure how to check" |
| DenoInstall.ShouldBeInstalled | deno_install.ts:47-52 | the selection predicate; stated by SoftwareToInstall |
| DenoInstall.HostEnv | environment.ts:39-45 | a host's environment constants are Facts of its variables, with the command test as `isInstalled` |
| DenoInstall.HostCalls | deno_install.ts:58-67 | the loop's two calls on a host: isInstalled of the entry and install under the host's environment; the host's answers are fixed for the run |
| DenoInstall.Filter | deno_install.ts:54 | filter keeps exactly the elements satisfying the predicate, never more than the input |
| DenoInstall.FilterCounts | deno_install.ts:54 | each kept element occurs as often as in the input, a dropped one never |
| DenoInstall.FilterAppend | deno_install.ts:54 | filtering a concatenation is the concatenation of the filtered parts |
| DenoInstall.SoftwareToInstall | deno_install.ts:47-54 | with no (or empty) ids, selected iff the platform matches; with ids, iff also the idified name is listed; non-UI before UI |
| DenoInstall.SelectionCounts | deno_install.ts:54 | each selected entry is processed as often as it is listed, an unselected one never |
| DenoInstall.Visit | deno_install.ts:57-71 | an exception from the probe is the outcome unchanged; skipped iff the probe says installed and not forced; otherwise, outside a dry run, install is called and its steps or its exception are the outcome; a pretended install happens only under a dry run, which never installs and fails only when the probe throws |
| DenoInstall.Process | deno_install.ts:56-72 | without an exception every entry is logged; with one, the log stops short |
| DenoInstall.ProcessStopsAtFailure | deno_install.ts:56-72 | the run ends at the first entry whose visit threw, with that exception |
| DenoInstall.ProcessLogsVisits | deno_install.ts:56-72 | the i-th logged event is what visiting the i-th entry gave |
| DenoInstall.ProcessAppend | deno_install.ts:56-72 | running a + b runs a and, only if a did not throw, then b |
| DenoInstall.InstallEntry | deno_install.ts:58-70 | the loop body's statements compute exactly one visit |
| DenoInstall.InstallAll | deno_install.ts:56-72 | the loop's log and exception are those of the specification |
| DenoInstall.DoInstall | deno_install.ts:46-74 | doInstall runs the loop over exactly the selected entries |
| DenoInstall.RunScript | deno_install.ts:10-12 | without curl the run throws "curl is not installed" before any entry; otherwise it is doInstall over the catalog |
| DenoInstall.DryRunNeverInstalls | deno_install.ts:64-69 | under a dry run nothing is installed, and only a failing probe can end the run |
| DenoInstall.ForceNeverSkips | deno_install.ts:59-67 | with force, no entry is reported as already installed, and outside a dry run every logged entry was installed |
| DenoInstall.SkipIffInstalled | deno_install.ts:58-61 | without force, an entry is skipped iff its probe said installed |
| DenoInstall.AbortIgnoresLaterEntries | deno_install.ts:56-72 | after an exception, later entries do not matter |
| DenoInstall.NonUiBeforeUi | deno_install.ts:54-56 | selected non-UI entries run first; UI entries run only if none of them threw |
| DenoInstall.InstalledRanItsPlan | deno_install.ts:67 | an installed entry ran its whole plan and none of its awaited commands failed |
| CatalogFacts.CatalogChecksAreExclusive | software.ts:5-102 | every catalog entry sets exactly one of commandName and litmusFile |
| CatalogFacts.CatalogIsAlwaysProbeable | software.ts:104-123 | isInstalled never says "not sure how to check" for a catalog entry, and never throws for one with a command |
| CatalogFacts.CatalogBrewIsMacOnly | software.ts:9-99 | every catalog brew package is macOnly, and every UI entry has a cask |
| CatalogFacts.ZshOnLinuxWithApt | software.ts:6-11 | Zsh on Linux with apt is `sudo apt install zsh` |
| CatalogFacts.ZshOnMac | software.ts:6-11 | Zsh on macOS is `brew install zsh` |
| CatalogFacts.ZshOnLinuxWithoutManager | software.ts:6-11 | Zsh on Linux without a package manager has no method |
| CatalogFacts.OhMyZshOnMac | software.ts:12-29 | Oh My Zsh on macOS evaluates its command, then starts its postInstall |
| CatalogFacts.NixOnLinux | software.ts:46-52 | Nix runs its --no-daemon command under WSL and its --daemon command otherwise |
| CatalogFacts.ChromeWithEopkg | software.ts:56-65 | Chrome with eopkg is the three eopkg steps on its spec URL and pattern |
| CatalogFacts.ChromeWithoutThirdPartyManager | software.ts:56-65 | Chrome with no third-party manager has no Linux method |
| CatalogFacts.SnapsOnLinux | software.ts:66-77 | VS Code is a classic snap, Zoom is not |
| CatalogFacts.GitHubDesktopOnLinux | software.ts:96-101 | GitHub Desktop installs from the flathub remote |
| CatalogFacts.UiOnMacIsCask | software.ts:55-102 | on macOS every UI entry is `brew install --cask` |

## Left out

- run.ts: spawning processes, piping and decoding their output, and building
  `ProcessError`. A step's failure is an input (`fails`), and a failing
  awaited step throws `ProcessFailed(step)`.
- The yargs command-line setup and help text (deno_install.ts:14-44). The
  options arrive as an `Options` value.
- The effects of `ensureDir`, `wget` and `tar`. They appear only as steps.
- Installers.DownloadSteps: the model passes the computed local path to wget's
  `-o`, as installers.ts:84 does. For wget, `-o` names the log file, not the
  download target, so on a host the archive lands in the working directory
  under its remote name, and `dpkg -i` and `tar` receive wget's log instead.
  The model does not follow the file system, so it does not show this.
- The bodies of the `postInstall` hooks and tarball installers. They are
  opaque `Hook` values.
- Reads of `Deno.env` and the module-level `await` in environment.ts. The
  variables are a `Variables` value, and "installed" is a parameter.
- The `pgrep` call inside `isGnome`. Only what it returned or whether it
  threw is kept.
- Console output throughout `doInstall`. The log records each entry's event
  instead.
- `doInstall` is called from the yargs handler without `await`; nothing else
  runs after it, so this changes nothing in the model.
- Installers.Plan, DenoInstall.Process: the `postInstall` hook is started
  and not awaited (installers.ts:15-17). On a host it runs alongside the
  following loop iterations, and a hook that rejects is an unhandled
  rejection that ends the Deno process. The model records only that the hook
  was started; its outcome never stops the run, and the interleaving is not
  modelled.
- `scriptDir` (environment.ts:38). It is used only in a postInstall message.
- `allSoftwareIds` and `idify`. Their definitions are not part of this model,
  so `idify` is a parameter.
- Current platform: `platform` is not exported by environment.ts, so it is a
  parameter.
- DenoInstall.RunScript: the catalog entries in software.ts declare no
  `platforms`, so on a host `software.platforms.includes(platform)`
  (deno_install.ts:48) throws a TypeError at the first entry. The model
  gives each catalog entry an empty `platforms` list instead, so a run over
  this catalog selects nothing and ends with an empty log and no exception.
- Inventory.IsInstalled: assumes that probing a command returns whether
  `command -v` succeeded and never throws (software.ts:107-109).
  software.ts imports `finishProcess`, which run.ts does not define. If it
  throws on a non-zero exit, as the finishers run.ts does define do
  (run.ts:27-31, 37-41), then an absent command makes isInstalled throw
  instead of answering false. That would change the curl check
  (DenoInstall.RunScript) and both manager chains. Spawning the shell
  builtin `command` without a shell could also throw. Neither case is
  modelled.
- DenoInstall.HostCalls: the host's `commandExists` and `lstat` answers are
  fixed for the whole run, and the environment facts and every probe read the
  same answers. In the source each probe runs `command -v` at that moment
  (deno_install.ts:58), after the earlier entries' installs. So in the model an
  install never makes a later entry's probe true. For example, Insomnia and
  GitHub Desktop share the command name "insomnia" (software.ts:90-101). On a
  host without it, the source installs Insomnia and then skips GitHub Desktop
  as already installed, while the model installs both. The generic
  `DenoInstall.Process` takes its calls as a parameter and does not depend on
  this.
- `~` in a litmus file is passed to `lstat` unexpanded, as in the source.
  What `lstat` answers for it is up to the host.
- Paths.Join: does not normalise its result (no collapsing of `..`, `.` or
  repeated `/`). For example, a home directory ending in `/` gives `//` before
  `Downloads`.
- `Installers.MethodSteps` runs the Linux manual and WSL commands as
  `Run(["eval", command])`, as the source does. Whether such a process can
  start on a real host is not modelled.
