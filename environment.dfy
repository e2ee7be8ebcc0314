/** The host facts of environment.ts. The environment variables and the
    "is this command installed" probe are inputs; the module constants become
    one record built by Facts. */
module Environment {
  import opened Wrappers

  predicate StartsWith(s: string, prefix: string) {
    |prefix| <= |s| && s[..|prefix|] == prefix
  }

  /** The environment variables read at load time (environment.ts:39-43);
      None is an unset variable. */
  datatype Variables = Variables(home: Option<string>, ostype: Option<string>, isWsl: Option<string>)

  /** What a `pgrep` invocation through runEval gave: an exit, or a throw. */
  datatype EvalOutcome = Exited(success: bool) | Threw

  /** isGnome (environment.ts:5-12): a throw of the probe reads as "no". */
  function IsGnome(pgrep: EvalOutcome): (r: bool)
    ensures r <==> pgrep == Exited(true)
    ensures pgrep.Threw? ==> !r
  {
    match pgrep
    case Exited(success) => success
    case Threw => false
  }

  function IsMac(osType: string): (r: bool)
    ensures r <==> StartsWith(osType, "darwin")
    ensures r ==> osType[0] == 'd'
  {
    StartsWith(osType, "darwin")
  }

  function IsLinux(osType: string): (r: bool)
    ensures r <==> StartsWith(osType, "linux-gnu")
    ensures r ==> osType[0] == 'l'
  {
    StartsWith(osType, "linux-gnu")
  }

  /** environment.ts:43: only a variable set to the empty string means "not WSL". */
  function IsWsl(isWslVariable: Option<string>): (r: bool)
    ensures !r <==> isWslVariable == Some("")
    ensures isWslVariable.None? ==> r
  {
    isWslVariable != Some("")
  }

  /** Reference definition of a fixed-priority detection chain: the first
      candidate that is installed, if any. */
  function FirstInstalled(candidates: seq<string>, installed: string -> bool): (r: Option<string>)
    ensures r.Some? ==> exists k :: 0 <= k < |candidates| && candidates[k] == r.value && installed(r.value)
                          && forall j :: 0 <= j < k ==> !installed(candidates[j])
    ensures r.None? <==> forall j :: 0 <= j < |candidates| ==> !installed(candidates[j])
  {
    if candidates == [] then None
    else if installed(candidates[0]) then Some(candidates[0])
    else
      var rest := FirstInstalled(candidates[1..], installed);
      assert forall j :: 1 <= j < |candidates| ==> candidates[j] == candidates[1..][j - 1];
      rest
  }

  /** getLinuxPackageManager (environment.ts:14-24). */
  function LinuxPackageManager(osType: string, installed: string -> bool): (r: Option<string>)
    ensures r == (if IsLinux(osType) then FirstInstalled(["apt", "eopkg"], installed) else None)
  {
    if !StartsWith(osType, "linux-gnu") then None
    else if installed("apt") then Some("apt")
    else if installed("eopkg") then Some("eopkg")
    else None
  }

  /** getLinuxThirdPartyPackageManager (environment.ts:26-36). */
  function LinuxThirdPartyPackageManager(osType: string, installed: string -> bool): (r: Option<string>)
    ensures r == (if IsLinux(osType) then FirstInstalled(["dpkg", "eopkg"], installed) else None)
  {
    if !StartsWith(osType, "linux-gnu") then None
    else if installed("dpkg") then Some("dpkg")
    else if installed("eopkg") then Some("eopkg")
    else None
  }

  /** The exported constants of environment.ts. */
  datatype Env = Env(
    homeDir: string,
    isMac: bool,
    isLinux: bool,
    isWsl: bool,
    tpm: Option<string>,   // linuxThirdPartyPackageManager
    pm: Option<string>)    // linuxPackageManager

  /** environment.ts:39-45, for given variables and a given "installed" probe. */
  function Facts(vars: Variables, installed: string -> bool): (env: Env)
    ensures env.homeDir == vars.home.GetOr("")
    ensures env.isMac == IsMac(vars.ostype.GetOr("")) && env.isLinux == IsLinux(vars.ostype.GetOr(""))
    ensures env.pm == LinuxPackageManager(vars.ostype.GetOr(""), installed)
    ensures env.tpm == LinuxThirdPartyPackageManager(vars.ostype.GetOr(""), installed)
    ensures env.isMac ==> !env.isLinux
    ensures vars.ostype.None? ==> !env.isMac && !env.isLinux
    ensures env.isWsl == IsWsl(vars.isWsl)
    ensures !env.isLinux ==> env.pm.None? && env.tpm.None?
    ensures env.pm.Some? ==> env.pm.value in {"apt", "eopkg"} && installed(env.pm.value)
    ensures env.tpm.Some? ==> env.tpm.value in {"dpkg", "eopkg"} && installed(env.tpm.value)
    ensures env.isLinux && installed("apt") ==> env.pm == Some("apt")
    ensures env.isLinux && installed("dpkg") ==> env.tpm == Some("dpkg")
  {
    var osType := vars.ostype.GetOr("");
    var isLinux := IsLinux(osType);
    Env(
      vars.home.GetOr(""),
      IsMac(osType),
      isLinux,
      IsWsl(vars.isWsl),
      if isLinux then LinuxThirdPartyPackageManager(osType, installed) else None,
      if isLinux then LinuxPackageManager(osType, installed) else None)
  }
}
