/** What the core asks of the process runner (run.ts), and the errors it
    throws. Running a process is not modelled: the core emits steps, and
    whether a step fails is an input of the model. */
module Runner {
  import opened Wrappers
  import opened Types

  datatype Step =
    | Run(argv: seq<string>)                     // run(argv), awaited; throws on a non-zero exit
    | Eval(command: string)                      // runEval(command), awaited; throws on a non-zero exit
    | EnsureDir(dir: string)                     // std ensureDir(dir), awaited
    | CallInstaller(installer: Hook, dir: string) // await tarballPackage.installer(dir)
    | StartPostInstall(hook: Hook)               // software.postInstall(), started and not awaited

  /** The argument vector runEval hands to the runner (run.ts:3-5). */
  function EvalArgv(command: string): (argv: seq<string>)
    ensures |argv| == 3 && argv[..2] == ["sh", "-c"] && argv[2] == command
  {
    ["sh", "-c", command]
  }

  /** The argument vector of the process a step spawns, if it spawns one:
      run hands its argv over as is, runEval wraps its command in `sh -c`;
      ensureDir, a tarball installer and a postInstall hook spawn nothing of
      their own here. */
  function SpawnedArgv(s: Step): (r: Option<seq<string>>)
    ensures r.Some? <==> s.Run? || s.Eval?
    ensures s.Run? ==> r == Some(s.argv)
    ensures s.Eval? ==> |r.value| == 3 && r.value[..2] == ["sh", "-c"] && r.value[2] == s.command
  {
    match s
    case Run(argv) => Some(argv)
    case Eval(command) => Some(EvalArgv(command))
    case _ => None
  }

  /** Whether the caller waits for the step, so that its failure becomes the caller's. */
  predicate Awaited(s: Step) {
    !s.StartPostInstall?
  }

  /** The errors the core throws. */
  datatype Failure =
    | UnknownOperatingSystem                     // installers.ts:13
    | NoMacMethod(name: string)                  // installers.ts:35
    | NoLinuxMethod(name: string)                // installers.ts:75
    | ProcessFailed(step: Step)                  // an awaited step threw (ProcessError and the like)
    | NotSureHowToCheck(name: string)            // software.ts:121
    | LstatFailed(path: string, error: string)   // software.ts:118, the re-thrown lstat error
    | CurlMissing                                // deno_install.ts:11
}
