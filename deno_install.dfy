/** deno_install.ts: the curl precondition, the selection of catalog entries,
    and the loop of doInstall that skips, pretends or installs each one. */
module DenoInstall {
  import opened Wrappers
  import opened Types
  import opened Runner
  import opened Environment
  import opened Inventory
  import opened Installers

  /** The options doInstall receives from the command line (deno_install.ts:24-28). */
  datatype Options = Options(dryRun: bool, softwareIds: Option<seq<string>>, force: bool)

  /** What the host answers during a run: its environment variables, the
      current platform, whether a command exists, what lstat does for a path,
      and whether a step fails when run. */
  datatype Host = Host(
    vars: Variables,
    platform: string,
    commandExists: string -> bool,
    lstat: string -> LstatResult,
    fails: Step -> bool)

  /** The two calls the loop makes for an entry, isInstalled(software) and
      install(software); each returns or throws. */
  datatype Calls = Calls(
    probe: Software -> Result<bool, Failure>,
    install: Software -> Result<seq<Step>, Failure>)

  /** The constants environment.ts computes on this host; its
      `isInstalled(name)` probes are the command test (Inventory.NamedProbesCommand). */
  function HostEnv(host: Host): Env {
    Facts(host.vars, host.commandExists)
  }

  /** The two calls as the rest of the model defines them, on a given host. */
  function HostCalls(host: Host): Calls {
    Calls((sw: Software) => IsInstalled(Entry(sw), host.commandExists, host.lstat),
          (sw: Software) => Install(sw, HostEnv(host), host.fails))
  }

  /** What the loop reports for one entry (deno_install.ts:57-70). */
  datatype Event =
    | AlreadyInstalled(name: string)             // "is already installed", install not called
    | PretendedInstalled(name: string)           // dry run: success reported, install not called
    | Installed(name: string, ran: seq<Step>)    // install returned; the steps it started

  /** The events of a run, and the exception that ended it early, if any. */
  datatype Report = Report(log: seq<Event>, failure: Option<Failure>)

  // ---------------------------------------------------------------------------
  // Selection (deno_install.ts:47-54)

  /** Array.prototype.filter: the kept elements, in their order. */
  function Filter<T(!new)>(xs: seq<T>, keep: T -> bool): (ys: seq<T>)
    ensures |ys| <= |xs|
    ensures forall y :: y in ys <==> y in xs && keep(y)
  {
    if xs == [] then []
    else
      var rest := Filter(xs[1..], keep);
      assert forall y :: y in xs <==> y == xs[0] || y in xs[1..];
      if keep(xs[0]) then [xs[0]] + rest else rest
  }

  /** Filtering keeps every kept element exactly as often as it occurs. */
  lemma {:induction false} FilterCounts<T(!new)>(xs: seq<T>, keep: T -> bool, y: T)
    ensures multiset(Filter(xs, keep))[y] == if keep(y) then multiset(xs)[y] else 0
  {
    if xs != [] {
      FilterCounts(xs[1..], keep, y);
      assert xs == [xs[0]] + xs[1..];
    }
  }

  /** Filtering a concatenation filters each part, keeping the parts in order. */
  lemma {:induction false} FilterAppend<T(!new)>(a: seq<T>, b: seq<T>, keep: T -> bool)
    ensures Filter(a + b, keep) == Filter(a, keep) + Filter(b, keep)
  {
    if a == [] {
      assert a + b == b;
    } else {
      var ab := a + b;
      assert ab[0] == a[0] && ab[1..] == a[1..] + b;
      FilterAppend(a[1..], b, keep);
      if keep(a[0]) {
        assert Filter(ab, keep) == [a[0]] + Filter(a[1..] + b, keep);
        assert [a[0]] + (Filter(a[1..], keep) + Filter(b, keep)) == ([a[0]] + Filter(a[1..], keep)) + Filter(b, keep);
      }
    }
  }

  /** shouldBeInstalled: the entry declares the current platform and, when
      an id list is given and not empty, its idified name is in the list. */
  predicate ShouldBeInstalled(sw: Software, opts: Options, platform: string, idify: string -> string) {
    var ids := opts.softwareIds.GetOr([]);
    platform in sw.platforms && (|ids| == 0 || idify(sw.name) in ids)
  }

  /** softwareToInstall (deno_install.ts:54) over the non-UI and the UI
      lists. With no ids (or an empty list) an entry is selected iff it
      declares the platform; with ids, iff it also has its idified name
      listed. Selected non-UI entries come before selected UI entries. */
  function SoftwareToInstall(nonUi: seq<Software>, ui: seq<Software>, opts: Options, platform: string,
                             idify: string -> string): (r: seq<Software>)
    ensures (opts.softwareIds.None? || opts.softwareIds == Some([])) ==>
              forall sw :: sw in r <==> sw in nonUi + ui && platform in sw.platforms
    ensures opts.softwareIds.Some? && opts.softwareIds.value != [] ==>
              forall sw :: sw in r <==>
                sw in nonUi + ui && platform in sw.platforms && idify(sw.name) in opts.softwareIds.value
    ensures var keep := (sw: Software) => ShouldBeInstalled(sw, opts, platform, idify);
            r == Filter(nonUi, keep) + Filter(ui, keep)
  {
    var keep := (sw: Software) => ShouldBeInstalled(sw, opts, platform, idify);
    FilterAppend(nonUi, ui, keep);
    Filter(nonUi + ui, keep)
  }

  /** Each selected entry is processed as often as it occurs in the lists,
      and an entry that is not selected never. */
  lemma SelectionCounts(nonUi: seq<Software>, ui: seq<Software>, opts: Options, platform: string,
                        idify: string -> string, sw: Software)
    ensures multiset(SoftwareToInstall(nonUi, ui, opts, platform, idify))[sw]
            == if ShouldBeInstalled(sw, opts, platform, idify) then multiset(nonUi + ui)[sw] else 0
  {
    var keep := (sw: Software) => ShouldBeInstalled(sw, opts, platform, idify);
    FilterAppend(nonUi, ui, keep);
    FilterCounts(nonUi + ui, keep, sw);
  }

  // ---------------------------------------------------------------------------
  // One entry, and the whole loop

  /** One iteration of the loop (deno_install.ts:57-71): probe; skip when
      installed and not forced; otherwise pretend under a dry run, or install.
      An exception from isInstalled or install ends the iteration. */
  function Visit(sw: Software, opts: Options, calls: Calls): (r: Result<Event, Failure>)
    ensures r.Ok? ==> r.value.name == sw.name
    ensures (r.Ok? && r.value.AlreadyInstalled?) <==> calls.probe(sw) == Ok(true) && !opts.force
    ensures opts.dryRun ==> !(r.Ok? && r.value.Installed?)
    ensures opts.dryRun ==> (r.Err? <==> calls.probe(sw).Err?)
    ensures r.Ok? && r.value.Installed? ==> calls.install(sw) == Ok(r.value.ran)
    ensures r.Err? ==>
              calls.probe(sw) == Err(r.error)
              || (calls.probe(sw).Ok? && !opts.dryRun && calls.install(sw) == Err(r.error))
    ensures r.Ok? && r.value.PretendedInstalled? ==> opts.dryRun
    ensures calls.probe(sw).Err? ==> r == Err(calls.probe(sw).error)
    ensures calls.probe(sw).Ok? && !(calls.probe(sw).value && !opts.force) && !opts.dryRun ==>
              match calls.install(sw)
              case Ok(ran) => r == Ok(Installed(sw.name, ran))
              case Err(e) => r == Err(e)
  {
    match calls.probe(sw)
    case Err(e) => Err(e)
    case Ok(installed) =>
      if installed && !opts.force then Ok(AlreadyInstalled(sw.name))
      else if opts.dryRun then Ok(PretendedInstalled(sw.name))
      else
        match calls.install(sw)
        case Err(e) => Err(e)
        case Ok(ran) => Ok(Installed(sw.name, ran))
  }

  /** The loop over the selected entries (deno_install.ts:56-72). There is no
      try/catch: the first exception ends the run, and no later entry is
      probed or installed. */
  function Process(entries: seq<Software>, opts: Options, calls: Calls): (r: Report)
    ensures |r.log| <= |entries|
    ensures r.failure.None? ==> |r.log| == |entries|
    ensures r.failure.Some? ==> |r.log| < |entries|
  {
    if entries == [] then Report([], None)
    else
      match Visit(entries[0], opts, calls)
      case Err(e) => Report([], Some(e))
      case Ok(event) =>
        var rest := Process(entries[1..], opts, calls);
        Report([event] + rest.log, rest.failure)
  }

  /** Running a + b runs a and, only when a ended without an exception, b. */
  lemma {:induction false} ProcessAppend(a: seq<Software>, b: seq<Software>, opts: Options, calls: Calls)
    ensures Process(a + b, opts, calls) ==
            if Process(a, opts, calls).failure.Some? then Process(a, opts, calls)
            else Report(Process(a, opts, calls).log + Process(b, opts, calls).log, Process(b, opts, calls).failure)
  {
    if a == [] {
      assert a + b == b;
    } else {
      var ab := a + b;
      assert ab[0] == a[0] && ab[1..] == a[1..] + b;
      match Visit(a[0], opts, calls)
      case Err(e) =>
        assert Process(ab, opts, calls) == Report([], Some(e));
        assert Process(a, opts, calls) == Report([], Some(e));
      case Ok(event) =>
        ProcessAppend(a[1..], b, opts, calls);
        var rest := Process(a[1..], opts, calls);
        var both := Process(a[1..] + b, opts, calls);
        assert Process(ab, opts, calls) == Report([event] + both.log, both.failure);
        assert Process(a, opts, calls) == Report([event] + rest.log, rest.failure);
        if rest.failure.None? {
          var tail := Process(b, opts, calls).log;
          assert [event] + (rest.log + tail) == ([event] + rest.log) + tail;
        }
    }
  }

  /** The run ends early exactly at an entry whose visit threw, with that exception. */
  lemma {:induction false} ProcessStopsAtFailure(entries: seq<Software>, opts: Options, calls: Calls)
    ensures var r := Process(entries, opts, calls);
            r.failure.Some? ==> Visit(entries[|r.log|], opts, calls) == Err(r.failure.value)
  {
    if entries != [] && Visit(entries[0], opts, calls).Ok? {
      ProcessStopsAtFailure(entries[1..], opts, calls);
      var r := Process(entries, opts, calls);
      if r.failure.Some? {
        assert entries[|r.log|] == entries[1..][|r.log| - 1];
      }
    }
  }

  /** Every logged event is what visiting the entry at its position gave. */
  lemma {:induction false} ProcessLogsVisits(entries: seq<Software>, opts: Options, calls: Calls)
    ensures var r := Process(entries, opts, calls);
            forall i :: 0 <= i < |r.log| ==> Visit(entries[i], opts, calls) == Ok(r.log[i])
  {
    if entries != [] && Visit(entries[0], opts, calls).Ok? {
      ProcessLogsVisits(entries[1..], opts, calls);
      var r := Process(entries, opts, calls);
      forall i | 1 <= i < |r.log|
        ensures Visit(entries[i], opts, calls) == Ok(r.log[i])
      {
        assert entries[i] == entries[1..][i - 1];
      }
    }
  }

  /** The body of the loop for one entry (deno_install.ts:58-70), as the
      statements run it: the probe, then the skip, the dry run or the install. */
  method InstallEntry(sw: Software, opts: Options, calls: Calls) returns (r: Result<Event, Failure>)
    ensures r == Visit(sw, opts, calls)
  {
    var installed := calls.probe(sw);
    if installed.Err? {
      return Err(installed.error);
    }
    if installed.value && !opts.force {
      r := Ok(AlreadyInstalled(sw.name));
    } else if opts.dryRun {
      r := Ok(PretendedInstalled(sw.name));
    } else {
      var outcome := calls.install(sw);
      if outcome.Err? {
        return Err(outcome.error);
      }
      r := Ok(Installed(sw.name, outcome.value));
    }
  }

  /** The loop of doInstall (deno_install.ts:56-72): the log it writes, and
      the exception that ended it early, are those of Process. */
  method InstallAll(selected: seq<Software>, opts: Options, calls: Calls) returns (log: seq<Event>, failure: Option<Failure>)
    ensures Report(log, failure) == Process(selected, opts, calls)
  {
    ghost var whole := Process(selected, opts, calls);
    log := [];
    failure := None;
    var i := 0;
    while i < |selected| && failure.None?
      invariant 0 <= i <= |selected|
      invariant failure.None? ==>
                  whole == Report(log + Process(selected[i..], opts, calls).log, Process(selected[i..], opts, calls).failure)
      invariant failure.Some? ==> whole == Report(log, failure)
    {
      assert selected[i..][0] == selected[i] && selected[i..][1..] == selected[i + 1..];
      var outcome := InstallEntry(selected[i], opts, calls);
      if outcome.Err? {
        failure := Some(outcome.error);
      } else {
        ghost var next := Process(selected[i + 1..], opts, calls);
        assert log + ([outcome.value] + next.log) == (log + [outcome.value]) + next.log;
        log := log + [outcome.value];
      }
      i := i + 1;
    }
    if failure.None? {
      assert selected[i..] == [];
    }
  }

  /** doInstall (deno_install.ts:46-74): select the entries, then run the loop over them. */
  method DoInstall(opts: Options, platform: string, idify: string -> string,
                   nonUi: seq<Software>, ui: seq<Software>, calls: Calls)
    returns (log: seq<Event>, failure: Option<Failure>)
    ensures Report(log, failure) == Process(SoftwareToInstall(nonUi, ui, opts, platform, idify), opts, calls)
  {
    var selected := SoftwareToInstall(nonUi, ui, opts, platform, idify);
    log, failure := InstallAll(selected, opts, calls);
  }

  /** The script (deno_install.ts:10-12, 23-29): without curl it throws before
      any entry is looked at; otherwise it runs doInstall over the catalog
      with the host's isInstalled and install. */
  method RunScript(opts: Options, host: Host, idify: string -> string) returns (log: seq<Event>, failure: Option<Failure>)
    ensures !host.commandExists("curl") ==> log == [] && failure == Some(CurlMissing)
    ensures host.commandExists("curl") ==>
              Report(log, failure)
              == Process(SoftwareToInstall(NonUiCatalog, UiCatalog, opts, host.platform, idify), opts, HostCalls(host))
  {
    var curl := IsInstalled(Named("curl"), host.commandExists, host.lstat);
    if curl != Ok(true) {
      return [], Some(CurlMissing);
    }
    log, failure := DoInstall(opts, host.platform, idify, NonUiCatalog, UiCatalog, HostCalls(host));
  }

  // ---------------------------------------------------------------------------
  // Properties of a run

  /** Under a dry run install is never called, yet every entry that is not
      skipped is reported as a success; only a failing probe can end the run. */
  lemma {:induction false} DryRunNeverInstalls(entries: seq<Software>, opts: Options, calls: Calls)
    requires opts.dryRun
    ensures var r := Process(entries, opts, calls);
            && (forall i :: 0 <= i < |r.log| ==> !r.log[i].Installed?)
            && (r.failure.Some? ==> calls.probe(entries[|r.log|]).Err?)
  {
    if entries != [] && Visit(entries[0], opts, calls).Ok? {
      DryRunNeverInstalls(entries[1..], opts, calls);
    }
  }

  /** With force, no entry is skipped as already installed; outside a dry
      run every logged entry was installed. */
  lemma {:induction false} ForceNeverSkips(entries: seq<Software>, opts: Options, calls: Calls)
    requires opts.force
    ensures forall e :: e in Process(entries, opts, calls).log ==> !e.AlreadyInstalled?
    ensures !opts.dryRun ==> forall e :: e in Process(entries, opts, calls).log ==> e.Installed?
  {
    if entries != [] && Visit(entries[0], opts, calls).Ok? {
      ForceNeverSkips(entries[1..], opts, calls);
    }
  }

  /** Without force, an entry is skipped exactly when its probe said it is installed. */
  lemma SkipIffInstalled(sw: Software, opts: Options, calls: Calls)
    requires !opts.force
    ensures calls.probe(sw) == Ok(true) <==> Visit(sw, opts, calls) == Ok(AlreadyInstalled(sw.name))
  {
  }

  /** An exception at an entry ends the run there: whatever follows is never
      visited, so changing it changes nothing. */
  lemma AbortIgnoresLaterEntries(a: seq<Software>, b: seq<Software>, b': seq<Software>, opts: Options, calls: Calls)
    requires Process(a, opts, calls).failure.Some?
    ensures Process(a + b, opts, calls) == Process(a + b', opts, calls) == Process(a, opts, calls)
  {
    ProcessAppend(a, b, opts, calls);
    ProcessAppend(a, b', opts, calls);
  }

  /** The run visits the selected non-UI entries before the selected UI ones,
      and reaches the UI ones only if no non-UI entry threw. */
  lemma NonUiBeforeUi(nonUi: seq<Software>, ui: seq<Software>, opts: Options, platform: string,
                      idify: string -> string, calls: Calls)
    ensures var keep := (sw: Software) => ShouldBeInstalled(sw, opts, platform, idify);
            var first := Process(Filter(nonUi, keep), opts, calls);
            var second := Process(Filter(ui, keep), opts, calls);
            Process(SoftwareToInstall(nonUi, ui, opts, platform, idify), opts, calls)
            == if first.failure.Some? then first else Report(first.log + second.log, second.failure)
  {
    var keep := (sw: Software) => ShouldBeInstalled(sw, opts, platform, idify);
    ProcessAppend(Filter(nonUi, keep), Filter(ui, keep), opts, calls);
  }

  /** On a real host, an entry reported as installed ran its whole install
      plan (the platform installer's commands and the postInstall start) and
      none of its awaited commands failed. */
  lemma InstalledRanItsPlan(sw: Software, opts: Options, host: Host)
    requires Visit(sw, opts, HostCalls(host)).Ok? && Visit(sw, opts, HostCalls(host)).value.Installed?
    ensures var ran := Visit(sw, opts, HostCalls(host)).value.ran;
            && Plan(sw, HostEnv(host)) == Ok(ran)
            && forall s :: s in ran ==> !(Awaited(s) && host.fails(s))
  {
  }
}
