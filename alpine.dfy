/**
 * The Alpine provisioning strategy: how it turns package, service, hostname
 * and provisioning requests into requests to the host, in which order, and
 * which error it returns.
 *
 * Each operation is specified by a Run: the requests it issues and the
 * error it returns, as a function of the driver's transport and the trace
 * position the operation starts at. The class's methods are proved to
 * append exactly that Run's requests to the trace.
 */
module Alpine {
  import opened Actions
  import opened Options
  import opened Transport
  import opened AlpineCommands

  // ---------------------------------------------------------------- upgrade

  /**
   * `upgrade`: upgrade every package; only if that succeeds, reboot. The
   * reboot's answer is discarded, because a successful reboot closes the
   * very connection that requested it.
   */
  function UpgradeRun(d: Driver, start: nat): Run
  {
    var upgrade := FailFast(d, start, [Command(ApkUpgradeCommand)]);
    if upgrade.err.Some? then upgrade else Run(upgrade.issued + [Command(RebootCommand)], None)
  }

  /** upgrade fails exactly when `apk upgrade` fails, with its error; reboot follows only a success. */
  lemma UpgradeOutcome(d: Driver, start: nat)
    ensures UpgradeRun(d, start).err == d.OutcomeAt(start)
    ensures UpgradeRun(d, start).issued
         == if start in d.outcomes then [Command(ApkUpgradeCommand)]
            else [Command(ApkUpgradeCommand), Command(RebootCommand)]
  {
    FailFastSingle(d, start, Command(ApkUpgradeCommand));
  }

  /** Whatever the host answers to the reboot, upgrade's result is the same. */
  lemma UpgradeIgnoresReboot(d: Driver, start: nat, e: Option<Error>)
    ensures var d' := d.(outcomes := if e.Some? then d.outcomes[start + 1 := e.value]
                                     else d.outcomes - {start + 1});
            UpgradeRun(d', start) == UpgradeRun(d, start)
  {
    var d' := d.(outcomes := if e.Some? then d.outcomes[start + 1 := e.value] else d.outcomes - {start + 1});
    assert start in d'.outcomes <==> start in d.outcomes;
    UpgradeOutcome(d, start);
    UpgradeOutcome(d', start);
  }

  /** upgrade has a single, default branch: the driver's name does not change what it does. */
  lemma UpgradeIgnoresDriverName(d: Driver, start: nat, name: string)
    ensures UpgradeRun(d.(driverName := name), start) == UpgradeRun(d, start)
  {
    UpgradeOutcome(d, start);
    UpgradeOutcome(d.(driverName := name), start);
  }

  // ---------------------------------------------------------------- Package

  /** `Package`: ("docker", Upgrade) is the upgrade procedure; everything else is one command. */
  function PackageRun(d: Driver, start: nat, name: string, action: PackageAction): Run
  {
    if name == "docker" && action == Upgrade then UpgradeRun(d, start)
    else FailFast(d, start, [Command(PackageCommand(name, action))])
  }

  /**
   * Outside the upgrade route, Package issues exactly its boot-registration
   * command (the empty command for an action without a translation) and
   * returns the host's answer unchanged.
   */
  lemma PackageIssuesOneCommand(d: Driver, start: nat, name: string, action: PackageAction)
    requires !(name == "docker" && action == Upgrade)
    ensures PackageRun(d, start, name, action) == Run([Command(PackageCommand(name, action))], d.OutcomeAt(start))
  {
    FailFastSingle(d, start, Command(PackageCommand(name, action)));
  }

  /**
   * Only the named Upgrade value takes the upgrade route: "docker" with a
   * value outside the three named ones sends the empty line like any other.
   */
  lemma DockerOtherActionSendsEmptyLine(d: Driver, start: nat, code: int)
    ensures PackageRun(d, start, "docker", Other(code)) == Run([Command("")], d.OutcomeAt(start))
  {
  }

  /** ("docker", Upgrade) never touches the boot set: it issues only upgrade's commands. */
  lemma DockerUpgradeIssuesNoBootCommand(d: Driver, start: nat)
    ensures PackageRun(d, start, "docker", Upgrade) == UpgradeRun(d, start)
    ensures forall e :: e in PackageRun(d, start, "docker", Upgrade).issued ==>
              e.Command? && !(BootAddPrefix <= e.text) && !(BootDelPrefix <= e.text)
  {
    UpgradeOutcome(d, start);
    assert !(BootAddPrefix <= ApkUpgradeCommand) && !(BootAddPrefix <= RebootCommand);
    assert !(BootDelPrefix <= ApkUpgradeCommand) && !(BootDelPrefix <= RebootCommand);
  }

  /** Install then Remove of one package issues exactly the add/remove pair, in that order. */
  lemma InstallThenRemove(d: Driver, start: nat, name: string)
    ensures PackageRun(d, start, name, Install).issued + PackageRun(d, start + 1, name, Remove).issued
         == [Command(BootAddPrefix + name + BootSuffix), Command(BootDelPrefix + name + BootSuffix)]
  {
    PackageIssuesOneCommand(d, start, name, Install);
    PackageIssuesOneCommand(d, start + 1, name, Remove);
  }

  // ------------------------------------------------------------ SetHostname

  /** The Alpine override of SetHostname: cleanup of /etc/hosts, the generic step, the persistence template. */
  function SetHostnamePlan(hostname: string): seq<Event>
  {
    [Command(HostsCleanupCommand), BaseSetHostname(hostname), HostnameTemplate(hostname)]
  }

  /** If the hosts-file cleanup fails, neither the generic step nor the template is issued. */
  lemma SetHostnameCleanupFirst(d: Driver, start: nat, hostname: string)
    requires start in d.outcomes
    ensures FailFast(d, start, SetHostnamePlan(hostname))
         == Run([Command(HostsCleanupCommand)], Some(d.outcomes[start]))
  {
  }

  // -------------------------------------------------------------- Provision

  /** The only storage driver this family supports; an empty request defaults to it. */
  const SupportedStorageDriver := "overlay"

  /** The storage-driver check of Provision, made before any request is issued. */
  function ResolveStorageDriver(requested: string): (r: Result<string>)
    ensures r.Ok? <==> requested in {"", SupportedStorageDriver}
    ensures r.Ok? ==> r.value == SupportedStorageDriver
    ensures r.Err? ==> r.error == Error("Unsupported storage driver: " + requested)
  {
    if requested == "" then Ok(SupportedStorageDriver)
    else if requested != SupportedStorageDriver then Err(Error("Unsupported storage driver: " + requested))
    else Ok(requested)
  }

  /** An accepted driver is a fixed point of the check: resolving its result accepts it unchanged. */
  lemma ResolveStorageDriverIdempotent(requested: string)
    requires ResolveStorageDriver(requested).Ok?
    ensures ResolveStorageDriver(ResolveStorageDriver(requested).value) == ResolveStorageDriver(requested)
  {
  }

  /** One Install request per listed package, in list order. */
  function InstallPlan(packages: seq<string>): (plan: seq<Event>)
    ensures |plan| == |packages|
    decreases |packages|
  {
    if packages == [] then []
    else [Command(PackageCommand(packages[0], Install))] + InstallPlan(packages[1..])
  }

  lemma {:induction false} InstallPlanAt(packages: seq<string>, j: nat)
    requires j < |packages|
    ensures InstallPlan(packages)[j] == Command(BootAddPrefix + packages[j] + BootSuffix)
    decreases |packages|
  {
    if j > 0 {
      InstallPlanAt(packages[1..], j - 1);
    }
  }

  lemma {:induction false} InstallPlanSplit(packages: seq<string>, i: nat)
    requires i <= |packages|
    ensures InstallPlan(packages) == InstallPlan(packages[..i]) + InstallPlan(packages[i..])
    decreases i
  {
    if i > 0 {
      InstallPlanSplit(packages[1..], i - 1);
      assert packages[1..][..i - 1] == packages[..i][1..];
      assert packages[1..][i - 1..] == packages[i..];
    } else {
      assert packages[..0] == [];
    }
  }

  /**
   * The i-th Install after i accepted ones is issued at the next position;
   * if the host refuses it, the run of all the Installs ends there.
   */
  lemma InstallStep(d: Driver, start: nat, packages: seq<string>, i: nat)
    requires i < |packages|
    requires FailFast(d, start, InstallPlan(packages[..i])).err.None?
    ensures InstallPlan(packages[..i + 1]) == InstallPlan(packages[..i]) + [Command(PackageCommand(packages[i], Install))]
    ensures FailFast(d, start, InstallPlan(packages[..i + 1]))
         == Run(InstallPlan(packages[..i + 1]), d.OutcomeAt(start + i))
    ensures start + i in d.outcomes ==>
              FailFast(d, start, InstallPlan(packages)) == FailFast(d, start, InstallPlan(packages[..i + 1]))
  {
    var cmd := Command(PackageCommand(packages[i], Install));
    InstallPlanSplit(packages[..i + 1], i);
    assert packages[..i + 1][..i] == packages[..i];
    assert packages[..i + 1][i..] == [packages[i]];
    assert InstallPlan([packages[i]]) == [cmd];
    FailFastExtend(d, start, InstallPlan(packages[..i]), cmd);
    if start + i in d.outcomes {
      InstallPlanSplit(packages, i + 1);
      FailFastStops(d, start, InstallPlan(packages[..i + 1]), InstallPlan(packages[i + 1..]));
    }
  }

  /** The engine-selection step runs only for a non-default install URL. */
  function EngineSelectionPlan(installUrl: string): seq<Event>
  {
    if installUrl == DefaultEngineInstallUrl then [] else [SelectDocker(installUrl)]
  }

  /** Every step of Provision before the authentication material is rewritten. */
  function PreparePlan(hostname: string, packages: seq<string>, installUrl: string): seq<Event>
  {
    SetHostnamePlan(hostname) + InstallPlan(packages) + EngineSelectionPlan(installUrl) + [MakeDockerOptionsDir]
  }

  /**
   * Every step of a Provision whose storage driver is accepted. `swarm` is
   * the copy handed to the swarm step; `auth` the rewritten auth options.
   */
  function ProvisionPlan(hostname: string, packages: seq<string>, installUrl: string,
                         swarm: SwarmOptions, auth: AuthOptions): seq<Event>
  {
    PreparePlan(hostname, packages, installUrl) + [ConfigureAuth(auth), ConfigureSwarm(swarm, auth)]
  }

  /** The swarm options the swarm step receives: the caller's, with the engine's environment. */
  function ClusterSwarmOptions(swarm: SwarmOptions, engine: EngineOptions): SwarmOptions
  {
    swarm.(env := engine.env)
  }

  /**
   * The steps of an accepted Provision up to the options directory, each
   * issued from where the previous one stopped and only if it succeeded.
   */
  function PrepareRun(d: Driver, start: nat, packages: seq<string>, installUrl: string): Run
  {
    var installed := FailFast(d, start, SetHostnamePlan(d.machineName)).Continue(d, start, InstallPlan(packages));
    var selected := if installUrl == DefaultEngineInstallUrl then installed
                    else installed.Step(d, start, SelectDocker(installUrl));
    selected.Step(d, start, MakeDockerOptionsDir)
  }

  /**
   * Provision from trace position `start`: storage-driver check first, then
   * the plan, fail-fast. `dockerDir` is the strategy's options directory and
   * `rewrite` the collaborator that derives remote-path auth options.
   */
  function ProvisionRun(d: Driver, start: nat, packages: seq<string>, dockerDir: string,
                        swarm: SwarmOptions, auth: AuthOptions, engine: EngineOptions,
                        rewrite: (string, AuthOptions) -> AuthOptions): Run
  {
    match ResolveStorageDriver(engine.storageDriver)
    case Err(e) => Run([], Some(e))
    case Ok(_) =>
      var remote := rewrite(dockerDir, auth);
      PrepareRun(d, start, packages, engine.installUrl)
        .Step(d, start, ConfigureAuth(remote))
        .Step(d, start, ConfigureSwarm(ClusterSwarmOptions(swarm, engine), remote))
  }

  /** With an accepted storage driver, Provision is the fail-fast run of ProvisionPlan. */
  lemma ProvisionRunIsPlan(d: Driver, start: nat, packages: seq<string>, dockerDir: string,
                           swarm: SwarmOptions, auth: AuthOptions, engine: EngineOptions,
                           rewrite: (string, AuthOptions) -> AuthOptions)
    requires engine.storageDriver in {"", SupportedStorageDriver}
    ensures ProvisionRun(d, start, packages, dockerDir, swarm, auth, engine, rewrite)
         == FailFast(d, start, ProvisionPlan(d.machineName, packages, engine.installUrl,
                                             ClusterSwarmOptions(swarm, engine), rewrite(dockerDir, auth)))
  {
    var remote := rewrite(dockerDir, auth);
    var p1 := SetHostnamePlan(d.machineName);
    var p2 := p1 + InstallPlan(packages);
    var p3 := p2 + EngineSelectionPlan(engine.installUrl);
    var p4 := p3 + [MakeDockerOptionsDir];
    var p5 := p4 + [ConfigureAuth(remote)];
    var p6 := p5 + [ConfigureSwarm(ClusterSwarmOptions(swarm, engine), remote)];
    ContinueIsAppend(d, start, p1, InstallPlan(packages));
    if engine.installUrl == DefaultEngineInstallUrl {
      assert p3 == p2;
    } else {
      StepIsAppend(d, start, p2, SelectDocker(engine.installUrl));
    }
    StepIsAppend(d, start, p3, MakeDockerOptionsDir);
    StepIsAppend(d, start, p4, ConfigureAuth(remote));
    StepIsAppend(d, start, p5, ConfigureSwarm(ClusterSwarmOptions(swarm, engine), remote));
    assert p6 == ProvisionPlan(d.machineName, packages, engine.installUrl, ClusterSwarmOptions(swarm, engine), remote);
  }

  /** An unsupported storage driver is rejected with its own error and no request at all. */
  lemma ProvisionRejectsStorageDriver(d: Driver, start: nat, packages: seq<string>, dockerDir: string,
                                      swarm: SwarmOptions, auth: AuthOptions, engine: EngineOptions,
                                      rewrite: (string, AuthOptions) -> AuthOptions)
    requires engine.storageDriver != "" && engine.storageDriver != SupportedStorageDriver
    ensures ProvisionRun(d, start, packages, dockerDir, swarm, auth, engine, rewrite)
         == Run([], Some(Error("Unsupported storage driver: " + engine.storageDriver)))
  {
  }

  /**
   * With an accepted storage driver, Provision issues a prefix of its plan:
   * everything up to and including the first refused step, whose error it
   * returns unchanged, or the whole plan when the host accepts every step.
   */
  lemma ProvisionStopsAtFirstFailure(d: Driver, start: nat, packages: seq<string>, dockerDir: string,
                                     swarm: SwarmOptions, auth: AuthOptions, engine: EngineOptions,
                                     rewrite: (string, AuthOptions) -> AuthOptions, k: nat)
    requires engine.storageDriver in {"", SupportedStorageDriver}
    requires var plan := ProvisionPlan(d.machineName, packages, engine.installUrl,
                                       ClusterSwarmOptions(swarm, engine), rewrite(dockerDir, auth));
             k <= |plan| && (k < |plan| ==> start + k in d.outcomes)
    requires forall j :: start <= j < start + k ==> j !in d.outcomes
    ensures var plan := ProvisionPlan(d.machineName, packages, engine.installUrl,
                                      ClusterSwarmOptions(swarm, engine), rewrite(dockerDir, auth));
            (ProvisionRun(d, start, packages, dockerDir, swarm, auth, engine, rewrite)
             == if k < |plan| then Run(plan[..k + 1], Some(d.outcomes[start + k])) else Run(plan, None))
  {
    var plan := ProvisionPlan(d.machineName, packages, engine.installUrl,
                              ClusterSwarmOptions(swarm, engine), rewrite(dockerDir, auth));
    ProvisionRunIsPlan(d, start, packages, dockerDir, swarm, auth, engine, rewrite);
    FailFastIsFirstFailure(d, start, plan, k);
  }

  /**
   * The order of the plan: the three hostname steps, one Install per
   * package in list order, engine selection exactly when the install URL
   * is not the default, the options directory, then authentication and
   * swarm configuration, the last two with the rewritten auth options.
   */
  lemma ProvisionPlanOrder(hostname: string, packages: seq<string>, installUrl: string,
                           swarm: SwarmOptions, auth: AuthOptions)
    ensures var plan := ProvisionPlan(hostname, packages, installUrl, swarm, auth);
            var s := if installUrl == DefaultEngineInstallUrl then 0 else 1;
            && |plan| == 3 + |packages| + s + 3
            && plan[..3] == SetHostnamePlan(hostname)
            && (forall j :: 0 <= j < |packages| ==> plan[3 + j] == Command(BootAddPrefix + packages[j] + BootSuffix))
            && (installUrl != DefaultEngineInstallUrl ==> plan[3 + |packages|] == SelectDocker(installUrl))
            && plan[|plan| - 3] == MakeDockerOptionsDir
            && plan[|plan| - 2] == ConfigureAuth(auth)
            && plan[|plan| - 1] == ConfigureSwarm(swarm, auth)
  {
    var plan := ProvisionPlan(hostname, packages, installUrl, swarm, auth);
    var installs := InstallPlan(packages);
    assert plan == SetHostnamePlan(hostname) + installs + EngineSelectionPlan(installUrl)
                   + [MakeDockerOptionsDir, ConfigureAuth(auth), ConfigureSwarm(swarm, auth)];
    forall j | 0 <= j < |packages|
      ensures plan[3 + j] == Command(BootAddPrefix + packages[j] + BootSuffix)
    {
      InstallPlanAt(packages, j);
      assert plan[3 + j] == installs[j];
    }
  }

  /**
   * Selection, authentication and swarm each appear at most once, and only
   * where ProvisionPlanOrder puts them: engine selection occurs iff the URL
   * is not the default, and neither collaborator is ever handed other
   * options than the ones given.
   */
  lemma ProvisionPlanCollaboratorsOnce(hostname: string, packages: seq<string>, installUrl: string,
                                       swarm: SwarmOptions, auth: AuthOptions)
    ensures var plan := ProvisionPlan(hostname, packages, installUrl, swarm, auth);
            && ((exists j :: 0 <= j < |plan| && plan[j].SelectDocker?) <==> installUrl != DefaultEngineInstallUrl)
            && (forall j :: 0 <= j < |plan| && plan[j].ConfigureAuth? ==> j == |plan| - 2 && plan[j].auth == auth)
            && (forall j :: 0 <= j < |plan| && plan[j].ConfigureSwarm? ==>
                  j == |plan| - 1 && plan[j].swarm == swarm && plan[j].auth == auth)
  {
    var plan := ProvisionPlan(hostname, packages, installUrl, swarm, auth);
    var installs := InstallPlan(packages);
    var sel := EngineSelectionPlan(installUrl);
    var n := 3 + |packages|;
    assert plan == SetHostnamePlan(hostname) + installs + sel
                   + [MakeDockerOptionsDir, ConfigureAuth(auth), ConfigureSwarm(swarm, auth)];
    forall j | 0 <= j < |packages| ensures installs[j].Command? {
      InstallPlanAt(packages, j);
    }
    forall j | 0 <= j < |plan| && j < n ensures plan[j].Command? || plan[j].BaseSetHostname? || plan[j].HostnameTemplate? {
      if j >= 3 { assert plan[j] == installs[j - 3]; }
    }
    if installUrl != DefaultEngineInstallUrl {
      assert plan[n].SelectDocker?;
    }
  }

  // ------------------------------------------------------------ the strategy

  /** The Alpine strategy bound to one driver, with the generic base's fields it uses. */
  class AlpineProvisioner {
    const driver: Driver
    var packages: seq<string>
    var dockerOptionsDir: string
    var daemonOptionsFile: string
    var osReleaseId: string
    var swarmOptions: SwarmOptions
    var authOptions: AuthOptions
    var engineOptions: EngineOptions
    /** Every request issued to the host through this strategy, oldest first. */
    var trace: seq<Event>

    /** NewAlpineProvisioner: the strategy's fixed configuration. */
    constructor (d: Driver)
      ensures driver == d && trace == []
      ensures packages == ["docker"]
      ensures dockerOptionsDir == "/etc/docker" && daemonOptionsFile == "/etc/conf.d/docker"
      ensures osReleaseId == "alpine" && String() == "alpine"
      ensures swarmOptions == NoSwarmOptions && authOptions == NoAuthOptions && engineOptions == NoEngineOptions
    {
      driver := d;
      packages := ["docker"];
      dockerOptionsDir := "/etc/docker";
      daemonOptionsFile := "/etc/conf.d/docker";
      osReleaseId := "alpine";
      swarmOptions, authOptions, engineOptions := NoSwarmOptions, NoAuthOptions, NoEngineOptions;
      trace := [];
    }

    function String(): string
    {
      "alpine"
    }

    /**
     * The single chokepoint: SSHCommand for a Command event, or one step
     * of a collaborator. The host answers by the request's trace position.
     */
    method Issue(e: Event) returns (err: Option<Error>)
      modifies this`trace
      ensures trace == old(trace) + [e]
      ensures err == driver.OutcomeAt(|old(trace)|)
    {
      err := driver.OutcomeAt(|trace|);
      trace := trace + [e];
    }

    method Service(name: string, action: ServiceAction) returns (err: Option<Error>)
      modifies this`trace
      ensures trace == old(trace) + [Command(ServiceCommand(name, action))]
      ensures err == driver.OutcomeAt(|old(trace)|)
    {
      err := Issue(Command(ServiceCommand(name, action)));
    }

    method Package(name: string, action: PackageAction) returns (err: Option<Error>)
      modifies this`trace
      ensures var r := PackageRun(driver, |old(trace)|, name, action);
              trace == old(trace) + r.issued && err == r.err
    {
      if name == "docker" && action == PackageAction.Upgrade {
        err := Upgrade();
        return;
      }
      err := Issue(Command(PackageCommand(name, action)));
      PackageIssuesOneCommand(driver, |old(trace)|, name, action);
    }

    /** `upgrade`: the same two commands whatever the driver's name. */
    method Upgrade() returns (err: Option<Error>)
      modifies this`trace
      ensures var r := UpgradeRun(driver, |old(trace)|);
              trace == old(trace) + r.issued && err == r.err
    {
      UpgradeOutcome(driver, |trace|);
      match driver.driverName {
        case _ =>
          err := Issue(Command(ApkUpgradeCommand));
          if err.Some? {
            return;
          }
          // The reboot closes the connection that requested it, so its answer
          // cannot tell success from failure: it is discarded by design.
          var ignored := Issue(Command(RebootCommand));
          err := None;
      }
    }

    method SetHostname(hostname: string) returns (err: Option<Error>)
      modifies this`trace
      ensures var r := FailFast(driver, |old(trace)|, SetHostnamePlan(hostname));
              trace == old(trace) + r.issued && err == r.err
    {
      ghost var start := |trace|;
      ghost var plan := SetHostnamePlan(hostname);
      FailFastExtend(driver, start, [], plan[0]);
      err := Issue(Command(HostsCleanupCommand));
      if err.Some? {
        FailFastStops(driver, start, plan[..1], plan[1..]);
        assert plan == plan[..1] + plan[1..];
        return;
      }
      assert plan[..1] + [plan[1]] == plan[..2];
      FailFastExtend(driver, start, plan[..1], plan[1]);
      err := Issue(BaseSetHostname(hostname));
      if err.Some? {
        FailFastStops(driver, start, plan[..2], plan[2..]);
        assert plan == plan[..2] + plan[2..];
        return;
      }
      assert plan[..2] + [plan[2]] == plan;
      FailFastExtend(driver, start, plan[..2], plan[2]);
      err := Issue(HostnameTemplate(hostname));
      assert plan == plan[..2] + [plan[2]];
    }

    /**
     * The package loop of Provision: one Install per listed package, in
     * list order, stopping at the first refused one.
     */
    method InstallPackages() returns (err: Option<Error>)
      modifies this`trace
      ensures var r := FailFast(driver, |old(trace)|, InstallPlan(packages));
              trace == old(trace) + r.issued && err == r.err
    {
      ghost var t0, s0 := trace, |trace|;
      err := None;
      var i := 0;
      assert packages[..0] == [];
      while i < |packages|
        invariant 0 <= i <= |packages|
        invariant FailFast(driver, s0, InstallPlan(packages[..i])) == Run(InstallPlan(packages[..i]), None)
        invariant trace == t0 + InstallPlan(packages[..i]) && err.None?
      {
        err := Package(packages[i], Install);
        PackageIssuesOneCommand(driver, s0 + i, packages[i], Install);
        InstallStep(driver, s0, packages, i);
        if err.Some? {
          return;
        }
        i := i + 1;
      }
      assert packages[..i] == packages;
    }

    /**
     * The host preparation of Provision: hostname, packages, engine
     * selection, options directory. It has no counterpart in the strategy;
     * it only splits Provision's body so that each half is proved on its own.
     */
    method PrepareHost(installUrl: string) returns (err: Option<Error>)
      modifies this`trace
      ensures var r := PrepareRun(driver, |old(trace)|, packages, installUrl);
              trace == old(trace) + r.issued && err == r.err
    {
      ghost var t0, s0 := trace, |trace|;
      ghost var r1 := FailFast(driver, s0, SetHostnamePlan(driver.machineName));
      ghost var r2 := r1.Continue(driver, s0, InstallPlan(packages));
      ghost var r3 := if installUrl == DefaultEngineInstallUrl then r2
                      else r2.Step(driver, s0, SelectDocker(installUrl));

      err := SetHostname(driver.machineName);
      if err.Some? {
        assert r3 == r2 == r1;
        return;
      }

      err := InstallPackages();
      AppendAssoc(t0, r1.issued, FailFast(driver, |t0 + r1.issued|, InstallPlan(packages)).issued);
      if err.Some? {
        assert r3 == r2;
        return;
      }

      if installUrl != DefaultEngineInstallUrl {
        err := Issue(SelectDocker(installUrl));
        AppendAssoc(t0, r2.issued, [SelectDocker(installUrl)]);
        if err.Some? {
          return;
        }
      }

      err := Issue(MakeDockerOptionsDir);
      AppendAssoc(t0, r3.issued, [MakeDockerOptionsDir]);
    }

    /**
     * Provision: record the three option sets, check the storage driver,
     * then run ProvisionPlan fail-fast. The stored swarm options keep the
     * caller's environment; only the copy handed to the swarm step carries
     * the engine's. The auth options are rewritten exactly when the run
     * gets past the options directory.
     */
    method Provision(swarm: SwarmOptions, auth: AuthOptions, engine: EngineOptions,
                     rewrite: (string, AuthOptions) -> AuthOptions)
      returns (err: Option<Error>)
      modifies this
      ensures packages == old(packages) && dockerOptionsDir == old(dockerOptionsDir)
      ensures daemonOptionsFile == old(daemonOptionsFile) && osReleaseId == old(osReleaseId)
      ensures var r := ProvisionRun(driver, |old(trace)|, old(packages), old(dockerOptionsDir),
                                    swarm, auth, engine, rewrite);
              && trace == old(trace) + r.issued && err == r.err
              && authOptions == if ResolveStorageDriver(engine.storageDriver).Ok?
                                   && PrepareRun(driver, |old(trace)|, old(packages), engine.installUrl).err.None?
                                then rewrite(old(dockerOptionsDir), auth) else auth
      ensures swarmOptions == swarm
      ensures engineOptions == if engine.storageDriver == "" then engine.(storageDriver := SupportedStorageDriver) else engine
    {
      swarmOptions := swarm;
      authOptions := auth;
      engineOptions := engine;
      var clusterSwarm := ClusterSwarmOptions(swarm, engine);

      if engineOptions.storageDriver == "" {
        engineOptions := engineOptions.(storageDriver := SupportedStorageDriver);
      } else if engineOptions.storageDriver != SupportedStorageDriver {
        return Some(Error("Unsupported storage driver: " + engineOptions.storageDriver));
      }

      ghost var t0, s0 := trace, |trace|;
      ghost var remote := rewrite(dockerOptionsDir, auth);
      ghost var r4 := PrepareRun(driver, s0, packages, engine.installUrl);
      ghost var r5 := r4.Step(driver, s0, ConfigureAuth(remote));

      err := PrepareHost(engine.installUrl);
      if err.Some? {
        return;
      }

      authOptions := rewrite(dockerOptionsDir, authOptions);
      err := Issue(ConfigureAuth(authOptions));
      AppendAssoc(t0, r4.issued, [ConfigureAuth(remote)]);
      if err.Some? {
        return;
      }

      err := Issue(ConfigureSwarm(clusterSwarm, authOptions));
      AppendAssoc(t0, r5.issued, [ConfigureSwarm(clusterSwarm, remote)]);
    }
  }
}
