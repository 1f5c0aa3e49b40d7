# Alpine provisioning strategy

This project models the Alpine Linux strategy of docker-machine's
provisioning layer (`libmachine/provision/alpine.go`). The strategy is how
a freshly booted Alpine host becomes a configured Docker node. It turns
package, service, hostname and provisioning requests into shell command
lines and collaborator steps. It sends them to the host one at a time, and
it returns the host's first error unchanged.

The model has five parts:

- `Actions` holds the two action vocabularies: package actions, and service
  actions with their command-line tokens.
- `Options` holds the engine, auth and swarm option records, reduced to the
  fields the strategy or the collaborators it calls read or write. The
  strategy itself names only the engine's install URL, storage driver and
  environment, and the swarm environment.
- `Transport` holds the host and the fail-fast reference semantics.
  - Each request is an `Event`: a literal command, or one step of a
    collaborator.
  - A `Driver` says, for each position in the trace of requests, whether the
    host refuses the request issued there and with which error.
  - `FailFast(d, start, plan)` issues a plan in order and stops at the first
    refusal. `Run.Then`, `Run.Step` and `Run.Continue` chain runs the way
    the Go code chains `if err != nil { return err }`.
- `AlpineCommands` holds the literal command lines: the hosts-file cleanup,
  `sudo apk upgrade`, `sudo reboot`, `sudo rc-service <name> <action>` and
  `sudo rc-update add|del <name> boot`.
- `Alpine` holds the strategy itself.
  - Each operation has a specification function: `UpgradeRun`,
    `PackageRun`, `SetHostnamePlan`, `PrepareRun` and `ProvisionRun`.
  - Lemmas about those functions carry the strategy's promises.
  - The class `AlpineProvisioner` has the strategy's fields and an
    append-only `trace` of issued requests. Each method is proved to append
    exactly the requests of its specification run and to return its error.

Two behaviours of the code that the model keeps as written:

- An action without a translation still sends the empty command line to
  the host and returns its answer (alpine.go:58-68).
  `PackageIssuesOneCommand` states this.
- The engine environment is copied only onto the local `swarmOptions`
  (alpine.go:79). That copy reaches `configureSwarm`, and the stored
  `SwarmOptions`, assigned at alpine.go:76, keeps the caller's environment.
  `ClusterSwarmOptions` and `Provision` state this.

## Model

| member | source | states |
|---|---|---|
| Actions.ServiceAction.Token | libmachine/provision/alpine.go:45 | the action's token is a non-empty word with no space in it |
| Actions.TokenInjective | libmachine/provision/alpine.go:45 | distinct service actions render to distinct tokens |
| Transport.FailFast | libmachine/provision/alpine.go:87-122 | the reference semantics of a chain of `if err != nil { return err }` steps: issue the plan in order from a trace position, stop at the first request the host refuses, and return its error unchanged |
| Transport.FailFastIssuesPrefix | libmachine/provision/alpine.go:87-122 | a fail-fast run issues a prefix of its plan; all of it on success; on failure, up to the refused step, whose error it returns |
| Transport.FailFastSucceedsIff | libmachine/provision/alpine.go:87-122 | a plan succeeds if and only if the host accepts every one of its positions |
| Transport.FailFastIsFirstFailure | libmachine/provision/alpine.go:87-122 | if step k is the first refused, exactly steps 0..k are issued and step k's error is returned; if none is refused, the whole plan is issued with no error |
| Transport.FailFastAppend | libmachine/provision/alpine.go:87-122 | running p + q is running p, then q from where p stopped, only if p succeeded |
| Transport.FailFastStops | libmachine/provision/alpine.go:87-122 | after a failed prefix, nothing more is issued and the error is kept |
| Transport.FailFastExtend | libmachine/provision/alpine.go:87-122 | after a successful prefix, the next step is issued at the next position and its answer is the result |
| Transport.FailFastRefusedStep | libmachine/provision/alpine.go:87-122 | a step refused after a successful prefix ends any longer plan there, with that step's error |
| Transport.ContinueIsAppend | libmachine/provision/alpine.go:87-97 | continuing a run with a further plan is the run of the concatenated plan |
| Transport.FailFastSingle | libmachine/provision/alpine.go:66-68 | a single request is issued and answered at its own position |
| Transport.StepIsAppend | libmachine/provision/alpine.go:99-122 | one further step after a run is the run of the plan extended by that step |
| AlpineCommands.ServiceCommand | libmachine/provision/alpine.go:45 | the service line starts with `sudo rc-service ` and ends with the action's token |
| AlpineCommands.PackageCommand | libmachine/provision/alpine.go:58-64 | the command is empty exactly for the actions without a translation (Upgrade and every unnamed value); Install gives an `rc-update add` line, Remove an `rc-update del` line |
| AlpineCommands.LastWordUnique | libmachine/provision/alpine.go:45 | a line `head + " " + word`, whose word has no space, splits into head and word in only one way |
| AlpineCommands.ServiceCommandInjective | libmachine/provision/alpine.go:45 | equal service lines have the same service name and the same action |
| AlpineCommands.PackageCommandInjective | libmachine/provision/alpine.go:58-64 | equal non-empty package lines have the same package name and the same action |
| AlpineCommands.InstallDiffersFromRemove | libmachine/provision/alpine.go:60-63 | Install and Remove of the same package send different lines |
| Alpine.UpgradeRun | libmachine/provision/alpine.go:142-156 | upgrade: `sudo apk upgrade`, and, only if that is accepted, `sudo reboot` with its answer discarded and no error |
| Alpine.PackageRun | libmachine/provision/alpine.go:54-71 | Package: the upgrade procedure for `("docker", Upgrade)`, otherwise the single translated line, answered by the host |
| Alpine.SetHostnamePlan | libmachine/provision/alpine.go:125-140 | SetHostname's three steps in order: the hosts-file cleanup, the generic SetHostname, the hostname template |
| Alpine.EngineSelectionPlan | libmachine/provision/alpine.go:99-106 | the engine-selection step, present only when the install URL is not the default |
| Alpine.PreparePlan | libmachine/provision/alpine.go:87-110 | the steps of an accepted Provision up to the options directory as one list: the hostname plan, one Install per package, the optional selection, the options directory |
| Alpine.ProvisionPlan | libmachine/provision/alpine.go:87-122 | the steps of an accepted Provision as one list: the hostname plan, one Install per package, the optional selection, the options directory, auth, swarm |
| Alpine.ClusterSwarmOptions | libmachine/provision/alpine.go:79 | the swarm options handed to the swarm step: the caller's, with the engine's environment |
| Alpine.PrepareRun | libmachine/provision/alpine.go:87-110 | Provision's steps up to the options directory, chained fail-fast as in the code: SetHostname, the package loop, the optional engine selection, the options directory |
| Alpine.ProvisionRun | libmachine/provision/alpine.go:73-123 | Provision: the storage-driver error with no request, or PrepareRun followed by auth with the rewritten options and swarm with the swarm copy, fail-fast |
| Alpine.UpgradeOutcome | libmachine/provision/alpine.go:142-156 | upgrade fails exactly when `sudo apk upgrade` is refused, with that error and nothing else issued; otherwise it issues `sudo reboot` after it and succeeds |
| Alpine.UpgradeIgnoresReboot | libmachine/provision/alpine.go:150-154 | whatever the host answers to the reboot, refusal or success, upgrade's issued requests and result are the same |
| Alpine.UpgradeIgnoresDriverName | libmachine/provision/alpine.go:143-144 | the driver's name does not change upgrade's requests or result |
| Alpine.PackageIssuesOneCommand | libmachine/provision/alpine.go:54-71 | outside `("docker", Upgrade)`, Package issues exactly its translated line, the empty line for an untranslated action, and returns the host's answer unchanged |
| Alpine.DockerOtherActionSendsEmptyLine | libmachine/provision/alpine.go:55-68 | `"docker"` with a value outside the three named actions does not take the upgrade route: it sends the empty line and returns the host's answer |
| Alpine.DockerUpgradeIssuesNoBootCommand | libmachine/provision/alpine.go:55-57 | `Package("docker", Upgrade)` is the upgrade procedure and issues no boot-registration line |
| Alpine.InstallThenRemove | libmachine/provision/alpine.go:58-63 | Install then Remove of one package issues exactly `sudo rc-update add <name> boot` then `sudo rc-update del <name> boot` |
| Alpine.SetHostnameCleanupFirst | libmachine/provision/alpine.go:125-130 | if the hosts-file cleanup is refused, SetHostname returns its error and issues neither the generic step nor the template |
| Alpine.ResolveStorageDriver | libmachine/provision/alpine.go:81-85 | the storage driver is accepted if and only if it is empty or `overlay`; an accepted driver becomes `overlay`; any other gives the error `Unsupported storage driver: <value>` |
| Alpine.ResolveStorageDriverIdempotent | libmachine/provision/alpine.go:81-85 | an accepted driver is a fixed point of the check: resolving `overlay` accepts it unchanged |
| Alpine.InstallPlan | libmachine/provision/alpine.go:92-97 | one Install request per listed package |
| Alpine.InstallPlanAt | libmachine/provision/alpine.go:92-97 | the j-th Install request is `sudo rc-update add <packages[j]> boot` |
| Alpine.InstallPlanSplit | libmachine/provision/alpine.go:92-97 | the Install requests of a list are those of its prefix followed by those of its suffix |
| Alpine.InstallStep | libmachine/provision/alpine.go:92-97 | after i accepted Installs, the next is issued at the next position; if it is refused, the package loop ends there with its error |
| Alpine.ProvisionRunIsPlan | libmachine/provision/alpine.go:87-122 | with an accepted storage driver, Provision is the fail-fast run of its plan: hostname, packages, optional engine selection, options directory, auth, swarm |
| Alpine.ProvisionRejectsStorageDriver | libmachine/provision/alpine.go:81-85 | an unsupported storage driver is rejected with its own error before any request is issued |
| Alpine.ProvisionStopsAtFirstFailure | libmachine/provision/alpine.go:87-122 | Provision issues its plan up to and including the first refused step and returns that step's error unchanged; if no step is refused, it issues the whole plan and succeeds |
| Alpine.ProvisionPlanOrder | libmachine/provision/alpine.go:87-122 | the plan is the three hostname steps, one Install per package in list order, engine selection when the URL is not the default, the options directory, auth, then swarm |
| Alpine.ProvisionPlanCollaboratorsOnce | libmachine/provision/alpine.go:99-122 | engine selection appears if and only if the URL is not the default; auth and swarm appear only in the last two places, with the rewritten auth options and the swarm copy |
| Alpine.AlpineProvisioner.constructor | libmachine/provision/alpine.go:21-34 | a new strategy has packages `["docker"]`, options directory `/etc/docker`, daemon options file `/etc/conf.d/docker`, release id `alpine`, empty options, an empty trace, and its name is `alpine` |
| Alpine.AlpineProvisioner.Issue | libmachine/provision/alpine.go:46-48 | one SSHCommand call: the request is appended to the trace and the host's answer at that position is returned |
| Alpine.AlpineProvisioner.Service | libmachine/provision/alpine.go:44-52 | Service issues `sudo rc-service <name> <token>` and returns the host's answer unchanged |
| Alpine.AlpineProvisioner.Package | libmachine/provision/alpine.go:54-71 | Package appends exactly the requests of `PackageRun` and returns its error |
| Alpine.AlpineProvisioner.Upgrade | libmachine/provision/alpine.go:142-156 | upgrade appends exactly the requests of `UpgradeRun` and returns its error |
| Alpine.AlpineProvisioner.SetHostname | libmachine/provision/alpine.go:125-140 | SetHostname runs its three steps fail-fast: cleanup, the generic step, the template |
| Alpine.AlpineProvisioner.InstallPackages | libmachine/provision/alpine.go:92-97 | the package loop runs the Install requests fail-fast, in list order |
| Alpine.AlpineProvisioner.PrepareHost | libmachine/provision/alpine.go:87-110 | hostname, packages, the optional engine selection and the options directory are run fail-fast, in that order |
| Alpine.AlpineProvisioner.Provision | libmachine/provision/alpine.go:73-123 | Provision stores the three option sets. `SwarmOptions` keeps the caller's value. `EngineOptions` has its storage driver defaulted. `AuthOptions` is rewritten exactly when the run gets past the options directory. Provision appends exactly the requests of `ProvisionRun` and returns its error |

## Left out

- `init` (alpine.go:15-19) registers the strategy in the provisioner registry. The registry is not part of this model.
- Logging (`log.Debugf`, `log.Infof`) has no observable effect on the host and is left out.
- The SSH transport is outside the model. Its behaviour is the driver's `outcomes` map, which says which requests the host refuses. The output of a command is ignored by every call in the strategy, so it is not modelled.
- The bodies of the collaborators are outside the model. These are `GenericProvisioner.SetHostname`, `selectDocker`, `makeDockerOptionsDir`, `ConfigureAuth`, `configureSwarm` and `setRemoteAuthOptions`. The first five are each modelled as one step that the host may refuse. A collaborator that sends several commands of its own is therefore seen as one request with one outcome.
- `setRemoteAuthOptions` is a parameter of `Provision`, the function `rewrite`, applied to the options directory and the stored auth options.
- The text of `hostnameTmpl` is defined outside alpine.go. The template step is the event `HostnameTemplate(hostname)`.
- The `serviceaction` and `pkgaction` packages are not part of this model.
  - The service tokens `restart`, `start`, `stop`, `enable`, `disable` and `daemon-reload` are modelled as those packages define them.
  - Go's `PackageAction` is an integer type. The model has its three named values and `Other(code)` for any value outside them; only the named `Upgrade` sends `"docker"` to the upgrade procedure. The numeric values of the named constants are not modelled.
  - Service-action values outside the six named ones are not modelled; what `action.String()` (alpine.go:45) renders for such a value is defined in the `serviceaction` package.
- `drivers.DefaultEngineInstallURL` is defined outside alpine.go. It is modelled as the constant `https://get.docker.com`.
- The option records keep only the fields the strategy or the collaborators it calls read or write; the auth fields and the swarm role and discovery fields are only stored and passed on whole by the strategy. The rest of `GenericProvisioner` (its other methods and fields) is not part of this model.
- `fmt.Errorf("Unsupported storage driver: %s", v)` is modelled as string concatenation into an `Error` message.
- `String` has no contract of its own. Its value `"alpine"` is stated by the constructor's contract.
