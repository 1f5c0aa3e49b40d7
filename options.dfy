/**
 * The option records a strategy receives from its caller, with the fields
 * the Alpine strategy or the collaborators it calls read or write. The
 * strategy itself names only the engine's install URL, storage driver and
 * environment and the swarm environment; it stores and passes on the rest.
 */
module Options {

  /** engine.Options: which engine build to install and how to run it. */
  datatype EngineOptions = EngineOptions(installUrl: string, storageDriver: string, env: seq<string>)

  /** auth.Options: where the TLS material lives, locally and on the remote host. */
  datatype AuthOptions = AuthOptions(
    certDir: string,
    caCertRemotePath: string,
    serverCertRemotePath: string,
    serverKeyRemotePath: string)

  /** swarm.Options: clustering role, discovery endpoint and environment. */
  datatype SwarmOptions = SwarmOptions(isSwarm: bool, master: bool, discovery: string, env: seq<string>)

  /** The zero values a freshly constructed strategy holds. */
  const NoEngineOptions := EngineOptions("", "", [])
  const NoAuthOptions := AuthOptions("", "", "", "")
  const NoSwarmOptions := SwarmOptions(false, false, "", [])

  /** drivers.DefaultEngineInstallURL. */
  const DefaultEngineInstallUrl := "https://get.docker.com"
}
