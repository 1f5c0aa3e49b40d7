/** The two closed action vocabularies consumed by a provisioning strategy. */
module Actions {

  /**
   * What to do with a named package. Go's PackageAction is an integer type
   * with three named values; `Other(code)` is any value outside them.
   */
  datatype PackageAction = Install | Remove | Upgrade | Other(code: int)

  /** What to do with a named service. */
  datatype ServiceAction = Restart | Start | Stop | Enable | Disable | DaemonReload
  {
    /** The lower-case token placed inside a service-control command line. */
    function Token(): (t: string)
      ensures t != [] && ' ' !in t
    {
      match this
      case Restart => "restart"
      case Start => "start"
      case Stop => "stop"
      case Enable => "enable"
      case Disable => "disable"
      case DaemonReload => "daemon-reload"
    }
  }

  /** Distinct service actions render to distinct tokens. */
  lemma TokenInjective(a: ServiceAction, b: ServiceAction)
    requires a.Token() == b.Token()
    ensures a == b
  {
  }
}
