/** The literal shell command lines the Alpine strategy sends to the host. */
module AlpineCommands {
  import opened Actions

  /** Drops the 127.0.1.1 line from the bind-mounted hosts file, rewriting it in place. */
  const HostsCleanupCommand := "sed /127.0.1.1/d /etc/hosts > /tmp/hosts && cat /tmp/hosts | sudo tee /etc/hosts"
  const ApkUpgradeCommand := "sudo apk upgrade"
  const RebootCommand := "sudo reboot"

  const ServicePrefix := "sudo rc-service "
  const BootAddPrefix := "sudo rc-update add "
  const BootDelPrefix := "sudo rc-update del "
  const BootSuffix := " boot"

  /** The service-supervisor command for `action` on service `name`. */
  function ServiceCommand(name: string, action: ServiceAction): (cmd: string)
    ensures ServicePrefix <= cmd
    ensures |action.Token()| < |cmd| && cmd[|cmd| - |action.Token()|..] == action.Token()
  {
    ServicePrefix + (name + " " + action.Token())
  }

  /**
   * The boot-registration command for `action` on package `name`. Upgrade
   * and the unnamed values have no case in the translation, so they leave
   * the command empty.
   */
  function PackageCommand(name: string, action: PackageAction): (cmd: string)
    ensures cmd == "" <==> !(action.Install? || action.Remove?)
    ensures action.Install? ==> BootAddPrefix <= cmd
    ensures action.Remove? ==> BootDelPrefix <= cmd
  {
    match action
    case Install => BootAddPrefix + name + BootSuffix
    case Remove => BootDelPrefix + name + BootSuffix
    case _ => ""
  }

  /** Lines that share a head agree on the rest. */
  lemma PrefixCancel(p: string, a: string, b: string)
    requires p + a == p + b
    ensures a == b
  {
    assert a == (p + a)[|p|..];
    assert b == (p + b)[|p|..];
  }

  /** Splitting a line at its last space is unique when the last word has no space. */
  lemma LastWordUnique(x1: string, t1: string, x2: string, t2: string)
    requires x1 + " " + t1 == x2 + " " + t2
    requires ' ' !in t1 && ' ' !in t2
    ensures x1 == x2 && t1 == t2
  {
    var u := x1 + " " + t1;
    var v := x2 + " " + t2;
    var n := |u|;
    // each line has exactly one space after its head: the one just before the last word
    assert u[|x1|] == ' ' && v[|x2|] == ' ';
    assert forall i :: |x1| < i < n ==> u[i] == t1[i - |x1| - 1] != ' ';
    assert forall i :: |x2| < i < n ==> v[i] == t2[i - |x2| - 1] != ' ';
    if |x1| != |x2| {
      assert false;
    }
    assert t1 == u[n - |t1|..] && t2 == v[n - |t2|..];
    assert x1 == u[..|x1|] && x2 == v[..|x2|];
  }

  /** A service command names its service and its action: distinct requests give distinct lines. */
  lemma ServiceCommandInjective(n1: string, a1: ServiceAction, n2: string, a2: ServiceAction)
    requires ServiceCommand(n1, a1) == ServiceCommand(n2, a2)
    ensures n1 == n2 && a1 == a2
  {
    PrefixCancel(ServicePrefix, n1 + " " + a1.Token(), n2 + " " + a2.Token());
    LastWordUnique(n1, a1.Token(), n2, a2.Token());
    TokenInjective(a1, a2);
  }

  /** A non-empty package command names its package and its action. */
  lemma PackageCommandInjective(n1: string, a1: PackageAction, n2: string, a2: PackageAction)
    requires PackageCommand(n1, a1) == PackageCommand(n2, a2) != ""
    ensures n1 == n2 && a1 == a2
  {
    var c := PackageCommand(n1, a1);
    assert c[15] == (if a1.Install? then 'a' else 'd');
    assert c[15] == (if a2.Install? then 'a' else 'd');
    assert |n1| == |c| - 24 == |n2|;
    assert n1 == c[19..|c| - 5];
    assert n2 == c[19..|c| - 5];
  }

  /** Install and Remove of the same package differ, so the host can tell them apart. */
  lemma InstallDiffersFromRemove(name: string)
    ensures PackageCommand(name, Install) != PackageCommand(name, Remove)
  {
    assert PackageCommand(name, Install)[15] != PackageCommand(name, Remove)[15];
  }
}
