/** The SSH drawer: the connection commands for a VM, built from a user name
    and a port the user may edit, and which of the drawer's actions are
    available. The drawer's own VM type carries its status as a string. */
module SshDrawer {
  import opened Outcomes
  import VmModel
  import Text

  /** The part of a VM the drawer shows. */
  datatype Target = Target(id: string, name: string, ipAddress: string, status: string)

  /** The two editable inputs. */
  datatype Settings = Settings(username: string, port: string)

  /** The inputs as the drawer opens. */
  const DefaultSettings := Settings("ubuntu", "22")

  /** `sshCommand`. */
  function SshCommand(username: string, ip: string, port: string): string {
    "ssh " + username + "@" + ip + " -p " + port
  }

  /** `scpCommand`. */
  function ScpCommand(username: string, ip: string, port: string): string {
    "scp -P " + port + " file.txt " + username + "@" + ip + ":~/"
  }

  /** Reads an SSH command back into its user, host and port. */
  function ParseSsh(s: string): Option<(string, string, string)> {
    if |s| < 4 || s[..4] != "ssh " then None
    else
      match Text.SplitFirst(s[4..], '@')
      case Absent => None
      case Found(user, rest) =>
        match ParseHostPort(rest)
        case None => None
        case Some(h) => Some((user, h.0, h.1))
  }

  /** Reads `<host> -p <port>` back into its host and port. */
  function ParseHostPort(rest: string): Option<(string, string)> {
    match Text.SplitFirst(rest, ' ')
    case Absent => None
    case Found(host, flag) =>
      if |flag| < 3 || flag[..3] != "-p " then None
      else Some((host, flag[3..]))
  }

  /** Reads an SCP command back into its user, host and port. */
  function ParseScp(s: string): Option<(string, string, string)> {
    if |s| < 7 || s[..7] != "scp -P " then None
    else
      match Text.SplitFirst(s[7..], ' ')
      case Absent => None
      case Found(port, rest) =>
        match ParseDestination(rest)
        case None => None
        case Some(d) => Some((d.0, d.1, port))
  }

  /** Reads `file.txt <user>@<host>:~/` back into its user and host. */
  function ParseDestination(rest: string): Option<(string, string)> {
    if |rest| < 9 || rest[..9] != "file.txt " then None
    else
      match Text.SplitFirst(rest[9..], '@')
      case Absent => None
      case Found(user, dest) =>
        if |dest| < 3 || dest[|dest| - 3..] != ":~/" then None
        else Some((user, dest[..|dest| - 3]))
  }

  /** The SSH command names the user, the host and the port it was built from:
      read back, it gives them again, so distinct inputs give distinct commands.
      This holds when the user has no "@" and the host no space; the port is free. */
  lemma {:induction false} SshCommandReadsBack(username: string, ip: string, port: string)
    requires '@' !in username && ' ' !in ip
    ensures ParseSsh(SshCommand(username, ip, port)) == Some((username, ip, port))
  {
    var s := SshCommand(username, ip, port);
    assert s[..4] == "ssh ";
    assert s[4..] == username + ['@'] + (ip + " -p " + port);
    Text.SplitFirstAt(username, '@', ip + " -p " + port);
    HostPortReadsBack(ip, port);
  }

  lemma {:induction false} HostPortReadsBack(ip: string, port: string)
    requires ' ' !in ip
    ensures ParseHostPort(ip + " -p " + port) == Some((ip, port))
  {
    var flag := "-p " + port;
    assert ip + " -p " + port == ip + [' '] + flag;
    Text.SplitFirstAt(ip, ' ', flag);
    assert flag[..3] == "-p ";
    assert flag[3..] == port;
  }

  /** The SCP command likewise reads back to its user, host and port, when the
      port has no space and the user no "@"; the host is free. */
  lemma {:induction false} ScpCommandReadsBack(username: string, ip: string, port: string)
    requires ' ' !in port && '@' !in username
    ensures ParseScp(ScpCommand(username, ip, port)) == Some((username, ip, port))
  {
    var s := ScpCommand(username, ip, port);
    var tail := "file.txt " + username + "@" + ip + ":~/";
    assert s[..7] == "scp -P ";
    assert s[7..] == port + [' '] + tail;
    Text.SplitFirstAt(port, ' ', tail);
    DestinationReadsBack(username, ip);
  }

  lemma {:induction false} DestinationReadsBack(username: string, ip: string)
    requires '@' !in username
    ensures ParseDestination("file.txt " + username + "@" + ip + ":~/") == Some((username, ip))
  {
    var tail := "file.txt " + username + "@" + ip + ":~/";
    var t := ip + ":~/";
    assert tail[..9] == "file.txt ";
    assert tail[9..] == username + ['@'] + t;
    Text.SplitFirstAt(username, '@', t);
    HomeSuffix(ip);
  }

  lemma HomeSuffix(ip: string)
    ensures var t := ip + ":~/"; |t| >= 3 && t[|t| - 3..] == ":~/" && t[..|t| - 3] == ip
  {
    var t := ip + ":~/";
    assert t[|t| - 3..] == ":~/";
    assert t[..|t| - 3] == ip;
  }

  /** The two commands of one drawer address the same account: the user, host
      and port read from the SCP command are those read from the SSH command. */
  lemma CommandsAgree(s: Settings, ip: string)
    requires '@' !in s.username && ' ' !in ip && ' ' !in s.port
    ensures ParseSsh(SshCommand(s.username, ip, s.port)) == ParseScp(ScpCommand(s.username, ip, s.port))
    ensures ParseSsh(SshCommand(s.username, ip, s.port)).Some?
  {
    SshCommandReadsBack(s.username, ip, s.port);
    ScpCommandReadsBack(s.username, ip, s.port);
  }

  /** With the inputs untouched, the drawer offers `ssh ubuntu@<ip> -p 22`
      and copies files to the home directory of "ubuntu" on port 22. */
  lemma DefaultCommands(ip: string)
    ensures SshCommand(DefaultSettings.username, ip, DefaultSettings.port) == "ssh ubuntu@" + ip + " -p 22"
    ensures ScpCommand(DefaultSettings.username, ip, DefaultSettings.port) == "scp -P 22 file.txt ubuntu@" + ip + ":~/"
    ensures ' ' !in ip ==> ParseSsh(SshCommand(DefaultSettings.username, ip, DefaultSettings.port)) == Some(("ubuntu", ip, "22"))
  {
    if ' ' !in ip {
      SshCommandReadsBack("ubuntu", ip, "22");
    }
  }

  /** What the drawer shows for a VM. */
  datatype Panel = Panel(
    title: string,
    available: bool,
    badge: string,
    ipAddress: string,
    sshCommand: string,
    scpCommand: string,
    downloadKeyDisabled: bool,
    generateKeyDisabled: bool,
    addKeyDisabled: bool,
    webTerminalDisabled: bool,
    testConnectionDisabled: bool)

  /** The drawer for a VM, or nothing when no VM is selected. */
  function Render(vm: Option<Target>, s: Settings): Option<Panel> {
    match vm
    case None => None
    case Some(v) =>
      var running := v.status == "Running";
      Some(Panel(
        "SSH Connection - " + v.name,
        running,
        if running then "Available" else "Unavailable",
        v.ipAddress,
        SshCommand(s.username, v.ipAddress, s.port),
        ScpCommand(s.username, v.ipAddress, s.port),
        v.status != "Running",
        false,
        v.status != "Running",
        v.status != "Running",
        v.status != "Running"))
  }

  /** The drawer renders exactly when a VM is selected. Its badge reads
      "Available" exactly when the VM is Running and "Unavailable" otherwise;
      the four connection actions are disabled exactly when it is not Running;
      generating a key pair is never disabled. */
  lemma RenderAvailability(vm: Option<Target>, s: Settings)
    ensures Render(vm, s).Some? <==> vm.Some?
    ensures vm.Some? ==>
              var p := Render(vm, s).value;
              && (p.badge == "Available" <==> vm.value.status == "Running")
              && (p.badge == "Unavailable" <==> vm.value.status != "Running")
              && (p.downloadKeyDisabled <==> vm.value.status != "Running")
              && (p.addKeyDisabled <==> vm.value.status != "Running")
              && (p.webTerminalDisabled <==> vm.value.status != "Running")
              && (p.testConnectionDisabled <==> vm.value.status != "Running")
              && !p.generateKeyDisabled
              && (p.available <==> !p.downloadKeyDisabled)
  {
    var a, u := "Available", "Unavailable";
    assert a[0] != u[0];
  }

  /** The commands shown are those of the VM's address and the current inputs,
      and they change when the user edits either input. */
  lemma RenderCommands(v: Target, s: Settings, s': Settings)
    requires '@' !in s.username && '@' !in s'.username && ' ' !in v.ipAddress
    ensures Render(Some(v), s).value.ipAddress == v.ipAddress
    ensures ParseSsh(Render(Some(v), s).value.sshCommand) == Some((s.username, v.ipAddress, s.port))
    ensures s != s' ==> Render(Some(v), s).value.sshCommand != Render(Some(v), s').value.sshCommand
  {
    SshCommandReadsBack(s.username, v.ipAddress, s.port);
    SshCommandReadsBack(s'.username, v.ipAddress, s'.port);
  }

  /** The status string the dashboard passes for a status. */
  function StatusName(st: VmModel.Status): string {
    match st
    case Running => "Running"
    case Idling => "Idling"
    case Terminated => "Terminated"
    case Starting => "Starting"
    case Stopping => "Stopping"
  }

  /** The drawer's view of a dashboard VM. */
  function TargetOf(v: VmModel.VM): Target {
    Target(v.id, v.name, v.ipAddress, StatusName(v.status))
  }

  /** For a VM of the dashboard, the drawer's actions are available exactly
      when the VM is Running: no other status is spelled "Running". */
  lemma AvailableIffRunning(v: VmModel.VM, s: Settings)
    ensures Render(Some(TargetOf(v)), s).value.available <==> v.status == VmModel.Running
    ensures Render(Some(TargetOf(v)), s).value.webTerminalDisabled <==> v.status != VmModel.Running
  {
    var n := StatusName(v.status);
    assert v.status != VmModel.Running ==> n[0] != 'R' || |n| != 7;
  }
}
