/** The WayVNC side of src/wayland_vnc/runtime.py and of `Actions` in src/wayland_vnc/settings.py:
    what each operation does to the two files and to the running server. The backend is WayVNC,
    `systemctl` is there, and the commands themselves succeed. */
module Runtime {
  import opened Results
  import opened PyText
  import opened ConfigText

  const LOOPBACK := "127.0.0.1"
  const LAN := "0.0.0.0"
  const DEFAULT_PORT := 5900

  /** The files of the configuration directory, and the configuration an active server has loaded. */
  datatype Machine = Machine(
    credentials: Option<string>,
    config: Option<string>,
    key: bool,
    server: Option<string>,
    keyPath: string)

  type Outcome = Result<Machine>

  function BindAddress(m: Machine): (string, int) {
    match ReadConfig(m.config)
    case Some(bind) => bind
    case None => (LOOPBACK, DEFAULT_PORT)
  }

  // ----- what each operation does

  /** Either the machine after the operation, or the machine it leaves when it raises. */
  datatype Step = Done(m: Machine) | Raised(m: Machine, error: string)

  function PasswordSet(m: Machine, c: Credentials): Step {
    if Acceptable(c) then Done(m.(credentials := Some(CredentialsText(c)))) else Raised(m, "ValueError")
  }

  function Provisioned(m: Machine, address: string, port: int): Step {
    if !UsablePort(port) then Raised(m, "ValueError")
    else
      var n := m.(key := true);
      match ReadCredentials(m.credentials)
      case Err(e) => Raised(n, e)
      case Ok(c) => Done(n.(config := Some(ConfigFile(address, port, m.keyPath, c))))
  }

  /** `ensure_credentials`: a fresh token becomes the password only where none is stored. */
  function Ensured(m: Machine, token: string): Step {
    match ReadCredentials(m.credentials)
    case Err(e) => Raised(m, e)
    case Ok(Some(_)) => Done(m)
    case Ok(None) => PasswordSet(m, Credentials("vnc", token))
  }

  /** `serve`: the process loads the configuration it has just rewritten. */
  function Served(m: Machine, token: string): Step {
    match Ensured(m, token)
    case Raised(n, e) => Raised(n, e)
    case Done(n) =>
      match Provisioned(n, BindAddress(n).0, BindAddress(n).1)
      case Raised(p, e) => Raised(p, e)
      case Done(p) => Done(p.(server := p.config))
  }

  /** Starting or restarting the unit: a server that cannot serve leaves the unit inactive. */
  function Launched(m: Machine, token: string): Machine {
    match Served(m.(server := None), token)
    case Raised(n, _) => n
    case Done(n) => n
  }

  function Restarted(m: Machine, token: string): Machine {
    if m.server.None? then m else Launched(m, token)
  }

  function CredentialSet(m: Machine, c: Credentials, token: string): Step {
    match PasswordSet(m, c)
    case Raised(n, e) => Raised(n, e)
    case Done(n) =>
      match ReadConfig(n.config)
      case None => Done(n)
      case Some((address, port)) =>
        match Provisioned(n, address, port)
        case Raised(p, e) => Raised(p, e)
        case Done(p) => Done(Restarted(p, token))
  }

  function NetworkApplied(m: Machine, address: string, port: int, token: string): Step {
    match Provisioned(m, address, port)
    case Raised(n, e) => Raised(n, e)
    case Done(n) => Done(Restarted(n, token))
  }

  function LanAccessSet(m: Machine, enabled: bool, token: string): Step {
    NetworkApplied(m, if enabled then LAN else LOOPBACK, BindAddress(m).1, token)
  }

  // ----- the operations themselves

  class Host {
    var credentials: Option<string>
    var config: Option<string>
    var key: bool
    var server: Option<string>
    const keyPath: string

    constructor (path: string)
      ensures View() == Machine(None, None, false, None, path)
    {
      credentials, config, key, server, keyPath := None, None, false, None, path;
    }

    ghost function View(): Machine
      reads this
    {
      Machine(credentials, config, key, server, keyPath)
    }

    ghost predicate Ends(step: Step, r: Result<()>)
      reads this
    {
      step == if r.Ok? then Done(View()) else Raised(View(), r.error)
    }

    method SetPassword(c: Credentials) returns (r: Result<()>)
      modifies this
      ensures Ends(PasswordSet(old(View()), c), r)
    {
      if !Acceptable(c) {
        return Err("ValueError");
      }
      credentials := Some(CredentialsText(c));
      return Ok(());
    }

    method Provision(address: string, port: int) returns (r: Result<()>)
      modifies this
      ensures Ends(Provisioned(old(View()), address, port), r)
    {
      if !UsablePort(port) {
        return Err("ValueError");
      }
      if !key {
        key := true;
      }
      var stored := ReadCredentials(credentials);
      if stored.Err? {
        return Err(stored.error);
      }
      config := Some(ConfigFile(address, port, keyPath, stored.value));
      return Ok(());
    }

    method EnsureCredentials(token: string) returns (r: Result<()>)
      modifies this
      ensures Ends(Ensured(old(View()), token), r)
    {
      var stored := ReadCredentials(credentials);
      if stored.Err? {
        return Err(stored.error);
      }
      if stored.value.Some? {
        return Ok(());
      }
      r := SetPassword(Credentials("vnc", token));
    }

    method Serve(token: string) returns (r: Result<()>)
      modifies this
      ensures Ends(Served(old(View()), token), r)
    {
      r := EnsureCredentials(token);
      if r.Err? {
        return;
      }
      var existing := ReadConfig(config);
      var (address, port) := if existing.Some? then existing.value else (LOOPBACK, DEFAULT_PORT);
      r := Provision(address, port);
      if r.Err? {
        return;
      }
      server := config;
    }

    method Launch(token: string)
      modifies this
      ensures View() == Launched(old(View()), token)
    {
      server := None;
      var _ := Serve(token);
    }

    method Stop()
      modifies this
      ensures View() == old(View()).(server := None)
    {
      server := None;
    }

    /** `set_active(True)`: starting an active unit changes nothing. */
    method Start(token: string)
      modifies this
      ensures View() == if old(View()).server.None? then Launched(old(View()), token) else old(View())
    {
      if server.None? {
        Launch(token);
      }
    }

    method RestartService(token: string)
      modifies this
      ensures View() == Restarted(old(View()), token)
    {
      if server.Some? {
        Launch(token);
      }
    }

    method SetCredential(c: Credentials, token: string) returns (r: Result<()>)
      modifies this
      ensures Ends(CredentialSet(old(View()), c, token), r)
    {
      r := SetPassword(c);
      if r.Err? {
        return;
      }
      var existing := ReadConfig(config);
      if existing.Some? {
        r := Provision(existing.value.0, existing.value.1);
        if r.Err? {
          return;
        }
        RestartService(token);
      }
    }

    method ApplyNetwork(address: string, port: int, token: string) returns (r: Result<()>)
      modifies this
      ensures Ends(NetworkApplied(old(View()), address, port, token), r)
    {
      r := Provision(address, port);
      if r.Ok? {
        RestartService(token);
      }
    }

    method SetLanAccess(enabled: bool, token: string) returns (r: Result<()>)
      modifies this
      ensures Ends(LanAccessSet(old(View()), enabled, token), r)
    {
      var existing := ReadConfig(config);
      var port := if existing.Some? then existing.value.1 else DEFAULT_PORT;
      r := ApplyNetwork(if enabled then LAN else LOOPBACK, port, token);
    }
  }

  // ----- agreement

  /** The credential the stored configuration makes a server ask for. */
  function Enforced(m: Machine): Option<Credentials> {
    if m.config.None? then None else CredentialFields(m.config.value)
  }

  predicate UsableAddress(address: string) {
    NoBreak(address) && Strip(address) != ""
  }

  /** An address that is read back as one, and that says nothing of a credential in any line. */
  predicate SafeAddress(address: string) {
    Effective(address) != "" && CredentialFields(AddressText(address)).None?
  }

  /** The credentials file is readable, the configuration is usable and asks for the stored credential,
      and an active server runs on the configuration on disk, which asks for a password. */
  ghost predicate InStep(m: Machine) {
    && PlainPath(m.keyPath)
    && ReadCredentials(m.credentials).Ok?
    && (m.config.Some? ==>
          ReadConfig(m.config).Some? && UsablePort(ReadConfig(m.config).value.1) &&
          Enforced(m) == ReadCredentials(m.credentials).value)
    && (m.server.Some? ==> m.server == m.config && ReadCredentials(m.credentials).value.Some?)
  }

  /** In step, the bind is one that can be written again as it is. */
  lemma InStepBind(m: Machine)
    requires InStep(m)
    ensures UsableAddress(BindAddress(m).0) && UsablePort(BindAddress(m).1)
    ensures Strip(BindAddress(m).0) == BindAddress(m).0
  {
    DefaultUsable();
    if m.config.Some? {
      ReadConfigTrimmed(m.config);
      StripTrims(BindAddress(m).0);
    }
  }

  lemma DefaultUsable()
    ensures UsableAddress(LOOPBACK) && Strip(LOOPBACK) == LOOPBACK && UsableAddress(LAN) && Strip(LAN) == LAN
    ensures LOOPBACK != LAN
  {
    StripTrims(LOOPBACK);
    StripTrims(LAN);
    assert LOOPBACK[0] == '1' && LAN[0] == '0';
  }

  /** The bind that a written address and port come to: the default one if no address is left. */
  function Bound(address: string, port: int): (string, int) {
    if Effective(address) == "" then (LOOPBACK, DEFAULT_PORT) else (Effective(address), port)
  }

  /** Whether the written configuration asks for the stored credential and nothing else. */
  predicate Carries(m: Machine, address: string)
    requires ReadCredentials(m.credentials).Ok?
  {
    Effective(address) != "" && (ReadCredentials(m.credentials).value.Some? || CredentialFields(AddressText(address)).None?)
  }

  /** `provision` with any address: the files are in step exactly if an address is left of it, and a
      credential is stored or the address names none. */
  lemma ProvisionedReads(m: Machine, address: string, port: int)
    requires PlainPath(m.keyPath) && ReadCredentials(m.credentials).Ok? && UsablePort(port)
    ensures var step := Provisioned(m, address, port);
      && step.Done? && step.m == m.(key := true, config := step.m.config) && step.m.config.Some?
      && (InStep(step.m.(server := None)) <==> Carries(m, address)) && BindAddress(step.m) == Bound(address, port)
  {
    var c := ReadCredentials(m.credentials).value;
    ConfigReadsAny(address, port, m.keyPath, c);
  }

  lemma ProvisionedAgain(m: Machine, address: string, port: int)
    requires PlainPath(m.keyPath) && ReadCredentials(m.credentials).Ok? && UsablePort(port) && UsableAddress(address)
    ensures var step := Provisioned(m, address, port);
      && step.Done? && step.m == m.(key := true, config := step.m.config) && step.m.config.Some?
      && InStep(step.m.(server := None)) && BindAddress(step.m) == (Strip(address), port)
  {
    ProvisionedReads(m, address, port);
    EffectiveSingle(address);
  }

  lemma EnsuredReads(m: Machine, token: string)
    requires ReadCredentials(m.credentials).Ok? && Acceptable(Credentials("vnc", token))
    ensures var step := Ensured(m, token);
      && step.Done? && step.m == m.(credentials := step.m.credentials)
      && ReadCredentials(step.m.credentials).Ok? && ReadCredentials(step.m.credentials).value.Some?
      && (ReadCredentials(m.credentials).value.Some? ==> step.m == m)
      && (ReadCredentials(m.credentials).value.None? ==>
            ReadCredentials(step.m.credentials).value == Some(Credentials("vnc", token)))
  {
    CredentialsRoundTrip(Credentials("vnc", token));
  }

  /** A launch works from any readable files, keeps the bind and the stored credential, generates
      one if there is none, and ends with a server running on the configuration on disk. */
  lemma LaunchedInStep(m: Machine, token: string)
    requires PlainPath(m.keyPath) && ReadCredentials(m.credentials).Ok? && Acceptable(Credentials("vnc", token))
    requires UsableAddress(BindAddress(m).0) && UsablePort(BindAddress(m).1)
    ensures var n := Launched(m, token);
      && InStep(n) && n.server.Some? && BindAddress(n) == (Strip(BindAddress(m).0), BindAddress(m).1)
      && (ReadCredentials(m.credentials).value.Some? ==> n.credentials == m.credentials)
      && (ReadCredentials(m.credentials).value.None? ==>
            ReadCredentials(n.credentials) == Ok(Some(Credentials("vnc", token))))
  {
    var off := m.(server := None);
    EnsuredReads(off, token);
    var n := Ensured(off, token).m;
    ProvisionedAgain(n, BindAddress(n).0, BindAddress(n).1);
  }

  lemma RestartedInStep(m: Machine, token: string)
    requires InStep(m.(server := None)) && Acceptable(Credentials("vnc", token))
    requires m.server.Some? ==> ReadCredentials(m.credentials).value.Some?
    ensures var n := Restarted(m, token);
      && InStep(n) && (n.server.Some? <==> m.server.Some?)
      && BindAddress(n) == BindAddress(m)
      && n.credentials == m.credentials
  {
    InStepBind(m.(server := None));
    if m.server.Some? {
      LaunchedInStep(m, token);
    }
  }

  /** The first launch of all: the generated password is stored, and the server listens on this machine alone. */
  lemma FirstLaunch(keyPath: string, token: string)
    requires PlainPath(keyPath) && Acceptable(Credentials("vnc", token))
    ensures var n := Launched(Machine(None, None, false, None, keyPath), token);
      && n.server.Some? && n.server == n.config && n.key
      && ReadConfig(n.config) == Some(("127.0.0.1", 5900))
      && Enforced(n) == Some(Credentials("vnc", token))
  {
    DefaultUsable();
    var m := Machine(None, None, false, None, keyPath);
    LaunchedInStep(m, token);
  }

  // ----- each operation keeps every copy in step

  /** A new credential reaches the file, the configuration and the running server, and moves
      neither address nor port; a refused one changes nothing. */
  lemma SetCredentialKeeps(m: Machine, c: Credentials, token: string)
    requires InStep(m) && Acceptable(Credentials("vnc", token))
    ensures var step := CredentialSet(m, c, token);
      && InStep(step.m) && BindAddress(step.m) == BindAddress(m)
      && (step.m.server.Some? <==> m.server.Some?)
      && (if Acceptable(c) then step.Done? && ReadCredentials(step.m.credentials) == Ok(Some(c)) else step == Raised(m, "ValueError"))
  {
    InStepBind(m);
    if Acceptable(c) {
      CredentialsRoundTrip(c);
      var n := PasswordSet(m, c).m;
      if n.config.Some? {
        ProvisionedAgain(n, BindAddress(m).0, BindAddress(m).1);
        RestartedInStep(Provisioned(n, BindAddress(m).0, BindAddress(m).1).m, token);
      }
    }
  }

  /** A new bind reaches a running server, with the stored credential as it was; a port outside the
      unprivileged range changes nothing. Any address is taken, and all copies are in step afterwards exactly
      if a server runs, whose restart writes them again, or the written configuration carries the credential. */
  lemma ApplyNetworkKeeps(m: Machine, address: string, port: int, token: string)
    requires InStep(m) && Acceptable(Credentials("vnc", token))
    ensures var step := NetworkApplied(m, address, port, token);
      && step.m.credentials == m.credentials && (step.m.server.Some? <==> m.server.Some?)
      && (if 1025 <= port <= 65535 then step.Done? && BindAddress(step.m) == Bound(address, port)
          else step == Raised(m, "ValueError"))
      && (InStep(step.m) <==> !UsablePort(port) || m.server.Some? || Carries(m, address))
  {
    if UsablePort(port) {
      ProvisionedReads(m, address, port);
      var n := Provisioned(m, address, port).m;
      if m.server.Some? {
        BoundUsable(n, address, port);
        LaunchedInStep(n, token);
      }
    }
  }

  lemma BoundUsable(m: Machine, address: string, port: int)
    requires BindAddress(m) == Bound(address, port) && UsablePort(port)
    ensures UsableAddress(BindAddress(m).0) && UsablePort(BindAddress(m).1)
    ensures Strip(BindAddress(m).0) == BindAddress(m).0
  {
    DefaultUsable();
    var fields := Fields(SplitLines(AddressText(address)));
    LinesHaveNoBreak(AddressText(address));
    FieldsNoBreak(SplitLines(AddressText(address)));
    if "address" in fields {
      StripKeepsNoBreak(fields["address"]);
      StripTrims(fields["address"]);
      StripTrims(Effective(address));
    }
  }

  /** The one-switch form always succeeds and keeps the port. */
  lemma SetLanAccessKeeps(m: Machine, enabled: bool, token: string)
    requires InStep(m) && Acceptable(Credentials("vnc", token))
    ensures var step := LanAccessSet(m, enabled, token);
      && step.Done? && InStep(step.m) && step.m.credentials == m.credentials
      && BindAddress(step.m) == (if enabled then "0.0.0.0" else "127.0.0.1", BindAddress(m).1)
      && (step.m.server.Some? <==> m.server.Some?)
  {
    InStepBind(m);
    DefaultUsable();
    EffectiveSingle(if enabled then LAN else LOOPBACK);
    ApplyNetworkKeeps(m, if enabled then LAN else LOOPBACK, BindAddress(m).1, token);
  }

  // ----- whole runs

  datatype Op =
    | SetCredentialOp(c: Credentials)
    | ApplyNetworkOp(address: string, port: int)
    | SetLanAccessOp(enabled: bool)
    | StartOp
    | StopOp

  function Applied(m: Machine, op: Op, token: string): Machine {
    match op
    case SetCredentialOp(c) => CredentialSet(m, c, token).m
    case ApplyNetworkOp(address, port) => NetworkApplied(m, address, port, token).m
    case SetLanAccessOp(enabled) => LanAccessSet(m, enabled, token).m
    case StartOp => if m.server.None? then Launched(m, token) else m
    case StopOp => m.(server := None)
  }

  function AfterRun(m: Machine, ops: seq<(Op, string)>): Machine
    decreases |ops|
  {
    if ops == [] then m else AfterRun(Applied(m, ops[0].0, ops[0].1), ops[1..])
  }

  /** Any sequence of operations, refused ones among them, from any state in step ends in step. */
  lemma {:induction false} RunStaysInStep(m: Machine, ops: seq<(Op, string)>)
    requires InStep(m)
    requires forall i | 0 <= i < |ops| :: Acceptable(Credentials("vnc", ops[i].1))
    requires forall i | 0 <= i < |ops| :: ops[i].0.ApplyNetworkOp? ==> SafeAddress(ops[i].0.address)
    ensures InStep(AfterRun(m, ops))
    decreases |ops|
  {
    if ops == [] {
    } else {
      var (op, token) := ops[0];
      match op {
        case SetCredentialOp(c) => SetCredentialKeeps(m, c, token);
        case ApplyNetworkOp(address, port) => ApplyNetworkKeeps(m, address, port, token);
        case SetLanAccessOp(enabled) => SetLanAccessKeeps(m, enabled, token);
        case StartOp =>
          InStepBind(m);
          if m.server.None? { LaunchedInStep(m, token); }
        case StopOp =>
      }
      RunStaysInStep(Applied(m, op, token), ops[1..]);
    }
  }

  /** From an empty configuration directory, after any run: the credential a server would ask for is
      the stored one, an active server has loaded the configuration on disk, and it asks for one. */
  lemma RunAgrees(keyPath: string, ops: seq<(Op, string)>)
    requires PlainPath(keyPath)
    requires forall i | 0 <= i < |ops| :: Acceptable(Credentials("vnc", ops[i].1))
    requires forall i | 0 <= i < |ops| :: ops[i].0.ApplyNetworkOp? ==> SafeAddress(ops[i].0.address)
    ensures var m := AfterRun(Machine(None, None, false, None, keyPath), ops);
      && (m.config.Some? ==> Ok(Enforced(m)) == ReadCredentials(m.credentials))
      && (m.server.Some? ==> m.server == m.config && Enforced(m).Some?)
  {
    RunStaysInStep(Machine(None, None, false, None, keyPath), ops);
  }

  // ----- where it fails

  /** `apply_network` takes an address with nothing in it, too. Then, with no server running, the next
      password change does not reach the configuration; a running server's restart rewrites it, to the default
      bind. So storing an address and then changing the password leaves both copies of the credential
      equal exactly if something is read back of the address or a server runs. */
  lemma BlankAddressLosesCredential(
      m: Machine, address: string, port: int, before: Credentials, after: Credentials, token: string)
    requires InStep(m) && ReadCredentials(m.credentials) == Ok(Some(before))
    requires UsablePort(port) && Acceptable(after) && after != before
    requires Acceptable(Credentials("vnc", token))
    ensures var stored := NetworkApplied(m, address, port, token);
      && stored.Done?
      && (Effective(address) == "" ==> BindAddress(stored.m) == (LOOPBACK, DEFAULT_PORT))
      && var changed := CredentialSet(stored.m, after, token);
         && changed.Done? && ReadCredentials(changed.m.credentials) == Ok(Some(after))
         && (Enforced(changed.m) == Some(after) <==> Effective(address) != "" || m.server.Some?)
  {
    CredentialsRoundTrip(after);
    ApplyNetworkKeeps(m, address, port, token);
    var n := NetworkApplied(m, address, port, token).m;
    if Effective(address) != "" || m.server.Some? {
      SetCredentialKeeps(n, after, token);
    } else {
      ConfigReadsAny(address, port, m.keyPath, Some(before));
    }
  }

  /** An address of several lines can name a credential. With none stored and no server running, the configuration
      then asks for one that nobody stored. */
  lemma AddressNamesCredential(m: Machine, first: string, c: Credentials, port: int, token: string)
    requires PlainPath(m.keyPath) && m.credentials == None && m.server == None && UsablePort(port)
    requires NoBreak(first) && NoBreak(c.username) && NoBreak(c.password)
    ensures var step := NetworkApplied(m, Naming(first, c), port, token);
      step.Done? && ReadCredentials(step.m.credentials) == Ok(None) && Enforced(step.m) == Some(c)
  {
    NamingNames(first, c);
    ConfigReadsAny(Naming(first, c), port, m.keyPath, None);
  }
}
