/** The provisioning orchestrator of auth/auth.go: bootstrapping the root
    user and turning authentication on, and creating tenants (a user, a role
    of the same name, a read-write grant under "/<name>/" and the binding of
    the role to the user), all through etcdctl on the host. */
module Auth {
  import opened Commands
  import opened Passwords
  import opened Etcdctl

  /** The fields of EtcdAdmConfig that the provisioning code reads or writes. */
  class EtcdAdmConfig {
    var version: string
    var etcdctlShellWrapper: string
    var etcdctlRootUserPassword: string

    constructor (version: string, etcdctlShellWrapper: string, etcdctlRootUserPassword: string)
      ensures this.version == version && this.etcdctlShellWrapper == etcdctlShellWrapper
      ensures this.etcdctlRootUserPassword == etcdctlRootUserPassword
    {
      this.version := version;
      this.etcdctlShellWrapper := etcdctlShellWrapper;
      this.etcdctlRootUserPassword := etcdctlRootUserPassword;
    }
  }

  /** ensureEtcdctlPath: asks the host whether the configured wrapper exists,
      then decides as CheckEtcdctlPath does. */
  function EnsureEtcdctlPath(cfg: EtcdAdmConfig, host: Host): (r: Result<string>)
    reads cfg
    ensures r.Ok? <==> host.probe(cfg.etcdctlShellWrapper) == Present && !RejectsVersion(cfg.version)
    ensures r.Ok? ==> r.value == cfg.etcdctlShellWrapper
    ensures host.probe(cfg.etcdctlShellWrapper) == ProbeError ==> r == Err(ExistsCheckFailed(cfg.etcdctlShellWrapper))
    ensures host.probe(cfg.etcdctlShellWrapper) == Absent ==> r == Err(ExecutableMissing(cfg.etcdctlShellWrapper))
  {
    CheckEtcdctlPath(host.probe(cfg.etcdctlShellWrapper), cfg.version, cfg.etcdctlShellWrapper)
  }

  /** Definition: the same argument vectors, each run with executable `exe`. */
  function WithExe(exe: string, argvs: seq<seq<string>>): seq<Invocation> {
    seq(|argvs|, i requires 0 <= i < |argvs| => Invocation(exe, argvs[i]))
  }

  /** The password the next call of RandomPassword draws from `rng`. */
  ghost function NextPassword(rng: RandomSource): string
    reads rng
  {
    PasswordOf(Draws(rng.draw, rng.pos, PASSWORD_LENGTH))
  }

  /** What createUserAndRole does from a given state: the etcdctl record it
      leaves, how far the random source has moved, and its error. */
  datatype Effect = Effect(trace: seq<Invocation>, pos: nat, outcome: Outcome)

  ghost function UserAndRoleEffect(cfg: EtcdAdmConfig, host: Host, rng: RandomSource, name: string): Effect
    reads cfg, host, rng
  {
    var r := EnsureEtcdctlPath(cfg, host);
    if r.Err? then Effect(host.trace, rng.pos, Fail(r.error))
    else if '/' in name then Effect(host.trace, rng.pos, Fail(InvalidName(name)))
    else
      var (trace, outcome) := RunInOrder(host.accepts, host.trace, WithExe(r.value, TenantArgs(name, NextPassword(rng))));
      Effect(trace, rng.pos + PASSWORD_LENGTH, outcome)
  }

  /** SetupRootUserConfig: stores a fresh 16-character alphanumeric password
      as the root password; never fails. */
  method SetupRootUserConfig(cfg: EtcdAdmConfig, rng: RandomSource) returns (st: Outcome)
    modifies cfg`etcdctlRootUserPassword, rng`pos
    ensures st == Pass
    ensures cfg.etcdctlRootUserPassword == old(NextPassword(rng))
    ensures rng.pos == old(rng.pos) + PASSWORD_LENGTH
    ensures |cfg.etcdctlRootUserPassword| == PASSWORD_LENGTH
    ensures IsAlphanumericString(cfg.etcdctlRootUserPassword)
    ensures cfg.etcdctlRootUserPassword != ""
  {
    cfg.etcdctlRootUserPassword := RandomPassword(rng);
    st := Pass;
  }

  /** authEnable: resolves etcdctl, then runs `etcdctl auth enable`. */
  method AuthEnable(cfg: EtcdAdmConfig, host: Host) returns (st: Outcome)
    modifies host`trace
    ensures var r := EnsureEtcdctlPath(cfg, host);
      if r.Err? then st == Fail(r.error) && host.trace == old(host.trace)
      else (host.trace, st) == RunInOrder(host.accepts, old(host.trace), [Invocation(r.value, AUTH_ENABLE)])
  {
    var r := EnsureEtcdctlPath(cfg, host);
    if r.Err? {
      return Fail(r.error);
    }
    var cmd := Invocation(r.value, AUTH_ENABLE);
    var ok := host.Execute(cmd);
    if !ok {
      return Fail(CommandFailed(cmd));
    }
    st := Pass;
  }

  /** createRootUser: resolves etcdctl, refuses an empty root password, then
      runs `etcdctl user add root:<password>`. */
  method CreateRootUser(cfg: EtcdAdmConfig, host: Host) returns (st: Outcome)
    modifies host`trace
    ensures var r := EnsureEtcdctlPath(cfg, host);
      if r.Err? then st == Fail(r.error) && host.trace == old(host.trace)
      else if cfg.etcdctlRootUserPassword == "" then st == Fail(RootPasswordMissing) && host.trace == old(host.trace)
      else (host.trace, st) == RunInOrder(host.accepts, old(host.trace),
                                          [Invocation(r.value, UserAdd("root", cfg.etcdctlRootUserPassword))])
  {
    var r := EnsureEtcdctlPath(cfg, host);
    if r.Err? {
      return Fail(r.error);
    }
    if cfg.etcdctlRootUserPassword == "" {
      return Fail(RootPasswordMissing);
    }
    var cmd := Invocation(r.value, UserAdd("root", cfg.etcdctlRootUserPassword));
    var ok := host.Execute(cmd);
    if !ok {
      return Fail(CommandFailed(cmd));
    }
    st := Pass;
  }

  /** createUser: resolves etcdctl, then runs
      `etcdctl user add <user>:<random password>`. */
  method CreateUser(cfg: EtcdAdmConfig, host: Host, rng: RandomSource, user: string) returns (st: Outcome)
    modifies host`trace, rng`pos
    ensures var r := EnsureEtcdctlPath(cfg, host);
      if r.Err? then st == Fail(r.error) && host.trace == old(host.trace) && rng.pos == old(rng.pos)
      else
        && rng.pos == old(rng.pos) + PASSWORD_LENGTH
        && (host.trace, st) == RunInOrder(host.accepts, old(host.trace),
                                          [Invocation(r.value, UserAdd(user, old(NextPassword(rng))))])
  {
    var r := EnsureEtcdctlPath(cfg, host);
    if r.Err? {
      return Fail(r.error);
    }
    var password := RandomPassword(rng);
    var cmd := Invocation(r.value, UserAdd(user, password));
    var ok := host.Execute(cmd);
    if !ok {
      return Fail(CommandFailed(cmd));
    }
    st := Pass;
  }

  /** createUserAndRole: resolves etcdctl, refuses a name containing '/',
      then runs the four tenant commands in order, stopping at the first one
      that fails and undoing none of those before it. */
  method CreateUserAndRole(cfg: EtcdAdmConfig, host: Host, rng: RandomSource, name: string) returns (st: Outcome)
    modifies host`trace, rng`pos
    ensures Effect(host.trace, rng.pos, st) == old(UserAndRoleEffect(cfg, host, rng, name))
  {
    var r := EnsureEtcdctlPath(cfg, host);
    if r.Err? {
      return Fail(r.error);
    }
    if '/' in name {
      return Fail(InvalidName(name));
    }
    var password := RandomPassword(rng);
    st := RunCommands(host, WithExe(r.value, TenantArgs(name, password)));
  }

  /** The `for _, cmd := range cmds` loop of createUserAndRole: runs each
      command in turn and returns at the first one that fails. */
  method RunCommands(host: Host, cmds: seq<Invocation>) returns (st: Outcome)
    modifies host`trace
    ensures (host.trace, st) == RunInOrder(host.accepts, old(host.trace), cmds)
  {
    ghost var before := host.trace;
    ghost var k := FirstRejected(host.accepts, before, cmds);
    var i := 0;
    while i < |cmds|
      invariant 0 <= i <= k
      invariant host.trace == before + cmds[..i]
    {
      var ok := host.Execute(cmds[i]);
      assert cmds[..i] + [cmds[i]] == cmds[..i + 1];
      if !ok {
        assert i == k;
        assert host.trace == before + cmds[..i + 1];
        return Fail(CommandFailed(cmds[i]));
      }
      i := i + 1;
    }
    assert cmds[..i] == cmds;
    st := Pass;
  }

  /** EnableAuthWithRootUser: creates the root user, and only if that
      succeeded turns authentication on. */
  method EnableAuthWithRootUser(cfg: EtcdAdmConfig, host: Host) returns (st: Outcome)
    modifies host`trace
    ensures var r := EnsureEtcdctlPath(cfg, host);
      if r.Err? then st == Fail(r.error) && host.trace == old(host.trace)
      else if cfg.etcdctlRootUserPassword == "" then st == Fail(RootPasswordMissing) && host.trace == old(host.trace)
      else (host.trace, st) == RunInOrder(host.accepts, old(host.trace),
                                          [ Invocation(r.value, UserAdd("root", cfg.etcdctlRootUserPassword)),
                                            Invocation(r.value, AUTH_ENABLE) ])
  {
    ghost var before := host.trace;
    st := CreateRootUser(cfg, host);
    if st.Fail? {
      ghost var r := EnsureEtcdctlPath(cfg, host);
      if r.Ok? && cfg.etcdctlRootUserPassword != "" {
        ghost var root := Invocation(r.value, UserAdd("root", cfg.etcdctlRootUserPassword));
        RunInOrderAppend(host.accepts, before, [root], [Invocation(r.value, AUTH_ENABLE)]);
      }
      return;
    }
    st := AuthEnable(cfg, host);
    ghost var r := EnsureEtcdctlPath(cfg, host);
    ghost var root := Invocation(r.value, UserAdd("root", cfg.etcdctlRootUserPassword));
    RunInOrderAppend(host.accepts, before, [root], [Invocation(r.value, AUTH_ENABLE)]);
  }

  /** CreateTenant: provisions the tenant's user and role, and only if that
      succeeded writes its client certificate; the first error is returned. */
  method CreateTenant(cfg: EtcdAdmConfig, host: Host, rng: RandomSource, name: string) returns (st: Outcome)
    modifies host`trace, host`certRequests, rng`pos
    ensures var e := old(UserAndRoleEffect(cfg, host, rng, name));
      && host.trace == e.trace && rng.pos == e.pos
      && (e.outcome.Fail? ==> st == e.outcome && host.certRequests == old(host.certRequests))
      && (e.outcome.Pass? ==> host.certRequests == old(host.certRequests) + [name] &&
                              st == if host.certOk(name) then Pass else Fail(CertificateFailed(name)))
    ensures st.Pass? ==> '/' !in name
  {
    st := CreateUserAndRole(cfg, host, rng, name);
    if st.Fail? {
      return;
    }
    var ok := host.IssueTenantCert(name);
    if !ok {
      return Fail(CertificateFailed(name));
    }
    st := Pass;
  }
}
