/** Client scenarios: what a caller can conclude from the contracts of the
    provisioning operations alone. */
module Scenarios {
  import opened Commands
  import opened Passwords
  import opened Etcdctl
  import opened Auth

  const WRAPPER: string := "/opt/bin/etcdctl.sh"

  /** An etcd that accepts every command. */
  function AcceptAll(history: seq<Invocation>, inv: Invocation): bool {
    true
  }

  /** An etcd that refuses every permission grant. */
  function RefuseGrants(history: seq<Invocation>, inv: Invocation): bool {
    |inv.args| < 2 || inv.args[1] != "grant-permission"
  }

  /** The tenant commands for "payments", written out. */
  lemma PaymentsCommands(pw: string)
    ensures WithExe(WRAPPER, TenantArgs("payments", pw)) == [
      Invocation(WRAPPER, ["user", "add", "payments:" + pw]),
      Invocation(WRAPPER, ["role", "add", "payments"]),
      Invocation(WRAPPER, ["role", "grant-permission", "payments", "--prefix=true", "readwrite", "/payments/"]),
      Invocation(WRAPPER, ["user", "grant-role", "payments", "payments"])
    ]
  {
    assert "payments" + ":" + pw == "payments:" + pw;
    assert PermissionPrefix("payments") == "/payments/";
  }

  /** A healthy etcd 3.5 host: provisioning tenant "payments" runs the four
      tenant commands, in order, and writes the tenant's certificate. */
  method ProvisionPayments(draw: nat -> Index) {
    var cfg := new EtcdAdmConfig("3.5", WRAPPER, "");
    var host := new Host(_ => Present, AcceptAll, _ => true);
    var rng := new RandomSource(draw);
    ghost var pw := NextPassword(rng);
    ghost var cmds := WithExe(WRAPPER, TenantArgs("payments", pw));
    assert EnsureEtcdctlPath(cfg, host) == Ok(WRAPPER);
    var st := CreateTenant(cfg, host, rng, "payments");
    assert st == Pass && host.trace == cmds && host.certRequests == ["payments"] by {
      RunsAllWhenAccepted(AcceptAll, [], cmds);
      assert [] + cmds == cmds;
    }
    PaymentsCommands(pw);
    assert |pw| == 16;
  }

  /** A name with '/' is refused before anything runs, even on a healthy host. */
  method RejectSlashName(draw: nat -> Index) {
    var cfg := new EtcdAdmConfig("3.5", WRAPPER, "");
    var host := new Host(_ => Present, AcceptAll, _ => true);
    var rng := new RandomSource(draw);
    var st := CreateTenant(cfg, host, rng, "team/payments");
    assert st == Fail(InvalidName("team/payments"));
    assert host.trace == [] && host.certRequests == [] && rng.pos == 0;
  }

  /** On an etcd 2.x configuration nothing runs, whatever the name. */
  method RejectEtcd2(draw: nat -> Index) {
    var cfg := new EtcdAdmConfig("2.3", WRAPPER, "");
    var host := new Host(_ => Present, AcceptAll, _ => true);
    var rng := new RandomSource(draw);
    var st := CreateTenant(cfg, host, rng, "payments");
    assert st == Fail(UnsupportedVersion("2.3"));
    assert host.trace == [];
  }

  /** With an etcd that refuses the grant, the run stops at the third command. */
  lemma GrantRefusedRun(cmds: seq<Invocation>)
    requires |cmds| == 4 && |cmds[0].args| > 1 && |cmds[1].args| > 1 && |cmds[2].args| > 1
    requires cmds[0].args[1] == "add" && cmds[1].args[1] == "add"
    requires cmds[2].args[1] == "grant-permission"
    ensures RunInOrder(RefuseGrants, [], cmds) == (cmds[..3], Fail(CommandFailed(cmds[2])))
  {
    StopsAtFirstRejection(RefuseGrants, [], cmds, 2);
    assert [] + cmds[..3] == cmds[..3];
  }

  /** If etcd refuses the role grant, the user and role already created stay,
      the binding is never attempted and no certificate is written. */
  method GrantRefused(draw: nat -> Index) {
    var cfg := new EtcdAdmConfig("3.5", WRAPPER, "");
    var host := new Host(_ => Present, RefuseGrants, _ => true);
    var rng := new RandomSource(draw);
    ghost var cmds := WithExe(WRAPPER, TenantArgs("payments", NextPassword(rng)));
    assert EnsureEtcdctlPath(cfg, host) == Ok(WRAPPER);
    GrantRefusedRun(cmds);
    var st := CreateTenant(cfg, host, rng, "payments");
    assert st == Fail(CommandFailed(cmds[2]));
    assert host.trace == cmds[..3];
    assert host.certRequests == [];
  }

  /** Without a root password the bootstrap stops before running anything. */
  method BootstrapWithoutPassword() {
    var cfg := new EtcdAdmConfig("3.5", WRAPPER, "");
    var host := new Host(_ => Present, AcceptAll, _ => true);
    var st := EnableAuthWithRootUser(cfg, host);
    assert st == Fail(RootPasswordMissing) && host.trace == [];
  }

  /** The root user's creation command, written out. */
  lemma RootUserAddSpelledOut(pw: string)
    ensures UserAdd("root", pw) == ["user", "add", "root:" + pw]
  {
    assert "root" + ":" + pw == "root:" + pw;
  }

  /** After SetupRootUserConfig, the root user is created and then auth is
      enabled. */
  method BootstrapAuth(draw: nat -> Index) {
    var cfg := new EtcdAdmConfig("3.5", WRAPPER, "");
    var host := new Host(_ => Present, AcceptAll, _ => true);
    var rng := new RandomSource(draw);
    var st := SetupRootUserConfig(cfg, rng);
    ghost var pw := cfg.etcdctlRootUserPassword;
    ghost var cmds := [ Invocation(WRAPPER, UserAdd("root", pw)), Invocation(WRAPPER, AUTH_ENABLE) ];
    assert EnsureEtcdctlPath(cfg, host) == Ok(WRAPPER);
    st := EnableAuthWithRootUser(cfg, host);
    assert (host.trace, st) == RunInOrder(AcceptAll, [], cmds);
    assert st == Pass && host.trace == cmds by {
      RunsAllWhenAccepted(AcceptAll, [], cmds);
      assert [] + cmds == cmds;
    }
    RootUserAddSpelledOut(pw);
  }
}
