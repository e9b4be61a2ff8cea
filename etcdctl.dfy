/** The host that auth/auth.go drives: the file-existence check on the
    etcdctl wrapper (util.Exists), the etcdctl process runner whose exit
    status decides success, and the certificate writer of the certs package.
    Each is an oracle; the runner records every invocation it is given. */
module Etcdctl {
  import opened Commands

  /** What util.Exists reports for a path: present, absent, or an error. */
  datatype Probe = Present | Absent | ProbeError

  /** One etcdctl process: the executable and its arguments (Go's cmd.Args). */
  datatype Invocation = Invocation(exe: string, args: seq<string>)

  /** The failures the provisioning code reports, one constructor per kind
      of failure (every failed etcdctl run is CommandFailed); CertificateFailed
      stands for whatever error the certificate writer returns, which
      CreateTenant passes on unchanged. */
  datatype AuthError =
    | ExistsCheckFailed(path: string)    // util.Exists returned an error
    | ExecutableMissing(path: string)    // no etcdctl wrapper at the configured path
    | UnsupportedVersion(version: string)  // an etcd 2.x version (the message does not show it)
    | InvalidName(name: string)          // a tenant name containing '/'
    | RootPasswordMissing                // no root password in the configuration
    | CommandFailed(cmd: Invocation)     // etcdctl exited with an error
    | CertificateFailed(name: string)    // the tenant's client certificate could not be written

  /** Go's `error`: nil (Pass) or an error. */
  datatype Outcome = Pass | Fail(error: AuthError)

  /** Go's `(value, error)` pair. */
  datatype Result<T> = Ok(value: T) | Err(error: AuthError)

  /** ensureEtcdctlPath, once util.Exists has answered: the existence check
      comes first, then the version check; on success the configured wrapper
      path is handed back unchanged. */
  function CheckEtcdctlPath(probe: Probe, version: string, wrapper: string): (r: Result<string>)
    ensures r.Ok? <==> probe == Present && !RejectsVersion(version)
    ensures r.Ok? ==> r.value == wrapper
    ensures probe == ProbeError ==> r == Err(ExistsCheckFailed(wrapper))
    ensures probe == Absent ==> r == Err(ExecutableMissing(wrapper))
    ensures probe == Present && RejectsVersion(version) ==> r == Err(UnsupportedVersion(version))
  {
    if probe == ProbeError then Err(ExistsCheckFailed(wrapper))
    else if probe == Absent then Err(ExecutableMissing(wrapper))
    else if RejectsVersion(version) then Err(UnsupportedVersion(version))
    else
      assert probe == Present;
      Ok(wrapper)
  }

  /** How etcdctl answers: whether `inv` exits successfully, given every
      invocation that ran before it. */
  type Oracle = (seq<Invocation>, Invocation) -> bool

  /** The position of the first invocation of `invs` that etcdctl rejects
      when they run one after the other after `history`, or |invs| if it
      accepts them all. */
  function FirstRejected(accepts: Oracle, history: seq<Invocation>, invs: seq<Invocation>): (k: nat)
    ensures k <= |invs|
    ensures forall j :: 0 <= j < k ==> accepts(history + invs[..j], invs[j])
    ensures k < |invs| ==> !accepts(history + invs[..k], invs[k])
    decreases |invs|
  {
    if invs == [] || !accepts(history, invs[0]) then
      assert history + invs[..0] == history;
      0
    else
      var k := FirstRejected(accepts, history + [invs[0]], invs[1..]);
      assert forall j :: 0 < j <= |invs| ==> history + invs[..j] == history + [invs[0]] + invs[1..][..j - 1] by {
        forall j | 0 < j <= |invs| ensures history + invs[..j] == history + [invs[0]] + invs[1..][..j - 1] {
          assert invs[..j] == [invs[0]] + invs[1..][..j - 1];
        }
      }
      assert history + invs[..0] == history;
      1 + k
  }

  /** Running `invs` one after the other after `history`, stopping at the
      first failure: the resulting record of invocations and the error. */
  function RunInOrder(accepts: Oracle, history: seq<Invocation>, invs: seq<Invocation>): (r: (seq<Invocation>, Outcome))
    ensures var k := FirstRejected(accepts, history, invs);
      if k == |invs| then r == (history + invs, Pass)
      else r == (history + invs[..k + 1], Fail(CommandFailed(invs[k])))
    decreases |invs|
  {
    if invs == [] then
      assert history + invs == history;
      (history, Pass)
    else if !accepts(history, invs[0]) then
      assert invs[..1] == [invs[0]];
      (history + [invs[0]], Fail(CommandFailed(invs[0])))
    else
      var r := RunInOrder(accepts, history + [invs[0]], invs[1..]);
      assert history + [invs[0]] + invs[1..] == history + invs;
      assert forall j :: 0 < j <= |invs| ==> history + invs[..j] == history + [invs[0]] + invs[1..][..j - 1] by {
        forall j | 0 < j <= |invs| ensures history + invs[..j] == history + [invs[0]] + invs[1..][..j - 1] {
          assert invs[..j] == [invs[0]] + invs[1..][..j - 1];
        }
      }
      r
  }

  /** If the first k invocations are accepted and the next one is rejected,
      the record holds exactly the first k + 1, the error names the rejected
      one, and nothing run before it is taken back. */
  lemma StopsAtFirstRejection(accepts: Oracle, history: seq<Invocation>, invs: seq<Invocation>, k: nat)
    requires k < |invs|
    requires forall j :: 0 <= j < k ==> accepts(history + invs[..j], invs[j])
    requires !accepts(history + invs[..k], invs[k])
    ensures RunInOrder(accepts, history, invs) == (history + invs[..k + 1], Fail(CommandFailed(invs[k])))
  {
  }

  /** If every invocation is accepted, all of them run, in order, and the
      result is nil. */
  lemma RunsAllWhenAccepted(accepts: Oracle, history: seq<Invocation>, invs: seq<Invocation>)
    requires forall j :: 0 <= j < |invs| ==> accepts(history + invs[..j], invs[j])
    ensures RunInOrder(accepts, history, invs) == (history + invs, Pass)
  {
  }

  /** Running `xs ++ ys` in order is running `xs`, then, if that passed,
      running `ys` after the record `xs` left. */
  lemma {:induction false} RunInOrderAppend(accepts: Oracle, history: seq<Invocation>, xs: seq<Invocation>, ys: seq<Invocation>)
    ensures RunInOrder(accepts, history, xs + ys) ==
      var (trace, outcome) := RunInOrder(accepts, history, xs);
      if outcome.Fail? then (trace, outcome) else RunInOrder(accepts, trace, ys)
    decreases |xs|
  {
    if xs == [] {
      assert xs + ys == ys;
    } else {
      assert (xs + ys)[0] == xs[0] && (xs + ys)[1..] == xs[1..] + ys;
      if accepts(history, xs[0]) {
        RunInOrderAppend(accepts, history + [xs[0]], xs[1..], ys);
      }
    }
  }

  /** The host machine, as the provisioning code sees it. */
  class Host {
    /** util.Exists on this host. */
    const probe: string -> Probe
    /** The exit status of an etcdctl invocation, given those that ran before it. */
    const accepts: Oracle
    /** Whether certs.CreateTenantClientCertAndKeyFiles succeeds for a tenant. */
    const certOk: string -> bool
    /** Every etcdctl invocation started so far, in order. */
    var trace: seq<Invocation>
    /** Every tenant a client certificate was requested for, in order. */
    var certRequests: seq<string>

    constructor (probe: string -> Probe, accepts: Oracle, certOk: string -> bool)
      ensures this.probe == probe && this.accepts == accepts && this.certOk == certOk
      ensures trace == [] && certRequests == []
    {
      this.probe := probe;
      this.accepts := accepts;
      this.certOk := certOk;
      trace := [];
      certRequests := [];
    }

    /** exec.Command(inv.exe, inv.args...).CombinedOutput(): runs the
        process and reports whether it exited successfully. */
    method Execute(inv: Invocation) returns (ok: bool)
      modifies this`trace
      ensures trace == old(trace) + [inv]
      ensures ok == accepts(old(trace), inv)
    {
      ok := accepts(trace, inv);
      trace := trace + [inv];
    }

    /** certs.CreateTenantClientCertAndKeyFiles(cfg, name). */
    method IssueTenantCert(name: string) returns (ok: bool)
      modifies this`certRequests
      ensures certRequests == old(certRequests) + [name]
      ensures ok == certOk(name)
    {
      ok := certOk(name);
      certRequests := certRequests + [name];
    }
  }
}
