# etcdadm auth provisioning, modelled in Dafny

This project models the auth provisioning code of etcdadm (`auth/auth.go`).
That code drives `etcdctl` to do two jobs. The first is bootstrapping
authentication: it creates the `root` user with the password stored in the
configuration, and then runs `auth enable`. The second is creating a tenant:
it creates a user, a role of the same name, a read-write grant for that role
over the key prefix `/<name>/`, and the binding of the role to the user. After
that it writes the tenant's client certificate.

The model keeps the decisions the Go code makes and treats its environment as
oracles:

- `Etcdctl.Host` is the machine. `probe` stands for `util.Exists`, with three
  answers: present, absent, or an error. `accepts` stands for etcdctl's exit
  status. It may depend on every invocation that ran before, which is how a
  store that already holds a user or role refuses it. `certOk` stands for the
  certificate writer. The host records every etcdctl invocation in `trace`,
  and every certificate request in `certRequests`.
- `Passwords.RandomSource` is `math/rand`. It is an endless stream of indices
  into the 62-character alphabet.
- `Auth.EtcdAdmConfig` holds the three configuration fields the code reads or
  writes: `Version`, `EtcdctlShellWrapper` and `EtcdctlRootUserPassword`.

Each operation is a method. Its postcondition gives the exact invocations
appended to the trace, how far the random source moved, and the error
returned. The order of commands and the stop-at-first-failure behaviour are
specified once, by `Etcdctl.RunInOrder` and `Etcdctl.FirstRejected`, and the
lemmas beside them prove their properties.

Files: `passwords.dfy` (module `Passwords`), `commands.dfy` (argument vectors
and string checks, module `Commands`), `etcdctl.dfy` (oracles, errors and
sequencing, module `Etcdctl`), `auth.dfy` (the operations, module `Auth`), and
`scenarios.dfy` (client scenarios that use only the contracts, module
`Scenarios`).

Three points where the comments in `auth/auth.go` read differently from the
code. The model follows the code in each:
- The comment above `createUserAndRole` (auth/auth.go:83-87) calls it
  equivalent to four etcdctl commands, with `user add <name>` and no password,
  and mentions no check. The code first resolves etcdctl (the existence check,
  then the version check), then refuses a name containing `/`, and creates the
  user with a generated password. On a host without etcdctl, a name containing
  `/` is therefore reported as a missing executable, not as an invalid name.
- The doc comment of `EnableAuthWithRootUser` (auth/auth.go:46) says it
  creates the root user "with a randomly generated password". The password is
  in fact generated by `SetupRootUserConfig` (auth/auth.go:60-63);
  `EnableAuthWithRootUser` only reads it and fails when it is empty.
- The doc comment of `CreateTenant` (auth/auth.go:33) names the prefix
  `/name`; the grant the code issues (auth/auth.go:121) is over `/<name>/`,
  with the closing `/`, which is what keeps tenants apart.

## Model

| member | source | states |
|---|---|---|
| `Passwords.RandomPassword` | auth/auth.go:244-253 | draws exactly 16 indices from the source and returns the password they spell; the result has length 16 and is alphanumeric |
| `Passwords.PasswordOf` | auth/auth.go:246-252 | the password spelled by a sequence of indices has one character per index, each from A–Z, a–z or 0–9 |
| `Passwords.CharAt` | auth/auth.go:246 | the alphabet has 62 characters: A–Z at positions 0–25, a–z at 26–51, 0–9 at 52–61 |
| `Passwords.IndexOf` | auth/auth.go:246 | every alphanumeric character occurs in the alphabet, at the returned position |
| `Passwords.AlphabetIsAlphanumeric` | auth/auth.go:242-246 | every alphabet character is alphanumeric and occurs exactly once, so index → character is a bijection onto the alphanumeric characters |
| `Passwords.IndicesOfPasswordOf` | auth/auth.go:248-252 | the drawn indices can be recovered from the password (different draws give different passwords) |
| `Passwords.PasswordOfIndicesOf` | auth/auth.go:248-252 | every alphanumeric string is the password of some draw |
| `Passwords.PasswordOfDrawsStep` | auth/auth.go:248-251 | each loop turn of randomPassword appends the character of the next drawn index to what was built so far |
| `Passwords.RandomSource.Next` | auth/auth.go:250 | `rand.Intn(len(chars))` returns the stream's next index and advances by one |
| `Commands.RejectsVersion` | auth/auth.go:236 | a version is refused iff its first character is `2` (so "2.3", "20" and "2" are refused; "", "3.5" are not) |
| `Commands.CredentialSplits` | auth/auth.go:101-105 | the `user add` credential `<user>:<password>` has its first `:` right after a `:`-free user name, so name and password are recovered from either side |
| `Commands.ColonNameShiftsCredential` | auth/auth.go:95-105 | the name check lets `:` through: for tenant `a:b` the credential's first `:` comes after `a`, so the `:`-free condition of `CredentialSplits` is not guaranteed for tenant names |
| `Commands.TenantGrantsDisjoint` | auth/auth.go:95-122 | the grant command is read-write over a whole prefix (`--prefix=true readwrite`), and two different `/`-free tenant names are granted key ranges that share no key |
| `Commands.LongerNameHasSlash` | auth/auth.go:115-122 | if a key lies under the prefixes of a shorter and a longer name, the longer name has `/` where the shorter prefix closes |
| `Commands.PrefixesIsolated` | auth/auth.go:95-121 | for names without `/`, a key under both `/<name1>/` and `/<name2>/` forces name1 = name2, so two tenants never share keys |
| `Commands.SlashBreaksIsolation` | auth/auth.go:94-97 | without the `/` check, tenants `a` and `a/b` would share the key `/a/b/` |
| `Etcdctl.CheckEtcdctlPath` | auth/auth.go:226-240 | succeeds iff the wrapper exists and the version is not refused, and then returns the configured path unchanged; an existence-check error, a missing file and a 2.x version each give their own error, checked in that order |
| `Auth.EnsureEtcdctlPath` | auth/auth.go:226-240 | asks `util.Exists` about the configured wrapper; succeeds iff it is present and the version is not 2.x, returning the configured path; an existence-check error and a missing wrapper give their errors |
| `Etcdctl.FirstRejected` | auth/auth.go:132-136 | the result is the position of the first command etcdctl rejects, given the commands before it, or the count of commands if none is rejected |
| `Etcdctl.RunInOrder` | auth/auth.go:132-139 | running commands in order leaves the history plus every command up to and including the first rejected one, and returns that command's error; if none is rejected, all of them are recorded and the result is nil |
| `Etcdctl.StopsAtFirstRejection` | auth/auth.go:132-136 | if commands 0..k-1 are accepted and command k is rejected, the trace holds exactly the first k+1 commands and the error names command k |
| `Etcdctl.RunsAllWhenAccepted` | auth/auth.go:132-139 | if every command is accepted, all of them are recorded in order and the result is nil |
| `Etcdctl.RunInOrderAppend` | auth/auth.go:48-56 | running xs then ys in one sequence is the same as running xs and, only if it passed, running ys afterwards |
| `Etcdctl.Host.Execute` | auth/auth.go:74-79 | an etcdctl run is appended to the trace, and it succeeds iff the oracle accepts it given the earlier runs |
| `Etcdctl.Host.IssueTenantCert` | auth/auth.go:40-42 | the certificate request is recorded and succeeds iff the certificate oracle accepts the name |
| `Scenarios.PaymentsCommands` | auth/auth.go:101-130 | the four tenant commands for `payments`, written out: `user add payments:<password>`, `role add payments`, `role grant-permission payments --prefix=true readwrite /payments/`, `user grant-role payments payments` |
| `Scenarios.RootUserAddSpelledOut` | auth/auth.go:184-188 | the root user's command is `user add root:<password>` |
| `Auth.SetupRootUserConfig` | auth/auth.go:60-63 | always returns nil; changes only the root password, to the next 16-character alphanumeric password drawn, so it is non-empty |
| `Auth.AuthEnable` | auth/auth.go:65-81 | after a successful resolve, runs exactly `auth enable` and fails iff it fails; a failed resolve runs nothing |
| `Auth.CreateRootUser` | auth/auth.go:174-197 | resolve first, then refuse an empty root password without running anything; otherwise run exactly `user add root:<password>` |
| `Auth.CreateUser` | auth/auth.go:202-222 | after a successful resolve, draws a password and runs exactly `user add <user>:<password>`; a failed resolve runs and draws nothing |
| `Auth.CreateUserAndRole` | auth/auth.go:88-139 | resolve first, then refuse a name with `/` (neither case runs or draws anything); otherwise draw a password and run user add, role add, grant-permission over `/<name>/`, and grant-role, in that order, stopping at the first failure with no rollback |
| `Auth.RunCommands` | auth/auth.go:132-139 | runs the commands one at a time in order and returns at the first that fails; the trace and result are exactly those of `RunInOrder` |
| `Auth.EnableAuthWithRootUser` | auth/auth.go:48-56 | runs `user add root:<password>` and then `auth enable`, stopping at the first failure; `auth enable` never runs unless root creation succeeded |
| `Auth.CreateTenant` | auth/auth.go:36-44 | has the effect of createUserAndRole, and requests the certificate only if that returned nil; returns the first error; a nil result implies the name has no `/` |

## Left out

- Process execution (`exec.Command`, `CombinedOutput`) and the printing of etcdctl's output are I/O. Each run is reduced to its success or failure, which the `accepts` oracle decides.
- `util.Exists` is modelled as the host's `probe` oracle, not by its implementation. Its answer for a path stays fixed for the whole run, so both checks in `EnableAuthWithRootUser` see the same answer.
- `certs.CreateTenantClientCertAndKeyFiles` is not part of this model. It is a fallible step decided by the `certOk` oracle, and its files and cryptography are not modelled.
- Seeding `math/rand` from `time.Now()` is a clock and randomness concern. The random source is any stream of indices in [0, 62).
- Passwords.RandomPassword: states length and alphabet only, not the uniform distribution or unpredictability of the characters, because those are properties of the random source.
- The wording of each `fmt.Errorf` message is not modelled. Each kind of failure is one constructor of `AuthError`; the four etcdctl failure sites (auth/auth.go:77, 135, 193, 218) share `CommandFailed`. `UnsupportedVersion` carries the configured version, which the message at auth/auth.go:237 does not show. `CertificateFailed` stands for whatever error the certificate writer returns; `CreateTenant` passes that error on unchanged (auth/auth.go:40-41), and the model does not keep its content.
- `EtcdAdmConfig` carries only the three fields this code reads or writes.
- The commented-out code at auth/auth.go:140-169 is dead code and is not modelled.
- cmd/tenant.go is not modelled. It is CLI wiring (flag parsing, defaults, `log.Fatalf`) with no logic of its own.
- A tenant name containing `:` passes the name check, and its `user add` credential then has its first `:` inside the name. How etcdctl parses that credential is outside this code, so the model states the split only for `:`-free names (`Commands.CredentialSplits`) and exhibits the other case (`Commands.ColonNameShiftsCredential`).
- Concurrent provisioning of the same tenant is not modelled, because the code is sequential.
