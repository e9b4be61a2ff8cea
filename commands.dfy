/** The argument vectors that auth/auth.go hands to etcdctl, and the string
    tests it makes before building them: the version check of
    ensureEtcdctlPath and the '/' check on a tenant name. */
module Commands {

  /** Go's strings.HasPrefix. */
  predicate HasPrefix(s: string, prefix: string) {
    |prefix| <= |s| && s[..|prefix|] == prefix
  }

  /** ensureEtcdctlPath refuses any version string that starts with "2":
      "2.3", and also "20" or "2", but not "" or "3.5". */
  function RejectsVersion(version: string): (b: bool)
    ensures b <==> |version| > 0 && version[0] == '2'
  {
    HasPrefix(version, "2")
  }

  /** The key prefix a tenant is granted read-write access to: "/<name>/". */
  function PermissionPrefix(name: string): string {
    "/" + name + "/"
  }

  /** `etcdctl user add <user>:<password>` */
  function UserAdd(user: string, password: string): seq<string> {
    ["user", "add", user + ":" + password]
  }

  /** `etcdctl role add <role>` */
  function RoleAdd(role: string): seq<string> {
    ["role", "add", role]
  }

  /** `etcdctl role grant-permission <role> --prefix=true readwrite <prefix>` */
  function GrantPrefixReadWrite(role: string, prefix: string): seq<string> {
    ["role", "grant-permission", role, "--prefix=true", "readwrite", prefix]
  }

  /** `etcdctl user grant-role <user> <role>` */
  function UserGrantRole(user: string, role: string): seq<string> {
    ["user", "grant-role", user, role]
  }

  /** `etcdctl auth enable` */
  const AUTH_ENABLE: seq<string> := ["auth", "enable"]

  /** The four commands that provision tenant `name`, in the order they run:
      create the user with `password`, create the role of the same name,
      grant that role read-write access under "/<name>/", bind the role to
      the user. */
  function TenantArgs(name: string, password: string): seq<seq<string>> {
    [ UserAdd(name, password),
      RoleAdd(name),
      GrantPrefixReadWrite(name, PermissionPrefix(name)),
      UserGrantRole(name, name) ]
  }

  /** The credential of `user add` is "<user>:<password>": when the user
      name has no ':', its first ':' sits right after the name, so the name
      and the password are read back from either side of it. */
  lemma CredentialSplits(user: string, password: string)
    requires ':' !in user
    ensures var cred := UserAdd(user, password)[2];
      && |cred| == |user| + 1 + |password|
      && (forall i :: 0 <= i < |user| ==> cred[i] != ':')
      && cred[|user|] == ':'
      && cred[..|user|] == user
      && cred[|user| + 1..] == password
  {
    var cred := UserAdd(user, password)[2];
    assert cred == user + ":" + password;
    assert forall i :: 0 <= i < |user| ==> cred[i] == user[i];
  }

  /** The name check lets ':' through: for tenant "a:b" the credential's
      first ':' falls inside the name, so a reader splitting there takes the
      user to be "a". */
  lemma ColonNameShiftsCredential(password: string)
    ensures var cred := UserAdd("a:b", password)[2];
      cred[1] == ':' && cred[..1] == "a" != "a:b"
  {
    assert UserAdd("a:b", password)[2] == "a:b" + ":" + password;
  }

  /** When a key lies under the prefixes of two names of different lengths,
      the longer name has a '/' where the shorter prefix has its closing one. */
  lemma LongerNameHasSlash(short: string, long: string, key: string)
    requires |short| < |long|
    requires HasPrefix(key, PermissionPrefix(short))
    requires HasPrefix(key, PermissionPrefix(long))
    ensures long[|short|] == '/'
  {
    var i := |short| + 1;
    assert key[i] == key[..|PermissionPrefix(short)|][i] == PermissionPrefix(short)[i];
    assert key[i] == key[..|PermissionPrefix(long)|][i] == PermissionPrefix(long)[i];
  }

  /** Why a tenant name may not contain '/': for names without it, the key
      ranges granted to two tenants overlap only when the tenants are the
      same, so no tenant can read or write under another's prefix. */
  lemma PrefixesIsolated(name1: string, name2: string, key: string)
    requires '/' !in name1 && '/' !in name2
    requires HasPrefix(key, PermissionPrefix(name1))
    requires HasPrefix(key, PermissionPrefix(name2))
    ensures name1 == name2
  {
    if |name1| < |name2| {
      LongerNameHasSlash(name1, name2, key);
    } else if |name2| < |name1| {
      LongerNameHasSlash(name2, name1, key);
    } else {
      var p1, p2 := PermissionPrefix(name1), PermissionPrefix(name2);
      assert p1 == key[..|p1|] == p2;
      assert name1 == p1[1..|p1| - 1] == p2[1..|p2| - 1] == name2;
    }
  }

  /** The tenant commands grant read-write access over a whole prefix, and
      two tenants with different names that pass the '/' check are granted
      key ranges no key lies in both of. */
  lemma TenantGrantsDisjoint(name1: string, password1: string, name2: string, password2: string, key: string)
    requires '/' !in name1 && '/' !in name2 && name1 != name2
    ensures var grant1, grant2 := TenantArgs(name1, password1)[2], TenantArgs(name2, password2)[2];
      && grant1[3] == "--prefix=true" && grant1[4] == "readwrite"
      && !(HasPrefix(key, grant1[5]) && HasPrefix(key, grant2[5]))
  {
    if HasPrefix(key, PermissionPrefix(name1)) && HasPrefix(key, PermissionPrefix(name2)) {
      PrefixesIsolated(name1, name2, key);
    }
  }

  /** Without the check, tenants "a" and "a/b" would share the key "/a/b/". */
  lemma SlashBreaksIsolation()
    ensures "a" != "a/b"
    ensures HasPrefix("/a/b/", PermissionPrefix("a")) && HasPrefix("/a/b/", PermissionPrefix("a/b"))
  {
    assert PermissionPrefix("a") == "/a/";
    assert "/a/b/"[..3] == "/a/";
  }
}
