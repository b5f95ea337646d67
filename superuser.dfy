/**
 * The idempotent bootstrap of the `admin` account: create it as a superuser with password
 * `admin`, or promote an existing `admin` and reset its password.
 * A `save()` that raises (an integrity error or any other) is modelled by `failing`.
 */
module SuperuserBootstrap {
  import opened Wrappers
  import opened Accounts

  const AdminPassword: string := "admin"
  const AdminEmail: string := "admin@example.com"

  /** The row `User.objects.create_superuser('admin', 'admin@example.com', 'admin')` inserts. */
  function FreshAdmin(): (r: UserRecord)
    ensures r.isSuperuser && r.isStaff && r.isActive && !r.emailVerified
    ensures r.email == AdminEmail && r.pwHash == Hashed(AdminPassword)
  {
    UserRecord(AdminEmail, true, true, true, false, Hashed(AdminPassword))
  }

  /** The `admin` row after the bootstrap, given the row as it was (if any). */
  function BootstrappedAdmin(current: Option<UserRecord>): (r: UserRecord)
    ensures r.isSuperuser && r.pwHash == Hashed(AdminPassword)
    ensures current.None? ==> r == FreshAdmin()
    ensures current.Some? && !current.value.isSuperuser ==>
              r == current.value.(isSuperuser := true, isStaff := true, pwHash := Hashed(AdminPassword))
    ensures current.Some? && current.value.isSuperuser ==>
              r == current.value.(pwHash := Hashed(AdminPassword))
  {
    match current
    case None => FreshAdmin()
    case Some(a) =>
      if !a.isSuperuser then a.(isSuperuser := true, isStaff := true, pwHash := Hashed(AdminPassword))
      else a.(pwHash := Hashed(AdminPassword))
  }

  function Lookup(m: Users, u: string): Option<UserRecord> {
    if u in m then Some(m[u]) else None
  }

  /** The table after a successful `create_superuser()`. */
  function Bootstrapped(m: Users): (m': Users)
    ensures m'.Keys == m.Keys + {AdminName}
    ensures m'[AdminName].isSuperuser && m'[AdminName].pwHash == Hashed(AdminPassword)
    ensures forall u :: u in m && u != AdminName ==> m'[u] == m[u]
    ensures AdminName in m && m[AdminName].isSuperuser ==> m'[AdminName].isStaff == m[AdminName].isStaff
    ensures AdminName in m && !m[AdminName].isSuperuser ==> m'[AdminName].isStaff
    ensures AdminName in m ==> m'[AdminName].email == m[AdminName].email
    ensures AdminName !in m ==> m'[AdminName].email == AdminEmail
  {
    m[AdminName := BootstrappedAdmin(Lookup(m, AdminName))]
  }

  /** Running the bootstrap again changes nothing. */
  lemma {:induction false} BootstrapIdempotent(m: Users)
    ensures Bootstrapped(Bootstrapped(m)) == Bootstrapped(m)
  {
    var b := Bootstrapped(m);
    assert Lookup(b, AdminName) == Some(b[AdminName]);
    assert BootstrappedAdmin(Some(b[AdminName])) == b[AdminName];
  }

  /** The one row the bootstrap writes is `admin`; `ok` is false iff that save raises. */
  method CreateSuperuser(t: UserTable, failing: set<string>) returns (ok: bool)
    modifies t
    ensures ok <==> AdminName !in failing
    ensures t.users == if ok then Bootstrapped(old(t.users)) else old(t.users)
  {
    if AdminName in failing {
      return false;
    }
    if AdminName in t.users {
      var adminUser := t.users[AdminName];
      if !adminUser.isSuperuser {
        adminUser := adminUser.(isSuperuser := true, isStaff := true);
        adminUser := adminUser.(pwHash := Hashed(AdminPassword));
      } else {
        adminUser := adminUser.(pwHash := Hashed(AdminPassword));
      }
      t.users := t.users[AdminName := adminUser];
    } else {
      t.users := t.users[AdminName := UserRecord(AdminEmail, true, true, true, false, Hashed(AdminPassword))];
    }
    ok := true;
  }
}
