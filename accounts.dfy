/**
 * The account store: Django's `User` row joined with its one-to-one `UserProfile`
 * (only the `is_email_verified` flag of the profile matters here), kept as a table
 * from username to record.
 */
module Accounts {

  /** The one account name that may hold superuser rights. */
  const AdminName: string := "admin"

  /**
   * A stored password. Hashing is not modelled: `Hashed(raw)` stands for "a hash that
   * `check_password` accepts for exactly `raw`", so the raw text is never compared directly.
   */
  datatype PasswordHash = Unusable | Hashed(raw: string)

  datatype UserRecord = UserRecord(
    email: string,
    isActive: bool,
    isStaff: bool,
    isSuperuser: bool,
    emailVerified: bool,   // the profile's is_email_verified
    pwHash: PasswordHash)

  type Users = map<string, UserRecord>

  /** The `auth_user` table (with profiles), updated in place by the scripts and views. */
  class UserTable {
    var users: Users

    constructor (initial: Users)
      ensures users == initial
    {
      users := initial;
    }
  }

  /** `User.objects.filter(is_superuser=True)`. */
  function Superusers(m: Users): (s: set<string>)
    ensures forall u :: u in s <==> u in m && m[u].isSuperuser
  {
    set u | u in m && m[u].isSuperuser
  }

  /** `User.objects.filter(is_staff=True, is_superuser=False)`. */
  function RegularAdmins(m: Users): (s: set<string>)
    ensures forall u :: u in s <==> u in m && m[u].isStaff && !m[u].isSuperuser
  {
    set u | u in m && m[u].isStaff && !m[u].isSuperuser
  }

  /** `User.objects.filter(email=email).exists()` (exact comparison). */
  predicate EmailTaken(m: Users, email: string) {
    exists u | u in m :: m[u].email == email
  }

  /** No two accounts share an e-mail address. */
  predicate UniqueEmails(m: Users) {
    forall u, v :: u in m && v in m && u != v ==> m[u].email != m[v].email
  }

  /** Inserting an account whose address no account holds keeps the addresses unique. */
  lemma {:induction false} InsertKeepsEmailsUnique(m: Users, u: string, r: UserRecord)
    requires UniqueEmails(m) && u !in m && !EmailTaken(m, r.email)
    ensures UniqueEmails(m[u := r])
  {
    var m' := m[u := r];
    forall a, b | a in m' && b in m' && a != b
      ensures m'[a].email != m'[b].email
    {
      if a == u {
        assert m[b].email != r.email;
      } else if b == u {
        assert m[a].email != r.email;
      }
    }
  }

  /**
   * A row as `User.objects.create_user` leaves it: active, neither staff nor superuser,
   * the password hashed, and a freshly provisioned profile that is not yet verified.
   */
  function NewUser(email: string, password: string): (r: UserRecord)
    ensures r.isActive && !r.isStaff && !r.isSuperuser && !r.emailVerified
    ensures r.email == email && r.pwHash == Hashed(password)
  {
    UserRecord(email, true, false, false, false, Hashed(password))
  }
}
