/**
 * The registration serializer: per-field checks, the cross-field `validate` (password
 * confirmation first, then e-mail uniqueness), and `create`, which stores an inactive account.
 * Also the account serializer, whose `is_staff` field is read-only.
 *
 * An absent username or password field is modelled as the empty string: both are rejected
 * by the same required/blank checks and differ only in the message text. The e-mail field is
 * optional (`User.email` may be blank), so its absence is modelled as `None`: it passes every
 * check, and only `create`, which reads the key directly, fails on it.
 * The validators Django attaches to the fields (the username character set, the e-mail
 * syntax, `validate_password`) are parameters.
 */
module UserSerializers {
  import opened Wrappers
  import opened Text
  import opened Accounts

  /** The body of a registration request; `email` is `None` when the key is absent. */
  datatype RegisterData = RegisterData(username: string, email: Option<string>, password: string, password2: string)

  /** `attrs.get('email', '')`: the submitted address, or the empty string when absent. */
  function EmailText(d: RegisterData): string { d.email.GetOr("") }

  /**
   * The field validators: Django's `UnicodeUsernameValidator`, `EmailValidator` and the
   * password policy of `validate_password`.
   */
  datatype FieldValidators = FieldValidators(username: string -> bool, email: string -> bool,
                                             password: string -> bool)

  /**
   * What the four fields hand on to their checks: each is a `CharField` (or an `EmailField`,
   * derived from it) with `trim_whitespace` on, so surrounding white space is stripped before
   * any check runs, the passwords included.
   */
  function Cleaned(d: RegisterData): RegisterData {
    var email := if d.email.Some? then Some(Strip(d.email.value)) else None;
    RegisterData(Strip(d.username), email, Strip(d.password), Strip(d.password2))
  }

  /** A validation error: the field it is keyed by and its message. */
  datatype FieldError = FieldError(field: string, message: string)

  const MismatchMessage: string := "Las contrase\U{00F1}as no coinciden."
  const EmailTakenMessage: string := "Ya existe un usuario con este correo electr\U{00F3}nico."

  /** `max_length` of Django's `User.username`. */
  const UsernameMaxLength: nat := 150
  /** `max_length` of Django's `User.email`. */
  const EmailMaxLength: nat := 254

  /**
   * The fields that fail their own checks on the cleaned data, before `validate` runs:
   * `username` is required, at most 150 characters, accepted by the username validator and
   * unique; `email` may be blank but otherwise must be at most 254 characters and pass the
   * e-mail validator; `password` is required and must pass the password policy; `password2`
   * is required.
   */
  function FieldErrors(d: RegisterData, m: Users, v: FieldValidators): (e: set<string>)
    ensures "username" in e <==>
              d.username == [] || |d.username| > UsernameMaxLength || !v.username(d.username) || d.username in m
    ensures "email" in e <==> d.email.Some? && d.email.value != []
                              && (|d.email.value| > EmailMaxLength || !v.email(d.email.value))
    ensures "password" in e <==> d.password == [] || !v.password(d.password)
    ensures "password2" in e <==> d.password2 == []
    ensures e <= {"username", "email", "password", "password2"}
  {
    (if d.username == [] || |d.username| > UsernameMaxLength || !v.username(d.username) || d.username in m
     then {"username"} else {})
    + (if EmailText(d) != [] && (|EmailText(d)| > EmailMaxLength || !v.email(EmailText(d))) then {"email"}
       else {})
    + (if d.password == [] || !v.password(d.password) then {"password"} else {})
    + (if d.password2 == [] then {"password2"} else {})
  }

  /** `RegisterSerializer.validate`: the password confirmation, then e-mail uniqueness. */
  function Validate(d: RegisterData, m: Users): (r: Result<RegisterData, FieldError>)
    ensures r.Ok? <==> d.password == d.password2 && !EmailTaken(m, EmailText(d))
    ensures r.Ok? ==> r.value == d
    ensures d.password != d.password2 ==> r == Err(FieldError("password", MismatchMessage))
    ensures d.password == d.password2 && EmailTaken(m, EmailText(d)) ==>
              r == Err(FieldError("email", EmailTakenMessage))
  {
    if d.password != d.password2 then Err(FieldError("password", MismatchMessage))
    else if EmailTaken(m, EmailText(d)) then Err(FieldError("email", EmailTakenMessage))
    else Ok(d)
  }

  /** A mismatched confirmation is reported whatever the table holds: it is checked first. */
  lemma MismatchCheckedFirst(d: RegisterData, m1: Users, m2: Users)
    requires d.password != d.password2
    ensures Validate(d, m1) == Validate(d, m2)
    ensures Validate(d, m1).Err? && Validate(d, m1).error.field == "password"
  {
  }

  /** The checks of `serializer.is_valid()` on cleaned data: no field error, and `validate` accepts it. */
  predicate IsValidCleaned(c: RegisterData, m: Users, v: FieldValidators) {
    FieldErrors(c, m, v) == {} && Validate(c, m).Ok?
  }

  /** `serializer.is_valid()` on the request as sent. */
  predicate IsValid(d: RegisterData, m: Users, v: FieldValidators) {
    IsValidCleaned(Cleaned(d), m, v)
  }

  /**
   * The confirmation is compared after stripping: passwords that differ only in surrounding
   * white space match, and the stripped password is the one stored.
   */
  lemma ConfirmationComparedStripped(d: RegisterData, m: Users)
    requires Strip(d.password) == Strip(d.password2) && !EmailTaken(m, EmailText(Cleaned(d)))
    ensures Validate(Cleaned(d), m) == Ok(Cleaned(d))
    ensures d.email.Some? ==> Registered(Cleaned(d)).pwHash == Hashed(Strip(d.password))
  {
  }

  /** The row `create` stores for data that holds an e-mail: inactive, with the password only as a hash. */
  function Registered(d: RegisterData): (r: UserRecord)
    requires d.email.Some?
    ensures !r.isActive && !r.isStaff && !r.isSuperuser && !r.emailVerified
    ensures r.email == d.email.value && r.pwHash == Hashed(d.password)
  {
    NewUser(d.email.value, d.password).(isActive := false)
  }

  /**
   * `RegisterSerializer.create`: inserts the account under its username. Reading the absent
   * `email` key raises before anything is stored, and the insert raises (storing nothing)
   * when the username is already taken; `create` re-raises both.
   */
  method Create(t: UserTable, d: RegisterData) returns (ok: bool)
    modifies t
    ensures ok <==> d.email.Some? && d.username !in old(t.users)
    ensures ok ==> t.users == old(t.users)[d.username := Registered(d)]
    ensures !ok ==> t.users == old(t.users)
  {
    if d.email.None? {
      return false;
    }
    if d.username in t.users {
      return false;
    }
    var user := NewUser(d.email.value, d.password);
    user := user.(isActive := false);
    t.users := t.users[d.username := user];
    ok := true;
  }

  /** What a registration response echoes back: the two write-only password fields are absent. */
  datatype RegisterEcho = RegisterEcho(username: string, email: Option<string>)

  function Echo(d: RegisterData): (o: RegisterEcho)
    ensures o.username == d.username && o.email == d.email
  {
    RegisterEcho(d.username, d.email)
  }

  /** Valid registration data never introduces a second holder of an e-mail address. */
  lemma {:induction false} RegisterKeepsEmailsUnique(d: RegisterData, m: Users, v: FieldValidators)
    requires UniqueEmails(m) && IsValid(d, m, v)
    ensures Cleaned(d).username !in m
    ensures d.email.Some? ==> UniqueEmails(m[Cleaned(d).username := Registered(Cleaned(d))])
  {
    var c := Cleaned(d);
    assert "username" !in FieldErrors(c, m, v);
    if d.email.Some? {
      InsertKeepsEmailsUnique(m, c.username, Registered(c));
    }
  }

  /** A write through `UserSerializer`: each writable field is present or absent. */
  datatype UserUpdate = UserUpdate(email: Option<string>, isStaff: Option<bool>)

  /** `UserSerializer` update: `is_staff` is read-only, so a submitted value is ignored. */
  function ApplyUserUpdate(r: UserRecord, w: UserUpdate): (r': UserRecord)
    ensures r'.isStaff == r.isStaff && r'.isSuperuser == r.isSuperuser
    ensures r'.email == w.email.GetOr(r.email)
    ensures r'.(email := r.email) == r
  {
    r.(email := w.email.GetOr(r.email))
  }
}
