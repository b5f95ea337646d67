/**
 * The account endpoints: registration (store an inactive account, then send one
 * verification mail), e-mail verification, the superuser-only admin provisioning endpoint,
 * the staff listing and the staff check.
 *
 * The token generator, the base64 codec of the user key and the mail transport are not
 * modelled; they are parameters. A user's key is its username.
 */
module UserViews {
  import opened Wrappers
  import opened Text
  import opened Accounts
  import opened UserManager
  import opened UserSerializers

  // ---------------------------------------------------------------- registration

  /** A verification mail: its recipient and the uid/token pair of the link it carries. */
  datatype Mail = Mail(to: string, uid: string, token: string)

  /** The mail `send_verification_email` sends for the account just stored from cleaned data `c`. */
  function VerificationMail(c: RegisterData, encodeUid: string -> string,
                            makeToken: (string, UserRecord) -> string): (mail: Mail)
    requires c.email.Some?
    ensures mail.to == c.email.value
    ensures mail.uid == encodeUid(c.username) && mail.token == makeToken(c.username, Registered(c))
  {
    Mail(c.email.value, encodeUid(c.username), makeToken(c.username, Registered(c)))
  }

  /**
   * `RegisterView.create` once the fields have cleaned the request into `c`: 400 when a check
   * rejects it; otherwise the account is stored and one mail is sent (201). Data without an
   * e-mail passes the checks, but `create` raises on it: a server error (500) with nothing
   * stored. When the mail transport raises (`mailFails`) the request ends in a server error
   * (500) with the account already stored and no mail sent.
   */
  method RegisterCleaned(t: UserTable, c: RegisterData, v: FieldValidators,
                         encodeUid: string -> string, makeToken: (string, UserRecord) -> string, mailFails: bool)
    returns (status: nat, sent: seq<Mail>)
    modifies t
    ensures status == 400 <==> !IsValidCleaned(c, old(t.users), v)
    ensures status == 400 || c.email.None? ==> t.users == old(t.users) && sent == []
    ensures status != 400 && c.email.Some? ==>
              c.username !in old(t.users) && t.users == old(t.users)[c.username := Registered(c)]
    ensures status == 201 <==> IsValidCleaned(c, old(t.users), v) && c.email.Some? && !mailFails
    ensures status == 201 ==> sent == [VerificationMail(c, encodeUid, makeToken)]
    ensures status != 201 ==> sent == []
    ensures status in {201, 400, 500}
  {
    sent := [];
    var errors := FieldErrors(c, t.users, v);
    if errors != {} {
      return 400, sent;
    }
    var checked := Validate(c, t.users);
    if checked.Err? {
      return 400, sent;
    }
    assert "username" !in errors;
    var ok := Create(t, checked.value);
    if !ok {
      return 500, sent;
    }
    if mailFails {
      return 500, sent;
    }
    sent := sent + [Mail(c.email.value, encodeUid(c.username), makeToken(c.username, t.users[c.username]))];
    status := 201;
  }

  /** `RegisterView.create` on the request as sent: its fields are cleaned first. */
  method Register(t: UserTable, d: RegisterData, v: FieldValidators,
                  encodeUid: string -> string, makeToken: (string, UserRecord) -> string, mailFails: bool)
    returns (status: nat, sent: seq<Mail>)
    modifies t
    ensures status == 400 <==> !IsValid(d, old(t.users), v)
    ensures status == 400 || d.email.None? ==> t.users == old(t.users) && sent == []
    ensures status != 400 && d.email.Some? ==> var c := Cleaned(d);
              c.username !in old(t.users) && t.users == old(t.users)[c.username := Registered(c)]
    ensures status == 201 <==> IsValid(d, old(t.users), v) && d.email.Some? && !mailFails
    ensures status == 201 ==> sent == [VerificationMail(Cleaned(d), encodeUid, makeToken)]
    ensures status != 201 ==> sent == []
    ensures status in {201, 400, 500}
  {
    status, sent := RegisterCleaned(t, Cleaned(d), v, encodeUid, makeToken, mailFails);
  }

  // ---------------------------------------------------------------- e-mail verification

  const VerifiedRedirect: string := "http://localhost:5173/login?verified=1"
  const FailedRedirect: string := "http://localhost:5173/login?verified=0"

  /** The table after a verification and the redirect target the view answers with. */
  datatype VerifyOutcome = VerifyOutcome(users: Users, redirect: string)

  /** The account activated and its profile marked verified. */
  function Activated(r: UserRecord): (r': UserRecord)
    ensures r'.isActive && r'.emailVerified
    ensures r' == r.(isActive := true, emailVerified := true)
  {
    r.(isActive := true, emailVerified := true)
  }

  /** The link is accepted: the uid decodes to a stored user whose token check passes. */
  predicate LinkAccepted(m: Users, uidb64: string, token: string, decodeUid: string -> Option<string>,
                         checkToken: (string, UserRecord, string) -> bool)
  {
    decodeUid(uidb64).Some? && decodeUid(uidb64).value in m
    && checkToken(decodeUid(uidb64).value, m[decodeUid(uidb64).value], token)
  }

  /**
   * `VerifyEmailView.get`: an accepted link activates exactly that account and redirects with
   * `verified=1`; an undecodable uid, an unknown user or a rejected token change nothing and
   * redirect with `verified=0`.
   */
  function Verification(m: Users, uidb64: string, token: string, decodeUid: string -> Option<string>,
                        checkToken: (string, UserRecord, string) -> bool): (o: VerifyOutcome)
    ensures o.redirect == VerifiedRedirect <==> LinkAccepted(m, uidb64, token, decodeUid, checkToken)
    ensures o.redirect == VerifiedRedirect || o.redirect == FailedRedirect
    ensures o.users.Keys == m.Keys
    ensures !LinkAccepted(m, uidb64, token, decodeUid, checkToken) ==> o.users == m
    ensures LinkAccepted(m, uidb64, token, decodeUid, checkToken) ==>
              var u := decodeUid(uidb64).value;
              o.users[u].isActive && o.users[u].emailVerified
              && o.users[u].(isActive := m[u].isActive, emailVerified := m[u].emailVerified) == m[u]
              && forall v :: v in m && v != u ==> o.users[v] == m[v]
  {
    if LinkAccepted(m, uidb64, token, decodeUid, checkToken) then
      var u := decodeUid(uidb64).value;
      VerifyOutcome(m[u := Activated(m[u])], VerifiedRedirect)
    else
      VerifyOutcome(m, FailedRedirect)
  }

  /** Following an accepted link a second time leaves the table as the first visit left it. */
  lemma {:induction false} VerifyTwiceSameTable(m: Users, uidb64: string, token: string,
                                                decodeUid: string -> Option<string>,
                                                checkToken: (string, UserRecord, string) -> bool)
    requires LinkAccepted(m, uidb64, token, decodeUid, checkToken)
    ensures var m1 := Verification(m, uidb64, token, decodeUid, checkToken).users;
            Verification(m1, uidb64, token, decodeUid, checkToken).users == m1
  {
    var u := decodeUid(uidb64).value;
    var m1 := Verification(m, uidb64, token, decodeUid, checkToken).users;
    assert m1[u] == Activated(m[u]);
    assert Activated(m1[u]) == m1[u];
    assert m1[u := Activated(m1[u])] == m1;
  }

  /** A freshly registered account becomes active and verified through an accepted link. */
  lemma {:induction false} RegisterThenVerify(m: Users, d: RegisterData, uidb64: string, token: string,
                                              decodeUid: string -> Option<string>,
                                              checkToken: (string, UserRecord, string) -> bool)
    requires d.email.Some? && decodeUid(uidb64) == Some(d.username)
    requires checkToken(d.username, Registered(d), token)
    ensures var m1 := m[d.username := Registered(d)];
            var o := Verification(m1, uidb64, token, decodeUid, checkToken);
            o.redirect == VerifiedRedirect && o.users[d.username].isActive
            && o.users[d.username].emailVerified && o.users[d.username].email == d.email.value
  {
    var m1 := m[d.username := Registered(d)];
    assert LinkAccepted(m1, uidb64, token, decodeUid, checkToken);
  }

  /** The view, updating the account in place. */
  method VerifyEmail(t: UserTable, uidb64: string, token: string, decodeUid: string -> Option<string>,
                     checkToken: (string, UserRecord, string) -> bool)
    returns (redirect: string)
    modifies t
    ensures VerifyOutcome(t.users, redirect) == Verification(old(t.users), uidb64, token, decodeUid, checkToken)
  {
    var uid := decodeUid(uidb64);
    if uid.Some? && uid.value in t.users && checkToken(uid.value, t.users[uid.value], token) {
      var user := t.users[uid.value];
      user := user.(isActive := true);
      user := user.(emailVerified := true);
      t.users := t.users[uid.value := user];
      return VerifiedRedirect;
    }
    redirect := FailedRedirect;
  }

  // ---------------------------------------------------------------- admin provisioning

  const ForbiddenMessage: string := "No tienes permisos para crear usuarios administradores"
  const RequiredMessage: string := "Todos los campos son obligatorios"
  const UsernameInUseMessage: string := "El nombre de usuario ya est\U{00E1} en uso"
  const EmailInUseMessage: string := "El correo electr\U{00F3}nico ya est\U{00E1} en uso"

  /** The body of an admin-provisioning request; `None` is a key absent from the request. */
  datatype AdminRequest = AdminRequest(name: Option<string>, email: Option<string>,
                                       password: Option<string>, role: Option<string>)

  /**
   * `Provision` stores `row` under `username`; `ServerError` is the integrity error the insert
   * raises, which the view's `except` turns into a 500 answer.
   */
  datatype AdminDecision =
    | Forbidden
    | BadRequest(message: string)
    | ServerError
    | Provision(username: string, row: UserRecord)

  /** A value that Python's `all([...])` finds truthy: present and non-empty. */
  predicate Truthy(v: Option<string>) { v.Some? && v.value != [] }

  /** `role = data.get('role', 'admin')`. */
  function Role(q: AdminRequest): string { q.role.GetOr("admin") }

  /**
   * The row `create_admin_user` stores: active staff, superuser exactly for the superadmin
   * role, with the e-mail as `create_user` normalizes it.
   */
  function AdminRow(email: string, password: string, role: string): (r: UserRecord)
    ensures r.isActive && r.isStaff && r.emailVerified
    ensures r.isSuperuser <==> role == "superadmin"
    ensures r.email == NormalizeEmail(email) && r.pwHash == Hashed(password)
  {
    NewUser(NormalizeEmail(email), password).(isStaff := true, isSuperuser := role == "superadmin",
                                               emailVerified := true)
  }

  /**
   * The decision of `create_admin_user`, check by check in the order the view makes them:
   * the requester's superuser flag, then the three required fields, then a taken username,
   * then a taken e-mail. Both lookups use the submitted text; `create_user` then stores the
   * username as `normalizeUsername` (Unicode NFKC) gives it, and the insert fails when that
   * name is taken.
   */
  function DecideAdmin(requester: UserRecord, q: AdminRequest, m: Users,
                       normalizeUsername: string -> string): (r: AdminDecision)
    ensures !requester.isSuperuser ==> r == Forbidden
    ensures requester.isSuperuser && !(Truthy(q.name) && Truthy(q.email) && Truthy(q.password)) ==>
              r == BadRequest(RequiredMessage)
    ensures r.Provision? <==>
              requester.isSuperuser && Truthy(q.name) && Truthy(q.email) && Truthy(q.password)
              && q.name.value !in m && !EmailTaken(m, q.email.value) && normalizeUsername(q.name.value) !in m
    ensures r.Provision? ==>
              r.username == normalizeUsername(q.name.value) && r.username !in m
              && r.row == AdminRow(q.email.value, q.password.value, Role(q))
    ensures r.BadRequest? ==> r.message in {RequiredMessage, UsernameInUseMessage, EmailInUseMessage}
    ensures r == BadRequest(UsernameInUseMessage) <==>
              requester.isSuperuser && Truthy(q.name) && Truthy(q.email) && Truthy(q.password) && q.name.value in m
    ensures r == BadRequest(EmailInUseMessage) <==>
              requester.isSuperuser && Truthy(q.name) && Truthy(q.email) && Truthy(q.password)
              && q.name.value !in m && EmailTaken(m, q.email.value)
    ensures r == ServerError <==>
              requester.isSuperuser && Truthy(q.name) && Truthy(q.email) && Truthy(q.password)
              && q.name.value !in m && !EmailTaken(m, q.email.value) && normalizeUsername(q.name.value) in m
  {
    if !requester.isSuperuser then Forbidden
    else if !(Truthy(q.name) && Truthy(q.email) && Truthy(q.password)) then BadRequest(RequiredMessage)
    else if q.name.value in m then BadRequest(UsernameInUseMessage)
    else if EmailTaken(m, q.email.value) then BadRequest(EmailInUseMessage)
    else if normalizeUsername(q.name.value) in m then ServerError
    else Provision(normalizeUsername(q.name.value), AdminRow(q.email.value, q.password.value, Role(q)))
  }

  /**
   * Provisioning never introduces a second holder of an e-mail address when the address is
   * submitted in the form `create_user` stores it.
   */
  lemma {:induction false} ProvisionKeepsEmailsUnique(requester: UserRecord, q: AdminRequest, m: Users,
                                                      normalizeUsername: string -> string)
    requires UniqueEmails(m)
    requires DecideAdmin(requester, q, m, normalizeUsername).Provision?
    requires NormalizeEmail(q.email.value) == q.email.value
    ensures var r := DecideAdmin(requester, q, m, normalizeUsername);
            r.username !in m && UniqueEmails(m[r.username := r.row])
  {
    var r := DecideAdmin(requester, q, m, normalizeUsername);
    InsertKeepsEmailsUnique(m, r.username, r.row);
  }

  /**
   * The e-mail check compares the submitted text, but the stored address is normalized: an
   * address that differs from a stored one only in the case of its domain passes the check
   * and gives that address a second holder.
   */
  lemma {:induction false} ProvisionMayDuplicateEmail(requester: UserRecord, q: AdminRequest, m: Users,
                                                      normalizeUsername: string -> string)
    requires DecideAdmin(requester, q, m, normalizeUsername).Provision?
    requires EmailTaken(m, NormalizeEmail(q.email.value))
    ensures var r := DecideAdmin(requester, q, m, normalizeUsername);
            !UniqueEmails(m[r.username := r.row])
  {
    var r := DecideAdmin(requester, q, m, normalizeUsername);
    var u :| u in m && m[u].email == NormalizeEmail(q.email.value);
    var m' := m[r.username := r.row];
    assert u != r.username && m'[u].email == m'[r.username].email;
  }

  /**
   * A provisioned superadmin is a superuser that is not `admin`: the next admin-role pass
   * demotes it to plain staff.
   */
  lemma SuperadminIsOtherSuperuser(requester: UserRecord, q: AdminRequest, m: Users,
                                   normalizeUsername: string -> string)
    requires DecideAdmin(requester, q, m, normalizeUsername).Provision? && q.role == Some("superadmin")
    requires normalizeUsername(q.name.value) != AdminName
    ensures var r := DecideAdmin(requester, q, m, normalizeUsername);
            r.row.isSuperuser && r.username != AdminName
  {
  }

  /** The answer of the view and the table it leaves. */
  datatype AdminResponse = AdminResponse(status: nat, error: string, users: Users)

  /**
   * The answer to a decision: 403 or 400 with the message and nothing stored, 500 with
   * nothing stored, or 201 with exactly the decided row added.
   */
  function Respond(r: AdminDecision, m: Users): AdminResponse {
    match r
    case Forbidden => AdminResponse(403, ForbiddenMessage, m)
    case BadRequest(message) => AdminResponse(400, message, m)
    case ServerError => AdminResponse(500, [], m)
    case Provision(username, row) => AdminResponse(201, [], m[username := row])
  }

  /**
   * `create_admin_user`: the status code and error text, and the row stored on success. The
   * text of a 500 answer is the exception's own message, which is not modelled.
   */
  method CreateAdminUser(t: UserTable, requester: UserRecord, q: AdminRequest,
                         normalizeUsername: string -> string)
    returns (status: nat, error: string)
    modifies t
    ensures AdminResponse(status, error, t.users)
            == Respond(DecideAdmin(requester, q, old(t.users), normalizeUsername), old(t.users))
  {
    if !requester.isSuperuser {
      return 403, ForbiddenMessage;
    }
    var username := q.name;
    var email := q.email;
    var password := q.password;
    var role := if q.role.Some? then q.role.value else "admin";
    if !(Truthy(username) && Truthy(email) && Truthy(password)) {
      return 400, RequiredMessage;
    }
    if username.value in t.users {
      return 400, UsernameInUseMessage;
    }
    if exists u | u in t.users :: t.users[u].email == email.value {
      return 400, EmailInUseMessage;
    }
    var key := normalizeUsername(username.value);
    if key in t.users {
      return 500, [];
    }
    var user := NewUser(NormalizeEmail(email.value), password.value);
    if role == "superadmin" {
      user := user.(isStaff := true, isSuperuser := true);
    } else {
      user := user.(isStaff := true, isSuperuser := false);
    }
    user := user.(emailVerified := true);
    t.users := t.users[key := user];
    status, error := 201, [];
  }

  // ---------------------------------------------------------------- staff listing

  /** The permission of `get_admin_users`: staff or superuser. */
  predicate MayListAdmins(requester: UserRecord) { requester.isStaff || requester.isSuperuser }

  /** `check_is_staff`: the requester's own staff flag. */
  function CheckIsStaff(requester: UserRecord): (r: bool)
    ensures r == requester.isStaff
    ensures r ==> MayListAdmins(requester)
  {
    requester.isStaff
  }

  /** A superuser that is not staff may list the admins, yet the staff check answers false. */
  lemma StaffCheckNarrowerThanListing()
    ensures var r := UserRecord("", true, false, true, false, Unusable);
            MayListAdmins(r) && !CheckIsStaff(r)
  {
  }

  /** `order_by('-is_superuser', 'username')`: superusers first, then by username. */
  predicate ListedBefore(m: Users, a: string, b: string)
    requires a in m && b in m
  {
    (m[a].isSuperuser && !m[b].isSuperuser)
    || (m[a].isSuperuser == m[b].isSuperuser && StrLess(a, b))
  }

  lemma ListedBeforeTotal(m: Users, a: string, b: string)
    requires a in m && b in m && a != b
    ensures ListedBefore(m, a, b) || ListedBefore(m, b, a)
  {
    StrLessTotal(a, b);
  }

  lemma ListedBeforeAsymmetric(m: Users, a: string, b: string)
    requires a in m && b in m && ListedBefore(m, a, b)
    ensures !ListedBefore(m, b, a)
  {
    if m[a].isSuperuser == m[b].isSuperuser { StrLessAsymmetric(a, b); }
  }

  lemma ListedBeforeTransitive(m: Users, a: string, b: string, c: string)
    requires a in m && b in m && c in m && ListedBefore(m, a, b) && ListedBefore(m, b, c)
    ensures ListedBefore(m, a, c)
  {
    if m[a].isSuperuser == m[b].isSuperuser == m[c].isSuperuser { StrLessTransitive(a, b, c); }
  }

  /** Every pair of positions is in listing order (so no username appears twice). */
  predicate InListingOrder(m: Users, s: seq<string>) {
    && (forall i :: 0 <= i < |s| ==> s[i] in m)
    && (forall i, j :: 0 <= i < j < |s| ==> ListedBefore(m, s[i], s[j]))
  }

  /** `filter(is_staff=True)`. */
  function StaffOf(m: Users): (s: set<string>)
    ensures forall u :: u in s <==> u in m && m[u].isStaff
  {
    set u | u in m && m[u].isStaff
  }

  /** Places `x` in a list already in listing order. */
  function Insert(m: Users, s: seq<string>, x: string): (r: seq<string>)
    requires InListingOrder(m, s) && x in m && x !in s
    ensures InListingOrder(m, r)
    ensures |r| == |s| + 1
    ensures forall y :: y in r <==> y in s || y == x
  {
    if s == [] then [x]
    else if ListedBefore(m, x, s[0]) then
      forall j | 0 <= j < |s| ensures ListedBefore(m, x, s[j]) {
        if j > 0 { ListedBeforeTransitive(m, x, s[0], s[j]); }
      }
      [x] + s
    else
      ListedBeforeTotal(m, x, s[0]);
      var rest := Insert(m, s[1..], x);
      forall k | 0 <= k < |rest| ensures ListedBefore(m, s[0], rest[k]) {
        if rest[k] != x {
          assert rest[k] in rest;
          assert rest[k] in s[1..];
          var j :| 0 <= j < |s[1..]| && s[1..][j] == rest[k];
          assert s[j + 1] == rest[k];
        }
      }
      [s[0]] + rest
  }

  /** Two lists in listing order with the same members are the same list. */
  lemma {:induction false} ListingUnique(m: Users, s: seq<string>, r: seq<string>)
    requires InListingOrder(m, s) && InListingOrder(m, r)
    requires forall y :: y in s <==> y in r
    ensures s == r
  {
    assert s == [] <==> r == [] by {
      if s != [] { assert s[0] in r; }
      if r != [] { assert r[0] in s; }
    }
    if s != [] && r != [] {
      if s[0] != r[0] {
        assert r[0] in s && s[0] in r;
        var i :| 0 <= i < |s| && s[i] == r[0];
        var j :| 0 <= j < |r| && r[j] == s[0];
        assert ListedBefore(m, s[0], s[i]);
        assert ListedBefore(m, r[0], r[j]);
        ListedBeforeAsymmetric(m, s[0], r[0]);
        assert false;
      }
      forall y ensures y in s[1..] <==> y in r[1..] {
        if y in s[1..] {
          var k :| 1 <= k < |s| && s[k] == y;
          ListedBeforeAsymmetric(m, s[0], s[k]);
          assert y in s;
          assert y in r;
          var l :| 0 <= l < |r| && r[l] == y;
          assert l != 0;
          assert r[1..][l - 1] == y;
        }
        if y in r[1..] {
          var k :| 1 <= k < |r| && r[k] == y;
          ListedBeforeAsymmetric(m, r[0], r[k]);
          assert y in r;
          assert y in s;
          var l :| 0 <= l < |s| && s[l] == y;
          assert l != 0;
          assert s[1..][l - 1] == y;
        }
      }
      ListingUnique(m, s[1..], r[1..]);
    }
  }

  /**
   * `get_admin_users`: 403 unless the requester may list admins; otherwise every staff
   * account exactly once, superusers first, then by username.
   */
  method GetAdminUsers(t: UserTable, requester: UserRecord) returns (status: nat, listing: seq<string>)
    ensures status == 403 <==> !MayListAdmins(requester)
    ensures status == 403 ==> listing == []
    ensures status == 200 <==> MayListAdmins(requester)
    ensures status == 200 ==> InListingOrder(t.users, listing)
    ensures status == 200 ==> forall u :: u in listing <==> u in StaffOf(t.users)
  {
    if !MayListAdmins(requester) {
      return 403, [];
    }
    var todo := set u | u in t.users && t.users[u].isStaff;
    listing := [];
    while todo != {}
      invariant InListingOrder(t.users, listing)
      invariant todo <= StaffOf(t.users)
      invariant forall u :: u in StaffOf(t.users) <==> u in listing || u in todo
      invariant forall u :: u in listing ==> u !in todo
      decreases |todo|
    {
      var u :| u in todo;
      listing := Insert(t.users, listing, u);
      todo := todo - {u};
    }
    status := 200;
  }
}
