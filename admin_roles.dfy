/**
 * The admin-role reconciliation pass: the account named `admin` is made superuser and
 * staff, and every other superuser is demoted to staff only.
 *
 * A database write that raises is modelled by the set `failing` of usernames whose
 * `save()` raises; the pass then stops and reports failure, keeping the writes already made.
 */
module AdminRoles {
  import opened Accounts

  /** The admin row needs a write when either of its two flags is off. */
  predicate AdminNeedsWrite(m: Users) {
    AdminName in m && !(m[AdminName].isSuperuser && m[AdminName].isStaff)
  }

  /** `User.objects.filter(is_superuser=True).exclude(username='admin')`. */
  function OtherSuperusers(m: Users): (s: set<string>)
    ensures forall u :: u in s <==> u in m && u != AdminName && m[u].isSuperuser
  {
    set u | u in m && u != AdminName && m[u].isSuperuser
  }

  /** Every row the pass saves. */
  function ToWrite(m: Users): (w: set<string>)
    ensures w <= m.Keys
    ensures AdminName in w <==> AdminNeedsWrite(m)
    ensures forall u :: u != AdminName ==> (u in w <==> u in m && m[u].isSuperuser)
  {
    (if AdminNeedsWrite(m) then {AdminName} else {}) + OtherSuperusers(m)
  }

  /** The record of user `u` after the pass: promoted if it is `admin`, demoted if another superuser. */
  function Reconcile(u: string, r: UserRecord): (r': UserRecord)
    ensures r'.email == r.email && r'.isActive == r.isActive
    ensures r'.emailVerified == r.emailVerified && r'.pwHash == r.pwHash
    ensures u == AdminName ==> r'.isSuperuser && r'.isStaff
    ensures u != AdminName && r.isSuperuser ==> !r'.isSuperuser && r'.isStaff
    ensures u != AdminName && !r.isSuperuser ==> r' == r
  {
    if u == AdminName then r.(isSuperuser := true, isStaff := true)
    else if r.isSuperuser then r.(isSuperuser := false, isStaff := true)
    else r
  }

  /** The table with the rows in `written` reconciled and every other row as it was. */
  function Applied(m: Users, written: set<string>): (m': Users)
    ensures m'.Keys == m.Keys
  {
    map u | u in m :: if u in written then Reconcile(u, m[u]) else m[u]
  }

  /** Reconciling one more row of `m` extends the set of written rows by it. */
  lemma ApplyOne(m: Users, written: set<string>, u: string)
    requires u in m && u !in written
    ensures Applied(m, written)[u := Reconcile(u, m[u])] == Applied(m, written + {u})
  {
  }

  lemma MoveOne(todo: set<string>, done: set<string>, others: set<string>, u: string)
    requires u in todo && todo !! done && todo + done == others
    ensures (todo - {u}) !! (done + {u}) && (todo - {u}) + (done + {u}) == others
    ensures |done + {u}| == |done| + 1
  {
  }

  lemma AddOne(written: set<string>, part: set<string>, done: set<string>, u: string)
    requires written == part + done
    ensures written + {u} == part + (done + {u})
  {
  }

  /** The table after a complete pass. */
  function Reconciled(m: Users): (m': Users)
    ensures m'.Keys == m.Keys
    ensures AdminName in m ==> m'[AdminName].isSuperuser && m'[AdminName].isStaff
    ensures forall u :: u in m' && u != AdminName ==> !m'[u].isSuperuser
    ensures forall u :: u in m && u != AdminName && m[u].isSuperuser ==> m'[u].isStaff
    ensures forall u :: u in m && u != AdminName && !m[u].isSuperuser ==> m'[u] == m[u]
    ensures Superusers(m') <= {AdminName}
  {
    Applied(m, ToWrite(m))
  }

  /** A rewrite of a row whose flags are already right leaves it equal. */
  lemma AppliedAllIsReconciled(m: Users)
    ensures Applied(m, m.Keys) == Reconciled(m)
  {
  }

  /** After a pass there is at most one superuser, and it can only be `admin`. */
  lemma {:induction false} AtMostOneSuperuser(m: Users)
    ensures |Superusers(Reconciled(m))| <= 1
  {
    var s := Superusers(Reconciled(m));
    if s != {} {
      var u :| u in s;
      assert u == AdminName;
      assert s == {AdminName};
    }
  }

  /** A second pass writes nothing, demotes nobody and changes no flag. */
  lemma {:induction false} ReconcileIdempotent(m: Users)
    ensures ToWrite(Reconciled(m)) == {}
    ensures OtherSuperusers(Reconciled(m)) == {}
    ensures Reconciled(Reconciled(m)) == Reconciled(m)
  {
    var r := Reconciled(m);
    assert !AdminNeedsWrite(r);
    assert OtherSuperusers(r) == {} by {
      forall u | u in OtherSuperusers(r) ensures false {
      }
    }
    assert ToWrite(r) == {};
    assert Reconciled(r) == r by {
      assert Applied(r, {}) == r;
    }
  }

  /** The first step of the pass: give `admin` both flags, saving it only if one was off. */
  method PromoteAdmin(t: UserTable, failing: set<string>) returns (ok: bool, written: set<string>)
    modifies t
    ensures ok <==> !(AdminNeedsWrite(old(t.users)) && AdminName in failing)
    ensures written == if ok && AdminNeedsWrite(old(t.users)) then {AdminName} else {}
    ensures t.users == Applied(old(t.users), written)
  {
    ghost var m0 := t.users;
    assert Applied(m0, {}) == m0;
    ok, written := true, {};
    if AdminName in t.users {
      var adminUser := t.users[AdminName];
      if !adminUser.isSuperuser || !adminUser.isStaff {
        if AdminName in failing {
          return false, {};
        }
        t.users := t.users[AdminName := adminUser.(isSuperuser := true, isStaff := true)];
        ApplyOne(m0, {}, AdminName);
        written := {AdminName};
      }
    }
  }

  /** Rows written outside the other superusers do not change who the other superusers are. */
  lemma OthersUnchanged(m0: Users, before: set<string>)
    requires before !! OtherSuperusers(m0)
    ensures OtherSuperusers(Applied(m0, before)) == OtherSuperusers(m0)
  {
  }

  /** The loop invariant of `DemoteOthers`: `done` holds the rows already demoted and saved. */
  predicate DemotionState(m0: Users, before: set<string>, failing: set<string>, others: set<string>,
                          todo: set<string>, done: set<string>, written: set<string>, users: Users)
  {
    && others == OtherSuperusers(m0)
    && todo !! done && todo + done == others
    && written == before + done
    && before !! others
    && written !! failing
    && users == Applied(m0, written)
  }

  /** Demoting and saving one more row keeps the loop invariant. */
  lemma DemoteStep(m0: Users, before: set<string>, failing: set<string>, others: set<string>,
                   todo: set<string>, done: set<string>, written: set<string>, users: Users, u: string)
    requires DemotionState(m0, before, failing, others, todo, done, written, users)
    requires u in todo && u !in failing
    ensures u in users
    ensures DemotionState(m0, before, failing, others, todo - {u}, done + {u}, written + {u},
                          users[u := users[u].(isSuperuser := false, isStaff := true)])
    ensures |done + {u}| == |done| + 1
  {
    assert u in m0 && u !in written;
    ApplyOne(m0, written, u);
    MoveOne(todo, done, others, u);
    AddOne(written, before, done, u);
  }

  /** The loop of the pass: demote each other superuser to staff, stopping at the first failed save. */
  method DemoteOthers(t: UserTable, failing: set<string>, ghost m0: Users, before: set<string>)
    returns (ok: bool, demoted: nat, written: set<string>)
    requires before !! OtherSuperusers(m0) && before !! failing
    requires t.users == Applied(m0, before)
    modifies t
    ensures ok <==> OtherSuperusers(m0) !! failing
    ensures ok ==> written == before + OtherSuperusers(m0) && demoted == |OtherSuperusers(m0)|
    ensures before <= written <= before + OtherSuperusers(m0) && written !! failing
    ensures t.users == Applied(m0, written)
  {
    demoted := 0;
    written := before;
    var others := OtherSuperusers(t.users);
    OthersUnchanged(m0, before);
    var todo, done := others, {};
    while todo != {}
      invariant DemotionState(m0, before, failing, others, todo, done, written, t.users)
      invariant demoted == |done|
      decreases |todo|
    {
      var u :| u in todo;
      if u in failing {
        return false, 0, written;
      }
      DemoteStep(m0, before, failing, others, todo, done, written, t.users, u);
      t.users := t.users[u := t.users[u].(isSuperuser := false, isStaff := true)];
      written := written + {u};
      done := done + {u};
      todo := todo - {u};
      demoted := demoted + 1;
    }
    ok := true;
  }

  /**
   * `enforce_admin_roles()`: returns true after a complete pass together with the number of
   * demoted users and the counts of superusers and of staff that are not superusers;
   * `written` is the set of rows saved, whether or not the pass completed.
   */
  method EnforceAdminRoles(t: UserTable, failing: set<string>)
    returns (ok: bool, demoted: nat, superadmins: nat, admins: nat, written: set<string>)
    modifies t
    ensures t.users == Applied(old(t.users), written)
    ensures written <= ToWrite(old(t.users))
    ensures written !! failing
    ensures ok <==> ToWrite(old(t.users)) !! failing
    ensures ok ==> written == ToWrite(old(t.users)) && t.users == Reconciled(old(t.users))
    ensures ok ==> demoted == |OtherSuperusers(old(t.users))|
    ensures ok ==> superadmins == |Superusers(t.users)| <= 1
    ensures ok ==> admins == |RegularAdmins(t.users)|
    ensures !ok && AdminNeedsWrite(old(t.users)) && AdminName in failing ==> written == {}
  {
    ghost var m0 := t.users;
    demoted, superadmins, admins := 0, 0, 0;
    ok, written := PromoteAdmin(t, failing);
    if !ok {
      return;
    }
    ok, demoted, written := DemoteOthers(t, failing, m0, written);
    if !ok {
      demoted := 0;
      return;
    }
    assert written == ToWrite(m0);
    AtMostOneSuperuser(m0);
    superadmins := |set u | u in t.users && t.users[u].isSuperuser|;
    admins := |set u | u in t.users && t.users[u].isStaff && !t.users[u].isSuperuser|;
  }
}
