/** The account routes: login, and the admin-only staff routes (add, list with
    e-mail addresses, count, update, delete).  The auth service's accounts are
    the `authUsers` table, profiles and roles the `users` table. */
module UserRoutes {
  import opened Wrappers
  import opened JsText
  import opened Store
  import opened Sequences

  const StaffRole := "staff"
  const InvalidCredentials := "Invalid login credentials."
  const RoleMissing := "User role not found."
  const StaffAdded := "Staff added successfully"
  const StaffUpdated := "Staff updated successfully"
  const StaffDeleted := "Staff deleted successfully"
  const NoEmail := "N/A"

  // ----- POST /users/login

  datatype Session = Session(accessToken: string)

  /** What `signInWithPassword` returns on success: possibly no user or no session. */
  datatype SignIn = SignIn(user: Option<AuthUser>, session: Option<Session>)

  datatype LoginReply = LoginReply(user: AuthUser, role: string, token: string)

  /** The login ladder.  The handler has no try/catch, so when a call throws no
      reply is sent: the result is None.  `roleOf` answers the role read of
      `users` for an id (Done(None): no row; a row's empty role is ""). */
  function Login(signIn: Call<SignIn>, roleOf: Id -> Call<Option<string>>): (r: Option<Http<LoginReply>>)
    ensures signIn.Failed? ==> r == Some(Error(400, signIn.message))
    ensures signIn.Done? && (signIn.value.user.None? || signIn.value.session.None?) ==>
      r == Some(Error(401, InvalidCredentials))
    ensures signIn.Done? && signIn.value.user.Some? && signIn.value.session.Some? ==>
      var role := roleOf(signIn.value.user.value.id);
      && (role.Failed? ==> r == Some(Error(400, role.message)))
      && (role.Done? && (role.value.None? || role.value.value == "") ==> r == Some(Error(400, RoleMissing)))
    ensures r.Some? && r.value.status == 200 <==>
      signIn.Done? && signIn.value.user.Some? && signIn.value.session.Some?
      && var role := roleOf(signIn.value.user.value.id);
      role.Done? && role.value.Some? && role.value.value != ""
    ensures r.Some? && r.value.status == 200 ==>
      r.value.body == Body(LoginReply(signIn.value.user.value, roleOf(signIn.value.user.value.id).value.value,
                                      signIn.value.session.value.accessToken))
    ensures r.None? <==>
      signIn.Threw? || (signIn.Done? && signIn.value.user.Some? && signIn.value.session.Some?
                        && roleOf(signIn.value.user.value.id).Threw?)
  {
    match signIn
    case Threw(_) => None
    case Failed(_, message) => Some(Error(400, message))
    case Done(SignIn(user, session)) =>
      if user.None? || session.None? then Some(Error(401, InvalidCredentials))
      else
        match roleOf(user.value.id)
        case Threw(_) => None
        case Failed(_, message) => Some(Error(400, message))
        case Done(role) =>
          if role.None? || role.value == "" then Some(Error(400, RoleMissing))
          else Some(Success(200, LoginReply(user.value, role.value, session.value.accessToken)))
  }

  // ----- POST /users/add-staff

  datatype StaffReply = StaffReply(message: string, user: AuthUser)

  /** `createUser` is the auth service's answer (the new account's id);
      `insert` the answer to the profile insert. */
  method AddStaff(db: Database, email: Value, name: Value, phone: Value, createUser: Call<Id>, insert: Call<()>)
    returns (resp: Http<StaffReply>)
    modifies db
    ensures !createUser.Done? ==>
      db.t == old(db.t) && resp == Error(if createUser.Failed? then 400 else 500, createUser.Message())
    ensures createUser.Done? && !insert.Done? ==>
      db.t == old(db.t).(authUsers := old(db.t).authUsers + [AuthUser(createUser.value, email)])
      && resp == Error(if insert.Failed? then 400 else 500, insert.Message())
    ensures createUser.Done? && insert.Done? ==>
      db.t == old(db.t).(authUsers := old(db.t).authUsers + [AuthUser(createUser.value, email)],
                         users := old(db.t).users + [UserRow(createUser.value, StaffRole, name, phone)])
      && resp == Success(200, StaffReply(StaffAdded, AuthUser(createUser.value, email)))
  {
    if !createUser.Done? {
      return Error(if createUser.Failed? then 400 else 500, createUser.Message());
    }
    var account := AuthUser(createUser.value, email);
    db.t := db.t.(authUsers := db.t.authUsers + [account]);
    if !insert.Done? {
      return Error(if insert.Failed? then 400 else 500, insert.Message());
    }
    db.t := db.t.(users := db.t.users + [UserRow(account.id, StaffRole, name, phone)]);
    resp := Success(200, StaffReply(StaffAdded, account));
  }

  // ----- GET /users/staff and /users/staff-count

  /** A staff row with the e-mail address the auth service has for it. */
  datatype StaffEntry = StaffEntry(id: Id, role: string, name: Value, phone: Value, email: Value)

  function StaffRows(t: Tables): (rows: seq<UserRow>)
    ensures forall u :: u in rows <==> u in t.users && u.role == StaffRole
  {
    Filter(t.users, (u: UserRow) => u.role == StaffRole)
  }

  /** The e-mail shown for an account: the auth service's address, or "N/A"
      when the lookup fails, throws, finds no account or no address. */
  function EmailOrNA(lookup: Call<Option<Value>>): (v: Value)
    ensures Truthy(v)
    ensures v != Str(NoEmail) ==> lookup.Done? && lookup.value.Some? && v == lookup.value.value
    ensures lookup.Done? && lookup.value.Some? && Truthy(lookup.value.value) ==> v == lookup.value.value
    ensures !(lookup.Done? && lookup.value.Some? && Truthy(lookup.value.value)) ==> v == Str(NoEmail)
  {
    if lookup.Done? && lookup.value.Some? && Truthy(lookup.value.value) then lookup.value.value
    else Str(NoEmail)
  }

  /** `Promise.all(staffData.map(...))`, as an order-preserving map: each row
      keeps its fields and gains `email`. */
  function WithEmails(rows: seq<UserRow>, emailOf: Id -> Call<Option<Value>>): (entries: seq<StaffEntry>)
    ensures |entries| == |rows|
    ensures forall i :: 0 <= i < |rows| ==>
      entries[i] == StaffEntry(rows[i].id, rows[i].role, rows[i].name, rows[i].phone, EmailOrNA(emailOf(rows[i].id)))
  {
    if rows == [] then []
    else
      var u := rows[0];
      [StaffEntry(u.id, u.role, u.name, u.phone, EmailOrNA(emailOf(u.id)))] + WithEmails(rows[1..], emailOf)
  }

  /** GET /users/staff.  `fault` is the error of the `users` read, if any;
      `emailOf` answers `getUserById`. */
  function StaffList(t: Tables, fault: Option<string>, emailOf: Id -> Call<Option<Value>>): (r: Http<seq<StaffEntry>>)
    ensures fault.Some? ==> r == Error(400, fault.value)
    ensures fault.None? ==> r.status == 200 && r.body.Body?
    ensures fault.None? ==> forall e :: e in r.body.value ==> e.role == StaffRole && Truthy(e.email)
    ensures fault.None? ==> |r.body.value| == |StaffRows(t)|
    ensures fault.None? ==> r == Success(200, WithEmails(StaffRows(t), emailOf))
  {
    if fault.Some? then Error(400, fault.value)
    else
      var rows := StaffRows(t);
      if rows == [] then Success(200, [])
      else
        var entries := WithEmails(rows, emailOf);
        assert forall e :: e in entries ==> e.role == StaffRole && Truthy(e.email) by {
          forall e | e in entries
            ensures e.role == StaffRole && Truthy(e.email)
          {
            var i :| 0 <= i < |entries| && entries[i] == e;
            assert rows[i] in rows;
          }
        }
        Success(200, entries)
  }

  /** GET /users/staff-count. */
  function StaffCount(t: Tables, fault: Option<string>): (r: Http<nat>)
    ensures fault.Some? ==> r == Error(400, fault.value)
    ensures fault.None? ==> r == Success(200, |StaffRows(t)|)
  {
    if fault.Some? then Error(400, fault.value) else Success(200, |StaffRows(t)|)
  }

  /** The count agrees with the list. */
  lemma CountMatchesList(t: Tables, emailOf: Id -> Call<Option<Value>>)
    ensures StaffCount(t, None).body.value == |StaffList(t, None, emailOf).body.value|
  {
  }

  /** A staff member added with an e-mail address shows up in the list with
      that address, whatever the list read's other rows. */
  lemma AddedStaffListed(t: Tables, id: Id, email: Value, name: Value, phone: Value, emailOf: Id -> Call<Option<Value>>)
    requires Truthy(email) && emailOf(id) == Done(Some(email))
    ensures StaffEntry(id, StaffRole, name, phone, email)
      in StaffList(t.(users := t.users + [UserRow(id, StaffRole, name, phone)]), None, emailOf).body.value
  {
    var t' := t.(users := t.users + [UserRow(id, StaffRole, name, phone)]);
    var row := UserRow(id, StaffRole, name, phone);
    assert row in t'.users;
    var rows := StaffRows(t');
    assert row in rows;
    var i :| 0 <= i < |rows| && rows[i] == row;
    assert WithEmails(rows, emailOf)[i] == StaffEntry(id, StaffRole, name, phone, email);
  }

  // ----- PUT /users/staff/:id

  /** A column of an update: a key left undefined is dropped when the update
      is serialised, so the column keeps its value. */
  function Assigned(current: Value, given: Value): Value
  {
    if given.Undefined? then current else given
  }

  /** `update({ name, phone }).eq("id", id)`: only the name and phone of that
      row change, and only those the body gives. */
  function UpdateProfile(rows: seq<UserRow>, id: Id, name: Value, phone: Value): (r: seq<UserRow>)
    ensures |r| == |rows|
    ensures forall i :: 0 <= i < |rows| ==>
      r[i] == if rows[i].id == id then rows[i].(name := Assigned(rows[i].name, name), phone := Assigned(rows[i].phone, phone))
              else rows[i]
    ensures name.Undefined? && phone.Undefined? ==> r == rows
  {
    if rows == [] then []
    else
      var u := rows[0];
      [if u.id == id then u.(name := Assigned(u.name, name), phone := Assigned(u.phone, phone)) else u]
      + UpdateProfile(rows[1..], id, name, phone)
  }

  /** No update changes anyone's role, nor which ids exist. */
  lemma {:induction false} UpdateKeepsRoles(rows: seq<UserRow>, id: Id, name: Value, phone: Value)
    ensures StaffIdsOf(UpdateProfile(rows, id, name, phone)) == StaffIdsOf(rows)
  {
    if rows != [] {
      UpdateKeepsRoles(rows[1..], id, name, phone);
      assert UpdateProfile(rows, id, name, phone)[1..] == UpdateProfile(rows[1..], id, name, phone);
    }
  }

  /** The ids of the staff rows, in order. */
  function StaffIdsOf(rows: seq<UserRow>): seq<Id>
  {
    if rows == [] then []
    else (if rows[0].role == StaffRole then [rows[0].id] else []) + StaffIdsOf(rows[1..])
  }

  /** The rows with that id, in order. */
  function UsersWithId(rows: seq<UserRow>, id: Id): (matches: seq<UserRow>)
    ensures forall x :: x in matches <==> x in rows && x.id == id
  {
    Filter(rows, (x: UserRow) => x.id == id)
  }

  /** `.select().single()`: the row with that id, when exactly one has it. */
  function UserById(rows: seq<UserRow>, id: Id): (u: Option<UserRow>)
    ensures u.Some? <==> |UsersWithId(rows, id)| == 1
    ensures u.Some? ==> u.value == UsersWithId(rows, id)[0] && u.value in rows && u.value.id == id
  {
    var matches := UsersWithId(rows, id);
    if |matches| == 1 then
      assert matches[0] in matches;
      Some(matches[0])
    else None
  }

  /** When exactly one row has the id, the row is found. */
  lemma UniqueRowFound(rows: seq<UserRow>, i: nat)
    requires i < |rows|
    requires forall j :: 0 <= j < |rows| && j != i ==> rows[j].id != rows[i].id
    ensures UserById(rows, rows[i].id) == Some(rows[i])
  {
    var id := rows[i].id;
    var keep := (x: UserRow) => x.id == id;
    var before, after := rows[..i], rows[i+1..];
    assert rows == before + [rows[i]] + after;
    assert forall x :: x in before ==> !keep(x) by {
      forall x | x in before
        ensures !keep(x)
      {
        var j :| 0 <= j < |before| && before[j] == x;
        assert x == rows[j];
      }
    }
    assert forall x :: x in after ==> !keep(x) by {
      forall x | x in after
        ensures !keep(x)
      {
        var j :| 0 <= j < |after| && after[j] == x;
        assert x == rows[i + 1 + j];
      }
    }
    FilterAppend(before + [rows[i]], after, keep);
    FilterAppend(before, [rows[i]], keep);
    FilterNone(before, keep);
    FilterNone(after, keep);
    assert Filter([rows[i]], keep) == [rows[i]];
    assert UsersWithId(rows, id) == Filter(rows, keep);
  }

  datatype UpdateReply = UpdateReply(message: string, staff: Option<UserRow>)

  method UpdateStaff(db: Database, id: Id, name: Value, phone: Value, update: Call<()>) returns (resp: Http<UpdateReply>)
    modifies db
    ensures !update.Done? ==>
      db.t == old(db.t) && resp == Error(if update.Failed? then 400 else 500, update.Message())
    ensures update.Done? ==>
      db.t == old(db.t).(users := UpdateProfile(old(db.t).users, id, name, phone))
      && resp == Success(200, UpdateReply(StaffUpdated, UserById(db.t.users, id)))
  {
    if !update.Done? {
      return Error(if update.Failed? then 400 else 500, update.Message());
    }
    db.t := db.t.(users := UpdateProfile(db.t.users, id, name, phone));
    resp := Success(200, UpdateReply(StaffUpdated, UserById(db.t.users, id)));
  }

  // ----- DELETE /users/staff/:id

  function WithoutAccount(accounts: seq<AuthUser>, id: Id): (r: seq<AuthUser>)
    ensures forall a :: a in r <==> a in accounts && a.id != id
  {
    Filter(accounts, (a: AuthUser) => a.id != id)
  }

  function WithoutUser(rows: seq<UserRow>, id: Id): (r: seq<UserRow>)
    ensures forall u :: u in r <==> u in rows && u.id != id
  {
    Filter(rows, (u: UserRow) => u.id != id)
  }

  /** The auth account goes first; only when that succeeds is the profile
      row deleted.  A failed profile delete leaves the account deleted. */
  method DeleteStaff(db: Database, id: Id, authDelete: Call<()>, rowDelete: Call<()>) returns (resp: Http<string>)
    modifies db
    ensures !authDelete.Done? ==>
      db.t == old(db.t) && resp == Error(if authDelete.Failed? then 400 else 500, authDelete.Message())
    ensures authDelete.Done? && !rowDelete.Done? ==>
      db.t == old(db.t).(authUsers := WithoutAccount(old(db.t).authUsers, id))
      && resp == Error(if rowDelete.Failed? then 400 else 500, rowDelete.Message())
    ensures authDelete.Done? && rowDelete.Done? ==>
      db.t == old(db.t).(authUsers := WithoutAccount(old(db.t).authUsers, id),
                         users := WithoutUser(old(db.t).users, id))
      && resp == Success(200, StaffDeleted)
  {
    if !authDelete.Done? {
      return Error(if authDelete.Failed? then 400 else 500, authDelete.Message());
    }
    db.t := db.t.(authUsers := WithoutAccount(db.t.authUsers, id));
    if !rowDelete.Done? {
      return Error(if rowDelete.Failed? then 400 else 500, rowDelete.Message());
    }
    db.t := db.t.(users := WithoutUser(db.t.users, id));
    resp := Success(200, StaffDeleted);
  }

  /** A deleted staff member leaves the staff list. */
  lemma DeletedStaffUnlisted(t: Tables, id: Id, emailOf: Id -> Call<Option<Value>>)
    ensures forall e :: e in StaffList(t.(users := WithoutUser(t.users, id)), None, emailOf).body.value ==> e.id != id
  {
    var t' := t.(users := WithoutUser(t.users, id));
    var rows := StaffRows(t');
    var entries := StaffList(t', None, emailOf).body.value;
    forall e | e in entries
      ensures e.id != id
    {
      var i :| 0 <= i < |entries| && entries[i] == e;
      assert rows[i] in rows;
    }
  }
}
