/** The three role gates the backend puts in front of its routes (admin only,
    doctor or admin, staff or admin).  Each reads the bearer token from the
    `Authorization` header, resolves it to a user with the auth service, reads
    the user's role from `users`, and either rejects the request or records the
    user on it and passes it on. */
module RoleGates {
  import opened Wrappers
  import opened JsText
  import opened Store

  /** The gate's decision: a rejection, or the user and role it lets through. */
  datatype Decision = Deny(status: int, error: string) | Allow(user: AuthUser, role: string)

  const NoToken := "No token provided"
  const InvalidToken := "Invalid token"
  const RoleNotFound := "Role not found"
  const Unauthorized := "Unauthorized"

  const AdminRoles: set<string> := {"admin"}
  const DoctorRoles: set<string> := {"doctor", "admin"}
  const StaffRoles: set<string> := {"staff", "admin"}

  const AdminForbidden := "Forbidden: Admins only"
  const DoctorForbidden := "Forbidden: Doctor or Admin only"
  const StaffForbidden := "Forbidden: Staff or Admin only"

  /** `authHeader.split(" ")[1]`: the second space-separated piece, None
      (`undefined`) when the header has no space. */
  function BearerToken(header: string): (token: Option<string>)
    ensures token.Some? <==> ' ' in header
  {
    var parts := Split(header, ' ');
    CountPositive(header, ' ');
    if |parts| >= 2 then Some(parts[1]) else None
  }

  lemma {:induction false} CountPositive(s: string, c: char)
    ensures Count(s, c) > 0 <==> c in s
  {
    if s != [] {
      CountPositive(s[1..], c);
      assert s == [s[0]] + s[1..];
    }
  }

  /** A `Bearer <token>` header yields the token, whatever the scheme word. */
  lemma BearerTokenOf(scheme: string, token: string)
    requires ' ' !in scheme && ' ' !in token
    ensures BearerToken(scheme + " " + token) == Some(token)
  {
    SplitAtFirst(scheme, ' ', token);
    SplitNoSeparator(token, ' ');
  }

  /** The header carries a token the auth service resolves to a user whose
      role row holds one of the allowed roles. */
  predicate Admits(header: Option<string>,
                   getUser: Option<string> -> Call<Option<AuthUser>>,
                   roleOf: Id -> Call<Option<string>>, allowed: set<string>)
  {
    header.Some? && header.value != ""
    && var who := getUser(BearerToken(header.value));
    who.Done? && who.value.Some?
    && var role := roleOf(who.value.value.id);
    role.Done? && role.value.Some? && role.value.value in allowed
  }

  /** The checks every gate makes, in order.  `header` is None when the request
      has no Authorization header; `getUser` and `roleOf` are the auth service
      and the `users` table: Done(None) is "no user" / "no row", Failed is an
      error object, Threw an exception (which the gate's catch turns into 401). */
  function Gate(header: Option<string>,
                getUser: Option<string> -> Call<Option<AuthUser>>,
                roleOf: Id -> Call<Option<string>>,
                allowed: set<string>, forbidden: string): (d: Decision)
    ensures d.Allow? <==> Admits(header, getUser, roleOf, allowed)
    ensures d.Allow? ==>
      getUser(BearerToken(header.value)) == Done(Some(d.user)) && roleOf(d.user.id) == Done(Some(d.role))
    ensures d.Deny? ==> d.status in {401, 403}
    ensures d.Deny? && d.status == 403 ==> d.error in {RoleNotFound, forbidden}
    // the ladder, rung by rung
    ensures header.None? || header.value == "" ==> d == Deny(401, NoToken)
    ensures header.Some? && header.value != "" ==>
      var who := getUser(BearerToken(header.value));
      && (who.Threw? ==> d == Deny(401, Unauthorized))
      && (who.Failed? || (who.Done? && who.value.None?) ==> d == Deny(401, InvalidToken))
      && (who.Done? && who.value.Some? ==>
            var role := roleOf(who.value.value.id);
            && (role.Threw? ==> d == Deny(401, Unauthorized))
            && (role.Failed? || (role.Done? && role.value.None?) ==> d == Deny(403, RoleNotFound))
            && (role.Done? && role.value.Some? && role.value.value !in allowed ==> d == Deny(403, forbidden))
            && (role.Done? && role.value.Some? && role.value.value in allowed ==>
                  d == Allow(who.value.value, role.value.value)))
  {
    if header.None? || header.value == "" then Deny(401, NoToken)
    else
      var who := getUser(BearerToken(header.value));
      if who.Threw? then Deny(401, Unauthorized)
      else if who.Failed? || who.value.None? then Deny(401, InvalidToken)
      else
        var user := who.value.value;
        var role := roleOf(user.id);
        if role.Threw? then Deny(401, Unauthorized)
        else if role.Failed? || role.value.None? then Deny(403, RoleNotFound)
        else if role.value.value !in allowed then Deny(403, forbidden)
        else Allow(user, role.value.value)
  }

  /** An admin passes every gate. */
  lemma AdminPassesEveryGate(header: Option<string>,
                             getUser: Option<string> -> Call<Option<AuthUser>>,
                             roleOf: Id -> Call<Option<string>>)
    requires Gate(header, getUser, roleOf, AdminRoles, AdminForbidden).Allow?
    ensures Gate(header, getUser, roleOf, DoctorRoles, DoctorForbidden) == Gate(header, getUser, roleOf, AdminRoles, AdminForbidden)
    ensures Gate(header, getUser, roleOf, StaffRoles, StaffForbidden) == Gate(header, getUser, roleOf, AdminRoles, AdminForbidden)
  {
  }

  /** A doctor is turned away by the staff gate with 403, and a staff member
      by the doctor gate; neither passes the admin gate. */
  lemma RolesAreSeparated(header: Option<string>,
                          getUser: Option<string> -> Call<Option<AuthUser>>,
                          roleOf: Id -> Call<Option<string>>, user: AuthUser)
    requires header.Some? && header.value != "" && getUser(BearerToken(header.value)) == Done(Some(user))
    ensures roleOf(user.id) == Done(Some("doctor")) ==>
      Gate(header, getUser, roleOf, StaffRoles, StaffForbidden) == Deny(403, StaffForbidden)
      && Gate(header, getUser, roleOf, AdminRoles, AdminForbidden) == Deny(403, AdminForbidden)
    ensures roleOf(user.id) == Done(Some("staff")) ==>
      Gate(header, getUser, roleOf, DoctorRoles, DoctorForbidden) == Deny(403, DoctorForbidden)
      && Gate(header, getUser, roleOf, AdminRoles, AdminForbidden) == Deny(403, AdminForbidden)
  {
  }

  /** The parts of the Express request and reply a gate touches. */
  class Request {
    const header: Option<string>
    var user: Option<AuthUser>
    var role: Option<string>
    var nextCalled: bool
    var response: Option<Http<()>>

    constructor(header: Option<string>)
      ensures this.header == header && user == None && role == None && !nextCalled && response == None
    {
      this.header := header;
      user := None;
      role := None;
      nextCalled := false;
      response := None;
    }
  }

  /** Runs a gate on a request: a rejection is written as the reply and the
      route is not reached; otherwise `req.user` is set (and `req.role` when
      `recordsRole`) and `next()` is called. */
  method Guard(req: Request, getUser: Option<string> -> Call<Option<AuthUser>>,
               roleOf: Id -> Call<Option<string>>, allowed: set<string>, forbidden: string, recordsRole: bool)
    modifies req
    ensures var d := Gate(req.header, getUser, roleOf, allowed, forbidden);
      (d.Deny? ==> req.response == Some(Error(d.status, d.error)) && !req.nextCalled
                   && req.user == old(req.user) && req.role == old(req.role))
      && (d.Allow? ==> req.response == old(req.response) && req.nextCalled && req.user == Some(d.user)
                       && req.role == if recordsRole then Some(d.role) else old(req.role))
  {
    var d := Gate(req.header, getUser, roleOf, allowed, forbidden);
    if d.Deny? {
      req.response := Some(Error(d.status, d.error));
      req.nextCalled := false;
    } else {
      req.user := Some(d.user);
      if recordsRole {
        req.role := Some(d.role);
      }
      req.nextCalled := true;
    }
  }

  /** `checkAdmin`: admins only; it does not record the role. */
  method CheckAdmin(req: Request, getUser: Option<string> -> Call<Option<AuthUser>>, roleOf: Id -> Call<Option<string>>)
    modifies req
    ensures req.nextCalled <==> Gate(req.header, getUser, roleOf, AdminRoles, AdminForbidden).Allow?
    ensures var d := Gate(req.header, getUser, roleOf, AdminRoles, AdminForbidden);
      (d.Deny? ==> req.response == Some(Error(d.status, d.error)) && !req.nextCalled && req.user == old(req.user))
      && (d.Allow? ==> req.response == old(req.response) && req.nextCalled && req.user == Some(d.user))
    ensures req.nextCalled ==> req.user.Some? && roleOf(req.user.value.id) == Done(Some("admin"))
    ensures req.role == old(req.role)
  {
    Guard(req, getUser, roleOf, AdminRoles, AdminForbidden, false);
  }

  /** `checkDoctor`: doctors and admins; the role is recorded. */
  method CheckDoctor(req: Request, getUser: Option<string> -> Call<Option<AuthUser>>, roleOf: Id -> Call<Option<string>>)
    modifies req
    ensures req.nextCalled <==> Gate(req.header, getUser, roleOf, DoctorRoles, DoctorForbidden).Allow?
    ensures var d := Gate(req.header, getUser, roleOf, DoctorRoles, DoctorForbidden);
      (d.Deny? ==> req.response == Some(Error(d.status, d.error)) && !req.nextCalled && req.user == old(req.user))
      && (d.Allow? ==> req.response == old(req.response) && req.nextCalled && req.user == Some(d.user))
    ensures req.nextCalled ==> req.role.Some? && req.role.value in DoctorRoles
    ensures var d := Gate(req.header, getUser, roleOf, DoctorRoles, DoctorForbidden);
      (d.Allow? ==> req.role == Some(d.role)) && (d.Deny? ==> req.role == old(req.role))
  {
    Guard(req, getUser, roleOf, DoctorRoles, DoctorForbidden, true);
  }

  /** `checkStaff`: staff and admins; the role is recorded. */
  method CheckStaff(req: Request, getUser: Option<string> -> Call<Option<AuthUser>>, roleOf: Id -> Call<Option<string>>)
    modifies req
    ensures req.nextCalled <==> Gate(req.header, getUser, roleOf, StaffRoles, StaffForbidden).Allow?
    ensures var d := Gate(req.header, getUser, roleOf, StaffRoles, StaffForbidden);
      (d.Deny? ==> req.response == Some(Error(d.status, d.error)) && !req.nextCalled && req.user == old(req.user))
      && (d.Allow? ==> req.response == old(req.response) && req.nextCalled && req.user == Some(d.user))
    ensures req.nextCalled ==> req.role.Some? && req.role.value in StaffRoles
    ensures var d := Gate(req.header, getUser, roleOf, StaffRoles, StaffForbidden);
      (d.Allow? ==> req.role == Some(d.role)) && (d.Deny? ==> req.role == old(req.role))
  {
    Guard(req, getUser, roleOf, StaffRoles, StaffForbidden, true);
  }
}
