/** The referral routes: adding and renaming referral clinics, and sending a
    referral (look the clinic up, log the referral, e-mail the clinic). */
module ReferralRoutes {
  import opened Wrappers
  import opened JsText
  import opened Store
  import opened Sequences
  import opened ReferralEmail

  /** Postgres's unique-violation code. */
  const UniqueViolation := "23505"

  const AddRequired := "Name and email are required to add a clinic."
  const UpdateRequired := "Name and email are required for the update."
  const DuplicateEmail := "A clinic with this email already exists."
  const ClinicNotFound := "Clinic not found."
  const ReferralRequired := "patient_id and clinic_id are required."
  const ReferralClinicNotFound := "Referral clinic not found."
  const ReferralSent := "Referral successful."

  datatype ClinicReply = ClinicReply(message: string, clinic: ClinicRow)

  /** How the clinic routes turn a database error into a reply: a duplicate
      e-mail is 409, anything else 500 with the error's message. */
  function ClinicWriteError<T>(outcome: Call<T>): (r: Http<ClinicReply>)
    requires !outcome.Done?
    ensures r.status == 409 <==> outcome.Failed? && outcome.code == UniqueViolation
    ensures r.status != 409 ==> r == Error(500, outcome.Message())
    ensures r.status == 409 ==> r == Error(409, DuplicateEmail)
  {
    if outcome.Failed? && outcome.code == UniqueViolation then Error(409, DuplicateEmail)
    else Error(500, outcome.Message())
  }

  /** POST /referrals/add-clinic; `insert` is the database's answer (the new
      row's id when it succeeds). */
  method AddClinic(db: Database, name: Value, email: Value, insert: Call<Id>) returns (resp: Http<ClinicReply>)
    modifies db
    ensures !Truthy(name) || !Truthy(email) ==> resp == Error(400, AddRequired) && db.t == old(db.t)
    ensures Truthy(name) && Truthy(email) && !insert.Done? ==>
      resp == ClinicWriteError(insert) && db.t == old(db.t)
    ensures Truthy(name) && Truthy(email) && insert.Done? ==>
      var row := ClinicRow(insert.value, name, email);
      resp == Success(201, ClinicReply("Clinic added successfully", row))
      && db.t == old(db.t).(clinics := old(db.t).clinics + [row])
  {
    if !Truthy(name) || !Truthy(email) {
      return Error(400, AddRequired);
    }
    if !insert.Done? {
      return ClinicWriteError(insert);
    }
    var row := ClinicRow(insert.value, name, email);
    db.t := db.t.(clinics := db.t.clinics + [row]);
    resp := Success(201, ClinicReply("Clinic added successfully", row));
  }

  /** The rows after `update({ name, email }).eq('id', id)`: the clinic with
      that id takes the new name and e-mail, every other row is unchanged. */
  function RenameClinic(rows: seq<ClinicRow>, id: Id, name: Value, email: Value): (r: seq<ClinicRow>)
    ensures |r| == |rows|
    ensures forall i :: 0 <= i < |rows| ==>
      r[i] == if rows[i].id == id then ClinicRow(id, name, email) else rows[i]
  {
    if rows == [] then []
    else [if rows[0].id == id then ClinicRow(id, name, email) else rows[0]] + RenameClinic(rows[1..], id, name, email)
  }

  /** Renaming twice with the same values is renaming once. */
  lemma RenameIdempotent(rows: seq<ClinicRow>, id: Id, name: Value, email: Value)
    ensures RenameClinic(RenameClinic(rows, id, name, email), id, name, email) == RenameClinic(rows, id, name, email)
  {
  }

  /** Renaming a clinic that is not there changes nothing. */
  lemma RenameMissing(rows: seq<ClinicRow>, id: Id, name: Value, email: Value)
    requires forall c :: c in rows ==> c.id != id
    ensures RenameClinic(rows, id, name, email) == rows
  {
    var r := RenameClinic(rows, id, name, email);
    forall i | 0 <= i < |rows|
      ensures r[i] == rows[i]
    {
      assert rows[i] in rows;
    }
  }

  /** The clinic with that id, if exactly one row has it (`.single()`). */
  function ClinicById(t: Tables, id: Id): (c: Option<ClinicRow>)
    ensures c.Some? ==> c.value in t.clinics && c.value.id == id
    ensures c.None? <==> |Filter(t.clinics, (x: ClinicRow) => x.id == id)| != 1
  {
    var matches := Filter(t.clinics, (x: ClinicRow) => x.id == id);
    if |matches| == 1 then
      assert matches[0] in matches;
      Some(matches[0])
    else None
  }

  /** PUT /referrals/clinic/:id; `update` decides whether the database reports
      an error, the table decides whether the clinic exists. */
  method UpdateClinic(db: Database, id: Id, name: Value, email: Value, update: Call<()>) returns (resp: Http<ClinicReply>)
    modifies db
    ensures !Truthy(name) || !Truthy(email) ==> resp == Error(400, UpdateRequired) && db.t == old(db.t)
    ensures Truthy(name) && Truthy(email) && !update.Done? ==>
      resp == ClinicWriteError(update) && db.t == old(db.t)
    ensures Truthy(name) && Truthy(email) && update.Done? ==>
      db.t == old(db.t).(clinics := RenameClinic(old(db.t).clinics, id, name, email))
      && (ClinicById(old(db.t), id).None? ==> resp == Error(404, ClinicNotFound))
      && (ClinicById(old(db.t), id).Some? ==>
            resp == Success(200, ClinicReply("Clinic updated successfully", ClinicRow(id, name, email))))
  {
    if !Truthy(name) || !Truthy(email) {
      return Error(400, UpdateRequired);
    }
    if !update.Done? {
      return ClinicWriteError(update);
    }
    var before := db.t;
    db.t := db.t.(clinics := RenameClinic(db.t.clinics, id, name, email));
    if ClinicById(before, id).None? {
      resp := Error(404, ClinicNotFound);
    } else {
      resp := Success(200, ClinicReply("Clinic updated successfully", ClinicRow(id, name, email)));
    }
  }

  // ----- POST /referrals

  /** `req.body`: the three keys the handler takes out, and the rest
      (`...patientData`), which is what the e-mail is built from. */
  datatype ReferralBody = ReferralBody(patientId: Value, clinicId: Value, remark: Value, details: ReferralDetails)

  /** `referral` is None when logging the referral failed (`null` in the reply). */
  datatype ReferralReply = ReferralReply(message: string, referral: Option<ReferralRow>)

  /** The e-mail as the handler builds it: `...patientData` holds every key but
      `patient_id`, `clinic_id` and `remark`, so the template never sees a remark. */
  function ReferralMailAsWritten(to: Value, body: ReferralBody): (m: Mail)
    ensures m.to == to && m.subject == "Patient Referral: " + OrNA(body.details.name)
    ensures forall l :: l in PatientLines(body.details) ==> Infix(l, m.html)
    ensures forall i :: 0 <= i < |List(body.details.payments)| ==>
      Infix(PaymentLineAsWritten(List(body.details.payments)[i]), m.html)
  {
    Compose(to, body.details, Undefined, PaymentLineAsWritten)
  }

  /** However the remark is filled in, the e-mail as written has no Remarks
      section. */
  lemma RemarkNeverEmailed(to: Value, body: ReferralBody)
    ensures ReferralMailAsWritten(to, body) == Compose(to, body.details, Undefined, PaymentLineAsWritten)
    ensures Parts(body.details, Undefined, PaymentLineAsWritten)[6] == ""
    ensures Truthy(body.remark) ==> Parts(body.details, body.remark, PaymentLineAsWritten)[6] != ""
  {
  }

  /** The e-mail the referral is meant to send: the remark entered on the
      referral form reaches the clinic, and each payment shows the text the
      registration form sent for it. */
  function ReferralMail(to: Value, body: ReferralBody): (m: Mail)
    ensures m.to == to && m.subject == "Patient Referral: " + OrNA(body.details.name)
    ensures Truthy(body.remark) ==> Infix(RemarkBlock(body.remark), m.html)
    ensures forall i :: 0 <= i < |List(body.details.findings)| ==>
      Infix(FindingLine(List(body.details.findings)[i]), m.html)
    ensures forall i :: 0 <= i < |List(body.details.payments)| ==>
      Infix(PaymentLine(List(body.details.payments)[i]), m.html)
  {
    Compose(to, body.details, body.remark, PaymentLine)
  }

  /** `clinic_id` names the row with that id. */
  function ClinicKey(v: Value): Id
  {
    if v.Str? then v.s else Show(v)
  }

  /** Both ids are present. */
  predicate Accepted(body: ReferralBody)
  {
    Truthy(body.patientId) && Truthy(body.clinicId)
  }

  /** The clinic read returns without an error and finds the clinic. */
  predicate ClinicFound(t: Tables, body: ReferralBody, lookup: Call<()>)
  {
    lookup.Done? && ClinicById(t, ClinicKey(body.clinicId)).Some?
  }

  /** The referral row the insert leaves, when it succeeds. */
  function LoggedRow(body: ReferralBody, logInsert: Call<Id>): Option<ReferralRow>
  {
    if logInsert.Done? then Some(ReferralRow(logInsert.value, body.patientId, body.clinicId, body.remark)) else None
  }

  function Logged(body: ReferralBody, logInsert: Call<Id>): seq<ReferralRow>
  {
    if logInsert.Done? then [LoggedRow(body, logInsert).value] else []
  }

  /** POST /referrals.  `lookup` is how the clinic read ends (the row itself
      comes from the table); `logInsert` the answer to the referral insert;
      `transport` the mail transport's.  `mail` is the e-mail handed to the
      transport. */
  method PostReferral(db: Database, body: ReferralBody, lookup: Call<()>, logInsert: Call<Id>, transport: Call<()>)
    returns (resp: Http<ReferralReply>, mail: Option<Mail>)
    modifies db
    ensures !Accepted(body) ==>
      resp == Error(400, ReferralRequired) && mail == None && db.t == old(db.t)
    ensures Accepted(body) && lookup.Threw? ==>
      resp == Error(500, lookup.message) && mail == None && db.t == old(db.t)
    ensures Accepted(body) && !lookup.Threw? && !ClinicFound(old(db.t), body, lookup) ==>
      resp == Error(404, ReferralClinicNotFound) && mail == None && db.t == old(db.t)
    ensures Accepted(body) && ClinicFound(old(db.t), body, lookup) ==>
      Referred(old(db.t), db.t, ClinicById(old(db.t), ClinicKey(body.clinicId)).value, body, logInsert, transport, resp, mail)
  {
    if !Truthy(body.patientId) || !Truthy(body.clinicId) {
      return Error(400, ReferralRequired), None;
    }
    if lookup.Threw? {
      return Error(500, lookup.message), None;
    }
    var clinic := ClinicById(db.t, ClinicKey(body.clinicId));
    if lookup.Failed? || clinic.None? {
      return Error(404, ReferralClinicNotFound), None;
    }
    resp, mail := LogAndSend(db, clinic.value, body, logInsert, transport);
  }

  /** What happens once the clinic is found: the referral is logged (a failed
      insert is only reported on the console, a thrown one ends with 500), then
      the e-mail as written goes out, without the remark; a failed send ends
      with 500. */
  ghost predicate Referred(t: Tables, t': Tables, clinic: ClinicRow, body: ReferralBody,
                           logInsert: Call<Id>, transport: Call<()>,
                           resp: Http<ReferralReply>, mail: Option<Mail>)
  {
    t' == t.(referrals := t.referrals + Logged(body, logInsert))
    && (logInsert.Threw? ==> resp == Error(500, logInsert.message) && mail == None)
    && (!logInsert.Threw? ==> mail == Some(ReferralMailAsWritten(clinic.email, body)))
    && (!logInsert.Threw? && !transport.Done? ==> resp == Error(500, SendFailure))
    && (!logInsert.Threw? && transport.Done? ==>
          resp == Success(200, ReferralReply(ReferralSent, LoggedRow(body, logInsert))))
  }

  method LogAndSend(db: Database, clinic: ClinicRow, body: ReferralBody, logInsert: Call<Id>, transport: Call<()>)
    returns (resp: Http<ReferralReply>, mail: Option<Mail>)
    modifies db
    ensures Referred(old(db.t), db.t, clinic, body, logInsert, transport, resp, mail)
  {
    if logInsert.Threw? {
      return Error(500, logInsert.message), None;
    }
    var referral := LogReferral(db, body, logInsert);
    mail := Some(ReferralMailAsWritten(clinic.email, body));
    var sent := SendReferralEmail(clinic.email, body.details, Undefined, transport);
    if !sent.Done? {
      resp := Error(500, sent.message);
    } else {
      resp := Success(200, ReferralReply(ReferralSent, referral));
    }
  }

  /** The referral insert: a row is added only when the insert succeeds. */
  method LogReferral(db: Database, body: ReferralBody, logInsert: Call<Id>) returns (referral: Option<ReferralRow>)
    modifies db
    ensures db.t == old(db.t).(referrals := old(db.t).referrals + Logged(body, logInsert))
    ensures referral == LoggedRow(body, logInsert)
  {
    referral := LoggedRow(body, logInsert);
    if logInsert.Done? {
      db.t := db.t.(referrals := db.t.referrals + [referral.value]);
    }
  }
}
