/** The patient routes of the backend: POST /patients, which writes a whole
    registration (patient, examination, findings, diagnoses, payments) one
    table at a time, and GET /patients/:id, which reads it back with five
    queries that stop at the first error. */
module PatientRoutes {
  import opened Wrappers
  import opened JsText
  import opened Store
  import opened Sequences

  // ----- POST /patients

  /** One element of the `findings` array of the body: its `type` and `finding` keys. */
  datatype FindingIn = FindingIn(findingType: Value, finding: Value)

  /** One element of `diagnoses`; `category` is sent but never read. */
  datatype DiagnosisIn = DiagnosisIn(diagnosis: Value, plan: Value, category: Value)

  /** One element of `payments`; `category` is sent but never read. */
  datatype PaymentIn = PaymentIn(category: Value, item: Value, amount: Value, status: Value)

  /** `req.body`.  An array key that is missing or not an array is None.  `others`
      holds every key the handler does not destructure (age, occupation, the
      subjective refraction, clinicId, remark, ...). */
  datatype RegistrationBody = RegistrationBody(
    patient: PatientFields,
    exam: ExamFields,
    findings: Option<seq<FindingIn>>,
    diagnoses: Option<seq<DiagnosisIn>>,
    payments: Option<seq<PaymentIn>>,
    others: map<string, Value>)

  datatype Registered = Registered(message: string, patient: PatientRow, exam: ExamRow)

  const RegisteredMessage := "Patient registered successfully"

  /** `Array.isArray(xs) && xs.length > 0` */
  predicate NonEmptyArray<T>(xs: Option<seq<T>>)
  {
    xs.Some? && |xs.value| > 0
  }

  function Items<T>(xs: Option<seq<T>>): seq<T>
  {
    if xs.Some? then xs.value else []
  }

  /** `x ?? fallback`: both `null` and a missing key read as Undefined. */
  function OrDefault(v: Value, fallback: string): (r: Value)
    ensures v != Undefined ==> r == v
    ensures v == Undefined ==> r == Str(fallback)
  {
    if v.Undefined? then Str(fallback) else v
  }

  /** The findings payload: one row per element, in order, each tied to the new
      examination and carrying the element's `type` and `finding`. */
  function FindingRows(examId: Id, fs: seq<FindingIn>): (rows: seq<FindingRow>)
    ensures |rows| == |fs|
    ensures forall i :: 0 <= i < |fs| ==>
      rows[i].examId == examId && rows[i].findingType == fs[i].findingType && rows[i].finding == fs[i].finding
  {
    if fs == [] then []
    else [FindingRow(examId, fs[0].findingType, fs[0].finding)] + FindingRows(examId, fs[1..])
  }

  /** The diagnoses payload: a missing plan is stored as "". */
  function DiagnosisRows(examId: Id, ds: seq<DiagnosisIn>): (rows: seq<DiagnosisRow>)
    ensures |rows| == |ds|
    ensures forall i :: 0 <= i < |ds| ==>
      rows[i].examId == examId && rows[i].diagnosis == ds[i].diagnosis
      && rows[i].plan == OrDefault(ds[i].plan, "")
  {
    if ds == [] then []
    else [DiagnosisRow(examId, ds[0].diagnosis, OrDefault(ds[0].plan, ""))] + DiagnosisRows(examId, ds[1..])
  }

  /** The payments payload: tied to the patient, not the examination; a
      missing status is stored as "pending". */
  function PaymentRows(patientId: Id, ps: seq<PaymentIn>): (rows: seq<PaymentRow>)
    ensures |rows| == |ps|
    ensures forall i :: 0 <= i < |ps| ==>
      rows[i].patientId == patientId && rows[i].item == ps[i].item && rows[i].amount == ps[i].amount
      && rows[i].status == OrDefault(ps[i].status, "pending")
  {
    if ps == [] then []
    else [PaymentRow(patientId, ps[0].item, ps[0].amount, OrDefault(ps[0].status, "pending"))] + PaymentRows(patientId, ps[1..])
  }

  /** One of the three follow-up inserts: whether it is sent and how it ends. */
  datatype Batch = Batch(sent: bool, outcome: Call<()>)

  /** A batch whose insert throws ends the handler with 500. */
  predicate Aborts(b: Batch) { b.sent && b.outcome.Threw? }

  /** Only a batch that is sent and succeeds leaves rows behind; an error
      returned by the insert is ignored. */
  predicate Lands(b: Batch) { b.sent && b.outcome.Done? }

  /** `router.post("/")`, behind the staff gate.  `staffId` is `req.user.id`;
      the five inserts are oracles (an insert that succeeds returns the new
      row's id).  `welcome` is the contact the WhatsApp greeting is sent to; it
      is sent without waiting and its outcome never affects the reply. */
  method Register(db: Database, staffId: Id, body: RegistrationBody,
                  patientInsert: Call<Id>, examInsert: Call<Id>,
                  findingsInsert: Call<()>, diagnosesInsert: Call<()>, paymentsInsert: Call<()>)
    returns (resp: Http<Registered>, welcome: Option<Value>)
    modifies db
    ensures !patientInsert.Done? ==>
      db.t == old(db.t) && welcome == None
      && resp == Error(if patientInsert.Failed? then 400 else 500, patientInsert.Message())
    ensures patientInsert.Done? ==>
      welcome == if Truthy(body.patient.contact) then Some(body.patient.contact) else None
    ensures patientInsert.Done? && !examInsert.Done? ==>
      db.t == old(db.t).(patients := old(db.t).patients + [PatientRow(patientInsert.value, staffId, body.patient)])
      && resp == Error(if examInsert.Failed? then 400 else 500, examInsert.Message())
    ensures patientInsert.Done? && examInsert.Done? ==>
      var p := PatientRow(patientInsert.value, staffId, body.patient);
      var e := ExamRow(examInsert.value, p.id, staffId, body.exam);
      var fb := Batch(NonEmptyArray(body.findings), findingsInsert);
      var db' := Batch(NonEmptyArray(body.diagnoses) && !Aborts(fb), diagnosesInsert);
      var pb := Batch(NonEmptyArray(body.payments) && !Aborts(fb) && !Aborts(db'), paymentsInsert);
      db.t == old(db.t).(
        patients := old(db.t).patients + [p],
        examinations := old(db.t).examinations + [e],
        findings := old(db.t).findings + (if Lands(fb) then FindingRows(e.id, Items(body.findings)) else []),
        diagnoses := old(db.t).diagnoses + (if Lands(db') then DiagnosisRows(e.id, Items(body.diagnoses)) else []),
        payments := old(db.t).payments + (if Lands(pb) then PaymentRows(p.id, Items(body.payments)) else []))
      && resp == (
        if Aborts(fb) then Error(500, findingsInsert.message)
        else if Aborts(db') then Error(500, diagnosesInsert.message)
        else if Aborts(pb) then Error(500, paymentsInsert.message)
        else Success(200, Registered(RegisteredMessage, p, e)))
  {
    welcome := None;
    if !patientInsert.Done? {
      resp := Error(if patientInsert.Failed? then 400 else 500, patientInsert.Message());
      return;
    }
    var patient := PatientRow(patientInsert.value, staffId, body.patient);
    db.t := db.t.(patients := db.t.patients + [patient]);
    if Truthy(patient.fields.contact) {
      welcome := Some(patient.fields.contact);
    }

    if !examInsert.Done? {
      resp := Error(if examInsert.Failed? then 400 else 500, examInsert.Message());
      return;
    }
    var exam := ExamRow(examInsert.value, patient.id, staffId, body.exam);
    db.t := db.t.(examinations := db.t.examinations + [exam]);

    if NonEmptyArray(body.findings) {
      if findingsInsert.Threw? {
        resp := Error(500, findingsInsert.message);
        return;
      } else if findingsInsert.Done? {
        db.t := db.t.(findings := db.t.findings + FindingRows(exam.id, body.findings.value));
      }
    }
    if NonEmptyArray(body.diagnoses) {
      if diagnosesInsert.Threw? {
        resp := Error(500, diagnosesInsert.message);
        return;
      } else if diagnosesInsert.Done? {
        db.t := db.t.(diagnoses := db.t.diagnoses + DiagnosisRows(exam.id, body.diagnoses.value));
      }
    }
    if NonEmptyArray(body.payments) {
      if paymentsInsert.Threw? {
        resp := Error(500, paymentsInsert.message);
        return;
      } else if paymentsInsert.Done? {
        db.t := db.t.(payments := db.t.payments + PaymentRows(patient.id, body.payments.value));
      }
    }
    resp := Success(200, Registered(RegisteredMessage, patient, exam));
  }

  /** The keys the handler does not destructure never reach a row, nor does a
      diagnosis's or payment's category: two bodies that agree on the read
      keys produce the same rows. */
  lemma {:induction false} UnreadKeysNeverStored(examId: Id, ds: seq<DiagnosisIn>, ds2: seq<DiagnosisIn>)
    requires |ds| == |ds2|
    requires forall i :: 0 <= i < |ds| ==> ds[i].diagnosis == ds2[i].diagnosis && ds[i].plan == ds2[i].plan
    ensures DiagnosisRows(examId, ds) == DiagnosisRows(examId, ds2)
  {
    if ds != [] {
      UnreadKeysNeverStored(examId, ds[1..], ds2[1..]);
    }
  }

  /** Every stored payment has a status: the one sent, or "pending". */
  lemma PaymentsAlwaysHaveStatus(patientId: Id, ps: seq<PaymentIn>)
    ensures forall r :: r in PaymentRows(patientId, ps) ==> r.status != Undefined && r.patientId == patientId
  {
    var rows := PaymentRows(patientId, ps);
    forall r | r in rows
      ensures r.status != Undefined && r.patientId == patientId
    {
      var i :| 0 <= i < |rows| && rows[i] == r;
    }
  }

  // ----- GET /patients/:id

  /** The reads the handler issues, in the order it issues them. */
  datatype Query =
    | PatientById(id: Id)
    | ExamsOfPatient(patientId: Id)
    | FindingsOfExams(examIds: seq<Id>)
    | DiagnosesOfExams(examIds: seq<Id>)
    | PaymentsOfPatient(patientId: Id)

  /** The error message each of the five reads would return, None when it
      succeeds (the oracle of the database service). */
  datatype ReadFaults = ReadFaults(
    patient: Option<string>, exams: Option<string>, findings: Option<string>,
    diagnoses: Option<string>, payments: Option<string>)

  datatype PatientRecord = PatientRecord(
    patient: PatientRow, exams: seq<ExamRow>, findings: seq<FindingRow>,
    diagnoses: seq<DiagnosisRow>, payments: seq<PaymentRow>)

  datatype Retrieval = Retrieval(response: Http<PatientRecord>, queries: seq<Query>)

  /** The error `.single()` reports when no row (or more than one) matches. */
  const NotSingleRow := "Cannot coerce the result to a single JSON object"

  function PatientsWithId(t: Tables, id: Id): seq<PatientRow>
  {
    Filter(t.patients, (p: PatientRow) => p.id == id)
  }

  function ExamsOf(t: Tables, id: Id): seq<ExamRow>
  {
    Filter(t.examinations, (e: ExamRow) => e.patientId == id)
  }

  /** `exams.map((e) => e.id)` */
  function ExamIds(exams: seq<ExamRow>): (ids: seq<Id>)
    ensures |ids| == |exams| && forall i :: 0 <= i < |exams| ==> ids[i] == exams[i].id
  {
    seq(|exams|, i requires 0 <= i < |exams| => exams[i].id)
  }

  /** The five reads in the order the handler issues them; the findings and
      diagnoses reads are issued even when the patient has no examination. */
  function AllQueries(t: Tables, id: Id): seq<Query>
  {
    var ids := ExamIds(ExamsOf(t, id));
    [PatientById(id), ExamsOfPatient(id), FindingsOfExams(ids), DiagnosesOfExams(ids), PaymentsOfPatient(id)]
  }

  /** The error the `i`-th read returns, if any.  The patient read also fails
      when the id does not name exactly one patient. */
  function FaultAt(t: Tables, id: Id, faults: ReadFaults, i: nat): Option<string>
  {
    if i == 0 then
      if faults.patient.Some? then faults.patient
      else if |PatientsWithId(t, id)| != 1 then Some(NotSingleRow)
      else None
    else if i == 1 then faults.exams
    else if i == 2 then faults.findings
    else if i == 3 then faults.diagnoses
    else faults.payments
  }

  /** A record that holds the patient, exactly that patient's examinations, the
      findings and diagnoses of exactly those examinations, and exactly that
      patient's payments. */
  ghost predicate CompleteRecord(t: Tables, id: Id, rec: PatientRecord)
  {
    rec.patient in t.patients && rec.patient.id == id
    && (forall e :: e in rec.exams <==> e in t.examinations && e.patientId == id)
    && (forall f :: f in rec.findings <==> f in t.findings && f.examId in ExamIds(rec.exams))
    && (forall d :: d in rec.diagnoses <==> d in t.diagnoses && d.examId in ExamIds(rec.exams))
    && (forall p :: p in rec.payments <==> p in t.payments && p.patientId == id)
  }

  /** `router.get("/:id")`: the reads run in order and the first one that
      fails ends the handler with 400 and its message; when none fails the
      reply is the complete record. */
  function ReadPatient(t: Tables, id: Id, faults: ReadFaults): (r: Retrieval)
    ensures 1 <= |r.queries| <= 5 && r.queries == AllQueries(t, id)[..|r.queries|]
    ensures forall i :: 0 <= i < |r.queries| - 1 ==> FaultAt(t, id, faults, i) == None
    ensures r.response.status == 400 <==> FaultAt(t, id, faults, |r.queries| - 1).Some?
    ensures r.response.status == 400 ==>
      r.response == Error(400, FaultAt(t, id, faults, |r.queries| - 1).value)
    ensures r.response.status != 400 ==>
      r.response.status == 200 && |r.queries| == 5 && r.response.body.Body?
      && CompleteRecord(t, id, r.response.body.value)
  {
    var q := AllQueries(t, id);
    var matches := PatientsWithId(t, id);
    if faults.patient.Some? then Retrieval(Error(400, faults.patient.value), q[..1])
    else if |matches| != 1 then Retrieval(Error(400, NotSingleRow), q[..1])
    else if faults.exams.Some? then Retrieval(Error(400, faults.exams.value), q[..2])
    else
      var exams := ExamsOf(t, id);
      var ids := ExamIds(exams);
      if faults.findings.Some? then Retrieval(Error(400, faults.findings.value), q[..3])
      else if faults.diagnoses.Some? then Retrieval(Error(400, faults.diagnoses.value), q[..4])
      else if faults.payments.Some? then Retrieval(Error(400, faults.payments.value), q)
      else
        assert matches[0] in matches;
        var rec := PatientRecord(
          matches[0], exams,
          Filter(t.findings, (f: FindingRow) => f.examId in ids),
          Filter(t.diagnoses, (d: DiagnosisRow) => d.examId in ids),
          Filter(t.payments, (p: PaymentRow) => p.patientId == id));
        Retrieval(Success(200, rec), q)
  }

  /** A patient without examinations still gets the findings and diagnoses
      reads, with an empty id list, and an empty list of each in the reply. */
  lemma NoExamsStillQueried(t: Tables, id: Id, faults: ReadFaults)
    requires ExamsOf(t, id) == []
    requires ReadPatient(t, id, faults).response.status == 200
    ensures ReadPatient(t, id, faults).queries[2] == FindingsOfExams([])
    ensures ReadPatient(t, id, faults).queries[3] == DiagnosesOfExams([])
    ensures ReadPatient(t, id, faults).response.body.value.findings == []
    ensures ReadPatient(t, id, faults).response.body.value.diagnoses == []
  {
    var rec := ReadPatient(t, id, faults).response.body.value;
    assert ExamIds([]) == [];
  }

  /** A patient added under a fresh id is the one row the patient read finds. */
  lemma NewPatientIsUnique(t: Tables, t': Tables, p: PatientRow)
    requires forall x :: x in t.patients ==> x.id != p.id
    requires t'.patients == t.patients + [p]
    ensures PatientsWithId(t', p.id) == [p]
  {
    var keep := (x: PatientRow) => x.id == p.id;
    FilterAppend(t.patients, [p], keep);
    FilterNone(t.patients, keep);
    assert Filter([p], keep) == [p] by {
      assert [p][1..] == [];
    }
  }

  /** What a successful registration wrote is what the record read returns:
      after Register succeeds with findings, reading the patient back (with no
      read failing) returns those findings. */
  lemma RegisteredFindingsReadBack(t: Tables, p: PatientRow, e: ExamRow, fs: seq<FindingIn>, faults: ReadFaults)
    requires e.patientId == p.id
    requires forall x :: x in t.patients ==> x.id != p.id
    requires faults == ReadFaults(None, None, None, None, None)
    ensures
      var t' := t.(patients := t.patients + [p], examinations := t.examinations + [e],
                   findings := t.findings + FindingRows(e.id, fs));
      var r := ReadPatient(t', p.id, faults);
      r.response.status == 200
      && (forall row :: row in FindingRows(e.id, fs) ==> row in r.response.body.value.findings)
  {
    var t' := t.(patients := t.patients + [p], examinations := t.examinations + [e],
                 findings := t.findings + FindingRows(e.id, fs));
    NewPatientIsUnique(t, t', p);
    var r := ReadPatient(t', p.id, faults);
    assert e in ExamsOf(t', p.id);
    forall row | row in FindingRows(e.id, fs)
      ensures row in r.response.body.value.findings
    {
      var ids := ExamIds(r.response.body.value.exams);
      var k :| 0 <= k < |r.response.body.value.exams| && r.response.body.value.exams[k] == e;
      assert ids[k] == e.id;
      var i :| 0 <= i < |FindingRows(e.id, fs)| && FindingRows(e.id, fs)[i] == row;
    }
  }
}
