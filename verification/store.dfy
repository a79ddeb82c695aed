/** The Supabase tables the routes read and write, as one in-memory database.
    Columns the routes copy from a request body hold JSON values; ids are
    strings handed out by the database. */
module Store {
  import opened JsText

  type Id = string

  /** The `patients` columns POST /patients writes (besides `id` and `staff_id`). */
  datatype PatientFields = PatientFields(
    name: Value, contact: Value, gender: Value, venue: Value,
    guarantorName: Value, guarantorContact: Value,
    profilePicture: Value, appointmentDate: Value)

  datatype PatientRow = PatientRow(id: Id, staffId: Id, fields: PatientFields)

  /** The `examinations` columns POST /patients writes. */
  datatype ExamFields = ExamFields(
    visualAcuityLeft: Value, visualAcuityRight: Value,
    pinholeLeft: Value, pinholeRight: Value,
    leftSphere: Value, leftCylinder: Value, leftAxis: Value,
    rightSphere: Value, rightCylinder: Value, rightAxis: Value,
    chiefComplaint: Value)

  datatype ExamRow = ExamRow(id: Id, patientId: Id, staffId: Id, fields: ExamFields)

  /** `examination_findings` */
  datatype FindingRow = FindingRow(examId: Id, findingType: Value, finding: Value)

  datatype DiagnosisRow = DiagnosisRow(examId: Id, diagnosis: Value, plan: Value)

  datatype PaymentRow = PaymentRow(patientId: Id, item: Value, amount: Value, status: Value)

  /** `users`: the role and profile of an account; "" stands for a missing role. */
  datatype UserRow = UserRow(id: Id, role: string, name: Value, phone: Value)

  /** An account of the authentication service, with its e-mail address. */
  datatype AuthUser = AuthUser(id: Id, email: Value)

  /** `referral_clinics` */
  datatype ClinicRow = ClinicRow(id: Id, name: Value, email: Value)

  /** `referrals_log` */
  datatype ReferralRow = ReferralRow(id: Id, patientId: Value, clinicId: Value, remark: Value)

  datatype Tables = Tables(
    patients: seq<PatientRow>,
    examinations: seq<ExamRow>,
    findings: seq<FindingRow>,
    diagnoses: seq<DiagnosisRow>,
    payments: seq<PaymentRow>,
    users: seq<UserRow>,
    authUsers: seq<AuthUser>,
    clinics: seq<ClinicRow>,
    referrals: seq<ReferralRow>)

  /** The database the route handlers share; every write replaces `t`. */
  class Database {
    var t: Tables

    constructor(initial: Tables)
      ensures t == initial
    {
      t := initial;
    }
  }
}
