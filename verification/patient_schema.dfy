/** The registration form's data and the field rules every value must pass
    before the form is submitted (the `addPatientSchema` object). */
module PatientSchema {
  import opened Wrappers
  import opened JsText

  /** The six auto-refraction (or subjective-refraction) readings. */
  datatype Refraction = Refraction(
    leftSphere: string, leftCylinder: string, leftAxis: string,
    rightSphere: string, rightCylinder: string, rightAxis: string)

  datatype PatientDetails = PatientDetails(
    name: string, contact: string, gender: string, age: string, occupation: string,
    venue: string, guarantorName: string, guarantorContact: string)

  datatype ExamDetails = ExamDetails(
    visualAcuityLeft: string, visualAcuityRight: string,
    pinholeLeft: string, pinholeRight: string,
    autoRefraction: Refraction, subjectiveRefraction: Refraction,
    chiefComplaint: string)

  datatype FindingEntry = FindingEntry(findingType: string, finding: string)

  /** `category` is None when the entry has no `category` key at all. */
  datatype DiagnosisEntry = DiagnosisEntry(diagnosis: string, plan: string, category: Option<string>)

  /** `amount` is whatever the input holds: a string once typed into, the number 0
      for a freshly added entry. `status` is None when the key is missing. */
  datatype PaymentEntry = PaymentEntry(category: string, item: string, amount: Value, status: Option<string>)

  /** The whole form state shared by every step.  A missing `findings`,
      `diagnoses` or `payments` list is the empty sequence. */
  datatype FormData = FormData(
    patient: PatientDetails,
    exam: ExamDetails,
    appointmentDate: Option<string>,
    findings: seq<FindingEntry>,
    diagnoses: seq<DiagnosisEntry>,
    payments: seq<PaymentEntry>,
    clinicId: Option<string>,
    remark: Option<string>)

  // ----- Field rules

  /** `name: z.string().min(2)` */
  predicate NameValid(name: string) { |name| >= 2 }

  /** `contact: z.string().min(10)` */
  predicate ContactValid(contact: string) { |contact| >= 10 }

  /** `z.string().nonempty()` */
  predicate Required(s: string) { s != "" }

  /** The rules of the fields on the patient-details step.  The guarantor
      fields accept any string, the empty one included. */
  predicate PatientDetailsValid(p: PatientDetails)
  {
    NameValid(p.name) && ContactValid(p.contact) && Required(p.gender) && Required(p.venue)
  }

  /** `val === "" || !isNaN(Number(val))` */
  predicate NumericOrEmpty(s: string) { s == "" || IsDecimal(s) }

  predicate RefractionValid(r: Refraction)
  {
    NumericOrEmpty(r.leftSphere) && NumericOrEmpty(r.leftCylinder) && NumericOrEmpty(r.leftAxis)
    && NumericOrEmpty(r.rightSphere) && NumericOrEmpty(r.rightCylinder) && NumericOrEmpty(r.rightAxis)
  }

  /** Only the auto-refraction readings carry a rule; visual acuity, pinhole,
      chief complaint and the subjective refraction accept any string. */
  predicate ExamDetailsValid(e: ExamDetails)
  {
    RefractionValid(e.autoRefraction)
  }

  predicate FindingValid(f: FindingEntry)
  {
    Required(f.findingType) && Required(f.finding)
  }

  /** `plan` and `category` accept any string, and may be missing. */
  predicate DiagnosisValid(d: DiagnosisEntry)
  {
    Required(d.diagnosis)
  }

  /** `amount: z.string().refine(val => val === "" || (!isNaN(Number(val)) && Number(val) > 0))` */
  predicate AmountValid(amount: Value)
  {
    amount.Str? && (amount.s == "" || IsPositiveNumber(amount.s))
  }

  /** `status` may be missing or any string. */
  predicate PaymentValid(p: PaymentEntry)
  {
    Required(p.item) && AmountValid(p.amount)
  }

  predicate AllFindingsValid(fs: seq<FindingEntry>) { forall i :: 0 <= i < |fs| ==> FindingValid(fs[i]) }

  predicate AllDiagnosesValid(ds: seq<DiagnosisEntry>) { forall i :: 0 <= i < |ds| ==> DiagnosisValid(ds[i]) }

  predicate AllPaymentsValid(ps: seq<PaymentEntry>) { forall i :: 0 <= i < |ps| ==> PaymentValid(ps[i]) }

  /** The whole schema.  `appointment_date`, `clinicId` and `remark` accept any
      string or none. */
  predicate FormValid(d: FormData)
  {
    PatientDetailsValid(d.patient) && ExamDetailsValid(d.exam)
    && AllFindingsValid(d.findings) && AllDiagnosesValid(d.diagnoses) && AllPaymentsValid(d.payments)
  }

  // ----- What the rules promise

  /** The guarantor fields never decide validity: any value, "" included, is accepted. */
  lemma GuarantorOptional(d: FormData, name: string, contact: string)
    ensures FormValid(d.(patient := d.patient.(guarantorName := name, guarantorContact := contact)))
        == FormValid(d)
  {
  }

  /** Name needs two characters, contact ten, gender and venue one. */
  lemma PatientDetailsRule(p: PatientDetails)
    ensures PatientDetailsValid(p) <==>
      |p.name| >= 2 && |p.contact| >= 10 && p.gender != "" && p.venue != ""
  {
  }

  /** A refraction reading is accepted iff it is "" or a decimal literal; so
      a reading with a character that is no digit, sign or point is refused. */
  lemma RefractionRejectsNonNumeric(s: string, i: nat)
    requires i < |s| && !IsDigit(s[i]) && s[i] != '.' && s[i] != '+' && s[i] != '-'
    ensures !NumericOrEmpty(s)
  {
  }

  /** A payment amount passes exactly when it is the string "" or a decimal
      literal that is not negated and has a digit other than 0. */
  lemma AmountRule(s: string)
    ensures AmountValid(Str(s)) <==>
      s == "" || (IsDecimal(s) && s[0] != '-' && HasNonZeroDigit(s))
  {
    if IsDecimal(s) {
      PositiveNumberIff(s);
    }
  }

  /** "0" and "-5" fail the amount rule. */
  lemma NonPositiveAmountsRejected()
    ensures !AmountValid(Str("0")) && !AmountValid(Str("-5"))
  {
    AmountRule("0");
    AmountRule("-5");
    assert LeadingDigits("0") == 1;
    assert !HasNonZeroDigit("0");
  }

  /** "12.50" passes the amount rule, and so does "". */
  lemma PositiveAndBlankAmountsAccepted()
    ensures AmountValid(Str("12.50")) && AmountValid(Str(""))
  {
    AmountRule("12.50");
    assert "12.50"[1] == '2';
    assert LeadingDigits("12.50") == 2;
  }

  /** An amount that is not a string, as the number 0 of a new entry, fails. */
  lemma NumberAmountRejected(n: int)
    ensures !AmountValid(Num(n))
  {
  }

  /** A diagnosis category is free text: changing it never changes validity. */
  lemma CategoryIsFreeText(d: DiagnosisEntry, c: Option<string>)
    ensures DiagnosisValid(d.(category := c)) == DiagnosisValid(d)
  {
  }

  /** The referral fields and the appointment date never decide validity. */
  lemma ReferralFieldsOptional(d: FormData, clinicId: Option<string>, remark: Option<string>, date: Option<string>)
    ensures FormValid(d.(clinicId := clinicId, remark := remark, appointmentDate := date)) == FormValid(d)
  {
  }
}
