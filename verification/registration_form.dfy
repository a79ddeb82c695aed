/** The patient-registration wizard: a two-step form (patient details, then the
    examination) over one shared form state, and its submit and exit handlers;
    and the findings, diagnoses and payments editors, which add and remove
    entries of that same form state.  The wizard's two steps do not mount the
    editors: they are modelled as operations on the state they are written
    against. */
module RegistrationForm {
  import opened Wrappers
  import opened JsText
  import opened PatientSchema
  import opened Browser
  import opened Sequences

  /** Step 0 is the patient details, step 1 the examination. */
  const StepCount: nat := 2
  const LastStep: nat := StepCount - 1

  const EmptyRefraction := Refraction("", "", "", "", "", "")

  /** The form's `defaultValues`; `reset()` returns to them. */
  const Defaults := FormData(
    PatientDetails("", "", "Male", "", "", "", "", ""),
    ExamDetails("", "", "", "", EmptyRefraction, EmptyRefraction, ""),
    None, [], [], [], None, None)

  /** The entries the Add buttons append. */
  const NewFinding := FindingEntry("", "")
  const NewDiagnosis := DiagnosisEntry("", "", None)
  const NewPayment := PaymentEntry("", "", Num(0), Some("pending"))

  /** The options of the payment category and status selects. */
  const PaymentCategories: seq<string> := ["Examination", "Eye Drop", "Optical", "Drugs", "Laboratory", "Other"]
  const PaymentStatuses: seq<string> := ["pending", "paid"]

  /** Where a successful registration sends the browser. */
  const AfterRegistration := "/staff/add-patient"

  /** The fields Next validates on each step, and nothing else. */
  predicate StepValid(step: nat, d: FormData)
  {
    if step == 0 then PatientDetailsValid(d.patient) else ExamDetailsValid(d.exam)
  }

  /** What pressing Submit led to. */
  datatype SubmitOutcome =
    | Invalid                      // the schema refused the form; nothing was sent
    | NoToken                      // no session token; nothing was sent
    | Rejected(payload: FormData)  // the server or the network failed
    | Registered(payload: FormData)

  class Wizard {
    var step: nat
    var isSubmitting: bool
    var data: FormData

    predicate Valid()
      reads this
    {
      step < StepCount
    }

    /** Next is rendered on every step but the last, Submit only on the last. */
    predicate NextOffered()
      reads this
    {
      step != LastStep
    }

    predicate SubmitOffered()
      reads this
    {
      step == LastStep
    }

    predicate BackEnabled()
      reads this
    {
      step != 0 && !isSubmitting
    }

    constructor()
      ensures Valid() && step == 0 && !isSubmitting && data == Defaults
    {
      step := 0;
      isSubmitting := false;
      data := Defaults;
    }

    /** `handleNext`: validates only the current step's fields and advances by
        one exactly when they pass; the entered data is never touched. */
    method HandleNext() returns (advanced: bool)
      requires Valid() && NextOffered() && !isSubmitting
      modifies this`step, this`isSubmitting
      ensures Valid() && !isSubmitting
      ensures advanced <==> StepValid(old(step), data)
      ensures step == if advanced then old(step) + 1 else old(step)
    {
      isSubmitting := true;
      var isValid := false;
      if step == 0 {
        isValid := PatientDetailsValid(data.patient);
      } else if step == 1 {
        isValid := ExamDetailsValid(data.exam);
      }
      if isValid {
        step := step + 1;
      }
      isSubmitting := false;
      advanced := isValid;
    }

    /** The Back button: `setStep(prev => Math.max(0, prev - 1))`. */
    method Back()
      requires Valid()
      modifies this`step
      ensures Valid()
      ensures step == if old(step) == 0 then 0 else old(step) - 1
    {
      step := if step == 0 then 0 else step - 1;
    }

    /** The form's `onKeyDown`: Enter is swallowed before the last step; an
        Enter that is not swallowed submits the form. */
    method KeyDown(key: string) returns (prevented: bool, submits: bool)
      requires Valid()
      ensures prevented <==> key == "Enter" && step < LastStep
      ensures submits <==> key == "Enter" && step == LastStep
    {
      prevented := key == "Enter" && step < StepCount - 1;
      submits := key == "Enter" && !prevented;
    }

    /** `handleSubmit(onSubmit)`: the whole schema is checked first; then the
        token is read; then the form data is posted.  Only a successful
        response resets the form and returns to step 0. */
    method Submit(storage: LocalStorage, response: Call<()>) returns (outcome: SubmitOutcome, nav: Navigation)
      requires Valid() && SubmitOffered() && !isSubmitting
      modifies this`step, this`isSubmitting, this`data
      ensures Valid() && !isSubmitting
      ensures !FormValid(old(data)) ==>
        outcome == Invalid && nav == Stay && step == old(step) && data == old(data)
      ensures FormValid(old(data)) && !Present(storage.Get("token")) ==>
        outcome == NoToken && nav == Stay && step == old(step) && data == old(data)
      ensures FormValid(old(data)) && Present(storage.Get("token")) && response.Done? ==>
        outcome == Registered(old(data)) && nav == Push(AfterRegistration) && step == 0 && data == Defaults
      ensures FormValid(old(data)) && Present(storage.Get("token")) && !response.Done? ==>
        outcome == Rejected(old(data)) && nav == Stay && step == old(step) && data == old(data)
    {
      nav := Stay;
      if !FormValid(data) {
        outcome := Invalid;
        return;
      }
      isSubmitting := true;
      var token := storage.Get("token");
      if !Present(token) {
        isSubmitting := false;
        outcome := NoToken;
        return;
      }
      var payload := data;
      if response.Done? {
        data := Defaults;
        step := 0;
        nav := Push(AfterRegistration);
        outcome := Registered(payload);
      } else {
        outcome := Rejected(payload);
      }
      isSubmitting := false;
    }

    /** `handleRoleAction`: admins and doctors go back, staff log out, any other
        role (or none) does nothing. */
    method HandleRoleAction(storage: LocalStorage) returns (nav: Navigation)
      modifies storage
      ensures old(storage.Get("role")) in {Some("admin"), Some("doctor")} ==>
        nav == GoBack && storage.items == old(storage.items)
      ensures old(storage.Get("role")) == Some("staff") ==>
        nav == Replace("/login") && storage.items == old(storage.items) - {"token", "user", "role"}
      ensures old(storage.Get("role")) !in {Some("admin"), Some("doctor"), Some("staff")} ==>
        nav == Stay && storage.items == old(storage.items)
    {
      var role := storage.Get("role");
      if role == Some("admin") || role == Some("doctor") {
        nav := GoBack;
      } else if role == Some("staff") {
        nav := HandleLogout(storage);
      } else {
        nav := Stay;
      }
    }

    /** `handleLogout`: forget the session and go to the login page. */
    method HandleLogout(storage: LocalStorage) returns (nav: Navigation)
      modifies storage
      ensures storage.items == old(storage.items) - {"token", "user", "role"}
      ensures nav == Replace("/login")
    {
      storage.RemoveItem("token");
      storage.RemoveItem("user");
      storage.RemoveItem("role");
      nav := Replace("/login");
    }

    // ----- Editing the form state

    method SetPatientDetails(p: PatientDetails)
      modifies this`data
      ensures data == old(data).(patient := p)
    {
      data := data.(patient := p);
    }

    method SetExamDetails(e: ExamDetails)
      modifies this`data
      ensures data == old(data).(exam := e)
    {
      data := data.(exam := e);
    }

    /** The optional appointment date, edited on the findings step. */
    method SetAppointmentDate(date: string)
      modifies this`data
      ensures data == old(data).(appointmentDate := Some(date))
    {
      data := data.(appointmentDate := Some(date));
    }

    // ----- The findings editor

    /** Add Finding appends `{ type: "", finding: "" }`. */
    method AppendFinding()
      modifies this`data
      ensures data == old(data).(findings := old(data).findings + [NewFinding])
    {
      data := data.(findings := data.findings + [NewFinding]);
    }

    /** The delete button of entry `index`. */
    method RemoveFinding(index: nat)
      requires index < |data.findings|
      modifies this`data
      ensures data == old(data).(findings := RemoveAt(old(data).findings, index))
    {
      data := data.(findings := RemoveAt(data.findings, index));
    }

    /** Typing into the Type and Finding inputs of entry `index`. */
    method EditFinding(index: nat, findingType: string, finding: string)
      requires index < |data.findings|
      modifies this`data
      ensures data == old(data).(findings := old(data).findings[index := FindingEntry(findingType, finding)])
    {
      data := data.(findings := data.findings[index := FindingEntry(findingType, finding)]);
    }

    // ----- The diagnoses editor

    /** Add Diagnosis appends `{ diagnosis: "", plan: "" }`, without a category. */
    method AppendDiagnosis()
      modifies this`data
      ensures data == old(data).(diagnoses := old(data).diagnoses + [NewDiagnosis])
    {
      data := data.(diagnoses := data.diagnoses + [NewDiagnosis]);
    }

    method RemoveDiagnosis(index: nat)
      requires index < |data.diagnoses|
      modifies this`data
      ensures data == old(data).(diagnoses := RemoveAt(old(data).diagnoses, index))
    {
      data := data.(diagnoses := RemoveAt(data.diagnoses, index));
    }

    /** The entry has Diagnosis and Treatment Plan inputs only: its category
        is left as it was. */
    method EditDiagnosis(index: nat, diagnosis: string, plan: string)
      requires index < |data.diagnoses|
      modifies this`data
      ensures |data.diagnoses| == |old(data).diagnoses|
      ensures data == old(data).(diagnoses := old(data).diagnoses[index :=
        old(data).diagnoses[index].(diagnosis := diagnosis, plan := plan)])
    {
      var d := data.diagnoses[index];
      data := data.(diagnoses := data.diagnoses[index := d.(diagnosis := diagnosis, plan := plan)]);
    }

    // ----- The payments editor

    /** Add Payment appends `{ category: "", item: "", amount: 0, status: "pending" }`. */
    method AppendPayment()
      modifies this`data
      ensures data == old(data).(payments := old(data).payments + [NewPayment])
    {
      data := data.(payments := data.payments + [NewPayment]);
    }

    method RemovePayment(index: nat)
      requires index < |data.payments|
      modifies this`data
      ensures data == old(data).(payments := RemoveAt(old(data).payments, index))
    {
      data := data.(payments := RemoveAt(data.payments, index));
    }

    /** Typing into the Item and Amount inputs; the amount input yields a string. */
    method EditPayment(index: nat, item: string, amount: string)
      requires index < |data.payments|
      modifies this`data
      ensures data == old(data).(payments := old(data).payments[index :=
        old(data).payments[index].(item := item, amount := Str(amount))])
    {
      var p := data.payments[index];
      data := data.(payments := data.payments[index := p.(item := item, amount := Str(amount))]);
    }

    /** The category select offers only the six fixed categories. */
    method SelectPaymentCategory(index: nat, category: string)
      requires index < |data.payments| && category in PaymentCategories
      modifies this`data
      ensures data == old(data).(payments := old(data).payments[index :=
        old(data).payments[index].(category := category)])
    {
      var p := data.payments[index];
      data := data.(payments := data.payments[index := p.(category := category)]);
    }

    /** The status select offers only `pending` and `paid`. */
    method SelectPaymentStatus(index: nat, status: string)
      requires index < |data.payments| && status in PaymentStatuses
      modifies this`data
      ensures data == old(data).(payments := old(data).payments[index :=
        old(data).payments[index].(status := Some(status))])
    {
      var p := data.payments[index];
      data := data.(payments := data.payments[index := p.(status := Some(status))]);
    }
  }

  // ----- What the wizard promises

  /** A form with a freshly added finding, diagnosis or payment cannot be
      submitted until that entry is filled in. */
  lemma FreshEntriesBlockSubmit(d: FormData)
    ensures !FormValid(d.(findings := d.findings + [NewFinding]))
    ensures !FormValid(d.(diagnoses := d.diagnoses + [NewDiagnosis]))
    ensures !FormValid(d.(payments := d.payments + [NewPayment]))
  {
    assert (d.findings + [NewFinding])[|d.findings|] == NewFinding;
    assert (d.diagnoses + [NewDiagnosis])[|d.diagnoses|] == NewDiagnosis;
    assert (d.payments + [NewPayment])[|d.payments|] == NewPayment;
  }

  /** A fresh finding passes once both its fields are filled; a fresh
      payment needs an item and a typed amount that is "" or positive. */
  lemma FilledEntriesPass(findingType: string, finding: string, item: string, amount: string)
    ensures FindingValid(FindingEntry(findingType, finding)) <==> findingType != "" && finding != ""
    ensures PaymentValid(NewPayment.(item := item, amount := Str(amount))) <==>
      item != "" && (amount == "" || IsPositiveNumber(amount))
  {
  }

  /** Removing an entry never makes a valid form invalid. */
  lemma RemovalKeepsValidity(d: FormData, index: nat)
    requires FormValid(d)
    ensures index < |d.findings| ==> FormValid(d.(findings := RemoveAt(d.findings, index)))
    ensures index < |d.diagnoses| ==> FormValid(d.(diagnoses := RemoveAt(d.diagnoses, index)))
    ensures index < |d.payments| ==> FormValid(d.(payments := RemoveAt(d.payments, index)))
  {
  }

  /** Every category the select can produce is one of the six. */
  lemma CategoryChoices(c: string)
    requires c in PaymentCategories
    ensures c == "Examination" || c == "Eye Drop" || c == "Optical" || c == "Drugs"
         || c == "Laboratory" || c == "Other"
  {
  }

  /** The default form does not pass the first step: name, contact and venue
      start empty. */
  lemma DefaultsBlockFirstStep()
    ensures !StepValid(0, Defaults)
  {
  }

  /** A scenario: from the start, a valid first step followed by Next and a
      successful Submit returns to step 0 with the defaults. */
  method RegisterOnce(storage: LocalStorage, p: PatientDetails, e: ExamDetails) returns (w: Wizard, outcome: SubmitOutcome)
    requires PatientDetailsValid(p) && ExamDetailsValid(e) && Present(storage.Get("token"))
    ensures outcome.Registered? && outcome.payload.patient == p && outcome.payload.exam == e
    ensures w.step == 0 && w.data == Defaults
  {
    w := new Wizard();
    w.SetPatientDetails(p);
    w.SetExamDetails(e);
    var advanced := w.HandleNext();
    var nav;
    outcome, nav := w.Submit(storage, Done(()));
  }
}
