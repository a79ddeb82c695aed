# Star Vision clinic system: a Dafny model of its core

Star Vision is a small eye-clinic system: an Express backend over a Supabase
database and auth service, and a Next.js admin front end. This project models
the parts of it that make decisions:

- **Registration.** The two-step patient wizard (`add-patient-form.tsx`). The
  findings, diagnoses and payments editors (`forms/add-*-form.tsx`), which
  read and write the same form state; the wizard's two steps (patient details,
  examination) do not mount them, so they are modelled as operations on that
  state. The `addPatientSchema` field rules.
  `POST /patients`, which writes a registration table by table, and
  `GET /patients/:id`, which reads it back with five fail-fast queries.
- **Referrals.** Adding and renaming referral clinics. `POST /referrals`, which
  looks the clinic up, logs the referral and e-mails the clinic. The referral
  e-mail itself (`sendReferralEmail`).
- **Access control.** The three role gates (`checkAdmin`, `checkDoctor`,
  `checkStaff`). The login ladder and the staff routes (add, list with e-mail
  addresses, count, update, delete).
- **Admin pages.** The login page's submit handler, the staff, doctor and
  clinic edit dialogs, the session-token check, how the staff and doctor
  lists read a fetch response, and the calendar view's day filter, upcoming
  list and month stepping.

Every call into Supabase, `fetch` or the mail transport is an oracle. It is
either a value `Call<T>`, meaning `Done(v)`, `Failed(code, message)` (an error
object) or `Threw(message)` (an exception), or a function parameter when its
answer depends on an argument (`getUser(token)`, `roleOf(id)`, `emailOf(id)`).
The database is one mutable object, `Store.Database`, whose field `t` holds
every table as a sequence of rows. Route handlers that write are methods that
reassign it. Read routes are functions over the tables. The browser's
`localStorage` is the class `Browser.LocalStorage` over a map. Front-end
components whose state changes are classes: `RegistrationForm.Wizard`,
`LoginForm.LoginPageState`, `AdminTables.EditPersonDialog`,
`AdminTables.EditClinicDialog`, `AdminTables.ListPage` and
`CalendarView.Calendar`.

JavaScript values read from a body or a row are `JsText.Value`: `Undefined`
(a missing key or `null`), a string, or an integer. Truthiness, `${v}`,
`v || 'N/A'`, `trim()`, `split(c)` and the decimal literals `Number()` accepts
are defined in `JsText`.

In these places the model follows the code as written:

- `POST /patients` always inserts the examination after the patient. A failed
  examination insert answers 400 and the patient row stays.
- An error returned by a findings, diagnoses or payments insert is ignored. An
  insert that throws ends the request with 500.
- `GET /patients/:id` issues the findings and diagnoses queries even when the
  patient has no examination, with an empty id list.
- A missing patient surfaces as the 400 error of `.single()`, not as a
  separate "not found".
- The login handler has no `try`/`catch`, so a call that throws leaves the
  request without a reply. `UserRoutes.Login` returns `None` for that case.

## Model

| member | source | states |
|---|---|---|
| PatientSchema.PatientDetailsRule | admin/components/schema/patient-schemas.ts:7-10 | the patient step passes iff name has at least 2 characters, contact at least 10, and gender and venue are non-empty |
| PatientSchema.GuarantorOptional | admin/components/schema/patient-schemas.ts:11-12 | changing the guarantor name or contact, to anything including "", never changes whether the form is valid |
| PatientSchema.RefractionRejectsNonNumeric | admin/components/schema/patient-schemas.ts:22-39 | an auto-refraction reading containing a character that is not a digit, sign or point is rejected |
| PatientSchema.AmountRule | admin/components/schema/patient-schemas.ts:60-63 | a typed amount passes iff it is "" or a non-negated decimal literal with a non-zero digit, i.e. a number greater than 0 |
| PatientSchema.NonPositiveAmountsRejected | admin/components/schema/patient-schemas.ts:60-63 | the amounts "0" and "-5" are rejected |
| PatientSchema.PositiveAndBlankAmountsAccepted | admin/components/schema/patient-schemas.ts:60-63 | the amounts "12.50" and "" are accepted |
| PatientSchema.NumberAmountRejected | admin/components/schema/patient-schemas.ts:60 | an amount that is a number rather than a string, such as the 0 of a new entry, fails the rule |
| PatientSchema.CategoryIsFreeText | admin/components/schema/patient-schemas.ts:51-55 | a diagnosis's category, present or missing, never decides its validity |
| PatientSchema.ReferralFieldsOptional | admin/components/schema/patient-schemas.ts:69-70 | clinicId, remark and appointment_date never decide whether the form is valid |
| JsText.Trim | admin/components/staff-table.tsx:44 | trim() yields "" iff the string is all whitespace; otherwise the result starts and ends with a non-space |
| JsText.TrimBlankIff | admin/components/staff-table.tsx:44 | removing leading then trailing whitespace leaves "" exactly when the string is all whitespace |
| JsText.Split | admin/components/staff-table.tsx:308 | split(c) yields one more piece than there are separators, and no piece contains the separator |
| JsText.PositiveNumberIff | admin/components/schema/patient-schemas.ts:61 | a decimal literal denotes a number greater than 0 iff it is not negated and has a non-zero digit |
| JsText.IntToString | admin/components/staff-table.tsx:180 | `${status}` is non-empty and starts with '-' exactly for negative numbers |
| JsText.NatToString | admin/components/staff-table.tsx:180 | the decimal rendering of a natural number is all digits and reads back as that number |
| RegistrationForm.Wizard.constructor | admin/components/add-patient-form.tsx:29-65 | the wizard starts at step 0, not submitting, with the default form values |
| RegistrationForm.Wizard.HandleNext | admin/components/add-patient-form.tsx:77-122 | Next advances by exactly one iff the current step's fields pass; otherwise the step is unchanged; isSubmitting is false afterwards and the step stays below 2 |
| RegistrationForm.Wizard.Back | admin/components/add-patient-form.tsx:218 | Back sets the step to max(0, step - 1) |
| RegistrationForm.Wizard.KeyDown | admin/components/add-patient-form.tsx:204-208 | Enter is suppressed before the last step and submits only at the last step |
| RegistrationForm.Wizard.Submit | admin/components/add-patient-form.tsx:126-169 | an invalid form or a missing token sends nothing and changes nothing; a successful response resets the data to the defaults and returns to step 0; a failed one leaves step and data as they were; isSubmitting ends false |
| RegistrationForm.Wizard.HandleRoleAction | admin/components/add-patient-form.tsx:178-185 | admin and doctor go back, staff log out (token, user and role removed), any other role changes nothing |
| RegistrationForm.Wizard.HandleLogout | admin/components/add-patient-form.tsx:171-176 | exactly token, user and role leave localStorage and the browser goes to /login |
| RegistrationForm.Wizard.SetPatientDetails | admin/components/add-patient-form.tsx:72 | typing on the first step changes only the patient fields |
| RegistrationForm.Wizard.SetExamDetails | admin/components/add-patient-form.tsx:73 | typing on the second step changes only the examination fields |
| RegistrationForm.Wizard.SetAppointmentDate | admin/components/forms/add-findings-form.tsx:87-101 | the appointment date is set and nothing else changes |
| RegistrationForm.Wizard.AppendFinding | admin/components/forms/add-findings-form.tsx:80 | the findings list gains exactly one empty entry at its end; nothing else changes |
| RegistrationForm.Wizard.RemoveFinding | admin/components/forms/add-findings-form.tsx:70 | only the entry at the index is removed, the others keep their order |
| RegistrationForm.Wizard.EditFinding | admin/components/forms/add-findings-form.tsx:15-18 | only the edited entry changes |
| RegistrationForm.Wizard.AppendDiagnosis | admin/components/forms/add-diagnoses-form.tsx:70 | the diagnoses list gains one entry with empty diagnosis and plan and no category |
| RegistrationForm.Wizard.RemoveDiagnosis | admin/components/forms/add-diagnoses-form.tsx:60 | only the entry at the index is removed |
| RegistrationForm.Wizard.EditDiagnosis | admin/components/forms/add-diagnoses-form.tsx:33-54 | only diagnosis and plan of that entry change; its category is never set here |
| RegistrationForm.Wizard.AppendPayment | admin/components/forms/add-payments-form.tsx:122 | the payments list gains one entry with empty category and item, amount 0 and status pending |
| RegistrationForm.Wizard.RemovePayment | admin/components/forms/add-payments-form.tsx:112 | only the entry at the index is removed |
| RegistrationForm.Wizard.EditPayment | admin/components/forms/add-payments-form.tsx:15-18 | only the item and the typed amount of that entry change |
| RegistrationForm.Wizard.SelectPaymentCategory | admin/components/forms/add-payments-form.tsx:46-51 | a category can be one of the six listed only, and only that entry's category changes |
| RegistrationForm.Wizard.SelectPaymentStatus | admin/components/forms/add-payments-form.tsx:97-98 | the status can be pending or paid only, and only that entry's status changes |
| RegistrationForm.FreshEntriesBlockSubmit | admin/components/forms/add-findings-form.tsx:80 | a form with a freshly added finding, diagnosis or payment never passes the schema |
| RegistrationForm.FilledEntriesPass | admin/components/schema/patient-schemas.ts:45-63 | a finding passes iff both fields are filled; a new payment passes iff it has an item and a typed amount that is "" or positive |
| RegistrationForm.RemovalKeepsValidity | admin/components/forms/add-payments-form.tsx:112 | removing an entry from a valid form leaves it valid |
| RegistrationForm.CategoryChoices | admin/components/forms/add-payments-form.tsx:46-51 | the category choices are exactly Examination, Eye Drop, Optical, Drugs, Laboratory and Other |
| RegistrationForm.DefaultsBlockFirstStep | admin/components/add-patient-form.tsx:35-43 | the default values do not pass the first step |
| RegistrationForm.RegisterOnce | admin/components/add-patient-form.tsx:77-169 | valid details, Next and a successful Submit post exactly the entered details and end at step 0 with the defaults |
| PatientRoutes.FindingRows | backend/routes/patientRoutes.js:98-102 | one row per finding, in order, tied to the new examination, carrying type and finding |
| PatientRoutes.DiagnosisRows | backend/routes/patientRoutes.js:108-112 | one row per diagnosis, in order, tied to the examination, with a missing plan stored as "" |
| PatientRoutes.PaymentRows | backend/routes/patientRoutes.js:118-123 | one row per payment, in order, tied to the patient, with a missing status stored as pending |
| PatientRoutes.Register | backend/routes/patientRoutes.js:11-134 | a failed patient insert writes nothing; the examination is always inserted next and its failure keeps the patient row; each batch is inserted only for a non-empty array, its error is ignored, a throw answers 500; the welcome message goes to a truthy contact only |
| PatientRoutes.UnreadKeysNeverStored | backend/routes/patientRoutes.js:108-112 | keys the handler does not read, such as a diagnosis's category, never change the stored rows |
| PatientRoutes.PaymentsAlwaysHaveStatus | backend/routes/patientRoutes.js:118-123 | every stored payment has a status and belongs to the patient |
| PatientRoutes.ReadPatient | backend/routes/patientRoutes.js:161-216 | the five reads run in order and stop at the first failure, which answers 400 with its message; otherwise the reply holds the patient, exactly their examinations, exactly the findings and diagnoses of those examinations, and exactly their payments |
| PatientRoutes.NoExamsStillQueried | backend/routes/patientRoutes.js:183-196 | a patient with no examinations still gets the findings and diagnoses queries with an empty id list, and empty lists back |
| PatientRoutes.NewPatientIsUnique | backend/routes/patientRoutes.js:166-170 | a patient inserted under a fresh id is the single row the patient read finds |
| PatientRoutes.RegisteredFindingsReadBack | backend/routes/patientRoutes.js:161-216 | after a registration with findings, reading the patient back returns every finding row it wrote |
| ReferralRoutes.ClinicWriteError | backend/routes/referralRoutes.js:23-27 | a unique violation (23505) answers 409 with the duplicate message, any other error 500 with its message |
| ReferralRoutes.AddClinic | backend/routes/referralRoutes.js:9-35 | a missing name or email answers 400 and touches nothing; an error maps through the clinic error rule; success appends the clinic and answers 201 |
| ReferralRoutes.RenameClinic | backend/routes/referralRoutes.js:47-52 | the clinic with that id takes the new name and email; every other row stays |
| ReferralRoutes.RenameIdempotent | backend/routes/referralRoutes.js:47-52 | renaming twice with the same values is renaming once |
| ReferralRoutes.RenameMissing | backend/routes/referralRoutes.js:47-52 | renaming an id no clinic has changes nothing |
| ReferralRoutes.ClinicById | backend/routes/referralRoutes.js:122-126 | the lookup finds a clinic with that id iff exactly one row has it |
| ReferralRoutes.UpdateClinic | backend/routes/referralRoutes.js:38-70 | the same 400 check and error mapping as add-clinic; a clinic that is not there answers 404; success renames it and answers 200 |
| ReferralRoutes.RemarkNeverEmailed | backend/routes/referralRoutes.js:114-144 | the e-mail as written is composed without the remark, so it never has a Remarks section, though a truthy remark would produce one |
| ReferralRoutes.ReferralMailAsWritten | backend/routes/referralRoutes.js:114-144 | the e-mail the route sends goes to the clinic with the patient named in the subject, every patient line and every payment line as the template writes it; it is composed from the body without the remark |
| ReferralRoutes.ReferralMail | backend/routes/referralRoutes.js:144 | the corrected e-mail goes to the clinic with the patient named in the subject and shows the remark when there is one, every finding, and every payment with the item text the registration form sent |
| ReferralRoutes.PostReferral | backend/routes/referralRoutes.js:113-151 | missing ids answer 400; a clinic read that throws answers 500 with its message; a read error or an unknown clinic answers 404; none of these writes or mails; otherwise the referral is logged when its insert succeeds, the e-mail as written (without the remark) is sent even when the insert failed, a thrown insert or a failed send answers 500, and success answers 200 with the logged row or none |
| ReferralRoutes.LogAndSend | backend/routes/referralRoutes.js:133-150 | a failed referral insert is only logged and the e-mail as written, without the remark, still goes out; a thrown insert answers 500 and sends nothing; a failed send answers 500 with the sender's message |
| ReferralRoutes.LogReferral | backend/routes/referralRoutes.js:133-141 | exactly one referral row is added when the insert succeeds, none otherwise |
| ReferralEmail.Section | backend/utils/email.js:54-84 | a list section is empty iff its list is missing or empty |
| ReferralEmail.RemarksSection | backend/utils/email.js:107-110 | the Remarks section is present iff the remark is truthy |
| ReferralEmail.Parts | backend/utils/email.js:90-113 | the body is header, patient, examination, findings, diagnoses, payments, remarks, footer in that order, each optional section empty exactly when its data is |
| ReferralEmail.Compose | backend/utils/email.js:27-114 | the mail goes to the given address; the subject is "Patient Referral: " with the name or N/A; the body holds the header, the footer, every patient and examination line, every finding, diagnosis and payment line, and the remark when truthy |
| ReferralEmail.HtmlShows | backend/utils/email.js:90-113 | the joined body contains the header, the footer, each patient and examination line, each finding, diagnosis and payment line and the remark paragraph when truthy |
| ReferralEmail.RemarkShown | backend/utils/email.js:107-110 | a body that contains the Remarks section contains the remark's paragraph |
| ReferralEmail.BlockShown | backend/utils/email.js:94-97 | a body that contains a titled list contains each of its lines |
| ReferralEmail.SectionShown | backend/utils/email.js:54-84 | a body that contains a findings, diagnoses or payments section contains every item's line |
| ReferralEmail.SendReferralEmail | backend/utils/email.js:116-122 | the mail composed by the template as written (its payment line reads description) is sent iff the transport succeeds; any transport failure becomes the one error "Failed to send referral email." |
| ReferralEmail.PatientFieldsShown | backend/utils/email.js:27-35 | the body shows the name, contact, gender, venue, appointment date, reason and chief complaint, each as its value or N/A |
| ReferralEmail.LineShowsValueOrNA | backend/utils/email.js:28-49 | a field line shows N/A for a missing, empty or zero value (0 included) and the value itself otherwise |
| ReferralEmail.ZeroAmountShowsNA | backend/utils/email.js:80 | a payment of amount 0 shows its amount as N/A, in the written line and the corrected one |
| JsText.OrNAFallback | backend/utils/email.js:28 | the N/A fallback of a template field reads N/A iff the value is missing, empty or zero or is the text N/A itself; a truthy value reads as itself |
| ReferralEmail.DescriptionAlwaysMissing | backend/utils/email.js:79 | a payment sent by the registration form (text in item, no description) shows "N/A" as written, and its item once corrected |
| ReferralEmail.PaymentLineKeepsDescription | backend/utils/email.js:77-82 | the corrected payment line equals the written one whenever the payment has no item |
| RoleGates.BearerToken | backend/middleware/checkAdmin.js:14 | the header yields a token iff it contains a space |
| RoleGates.BearerTokenOf | backend/middleware/checkAdmin.js:14 | "scheme token" yields exactly the token |
| RoleGates.Gate | backend/middleware/checkAdmin.js:8-64 | the request passes iff its token resolves to a user whose role row holds an allowed role, with that user and role; rung by rung: no or empty header 401 "No token provided", an auth exception 401, an auth error or no user 401 invalid token, a role-read exception 401, a role error or no row 403 "Role not found", a role outside the set 403 with the gate's message |
| RoleGates.AdminPassesEveryGate | backend/middleware/checkDoctor.js:31-33 | a request the admin gate lets through passes the doctor and staff gates with the same user and role |
| RoleGates.RolesAreSeparated | backend/middleware/checkStaff.js:28-30 | a doctor gets 403 from the staff and admin gates, a staff member 403 from the doctor and admin gates |
| RoleGates.Request.constructor | backend/middleware/checkAdmin.js:8 | a request starts with its header, no user, no role, no reply and next not called |
| RoleGates.Guard | backend/middleware/checkDoctor.js:4-42 | a rejection is written as the reply and next is not called; on success req.user (and req.role when recorded) is set and next is called |
| RoleGates.CheckAdmin | backend/middleware/checkAdmin.js:8-64 | a rejection is written as the reply with the admin gate's status and message, next is not called and req.user is untouched; on success req.user is the resolved user, whose role is admin, and next is called; req.role is not set |
| RoleGates.CheckDoctor | backend/middleware/checkDoctor.js:4-42 | a rejection is written as the reply with the doctor gate's status and message, next is not called and req.user and req.role are untouched; on success req.user is the resolved user, req.role is the role read (doctor or admin), and next is called |
| RoleGates.CheckStaff | backend/middleware/checkStaff.js:3-37 | a rejection is written as the reply with the staff gate's status and message, next is not called and req.user and req.role are untouched; on success req.user is the resolved user, req.role is the role read (staff or admin), and next is called |
| UserRoutes.Login | backend/routes/userRoutes.js:9-50 | an auth error answers 400 with its message, a missing user or session 401; then a role-read error answers 400 with its message and a missing or empty role 400 "User role not found."; success (200) iff all succeed, returning the user, role and access token; no reply when a call throws |
| UserRoutes.AddStaff | backend/routes/userRoutes.js:53-86 | an auth error writes nothing; a profile-insert error leaves the auth account; success writes the account and a profile with role staff |
| UserRoutes.StaffRows | backend/routes/userRoutes.js:97-100 | exactly the users whose role is staff |
| UserRoutes.EmailOrNA | backend/routes/userRoutes.js:122-140 | the e-mail shown is the auth service's address exactly when the lookup succeeds with a non-empty address, and "N/A" on an error, exception, missing account or missing address |
| UserRoutes.WithEmails | backend/routes/userRoutes.js:120-148 | each staff row keeps its fields and position and gains its e-mail |
| UserRoutes.StaffList | backend/routes/userRoutes.js:89-154 | a read error answers 400; otherwise 200 with exactly the staff rows in order, each keeping id, role, name and phone and gaining its e-mail (never empty), [] when there are none |
| UserRoutes.StaffCount | backend/routes/userRoutes.js:178-191 | a read error answers 400; otherwise the number of staff rows |
| UserRoutes.CountMatchesList | backend/routes/userRoutes.js:178-191 | the count equals the length of the list |
| UserRoutes.AddedStaffListed | backend/routes/userRoutes.js:53-154 | a staff member just added appears in the list with their address |
| UserRoutes.UpdateProfile | backend/routes/userRoutes.js:162-166 | only the name and phone of the rows with that id change, each only when the body gives it; a body with neither changes nothing |
| UserRoutes.UpdateKeepsRoles | backend/routes/userRoutes.js:162-166 | an update never changes which ids are staff |
| UserRoutes.UserById | backend/routes/userRoutes.js:166-167 | a row is returned iff exactly one row has the id, and then it is that row |
| UserRoutes.UsersWithId | backend/routes/userRoutes.js:165 | exactly the rows with that id |
| UserRoutes.UniqueRowFound | backend/routes/userRoutes.js:165-171 | when one row alone has the id, the update's reply carries that row |
| UserRoutes.UpdateStaff | backend/routes/userRoutes.js:157-175 | an error answers 400 and writes nothing; success writes only name and phone |
| UserRoutes.WithoutAccount | backend/routes/userRoutes.js:203-207 | exactly the accounts with other ids remain |
| UserRoutes.WithoutUser | backend/routes/userRoutes.js:211-219 | exactly the profile rows with other ids remain |
| UserRoutes.DeleteStaff | backend/routes/userRoutes.js:194-229 | the auth account is deleted first; if that fails nothing changes; a failed row delete leaves the account deleted |
| UserRoutes.DeletedStaffUnlisted | backend/routes/userRoutes.js:194-229 | after the delete, the staff list has no entry with that id |
| LoginForm.RouteForRole | admin/components/login-form.tsx:47-55 | admin goes to /admin, staff to /staff/add-patient, every other role to /login, each iff |
| LoginForm.DoctorsReturnToLogin | admin/components/login-form.tsx:51-54 | a doctor is sent back to /login |
| LoginForm.LoginPageState.constructor | admin/components/login-form.tsx:21 | the page starts not loading |
| LoginForm.LoginPageState.HandleSubmit | admin/components/login-form.tsx:23-64 | a failed login stores nothing and stays; a successful one stores token, user and role, then routes by role; isLoading ends false |
| AdminTables.SaveError | admin/components/staff-table.tsx:60-61 | a rejected save shows the error's message, or the fallback for a non-Error |
| AdminTables.PersonEditError | admin/components/staff-table.tsx:44-52 | no error iff neither name nor phone is blank after trimming; the name is checked first |
| AdminTables.ClinicEditError | admin/components/clinic-table.tsx:42-45 | no error iff neither name nor email is blank; otherwise "Name and email are required" |
| AdminTables.SubmitPerson | admin/components/staff-table.tsx:40-65 | onSave is called iff both fields are non-blank, with the id and trimmed values; the dialog closes iff the save succeeds; otherwise it shows the validation or save error |
| AdminTables.SubmitClinic | admin/components/clinic-table.tsx:39-58 | onSave is called iff name and email are non-blank, with trimmed values; closes iff the save succeeds; a failed save shows its message or "Failed to update clinic" |
| AdminTables.EditPersonDialog.constructor | admin/components/staff-table.tsx:25-29 | the dialog starts with the record's name and phone, no error, not loading |
| AdminTables.EditPersonDialog.Open | admin/components/staff-table.tsx:32-38 | opening restores the record's name and phone and clears the error |
| AdminTables.EditPersonDialog.HandleSubmit | admin/components/doctor-table.tsx:43-68 | the dialog shows the submit's error, closes only after a successful save, and is not loading once a save has finished |
| AdminTables.EditClinicDialog.constructor | admin/components/clinic-table.tsx:25-29 | the dialog starts with the clinic's name and email, no error, not loading |
| AdminTables.EditClinicDialog.Open | admin/components/clinic-table.tsx:31-37 | opening restores the clinic's name and email and clears the error |
| AdminTables.EditClinicDialog.HandleSubmit | admin/components/clinic-table.tsx:39-58 | the dialog shows the submit's error, closes only after a successful save, and is not loading once a save has finished |
| AdminTables.SavedValuesAreTrimmed | admin/components/staff-table.tsx:58 | what onSave receives is non-empty and neither starts nor ends with whitespace |
| AdminTables.ValidateToken | admin/components/staff-table.tsx:298-315 | a token is accepted iff one is stored and it contains exactly two dots (three parts) |
| AdminTables.ThreeSegmentsAccepted | admin/components/staff-table.tsx:308-312 | any header.payload.signature of dot-free parts is accepted |
| AdminTables.LoadList | admin/components/staff-table.tsx:154-204 | the list loads iff a token is stored and the reply is OK and carries the list; a missing token, a failed request (its message), an OK reply that is not JSON (the parse error's message), a non-OK reply (its error field or "HTTP status: text") and a missing list each give their error |
| AdminTables.ListPage.constructor | admin/components/staff-table.tsx:147-150 | the page starts empty, loading, without messages |
| AdminTables.ListPage.Fetch | admin/components/doctor-table.tsx:157-204 | a good response replaces the rows; any failure shows its error and keeps the old rows; loading ends |
| CalendarView.Insert | admin/components/calendar-view.tsx:137 | inserting adds exactly that appointment |
| CalendarView.InsertSorted | admin/components/calendar-view.tsx:137 | inserting into a date-sorted list keeps it sorted |
| CalendarView.SortByDate | admin/components/calendar-view.tsx:135-138 | the result is sorted by date and a permutation of the input |
| CalendarView.SortIsStable | admin/components/calendar-view.tsx:135-138 | sorting keeps appointments at the same time in their input order, as the stable `sort` does |
| CalendarView.PatientsForDay | admin/components/calendar-view.tsx:68-72 | exactly the appointments on that day, in input order |
| CalendarView.OneDayEach | admin/components/calendar-view.tsx:68-72 | an appointment shows on one day only |
| CalendarView.Upcoming | admin/components/calendar-view.tsx:135-138 | at most three appointments, each strictly in the future, sorted by date, and none repeated more often than among the future appointments |
| CalendarView.UpcomingAreTheEarliest | admin/components/calendar-view.tsx:135-138 | the list holds min(3, number of future appointments), and a future appointment left out is no earlier than any shown |
| CalendarView.Earliest | admin/components/calendar-view.tsx:43-45 | the earliest appointment is one of the patients and no later than any |
| CalendarView.EarliestIsFirstOfTies | admin/components/calendar-view.tsx:43-45 | of several earliest appointments, the one listed first is taken |
| CalendarView.Calendar.constructor | admin/components/calendar-view.tsx:39 | the calendar opens on the current month |
| CalendarView.Calendar.ShowEarliest | admin/components/calendar-view.tsx:41-51 | the month jumps to the earliest appointment's month iff that appointment is in the future; otherwise it stays |
| CalendarView.Calendar.PrevMonth | admin/components/calendar-view.tsx:53-55 | the month moves back by exactly one |
| CalendarView.Calendar.NextMonth | admin/components/calendar-view.tsx:57-59 | the month moves forward by exactly one |
| CalendarView.JumpsOnlyForFutureAppointments | admin/components/calendar-view.tsx:47 | the earliest appointment is not ahead iff some appointment is not ahead, so the calendar stays put iff some appointment is already past |
| Browser.LocalStorage.SetItem | admin/components/login-form.tsx:42-44 | setItem changes that key only |
| Browser.LocalStorage.RemoveItem | admin/components/add-patient-form.tsx:172-174 | removeItem removes that key only |

## Left out

- Supabase, `fetch`, `axios` and nodemailer are oracles. How the auth service, the database and the mail transport behave is outside the model.
- The WhatsApp greeting (`backend/utils/whatsapp.js`) is not part of this model. `PatientRoutes.Register` returns the contact it is sent to, and nothing depends on its outcome.
- Console logs, alerts and HTML escaping are not modelled. They are not observable decisions.
- Dates are integer timestamps. The day and month of a timestamp are function parameters (`dayOf`, `monthOf`) standing for date-fns in the browser's time zone. `Invalid Date` and `NaN` comparisons are not modelled.
- The calendar grid (the days of the shown month, same-month styling) is rendering only.
- `Promise.all` in the staff listing is modelled as a sequential, order-preserving map.
- react-hook-form and zod internals are plain validation predicates and plain sequence updates. zod's stripping of unknown keys is not modelled.
- The intermediate `isSubmitting` and `isLoading` values that are visible only while a request is in flight are not modelled. Only the values before and after a handler are.
- `GET /patients`, `GET /referrals/clinics` and `GET /referrals/referrals` only pass a table through, and are not modelled. The staff-registrant join of `GET /patients/:id` is not modelled.
- Entries of a body array that are not objects are not modelled. Each element is a record of its keys.
- `clinic_id` is matched against the clinic id by its string form.
- PatientSchema.AmountRule: `Number()` is modelled as a decimal-literal grammar (optional sign, digits, optional fraction). JavaScript also accepts surrounding whitespace, exponents, hex literals and `Infinity`, and compares floats.
- PatientSchema.RefractionRejectsNonNumeric: uses the same decimal-literal grammar, so the readings `Number()` would also accept (exponents, hex, whitespace) are rejected here.
- JsText.Trim: whitespace is space, tab, line feed, carriage return, vertical tab and form feed. Unicode spaces that `trim()` also removes are not.
- RoleGates.Gate: `getUser` receiving `undefined` is modelled as `None`. A throw that is not an `Error` is treated like one.
- AdminTables.SaveError: any non-`Error` rejection shows the fallback message, whatever its value.
- UserRoutes.UpdateStaff: the reply's `staff` is the updated row when exactly one row has the id. The error `.single()` reports for zero rows is left to the `update` oracle.
- ReferralRoutes.UpdateClinic: the `.single()` error for zero matching rows is left to the `update` oracle, which then answers 500. The 404 branch stands for a reply without data.
- PatientRoutes.ReadPatient: the text `.single()` reports for a missing patient depends on the PostgREST version. The model uses one fixed message.
- UserRoutes.Login: a throw leaves the request unanswered (no `try`/`catch`), modelled as `None`. Express's unhandled-rejection behaviour is not modelled.
- LoginForm.LoginPageState.HandleSubmit: `user` is stored as the reply's JSON text, taken as given.
- PatientRoutes.ReadPatient: a read that throws (the handler's catch answers 500) is not modelled. The database client returns query and network failures as `{ error }`, which are modelled; only the `exams.map` of a null result could throw, and the exams read yields null only together with an error.
- UserRoutes.StaffList: a throw from the `users` read (the catch answers 500) is not modelled, for the same reason; a throwing e-mail lookup is modelled and shows "N/A".
- UserRoutes.UpdateProfile: a missing `name` or `phone` keeps the column, as the serialised update drops undefined keys. A `null` would clear the column, but `Value` does not tell `null` from a missing key.
- PatientSchema.PatientDetailsRule: lengths count Unicode characters; zod counts UTF-16 code units, so a one-character name outside the Basic Multilingual Plane passes zod's `min(2)` but not the model's.
- ReferralEmail.Compose: the HTML is a concatenation of the template's elements, without the indentation and line breaks of its template literals; what the body contains is stated element by element.
- Numbers in bodies and rows are integers. Fractional amounts entered as numbers are not modelled (typed amounts are strings).

## Findings

| source | as written | input that shows it | evidently intended | confidence | as-written member | corrected member |
|---|---|---|---|---|---|---|
| backend/routes/referralRoutes.js:114-144 | `remark` is destructured out of the body before `sendReferralEmail` receives the rest, so the template's Remarks section can never render | a referral with remark "urgent, please see this week" | the remark entered on the referral form reaches the clinic | not executed | ReferralRoutes.RemarkNeverEmailed | ReferralRoutes.ReferralMail |
| backend/utils/email.js:79 | the payment line reads `p.description`, while the registration form's payments carry their text in `item` | a payment `{item: "Eye drops", amount: "20"}` shows "Description: N/A" | the payment's item text is shown | not executed | ReferralEmail.DescriptionAlwaysMissing | ReferralEmail.PaymentLine |
