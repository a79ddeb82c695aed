/** `sendReferralEmail`: the HTML e-mail a referral clinic receives, built from
    the referral's patient data, and the one error its sender reports.  The
    HTML is modelled as its sequence of elements; the indentation and line
    breaks of the template literals are not reproduced. */
module ReferralEmail {
  import opened Wrappers
  import opened JsText
  import opened Sequences

  datatype FindingItem = FindingItem(finding: Value)

  datatype DiagnosisItem = DiagnosisItem(diagnosis: Value, category: Value, plan: Value)

  /** A payment as the referral request carries it: the registration form names
      the text `item`, the template reads `description`. */
  datatype PaymentItem = PaymentItem(description: Value, item: Value, amount: Value)

  /** The patient data the template reads, apart from `remark`.  A list key that
      is missing is None. */
  datatype ReferralDetails = ReferralDetails(
    name: Value, contact: Value, gender: Value, venue: Value,
    appointmentDate: Value, appointmentFor: Value,
    visualAcuityLeft: Value, visualAcuityRight: Value,
    pinholeLeft: Value, pinholeRight: Value,
    leftSphere: Value, leftCylinder: Value, leftAxis: Value,
    rightSphere: Value, rightCylinder: Value, rightAxis: Value,
    chiefComplaint: Value,
    findings: Option<seq<FindingItem>>,
    diagnoses: Option<seq<DiagnosisItem>>,
    payments: Option<seq<PaymentItem>>)

  datatype Mail = Mail(to: Value, subject: string, html: string)

  const Header := "<h2>New Patient Referral</h2><p>Please find the details for a new patient referral below.</p>"
  const Footer := "<p>This patient was referred by Star Vision.</p>"
  const SendFailure := "Failed to send referral email."

  function List<T>(xs: Option<seq<T>>): seq<T>
  {
    if xs.Some? then xs.value else []
  }

  /** `<li><b>caption:</b> ${v || 'N/A'}</li>` */
  function Line(caption: string, v: Value): string
  {
    "<li><b>" + caption + ":</b> " + OrNA(v) + "</li>"
  }

  function PatientLines(d: ReferralDetails): seq<string>
  {
    [Line("Name", d.name), Line("Contact", d.contact), Line("Gender", d.gender),
     Line("Venue", d.venue), Line("Appointment Date", d.appointmentDate),
     Line("Reason for Appointment", d.appointmentFor), Line("Chief Complaint", d.chiefComplaint)]
  }

  function ExamLines(d: ReferralDetails): seq<string>
  {
    [Line("Visual Acuity (Left)", d.visualAcuityLeft), Line("Visual Acuity (Right)", d.visualAcuityRight),
     Line("Pinhole (Left)", d.pinholeLeft), Line("Pinhole (Right)", d.pinholeRight),
     Line("Left Refraction (Sphere)", d.leftSphere), Line("Left Refraction (Cylinder)", d.leftCylinder),
     Line("Left Refraction (Axis)", d.leftAxis), Line("Right Refraction (Sphere)", d.rightSphere),
     Line("Right Refraction (Cylinder)", d.rightCylinder), Line("Right Refraction (Axis)", d.rightAxis)]
  }

  function FindingLine(f: FindingItem): string
  {
    "<li>" + OrNA(f.finding) + "</li>"
  }

  function DiagnosisLine(d: DiagnosisItem): string
  {
    "<li><b>Diagnosis:</b> " + OrNA(d.diagnosis) + " <br><b>Category:</b> " + OrNA(d.category)
    + " <br><b>Treatment Plan:</b> " + OrNA(d.plan) + "</li>"
  }

  /** The payment line as written: it shows `description`. */
  function PaymentLineAsWritten(p: PaymentItem): string
  {
    "<li><b>Description:</b> " + OrNA(p.description) + " <br><b>Amount:</b> " + OrNA(p.amount) + "</li>"
  }

  /** The payment line shows the payment's text, which the registration form
      sends as `item`; `description` is the fallback. */
  function PaymentLine(p: PaymentItem): string
  {
    var text := if Truthy(p.item) then p.item else p.description;
    "<li><b>Description:</b> " + OrNA(text) + " <br><b>Amount:</b> " + OrNA(p.amount) + "</li>"
  }

  /** `xs.map(render)` */
  function Render<T>(xs: seq<T>, render: T -> string): (lines: seq<string>)
    ensures |lines| == |xs| && forall i :: 0 <= i < |xs| ==> lines[i] == render(xs[i])
  {
    seq(|xs|, i requires 0 <= i < |xs| => render(xs[i]))
  }

  /** A titled list. */
  function Block(title: string, lines: seq<string>): string
  {
    "<h3>" + title + "</h3><ul>" + Concat(lines) + "</ul>"
  }

  /** A titled list, or nothing when the list is empty or missing. */
  function Section<T>(title: string, xs: seq<T>, render: T -> string): (s: string)
    ensures s == "" <==> xs == []
  {
    if xs == [] then "" else Block(title, Render(xs, render))
  }

  /** `<p>${remark}</p>` */
  function RemarkBlock(remark: Value): string
  {
    "<p>" + Show(remark) + "</p>"
  }

  function RemarksSection(remark: Value): (s: string)
    ensures s == "" <==> !Truthy(remark)
  {
    if Truthy(remark) then "<h3>Remarks</h3>" + RemarkBlock(remark) else ""
  }

  /** The template's layout: the header, the six sections, the footer. */
  function Layout(patient: string, exam: string, findings: string, diagnoses: string,
                  payments: string, remarks: string): (parts: seq<string>)
    ensures |parts| == 8 && parts[0] == Header && parts[7] == Footer
    ensures parts[1] == patient && parts[2] == exam
    ensures parts[3] == findings && parts[4] == diagnoses && parts[5] == payments && parts[6] == remarks
  {
    [Header, patient, exam, findings, diagnoses, payments, remarks, Footer]
  }

  /** The parts of the body in the order the template lays them out; the
      payment line is a parameter so that the written template and its
      correction share the rest. */
  function Parts(d: ReferralDetails, remark: Value, paymentLine: PaymentItem -> string): (parts: seq<string>)
    ensures |parts| == 8 && parts[0] == Header && parts[7] == Footer
    ensures parts[3] == "" <==> List(d.findings) == []
    ensures parts[4] == "" <==> List(d.diagnoses) == []
    ensures parts[5] == "" <==> List(d.payments) == []
    ensures parts[6] == "" <==> !Truthy(remark)
  {
    Layout(Block("Patient Details", PatientLines(d)),
           Block("Examination Details", ExamLines(d)),
           Section("Findings", List(d.findings), FindingLine),
           Section("Diagnoses & Treatment Plans", List(d.diagnoses), DiagnosisLine),
           Section("Payments", List(d.payments), paymentLine),
           RemarksSection(remark))
  }

  /** The `mailOptions` of the referral e-mail: the subject names the patient
      and the body shows every patient and examination field (its value or
      "N/A"), every finding, diagnosis and payment, and the remark when there
      is one. */
  function Compose(to: Value, d: ReferralDetails, remark: Value, paymentLine: PaymentItem -> string): (m: Mail)
    ensures m.to == to
    ensures m.subject == "Patient Referral: " + OrNA(d.name)
    ensures Infix(Header, m.html) && Infix(Footer, m.html)
    ensures forall l :: l in PatientLines(d) ==> Infix(l, m.html)
    ensures forall l :: l in ExamLines(d) ==> Infix(l, m.html)
    ensures forall i :: 0 <= i < |List(d.findings)| ==> Infix(FindingLine(List(d.findings)[i]), m.html)
    ensures forall i :: 0 <= i < |List(d.diagnoses)| ==> Infix(DiagnosisLine(List(d.diagnoses)[i]), m.html)
    ensures forall i :: 0 <= i < |List(d.payments)| ==> Infix(paymentLine(List(d.payments)[i]), m.html)
    ensures Truthy(remark) ==> Infix(RemarkBlock(remark), m.html)
  {
    HtmlShows(d, remark, paymentLine);
    Mail(to, "Patient Referral: " + OrNA(d.name), Concat(Parts(d, remark, paymentLine)))
  }

  /** The body holds the header, the footer, every line of every section and
      the remark when there is one. */
  lemma HtmlShows(d: ReferralDetails, remark: Value, paymentLine: PaymentItem -> string)
    ensures var html := Concat(Parts(d, remark, paymentLine));
      && Infix(Header, html) && Infix(Footer, html)
      && (forall l :: l in PatientLines(d) ==> Infix(l, html))
      && (forall l :: l in ExamLines(d) ==> Infix(l, html))
      && (forall i :: 0 <= i < |List(d.findings)| ==> Infix(FindingLine(List(d.findings)[i]), html))
      && (forall i :: 0 <= i < |List(d.diagnoses)| ==> Infix(DiagnosisLine(List(d.diagnoses)[i]), html))
      && (forall i :: 0 <= i < |List(d.payments)| ==> Infix(paymentLine(List(d.payments)[i]), html))
      && (Truthy(remark) ==> Infix(RemarkBlock(remark), html))
  {
    var parts := Parts(d, remark, paymentLine);
    var html := Concat(parts);
    ConcatHasParts(parts);
    BlockShown("Patient Details", PatientLines(d), html);
    BlockShown("Examination Details", ExamLines(d), html);
    SectionShown("Findings", List(d.findings), FindingLine, html);
    SectionShown("Diagnoses & Treatment Plans", List(d.diagnoses), DiagnosisLine, html);
    SectionShown("Payments", List(d.payments), paymentLine, html);
    if Truthy(remark) {
      RemarkShown(remark, parts[6], html);
    }
  }

  lemma RemarkShown(remark: Value, section: string, html: string)
    requires Truthy(remark) && section == RemarksSection(remark) && Infix(section, html)
    ensures Infix(RemarkBlock(remark), html)
  {
    var block := "<p>" + Show(remark) + "</p>";
    assert section == "<h3>Remarks</h3>" + block;
    InfixOfItself(block);
    InfixAppend(block, "<h3>Remarks</h3>", block);
    InfixTransitive(block, section, html);
  }

  /** Every line of a titled list found in the body is in the body. */
  lemma BlockShown(title: string, lines: seq<string>, html: string)
    requires Infix(Block(title, lines), html)
    ensures forall l :: l in lines ==> Infix(l, html)
  {
    var body := Concat(lines);
    ConcatHasParts(lines);
    InfixMiddle("<h3>" + title + "</h3><ul>", body, "</ul>", html);
    forall l | l in lines
      ensures Infix(l, html)
    {
      var i :| 0 <= i < |lines| && lines[i] == l;
      InfixTransitive(lines[i], body, html);
    }
  }

  /** Every item of a section found in the body has its line in the body. */
  lemma SectionShown<T>(title: string, xs: seq<T>, render: T -> string, html: string)
    requires Infix(Section(title, xs, render), html)
    ensures forall i :: 0 <= i < |xs| ==> Infix(render(xs[i]), html)
  {
    if xs != [] {
      var lines := Render(xs, render);
      BlockShown(title, lines, html);
      forall i | 0 <= i < |xs|
        ensures Infix(render(xs[i]), html)
      {
        assert lines[i] in lines;
      }
    }
  }

  /** `sendReferralEmail(to, data)`: the mail composed by the written template
      is handed to the transport (an oracle); a transport failure becomes the
      one error the caller sees. */
  function SendReferralEmail(to: Value, d: ReferralDetails, remark: Value, transport: Call<()>): (r: Call<Mail>)
    ensures r.Done? <==> transport.Done?
    ensures r.Done? ==> r.value == Compose(to, d, remark, PaymentLineAsWritten)
    ensures !r.Done? ==> r == Threw(SendFailure)
  {
    if transport.Done? then Done(Compose(to, d, remark, PaymentLineAsWritten)) else Threw(SendFailure)
  }

  /** Every patient field is in the body, as its value or as "N/A". */
  lemma PatientFieldsShown(to: Value, d: ReferralDetails, remark: Value, paymentLine: PaymentItem -> string)
    ensures var html := Compose(to, d, remark, paymentLine).html;
      && Infix(Line("Name", d.name), html)
      && Infix(Line("Contact", d.contact), html)
      && Infix(Line("Gender", d.gender), html)
      && Infix(Line("Venue", d.venue), html)
      && Infix(Line("Appointment Date", d.appointmentDate), html)
      && Infix(Line("Reason for Appointment", d.appointmentFor), html)
      && Infix(Line("Chief Complaint", d.chiefComplaint), html)
  {
    var lines := PatientLines(d);
    assert lines[0] in lines && lines[1] in lines && lines[2] in lines && lines[3] in lines;
    assert lines[4] in lines && lines[5] in lines && lines[6] in lines;
  }

  /** A field that is missing, empty or zero reads "N/A"; any other reads as
      its value. */
  lemma LineShowsValueOrNA(caption: string, v: Value)
    ensures !Truthy(v) ==> Line(caption, v) == "<li><b>" + caption + ":</b> N/A</li>"
    ensures Truthy(v) ==> Line(caption, v) == "<li><b>" + caption + ":</b> " + Show(v) + "</li>"
    ensures Line(caption, Num(0)) == "<li><b>" + caption + ":</b> N/A</li>"
  {
    OrNAFallback(v);
    OrNAFallback(Num(0));
  }

  /** A payment of amount 0 shows its amount as "N/A". */
  lemma ZeroAmountShowsNA(p: PaymentItem)
    requires p.amount == Num(0)
    ensures PaymentLineAsWritten(p) == "<li><b>Description:</b> " + OrNA(p.description) + " <br><b>Amount:</b> N/A</li>"
    ensures PaymentLine(p) == "<li><b>Description:</b> " + OrNA(if Truthy(p.item) then p.item else p.description)
                              + " <br><b>Amount:</b> N/A</li>"
  {
    OrNAFallback(p.amount);
  }

  /** The payment line as written shows "N/A" for every payment that, like the
      registration form's, carries its text in `item` and no `description`. */
  lemma {:induction false} DescriptionAlwaysMissing(p: PaymentItem)
    requires p.description == Undefined && Truthy(p.item)
    ensures PaymentLineAsWritten(p) == "<li><b>Description:</b> N/A <br><b>Amount:</b> " + OrNA(p.amount) + "</li>"
    ensures PaymentLine(p) == "<li><b>Description:</b> " + Show(p.item) + " <br><b>Amount:</b> " + OrNA(p.amount) + "</li>"
  {
  }

  /** The corrected payment line agrees with the written one whenever the
      payment has no `item`. */
  lemma PaymentLineKeepsDescription(p: PaymentItem)
    requires !Truthy(p.item)
    ensures PaymentLine(p) == PaymentLineAsWritten(p)
  {
  }
}
