/** The admin tables' client-side logic: the edit dialogs for staff, doctors
    and clinics (trim, check for blanks, save, close), the session-token shape
    check, and how the staff and doctor lists read a fetch response. */
module AdminTables {
  import opened Wrappers
  import opened JsText
  import opened Browser

  // ----- Edit dialogs

  /** How `onSave` settles: it resolves, it rejects with an `Error` (whose
      message is shown), or it rejects with something else. */
  datatype SaveResult = Saved | RejectedWith(message: string) | RejectedOther

  const NameRequired := "Name is required"
  const PhoneRequired := "Phone is required"
  const NameAndEmailRequired := "Name and email are required"
  const StaffSaveFailed := "Failed to update staff"
  const DoctorSaveFailed := "Failed to update doctor"
  const ClinicSaveFailed := "Failed to update clinic"

  /** The message a failed save leaves in the dialog. */
  function SaveError(result: SaveResult, fallback: string): (message: string)
    requires !result.Saved?
    ensures result.RejectedWith? ==> message == result.message
    ensures result.RejectedOther? ==> message == fallback
  {
    if result.RejectedWith? then result.message else fallback
  }

  /** The staff and doctor dialogs' check: the name is checked before the
      phone, each blank after trimming. */
  function PersonEditError(name: string, phone: string): (e: Option<string>)
    ensures e == None <==> !AllSpace(name) && !AllSpace(phone)
    ensures AllSpace(name) ==> e == Some(NameRequired)
    ensures !AllSpace(name) && AllSpace(phone) ==> e == Some(PhoneRequired)
  {
    if Trim(name) == "" then Some(NameRequired)
    else if Trim(phone) == "" then Some(PhoneRequired)
    else None
  }

  /** The clinic dialog's check: one message for either blank. */
  function ClinicEditError(name: string, email: string): (e: Option<string>)
    ensures e == None <==> !AllSpace(name) && !AllSpace(email)
    ensures e != None ==> e == Some(NameAndEmailRequired)
  {
    if Trim(name) == "" || Trim(email) == "" then Some(NameAndEmailRequired) else None
  }

  /** What one press of Save does: the values handed to `onSave` (None when the
      check fails), the message the dialog then shows, and whether it closes. */
  datatype Submitted = Submitted(sent: Option<(string, string, string)>, error: Option<string>, closes: bool)

  /** `handleSubmit` of the staff and doctor dialogs, for a record `id`, the
      typed `name` and `phone`, and how `onSave` settles. */
  function SubmitPerson(id: string, name: string, phone: string, save: SaveResult, fallback: string): (s: Submitted)
    ensures s.sent.None? <==> AllSpace(name) || AllSpace(phone)
    ensures s.sent.Some? ==> s.sent.value == (id, Trim(name), Trim(phone))
    ensures s.closes <==> s.sent.Some? && save.Saved?
    ensures s.sent.None? ==> s.error == PersonEditError(name, phone)
    ensures s.sent.Some? && !save.Saved? ==> s.error == Some(SaveError(save, fallback))
    ensures s.closes ==> s.error == None
  {
    var invalid := PersonEditError(name, phone);
    if invalid.Some? then Submitted(None, invalid, false)
    else if save.Saved? then Submitted(Some((id, Trim(name), Trim(phone))), None, true)
    else Submitted(Some((id, Trim(name), Trim(phone))), Some(SaveError(save, fallback)), false)
  }

  /** `handleSubmit` of the clinic dialog. */
  function SubmitClinic(id: string, name: string, email: string, save: SaveResult): (s: Submitted)
    ensures s.sent.None? <==> AllSpace(name) || AllSpace(email)
    ensures s.sent.Some? ==> s.sent.value == (id, Trim(name), Trim(email))
    ensures s.closes <==> s.sent.Some? && save.Saved?
    ensures s.sent.None? ==> s.error == Some(NameAndEmailRequired)
    ensures s.sent.Some? && !save.Saved? ==> s.error == Some(SaveError(save, ClinicSaveFailed))
    ensures s.closes ==> s.error == None
  {
    if ClinicEditError(name, email).Some? then Submitted(None, Some(NameAndEmailRequired), false)
    else if save.Saved? then Submitted(Some((id, Trim(name), Trim(email))), None, true)
    else Submitted(Some((id, Trim(name), Trim(email))), Some(SaveError(save, ClinicSaveFailed)), false)
  }

  /** A staff member's or a doctor's row as the table shows it. */
  datatype Person = Person(id: string, name: string, phone: string)

  /** `EditStaffModal` and `EditDoctorModal`, which differ only in the message a
      failed save falls back to. */
  class EditPersonDialog {
    const person: Person
    const fallback: string
    var name: string
    var phone: string
    var isLoading: bool
    var error: Option<string>
    var isOpen: bool

    constructor(person: Person, fallback: string)
      ensures this.person == person && this.fallback == fallback
      ensures name == person.name && phone == person.phone
      ensures !isLoading && error == None && !isOpen
    {
      this.person := person;
      this.fallback := fallback;
      name := person.name;
      phone := person.phone;
      isLoading := false;
      error := None;
      isOpen := false;
    }

    /** Opening the dialog puts the record's values back and clears the error. */
    method Open()
      modifies this
      ensures isOpen && name == person.name && phone == person.phone && error == None
      ensures isLoading == old(isLoading)
    {
      isOpen := true;
      name := person.name;
      phone := person.phone;
      error := None;
    }

    /** `handleSubmit`: `outcome.sent` is what `onSave` receives; the dialog
        shows `outcome.error` and closes only when the save succeeds. */
    method HandleSubmit(save: SaveResult) returns (outcome: Submitted)
      modifies this`isLoading, this`error, this`isOpen
      ensures outcome == SubmitPerson(person.id, name, phone, save, fallback)
      ensures error == outcome.error
      ensures isOpen == (old(isOpen) && !outcome.closes)
      ensures isLoading == (old(isLoading) && outcome.sent.None?)
    {
      outcome := SubmitPerson(person.id, name, phone, save, fallback);
      Settle(outcome);
    }

    /** The dialog's state after `outcome`. */
    method Settle(outcome: Submitted)
      modifies this`isLoading, this`error, this`isOpen
      ensures error == outcome.error
      ensures isOpen == (old(isOpen) && !outcome.closes)
      ensures isLoading == (old(isLoading) && outcome.sent.None?)
    {
      error := outcome.error;
      if outcome.sent.Some? {
        // `isLoading` is raised while `onSave` runs and lowered in `finally`.
        isLoading := false;
      }
      if outcome.closes {
        isOpen := false;
      }
    }
  }

  datatype Clinic = Clinic(id: string, name: string, email: string)

  /** `EditClinicModal`. */
  class EditClinicDialog {
    const clinic: Clinic
    var name: string
    var email: string
    var isLoading: bool
    var error: Option<string>
    var isOpen: bool

    constructor(clinic: Clinic)
      ensures this.clinic == clinic && name == clinic.name && email == clinic.email
      ensures !isLoading && error == None && !isOpen
    {
      this.clinic := clinic;
      name := clinic.name;
      email := clinic.email;
      isLoading := false;
      error := None;
      isOpen := false;
    }

    method Open()
      modifies this
      ensures isOpen && name == clinic.name && email == clinic.email && error == None
      ensures isLoading == old(isLoading)
    {
      isOpen := true;
      name := clinic.name;
      email := clinic.email;
      error := None;
    }

    method HandleSubmit(save: SaveResult) returns (outcome: Submitted)
      modifies this`isLoading, this`error, this`isOpen
      ensures outcome == SubmitClinic(clinic.id, name, email, save)
      ensures error == outcome.error
      ensures isOpen == (old(isOpen) && !outcome.closes)
      ensures isLoading == (old(isLoading) && outcome.sent.None?)
    {
      outcome := SubmitClinic(clinic.id, name, email, save);
      Settle(outcome);
    }

    /** The dialog's state after `outcome`. */
    method Settle(outcome: Submitted)
      modifies this`isLoading, this`error, this`isOpen
      ensures error == outcome.error
      ensures isOpen == (old(isOpen) && !outcome.closes)
      ensures isLoading == (old(isLoading) && outcome.sent.None?)
    {
      error := outcome.error;
      if outcome.sent.Some? {
        // `isLoading` is raised while `onSave` runs and lowered in `finally`.
        isLoading := false;
      }
      if outcome.closes {
        isOpen := false;
      }
    }
  }

  /** What a dialog sends is never blank and has no surrounding whitespace. */
  lemma SavedValuesAreTrimmed(name: string, phone: string)
    requires PersonEditError(name, phone).None?
    ensures Trim(name) != "" && !IsSpace(Trim(name)[0]) && !IsSpace(Trim(name)[|Trim(name)| - 1])
    ensures Trim(phone) != "" && !IsSpace(Trim(phone)[0]) && !IsSpace(Trim(phone)[|Trim(phone)| - 1])
  {
  }

  // ----- validateToken

  /** A stored token is accepted when it splits on '.' into exactly three parts. */
  function ValidateToken(token: Option<string>): (ok: bool)
    ensures ok <==> token.Some? && Count(token.value, '.') == 2
  {
    token.Some? && token.value != "" && |Split(token.value, '.')| == 3
  }

  /** Any `header.payload.signature` made of dot-free parts is accepted. */
  lemma ThreeSegmentsAccepted(header: string, payload: string, signature: string)
    requires '.' !in header && '.' !in payload && '.' !in signature
    ensures ValidateToken(Some(header + "." + payload + "." + signature))
  {
    SplitAtFirst(header, '.', payload + "." + signature);
    SplitAtFirst(payload, '.', signature);
    SplitNoSeparator(signature, '.');
    assert header + "." + payload + "." + signature == header + ['.'] + (payload + ['.'] + signature);
  }

  // ----- Loading the staff and doctor lists

  /** The response to the list request: the request failed outright; an OK
      reply whose body is not JSON, with the parse error's message; or a
      reply with its status, its status text, the `error` field of a JSON
      error body (None when the body is not JSON or has none), and the list
      under the expected key (None when missing or null). */
  datatype ListResponse<T> =
    | NetworkError(message: string)
    | OkNotJson(parseError: string)
    | Reply(status: int, statusText: string, errorField: Option<string>, list: Option<seq<T>>)

  datatype Loaded<T> = Items(items: seq<T>) | LoadError(message: string)

  const TokenMissing := "Authentication token not found. Please log in again."
  const StaffShapeError := "Invalid response format: staff data not found"
  const DoctorShapeError := "Invalid response format: doctor data not found"

  predicate Ok(status: int) { 200 <= status <= 299 }

  /** `HTTP ${status}: ${statusText}` */
  function HttpStatusMessage(status: int, statusText: string): string
  {
    "HTTP " + IntToString(status) + ": " + statusText
  }

  /** `fetchStaff` / `fetchDoctors`: no token, a failed request, a non-OK reply
      and a reply without the list each give an error; only an OK reply with
      the list gives the list. */
  function LoadList<T>(token: Option<string>, response: ListResponse<T>, shapeError: string): (r: Loaded<T>)
    ensures r.Items? <==> Present(token) && response.Reply? && Ok(response.status) && response.list.Some?
    ensures r.Items? ==> r.items == response.list.value
    ensures !Present(token) ==> r == LoadError(TokenMissing)
    ensures Present(token) && response.NetworkError? ==> r == LoadError(response.message)
    ensures Present(token) && response.OkNotJson? ==> r == LoadError(response.parseError)
    ensures Present(token) && response.Reply? && Ok(response.status) && response.list.None? ==>
      r == LoadError(shapeError)
    ensures Present(token) && response.Reply? && !Ok(response.status) ==>
      r == LoadError(if response.errorField.Some? && response.errorField.value != "" then response.errorField.value
                     else HttpStatusMessage(response.status, response.statusText))
  {
    if !Present(token) then LoadError(TokenMissing)
    else
      match response
      case NetworkError(message) => LoadError(message)
      case OkNotJson(parseError) => LoadError(parseError)
      case Reply(status, statusText, errorField, list) =>
        if !Ok(status) then
          LoadError(if errorField.Some? && errorField.value != "" then errorField.value
                    else HttpStatusMessage(status, statusText))
        else if list.None? then LoadError(shapeError)
        else Items(list.value)
  }

  /** The list pages' state. */
  class ListPage<T> {
    var rows: seq<T>
    var isLoading: bool
    var error: Option<string>
    var success: Option<string>

    constructor()
      ensures rows == [] && isLoading && error == None && success == None
    {
      rows := [];
      isLoading := true;
      error := None;
      success := None;
    }

    /** One load: the rows are replaced only by a good response; otherwise
        the error is shown and the old rows stay. */
    method Fetch(storage: LocalStorage, response: ListResponse<T>, shapeError: string)
      modifies this
      ensures !isLoading && success == None
      ensures var r := LoadList(storage.Get("token"), response, shapeError);
        (r.Items? ==> rows == r.items && error == None)
        && (r.LoadError? ==> rows == old(rows) && error == Some(r.message))
    {
      isLoading := true;
      error := None;
      success := None;
      var r := LoadList(storage.Get("token"), response, shapeError);
      if r.Items? {
        rows := r.items;
      } else {
        error := Some(r.message);
      }
      isLoading := false;
    }
  }
}
