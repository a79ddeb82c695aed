/** The login page's submit handler: post the credentials, keep the session in
    `localStorage`, and send the user to the page of their role. */
module LoginForm {
  import opened Wrappers
  import opened Browser

  /** The fields of a successful login reply the page reads; `userJson` is
      `JSON.stringify(data.user)`. */
  datatype LoginData = LoginData(token: string, userJson: string, role: string)

  const AdminHome := "/admin"
  const StaffHome := "/staff/add-patient"
  const LoginPage := "/login"

  /** Where a role lands after logging in: admins on the dashboard, staff on
      patient registration, every other role (doctors included) back on the
      login page. */
  function RouteForRole(role: string): (route: string)
    ensures route == AdminHome <==> role == "admin"
    ensures route == StaffHome <==> role == "staff"
    ensures route == LoginPage <==> role != "admin" && role != "staff"
  {
    if role == "admin" then AdminHome
    else if role == "staff" then StaffHome
    else LoginPage
  }

  lemma DoctorsReturnToLogin()
    ensures RouteForRole("doctor") == LoginPage
  {
  }

  class LoginPageState {
    var isLoading: bool

    constructor()
      ensures !isLoading
    {
      isLoading := false;
    }

    /** `handleSubmit`.  `response` is the outcome of the login request: Done
        with the reply's data when the response is OK, anything else when it is
        not OK or the request fails.  Nothing is stored and the page stays
        unless the login succeeded. */
    method HandleSubmit(storage: LocalStorage, response: Call<LoginData>) returns (nav: Navigation)
      modifies this, storage
      ensures !isLoading
      ensures !response.Done? ==> nav == Stay && storage.items == old(storage.items)
      ensures response.Done? ==>
        storage.items == old(storage.items)["token" := response.value.token]
                                          ["user" := response.value.userJson]
                                          ["role" := response.value.role]
        && nav == Push(RouteForRole(response.value.role))
    {
      isLoading := true;
      if !response.Done? {
        nav := Stay;
      } else {
        var data := response.value;
        storage.SetItem("token", data.token);
        storage.SetItem("user", data.userJson);
        storage.SetItem("role", data.role);
        nav := Push(RouteForRole(data.role));
      }
      isLoading := false;
    }
  }
}
