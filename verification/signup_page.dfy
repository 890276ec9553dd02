/** Signup.jsx: the client-side checks, the registration payload, and
    what a reply does to the session. */
module SignupPage {
  import opened Common
  import opened ClientText
  import opened AppShell
  import AuthController

  /** The form's fields; phone, age and gender are collected but never sent. */
  datatype SignupFields = SignupFields(
    name: string,
    email: string,
    phone: string,
    age: string,
    gender: string,
    role: string,
    adminCode: string,
    labCode: string,
    password: string,
    confirmPassword: string)

  const InitialFields := SignupFields("", "", "", "22", "Male", "collector", "", "", "", "")

  const MissingFieldsMessage := "Please fill in name, email and password"
  const PasswordMismatchMessage := "Passwords do not match"
  const AdminCodeMessage := "Admin Access Code is required for admin signup"
  const LabCodeMessage := "Lab Access Code is required for lab signup"
  const SignupFailedMessage := "Signup failed"

  /** The checks of `handleSubmit`, first failure wins. */
  function SignupError(f: SignupFields): (e: Option<string>)
    ensures f.name == "" || f.email == "" || f.password == "" ==> e == Some(MissingFieldsMessage)
    ensures e.None? <==>
              && f.name != "" && f.email != "" && f.password != ""
              && f.password == f.confirmPassword
              && (f.role == "admin" ==> f.adminCode != "")
              && (f.role == "lab" ==> f.labCode != "")
    ensures e == Some(PasswordMismatchMessage) <==>
              f.name != "" && f.email != "" && f.password != "" && f.password != f.confirmPassword
    ensures e == Some(AdminCodeMessage) <==>
              f.name != "" && f.email != "" && f.password != "" && f.password == f.confirmPassword
              && f.role == "admin" && f.adminCode == ""
    ensures e == Some(LabCodeMessage) <==>
              f.name != "" && f.email != "" && f.password != "" && f.password == f.confirmPassword
              && f.role == "lab" && f.labCode == ""
  {
    if f.name == "" || f.email == "" || f.password == "" then Some(MissingFieldsMessage)
    else if f.password != f.confirmPassword then Some(PasswordMismatchMessage)
    else if f.role == "admin" && f.adminCode == "" then Some(AdminCodeMessage)
    else if f.role == "lab" && f.labCode == "" then Some(LabCodeMessage)
    else None
  }

  /** `{ name, email, password, role }`, plus the code of the chosen role
      only: the admin code goes only with an admin signup, the lab code only
      with a lab signup. */
  function SignupPayload(f: SignupFields): (b: AuthController.RegisterBody)
    ensures b.email == Some(f.email) && b.password == Some(f.password) && b.name == Some(f.name)
    ensures b.role == Some(f.role)
    ensures b.adminSecret.Some? <==> f.role == "admin"
    ensures b.labSecret.Some? <==> f.role == "lab"
    ensures b.adminSecret.Some? ==> b.adminSecret.value == f.adminCode
    ensures b.labSecret.Some? ==> b.labSecret.value == f.labCode
  {
    AuthController.RegisterBody(
      Some(f.email), Some(f.password), Some(f.name), Some(f.role),
      if f.role == "admin" then Some(f.adminCode) else None,
      if f.role == "lab" then Some(f.labCode) else None)
  }

  /** What the page collects but does not send makes no difference. */
  lemma ExtrasNotSent(f: SignupFields, phone: string, age: string, gender: string)
    ensures SignupPayload(f.(phone := phone, age := age, gender := gender)) == SignupPayload(f)
  {
  }

  /** A payload that got past the client's checks always has the fields
      the server requires, so the server's 400 cannot follow, and a
      privileged role always carries its code. */
  lemma {:induction false} CheckedPayloadHasFields(f: SignupFields)
    requires SignupError(f).None?
    ensures AuthController.HasRegisterFields(SignupPayload(f))
    ensures f.role == "admin" ==> Truthy(SignupPayload(f).adminSecret)
    ensures f.role == "lab" ==> Truthy(SignupPayload(f).labSecret)
  {
  }

  class SignupForm {
    var fields: SignupFields
    var error: string
    var isLoading: bool

    constructor ()
      ensures fields == InitialFields && error == "" && !isLoading
    {
      fields, error, isLoading := InitialFields, "", false;
    }

    /** The first half of `handleSubmit`: a failed check shows its message
        and sends nothing; otherwise the payload is posted. */
    method Submit() returns (request: Option<AuthController.RegisterBody>)
      modifies this
      ensures fields == old(fields)
      ensures SignupError(fields).Some? ==>
                request.None? && error == SignupError(fields).value && !isLoading
      ensures SignupError(fields).None? ==>
                request == Some(SignupPayload(fields)) && error == "" && isLoading
    {
      error := "";
      isLoading := true;
      var f := fields;
      if f.name == "" || f.email == "" || f.password == "" {
        error := MissingFieldsMessage;
        isLoading := false;
        return None;
      }
      if f.password != f.confirmPassword {
        error := PasswordMismatchMessage;
        isLoading := false;
        return None;
      }
      if f.role == "admin" && f.adminCode == "" {
        error := AdminCodeMessage;
        isLoading := false;
        return None;
      }
      if f.role == "lab" && f.labCode == "" {
        error := LabCodeMessage;
        isLoading := false;
        return None;
      }
      var payload := AuthController.RegisterBody(Some(f.email), Some(f.password), Some(f.name), Some(f.role), None, None);
      if f.role == "admin" {
        payload := payload.(adminSecret := Some(f.adminCode));
      }
      if f.role == "lab" {
        payload := payload.(labSecret := Some(f.labCode));
      }
      request := Some(payload);
    }

    /** The second half: sign in and navigate on success, show the server's
        message or the default on failure. */
    method Complete(reply: Fetched<SessionJson>, session: Session)
      modifies this, session
      ensures !isLoading && fields == old(fields)
      ensures session.menuOpen == old(session.menuOpen)
      ensures reply.Success? ==>
                && session.token == reply.data.token && session.user == reply.data.user
                && session.path == LandingPath(RoleOf(reply.data.user))
                && error == old(error)
      ensures reply.Failure? ==>
                && error == FailureText(reply.message, SignupFailedMessage) && error != ""
                && session.token == old(session.token) && session.user == old(session.user)
                && session.path == old(session.path)
    {
      match reply {
        case Success(data) =>
          session.SignIn(data);
        case Failure(message) =>
          error := FailureText(message, SignupFailedMessage);
      }
      isLoading := false;
    }
  }
}
