/** Login.jsx: submitting the credentials, storing the session the server
    returns, and sending the user to their role's page. */
module LoginPage {
  import opened Common
  import opened Models
  import opened ClientText
  import opened AppShell
  import AuthController

  const LoginFailedMessage := "Login failed"

  /** The JSON the server writes for a session. */
  function SessionJsonOf(s: AuthController.Session): (j: SessionJson)
    ensures j.user.Some? && j.user.value.role == Some(RoleName(s.user.role))
  {
    SessionJson(Some(s.token),
                Some(UserJson(Some(s.user.id), Some(s.user.email), Some(s.user.name), Some(RoleName(s.user.role)))))
  }

  /** The landing page of each stored role, once a token is held. */
  lemma {:induction false} SessionLandsOnRolePage(s: AuthController.Session)
    requires s.token != ""
    ensures var j := SessionJsonOf(s);
            var view := Visit(LandingPath(RoleOf(j.user)), j.token, j.user);
            && (s.user.role == Admin ==> view == Show(AdminDashboard))
            && (s.user.role == Lab ==> view == Show(LabProcessing))
            && (s.user.role == Collector ==> view == Show(CollectorDashboard))
            && (s.user.role == User ==> view == Redirect("/"))
  {
    var j := SessionJsonOf(s);
    LandingRenders(j.token, j.user.value);
  }

  class LoginForm {
    var email: string
    var password: string
    var error: string
    var isLoading: bool

    constructor ()
      ensures email == "" && password == "" && error == "" && !isLoading
    {
      email, password, error, isLoading := "", "", "", false;
    }

    /** The first half of `handleSubmit`: clear the error, show the
        spinner, and post the two fields as they stand. */
    method Submit() returns (request: AuthController.LoginBody)
      modifies this
      ensures error == "" && isLoading
      ensures email == old(email) && password == old(password)
      ensures request == AuthController.LoginBody(Some(email), Some(password))
    {
      error := "";
      isLoading := true;
      request := AuthController.LoginBody(Some(email), Some(password));
    }

    /** The second half: on success store token and user and navigate by
        role; on failure show the server's message or the default and stay. */
    method Complete(reply: Fetched<SessionJson>, session: Session)
      modifies this, session
      ensures !isLoading
      ensures email == old(email) && password == old(password)
      ensures session.menuOpen == old(session.menuOpen)
      ensures reply.Success? ==>
                && session.token == reply.data.token && session.user == reply.data.user
                && session.path == LandingPath(RoleOf(reply.data.user))
                && error == old(error)
      ensures reply.Failure? ==>
                && error == FailureText(reply.message, LoginFailedMessage) && error != ""
                && session.token == old(session.token) && session.user == old(session.user)
                && session.path == old(session.path)
    {
      match reply {
        case Success(data) =>
          session.SignIn(data);
        case Failure(message) =>
          error := FailureText(message, LoginFailedMessage);
      }
      isLoading := false;
    }
  }
}
