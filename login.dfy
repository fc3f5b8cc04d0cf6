/** The console's login page (src/app/login/login.component.ts): it checks
    the two fields, logs in through the authentication service, keeps the
    token and, after a pause, sends the user to the page of their role. */
module Login {
  import opened Common
  import AuthService

  datatype Credentials = Credentials(username: string, password: string)

  const FieldsRequired: string := "Le nom d'utilisateur et le mot de passe sont requis"
  const Success: string := "Connexion réussie ! Redirection..."
  const NotStored: string := "Erreur : JWT non stocké correctement"
  const RedirectFailed: string := "Erreur lors de la redirection"
  const LoginFailed: string := "Erreur lors de la connexion"
  /** Where the page sends a role the console has no page for. */
  const DefaultPath: string := "/dashboard"

  /** The page's redirection: the service's route for the two console roles,
      and the default page for every other role. */
  function LoginPath(role: Option<string>): (p: string)
    ensures AuthService.RouteFor(role).Some? ==> p == AuthService.RouteFor(role).value
    ensures AuthService.RouteFor(role).None? ==> p == DefaultPath
  {
    if role == Some("ADMIN") then "/admin/dashboard"
    else if role == Some("MANAGER") then "/manager/dashboard"
    else DefaultPath
  }

  class LoginComponent {
    var credentials: Credentials
    var errorMessage: string
    var successMessage: string
    var isSubmitting: bool
    /** The page's own stored copy of the token, under `jwtToken`. */
    var jwtToken: Option<string>

    constructor(stored: Option<string>)
      ensures credentials == Credentials("", "") && errorMessage == "" && successMessage == ""
      ensures !isSubmitting && jwtToken == stored
    {
      credentials, errorMessage, successMessage := Credentials("", ""), "", "";
      isSubmitting, jwtToken := false, stored;
    }

    /** `onSubmit`: ignored while a login is under way; an empty field is
        refused; otherwise the messages are cleared and the credentials sent. */
    method OnSubmit() returns (req: Option<Credentials>)
      modifies this`errorMessage, this`successMessage, this`isSubmitting
      ensures old(isSubmitting) ==> (req == None && errorMessage == old(errorMessage)
        && successMessage == old(successMessage) && isSubmitting)
      ensures !old(isSubmitting) && (credentials.username == "" || credentials.password == "") ==>
        (req == None && errorMessage == FieldsRequired && successMessage == old(successMessage) && !isSubmitting)
      ensures !old(isSubmitting) && credentials.username != "" && credentials.password != "" ==>
        (req == Some(credentials) && errorMessage == "" && successMessage == "" && isSubmitting)
    {
      if isSubmitting {
        return None;
      }
      if credentials.username == "" || credentials.password == "" {
        errorMessage := FieldsRequired;
        return None;
      }
      isSubmitting, errorMessage, successMessage := true, "", "";
      req := Some(credentials);
    }

    /** The login's `next`: a token is kept and the redirection timer started;
        an error alone is shown. */
    method OnLoginNext(response: AuthService.LoginResponse) returns (startTimer: bool)
      modifies this`isSubmitting, this`successMessage, this`errorMessage, this`jwtToken
      ensures !isSubmitting
      ensures startTimer <==> response.token.Some? && response.token.value != ""
      ensures startTimer ==> (successMessage == Success && jwtToken == response.token
        && errorMessage == old(errorMessage))
      ensures !startTimer && response.error.Some? && response.error.value != "" ==>
        (errorMessage == response.error.value && successMessage == old(successMessage) && jwtToken == old(jwtToken))
      ensures !startTimer && !(response.error.Some? && response.error.value != "") ==>
        (errorMessage == old(errorMessage) && successMessage == old(successMessage) && jwtToken == old(jwtToken))
    {
      isSubmitting := false;
      startTimer := false;
      if response.token.Some? && response.token.value != "" {
        successMessage := Success;
        jwtToken := response.token;
        startTimer := true;
      } else if response.error.Some? && response.error.value != "" {
        errorMessage := response.error.value;
      }
    }

    /** The timer: a logged-in user is sent by role; otherwise the token was not
        kept and that is reported. */
    method OnRedirectTimer(loggedIn: bool, role: Option<string>) returns (path: Option<string>)
      modifies this`errorMessage
      ensures loggedIn ==> path == Some(LoginPath(role)) && errorMessage == old(errorMessage)
      ensures !loggedIn ==> path == None && errorMessage == NotStored
    {
      if loggedIn {
        path := Some(LoginPath(role));
      } else {
        path := None;
        errorMessage := NotStored;
      }
    }

    method OnRedirectFailed()
      modifies this`errorMessage
      ensures errorMessage == RedirectFailed
    {
      errorMessage := RedirectFailed;
    }

    /** The login's `error`: its message, else the fixed text. */
    method OnLoginError(message: string)
      modifies this`isSubmitting, this`errorMessage
      ensures !isSubmitting && errorMessage != ""
      ensures errorMessage == (if message != "" then message else LoginFailed)
    {
      isSubmitting := false;
      errorMessage := OrElse(message, LoginFailed);
    }
  }
}
