/** The console's registration page (src/app/register/register.component.ts):
    it checks the fields and the e-mail address, then registers the user. */
module Register {
  import opened Common
  import opened Http
  import opened Patterns

  datatype NewUser = NewUser(username: string, email: string, password: string, role: string)

  const DefaultRole: string := "ROLE_USER"
  const FieldsRequired: string := "Le nom d'utilisateur, l'email et le mot de passe sont requis"
  const InvalidEmail: string := "Veuillez entrer un email valide"
  const Registered: string := "Inscription réussie ! Veuillez vous connecter."
  const RegisterFailed: string := "Erreur lors de l'inscription"

  /** The error text: the body's message, else the error's own, else the fixed text. */
  function RegisterError(e: HttpError): (r: string)
    ensures r != ""
    ensures BodyMessage(e.body) != "" ==> r == BodyMessage(e.body)
    ensures BodyMessage(e.body) == "" && e.message != "" ==> r == e.message
    ensures BodyMessage(e.body) == "" && e.message == "" ==> r == RegisterFailed
  {
    OrElse(BodyMessage(e.body), OrElse(e.message, RegisterFailed))
  }

  class RegisterComponent {
    var user: NewUser
    var errorMessage: string
    var successMessage: string
    var isSubmitting: bool

    constructor()
      ensures user == NewUser("", "", "", DefaultRole) && errorMessage == "" && successMessage == ""
      ensures !isSubmitting
    {
      user, errorMessage, successMessage, isSubmitting := NewUser("", "", "", DefaultRole), "", "", false;
    }

    /** `onSubmit`: ignored while a registration is under way; empty fields are
        refused, then an address that does not match the e-mail pattern; only
        then is the user sent. */
    method OnSubmit() returns (req: Option<NewUser>)
      modifies this`errorMessage, this`successMessage, this`isSubmitting
      ensures req.Some? ==> (req.value == user && user.username != "" && user.password != ""
        && EmailPattern(user.email) && !old(isSubmitting))
      ensures req.Some? <==> (!old(isSubmitting) && user.username != "" && user.password != ""
        && user.email != "" && EmailValid(user.email))
      ensures old(isSubmitting) ==>
        (isSubmitting && errorMessage == old(errorMessage) && successMessage == old(successMessage))
      ensures !old(isSubmitting) && (user.username == "" || user.password == "" || user.email == "") ==>
        errorMessage == FieldsRequired && !isSubmitting && successMessage == old(successMessage)
      ensures (!old(isSubmitting) && user.username != "" && user.password != "" && user.email != ""
        && !EmailPattern(user.email)) ==>
        errorMessage == InvalidEmail && !isSubmitting && successMessage == old(successMessage)
      ensures req.Some? ==> errorMessage == "" && successMessage == "" && isSubmitting
    {
      if isSubmitting {
        return None;
      }
      if user.username == "" || user.password == "" || user.email == "" {
        errorMessage := FieldsRequired;
        return None;
      }
      EmailValidIff(user.email);
      if !EmailValid(user.email) {
        errorMessage := InvalidEmail;
        return None;
      }
      isSubmitting, errorMessage, successMessage := true, "", "";
      req := Some(user);
    }

    /** The registration's `next`: the answer's message, else the fixed text;
        the timer that then goes to the login page is left to the caller. */
    method OnRegistered(message: string)
      modifies this`isSubmitting, this`successMessage
      ensures !isSubmitting && successMessage == (if message != "" then message else Registered)
    {
      isSubmitting := false;
      successMessage := OrElse(message, Registered);
    }

    method OnRegisterFailed(e: HttpError)
      modifies this`isSubmitting, this`errorMessage
      ensures !isSubmitting && errorMessage == RegisterError(e)
    {
      isSubmitting := false;
      errorMessage := RegisterError(e);
    }
  }
}
