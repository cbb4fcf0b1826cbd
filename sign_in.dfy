/** `SignIn`: the login form's rules, how a refusal is turned into field messages, and
  * what a successful login does to the session. */
module SignIn {
  import opened Wrappers
  import opened Net
  import opened JsText
  import opened Session
  import opened Validation
  import opened Forms

  const BadCredentialsKey := "email or password"
  const BadCredentialsText := "Неверный email или пароль"
  const GeneralKey := "general"
  const GeneralText := "Ошибка входа. Попробуйте позже"
  const SuccessText := "Login successful!"
  const FailedText := "Login failed. Please check your data."
  const MinPassword := 6

  /** The body of `POST /users/login`. */
  datatype Credentials = Credentials(email: string, password: string)

  /** The form's rules: both fields required, the email pattern, a password of at least
    * six UTF-16 units. */
  function Accepts(email: string, password: string): (ok: bool)
    ensures ok <==> MatchesEmailPattern(email) && Utf16Length(password) >= MinPassword
  {
    EmailCheckMatchesPattern(email);
    email != "" && EmailRule(email) && password != "" && LengthAtLeast(password, MinPassword)
  }

  /** The catch block's `setServerErrors`, for the thrown values it does not crash on:
    * the server's complaint about the pair wins, then one about the email, then one
    * about the password, and anything else becomes a `general` entry. */
  function LoginErrors(t: Thrown): (es: seq<FieldError>)
    requires t != Nothing
    ensures |es| == 1 || |es| == 2
  {
    var errs := Fields(t);
    if Lookup(errs, BadCredentialsKey).Some? then
      [FieldError("email", [BadCredentialsText]), FieldError("password", [BadCredentialsText])]
    else if Lookup(errs, "email").Some? then
      [FieldError("email", Lookup(errs, "email").value)]
    else if Lookup(errs, "password").Some? then
      [FieldError("password", Lookup(errs, "password").value)]
    else
      [FieldError(GeneralKey, [GeneralText])]
  }

  /** What the form prints under each field after a refusal, in terms of what the server
    * sent: at most one of the server's own messages is shown, the email's first. */
  lemma LoginErrorsShown(t: Thrown)
    requires t != Nothing
    ensures Lookup(Fields(t), BadCredentialsKey).Some? ==>
      FieldMessage(LoginErrors(t), "email") == Some(BadCredentialsText)
      && FieldMessage(LoginErrors(t), "password") == Some(BadCredentialsText)
    ensures Lookup(Fields(t), BadCredentialsKey).None? && Lookup(Fields(t), "email").Some? ==>
      FieldMessage(LoginErrors(t), "email") == FieldMessage(Fields(t), "email")
      && FieldMessage(LoginErrors(t), "password") == None
    ensures Lookup(Fields(t), BadCredentialsKey).None? && Lookup(Fields(t), "email").None? ==>
      FieldMessage(LoginErrors(t), "email") == None
      && FieldMessage(LoginErrors(t), "password") == FieldMessage(Fields(t), "password")
  {
    var es := LoginErrors(t);
    if Lookup(Fields(t), BadCredentialsKey).Some? {
      assert es[1..] == [FieldError("password", [BadCredentialsText])];
      assert Lookup(es, "password") == Some([BadCredentialsText]);
    }
  }

  /** Only the server's errors object can name a field: a network failure or a string
    * in its place leaves the fields clean and yields the `general` entry, which the
    * form never prints. */
  lemma UnstructuredRefusalIsGeneral(t: Thrown)
    requires t.ErrorInstance? || t.Primitive?
    ensures LoginErrors(t) == [FieldError(GeneralKey, [GeneralText])]
    ensures FieldMessage(LoginErrors(t), "email") == None && FieldMessage(LoginErrors(t), "password") == None
  {
  }

  class SignInPage {
    var serverErrors: seq<FieldError>
    var isLoading: bool
    var flash: Option<Flash>
    /** The navigation a `setTimeout` will perform. */
    var scheduled: Option<string>

    constructor ()
      ensures serverErrors == [] && !isLoading && flash == None && scheduled == None
    {
      serverErrors := [];
      isLoading := false;
      flash := None;
      scheduled := None;
    }

    /** `handleSubmit(onSubmit)`. A refusal whose body has no `errors` makes the catch
      * block itself throw on `errors['email or password']`: the errors stay cleared and
      * no flash is shown, and `finally` still ends the loading state. */
    method Submit(session: UserProvider, email: string, password: string, response: Response<User>)
      returns (sent: Option<Credentials>)
      modifies this, session
      ensures !Accepts(email, password) ==>
        sent == None && serverErrors == old(serverErrors) && flash == old(flash)
        && isLoading == old(isLoading) && scheduled == old(scheduled)
        && session.Current() == old(session.Current())
      ensures Accepts(email, password) ==> sent == Some(Credentials(email, password)) && !isLoading
      ensures Accepts(email, password) && response.Ok? ==>
        session.Current() == AfterLogin(old(session.Current()), response.payload, response.payload.token)
        && serverErrors == [] && flash == Some(Flash(Success, SuccessText)) && scheduled == Some(HomePath)
      ensures Accepts(email, password) && !response.Ok? ==>
        session.Current() == old(session.Current()) && scheduled == old(scheduled)
      ensures Accepts(email, password) && !response.Ok? && ThrownAsIs(response) != Nothing ==>
        serverErrors == LoginErrors(ThrownAsIs(response)) && flash == Some(Flash(Error, FailedText))
      ensures Accepts(email, password) && !response.Ok? && ThrownAsIs(response) == Nothing ==>
        serverErrors == [] && flash == old(flash)
    {
      if !Accepts(email, password) {
        return None;
      }
      serverErrors := [];
      isLoading := true;
      sent := Some(Credentials(email, password));
      if response.Ok? {
        var u := response.payload;
        session.Login(u, u.token);
        flash := Some(Flash(Success, SuccessText));
        scheduled := Some(HomePath);
      } else {
        var t := ThrownAsIs(response);
        if t != Nothing {
          serverErrors := LoginErrors(t);
          flash := Some(Flash(Error, FailedText));
        }
      }
      isLoading := false;
    }
  }
}
