/** `SignUp`: the registration form's rules, what a refusal shows, and the login that
  * follows a successful registration. */
module SignUp {
  import opened Wrappers
  import opened Net
  import opened JsText
  import opened Session
  import opened Validation
  import opened Forms
  import SignIn

  const SuccessText := "Registration successful!"
  const FailedText := "Registration failed. Please check your data."

  /** The form's five inputs; `agree` is the checkbox. */
  datatype SignUpForm = SignUpForm(username: string, email: string, password: string,
                                   repeatPassword: string, agree: bool)

  /** The body of `POST /users`. */
  datatype NewUser = NewUser(username: string, email: string, password: string)

  /** The form's rules: every input required, a username of 3 to 20 and a password of 6
    * to 40 UTF-16 units, the email pattern, the repeat equal to the password, and the
    * box ticked. */
  function Accepts(f: SignUpForm): (ok: bool)
    ensures ok <==>
      3 <= Utf16Length(f.username) <= 20 && MatchesEmailPattern(f.email)
      && 6 <= Utf16Length(f.password) <= 40 && f.repeatPassword == f.password && f.agree
  {
    EmailCheckMatchesPattern(f.email);
    f.username != "" && LengthBetween(f.username, 3, 20)
    && f.email != "" && EmailRule(f.email)
    && f.password != "" && LengthBetween(f.password, 6, 40)
    && f.repeatPassword != "" && f.repeatPassword == f.password
    && f.agree
  }

  /** An account registered through this form can sign in through the sign-in form. */
  lemma RegisteredCanSignIn(f: SignUpForm)
    requires Accepts(f)
    ensures SignIn.Accepts(f.email, f.password)
  {
  }

  /** The sign-in form is the more lenient one: it takes passwords longer than forty
    * units, which registration refuses. */
  lemma SignInIsMoreLenient(f: SignUpForm)
    requires Accepts(f)
    ensures var longer := f.password + "0123456789012345678901234567890123456789";
      SignIn.Accepts(f.email, longer) && !Accepts(f.(password := longer, repeatPassword := longer))
  {
    var longer := f.password + "0123456789012345678901234567890123456789";
    assert |longer| > 40;
  }

  /** `setServerErrors(errors || {})`: `null` becomes `{}`, and an `Error` or a string put
    * there has no field entries; every failure flashes. The messages under each field are
    * exactly those of the server's errors object. */
  lemma RefusalShowsServerMessages(response: Response<User>, key: string)
    requires !response.Ok?
    ensures response.Rejected? && response.errors.Entries? ==>
      FieldMessage(Fields(ThrownAsIs(response)), key) == FieldMessage(response.errors.entries, key)
    ensures !(response.Rejected? && response.errors.Entries?) ==>
      FieldMessage(Fields(ThrownAsIs(response)), key) == None
  {
  }

  class SignUpPage {
    var serverErrors: seq<FieldError>
    var isLoading: bool
    var flash: Option<Flash>
    /** The navigation a `setTimeout` will perform. */
    var scheduled: Option<string>

    constructor ()
      ensures serverErrors == [] && !isLoading && flash == None && scheduled == None
    {
      serverErrors := [];
      isLoading := false;
      flash := None;
      scheduled := None;
    }

    /** `handleSubmit(onSubmit)`: nothing is sent unless the form passes its rules; a
      * registration logs the new user in. */
    method Submit(session: UserProvider, f: SignUpForm, response: Response<User>) returns (sent: Option<NewUser>)
      modifies this, session
      ensures !Accepts(f) ==>
        sent == None && serverErrors == old(serverErrors) && flash == old(flash)
        && isLoading == old(isLoading) && scheduled == old(scheduled)
        && session.Current() == old(session.Current())
      ensures Accepts(f) ==> sent == Some(NewUser(f.username, f.email, f.password)) && !isLoading
      ensures Accepts(f) && response.Ok? ==>
        session.Current() == AfterLogin(old(session.Current()), response.payload, response.payload.token)
        && serverErrors == [] && flash == Some(Flash(Success, SuccessText)) && scheduled == Some(HomePath)
      ensures Accepts(f) && !response.Ok? ==>
        session.Current() == old(session.Current()) && scheduled == old(scheduled)
        && serverErrors == Fields(ThrownAsIs(response)) && flash == Some(Flash(Error, FailedText))
    {
      if !Accepts(f) {
        return None;
      }
      serverErrors := [];
      isLoading := true;
      sent := Some(NewUser(f.username, f.email, f.password));
      if response.Ok? {
        var u := response.payload;
        session.Login(u, u.token);
        flash := Some(Flash(Success, SuccessText));
        scheduled := Some(HomePath);
      } else {
        serverErrors := Fields(ThrownAsIs(response));
        flash := Some(Flash(Error, FailedText));
      }
      isLoading := false;
    }

    /** The flash effect's five-second timer. */
    method FlashTimerFires()
      modifies this
      ensures flash == None && serverErrors == old(serverErrors) && scheduled == old(scheduled)
      ensures isLoading == old(isLoading)
    {
      flash := None;
    }
  }
}
