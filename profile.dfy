/** `Profile`: the profile form's defaults and rules, the update it sends, and logout. */
module Profile {
  import opened Wrappers
  import opened Net
  import opened JsText
  import opened Session
  import opened Validation
  import opened Forms

  const UpdateFailedText := "Ошибка обновления профиля"

  /** The form's four inputs. */
  datatype ProfileForm = ProfileForm(username: string, email: string, password: string, avatar: string)

  /** The body of `PUT /user`: `None` members are `undefined` and so not sent. */
  datatype ProfileUpdate = ProfileUpdate(username: string, email: string,
                                         password: Option<string>, image: Option<string>)

  /** The update with the bearer token it is sent with. */
  datatype ProfileRequest = ProfileRequest(update: ProfileUpdate, token: string)

  /** `defaultValues`: `user?.x || ''`, read once when the form is created; the password
    * starts empty. */
  function Defaults(user: Option<User>): (f: ProfileForm)
    ensures f.password == ""
    ensures user.None? ==> f == ProfileForm("", "", "", "")
    ensures user.Some? ==> f.username == user.value.username && f.email == user.value.email
    ensures user.Some? ==> f.avatar == user.value.image.GetOr("")
  {
    match user
    case None => ProfileForm("", "", "", "")
    case Some(u) => ProfileForm(u.username, u.email, "", u.image.GetOr(""))
  }

  /** The form's rules: username 3 to 20 and email pattern, both required; a password,
    * if typed, of 6 to 40 units; an avatar, if given, matching the URL pattern. */
  function Accepts(f: ProfileForm): (ok: bool)
    ensures ok <==>
      3 <= Utf16Length(f.username) <= 20 && MatchesEmailPattern(f.email)
      && LengthBetween(f.password, 6, 40) && UrlRule(f.avatar)
  {
    EmailCheckMatchesPattern(f.email);
    f.username != "" && LengthBetween(f.username, 3, 20)
    && f.email != "" && EmailRule(f.email)
    && LengthBetween(f.password, 6, 40)
    && UrlRule(f.avatar)
  }

  /** `password: data.password || undefined, image: data.avatar || undefined`. */
  function Payload(f: ProfileForm): (p: ProfileUpdate)
    ensures p.username == f.username && p.email == f.email
    ensures p.password.None? <==> f.password == ""
    ensures p.password.Some? ==> p.password.value == f.password
    ensures p.image.None? <==> f.avatar == ""
    ensures p.image.Some? ==> p.image.value == f.avatar
  {
    ProfileUpdate(f.username, f.email,
      if f.password == "" then None else Some(f.password),
      if f.avatar == "" then None else Some(f.avatar))
  }

  /** Submitting the defaults unchanged re-sends the name, the email and a non-empty
    * image as they were, and never a password. */
  lemma UnchangedFormSendsCurrentProfile(u: User)
    ensures var p := Payload(Defaults(Some(u)));
      p.username == u.username && p.email == u.email && p.password == None
      && (u.image.Some? && u.image.value != "" ==> p.image == u.image)
      && (u.image.None? || u.image == Some("") ==> p.image == None)
  {
  }

  /** The defaults need no password and, without an image, no avatar: the form then
    * passes its rules as soon as the name and email do. */
  lemma DefaultsPassOptionalRules(user: Option<User>)
    ensures var f := Defaults(user);
      LengthBetween(f.password, 6, 40)
      && (user.None? || user.value.image.None? ==> UrlRule(f.avatar))
  {
  }

  /** The update the page sends for a signed-in user: the form's payload, with the token
    * the user record carries. */
  function RequestFor(user: Option<User>, f: ProfileForm): (r: Option<ProfileRequest>)
    ensures r.Some? <==> user.Some?
    ensures r.Some? ==> r.value == ProfileRequest(Payload(f), user.value.token)
  {
    if user.None? then None else Some(ProfileRequest(Payload(f), user.value.token))
  }

  class ProfilePage {
    var serverError: Option<string>
    /** Where the page navigated last, if anywhere. */
    var location: Option<string>

    constructor ()
      ensures serverError == None && location == None
    {
      serverError := None;
      location := None;
    }

    /** `handleSubmit(onSubmit)`. The route is not guarded: without a user, reading
      * `user.token` for the header throws before anything is sent, and the failure text
      * is shown. On success the session takes the returned user and the page goes home;
      * the success alert is not modelled. */
    method Submit(session: UserProvider, f: ProfileForm, response: Response<User>)
      returns (sent: Option<ProfileRequest>)
      modifies this, session
      ensures !Accepts(f) ==>
        sent == None && serverError == old(serverError) && location == old(location)
        && session.Current() == old(session.Current())
      ensures Accepts(f) ==> sent == RequestFor(old(session.user), f)
      ensures Accepts(f) && sent.Some? && response.Ok? ==>
        session.Current() == AfterLogin(old(session.Current()), response.payload, response.payload.token)
        && serverError == None && location == Some(HomePath)
      ensures Accepts(f) && (sent.None? || !response.Ok?) ==>
        session.Current() == old(session.Current())
        && serverError == Some(UpdateFailedText) && location == old(location)
    {
      if !Accepts(f) {
        return None;
      }
      serverError := None;
      sent := RequestFor(session.user, f);
      if sent.Some? && response.Ok? {
        var u := response.payload;
        session.Login(u, u.token);
        location := Some(HomePath);
      } else {
        serverError := Some(UpdateFailedText);
      }
    }

    /** `handleLogout`: the session is cleared and the page goes home. */
    method HandleLogout(session: UserProvider)
      modifies this, session
      ensures session.Current() == AfterLogout(old(session.Current()))
      ensures location == Some(HomePath) && serverError == old(serverError)
    {
      session.Logout();
      location := Some(HomePath);
    }
  }
}
