/** `NewArticle`: the guarded article form, its tag slots, and what a submission sends,
  * flashes and shows under the fields. */
module NewArticle {
  import opened Wrappers
  import opened Net
  import opened JsText
  import opened Session
  import opened ArticleForm
  import opened Forms

  const SignInPath := "/sign-in"
  const CreatedText := "Article created successfully!"
  const CreateFailedText := "Failed to create article"
  const GeneralKey := "general"
  const GeneralText := "Ошибка создания статьи"

  /** The fields under which the form prints server messages; `general` is not one. */
  const ShownFields: seq<string> := ["title", "description", "body", "tagList"]

  /** The catch block's `setServerErrors`: an object thrown (the server's errors object, or
    * an `Error` with no fields) is kept as it is; a string becomes a `general` entry. */
  function CreateErrors(t: Thrown): (es: seq<FieldError>)
    requires t != Nothing
    ensures IsObject(t) ==> es == Fields(t)
    ensures t.Primitive? ==> es == [FieldError(GeneralKey, [GeneralText])]
  {
    if IsObject(t) then Fields(t) else [FieldError(GeneralKey, [GeneralText])]
  }

  /** The server's messages for a field are printed under it as they came. */
  lemma ServerMessagesShown(response: Response<()>, key: string)
    requires response.Rejected? && response.errors.Entries?
    ensures FieldMessage(CreateErrors(ThrownOrError(response)), key)
         == FieldMessage(response.errors.entries, key)
  {
  }

  /** A message appears under a field only when the server's errors object named that
    * field: a network failure, a body without `errors` and a string in its place print
    * nothing under the fields (the `general` entry is never printed), and only the flash
    * banner reports them. */
  lemma OnlyServerFieldsShown(response: Response<()>, key: string)
    requires !response.Ok? && key in ShownFields
    ensures FieldMessage(CreateErrors(ThrownOrError(response)), key).Some? ==>
      response.Rejected? && response.errors.Entries? && Lookup(response.errors.entries, key).Some?
  {
    var t := ThrownOrError(response);
    if t.Primitive? {
      assert CreateErrors(t)[0].field == GeneralKey;
    }
  }

  class NewArticlePage {
    var tagInputs: seq<string>
    var isLoading: bool
    var serverErrors: seq<FieldError>
    var authChecked: bool
    var flash: Option<Flash>
    /** Where the page navigated last, if anywhere. */
    var location: Option<string>
    /** The navigation a `setTimeout` will perform. */
    var scheduled: Option<string>

    constructor ()
      ensures tagInputs == InitialSlots && !isLoading && serverErrors == [] && !authChecked
      ensures flash == None && location == None && scheduled == None
    {
      tagInputs := InitialSlots;
      isLoading := false;
      serverErrors := [];
      authChecked := false;
      flash := None;
      location := None;
      scheduled := None;
    }

    /** The auth effect: without a token, off to sign in; with one, the form is shown.
      * A token that disappears later redirects without hiding the form. */
    method CheckAuth(token: Option<string>)
      modifies this
      ensures !HasToken(token) ==> location == Some(SignInPath) && authChecked == old(authChecked)
      ensures HasToken(token) ==> authChecked && location == old(location)
      ensures tagInputs == old(tagInputs) && serverErrors == old(serverErrors) && flash == old(flash)
      ensures isLoading == old(isLoading) && scheduled == old(scheduled)
    {
      if !HasToken(token) {
        location := Some(SignInPath);
      } else {
        authChecked := true;
      }
    }

    method HandleTagChange(i: nat, value: string)
      requires i < |tagInputs|
      modifies this
      ensures tagInputs == Changed(old(tagInputs), i, value)
      ensures serverErrors == old(serverErrors) && flash == old(flash)
      ensures isLoading == old(isLoading) && authChecked == old(authChecked)
      ensures location == old(location) && scheduled == old(scheduled)
    {
      tagInputs := ChangeInPlace(tagInputs, i, value);
    }

    method AddTagInput()
      modifies this
      ensures tagInputs == Appended(old(tagInputs))
      ensures serverErrors == old(serverErrors) && flash == old(flash)
      ensures isLoading == old(isLoading) && authChecked == old(authChecked)
      ensures location == old(location) && scheduled == old(scheduled)
    {
      tagInputs := Appended(tagInputs);
    }

    /** Refused at one slot or fewer. */
    method RemoveTagInput(i: nat)
      requires i < |tagInputs|
      modifies this
      ensures tagInputs == Removed(old(tagInputs), i)
      ensures serverErrors == old(serverErrors) && flash == old(flash)
      ensures isLoading == old(isLoading) && authChecked == old(authChecked)
      ensures location == old(location) && scheduled == old(scheduled)
    {
      if |tagInputs| <= 1 {
        return;
      }
      tagInputs := RemoveInPlace(tagInputs, i);
    }

    /** `handleSubmit(onSubmit)`: nothing is sent unless the three text fields are filled;
      * success flashes and schedules the way home, failure flashes and records the
      * errors. */
    method Submit(data: FormData, response: Response<()>) returns (sent: Option<ArticleInput>)
      modifies this
      ensures !Filled(data) ==>
        sent == None && serverErrors == old(serverErrors) && flash == old(flash)
        && scheduled == old(scheduled) && isLoading == old(isLoading)
      ensures Filled(data) ==>
        sent == Some(ArticleInput(data.title, data.description, data.body, Submitted(old(tagInputs))))
        && !isLoading
      ensures Filled(data) && response.Ok? ==>
        serverErrors == [] && flash == Some(Flash(Success, CreatedText)) && scheduled == Some(HomePath)
      ensures Filled(data) && !response.Ok? ==>
        serverErrors == CreateErrors(ThrownOrError(response))
        && flash == Some(Flash(Error, CreateFailedText)) && scheduled == old(scheduled)
      ensures tagInputs == old(tagInputs) && location == old(location) && authChecked == old(authChecked)
    {
      if !Filled(data) {
        return None;
      }
      serverErrors := [];
      isLoading := true;
      sent := Some(ArticleInput(data.title, data.description, data.body, Submitted(tagInputs)));
      if response.Ok? {
        flash := Some(Flash(Success, CreatedText));
        scheduled := Some(HomePath);
      } else {
        flash := Some(Flash(Error, CreateFailedText));
        serverErrors := CreateErrors(ThrownOrError(response));
      }
      isLoading := false;
    }

    /** The flash effect's five-second timer. */
    method FlashTimerFires()
      modifies this
      ensures flash == None
      ensures tagInputs == old(tagInputs) && serverErrors == old(serverErrors)
      ensures location == old(location) && scheduled == old(scheduled)
      ensures isLoading == old(isLoading) && authChecked == old(authChecked)
    {
      flash := None;
    }

    /** The 1.5-second timer set on success. */
    method NavigationTimerFires()
      requires scheduled.Some?
      modifies this
      ensures location == old(scheduled) && scheduled == None
      ensures tagInputs == old(tagInputs) && serverErrors == old(serverErrors) && flash == old(flash)
      ensures isLoading == old(isLoading) && authChecked == old(authChecked)
    {
      location := scheduled;
      scheduled := None;
    }
  }
}
