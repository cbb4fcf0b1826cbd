/** `EditArticle`: the draft kept in storage while an article is edited, the tag slots,
  * and what a submission sends and shows. */
module EditArticle {
  import opened Wrappers
  import opened Storage
  import opened Net
  import opened JsText
  import opened Session
  import opened ArticlesApi
  import opened ArticleForm

  const TitleKey := "title"
  const DescriptionKey := "description"
  const BodyKey := "body"
  const TagsKey := "tags"

  /** The four storage keys of the draft: global, not per article. */
  const DraftKeys: set<string> := {TitleKey, DescriptionKey, BodyKey, TagsKey}

  const SignInPath := "/sign-in"
  const NotOkText := "Ошибка загрузки статьи"
  const NotFoundText := "Статья не найдена"
  const LoadFallbackText := "Ошибка при загрузке статьи"
  const EditFailedText := "Ошибка редактирования статьи"

  /** What the form shows after loading: the three text fields and the tag slots. */
  datatype Draft = Draft(title: string, description: string, body: string, tags: seq<string>)

  /** `getFromLocalStorage(key) || fallback` for a text field: a stored empty string is
    * falsy and gives way to the server's value. */
  function FieldOr(store: Store, key: string, fallback: string): (r: string)
    ensures GetStr(store, key).Some? && GetStr(store, key).value != "" ==> r == GetStr(store, key).value
    ensures GetStr(store, key).None? || GetStr(store, key).value == "" ==> r == fallback
  {
    var stored := GetStr(store, key);
    if stored.Some? && stored.value != "" then stored.value else fallback
  }

  /** The server's tags, or two empty slots when it has none. */
  function ServerSlots(a: Article): (r: seq<string>)
    ensures |r| >= 1
    ensures |a.tagList| > 0 ==> r == a.tagList
    ensures |a.tagList| == 0 ==> r == InitialSlots
  {
    if |a.tagList| > 0 then a.tagList else InitialSlots
  }

  /** The form after `fetchArticle`: every field from the draft when there is one, from
    * the server otherwise. A stored list of tags wins even when it is empty. */
  function Loaded(store: Store, a: Article): (d: Draft)
    ensures d.title == FieldOr(store, TitleKey, a.title)
    ensures d.description == FieldOr(store, DescriptionKey, a.description)
    ensures d.body == FieldOr(store, BodyKey, a.body)
    ensures GetList(store, TagsKey).Some? ==> d.tags == GetList(store, TagsKey).value
    ensures GetList(store, TagsKey).None? ==> d.tags == ServerSlots(a)
  {
    Draft(FieldOr(store, TitleKey, a.title), FieldOr(store, DescriptionKey, a.description),
          FieldOr(store, BodyKey, a.body), GetList(store, TagsKey).GetOr(ServerSlots(a)))
  }

  /** Whether the draft counts as present: only the stored title is consulted. */
  function HasDraft(store: Store): (present: bool)
    ensures present <==> FieldOr(store, TitleKey, "") != ""
    ensures present ==> TitleKey in store
  {
    GetStr(store, TitleKey).Some? && GetStr(store, TitleKey).value != ""
  }

  /** The initial save after loading: without a (truthy) stored title, all four keys are
    * overwritten with the server's article. */
  function Seeded(store: Store, a: Article): (r: Store)
    ensures HasDraft(store) ==> r == store
    ensures !HasDraft(store) ==> r.Keys == store.Keys + DraftKeys
    ensures !HasDraft(store) ==>
      r[TitleKey] == Str(a.title) && r[DescriptionKey] == Str(a.description)
      && r[BodyKey] == Str(a.body) && r[TagsKey] == List(ServerSlots(a))
    ensures forall k :: k in store && k !in DraftKeys ==> k in r && r[k] == store[k]
  {
    if HasDraft(store) then store
    else store[TitleKey := Str(a.title)][DescriptionKey := Str(a.description)]
              [BodyKey := Str(a.body)][TagsKey := List(ServerSlots(a))]
  }

  /** The four `localStorage.removeItem` calls after a successful update. */
  function Purged(store: Store): (r: Store)
    ensures r.Keys == store.Keys - DraftKeys
    ensures forall k :: k in r ==> r[k] == store[k]
  {
    store - DraftKeys
  }

  /** A typed value is what the form shows after a reload, for each text field. */
  lemma TypedFieldSurvivesReload(store: Store, a: Article, key: string, v: string)
    requires key in {TitleKey, DescriptionKey, BodyKey} && v != ""
    ensures var d := Loaded(store[key := Str(v)], a);
      (key == TitleKey ==> d.title == v) && (key == DescriptionKey ==> d.description == v)
      && (key == BodyKey ==> d.body == v)
  {
  }

  /** Edited tag slots are what the form shows after a reload, even an empty list. */
  lemma TagsSurviveReload(store: Store, a: Article, slots: seq<string>)
    ensures Loaded(store[TagsKey := List(slots)], a).tags == slots
  {
  }

  /** After a successful update the next load shows the server's article again, and the
    * draft is reseeded from it. */
  lemma PurgeRestoresServer(store: Store, a: Article)
    ensures Loaded(Purged(store), a) == Draft(a.title, a.description, a.body, ServerSlots(a))
    ensures Loaded(Seeded(Purged(store), a), a) == Loaded(Purged(store), a)
  {
    var p := Purged(store);
    assert GetStr(p, TitleKey).None? && GetStr(p, DescriptionKey).None?;
    assert GetStr(p, BodyKey).None? && GetList(p, TagsKey).None?;
  }

  /** A purge leaves every other key alone, the session's token among them. */
  lemma PurgeKeepsToken(store: Store)
    ensures StoredToken(Purged(store)) == StoredToken(store)
  {
  }

  /** The draft is not tied to a slug: after opening article `a`, opening another article
    * `b` shows `a`'s title and tags and does not reseed. */
  lemma DraftLeaksAcrossArticles(store: Store, a: Article, b: Article)
    requires !HasDraft(store) && a.title != ""
    ensures Loaded(Seeded(store, a), b).title == a.title
    ensures Loaded(Seeded(store, a), b).tags == ServerSlots(a)
    ensures Seeded(Seeded(store, a), b) == Seeded(store, a)
  {
    var s := Seeded(store, a);
    assert GetStr(s, TitleKey) == Some(a.title);
    assert GetList(s, TagsKey) == Some(ServerSlots(a));
  }

  /** Without a stored title, a stored description still fills the form but is then
    * overwritten in storage by the server's: the form and the draft disagree. */
  lemma UntitledDraftIsOverwritten(store: Store, a: Article, v: string)
    requires !HasDraft(store) && v != "" && v != a.description
    ensures var s := store[DescriptionKey := Str(v)];
      Loaded(s, a).description == v && Seeded(s, a)[DescriptionKey] == Str(a.description)
  {
    var s := store[DescriptionKey := Str(v)];
    assert !HasDraft(s);
  }

  /** The error text a failed mount shows: `error.message`, which for a network failure
    * is the browser's own message (taken here as the fallback). */
  function LoadError(response: Response<Option<Article>>): (m: string)
    requires !(response.Ok? && response.payload.Some?)
    ensures m != ""
    ensures response.Rejected? ==> m == NotOkText
    ensures response.Ok? ==> m == NotFoundText
  {
    match response
    case Rejected(_) => NotOkText
    case Ok(_) => NotFoundText
    case NetworkError => LoadFallbackText
  }

  /** `value.toString()` of one entry of the errors object: its messages joined by commas. */
  function EntryText(e: FieldError): string {
    Join(",", e.messages)
  }

  function EntryTexts(es: seq<FieldError>): (r: seq<string>)
    ensures |r| == |es|
    ensures forall i :: 0 <= i < |es| ==> r[i] == EntryText(es[i])
  {
    seq(|es|, i requires 0 <= i < |es| => EntryText(es[i]))
  }

  /** The catch block of `onSubmit` as written: an object thrown is shown as its values
    * joined by `', '`; anything else as the fixed text. */
  function SubmitErrorAsWritten(t: Thrown): (m: string)
    ensures !IsObject(t) ==> m == EditFailedText
    ensures IsObject(t) ==> m == Join(", ", EntryTexts(Fields(t)))
    ensures t.ErrorInstance? ==> m == ""
    ensures t.ErrorsObject? && (exists i :: 0 <= i < |t.entries| && EntryText(t.entries[i]) != "") ==> m != ""
  {
    if IsObject(t) then Join(", ", EntryTexts(Fields(t))) else EditFailedText
  }

  /** A failure without a usable errors object (a network failure, a body without
    * `errors`, an empty `errors` object) leaves the error text empty, and
    * `{serverError && ...}` then shows nothing. */
  lemma UnexplainedFailureShowsNothing(response: Response<()>)
    requires response.NetworkError? || (response.Rejected? && response.errors.NoErrors?)
      || (response.Rejected? && response.errors == Entries([]))
    ensures SubmitErrorAsWritten(ThrownOrError(response)) == ""
  {
  }

  /** The catch block as intended: whatever failed, some text is shown; a non-empty
    * server text is kept as it is. */
  function SubmitError(t: Thrown): (m: string)
    ensures m != ""
    ensures SubmitErrorAsWritten(t) != "" ==> m == SubmitErrorAsWritten(t)
    ensures SubmitErrorAsWritten(t) == "" ==> m == EditFailedText
  {
    var written := SubmitErrorAsWritten(t);
    if written != "" then written else EditFailedText
  }

  /** Every failed update is explained to the user. */
  lemma EveryFailureExplained(response: Response<()>)
    requires !response.Ok?
    ensures SubmitError(ThrownOrError(response)) != ""
    ensures response.Rejected? && response.errors.Text? && response.errors.text != "" ==>
      SubmitError(ThrownOrError(response)) == EditFailedText
  {
  }

  class EditArticlePage {
    const slug: string
    var tagInputs: seq<string>
    /** The values the form fields were set to on load. */
    var shown: FormData
    var store: Store
    var isLoading: bool
    var authChecked: bool
    var serverError: Option<string>
    /** Where the page navigated last, if anywhere. */
    var location: Option<string>

    constructor (slug: string, storage: Store)
      ensures this.slug == slug && store == storage
      ensures tagInputs == InitialSlots && shown == FormData("", "", "")
      ensures isLoading && !authChecked && serverError == None && location == None
    {
      this.slug := slug;
      tagInputs := InitialSlots;
      shown := FormData("", "", "");
      store := storage;
      isLoading := true;
      authChecked := false;
      serverError := None;
      location := None;
    }

    /** The mount effect: without a token, off to sign in with the spinner left on;
      * otherwise the article is loaded into the form and the draft seeded. */
    method Mount(token: Option<string>, response: Response<Option<Article>>)
      modifies this
      ensures !HasToken(token) ==>
        location == Some(SignInPath) && authChecked == old(authChecked)
        && store == old(store) && tagInputs == old(tagInputs) && shown == old(shown)
        && isLoading == old(isLoading) && serverError == old(serverError)
      ensures HasToken(token) ==> authChecked && !isLoading && location == old(location)
      ensures HasToken(token) && response.Ok? && response.payload.Some? ==>
        var d := Loaded(old(store), response.payload.value);
        shown == FormData(d.title, d.description, d.body) && tagInputs == d.tags
        && store == Seeded(old(store), response.payload.value) && serverError == old(serverError)
      ensures HasToken(token) && !(response.Ok? && response.payload.Some?) ==>
        serverError == Some(LoadError(response)) && store == old(store)
        && tagInputs == old(tagInputs) && shown == old(shown)
    {
      if !HasToken(token) {
        location := Some(SignInPath);
        return;
      }
      authChecked := true;
      isLoading := true;
      if response.Ok? && response.payload.Some? {
        var a := response.payload.value;
        var d := Loaded(store, a);
        shown := FormData(d.title, d.description, d.body);
        tagInputs := d.tags;
        store := Seeded(store, a);
      } else {
        serverError := Some(LoadError(response));
      }
      isLoading := false;
    }

    /** `handleInputChange(key, value)`: only the draft is written. */
    method HandleInputChange(key: string, value: string)
      requires key in {TitleKey, DescriptionKey, BodyKey}
      modifies this
      ensures store == old(store)[key := Str(value)]
      ensures tagInputs == old(tagInputs) && shown == old(shown) && serverError == old(serverError)
      ensures isLoading == old(isLoading) && authChecked == old(authChecked) && location == old(location)
    {
      store := store[key := Str(value)];
    }

    /** `handleTagChange(index, value)`. */
    method HandleTagChange(i: nat, value: string)
      requires i < |tagInputs|
      modifies this
      ensures tagInputs == Changed(old(tagInputs), i, value)
      ensures store == old(store)[TagsKey := List(tagInputs)]
      ensures shown == old(shown) && serverError == old(serverError)
      ensures isLoading == old(isLoading) && authChecked == old(authChecked) && location == old(location)
    {
      tagInputs := ChangeInPlace(tagInputs, i, value);
      store := store[TagsKey := List(tagInputs)];
    }

    /** `addTagInput()`. */
    method AddTagInput()
      modifies this
      ensures tagInputs == Appended(old(tagInputs))
      ensures store == old(store)[TagsKey := List(tagInputs)]
      ensures shown == old(shown) && serverError == old(serverError)
      ensures isLoading == old(isLoading) && authChecked == old(authChecked) && location == old(location)
    {
      tagInputs := Appended(tagInputs);
      store := store[TagsKey := List(tagInputs)];
    }

    /** `removeTagInput(index)`: refused, storage included, at one slot or fewer. */
    method RemoveTagInput(i: nat)
      requires i < |tagInputs|
      modifies this
      ensures tagInputs == Removed(old(tagInputs), i)
      ensures |old(tagInputs)| <= 1 ==> store == old(store)
      ensures |old(tagInputs)| > 1 ==> store == old(store)[TagsKey := List(tagInputs)]
      ensures shown == old(shown) && serverError == old(serverError)
      ensures isLoading == old(isLoading) && authChecked == old(authChecked) && location == old(location)
    {
      if |tagInputs| <= 1 {
        return;
      }
      tagInputs := RemoveInPlace(tagInputs, i);
      store := store[TagsKey := List(tagInputs)];
    }

    /** `handleSubmit(onSubmit)` with the form's values: nothing is sent unless the three
      * text fields are filled; the draft is purged and the page left only on success.
      * A failure shows the corrected `SubmitError`: the text the catch block computes
      * whenever that is non-empty, and the fixed failure text where it would be empty. */
    method Submit(data: FormData, response: Response<()>) returns (sent: Option<ArticleInput>)
      modifies this
      ensures !Filled(data) ==>
        sent == None && store == old(store) && location == old(location)
        && serverError == old(serverError) && isLoading == old(isLoading)
      ensures Filled(data) ==>
        sent == Some(ArticleInput(data.title, data.description, data.body, Submitted(old(tagInputs))))
        && !isLoading
      ensures Filled(data) && response.Ok? ==>
        store == Purged(old(store)) && location == Some("/articles/" + slug) && serverError == None
      ensures Filled(data) && !response.Ok? ==>
        store == old(store) && location == old(location)
        && serverError == Some(SubmitError(ThrownOrError(response)))
      ensures Filled(data) && !response.Ok? && SubmitErrorAsWritten(ThrownOrError(response)) != "" ==>
        serverError == Some(SubmitErrorAsWritten(ThrownOrError(response)))
      ensures tagInputs == old(tagInputs) && shown == old(shown) && authChecked == old(authChecked)
    {
      if !Filled(data) {
        return None;
      }
      serverError := None;
      isLoading := true;
      sent := Some(ArticleInput(data.title, data.description, data.body, Submitted(tagInputs)));
      if response.Ok? {
        store := Purged(store);
        location := Some("/articles/" + slug);
      } else {
        serverError := Some(SubmitError(ThrownOrError(response)));
      }
      isLoading := false;
    }
  }
}
