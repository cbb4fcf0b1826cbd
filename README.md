# Blog client: session, guarded routes, paging, likes and article forms

This project models the client side of a small blog built with React against a
RealWorld-style REST API. It covers the following parts:

- **Session provider.** `UserContext` keeps a JWT in `localStorage` and a resolved user
  in memory. On mount it resolves the token through `GET /user` and logs out when that
  fails. `ProtectedRoute` reads that state to decide whether a guarded page is shown.
- **Article list.** `Home` lists articles five to a page. It keeps the current page and
  a per-slug map of like overrides in storage, and applies those overrides to every
  page it fetches.
- **Like button.** It sends `POST` or `DELETE /articles/:slug/favorite`. It reports
  the new state to the page only after the server confirmed it, and it is disabled
  while its request is in flight. The list page and the detail page each keep their
  own copy of the favourite count.
- **Article detail page.** It loads the article with an optional bearer header, shows
  Edit and Delete only to the author, and deletes the article.
- **New-article and edit-article forms.** Both have a list of tag slots: change,
  append, and remove (never below one slot). Blank slots are filtered out on submit.
  The edit form also keeps a draft in storage under four global keys (`title`,
  `description`, `body`, `tags`). It seeds that draft from the server, restores it on
  reload, and purges it after a successful update.
- **Sign-in, sign-up and profile forms.** This covers their validation rules as
  react-hook-form applies them (JavaScript regexes, lengths counted in UTF-16 code
  units), what a refusal shows under each field, and how a success updates the
  session.

Each page is a class. Its fields are the page's React state, plus `location` and
`scheduled` for where `navigate` sent the browser or a `setTimeout` will send it. Each
handler is a method whose postcondition states the whole new state. That state is
given by pure functions of the old state and of the server's response. The lemmas
about those functions carry the properties: the round trips, the reload behaviour,
the invariants and the error cases.

The environment is handled as follows:

- A server response is a parameter of type `Response<T>`: `Ok(payload)`,
  `Rejected(errors)` (a non-2xx status whose body carries an `errors` object, no
  `errors`, or a string there), or `NetworkError`.
- `localStorage` is a `map<string, Value>` of already-decoded JSON values.
- The values a `catch` block receives are the datatype `Thrown`: the server's errors
  object, an `Error` instance, `undefined`, or a string.

The JavaScript semantics the source relies on are written out:

- truthiness (`x || fallback`);
- `parseInt`;
- `String.prototype.trim` and `\s`;
- `Array.prototype.join`;
- `typeof x === 'object'`;
- `Object.values`, which is empty for an `Error`;
- regex character classes over UTF-16 code units.

## Model

| member | source | states |
|---|---|---|
| `Session.Initial` | src/context/UserContext.jsx:8-10 | On mount the token is the stored one exactly when that is truthy, and `None` when the stored value is missing or empty. There is no user, and the provider is loading. |
| `Session.AfterLogin` | src/context/UserContext.jsx:31-35 | Login stores the JWT and sets token and user. Other storage keys and the loading flag are untouched. |
| `Session.AfterLogout` | src/context/UserContext.jsx:37-41 | Logout removes the stored token, clears token and user, and keeps every other storage key. |
| `Session.AfterResolve` | src/context/UserContext.jsx:12-29 | Loading always ends. Without a token nothing else changes. With a token, an ok response sets the returned user and keeps token and storage; any other response is a logout, so the stored token is gone. |
| `Session.ResolveWithoutToken` | src/context/UserContext.jsx:14 | Without a token, resolution sends nothing, changes no user and only ends loading. |
| `Session.ResolveSuccess` | src/context/UserContext.jsx:15-21 | With a token and an ok response, the user is the one returned and the token is kept. |
| `Session.ResolveFailureLogsOut` | src/context/UserContext.jsx:19-23 | With a token, a refused or failed request leaves no user, no token and no stored token. |
| `Session.ResolveEndsLoading` | src/context/UserContext.jsx:24-26 | Whatever the response, loading is over after resolution. |
| `Session.LogoutIdempotent` | src/context/UserContext.jsx:37-41 | Logging out twice is logging out once. |
| `Session.TokenMatchesStorage` | src/context/UserContext.jsx:31-41 | After a login or a logout, the in-memory token equals the stored one. |
| `Session.SessionSurvivesReload` | src/context/UserContext.jsx:9-41 | A reload after a login with a non-empty JWT starts with that token; a reload after logout starts with none. |
| `Session.ConsistentInvariant` | src/context/UserContext.jsx:8-41 | No user is held without a token: true on mount, and kept by login, logout and every resolution. |
| `Session.UserProvider.constructor` | src/context/UserContext.jsx:8-10 | The provider's state is `Initial` of the storage it starts from. |
| `Session.UserProvider.Login` | src/context/UserContext.jsx:31-35 | The new state is `AfterLogin` of the old one. |
| `Session.UserProvider.Logout` | src/context/UserContext.jsx:37-41 | The new state is `AfterLogout` of the old one. |
| `Session.UserProvider.FetchUser` | src/context/UserContext.jsx:12-29 | The new state is `AfterResolve` of the old one and the response. |
| `ProtectedRoute.Decide` | src/components/ProtectedRoute.jsx:5-11 | Checking while loading; the page iff a user is resolved; otherwise a redirect to `/sign-in`. |
| `ProtectedRoute.GuardIgnoresToken` | src/components/ProtectedRoute.jsx:6-10 | The decision depends on the user and loading flag only: a stored token without a resolved user still redirects. |
| `ProtectedRoute.GuardAroundResolution` | src/components/ProtectedRoute.jsx:8-10 | On mount the guard shows the check. After resolution it never does, and a failed resolution redirects to sign-in. |
| `ProtectedRoute.ShownOnlyWithToken` | src/components/ProtectedRoute.jsx:10 | In every consistent session state, a shown page implies a token is held. |
| `ArticlesApi.ArticlesQuery` | src/api/articles.js:3-5 | The limit is the one given or 5, and the offset is `Offset` of the page given or page 1 with that limit. |
| `ArticlesApi.Offset` | src/api/articles.js:4 | `(page - 1) * limit`: 0 for page 1, non-negative for pages from 1 with a non-negative limit, and the window of `limit` articles starting there ends at `page * limit`. |
| `ArticlesApi.Fetched` | src/api/articles.js:5-7 | An ok response yields its body; anything else throws. |
| `ArticlesApi.DefaultQuery` | src/api/articles.js:3-4 | With no arguments the request is limit 5, offset 0. |
| `ArticlesApi.NextPageFollows` | src/api/articles.js:4 | The next page's offset is this page's offset plus the limit. |
| `ArticlesApi.EarlierPagesComeFirst` | src/api/articles.js:4 | An earlier page's window ends at or before a later page's begins. |
| `ArticlesApi.PageOfPosition` | src/api/articles.js:4 | For a positive limit, the article at list position `k` is in the window of page `k / limit + 1` and of no other page. |
| `Pagination.TotalPages` | src/components/Pagination.jsx:4 | The page count is the ceiling of count over size: the least number of pages holding every article. |
| `Pagination.Buttons` | src/components/Pagination.jsx:8-22 | One button per page, labelled and reporting `i + 1`, highlighted iff it is the current page. |
| `Pagination.NoButtonsWhenEmpty` | src/components/Pagination.jsx:4-8 | No articles, no buttons. |
| `Pagination.ButtonsCoverAllArticles` | src/components/Pagination.jsx:4-22 | Buttons are in page order, there are buttons iff there are articles, and the last button is the last page that holds an article. |
| `Pagination.OneHighlighted` | src/components/Pagination.jsx:15-16 | Exactly one button is highlighted when the current page exists, none otherwise. |
| `LikeButton.MethodFor` | src/components/LikeButton.jsx:16 | `DELETE` for a favourited article, `POST` otherwise. |
| `LikeButton.RequestFor` | src/components/LikeButton.jsx:9-20 | No request without a token; otherwise the favourite request for the slug with the bearer token. |
| `LikeButton.Reported` | src/components/LikeButton.jsx:22-27 | The new state is reported to the page only after an ok response, and it is the opposite of the old state. |
| `LikeButton.Toggle` | src/components/LikeButton.jsx:8-29 | One click and its response: the request is `RequestFor` the slug, token and old state; the page hears of a change iff a token was held and the answer was ok, and what it hears is the flipped state. |
| `LikeButton.ToggleWithoutToken` | src/components/LikeButton.jsx:9-12 | Without a token, nothing is sent and nothing is reported. |
| `LikeButton.ToggleReportsOnlyConfirmed` | src/components/LikeButton.jsx:16-27 | The page hears of a change iff a token was held and the answer was ok. It then hears the flipped state, and the request's verb is `MethodFor` the old state. |
| `LikeButton.LikeButton.constructor` | src/components/LikeButton.jsx:4-6 | A new button is idle for its slug. |
| `LikeButton.LikeButton.Click` | src/components/LikeButton.jsx:8-20 | A click sends at most one request and starts loading. A click while loading (a disabled button) sends nothing. |
| `LikeButton.LikeButton.Settle` | src/components/LikeButton.jsx:22-29 | The response ends loading, and the page hears `Reported` for the state the click saw. |
| `LikeButton.ClickTwiceThenSettle` | src/components/LikeButton.jsx:8-36 | A click and its response do what `Toggle` says, and a second click while the first is in flight sends nothing. |
| `Home.CountOrZero` | src/pages/Home.jsx:86 | `favoritesCount \|\| 0`: a number reads as itself (0 included), and a missing or non-numeric count reads as 0. |
| `Home.ListToggled` | src/pages/Home.jsx:82-87 | The toggled article: the new state, a count plus one or minus one clamped at 0 (an unlike of a count below 1 gives 0), and nothing else changed. |
| `Home.ApplyLikeToggle` | src/pages/Home.jsx:80-89 | Only articles with the slug change, by `ListToggled`; length and order are kept. |
| `Home.MergeOverrides` | src/pages/Home.jsx:47-50 | Each fetched article, with `favorited` replaced by the override-or-server value and nothing else changed. |
| `Home.Overridden` | src/pages/Home.jsx:49 | `likedArticles[slug] \|\| favorited`: on when the server says so or a stored `true` says so; with no stored entry, exactly the server value. |
| `Home.OverrideOnlyForcesOn` | src/pages/Home.jsx:49 | A stored `true` forces the like on, a stored `false` never turns off a server `true`, and a slug without an entry keeps the server value. |
| `Home.ListRoundTrip` | src/pages/Home.jsx:84-86 | Like then unlike in the list restores a non-negative count and the unliked state. |
| `Home.HomeQueryMatchesApi` | src/pages/Home.jsx:34-35 | The page's own request is the API helper's default request for that page. |
| `Home.InitialPage` | src/pages/Home.jsx:17-19 | `parseInt(stored) \|\| 1`: a stored text that parses to a non-zero number gives that number; a missing, unparsable or zero one gives 1. |
| `Home.InitialLiked` | src/pages/Home.jsx:21-24 | The overrides are the stored flag map when one is stored, and `{}` otherwise. |
| `Home.PageSurvivesReload` | src/pages/Home.jsx:17-71 | A page stored by the page change is the page restored after a reload. |
| `Home.LikeSurvivesReload` | src/pages/Home.jsx:21-50 | A stored like is applied to every article with that slug on the next fetch after a reload. |
| `Home.HomePage.constructor` | src/pages/Home.jsx:17-28 | Mount reads the page and overrides from storage and writes the overrides back. |
| `Home.HomePage.FetchArticles` | src/pages/Home.jsx:30-62 | Returns the query sent. The list is the merged articles and the count or 0. A failure or a body without articles empties both and sets `failed`. |
| `Home.HomePage.HandlePageChange` | src/pages/Home.jsx:69-72 | The current page is set and stored in decimal; the list, the total, the overrides and the loading and error flags are unchanged. |
| `Home.HomePage.HandleLikeToggle` | src/pages/Home.jsx:74-91 | The override is recorded and stored, and the list is `ApplyLikeToggle` of the old list; page, total and the loading and error flags are unchanged. |
| `ArticlePage.DetailToggled` | src/pages/ArticlePage.jsx:60-66 | The detail view's toggle: the new state and a count plus or minus one, unclamped; a missing count becomes `NaN`. |
| `ArticlePage.DetailRoundTrip` | src/pages/ArticlePage.jsx:64 | Toggling twice in opposite directions restores a numeric count exactly. |
| `ArticlePage.ListClampsDetailDoesNot` | src/pages/ArticlePage.jsx:64 | Unliking a count of 0: the list shows 0 and the detail page shows -1. |
| `ArticlePage.ViewsAgreeOnPositiveCounts` | src/pages/ArticlePage.jsx:61-65 | On a like, or an unlike of a positive count, the two views compute the same article. |
| `ArticlePage.AuthHeaders` | src/pages/ArticlePage.jsx:25-28 | An `Authorization: Token <jwt>` header exactly when the user has a non-empty token, and no other header. |
| `ArticlePage.IsOwner` | src/pages/ArticlePage.jsx:119 | The owner controls show iff a user is signed in and is the article's author. |
| `ArticlePage.Render` | src/pages/ArticlePage.jsx:68-70 | Loader while loading; otherwise the error text after a failure; otherwise not-found without an article; otherwise the article with owner controls iff `IsOwner`. |
| `ArticlePage.ArticleView.constructor` | src/pages/ArticlePage.jsx:16-18 | No article, loading, no error. |
| `ArticlePage.ArticleView.LoadArticle` | src/pages/ArticlePage.jsx:21-44 | Returns the headers sent (`AuthHeaders`). Ok sets the article, possibly absent. A failure sets the error and keeps the old article. Loading ends. |
| `ArticlePage.ArticleView.DeleteArticle` | src/pages/ArticlePage.jsx:46-58 | Navigates home only on an ok response; otherwise nothing changes. |
| `ArticlePage.ArticleView.HandleLikeToggle` | src/pages/ArticlePage.jsx:60-66 | The article becomes `DetailToggled` of the old one. |
| `ArticleForm.Changed` | src/pages/EditArticle.jsx:81-84 | The slot list with slot `i` replaced and every other slot kept. |
| `ArticleForm.Appended` | src/pages/EditArticle.jsx:88-92 | One more empty slot at the end. |
| `ArticleForm.Removed` | src/pages/EditArticle.jsx:94-100 | Slot `i` spliced out, except that a list of one slot or fewer is left as it is; never fewer than one slot. |
| `ArticleForm.Kept` | src/pages/EditArticle.jsx:106 | A slot is kept iff its trimmed text is non-empty. |
| `ArticleForm.Submitted` | src/pages/EditArticle.jsx:106 | The submitted tags contain no blank slot and are no more than the slots. |
| `ArticleForm.CopyOf` | src/pages/EditArticle.jsx:82 | `[...tagInputs]`: a fresh array holding the slots. |
| `ArticleForm.SpliceOne` | src/pages/EditArticle.jsx:96-97 | `splice(index, 1)` in place: the array's prefix before `i` followed by its suffix after `i`. |
| `ArticleForm.ChangeInPlace` | src/pages/EditArticle.jsx:81-84 | Copying and assigning one index gives `Changed`. |
| `ArticleForm.RemoveInPlace` | src/pages/EditArticle.jsx:94-98 | Copying and splicing gives `Removed`. |
| `ArticleForm.SubmittedKeepsOrder` | src/pages/EditArticle.jsx:106 | The submitted tags are a subsequence of the slots. |
| `ArticleForm.SubmittedCounts` | src/pages/EditArticle.jsx:106 | Each non-blank text is submitted as often as it fills a slot; a blank text never is. |
| `ArticleForm.SubmittedOfConcat` | src/pages/EditArticle.jsx:106 | Filtering distributes over concatenation. |
| `ArticleForm.AppendedSubmitsTheSame` | src/pages/NewArticle.jsx:86-88 | Adding an empty slot does not change what is submitted. |
| `ArticleForm.RemovingBlankSubmitsTheSame` | src/pages/NewArticle.jsx:90-95 | Removing a blank slot does not change what is submitted. |
| `ArticleForm.SlotsNeverRunOut` | src/pages/NewArticle.jsx:15-95 | The form starts with two slots, and change, append and remove never leave a non-empty slot list empty. |
| `EditArticle.FieldOr` | src/pages/EditArticle.jsx:48-50 | A stored non-empty text wins; a missing or empty one gives way to the server's. |
| `EditArticle.ServerSlots` | src/pages/EditArticle.jsx:56 | The server's tags when it has any, and exactly two empty slots when its list is empty. |
| `EditArticle.Loaded` | src/pages/EditArticle.jsx:48-57 | Title, description and body are each `FieldOr` of the draft and the server's value; a stored tag list wins, even an empty one. |
| `EditArticle.HasDraft` | src/pages/EditArticle.jsx:60 | The draft counts as present iff the stored title is a non-empty text; nothing but the title is consulted. |
| `EditArticle.Seeded` | src/pages/EditArticle.jsx:60-65 | Without a stored title, all four draft keys are overwritten with the server's article; otherwise storage is unchanged; other keys are always kept. |
| `EditArticle.Purged` | src/pages/EditArticle.jsx:133-136 | Exactly the four draft keys are removed. |
| `EditArticle.TypedFieldSurvivesReload` | src/pages/EditArticle.jsx:48-79 | A typed non-empty value is shown again after a reload. |
| `EditArticle.TagsSurviveReload` | src/pages/EditArticle.jsx:53-86 | Edited slots are shown again after a reload. |
| `EditArticle.PurgeRestoresServer` | src/pages/EditArticle.jsx:48-136 | After a successful update, the next load shows the server's article and reseeds the draft from it. |
| `EditArticle.PurgeKeepsToken` | src/pages/EditArticle.jsx:133-136 | The purge leaves the session token in storage. |
| `EditArticle.DraftLeaksAcrossArticles` | src/pages/EditArticle.jsx:48-65 | The draft is not per article: opening a second article shows the first one's title and tags. |
| `EditArticle.UntitledDraftIsOverwritten` | src/pages/EditArticle.jsx:48-65 | Without a stored title, a stored description is shown but overwritten in storage by the server's. |
| `EditArticle.LoadError` | src/pages/EditArticle.jsx:41-67 | A failed load always shows a non-empty text: the not-ok text for a refusal, the not-found text for a body without `article`. |
| `EditArticle.SubmitErrorAsWritten` | src/pages/EditArticle.jsx:139-144 | The catch block as written: the fixed text for a non-object, the values of an errors object joined by `, `, and the empty text for an `Error` instance. |
| `EditArticle.UnexplainedFailureShowsNothing` | src/pages/EditArticle.jsx:127-144 | As written, a network failure, a body without `errors` or an empty `errors` gives an empty text, which shows nothing. |
| `EditArticle.SubmitError` | src/pages/EditArticle.jsx:139-144 | The catch block as intended: never empty, and equal to the as-written text whenever that is non-empty. |
| `EditArticle.EveryFailureExplained` | src/pages/EditArticle.jsx:127-144 | Every failed update is explained to the user. |
| `EditArticle.EditArticlePage.constructor` | src/pages/EditArticle.jsx:15-18 | Loading, no error, not auth-checked, two empty slots. |
| `EditArticle.EditArticlePage.Mount` | src/pages/EditArticle.jsx:31-74 | Without a token, redirect to sign-in and nothing is fetched. Otherwise the form is `Loaded`, storage is `Seeded` on success, and a failure shows `LoadError`. |
| `EditArticle.EditArticlePage.HandleInputChange` | src/pages/EditArticle.jsx:77-79 | The typed value is stored under its key; nothing else changes. |
| `EditArticle.EditArticlePage.HandleTagChange` | src/pages/EditArticle.jsx:81-86 | The slots become `Changed` and are stored; loading, auth check and location are unchanged. |
| `EditArticle.EditArticlePage.AddTagInput` | src/pages/EditArticle.jsx:88-92 | The slots become `Appended` and are stored; loading, auth check and location are unchanged. |
| `EditArticle.EditArticlePage.RemoveTagInput` | src/pages/EditArticle.jsx:94-100 | The slots become `Removed`, and are stored only when something was removed; loading, auth check and location are unchanged. |
| `EditArticle.EditArticlePage.Submit` | src/pages/EditArticle.jsx:102-148 | Sends the fields and `Submitted` tags. On ok, purges the draft and navigates to the article. Otherwise shows `SubmitError`, which is the as-written text whenever that is non-empty. The auth check is unchanged. |
| `NewArticle.CreateErrors` | src/pages/NewArticle.jsx:68-74 | An object thrown is kept as the errors; a string becomes a `general` entry. |
| `NewArticle.ServerMessagesShown` | src/pages/NewArticle.jsx:68-127 | The line under a field is the server's messages for it, joined by `, `. |
| `NewArticle.OnlyServerFieldsShown` | src/pages/NewArticle.jsx:68-224 | A line appears under a shown field only if the server's errors object named that field. |
| `NewArticle.NewArticlePage.constructor` | src/pages/NewArticle.jsx:12-16 | Idle, no errors, not auth-checked, two empty slots, no flash. |
| `NewArticle.NewArticlePage.CheckAuth` | src/pages/NewArticle.jsx:18-24 | Without a token, redirect to sign-in; with one, the form is unlocked. Loading and the scheduled navigation are unchanged. |
| `NewArticle.NewArticlePage.HandleTagChange` | src/pages/NewArticle.jsx:80-84 | The slots become `Changed`; loading, auth check, location and scheduled navigation are unchanged. |
| `NewArticle.NewArticlePage.AddTagInput` | src/pages/NewArticle.jsx:86-88 | The slots become `Appended`; loading, auth check, location and scheduled navigation are unchanged. |
| `NewArticle.NewArticlePage.RemoveTagInput` | src/pages/NewArticle.jsx:90-95 | The slots become `Removed`; loading, auth check, location and scheduled navigation are unchanged. |
| `NewArticle.NewArticlePage.Submit` | src/pages/NewArticle.jsx:35-78 | Nothing is sent unless the three fields are filled. Success flashes and schedules home. Failure flashes and records `CreateErrors`. The auth check is unchanged. |
| `NewArticle.NewArticlePage.FlashTimerFires` | src/pages/NewArticle.jsx:26-33 | The flash is cleared and nothing else changes. |
| `NewArticle.NewArticlePage.NavigationTimerFires` | src/pages/NewArticle.jsx:67 | The scheduled navigation happens; loading and the auth check are unchanged. |
| `SignIn.LoginErrors` | src/pages/SignIn.jsx:43-52 | The refusal becomes one or two field entries. |
| `SignIn.Accepts` | src/pages/SignIn.jsx:80-110 | The sign-in rules accept iff the email matches `[^\s@]+@[^\s@]+\.[^\s@]+` and the password is at least six UTF-16 units. |
| `SignIn.LoginErrorsShown` | src/pages/SignIn.jsx:44-51 | The pair complaint shows under both fields. Otherwise the email's messages, else the password's, show, and never both. |
| `SignIn.UnstructuredRefusalIsGeneral` | src/pages/SignIn.jsx:50-51 | A network failure or a string yields only the `general` entry, and no field line. |
| `SignIn.SignInPage.constructor` | src/pages/SignIn.jsx:12-14 | Idle, no errors, no flash. |
| `SignIn.SignInPage.Submit` | src/pages/SignIn.jsx:16-57 | Nothing is sent if the rules fail. Success logs in, flashes and schedules home. A refusal records `LoginErrors` and flashes, except that a body without `errors` crashes the catch block: errors stay cleared and there is no flash. |
| `SignUp.RegisteredCanSignIn` | src/pages/SignUp.jsx:83-166 | Credentials the sign-up rules accept are accepted by the sign-in rules. |
| `SignUp.Accepts` | src/pages/SignUp.jsx:83-179 | The sign-up rules accept iff the username is 3 to 20 units, the email matches the pattern, the password is 6 to 40 units, the repeat equals it and the agreement is ticked. |
| `SignUp.SignInIsMoreLenient` | src/pages/SignUp.jsx:134-144 | Sign-in accepts passwords over forty units, which sign-up refuses. |
| `SignUp.RefusalShowsServerMessages` | src/pages/SignUp.jsx:53-55 | The field lines are the server's errors object's messages, and no line for any other failure. |
| `SignUp.SignUpPage.constructor` | src/pages/SignUp.jsx:12-14 | Idle, no errors, no flash. |
| `SignUp.SignUpPage.Submit` | src/pages/SignUp.jsx:25-60 | Nothing is sent if the rules fail. Success logs in, flashes and schedules home. Failure records the errors object or nothing, and flashes. |
| `SignUp.SignUpPage.FlashTimerFires` | src/pages/SignUp.jsx:16-23 | The flash is cleared; loading is unchanged. |
| `Profile.Defaults` | src/pages/Profile.jsx:9-15 | The form starts from the user's name, email and image, or empty ones, with an empty password. |
| `Profile.Payload` | src/pages/Profile.jsx:21-28 | Name and email always; a password and an image only when non-empty. |
| `Profile.Accepts` | src/pages/Profile.jsx:67-95 | The profile rules accept iff the username is 3 to 20 units, the email matches the pattern, a non-empty password is 6 to 40 units and a non-empty avatar matches the URL pattern. |
| `Profile.RequestFor` | src/pages/Profile.jsx:30-38 | A request only for a signed-in user, carrying that user's token. |
| `Profile.UnchangedFormSendsCurrentProfile` | src/pages/Profile.jsx:9-28 | Submitting the defaults re-sends the current name, email and non-empty image, and never a password. |
| `Profile.DefaultsPassOptionalRules` | src/pages/Profile.jsx:9-95 | The defaults pass the password rule, and the avatar rule when the user has no image. |
| `Profile.ProfilePage.constructor` | src/pages/Profile.jsx:8 | No error. |
| `Profile.ProfilePage.Submit` | src/pages/Profile.jsx:18-53 | Nothing is sent if the rules fail. Success logs the returned user in and goes home. Otherwise the fixed error text shows. |
| `Profile.ProfilePage.HandleLogout` | src/pages/Profile.jsx:55-58 | The session is logged out and the page goes home. |
| `Validation.EmailCheckSound` | src/pages/SignIn.jsx:83 | The executable email check accepts only strings of the form `[^\s@]+@[^\s@]+\.[^\s@]+`. |
| `Validation.EmailCheckComplete` | src/pages/SignIn.jsx:83 | Every string of that form passes the check. |
| `Validation.EmailCheckMatchesPattern` | src/pages/SignIn.jsx:83 | The check holds iff the string matches the pattern. |
| `Validation.EmailHasOneAt` | src/pages/SignIn.jsx:83 | An accepted email has exactly one `@`. |
| `Validation.UrlRestAtLeastTwoUnits` | src/pages/Profile.jsx:92 | What `[^\s$.?#].` matches after the scheme is at least two UTF-16 units long, an astral character filling both. |
| `Validation.UrlLongerThanScheme` | src/pages/Profile.jsx:92 | An accepted avatar URL is at least nine UTF-16 units long: a scheme and at least two units after it. |
| `Validation.UrlExamples` | src/pages/Profile.jsx:92 | `https://a b` is accepted, because only the first two characters are checked for spaces; `https://a` and `http://.ab` are refused. |
| `JsText.TrimEmptyIffBlank` | src/pages/EditArticle.jsx:106 | `trim()` is empty iff every character is whitespace. |
| `JsText.Utf16LengthOfBmp` | src/pages/SignIn.jsx:106-107 | For characters below U+10000 the UTF-16 length is the character count. |
| `JsText.ParseIntOfDecimal` | src/pages/Home.jsx:18 | `parseInt` of a decimal rendering gives the number back. |
| `JsText.Join` | src/pages/EditArticle.jsx:142 | `join` of no parts is empty and of one part is that part; it is non-empty when a part is, or when there are two parts and a non-empty separator. |
| `JsText.JoinSnoc` | src/pages/EditArticle.jsx:142 | Joining one more part appends the separator and that part. |
| `Net.ThrownOrError` | src/pages/NewArticle.jsx:63 | `result.errors \|\| new Error(...)`: an errors object or a non-empty string is thrown as is; a network failure, a missing `errors` or an empty string throws an `Error`; never `undefined`. |
| `Net.ThrownAsIs` | src/pages/SignIn.jsx:36-38 | `throw result.errors`: the errors object or string as is, `undefined` for a body without `errors`, and an `Error` for a network failure. |
| `Forms.FieldMessage` | src/pages/SignIn.jsx:90 | The line under a field exists iff the errors name it, and it is the messages joined by `, `. |

## Left out

- Rendering, styling, `alert`, `console.error`, Markdown, `toLocaleDateString`, and
  the components `App`, `Header`, `ArticleList`, `ErrorMessage` and
  `ConfirmationModal` are not part of this model. The deletion dialog is reduced to
  calling `DeleteArticle`.
- The HTTP transport, JSON decoding and status codes are abstracted into `Response`.
  A body that is not JSON is a `NetworkError`. A success body missing `user` (read as
  `result.user.token`) is not modelled: an `Ok` always carries a user.
- Timers are modelled as explicit steps. The five-second flash timers of the new-article
  and sign-up pages are steps. So is the 1.5-second navigation of the new-article page.
  For sign-in and sign-up the model only records that navigation is `scheduled`.
- Concurrency is modelled as request and response steps called in order.
  Interleaved requests, stale responses, and React's re-running of effects when their
  dependencies change are not modelled; those are further calls of the same methods.
- react-hook-form is not modelled. Its validated values are parameters of `Submit`,
  and its rule messages are not modelled. On the edit page the inputs pass their own
  `onChange` after the one that `register` supplies. Which values the library then
  submits depends on its internals.
- `Home.HomePage.FetchArticles`: the error text, the browser's or the API's, is a
  `failed` flag. The retry button is a further call.
- `ArticlePage.ArticleView.LoadArticle`: the error text (`data.message` or the
  fallback) is a `failed` flag.
- `EditArticle.EditArticlePage.Submit`: after a network failure, a body without
  `errors`, or an empty `errors` object, the source shows an empty error text, so no
  message appears. The page shows the corrected `SubmitError` text in its place.
  `UnexplainedFailureShowsNothing` states the as-written behaviour, and the page's
  contract states that both texts agree whenever the as-written one is non-empty.
- `EditArticle.LoadError`: for a network failure the browser's own `TypeError`
  message is shown. The model uses the fallback text in its place, so it promises
  only a non-empty text for that case.
- `Pagination.TotalPages` requires a positive page size. With 0, JavaScript divides
  to `Infinity` or `NaN` and `Array.from` throws. The component is not used by `Home`,
  which renders antd's pager.
- `Home.HomePage.HandlePageChange` requires a page of at least 1, which is what the
  pager reports.
- `Validation`: regexes are modelled for the three patterns the forms use, not in
  general. `\s` is the same set as `trim()`'s whitespace.
- `JsText.ParseInt` is exact on integers. `parseInt`'s loss of precision past 2^53
  is not modelled.
- Storage values of an unexpected JSON shape, for example a string under `tags` or
  `likedArticles`, read as absent.
- Duplicate keys in an errors object, and error values that are not arrays of
  strings, are not modelled.
- The profile route is not guarded. Without a user, submitting throws before sending,
  and the model shows the failure text.

## Findings

| source | as written | input that shows it | evidently intended | confidence | as-written member | corrected member |
|---|---|---|---|---|---|---|
| src/pages/EditArticle.jsx:127-144 | On a failed update the catch block shows `Object.values(errors).join(', ')` for any object. A failure without an errors object throws an `Error`, whose own properties are not enumerable, so the text is `''`. The guard at line 157 then shows nothing. | A network failure, a non-2xx body without `errors`, or `{"errors": {}}` | Some text is shown for every failed update, the fixed `Ошибка редактирования статьи` when the server gives none | not executed | `EditArticle.UnexplainedFailureShowsNothing` | `EditArticle.SubmitError` |
