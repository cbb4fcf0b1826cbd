/** The article detail page: loading with an optional bearer header, the owner-only
  * controls, deletion, and the page's own copy of the favourite state. */
module ArticlePage {
  import opened Wrappers
  import opened Net
  import opened Session
  import opened ArticlesApi
  import Home

  /** The detail view's `handleLikeToggle` updater: plus or minus one, with no clamp;
    * arithmetic on a missing count gives `NaN`. */
  function DetailToggled(a: Article, newState: bool): (r: Article)
    ensures r.favorited == newState
    ensures r.(favorited := a.favorited, favoritesCount := a.favoritesCount) == a
    ensures a.favoritesCount.Num? ==>
      r.favoritesCount == Num(if newState then a.favoritesCount.n + 1 else a.favoritesCount.n - 1)
    ensures !a.favoritesCount.Num? ==> r.favoritesCount == NotANumber
  {
    var count := match a.favoritesCount
      case Num(n) => Num(if newState then n + 1 else n - 1)
      case _ => NotANumber;
    a.(favorited := newState, favoritesCount := count)
  }

  /** Liking then unliking, or the reverse, restores a numeric count exactly. */
  lemma DetailRoundTrip(a: Article, first: bool)
    requires a.favoritesCount.Num?
    ensures DetailToggled(DetailToggled(a, first), !first).favoritesCount == a.favoritesCount
  {
  }

  /** The two views disagree when a count of 0 is unliked: the list clamps at 0, the
    * detail page shows -1. */
  lemma ListClampsDetailDoesNot(a: Article)
    requires a.favoritesCount == Num(0)
    ensures Home.ListToggled(a, false).favoritesCount == Num(0)
    ensures DetailToggled(a, false).favoritesCount == Num(-1)
  {
  }

  /** Elsewhere the two views agree: liking, or unliking a positive count. */
  lemma ViewsAgreeOnPositiveCounts(a: Article, newState: bool)
    requires a.favoritesCount.Num? && (newState || a.favoritesCount.n >= 1)
    ensures Home.ListToggled(a, newState) == DetailToggled(a, newState)
  {
  }

  /** The headers of the load request: `Authorization: Token <jwt>` exactly when the
    * signed-in user has a non-empty token. */
  function AuthHeaders(user: Option<User>): (h: map<string, string>)
    ensures h.Keys <= {"Authorization"}
    ensures "Authorization" in h <==> user.Some? && user.value.token != ""
    ensures "Authorization" in h ==> h["Authorization"] == "Token " + user.value.token
  {
    if user.Some? && user.value.token != "" then map["Authorization" := "Token " + user.value.token]
    else map[]
  }

  /** `user?.username === article.author.username`: whether Delete and Edit are shown. */
  function IsOwner(user: Option<User>, a: Article): (r: bool)
    ensures r <==> user.Some? && user.value.username == a.author.username
  {
    match user
    case Some(u) => u.username == a.author.username
    case None => false
  }

  /** What the page renders, in the order its early returns test. */
  datatype Screen = Loader | ErrorText | NotFound | Detail(article: Article, ownerControls: bool)

  function Render(loading: bool, failed: bool, article: Option<Article>, user: Option<User>): (s: Screen)
    ensures loading ==> s == Loader
    ensures !loading && failed ==> s == ErrorText
    ensures !loading && !failed && article.None? ==> s == NotFound
    ensures s.Detail? <==> !loading && !failed && article.Some?
    ensures s.Detail? ==> s.article == article.value && (s.ownerControls <==> IsOwner(user, article.value))
  {
    if loading then Loader
    else if failed then ErrorText
    else if article.None? then NotFound
    else Detail(article.value, IsOwner(user, article.value))
  }

  class ArticleView {
    const slug: string
    var article: Option<Article>
    var loading: bool
    var failed: bool
    /** Where `navigate` has sent the browser, if anywhere. */
    var location: Option<string>

    constructor (slug: string)
      ensures this.slug == slug && article == None && loading && !failed && location == None
    {
      this.slug := slug;
      article := None;
      loading := true;
      failed := false;
      location := None;
    }

    /** `loadArticle`: returns the headers it sends. An ok body without `article` leaves
      * nothing to show; a failure sets the error and keeps the article; the error is
      * never cleared. */
    method LoadArticle(user: Option<User>, response: Response<Option<Article>>) returns (headers: map<string, string>)
      modifies this
      ensures headers == AuthHeaders(user)
      ensures !loading && location == old(location)
      ensures response.Ok? ==> article == response.payload && failed == old(failed)
      ensures !response.Ok? ==> article == old(article) && failed
    {
      loading := true;
      headers := map[];
      if user.Some? && user.value.token != "" {
        headers := headers["Authorization" := "Token " + user.value.token];
      }
      if response.Ok? {
        article := response.payload;
      } else {
        failed := true;
      }
      loading := false;
    }

    /** `deleteArticle`: to `/` after an ok response only; on failure the user is
      * alerted and the page stays. */
    method DeleteArticle(response: Response<()>)
      modifies this
      ensures response.Ok? ==> location == Some("/")
      ensures !response.Ok? ==> location == old(location)
      ensures article == old(article) && loading == old(loading) && failed == old(failed)
    {
      if response.Ok? {
        location := Some("/");
      }
    }

    /** `handleLikeToggle(newState)`, the like button's callback; the button is only
      * rendered once the article is there. */
    method HandleLikeToggle(newState: bool)
      requires article.Some?
      modifies this
      ensures article == Some(DetailToggled(old(article).value, newState))
      ensures loading == old(loading) && failed == old(failed) && location == old(location)
    {
      article := Some(DetailToggled(article.value, newState));
    }
  }
}
