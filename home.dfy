/** The article list page (`Home`): paging, the per-slug like overrides kept in storage,
  * and the list's own copy of each article's favourite state. */
module Home {
  import opened Wrappers
  import opened Storage
  import opened Net
  import opened JsText
  import opened ArticlesApi

  const ArticlesPerPage := 5
  const PageKey := "currentPage"
  const LikedKey := "likedArticles"

  /** `article.favoritesCount || 0`: a missing count, `NaN` and 0 all read as 0. */
  function CountOrZero(c: Count): (n: int)
    ensures c.Num? ==> n == c.n
    ensures !c.Num? ==> n == 0
  {
    if c.Num? then c.n else 0
  }

  /** The list view's update of the article that was toggled: the count goes up by one,
    * or down by one but never below zero. */
  function ListToggled(a: Article, newState: bool): (r: Article)
    ensures r.favorited == newState && r.favoritesCount.Num?
    ensures r.(favorited := a.favorited, favoritesCount := a.favoritesCount) == a
    ensures newState ==> r.favoritesCount.n == CountOrZero(a.favoritesCount) + 1
    ensures !newState ==> r.favoritesCount.n >= 0
    ensures !newState && CountOrZero(a.favoritesCount) >= 1 ==>
      r.favoritesCount.n == CountOrZero(a.favoritesCount) - 1
    ensures !newState && CountOrZero(a.favoritesCount) < 1 ==> r.favoritesCount.n == 0
  {
    var before := CountOrZero(a.favoritesCount);
    var n := if newState then before + 1 else if before - 1 > 0 then before - 1 else 0;
    a.(favorited := newState, favoritesCount := Num(n))
  }

  /** `handleLikeToggle`'s `setArticles` updater: only articles with the slug change,
    * and the list keeps its length and order. */
  function ApplyLikeToggle(articles: seq<Article>, slug: string, newState: bool): (r: seq<Article>)
    ensures |r| == |articles|
    ensures forall i :: 0 <= i < |r| && articles[i].slug != slug ==> r[i] == articles[i]
    ensures forall i :: 0 <= i < |r| && articles[i].slug == slug ==> r[i] == ListToggled(articles[i], newState)
  {
    seq(|articles|, i requires 0 <= i < |articles| =>
      if articles[i].slug == slug then ListToggled(articles[i], newState) else articles[i])
  }

  /** `likedArticles[article.slug] || article.favorited`. */
  function Overridden(liked: map<string, bool>, a: Article): (on: bool)
    ensures a.favorited ==> on
    ensures a.slug in liked && liked[a.slug] ==> on
    ensures a.slug !in liked ==> on == a.favorited
  {
    (a.slug in liked && liked[a.slug]) || a.favorited
  }

  /** The merge in `fetchArticles`: each fetched article with its favourite state
    * overridden from the map, and nothing else changed. */
  function MergeOverrides(liked: map<string, bool>, fetched: seq<Article>): (r: seq<Article>)
    ensures |r| == |fetched|
    ensures forall i :: 0 <= i < |r| ==> r[i] == fetched[i].(favorited := Overridden(liked, fetched[i]))
  {
    seq(|fetched|, i requires 0 <= i < |fetched| => fetched[i].(favorited := Overridden(liked, fetched[i])))
  }

  /** The override can force `favorited` on but never off: a stored `false` leaves a
    * server `true` standing, and a slug without an entry keeps the server's value. */
  lemma OverrideOnlyForcesOn(liked: map<string, bool>, fetched: seq<Article>, i: nat)
    requires i < |fetched|
    ensures var r := MergeOverrides(liked, fetched);
      (fetched[i].favorited ==> r[i].favorited)
      && (fetched[i].slug in liked && liked[fetched[i].slug] ==> r[i].favorited)
      && (fetched[i].slug !in liked ==> r[i].favorited == fetched[i].favorited)
      && (r[i].favorited <==> fetched[i].favorited || (fetched[i].slug in liked && liked[fetched[i].slug]))
  {
  }

  /** Liking then unliking in the list restores a non-negative count (a missing one
    * becomes 0). */
  lemma ListRoundTrip(a: Article)
    requires CountOrZero(a.favoritesCount) >= 0
    ensures ListToggled(ListToggled(a, true), false).favoritesCount == Num(CountOrZero(a.favoritesCount))
    ensures ListToggled(ListToggled(a, true), false).favorited == false
  {
  }

  /** The request offset for a page, at five articles per page. */
  function HomeOffset(page: int): int {
    Offset(page, ArticlesPerPage)
  }

  /** The page's request is the one the API helper makes for that page by default. */
  lemma HomeQueryMatchesApi(page: int)
    ensures Query(ArticlesPerPage, HomeOffset(page)) == ArticlesQuery(Some(page), None)
  {
  }

  /** `parseInt(localStorage.getItem('currentPage')) || 1`: `NaN` and 0 both give 1. */
  function InitialPage(stored: Option<string>): (p: int)
    ensures p != 0
    ensures stored.None? ==> p == 1
    ensures stored.Some? && ParseInt(stored.value).Some? && ParseInt(stored.value).value != 0 ==>
      p == ParseInt(stored.value).value
    ensures stored.Some? && (ParseInt(stored.value).None? || ParseInt(stored.value).value == 0) ==> p == 1
  {
    var parsed := if stored.None? then None else ParseInt(stored.value);
    if parsed.None? || parsed.value == 0 then 1 else parsed.value
  }

  /** A page stored by `handlePageChange` is the page restored after a reload. */
  lemma PageSurvivesReload(page: nat)
    requires page >= 1
    ensures InitialPage(Some(Decimal(page))) == page
  {
    ParseIntOfDecimal(page);
  }

  /** The overrides read back on mount; anything else under the key reads as `{}`. */
  function InitialLiked(store: Store): (liked: map<string, bool>)
    ensures LikedKey in store && store[LikedKey].Flags? ==> liked == store[LikedKey].flags
    ensures !(LikedKey in store && store[LikedKey].Flags?) ==> liked == map[]
  {
    if LikedKey in store && store[LikedKey].Flags? then store[LikedKey].flags else map[]
  }

  /** A like is remembered across a reload, whatever the server then reports. */
  lemma LikeSurvivesReload(store: Store, liked: map<string, bool>, slug: string, fetched: seq<Article>)
    ensures var after := store[LikedKey := Flags(liked[slug := true])];
      forall i :: 0 <= i < |fetched| && fetched[i].slug == slug ==>
        MergeOverrides(InitialLiked(after), fetched)[i].favorited
  {
  }

  /** The decoded body of `GET /articles`. */
  datatype ListPayload = ListPayload(articles: Option<seq<Article>>, articlesCount: Option<int>)

  /** The page's own state and the two storage keys it owns. */
  class HomePage {
    var articles: seq<Article>
    var totalArticles: int
    var loading: bool
    var failed: bool
    var currentPage: int
    var liked: map<string, bool>
    var store: Store

    /** Mount: the page and the overrides are read from storage, and the override
      * effect writes the overrides back. */
    constructor (storage: Store)
      ensures currentPage == InitialPage(GetStr(storage, PageKey))
      ensures liked == InitialLiked(storage)
      ensures store == storage[LikedKey := Flags(liked)]
      ensures articles == [] && totalArticles == 0 && loading && !failed
    {
      articles := [];
      totalArticles := 0;
      loading := true;
      failed := false;
      currentPage := InitialPage(GetStr(storage, PageKey));
      var overrides := InitialLiked(storage);
      liked := overrides;
      store := storage[LikedKey := Flags(overrides)];
    }

    /** `fetchArticles(page)`: returns the query it sends; `response` is what came back.
      * A failure, or a body without `articles`, empties the list. */
    method FetchArticles(page: int, response: Response<ListPayload>) returns (query: Query)
      modifies this
      ensures query == Query(ArticlesPerPage, HomeOffset(page))
      ensures !loading
      ensures liked == old(liked) && store == old(store) && currentPage == old(currentPage)
      ensures failed <==> !(response.Ok? && response.payload.articles.Some?)
      ensures failed ==> articles == [] && totalArticles == 0
      ensures !failed ==> articles == MergeOverrides(liked, response.payload.articles.value)
      ensures !failed ==> totalArticles == response.payload.articlesCount.GetOr(0)
    {
      loading := true;
      failed := false;
      query := Query(ArticlesPerPage, HomeOffset(page));
      if response.Ok? && response.payload.articles.Some? {
        articles := MergeOverrides(liked, response.payload.articles.value);
        totalArticles := response.payload.articlesCount.GetOr(0);
      } else {
        failed := true;
        articles := [];
        totalArticles := 0;
      }
      loading := false;
    }

    /** `handlePageChange`: the antd pager only reports pages from 1 on. */
    method HandlePageChange(page: nat)
      requires page >= 1
      modifies this
      ensures currentPage == page
      ensures store == old(store)[PageKey := Str(Decimal(page))]
      ensures articles == old(articles) && liked == old(liked)
      ensures totalArticles == old(totalArticles) && loading == old(loading) && failed == old(failed)
    {
      currentPage := page;
      store := store[PageKey := Str(Decimal(page))];
    }

    /** `handleLikeToggle(slug, newState)`, with the override effect that follows it. */
    method HandleLikeToggle(slug: string, newState: bool)
      modifies this
      ensures liked == old(liked)[slug := newState]
      ensures store == old(store)[LikedKey := Flags(liked)]
      ensures articles == ApplyLikeToggle(old(articles), slug, newState)
      ensures currentPage == old(currentPage) && totalArticles == old(totalArticles)
      ensures loading == old(loading) && failed == old(failed)
    {
      liked := liked[slug := newState];
      articles := ApplyLikeToggle(articles, slug, newState);
      store := store[LikedKey := Flags(liked)];
    }
  }
}
