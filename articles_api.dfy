/** The article payloads and the list endpoint's paging arithmetic (`src/api/articles.js`). */
module ArticlesApi {
  import opened Wrappers
  import opened Net

  datatype Author = Author(username: string, image: Option<string>)

  /** `favoritesCount` as JavaScript holds it: a number, absent, or `NaN` after
    * arithmetic on an absent count. */
  datatype Count = Num(n: int) | Missing | NotANumber

  datatype Article = Article(
    slug: string,
    title: string,
    description: string,
    body: string,
    tagList: seq<string>,
    author: Author,
    createdAt: string,
    favorited: bool,
    favoritesCount: Count)

  const DefaultPage := 1
  const DefaultLimit := 5

  /** The `limit` and `offset` query parameters of `GET /articles`. */
  datatype Query = Query(limit: int, offset: int)

  /** `(page - 1) * limit`: how many articles come before `page`. */
  function Offset(page: int, limit: int): (o: int)
    ensures page == 1 ==> o == 0
    ensures page >= 1 && limit >= 0 ==> o >= 0
    ensures o + limit == page * limit
  {
    (page - 1) * limit
  }

  /** `fetchArticles(page = 1, limit = 5)`; `None` is an omitted argument. */
  function ArticlesQuery(page: Option<int>, limit: Option<int>): (q: Query)
    ensures q.limit == limit.GetOr(DefaultLimit)
    ensures q.offset == Offset(page.GetOr(DefaultPage), q.limit)
    ensures page.GetOr(DefaultPage) == 1 ==> q.offset == 0
  {
    var l := limit.GetOr(DefaultLimit);
    Query(l, Offset(page.GetOr(DefaultPage), l))
  }

  /** Both fetchers return the decoded body of an ok response and throw otherwise;
    * `None` is the thrown error. */
  function Fetched<T>(response: Response<T>): (r: Option<T>)
    ensures r.Some? <==> response.Ok?
    ensures r.Some? ==> r.value == response.payload
  {
    if response.Ok? then Some(response.payload) else None
  }

  /** Called with no arguments, the first five articles are requested. */
  lemma DefaultQuery()
    ensures ArticlesQuery(None, None) == Query(5, 0)
  {
  }

  /** Consecutive pages are adjacent windows. */
  lemma {:induction false} NextPageFollows(page: int, limit: int)
    ensures Offset(page + 1, limit) == Offset(page, limit) + limit
  {
    assert page * limit == (page - 1) * limit + limit;
  }

  /** The window of an earlier page ends where a later page's begins or before. */
  lemma {:induction false} EarlierPagesComeFirst(p: int, q: int, limit: nat)
    requires p < q
    ensures Offset(p, limit) + limit <= Offset(q, limit)
    decreases q - p
  {
    NextPageFollows(p, limit);
    if p + 1 < q {
      EarlierPagesComeFirst(p + 1, q, limit);
    }
  }

  /** With a positive limit, every article position belongs to exactly one page. */
  lemma PageOfPosition(i: nat, limit: nat)
    requires limit > 0
    ensures var p := i / limit + 1;
      p >= 1 && Offset(p, limit) <= i < Offset(p, limit) + limit
    ensures forall q :: Offset(q, limit) <= i < Offset(q, limit) + limit ==> q == i / limit + 1
  {
    var p := i / limit + 1;
    assert Offset(p, limit) == (i / limit) * limit;
    forall q | Offset(q, limit) <= i < Offset(q, limit) + limit
      ensures q == p
    {
      if q < p {
        EarlierPagesComeFirst(q, p, limit);
      } else if q > p {
        EarlierPagesComeFirst(p, q, limit);
      }
    }
  }
}
