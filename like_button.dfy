/** `LikeButton`: favourite or unfavourite an article, and tell the parent the new
  * state only once the server has confirmed it. */
module LikeButton {
  import opened Wrappers
  import opened Net
  import opened Session

  datatype Method = Post | Delete

  /** `POST` or `DELETE /articles/{slug}/favorite`, sent with the bearer token. */
  datatype FavoriteRequest = FavoriteRequest(slug: string, verb: Method, token: string)

  /** Unfavouriting is a `DELETE`, favouriting a `POST`. */
  function MethodFor(favorited: bool): (m: Method)
    ensures m == Delete <==> favorited
  {
    if favorited then Delete else Post
  }

  /** The request a click sends: none at all without a token (the user is alerted). */
  function RequestFor(slug: string, token: Option<string>, favorited: bool): (r: Option<FavoriteRequest>)
    ensures r.Some? <==> HasToken(token)
    ensures r.Some? ==> r.value.slug == slug && r.value.token == token.value
    ensures r.Some? ==> (r.value.verb == Delete <==> favorited)
  {
    if HasToken(token) then Some(FavoriteRequest(slug, MethodFor(favorited), token.value)) else None
  }

  /** What `onLikeToggle` receives once the request settles: `!favorited` after an ok
    * response, nothing after a failed one (the user is alerted). */
  function Reported(favorited: bool, response: Response<()>): (r: Option<bool>)
    ensures r.Some? <==> response.Ok?
    ensures r.Some? ==> r.value != favorited
  {
    if response.Ok? then Some(!favorited) else None
  }

  /** One click from start to finish: what is sent and what the parent is told. */
  datatype Effect = Effect(request: Option<FavoriteRequest>, reported: Option<bool>)

  function Toggle(slug: string, token: Option<string>, favorited: bool, response: Response<()>): (e: Effect)
    ensures e.request == RequestFor(slug, token, favorited)
    ensures e.reported.Some? <==> HasToken(token) && response.Ok?
    ensures e.reported.Some? ==> e.reported.value == !favorited
  {
    var request := RequestFor(slug, token, favorited);
    Effect(request, if request.Some? then Reported(favorited, response) else None)
  }

  /** Without a token nothing is sent and the parent hears nothing. */
  lemma ToggleWithoutToken(slug: string, token: Option<string>, favorited: bool, response: Response<()>)
    requires !HasToken(token)
    ensures Toggle(slug, token, favorited, response) == Effect(None, None)
  {
  }

  /** The parent hears exactly when a request was sent and confirmed, and then it hears
    * the flipped state. */
  lemma ToggleReportsOnlyConfirmed(slug: string, token: Option<string>, favorited: bool, response: Response<()>)
    ensures var e := Toggle(slug, token, favorited, response);
      (e.reported.Some? <==> HasToken(token) && response.Ok?)
      && (e.reported.Some? ==> e.reported == Some(!favorited))
      && (e.request.Some? ==> e.request.value.verb == MethodFor(favorited))
  {
  }

  class LikeButton {
    const slug: string
    /** The button's `isLoading` state; the button is `disabled` while it is set. */
    var isLoading: bool
    /** The `favorited` prop as the click in flight saw it. */
    var pending: Option<bool>

    ghost predicate Valid()
      reads this
    {
      isLoading <==> pending.Some?
    }

    constructor (slug: string)
      ensures Valid() && this.slug == slug && !isLoading
    {
      this.slug := slug;
      isLoading := false;
      pending := None;
    }

    /** `toggleLike` up to the `await`: a disabled button ignores the click, a missing
      * token alerts, otherwise `isLoading` is set and the request goes out. */
    method Click(token: Option<string>, favorited: bool) returns (request: Option<FavoriteRequest>)
      requires Valid()
      modifies this
      ensures Valid()
      ensures old(isLoading) ==> request == None && isLoading && pending == old(pending)
      ensures !old(isLoading) ==> request == RequestFor(slug, token, favorited)
      ensures !old(isLoading) ==> pending == (if request.Some? then Some(favorited) else None)
    {
      if isLoading {
        return None;
      }
      if !HasToken(token) {
        return None;
      }
      isLoading := true;
      pending := Some(favorited);
      request := Some(FavoriteRequest(slug, MethodFor(favorited), token.value));
    }

    /** `toggleLike` after the `await`: the callback on success, and `isLoading` cleared
      * in `finally` on every path. */
    method Settle(response: Response<()>) returns (reported: Option<bool>)
      requires Valid() && isLoading
      modifies this
      ensures Valid() && !isLoading
      ensures reported == Reported(old(pending).value, response)
    {
      if response.Ok? {
        reported := Some(!pending.value);
      } else {
        reported := None;
      }
      isLoading := false;
      pending := None;
    }
  }

  /** A click followed by its response does what `Toggle` says; a second click while the
    * first is in flight sends nothing. */
  method ClickTwiceThenSettle(b: LikeButton, token: Option<string>, favorited: bool, response: Response<()>)
    returns (first: Option<FavoriteRequest>, second: Option<FavoriteRequest>, reported: Option<bool>)
    requires b.Valid() && !b.isLoading
    modifies b
    ensures Effect(first, reported) == Toggle(b.slug, token, favorited, response)
    ensures second == None
  {
    first := b.Click(token, favorited);
    second := b.Click(token, !favorited);
    if first.Some? {
      reported := b.Settle(response);
    } else {
      reported := None;
    }
  }
}
