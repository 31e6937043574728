/** The auth callback route of app/auth/callback/route.ts. The code exchange
    and `setSession` are foreign calls: the code exchange does not change
    the redirect, and the error `setSession` reports is an input. */
module AuthCallback {
  import opened Wrappers
  import opened Text
  import opened UrlQuery

  /** `url.searchParams.get('next') ?? '/hub'` */
  function NextOrDefault(query: Params): (n: string)
    ensures Get(query, "next").None? ==> n == "/hub"
    ensures Get(query, "next").Some? ==> n == Get(query, "next").value
  {
    Get(query, "next").GetOr("/hub")
  }

  /** `next.startsWith('/agb') ? next : '/agb' + next` */
  function Dest(next: string): (d: string)
    ensures StartsWith(d, "/agb")
    ensures StartsWith(next, "/agb") <==> d == next
    ensures !StartsWith(next, "/agb") ==> d[4..] == next
  {
    if StartsWith(next, "/agb") then next else "/agb" + next
  }

  /** `GET`: the path the callback redirects to. */
  function CallbackTarget(query: Params): (d: string)
    ensures StartsWith(d, "/agb")
  {
    Dest(NextOrDefault(query))
  }

  /** Prefixing is idempotent, and the result is a same-origin absolute
      path: it starts with `/` and not with `//`. */
  lemma DestIdempotent(next: string)
    ensures Dest(Dest(next)) == Dest(next)
    ensures var d := Dest(next); |d| >= 2 && d[0] == '/' && d[1] != '/'
  {
  }

  /** Without a `next` parameter the callback lands on `/agb/hub`. */
  lemma DefaultTarget(query: Params)
    requires Get(query, "next").None?
    ensures CallbackTarget(query) == "/agb/hub"
  {
    assert !StartsWith("/hub", "/agb") by {
      assert ("/hub")[1] != ("/agb")[1];
    }
  }

  /** With a `next` parameter the callback lands on it, prefixed with `/agb`
      unless it already starts with it. */
  lemma ExplicitNextTarget(query: Params, next: string)
    requires Get(query, "next") == Some(next)
    ensures StartsWith(next, "/agb") ==> CallbackTarget(query) == next
    ensures !StartsWith(next, "/agb") ==> CallbackTarget(query) == "/agb" + next
  {
  }

  datatype Reply = Reply(status: nat, ok: bool, error: Option<string>)

  /** JavaScript truthiness of a token field. */
  predicate Present(token: Option<string>)
  {
    token.Some? && token.value != ""
  }

  /** `POST`: missing tokens are refused before the session is set; the
      error `setSession` reports, if any, is `sessionError`. */
  function Post(access: Option<string>, refresh: Option<string>, sessionError: Option<string>)
    : (r: Reply)
    ensures !Present(access) || !Present(refresh) ==> r == Reply(400, false, Some("Missing tokens"))
    ensures Present(access) && Present(refresh) && sessionError.Some? ==>
              r == Reply(400, false, sessionError)
    ensures Present(access) && Present(refresh) && sessionError.None? ==> r == Reply(200, true, None)
    ensures r.ok <==> r.status == 200
  {
    if !Present(access) || !Present(refresh) then Reply(400, false, Some("Missing tokens"))
    else if sessionError.Some? then Reply(400, false, Some(sessionError.value))
    else Reply(200, true, None)
  }

  /** With a token missing the reply does not depend on the session call. */
  lemma MissingTokensSkipSession(access: Option<string>, refresh: Option<string>,
                                 e1: Option<string>, e2: Option<string>)
    requires !Present(access) || !Present(refresh)
    ensures Post(access, refresh, e1) == Post(access, refresh, e2)
  {
  }
}
