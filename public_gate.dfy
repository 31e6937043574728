/** The whole-site middleware of older.middleware.disabled.ts: public paths,
    the redirect of signed-out visitors to the login page and of signed-in
    visitors away from the entry pages. The session lookup is the
    `signedIn` input; the query string is carried along unchanged. */
module PublicGate {
  import opened Text
  import opened UrlQuery

  /** `BASE` */
  const Base: string := "/agb"
  const LoginPath: string := "/agb/login"
  const HubPath: string := "/agb/hub"

  /** `isPublicPath` */
  predicate IsPublicPath(path: string)
  {
    if path == "/" || path == Base + "/login" || StartsWith(path, Base + "/auth") then true
    else if StartsWith(path, "/_next") then true
    else if StartsWith(path, "/favicon") then true
    else if StartsWith(path, Base + "/images") then true
    else false
  }

  /** The entry pages a signed-in visitor is sent away from. */
  predicate IsEntryPage(path: string)
  {
    path == "/" || path == Base + "/" || path == Base + "/login"
  }

  datatype Outcome = Pass | Redirect(path: string, query: Params)

  /** `middleware` */
  function Gate(path: string, query: Params, signedIn: bool): (o: Outcome)
    ensures !signedIn ==> (o.Redirect? <==> !IsPublicPath(path))
    ensures signedIn ==> (o.Redirect? <==> IsEntryPage(path))
    ensures o.Redirect? ==> o.query == query
    ensures o.Redirect? ==> o.path == (if signedIn then HubPath else LoginPath)
  {
    if !signedIn && !IsPublicPath(path) then Redirect(Base + "/login", query)
    else if signedIn && IsEntryPage(path) then Redirect(Base + "/hub", query)
    else Pass
  }

  /** The public paths are exactly the listed pages and prefixes; a prefix
      is matched as text, so `/agb/authority` is public too. */
  lemma PublicPaths(path: string)
    ensures IsPublicPath(path) <==>
      || path == "/" || path == LoginPath
      || StartsWith(path, "/agb/auth") || StartsWith(path, "/_next")
      || StartsWith(path, "/favicon") || StartsWith(path, "/agb/images")
    ensures IsPublicPath("/agb/authority")
    ensures !IsPublicPath("/agb/hub") && !IsPublicPath("/agb/") && !IsPublicPath("/agb/login/")
  {
    assert ("/agb/authority")[..9] == "/agb/auth";
    assert ("/agb/hub")[5] != ("/agb/auth")[5] && ("/agb/hub")[5] != ("/agb/images")[5];
    assert ("/agb/login/")[5] != ("/agb/auth")[5] && ("/agb/login/")[5] != ("/agb/images")[5];
  }

  /** Following a redirect never redirects again. */
  lemma RedirectTargetsPass(path: string, query: Params, signedIn: bool)
    requires Gate(path, query, signedIn).Redirect?
    ensures var o := Gate(path, query, signedIn); Gate(o.path, o.query, signedIn) == Pass
  {
    assert !IsEntryPage(HubPath) by {
      assert HubPath != Base + "/" && HubPath != Base + "/login";
    }
    assert IsPublicPath(LoginPath);
  }
}
