/** The protected-route middleware of middleware.auth.bak.ts. The session
    lookup is a foreign call; its outcome is the `signedIn` input. */
module AuthGuard {
  import opened Wrappers
  import opened Text
  import opened UrlQuery

  /** `PROTECTED` */
  const Protected: seq<string> :=
    ["/agb/hub", "/agb/play", "/agb/archive", "/agb/deck-builder", "/agb/vault"]

  const LoginPath: string := "/agb/login"

  /** A path is under `root`: the root itself or below it. */
  predicate Under(path: string, root: string)
  {
    path == root || StartsWith(path, root + "/")
  }

  /** Being under a root means starting with it and either ending there or
      going on with a `/`. */
  lemma UnderSegment(path: string, root: string)
    ensures Under(path, root) <==>
      StartsWith(path, root) && (|path| == |root| || path[|root|] == '/')
  {
    if StartsWith(path, root + "/") {
      assert path[..|root|] == (path[..|root| + 1])[..|root|];
    }
    if StartsWith(path, root) && |path| != |root| && path[|root|] == '/' {
      assert path[..|root| + 1] == path[..|root|] + [path[|root|]];
    }
  }

  /** `needsAuth`: the path is one of the protected roots or lies below one
      of them, a whole path segment at a time. */
  function NeedsAuth(path: string): (b: bool)
    ensures b <==> exists i :: 0 <= i < |Protected| && Under(path, Protected[i])
    ensures b <==> exists i :: 0 <= i < |Protected| && StartsWith(path, Protected[i])
                           && (|path| == |Protected[i]| || path[|Protected[i]|] == '/')
  {
    forall i | 0 <= i < |Protected| {
      UnderSegment(path, Protected[i]);
    }
    exists root :: root in Protected && Under(path, root)
  }

  /** What the middleware answers. */
  datatype Outcome = Continue | Redirect(path: string, query: Params)

  /** `middleware` for a request to `path` with query `query`. */
  function Middleware(path: string, query: Params, signedIn: bool): (o: Outcome)
    ensures !NeedsAuth(path) ==> o == Continue
    ensures NeedsAuth(path) && signedIn ==> o == Continue
    ensures NeedsAuth(path) && !signedIn ==>
              o.Redirect? && o.path == LoginPath && Get(o.query, "next") == Some(path)
  {
    if !NeedsAuth(path) then Continue
    else if !signedIn then
      SetSpec(query, "next", path);
      Redirect(LoginPath, Set(query, "next", path))
    else Continue
  }

  /** An unprotected path passes whatever the session: it is never looked up. */
  lemma UnprotectedIgnoresSession(path: string, query: Params)
    requires !NeedsAuth(path)
    ensures Middleware(path, query, true) == Middleware(path, query, false) == Continue
  {
  }

  /** The redirect keeps every other query parameter as it was. */
  lemma RedirectKeepsOtherParams(path: string, query: Params, name: string)
    requires NeedsAuth(path) && name != "next"
    ensures Get(Middleware(path, query, false).query, name) == Get(query, name)
  {
    SetSpec(query, "next", path);
  }

  /** Only whole segments count: a root followed by more letters is not
      under it. */
  lemma HubxIsNotProtected()
    ensures !NeedsAuth("/agb/hubx")
    ensures NeedsAuth("/agb/hub") && NeedsAuth("/agb/hub/x")
  {
    assert Under("/agb/hub/x", Protected[0]) by {
      assert ("/agb/hub/x")[..|"/agb/hub/"|] == "/agb/hub/";
    }
    assert Under("/agb/hub", Protected[0]);
    forall i | 0 <= i < |Protected|
      ensures !Under("/agb/hubx", Protected[i])
    {
      var p := Protected[i];
      assert !StartsWith("/agb/hubx", p + "/") by {
        if i == 0 {
          assert ("/agb/hubx")[8] != (p + "/")[8];
        } else {
          assert ("/agb/hubx")[5] != (p + "/")[5];
        }
      }
    }
  }

  /** The login page is not protected, so the redirect target itself
      passes. */
  lemma LoginPasses(query: Params, signedIn: bool)
    ensures Middleware(LoginPath, query, signedIn) == Continue
  {
    forall i | 0 <= i < |Protected|
      ensures !Under(LoginPath, Protected[i])
    {
      assert LoginPath[5] != (Protected[i] + "/")[5];
      assert LoginPath[5] != Protected[i][5];
    }
  }

  /** One entry of `config.matcher`: a literal path or a root with the
      `/:path*` suffix, which matches the root and everything below it. */
  const PathSuffix: string := "/:path*"

  predicate MatchesEntry(path: string, entry: string)
  {
    if |entry| >= |PathSuffix| && entry[|entry| - |PathSuffix|..] == PathSuffix
    then Under(path, entry[..|entry| - |PathSuffix|])
    else path == entry
  }

  /** `config.matcher` */
  const Matcher: seq<string> :=
    ["/agb/hub", "/agb/hub/:path*", "/agb/play", "/agb/play/:path*",
     "/agb/archive", "/agb/archive/:path*", "/agb/deck-builder", "/agb/deck-builder/:path*",
     "/agb/vault", "/agb/vault/:path*"]

  lemma MatcherPairs(k: nat)
    requires k < |Protected|
    ensures Matcher[2 * k] == Protected[k]
    ensures Matcher[2 * k + 1] == Protected[k] + PathSuffix
  {
  }

  lemma EntryForms(path: string, root: string)
    requires |root| >= 1 && root[|root| - 1] != '*'
    ensures MatchesEntry(path, root) ==> Under(path, root)
    ensures MatchesEntry(path, root + PathSuffix) <==> Under(path, root)
  {
    var e := root + PathSuffix;
    assert e[|e| - |PathSuffix|..] == PathSuffix;
    assert e[..|e| - |PathSuffix|] == root;
    assert |root| >= |PathSuffix| ==> root[|root| - |PathSuffix|..][|PathSuffix| - 1] == root[|root| - 1];
  }

  lemma MatcherCoversProtected(path: string, k: nat)
    requires k < |Protected| && Under(path, Protected[k])
    ensures MatchesEntry(path, Matcher[2 * k + 1])
  {
    MatcherPairs(k);
    EntryForms(path, Protected[k]);
  }

  lemma MatcherOnlyProtected(path: string, i: nat)
    requires i < |Matcher| && MatchesEntry(path, Matcher[i])
    ensures NeedsAuth(path)
  {
    var k := i / 2;
    MatcherPairs(k);
    EntryForms(path, Protected[k]);
    assert Under(path, Protected[k]);
    assert Protected[k] in Protected;
  }

  /** The matcher runs the middleware on exactly the paths that need
      auth. */
  lemma MatcherIsProtected(path: string)
    ensures (exists i :: 0 <= i < |Matcher| && MatchesEntry(path, Matcher[i])) <==> NeedsAuth(path)
  {
    if NeedsAuth(path) {
      var k :| 0 <= k < |Protected| && Under(path, Protected[k]);
      MatcherCoversProtected(path, k);
    }
    if exists i :: 0 <= i < |Matcher| && MatchesEntry(path, Matcher[i]) {
      var i :| 0 <= i < |Matcher| && MatchesEntry(path, Matcher[i]);
      MatcherOnlyProtected(path, i);
    }
  }
}
