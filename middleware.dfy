/** The routing decision of the session middleware
    (src/lib/supabase/middleware.ts): anonymous visitors to a protected page
    are sent to the login page with the page they wanted in `redirect`;
    signed-in visitors to an authentication page are sent to the dashboard.

    Refreshing the session cookies is not modelled; whether a user came back
    from the authentication service is the parameter `signedIn`. */
module SessionMiddleware {
  import opened Js

  /** The parts of `request.nextUrl` the middleware reads or changes; the
      search parameters are an ordered list of name/value pairs. */
  datatype Url = Url(origin: string, pathname: string, search: seq<(string, string)>, hash: string)

  datatype Decision = Continue | RedirectTo(url: Url)

  const LOGIN_PATH: string := "/login"
  const HOME_PATH: string := "/"
  const REDIRECT_PARAM: string := "redirect"

  /** Exact matches and prefix matches, as `===` and `startsWith`. */
  predicate IsProtectedRoute(pathname: string)
  {
    || pathname == "/"
    || "/requests" <= pathname
    || "/requesters" <= pathname
    || "/reports" <= pathname
    || "/settings" <= pathname
  }

  predicate IsAuthPage(pathname: string)
  {
    pathname == "/login" || pathname == "/signup" || pathname == "/forgot-password"
  }

  /** The values of the parameters called `name`, in order (`getAll`). */
  function GetAll(search: seq<(string, string)>, name: string): (values: seq<string>)
    ensures |values| <= |search|
  {
    if search == [] then []
    else (if search[0].0 == name then [search[0].1] else []) + GetAll(search[1..], name)
  }

  function NameIsNot(name: string): ((string, string)) -> bool
  {
    (p: (string, string)) => p.0 != name
  }

  /** `URLSearchParams.set`: the first parameter called `name` takes the
      value and later ones are removed; with none, the pair is appended. */
  function SetParam(search: seq<(string, string)>, name: string, value: string): seq<(string, string)>
  {
    if search == [] then [(name, value)]
    else if search[0].0 == name then [(name, value)] + Filter(search[1..], NameIsNot(name))
    else [search[0]] + SetParam(search[1..], name, value)
  }

  function UpdateSession(url: Url, signedIn: bool): Decision
  {
    if IsProtectedRoute(url.pathname) && !signedIn then
      RedirectTo(url.(pathname := LOGIN_PATH, search := SetParam(url.search, REDIRECT_PARAM, url.pathname)))
    else if IsAuthPage(url.pathname) && signedIn then
      RedirectTo(url.(pathname := HOME_PATH))
    else
      Continue
  }

  // ---------------------------------------------------------------------------
  // Search parameters

  lemma {:induction false} GetAllRemoved(search: seq<(string, string)>, name: string, other: string)
    ensures GetAll(Filter(search, NameIsNot(name)), name) == []
    ensures other != name ==> GetAll(Filter(search, NameIsNot(name)), other) == GetAll(search, other)
  {
    if search != [] {
      GetAllRemoved(search[1..], name, other);
      var rest := Filter(search[1..], NameIsNot(name));
      if search[0].0 != name {
        assert Filter(search, NameIsNot(name)) == [search[0]] + rest;
        assert ([search[0]] + rest)[1..] == rest;
      } else {
        assert Filter(search, NameIsNot(name)) == rest;
      }
    }
  }

  /** After `set`, the parameter has exactly the one new value, and every
      other parameter keeps all its values in order. */
  lemma {:induction false} SetParamGetAll(search: seq<(string, string)>, name: string, value: string, other: string)
    ensures GetAll(SetParam(search, name, value), name) == [value]
    ensures other != name ==> GetAll(SetParam(search, name, value), other) == GetAll(search, other)
  {
    var r := SetParam(search, name, value);
    if search == [] {
      assert r == [(name, value)];
      assert r[1..] == [];
    } else if search[0].0 == name {
      var rest := Filter(search[1..], NameIsNot(name));
      GetAllRemoved(search[1..], name, other);
      assert r == [(name, value)] + rest;
      assert r[1..] == rest;
    } else {
      SetParamGetAll(search[1..], name, value, other);
      assert r[1..] == SetParam(search[1..], name, value);
    }
  }

  // ---------------------------------------------------------------------------
  // Properties of the decision

  /** No path is both protected and an authentication page. */
  lemma ProtectedAndAuthDisjoint(pathname: string)
    ensures !(IsProtectedRoute(pathname) && IsAuthPage(pathname))
  {
    if pathname == "/forgot-password" {
      assert pathname[1] == 'f';
    }
  }

  /** A visitor is sent to the login page iff the page is protected and they
      are not signed in; to the dashboard iff the page is an authentication
      page and they are signed in; every other request passes through. */
  lemma DecisionIff(url: Url, signedIn: bool)
    ensures var d := UpdateSession(url, signedIn);
            (d.RedirectTo? && d.url.pathname == LOGIN_PATH) <==> (IsProtectedRoute(url.pathname) && !signedIn)
    ensures var d := UpdateSession(url, signedIn);
            (d.RedirectTo? && d.url.pathname == HOME_PATH) <==> (IsAuthPage(url.pathname) && signedIn)
    ensures (UpdateSession(url, signedIn).Continue?)
              <==> (!(IsProtectedRoute(url.pathname) && !signedIn) && !(IsAuthPage(url.pathname) && signedIn))
  {
    ProtectedAndAuthDisjoint(url.pathname);
  }

  /** The login redirect keeps the origin and hash, carries the requested
      path as its single `redirect` value, and leaves every other search
      parameter as it was. */
  lemma LoginRedirectCarriesPath(url: Url, other: string)
    requires IsProtectedRoute(url.pathname)
    ensures var d := UpdateSession(url, false);
            && d.RedirectTo?
            && d.url.origin == url.origin && d.url.hash == url.hash
            && GetAll(d.url.search, REDIRECT_PARAM) == [url.pathname]
            && (other != REDIRECT_PARAM ==> GetAll(d.url.search, other) == GetAll(url.search, other))
  {
    SetParamGetAll(url.search, REDIRECT_PARAM, url.pathname, other);
  }

  /** Following a redirect never redirects again: the login page is not
      protected, and the dashboard is not an authentication page. */
  lemma NoRedirectChain(url: Url, signedIn: bool)
    requires UpdateSession(url, signedIn).RedirectTo?
    ensures UpdateSession(UpdateSession(url, signedIn).url, signedIn) == Continue
  {
  }
}
