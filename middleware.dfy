/**
 * The request filter in front of every page (middleware.ts): signed-out
 * visitors are sent from the member pages to the login page, and signed-in
 * users are sent from the login page to the home page.
 */
module Middleware {
  import opened Strings

  /** The pages that need a signed-in user, as path prefixes. */
  const ProtectedPrefixes: seq<string> := ["/mypage", "/settings", "/write"]

  /** `protectedPaths.some(path => pathname.startsWith(path))`. */
  predicate IsProtected(pathname: string) {
    exists i :: 0 <= i < |ProtectedPrefixes| && StartsWith(pathname, ProtectedPrefixes[i])
  }

  datatype Response = PassThrough | RedirectToLogin(redirectTo: string) | RedirectHome

  /** The response for a request path, given whether the session has a user. */
  function Decide(pathname: string, hasUser: bool): (r: Response)
    ensures r.RedirectToLogin? <==> IsProtected(pathname) && !hasUser
    ensures r.RedirectToLogin? ==> r.redirectTo == pathname
    ensures r == RedirectHome <==> pathname == "/login" && hasUser
    ensures r == PassThrough <==> !(IsProtected(pathname) && !hasUser) && !(pathname == "/login" && hasUser)
  {
    LoginIsNotProtected();
    if IsProtected(pathname) && !hasUser then RedirectToLogin(pathname)
    else if pathname == "/login" && hasUser then RedirectHome
    else PassThrough
  }

  /** The login page itself is open, so the two redirects never compete. */
  lemma LoginIsNotProtected()
    ensures !IsProtected("/login")
  {
    assert !StartsWith("/login", "/mypage") by { assert "/login"[1] != "/mypage"[1]; }
    assert !StartsWith("/login", "/settings") by { assert "/login"[1] != "/settings"[1]; }
    assert !StartsWith("/login", "/write") by { assert "/login"[1] != "/write"[1]; }
  }

  /** The test is on prefixes, not path segments: "/writer" is protected as well. */
  lemma PrefixNotSegment()
    ensures IsProtected("/writer")
    ensures Decide("/writer", false) == RedirectToLogin("/writer")
  {
    assert StartsWith("/writer", ProtectedPrefixes[2]);
  }

  /** Every path below a protected page is protected too. */
  lemma SubpathsAreProtected(pathname: string, rest: string)
    requires IsProtected(pathname)
    ensures IsProtected(pathname + rest)
  {
    var i :| 0 <= i < |ProtectedPrefixes| && StartsWith(pathname, ProtectedPrefixes[i]);
    assert (pathname + rest)[..|ProtectedPrefixes[i]|] == pathname[..|ProtectedPrefixes[i]|];
  }
}
