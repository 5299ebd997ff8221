/**
 * middleware.ts: the path gate in front of every page. The session cookie is
 * only looked for, never validated; `cookiePresent` says whether the request
 * carries `better-auth.session_token`.
 */
module Middleware {
  const PublicPaths: seq<string> := ["/", "/login", "/signup"]
  const AuthPaths: seq<string> := ["/login", "/signup"]
  const ApiPrefix := "/api/"

  datatype Decision = Next | Redirect(location: string)

  predicate StartsWith(s: string, prefix: string) {
    |prefix| <= |s| && s[..|prefix|] == prefix
  }

  /** `middleware`, branch for branch. */
  function Decide(pathname: string, cookiePresent: bool): Decision {
    if pathname in PublicPaths then Next
    else if StartsWith(pathname, ApiPrefix) then Next
    else if !cookiePresent && pathname !in PublicPaths then Redirect("/login")
    else if cookiePresent && pathname in AuthPaths then Redirect("/dashboard")
    else Next
  }

  /** Every auth page is also a public page. */
  lemma AuthPathsArePublic()
    ensures forall p :: p in AuthPaths ==> p in PublicPaths
  {
  }

  /**
   * The redirect to the dashboard is never taken: the auth pages return at
   * the first test. A request either passes or is sent to the login page, and
   * it is sent there exactly when it is for a page that is neither public nor
   * under `/api/` and carries no session cookie.
   */
  lemma DecideOutcomes(pathname: string, cookiePresent: bool)
    ensures Decide(pathname, cookiePresent) != Redirect("/dashboard")
    ensures Decide(pathname, cookiePresent) == Next || Decide(pathname, cookiePresent) == Redirect("/login")
    ensures Decide(pathname, cookiePresent) == Redirect("/login") <==>
      pathname !in PublicPaths && !StartsWith(pathname, ApiPrefix) && !cookiePresent
  {
    AuthPathsArePublic();
  }

  /** Public pages and API routes pass whatever the cookie says. */
  lemma PublicAndApiPass(pathname: string, cookiePresent: bool)
    requires pathname in PublicPaths || StartsWith(pathname, ApiPrefix)
    ensures Decide(pathname, cookiePresent) == Next
  {
  }

  /** The login page itself is reachable with a session cookie: it is not bounced to the dashboard. */
  lemma LoginWithSessionPasses()
    ensures Decide("/login", true) == Next
  {
  }
}
