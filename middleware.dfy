/**
 * The request middleware: paths under the protected prefixes pass only with a
 * token cookie the JWT check accepts, and are redirected to the login page
 * otherwise; every other path passes untouched. The JWT check is the oracle
 * `verify`.
 */
module Middleware {
  import opened Options
  import opened JsStrings

  const ProtectedRoutes: seq<string> := ["/dashboard", "/chat"]

  /** `routes.some(route => path.startsWith(route))`. */
  function AnyPrefix(routes: seq<string>, path: string): (r: bool)
    ensures r <==> exists i :: 0 <= i < |routes| && StartsWith(path, routes[i])
    decreases |routes|
  {
    if routes == [] then false
    else if StartsWith(path, routes[0]) then true
    else
      var rest := AnyPrefix(routes[1..], path);
      assert forall i :: 1 <= i < |routes| ==> routes[i] == routes[1..][i - 1];
      assert rest ==> exists i :: 1 <= i < |routes| && StartsWith(path, routes[i]) by {
        if rest {
          var k :| 0 <= k < |routes[1..]| && StartsWith(path, routes[1..][k]);
          assert StartsWith(path, routes[k + 1]);
        }
      }
      rest
  }

  predicate IsProtected(path: string) {
    AnyPrefix(ProtectedRoutes, path)
  }

  /** Protected exactly when the path starts with one of the two prefixes. */
  lemma IsProtectedIff(path: string)
    ensures IsProtected(path) <==> StartsWith(path, "/dashboard") || StartsWith(path, "/chat")
  {
    assert ProtectedRoutes[0] == "/dashboard" && ProtectedRoutes[1] == "/chat";
  }

  /** The test is a prefix test: longer names sharing a prefix are protected too, and the
      root and the login page are not. */
  lemma ProtectedExamples()
    ensures IsProtected("/chatroom") && IsProtected("/dashboard2") && IsProtected("/dashboard/reports")
    ensures !IsProtected("/") && !IsProtected("/login")
  {
    IsProtectedIff("/chatroom");
    IsProtectedIff("/dashboard2");
    IsProtectedIff("/dashboard/reports");
    IsProtectedIff("/");
    IsProtectedIff("/login");
    assert "/chatroom"[..5] == "/chat";
    assert "/dashboard2"[..10] == "/dashboard";
    assert "/dashboard/reports"[..10] == "/dashboard";
    assert "/login"[1] != "/chat"[1] && "/login"[1] != "/dashboard"[1];
  }

  /** What the middleware answers. */
  datatype Decision = Next | Redirect(url: string)

  /** `req.cookies.get("token")?.value || ""`. */
  function TokenOf(cookie: Option<string>): string {
    cookie.GetOr("")
  }

  /** The middleware for a request to `path` carrying the `token` cookie `cookie`. */
  function Decide(path: string, cookie: Option<string>, verify: string -> bool): (d: Decision)
    ensures !IsProtected(path) ==> d == Next
    ensures IsProtected(path) ==> (d == Next <==> verify(TokenOf(cookie)))
    ensures d == Next || d == Redirect("/login")
  {
    if IsProtected(path) then
      if verify(TokenOf(cookie)) then Next else Redirect("/login")
    else Next
  }

  /** On an unprotected path neither the cookie nor the verifier matters. */
  lemma UnprotectedIgnoresToken(path: string, c1: Option<string>, c2: Option<string>, v1: string -> bool, v2: string -> bool)
    requires !IsProtected(path)
    ensures Decide(path, c1, v1) == Decide(path, c2, v2) == Next
  {
  }

  /** A missing cookie is checked as the empty token, exactly like an empty cookie. */
  lemma MissingCookieIsEmptyToken(path: string, verify: string -> bool)
    ensures Decide(path, None, verify) == Decide(path, Some(""), verify)
    ensures IsProtected(path) && !verify("") ==> Decide(path, None, verify) == Redirect("/login")
  {
  }
}
