/**
 * The route guard run before each request: it reads the `auth_token` and
 * `user_role` cookies and the path, and lets the request through or
 * redirects it.
 */
module Middleware {
  import opened Wrappers

  /** What the guard answers: pass the request on, or redirect it to a path. */
  datatype Decision = Next | Redirect(target: string)

  /** The paths only an administrator may open, matched exactly. */
  const AdminRoutes: seq<string> := [
    "/admin", "/admin/products", "/admin/orders",
    "/table-services", "/reservation", "/delivery",
    "/accounting", "/settings"
  ]

  /** A cookie value is truthy when it is present and not the empty string. */
  predicate Truthy(v: Option<string>)
  {
    v.Some? && v.value != ""
  }

  /** `middleware(req)`, over the two cookie values and the path. */
  function Decide(token: Option<string>, role: Option<string>, path: string): (d: Decision)
    ensures d == Redirect("/admin") <==> path == "/" && Truthy(token) && role == Some("ADMIN")
    ensures d == Redirect("/") <==> path in AdminRoutes && !(Truthy(token) && role == Some("ADMIN"))
    ensures d == Next <==> !(path == "/" && Truthy(token) && role == Some("ADMIN")) &&
                           (path !in AdminRoutes || (Truthy(token) && role == Some("ADMIN")))
  {
    if Truthy(token) && role == Some("ADMIN") && path == "/" then Redirect("/admin")
    else if path !in AdminRoutes then Next
    else if !Truthy(token) then Redirect("/")
    else if path in AdminRoutes && role != Some("ADMIN") then Redirect("/")
    else Next
  }

  /** A signed-in administrator who opens the home page is sent to "/admin". */
  lemma AdminHomeRedirects(token: Option<string>, role: Option<string>)
    requires Truthy(token) && role == Some("ADMIN")
    ensures Decide(token, role, "/") == Redirect("/admin")
  {
  }

  /**
   * Apart from that case, a path that is not exactly one of the admin routes
   * passes, so a sub-path such as "/admin/products/1" is not guarded.
   */
  lemma NonAdminPathPasses(token: Option<string>, role: Option<string>, path: string)
    requires path !in AdminRoutes
    requires !(Truthy(token) && role == Some("ADMIN") && path == "/")
    ensures Decide(token, role, path) == Next
  {
  }

  /** A product sub-page of the admin area passes whoever asks. */
  lemma AdminSubPathUnguarded(token: Option<string>, role: Option<string>)
    ensures Decide(token, role, "/admin/products/1") == Next
  {
    assert "/admin/products/1" !in AdminRoutes;
  }

  /** An admin route without a token redirects to "/". */
  lemma AdminRouteWithoutToken(token: Option<string>, role: Option<string>, path: string)
    requires path in AdminRoutes && !Truthy(token)
    ensures Decide(token, role, path) == Redirect("/")
  {
    assert path != "/";
  }

  /** An admin route with a token but a role other than "ADMIN" redirects to "/". */
  lemma AdminRouteWrongRole(token: Option<string>, role: Option<string>, path: string)
    requires path in AdminRoutes && Truthy(token) && role != Some("ADMIN")
    ensures Decide(token, role, path) == Redirect("/")
  {
  }

  /** An admin route with a token and the role "ADMIN" passes. */
  lemma AdminRouteAdminPasses(token: Option<string>, role: Option<string>, path: string)
    requires path in AdminRoutes && Truthy(token) && role == Some("ADMIN")
    ensures Decide(token, role, path) == Next
  {
    assert path != "/";
  }

  /**
   * The guard never redirects anywhere but "/" and "/admin", and it
   * redirects to "/admin" only from "/", only for a signed-in administrator.
   */
  lemma RedirectTargets(token: Option<string>, role: Option<string>, path: string)
    ensures Decide(token, role, path).Redirect? ==>
      Decide(token, role, path).target in {"/", "/admin"}
    ensures Decide(token, role, path) == Redirect("/admin") <==>
      (path == "/" && Truthy(token) && role == Some("ADMIN"))
    ensures Decide(token, role, path) == Redirect("/") ==>
      path in AdminRoutes && !(Truthy(token) && role == Some("ADMIN"))
  {
  }
}
