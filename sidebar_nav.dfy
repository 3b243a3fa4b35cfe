/** The sidebar: which navigation links a user sees, and which of them are highlighted. */
module SidebarNav {
  import opened Wrappers
  import opened Text

  /** One navigation link. */
  datatype NavItem = NavItem(name: string, href: string)

  const CustomerNavItems: seq<NavItem> := [
    NavItem("Home", "/"), NavItem("Shop", "/search"), NavItem("Cart", "/cart"),
    NavItem("Favorites", "/favorites"), NavItem("My Orders", "/orders"), NavItem("Profile", "/profile")]

  const AdminNavItems: seq<NavItem> := [
    NavItem("Dashboard", "/admin"), NavItem("Products", "/admin/products"), NavItem("Orders", "/admin/orders"),
    NavItem("Table Services", "/table-services"), NavItem("Reservation", "/reservation"),
    NavItem("Delivery", "/delivery"), NavItem("Accounting", "/accounting"), NavItem("Settings", "/settings")]

  /** `navItems`: the admin links for the role "admin" exactly; the customer links for any other role or no user. */
  function NavItems(role: Option<string>): (r: seq<NavItem>)
    ensures role == Some("admin") ==> r == AdminNavItems
    ensures role != Some("admin") ==> r == CustomerNavItems
  {
    if role.Some? && role.value == "admin" then AdminNavItems else CustomerNavItems
  }

  /** `isActive`: the exact path, or for any link but "/" any path that starts with it. */
  predicate IsActive(pathname: string, href: string)
  {
    pathname == href || (href != "/" && StartsWith(pathname, href))
  }

  /** The home link is active on the home page alone. */
  lemma HomeActiveOnlyAtHome(pathname: string)
    ensures IsActive(pathname, "/") <==> pathname == "/"
  {
  }

  /** Any other link is active exactly when the path starts with it, with no regard to segment boundaries. */
  lemma {:induction false} OtherLinksMatchPrefix(pathname: string, href: string)
    requires href != "/"
    ensures IsActive(pathname, href) <==> StartsWith(pathname, href)
  {
    assert pathname == href ==> pathname[..|href|] == href;
  }

  /** On the products page both the dashboard link and the products link are highlighted. */
  lemma DashboardActiveOnProducts()
    ensures IsActive("/admin/products", "/admin")
    ensures IsActive("/admin/products", "/admin/products")
    ensures AdminNavItems[0].href == "/admin" && AdminNavItems[1].href == "/admin/products"
  {
    assert "/admin/products"[..|"/admin"|] == "/admin";
  }

  /** The number of highlighted links: none exactly when no link's test holds. */
  function ActiveCount(items: seq<NavItem>, pathname: string): (n: nat)
    ensures n <= |items|
    ensures n == 0 <==> forall i :: 0 <= i < |items| ==> !IsActive(pathname, items[i].href)
    decreases |items|
  {
    if items == [] then 0 else (if IsActive(pathname, items[0].href) then 1 else 0) + ActiveCount(items[1..], pathname)
  }
}
