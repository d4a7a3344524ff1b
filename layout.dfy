/** The root layout (app/layout.tsx): which paths render the site header and footer. */
module RootLayout {
  import opened Text

  /** The four prefixes that decide `hideLayout`. */
  predicate UnderDashboardArea(pathname: string) {
    StartsWith(pathname, "/owner/dashboard")
    || StartsWith(pathname, "/owner/bookings")
    || StartsWith(pathname, "/owner/hostels")
    || StartsWith(pathname, "/admin/")
  }

  /** `hideLayout` exactly as written: six `startsWith` tests. The
      "/owner/hostels/create" and "/owner/hostels/[id]" tests are subsumed by
      "/owner/hostels", so the result is the four-prefix test. */
  function HideLayout(pathname: string): (hidden: bool)
    ensures hidden <==> UnderDashboardArea(pathname)
  {
    PrefixOfPrefix(pathname, "/owner/hostels/create", "/owner/hostels");
    PrefixOfPrefix(pathname, "/owner/hostels/[id]", "/owner/hostels");
    (StartsWith(pathname, "/owner/dashboard")
     || StartsWith(pathname, "/owner/bookings")
     || StartsWith(pathname, "/owner/hostels")
     || StartsWith(pathname, "/owner/hostels/create")
     || StartsWith(pathname, "/owner/hostels/[id]")
     || StartsWith(pathname, "/admin/"))
  }

  /** The test is a literal prefix test: "/admin" without the slash keeps the
      header, any "/admin/..." path hides it, the owner login and signup pages and
      the home page keep it, and "/owner/hostelsX" hides it. */
  lemma LiteralPrefixCases()
    ensures !HideLayout("/admin") && HideLayout("/admin/") && HideLayout("/admin/users")
    ensures !HideLayout("/owner/login") && !HideLayout("/owner/signup") && !HideLayout("/")
    ensures HideLayout("/owner/hostelsX") && HideLayout("/owner/dashboard")
    ensures !HideLayout("/hostels") && !HideLayout("")
  {
    NotPrefix("/owner/login", "/admin/", 1);
    NotPrefix("/owner/signup", "/admin/", 1);
    NotPrefix("/hostels", "/admin/", 1);
    assert "/owner/hostelsX"[..|"/owner/hostels"|] == "/owner/hostels";
    assert "/admin/users"[..|"/admin/"|] == "/admin/";
    assert "/owner/dashboard"[..|"/owner/dashboard"|] == "/owner/dashboard";
    assert "/admin/"[..|"/admin/"|] == "/admin/";
  }

  /** `s` does not start with `p` when they differ at a position both have. */
  lemma NotPrefix(s: string, p: string, k: nat)
    requires k < |s| && k < |p| && s[k] != p[k]
    ensures !StartsWith(s, p)
  {
    if |p| <= |s| {
      assert s[..|p|][k] == s[k];
    }
  }

  /** What the root layout renders around a page. */
  datatype Chrome = Chrome(header: bool, footer: bool, toaster: bool)

  /** The header and footer render iff the layout is not hidden; the Toaster always does. */
  function Render(pathname: string): (c: Chrome)
    ensures c.toaster
    ensures c.header == c.footer
    ensures c.header <==> !UnderDashboardArea(pathname)
  {
    Chrome(!HideLayout(pathname), !HideLayout(pathname), true)
  }
}
