/** The navigation sidebar of src/components/AppSidebar.tsx: which entry is highlighted for the
    current pathname. Icons, titles, descriptions and the collapsed state only affect rendering. */
module AppSidebar {
  import opened Text

  const DashboardUrl := "/"
  const ItemsUrl := "/items"
  const InvoicesUrl := "/invoices"
  const ReportsUrl := "/reports"
  const InventoryUrl := "/inventory"
  const CustomersUrl := "/customers"

  /** The main entries, then the secondary ones, in the order the sidebar lists them. */
  const NavigationUrls: seq<string> := [DashboardUrl, ItemsUrl, InvoicesUrl]
  const SecondaryUrls: seq<string> := [ReportsUrl, InventoryUrl, CustomersUrl]

  const ActiveClass := "bg-primary/15 text-primary border-r-2 border-primary hover:bg-primary/20 shadow-sm"
  const InactiveClass := "hover:bg-accent/10 hover:text-primary transition-all duration-200"

  /** `isActive(path)`: the dashboard only on exactly "/", every other entry on any pathname that
      starts with its url. */
  function IsActive(path: string, pathname: string): (r: bool)
    ensures path == "/" ==> (r <==> pathname == "/")
    ensures path != "/" ==> (r <==> |path| <= |pathname| && pathname[..|path|] == path)
  {
    if path == "/" then pathname == "/" else StartsWith(pathname, path)
  }

  /** `getNavClass(path)`: the highlighted style exactly when the entry is active. */
  function NavClass(path: string, pathname: string): (c: string)
    ensures c == ActiveClass <==> IsActive(path, pathname)
    ensures c == InactiveClass <==> !IsActive(path, pathname)
  {
    if IsActive(path, pathname) then ActiveClass else InactiveClass
  }

  /** Every entry is active on its own url. */
  lemma EachEntryActiveOnItsUrl()
    ensures forall i :: 0 <= i < |NavigationUrls| ==> IsActive(NavigationUrls[i], NavigationUrls[i])
    ensures forall i :: 0 <= i < |SecondaryUrls| ==> IsActive(SecondaryUrls[i], SecondaryUrls[i])
  {
  }

  /** Matching is by prefix, not by path segment: a sub-page keeps its entry highlighted, and so does
      an unrelated path that merely begins with the same letters. */
  lemma PrefixMatching()
    ensures IsActive(ItemsUrl, "/items/5")
    ensures IsActive(ItemsUrl, "/itemsx")
    ensures !IsActive(ItemsUrl, "/item")
    ensures !IsActive(DashboardUrl, "/items")
  {
    assert "/items/5"[..6] == ItemsUrl;
    assert "/itemsx"[..6] == ItemsUrl;
  }

  /** Two prefixes of one string: one of them is a prefix of the other. */
  lemma CommonPrefixes(s: string, a: string, b: string)
    requires |a| <= |s| && s[..|a|] == a
    requires |b| <= |s| && s[..|b|] == b
    requires |a| <= |b|
    ensures b[..|a|] == a
  {
    assert b[..|a|] == s[..|b|][..|a|];
  }

  /** Two entries whose urls differ at some position `k` are never active together. */
  lemma NotBothActive(p: string, q: string, k: nat, pathname: string)
    requires p != "/" && q != "/"
    requires k < |p| && k < |q| && p[k] != q[k]
    ensures !(IsActive(p, pathname) && IsActive(q, pathname))
  {
    if IsActive(p, pathname) && IsActive(q, pathname) {
      if |p| <= |q| {
        CommonPrefixes(pathname, p, q);
      } else {
        CommonPrefixes(pathname, q, p);
      }
    }
  }

  function AllUrls(): seq<string> {
    NavigationUrls + SecondaryUrls
  }

  /** Whatever the pathname, at most one of the six entries is highlighted. */
  lemma AtMostOneActive(pathname: string)
    ensures forall i, j :: 0 <= i < j < |AllUrls()| && IsActive(AllUrls()[i], pathname) ==>
      !IsActive(AllUrls()[j], pathname)
  {
    var u := AllUrls();
    assert u == ["/", "/items", "/invoices", "/reports", "/inventory", "/customers"];
    forall i, j | 0 <= i < j < |u| && IsActive(u[i], pathname) ensures !IsActive(u[j], pathname) {
      if i > 0 {
        var k := if u[i][1] != u[j][1] then 1 else if u[i][2] != u[j][2] then 2 else 4;
        NotBothActive(u[i], u[j], k, pathname);
      }
    }
  }
}
