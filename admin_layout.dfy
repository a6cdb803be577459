/** Which bottom tab of the admin layout is highlighted for the current path. */
module AdminLayout {
  import opened Builtins

  const DashboardPath: string := "/admin"
  const ProductsPath: string := "/admin/products"
  const SettingsPath: string := "/admin/settings"

  /** A tab link is active when the current path is exactly the link's path. */
  predicate IsActive(pathname: string, path: string)
  {
    pathname == path
  }

  predicate DashboardTabHighlighted(pathname: string)
  {
    IsActive(pathname, DashboardPath)
  }

  /** The products tab also covers the product detail pages below it. */
  predicate ProductsTabHighlighted(pathname: string)
  {
    IsActive(pathname, ProductsPath) || StartsWith(pathname, ProductsPath + "/")
  }

  predicate SettingsTabHighlighted(pathname: string)
  {
    IsActive(pathname, SettingsPath)
  }

  /** The products tab is highlighted exactly for its own path and for the paths one segment or
      more below it; a path that merely extends the word, such as `/admin/productsX`, does not count. */
  lemma ProductsTabPaths(pathname: string)
    ensures ProductsTabHighlighted(pathname) <==>
      pathname == ProductsPath || exists rest: string :: pathname == ProductsPath + "/" + rest
    ensures !ProductsTabHighlighted("/admin/productsX")
    ensures ProductsTabHighlighted("/admin/products/42")
  {
    var prefix := ProductsPath + "/";
    if StartsWith(pathname, prefix) {
      var rest := pathname[|prefix|..];
      assert pathname == prefix + rest;
    }
    forall rest: string | pathname == ProductsPath + "/" + rest
      ensures StartsWith(pathname, prefix)
    {
      assert pathname[..|prefix|] == prefix;
    }
    assert "/admin/products/42" == prefix + "42";
    assert "/admin/productsX"[15] != prefix[15];
  }

  /** Whatever the path, at most one tab is highlighted. */
  lemma AtMostOneTab(pathname: string)
    ensures !(DashboardTabHighlighted(pathname) && ProductsTabHighlighted(pathname))
    ensures !(DashboardTabHighlighted(pathname) && SettingsTabHighlighted(pathname))
    ensures !(ProductsTabHighlighted(pathname) && SettingsTabHighlighted(pathname))
  {
  }
}
