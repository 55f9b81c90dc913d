/** The sidebar's rule for highlighting the navigation item of the current
    route. */
module Sidebar {
  import opened Wrappers
  import opened JsStrings

  /** isActive: no path is active when the path is missing or empty; the
      root item only on the root itself; any other item on its own path and
      on every path below it (its path followed by a slash). */
  function IsActive(pathname: Option<string>, to: string): (r: bool)
    ensures pathname.None? || pathname == Some("") ==> !r
    ensures to == "/" ==> (r <==> pathname == Some("/"))
    ensures to != "/" && pathname.Some? && pathname.value != "" ==>
              (r <==> |to| <= |pathname.value| && pathname.value[..|to|] == to
                      && (|pathname.value| == |to| || pathname.value[|to|] == '/'))
  {
    if pathname.None? || pathname.value == "" then false
    else if to == "/" then pathname.value == "/"
    else
      var p := pathname.value;
      assert StartsWith(p, to + "/") ==> p[..|to|] == (to + "/")[..|to|] == to;
      assert |to| < |p| && p[..|to|] == to && p[|to|] == '/' ==> p[..|to| + 1] == to + "/";
      assert |to| == |p| && p[..|to|] == to ==> p == to;
      p == to || StartsWith(p, to + "/")
  }

  /** Matching respects segment boundaries: `/dashboard` is active on
      `/dashboard/a` but not on `/dashboardx`, and the root item is not
      active below the root. */
  lemma SegmentBoundaryExamples()
    ensures IsActive(Some("/dashboard/a"), "/dashboard")
    ensures !IsActive(Some("/dashboardx"), "/dashboard")
    ensures IsActive(Some("/dashboard"), "/dashboard")
    ensures !IsActive(Some("/dashboard"), "/")
  {
    assert "/dashboard/a"[..11] == "/dashboard/";
    assert "/dashboardx"[10] == 'x';
  }

  /** An item is active wherever one of its sub-items is: every path below
      `to + "/" + seg` is also below `to`. */
  lemma SubRouteActivatesParent(pathname: string, to: string, seg: string)
    requires to != "/" && to != ""
    requires IsActive(Some(pathname), to + "/" + seg)
    ensures IsActive(Some(pathname), to)
  {
    var child := to + "/" + seg;
    assert |child| >= 2;
    assert pathname[..|to| + 1] == child[..|to| + 1] == to + "/";
  }
}
