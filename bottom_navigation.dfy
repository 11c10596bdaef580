/**
 * The bottom navigation bar: a fixed table of five destinations, an item
 * highlighted when the current pathname is exactly its path, and a click
 * that requests navigation to the item's path. The pathname is an input.
 */
module BottomNavigation {
  import opened Wrappers

  datatype NavItem = NavItem(path: string, caption: string)

  const NavItems: seq<NavItem> := [
    NavItem("/", "Home"),
    NavItem("/insights", "Insights"),
    NavItem("/community", "Chat"),
    NavItem("/achievements", "Achievements"),
    NavItem("/more", "More")
  ]

  /** The per-item `isActive` flag. */
  predicate IsActive(pathname: string, item: NavItem): (active: bool)
    ensures active && item in NavItems ==>
      forall j :: 0 <= j < |NavItems| && NavItems[j] != item ==> NavItems[j].path != pathname
  {
    NavItemPathsAreDistinct();
    pathname == item.path
  }

  /** The path a click on item `i` navigates to: the one path that highlights item `i`. */
  function NavigationTarget(i: nat): (path: string)
    requires i < |NavItems|
    ensures FindActive(NavItems, path) == Some(i)
  {
    NavItemPathsAreDistinct();
    NavItems[i].path
  }

  predicate DistinctPaths(items: seq<NavItem>) {
    forall i, j :: 0 <= i < j < |items| ==> items[i].path != items[j].path
  }

  lemma NavItemPathsAreDistinct()
    ensures |NavItems| == 5
    ensures DistinctPaths(NavItems)
  {
  }

  /** The position of the item whose path is `pathname`, if any. */
  function FindActive(items: seq<NavItem>, pathname: string): (found: Option<nat>)
    ensures found.Some? ==> found.value < |items| && IsActive(pathname, items[found.value])
    ensures found.None? ==> forall i :: 0 <= i < |items| ==> !IsActive(pathname, items[i])
    decreases |items|
  {
    if items == [] then None
    else if IsActive(pathname, items[|items| - 1]) then Some(|items| - 1)
    else FindActive(items[..|items| - 1], pathname)
  }

  /** At most one item of the bar is highlighted. */
  lemma AtMostOneActive(pathname: string, i: nat, j: nat)
    requires i < |NavItems| && j < |NavItems|
    requires IsActive(pathname, NavItems[i]) && IsActive(pathname, NavItems[j])
    ensures i == j
  {
    NavItemPathsAreDistinct();
  }

  /** After clicking item `i`, item `i` and no other is highlighted. */
  lemma ClickHighlightsExactlyThatItem(i: nat, j: nat)
    requires i < |NavItems| && j < |NavItems|
    ensures IsActive(NavigationTarget(i), NavItems[j]) <==> i == j
  {
    if IsActive(NavigationTarget(i), NavItems[j]) {
      AtMostOneActive(NavigationTarget(i), i, j);
    }
  }

  /** A pathname outside the table, such as "/log", highlights nothing. */
  lemma UnlistedPathHighlightsNothing()
    ensures FindActive(NavItems, "/log") == None
  {
  }
}
