/**
 * The top navigation bar (components/layout/main-nav.tsx): three fixed
 * routes followed by the server's links, and which of them is external or
 * highlighted for the current path.
 */
module MainNav {
  import opened Wrappers
  import opened Types
  import opened Text

  datatype Route = Route(href: string, title: string)

  /** The translated captions of the three fixed routes. */
  datatype NavCaptions = NavCaptions(contests: string, submissions: string, profile: string)

  /** `allRoutes`: the fixed routes, then the fetched links in their order (none before they arrive). */
  function AllRoutes(captions: NavCaptions, links: Option<seq<LinkItem>>): (routes: seq<Route>)
    ensures links.None? ==> |routes| == 3
    ensures links.Some? ==> |routes| == 3 + |links.value|
    ensures routes[0] == Route("/contests", captions.contests)
    ensures routes[1] == Route("/submissions", captions.submissions)
    ensures routes[2] == Route("/profile", captions.profile)
    ensures links.Some? ==> forall i :: 0 <= i < |links.value| ==>
      routes[3 + i] == Route(links.value[i].url, links.value[i].name)
  {
    var fixed := [Route("/contests", captions.contests), Route("/submissions", captions.submissions),
                  Route("/profile", captions.profile)];
    match links
    case None => fixed
    case Some(items) => fixed + seq(|items|, i requires 0 <= i < |items| => Route(items[i].url, items[i].name))
  }

  predicate IsExternal(route: Route) {
    StartsWith(route.href, "http")
  }

  /** A plain string-prefix test on the path: "/contests" is also active on "/contestsX". */
  predicate IsActive(route: Route, pathname: string) {
    !IsExternal(route) && StartsWith(pathname, route.href)
  }

  datatype LinkStyle = Highlighted | Muted

  /** External links open in a new tab and are always muted; internal ones are highlighted when active. */
  datatype NavLink = NavLink(route: Route, newTab: bool, style: LinkStyle)

  function Render(route: Route, pathname: string): (link: NavLink)
    ensures link.route == route
    ensures link.newTab <==> IsExternal(route)
    ensures link.style == Highlighted <==> IsActive(route, pathname)
    ensures IsExternal(route) ==> link.style == Muted
  {
    if IsExternal(route) then NavLink(route, true, Muted)
    else NavLink(route, false, if StartsWith(pathname, route.href) then Highlighted else Muted)
  }

  /** No fixed route is external, and each is active on every path below it. */
  lemma FixedRoutesInternal(captions: NavCaptions, links: Option<seq<LinkItem>>, i: nat, rest: string)
    requires i < 3
    ensures var r := AllRoutes(captions, links)[i];
      !IsExternal(r) && IsActive(r, r.href + rest)
  {
    var r := AllRoutes(captions, links)[i];
    assert r.href[0] == '/';
    assert (r.href + rest)[..|r.href|] == r.href;
  }

  /** An internal route is active on its own href followed by anything, a sibling path included. */
  lemma {:induction false} ActiveOnExtension(route: Route, rest: string)
    requires !IsExternal(route)
    ensures IsActive(route, route.href + rest)
  {
    assert (route.href + rest)[..|route.href|] == route.href;
  }

  /** The prefix test also matches a sibling path that merely starts the same way. */
  lemma PrefixMatchesSibling(title: string)
    ensures IsActive(Route("/contests", title), "/contestsX")
  {
    assert "/contests"[..4][0] != "http"[0];
    ActiveOnExtension(Route("/contests", title), "X");
    assert "/contests" + "X" == "/contestsX";
  }

  /** A link is external exactly when its URL starts with "http", and then it is never active. */
  lemma ExternalNeverActive(link: LinkItem, pathname: string)
    requires StartsWith(link.url, "http")
    ensures IsExternal(Route(link.url, link.name))
    ensures !IsActive(Route(link.url, link.name), pathname)
    ensures Render(Route(link.url, link.name), pathname).style == Muted
  {
  }
}
