/** The routes of the live documentation site, derived from a list of
    sections: one page per section, the home page, the paths to prerender,
    and the previous/next links between section pages. */
module Routes {
  import opened Optional
  import opened DocsStore

  /** The page a route renders: the home page or a section page by its
      component name. */
  datatype Component = HomePage | DocPage(name: string)

  /** A route; `component` is absent when the section id has no entry in
      the component map. */
  datatype Route = Route(path: string, component: Option<Component>)

  /** The section ids that have a page component, and its name. */
  const ComponentMap: map<string, string> := map[
    "getting-started" := "GettingStarted",
    "display" := "Display",
    "grid" := "Grid",
    "spacing" := "Spacing",
    "typography" := "Typography",
    "borders" := "Borders",
    "shadows" := "Shadows",
    "extras" := "Extras",
    "responsive" := "Responsive",
    "layout" := "Layout",
    "customization" := "Customization"
  ]

  /** `componentMap[id]`. */
  function ComponentOf(id: string): (c: Option<Component>)
    ensures c.Some? <==> id in ComponentMap
  {
    if id in ComponentMap then Some(DocPage(ComponentMap[id])) else None
  }

  /** Every section of the site has a page component. */
  lemma EverySectionHasPage()
    ensures forall i :: 0 <= i < |DocSections| ==> ComponentOf(DocSections[i].id).Some?
  {
    assert DocSections[0].id == "getting-started";
  }

  /** The path of a section page: `/${id}`. */
  function PathOf(id: string): (p: string)
    ensures |p| == |id| + 1 && p[0] == '/' && p[1..] == id
  {
    "/" + id
  }

  /** Different ids give different paths. */
  lemma PathOfInjective(a: string, b: string)
    ensures PathOf(a) == PathOf(b) <==> a == b
  {
    if PathOf(a) == PathOf(b) {
      assert a == PathOf(a)[1..];
    }
  }

  /** `docRoutes`: one route per section, in order. */
  function DocRoutes(sections: seq<Section>): (r: seq<Route>)
    ensures |r| == |sections|
    ensures forall i :: 0 <= i < |sections| ==> r[i] == Route(PathOf(sections[i].id), ComponentOf(sections[i].id))
  {
    seq(|sections|, i requires 0 <= i < |sections| => Route(PathOf(sections[i].id), ComponentOf(sections[i].id)))
  }

  /** `routes`: the home route, then the section routes. */
  function AllRoutes(sections: seq<Section>): (r: seq<Route>)
    ensures |r| == |sections| + 1
    ensures r[0] == Route("/", Some(HomePage)) && r[1..] == DocRoutes(sections)
  {
    [Route("/", Some(HomePage))] + DocRoutes(sections)
  }

  /** `prerenderPaths`: "/", "/404", then each section's path. */
  function PrerenderPaths(sections: seq<Section>): (r: seq<string>)
    ensures |r| == |sections| + 2 && r[0] == "/" && r[1] == "/404"
    ensures forall k :: 2 <= k < |r| ==> r[k] == PathOf(sections[k - 2].id)
  {
    ["/", "/404"] + seq(|sections|, i requires 0 <= i < |sections| => PathOf(sections[i].id))
  }

  /** The paths to prerender are the paths of the routes, in route order,
      with the not-found page second. */
  lemma PrerenderCoversRoutes(sections: seq<Section>)
    ensures forall i :: 0 <= i < |AllRoutes(sections)| ==> AllRoutes(sections)[i].path in PrerenderPaths(sections)
    ensures forall k :: 0 <= k < |PrerenderPaths(sections)| && k != 1 ==>
      PrerenderPaths(sections)[k] == AllRoutes(sections)[if k == 0 then 0 else k - 1].path
  {
    var paths := PrerenderPaths(sections);
    var routes := AllRoutes(sections);
    forall k | 2 <= k < |paths|
      ensures paths[k] == routes[k - 1].path
    {
      assert routes[k - 1] == routes[1..][k - 2] == DocRoutes(sections)[k - 2];
    }
    forall i | 0 <= i < |routes|
      ensures routes[i].path in paths
    {
      if i == 0 {
        assert paths[0] == routes[i].path;
      } else {
        assert paths[i + 1] == routes[i].path;
      }
    }
  }

  /** `findIndex` by key equality: the first index whose key is `want`, or
      -1. */
  function FirstIndex(keys: seq<string>, want: string): (k: int)
    ensures -1 <= k < |keys|
    ensures k >= 0 ==> keys[k] == want && forall j :: 0 <= j < k ==> keys[j] != want
    ensures k == -1 <==> forall j :: 0 <= j < |keys| ==> keys[j] != want
  {
    if |keys| == 0 then -1
    else if keys[0] == want then 0
    else
      var k := FirstIndex(keys[1..], want);
      if k == -1 then -1 else k + 1
  }

  function Ids(sections: seq<Section>): (r: seq<string>)
    ensures |r| == |sections| && forall i :: 0 <= i < |sections| ==> r[i] == sections[i].id
  {
    seq(|sections|, i requires 0 <= i < |sections| => sections[i].id)
  }

  function Paths(routes: seq<Route>): (r: seq<string>)
    ensures |r| == |routes| && forall i :: 0 <= i < |routes| ==> r[i] == routes[i].path
  {
    seq(|routes|, i requires 0 <= i < |routes| => routes[i].path)
  }

  /** `sections.findIndex(s => s.id === id)`. */
  function SectionIndex(sections: seq<Section>, id: string): int
  {
    FirstIndex(Ids(sections), id)
  }

  /** `routes.find(r => r.path === path) ?? null`. */
  function FindRoute(routes: seq<Route>, path: string): (r: Option<Route>)
    ensures r.None? <==> forall j :: 0 <= j < |routes| ==> routes[j].path != path
    ensures r.Some? ==> r.value in routes && r.value.path == path
  {
    var k := FirstIndex(Paths(routes), path);
    if k == -1 then None else Some(routes[k])
  }

  /** The route found for a section id's path is the route of the first
      section with that id. */
  lemma RouteOfId(sections: seq<Section>, id: string)
    requires SectionIndex(sections, id) >= 0
    ensures FindRoute(DocRoutes(sections), PathOf(id)) == Some(DocRoutes(sections)[SectionIndex(sections, id)])
  {
    var routes := DocRoutes(sections);
    var k := SectionIndex(sections, id);
    forall j | 0 <= j < |sections|
      ensures routes[j].path == PathOf(id) <==> sections[j].id == id
    {
      PathOfInjective(sections[j].id, id);
    }
    assert FirstIndex(Paths(routes), PathOf(id)) == k;
  }

  /** `getNextRoute(currentId)`: nothing for an unknown id or the last
      section, otherwise the route of the section after the first one with
      that id. */
  function NextRoute(sections: seq<Section>, currentId: string): (r: Option<Route>)
    ensures r.None? <==> SectionIndex(sections, currentId) == -1 || SectionIndex(sections, currentId) == |sections| - 1
    ensures r.Some? ==> r.value.path == PathOf(sections[SectionIndex(sections, currentId) + 1].id)
  {
    var index := SectionIndex(sections, currentId);
    if index == -1 || index == |sections| - 1 then None
    else
      var next := sections[index + 1];
      assert DocRoutes(sections)[index + 1].path == PathOf(next.id);
      FindRoute(DocRoutes(sections), PathOf(next.id))
  }

  /** `getPreviousRoute(currentId)`: nothing for an unknown id or the first
      section, otherwise the route of the section before the first one with
      that id. */
  function PreviousRoute(sections: seq<Section>, currentId: string): (r: Option<Route>)
    ensures r.None? <==> SectionIndex(sections, currentId) <= 0
    ensures r.Some? ==> r.value.path == PathOf(sections[SectionIndex(sections, currentId) - 1].id)
  {
    var index := SectionIndex(sections, currentId);
    if index <= 0 then None
    else
      var prev := sections[index - 1];
      assert DocRoutes(sections)[index - 1].path == PathOf(prev.id);
      FindRoute(DocRoutes(sections), PathOf(prev.id))
  }

  /** With distinct ids, the next route of a section is the route of the
      section after it. */
  lemma NextOfSection(sections: seq<Section>, i: nat)
    requires DistinctIds(sections) && i + 1 < |sections|
    ensures NextRoute(sections, sections[i].id) == Some(DocRoutes(sections)[i + 1])
  {
    assert SectionIndex(sections, sections[i].id) == i;
    RouteOfId(sections, sections[i + 1].id);
    assert SectionIndex(sections, sections[i + 1].id) == i + 1;
  }

  /** With distinct ids, the previous route of a section is the route of
      the section before it. */
  lemma PreviousOfSection(sections: seq<Section>, i: nat)
    requires DistinctIds(sections) && 0 < i < |sections|
    ensures PreviousRoute(sections, sections[i].id) == Some(DocRoutes(sections)[i - 1])
  {
    assert SectionIndex(sections, sections[i].id) == i;
    RouteOfId(sections, sections[i - 1].id);
    assert SectionIndex(sections, sections[i - 1].id) == i - 1;
  }

  /** With distinct ids, following the next link and then the previous
      link returns to the route of the section one started from. */
  lemma PreviousOfNext(sections: seq<Section>, id: string, nextId: string)
    requires DistinctIds(sections)
    requires NextRoute(sections, id).Some? && NextRoute(sections, id).value.path == PathOf(nextId)
    ensures PreviousRoute(sections, nextId) == FindRoute(DocRoutes(sections), PathOf(id))
    ensures PreviousRoute(sections, nextId).Some?
  {
    var i := SectionIndex(sections, id);
    PathOfInjective(nextId, sections[i + 1].id);
    PreviousOfSection(sections, i + 1);
    RouteOfId(sections, id);
  }

  /** The first section has no previous route and, with distinct ids, the
      last has no next route. */
  lemma EndsHaveNoLink(sections: seq<Section>)
    requires |sections| > 0
    ensures PreviousRoute(sections, sections[0].id).None?
    ensures DistinctIds(sections) ==> NextRoute(sections, sections[|sections| - 1].id).None?
  {
    if DistinctIds(sections) {
      assert SectionIndex(sections, sections[|sections| - 1].id) == |sections| - 1;
    }
  }
}
