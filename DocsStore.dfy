/** The documentation site's state: the color scheme, the sidebar flag and
    the search query with the sections it selects. The signals become the
    fields of one `Store`; `typeof window`, `localStorage` and
    `matchMedia` become parameters of the constructor. */
module DocsStore {
  import opened Text
  import opened Optional

  /** One documentation section: id, title, emoji, description, keywords. */
  datatype Section = Section(id: string, title: string, emoji: string, description: string, keywords: seq<string>)

  /** The sections of the site, in navigation order. */
  const DocSections: seq<Section> := [
    Section("getting-started", "Getting Started", "\U{1F680}",
      "Learn how to install and use Uizy CSS",
      ["install", "setup", "start", "begin", "quick"]),
    Section("display", "Display", "\U{1F441}\U{FE0F}",
      "Show, hide, and change how elements appear",
      ["show", "hide", "visible", "none", "block", "flex", "grid", "inline"]),
    Section("grid", "Grid System", "\U{1F4CA}",
      "Create layouts with rows and columns",
      ["row", "column", "layout", "col", "12", "responsive"]),
    Section("spacing", "Spacing", "\U{1F4CF}",
      "Add space around and inside elements",
      ["margin", "padding", "space", "gap", "distance"]),
    Section("typography", "Typography", "\U{270F}\U{FE0F}",
      "Style your text - size, alignment, and decoration",
      ["text", "font", "size", "bold", "italic", "align", "center"]),
    Section("borders", "Borders", "\U{1F532}",
      "Add borders and rounded corners",
      ["border", "radius", "round", "corner", "outline"]),
    Section("shadows", "Shadows", "\U{1F311}",
      "Add depth with box shadows",
      ["shadow", "elevation", "depth", "drop"]),
    Section("extras", "Extras", "\U{2728}",
      "Helpful utilities like cursor and dimensions",
      ["cursor", "pointer", "width", "height", "overflow"]),
    Section("responsive", "Responsive Design", "\U{1F4F1}",
      "Make your site work on all screen sizes",
      ["mobile", "tablet", "desktop", "breakpoint", "screen"]),
    Section("layout", "Layout System", "\U{1F3D7}\U{FE0F}",
      "Build app layouts with headers, sidebars, footers, and drawers",
      ["layout", "header", "footer", "sidebar", "drawer", "navigation", "system-bar", "overlay", "fixed", "clip"]),
    Section("customization", "Customization", "\U{1F3A8}",
      "Customize colors, fonts, spacing, and more with CSS variables",
      ["customize", "theme", "variables", "css", "color", "font", "config", "override"])
  ]

  /** No two sections share an id. */
  predicate DistinctIds(sections: seq<Section>)
  {
    forall i, j :: 0 <= i < j < |sections| ==> sections[i].id != sections[j].id
  }

  /** The length and second character of an id, which already tell the
      site's ids apart. */
  function IdKey(id: string): (int, char)
  {
    (|id|, if |id| > 1 then id[1] else ' ')
  }

  lemma DocSectionIdsDistinct()
    ensures |DocSections| == 11
    ensures DistinctIds(DocSections)
  {
    var keys := [(15, 'e'), (7, 'i'), (4, 'r'), (7, 'p'), (10, 'y'), (7, 'o'), (7, 'h'), (6, 'x'), (10, 'e'), (6, 'a'), (13, 'u')];
    forall i | 0 <= i < |DocSections|
      ensures IdKey(DocSections[i].id) == keys[i]
    {
    }
    assert forall i, j :: 0 <= i < j < |keys| ==> keys[i] != keys[j];
  }

  /* ---------------------------------------------------------------- */
  /* Color scheme                                                      */
  /* ---------------------------------------------------------------- */

  datatype Scheme = Light | Dark

  /** The text the scheme is stored as. */
  function SchemeName(t: Scheme): string
  {
    match t
    case Light => "light"
    case Dark => "dark"
  }

  /** `getInitialTheme()`: "light" without a window; otherwise a stored
      "dark" or "light" as it is, and the dark-scheme media query when
      nothing usable is stored. */
  function InitialTheme(hasWindow: bool, stored: Option<string>, prefersDark: bool): (t: Scheme)
    ensures !hasWindow ==> t == Light
    ensures hasWindow && stored.Some? && (stored.value == "dark" || stored.value == "light") ==>
      SchemeName(t) == stored.value
    ensures hasWindow && !(stored.Some? && (stored.value == "dark" || stored.value == "light")) ==>
      (t == Dark <==> prefersDark)
  {
    if !hasWindow then Light
    else if stored == Some("dark") then Dark
    else if stored == Some("light") then Light
    else if prefersDark then Dark
    else Light
  }

  /** A scheme written to storage is the one read back on the next load,
      whatever the media query says. */
  lemma StoredThemeRestored(t: Scheme, prefersDark: bool)
    ensures InitialTheme(true, Some(SchemeName(t)), prefersDark) == t
  {
  }

  /** `theme.value === "light" ? "dark" : "light"`. */
  function Toggled(t: Scheme): (r: Scheme)
    ensures r != t
  {
    if t == Light then Dark else Light
  }

  /** Two toggles restore the scheme. */
  lemma ToggleTwice(t: Scheme)
    ensures Toggled(Toggled(t)) == t
  {
  }

  /* ---------------------------------------------------------------- */
  /* Search                                                            */
  /* ---------------------------------------------------------------- */

  /** Some keyword, as stored, contains the query. */
  predicate KeywordIncludes(keywords: seq<string>, query: string)
  {
    exists i :: 0 <= i < |keywords| && Includes(keywords[i], query)
  }

  /** The lower-cased title or description contains the query, or one of
      the keywords as written does. */
  predicate Matches(section: Section, query: string)
  {
    Includes(ToLower(section.title), query)
    || Includes(ToLower(section.description), query)
    || KeywordIncludes(section.keywords, query)
  }

  /** `r` is `s` with some elements removed, the rest in order. */
  predicate SubsequenceOf<T(==)>(r: seq<T>, s: seq<T>)
  {
    if |r| == 0 then true
    else if |s| == 0 then false
    else if r[0] == s[0] then SubsequenceOf(r[1..], s[1..])
    else SubsequenceOf(r, s[1..])
  }

  /** `sections.filter(section => Matches(section, query))`. */
  function Kept(sections: seq<Section>, query: string): (r: seq<Section>)
    ensures forall s :: s in r <==> s in sections && Matches(s, query)
    ensures SubsequenceOf(r, sections)
  {
    if |sections| == 0 then []
    else
      var rest := Kept(sections[1..], query);
      if Matches(sections[0], query) then
        assert ([sections[0]] + rest)[1..] == rest;
        [sections[0]] + rest
      else
        assert |rest| > 0 ==> rest[0] in rest;
        rest
  }

  /** The search text as it is compared: lower-cased, then trimmed. */
  function Normalised(query: string): string
  {
    Trim(ToLower(query))
  }

  /** `filteredSections`: every section when the normalised query is
      empty, otherwise the matching sections in their order. */
  function FilteredSections(sections: seq<Section>, query: string): (r: seq<Section>)
    ensures Normalised(query) == "" ==> r == sections
    ensures Normalised(query) != "" ==>
      forall s :: s in r <==> s in sections && Matches(s, Normalised(query))
    ensures SubsequenceOf(r, sections)
  {
    var q := Normalised(query);
    if q == "" then
      SubsequenceOfSelf(sections);
      sections
    else Kept(sections, q)
  }

  lemma {:induction false} SubsequenceOfSelf<T>(s: seq<T>)
    ensures SubsequenceOf(s, s)
  {
    if |s| > 0 {
      SubsequenceOfSelf(s[1..]);
    }
  }

  /** Normalising is idempotent, so the filter gives the same sections for
      a query and for its normalised form: case and surrounding white space
      of the query do not matter. */
  lemma FilterIgnoresCaseAndPadding(sections: seq<Section>, query: string)
    ensures FilteredSections(sections, query) == FilteredSections(sections, Normalised(query))
  {
    NormalisedIdempotent(query);
  }

  lemma NormalisedIdempotent(query: string)
    ensures Normalised(Normalised(query)) == Normalised(query)
  {
    var low := ToLower(query);
    var start := TrimStart(low);
    var x := TrimEnd(start);
    assert x == Trim(low);
    var off := |low| - |start|;
    assert start == low[off..];
    forall i | 0 <= i < |x|
      ensures LowerChar(x[i]) == x[i]
    {
      assert x[i] == start[i];
      assert start[i] == low[off + i];
      LowerCharIdempotent(query[off + i]);
    }
    LowerFixed(x);
    if |x| > 0 {
      assert x[0] == start[0];
    }
    TrimOfTrimmed(x);
  }

  lemma LowerCharIdempotent(c: char)
    ensures LowerChar(LowerChar(c)) == LowerChar(c)
  {
  }

  /** Text with no upper-case letter is its own lower case. */
  lemma LowerFixed(s: string)
    requires forall i :: 0 <= i < |s| ==> LowerChar(s[i]) == s[i]
    ensures ToLower(s) == s
  {
  }

  /* ---------------------------------------------------------------- */
  /* The signals                                                       */
  /* ---------------------------------------------------------------- */

  class Store {
    var searchQuery: string
    var sidebarOpen: bool
    var theme: Scheme

    /** The signals' initial values. */
    constructor(hasWindow: bool, stored: Option<string>, prefersDark: bool)
      ensures searchQuery == "" && !sidebarOpen
      ensures theme == InitialTheme(hasWindow, stored, prefersDark)
    {
      searchQuery := "";
      sidebarOpen := false;
      theme := InitialTheme(hasWindow, stored, prefersDark);
    }

    /** The `filteredSections` computed signal. */
    function Filtered(): (r: seq<Section>)
      reads this
      ensures SubsequenceOf(r, DocSections)
    {
      FilteredSections(DocSections, searchQuery)
    }

    /** `toggleTheme()`. */
    method ToggleTheme()
      modifies this
      ensures theme == Toggled(old(theme)) && theme != old(theme)
      ensures searchQuery == old(searchQuery) && sidebarOpen == old(sidebarOpen)
    {
      theme := Toggled(theme);
    }

    /** `toggleSidebar()`. */
    method ToggleSidebar()
      modifies this
      ensures sidebarOpen == !old(sidebarOpen)
      ensures searchQuery == old(searchQuery) && theme == old(theme)
    {
      sidebarOpen := !sidebarOpen;
    }

    /** `closeSidebar()`: the sidebar is closed whatever it was, so a second
        call changes nothing. */
    method CloseSidebar()
      modifies this
      ensures !sidebarOpen
      ensures searchQuery == old(searchQuery) && theme == old(theme)
    {
      sidebarOpen := false;
    }
  }
}
