/**
 * The older helper module src/components/utils.ts: the same minifier and
 * style upsert as the engine (except that the upsert matches an element of
 * any tag), a breakpoint template fixed at 1024px, and a `:root` template
 * with its own defaults, both written as multi-line template literals.
 */
module LegacyUtils {
  import opened Text
  import opened Optional
  import Css
  import opened Dom
  import opened EngineUtils
  import Layout

  /* ------------------------------------------------------------------ */
  /* removeSpace and the style upsert                                    */
  /* ------------------------------------------------------------------ */

  /** `removeSpace`: the replace chain of the engine's minifier, so its
      output has no line break, no two adjacent spaces and no space at
      either end. */
  function RemoveSpace(text: string): (r: string)
    ensures NoLineBreaks(r) && NoAdjacentSpaces(r) && Trimmed(r)
    ensures r == Minify(text)
  {
    MinifyClean(text);
    Trim(StripLineBreaks(CollapseRuns(text)))
  }

  /** `getStyle`: the first element of any tag whose `uizy-design` is the
      id, or a new style element appended to the head. */
  method GetStyle(doc: Document, id: string) returns (k: nat)
    modifies doc
    ensures doc.page == Upserted(old(doc.page), id, false)
    ensures k == UpsertIndex(old(doc.page), id, false)
    ensures k < |Nodes(doc.page)| && FirstTagged(Nodes(doc.page), id, false) == Some(k)
  {
    UpsertFinds(doc.page, id, false);
    var found := FirstTagged(Nodes(doc.page), id, false);
    if found.Some? {
      return found.value;
    }
    k := |doc.page.head|;
    doc.AppendToHead(Fresh("style", id));
  }

  /** `injectCSS(code, id = "main")`. */
  method InjectCss(doc: Document, code: string, id: Option<string>)
    modifies doc
    ensures doc.page == Injected(old(doc.page), StyleId(id), false, RemoveSpace(code))
  {
    var k := GetStyle(doc, StyleId(id));
    doc.SetText(k, RemoveSpace(code));
  }

  /** Unlike the engine's upsert, the legacy one reuses a tagged element
      of any tag: when the elements tagged with the id are none of them
      `style` elements, the legacy upsert leaves the page as it is, while
      the engine's appends a style element to the head. */
  lemma AnyTagReused(p: Page, id: string, i: nat)
    requires i < |Nodes(p)| && Nodes(p)[i].design == Some(id)
    requires forall j :: 0 <= j < |Nodes(p)| ==> !Tagged(Nodes(p)[j], id, true)
    ensures Upserted(p, id, false) == p
    ensures Upserted(p, id, true) == p.(head := p.head + [Fresh("style", id)])
  {
    assert Tagged(Nodes(p)[i], id, false);
  }

  /* ------------------------------------------------------------------ */
  /* setBreakPoint                                                       */
  /* ------------------------------------------------------------------ */

  datatype LegacyBreakpoint = LegacyBreakpoint(left: bool, right: bool, top: bool, bottom: bool)

  function MarginItems(bp: LegacyBreakpoint): seq<string>
  {
    Layout.Selected([(bp.left, Layout.MarginLeft), (bp.right, Layout.MarginRight)])
  }

  function DrawerItems(bp: LegacyBreakpoint): seq<string>
  {
    Layout.Selected([(bp.top, Layout.DrawerTop), (bp.bottom, Layout.DrawerBottom)])
  }

  /** The lines of the breakpoint template: one rule for both `.uizy-main`
      and `.uizy-header` carrying the margin list, then the drawer rule. */
  function BreakpointLines(items: string, drawer: string): seq<string>
  {
    ["", "@media (max-width: 1024px) {", "    .uizy-main,", "    .uizy-header {",
     "        " + items, "    }", "    .uizy-drawer {", "        " + drawer, "    }", "}    ", ""]
  }

  function BreakpointCss(bp: LegacyBreakpoint): string
  {
    Join(BreakpointLines(Join(MarginItems(bp), " "), Join(DrawerItems(bp), " ")), "\n")
  }

  /** `setBreakPoint`: pushes the margin and drawer items, then fills the
      template. */
  method SetBreakPoint(bp: LegacyBreakpoint) returns (css: string)
    ensures css == BreakpointCss(bp)
  {
    var items: seq<string> := [];
    var drawer: seq<string> := [];
    if bp.left {
      items := items + [Layout.MarginLeft];
    }
    if bp.right {
      items := items + [Layout.MarginRight];
    }
    if bp.top {
      drawer := drawer + [Layout.DrawerTop];
    }
    if bp.bottom {
      drawer := drawer + [Layout.DrawerBottom];
    }
    Layout.SelectedPair(bp.left, Layout.MarginLeft, bp.right, Layout.MarginRight);
    Layout.SelectedPair(bp.top, Layout.DrawerTop, bp.bottom, Layout.DrawerBottom);
    css := Join(BreakpointLines(Join(items, " "), Join(drawer, " ")), "\n");
  }

  lemma FixedLinesFree()
    ensures FreeOf("@media (max-width: 1024px) {", {'\n'})
    ensures FreeOf("    .uizy-main,", {'\n'})
    ensures FreeOf("    .uizy-header {", {'\n'})
    ensures FreeOf("    .uizy-drawer {", {'\n'})
  {
  }

  lemma RuleTextsFree()
    ensures FreeOf(Layout.MarginLeft, {'\n'}) && FreeOf(Layout.MarginRight, {'\n'})
    ensures FreeOf(Layout.DrawerTop, {'\n'}) && FreeOf(Layout.DrawerBottom, {'\n'})
  {
  }

  lemma {:induction false} SelectedFree(table: seq<(bool, string)>, seps: set<char>)
    requires forall k :: 0 <= k < |table| ==> FreeOf(table[k].1, seps)
    ensures forall k :: 0 <= k < |Layout.Selected(table)| ==> FreeOf(Layout.Selected(table)[k], seps)
  {
    if |table| > 0 {
      SelectedFree(table[1..], seps);
      var head := if table[0].0 then [table[0].1] else [];
      assert Layout.Selected(table) == head + Layout.Selected(table[1..]);
    }
  }

  lemma ItemsFree(bp: LegacyBreakpoint)
    ensures FreeOf(Join(MarginItems(bp), " "), {'\n'})
    ensures FreeOf(Join(DrawerItems(bp), " "), {'\n'})
  {
    RuleTextsFree();
    SelectedFree([(bp.left, Layout.MarginLeft), (bp.right, Layout.MarginRight)], {'\n'});
    SelectedFree([(bp.top, Layout.DrawerTop), (bp.bottom, Layout.DrawerBottom)], {'\n'});
    JoinFreeOf(MarginItems(bp), " ", {'\n'});
    JoinFreeOf(DrawerItems(bp), " ", {'\n'});
  }

  /** The margin items list margin-left exactly when `left` and
      margin-right exactly when `right`; the drawer items list top exactly
      when `top` and bottom exactly when `bottom`. */
  lemma ItemsExact(bp: LegacyBreakpoint)
    ensures Layout.MarginLeft in MarginItems(bp) <==> bp.left
    ensures Layout.MarginRight in MarginItems(bp) <==> bp.right
    ensures Layout.DrawerTop in DrawerItems(bp) <==> bp.top
    ensures Layout.DrawerBottom in DrawerItems(bp) <==> bp.bottom
  {
    Layout.SelectedPair(bp.left, Layout.MarginLeft, bp.right, Layout.MarginRight);
    Layout.SelectedPair(bp.top, Layout.DrawerTop, bp.bottom, Layout.DrawerBottom);
  }

  lemma BreakpointLinesFree(items: string, drawer: string)
    requires FreeOf(items, {'\n'}) && FreeOf(drawer, {'\n'})
    ensures forall k :: 0 <= k < |BreakpointLines(items, drawer)| ==> FreeOf(BreakpointLines(items, drawer)[k], {'\n'})
  {
    FixedLinesFree();
    FreeOfConcat("        ", items, {'\n'});
    FreeOfConcat("        ", drawer, {'\n'});
  }

  /** Read line by line, the block is always for max-width 1024px, its
      first rule covers both `.uizy-main` and `.uizy-header` and holds the
      space-joined margin items, and the drawer rule holds the space-joined
      drawer items. */
  lemma BreakpointReadsBack(bp: LegacyBreakpoint)
    ensures Split(BreakpointCss(bp), '\n') ==
      ["", "@media (max-width: 1024px) {", "    .uizy-main,", "    .uizy-header {",
       "        " + Join(MarginItems(bp), " "), "    }", "    .uizy-drawer {",
       "        " + Join(DrawerItems(bp), " "), "    }", "}    ", ""]
  {
    var items := Join(MarginItems(bp), " ");
    var drawer := Join(DrawerItems(bp), " ");
    ItemsFree(bp);
    BreakpointLinesFree(items, drawer);
    SplitJoin(BreakpointLines(items, drawer), '\n');
  }

  /* ------------------------------------------------------------------ */
  /* setLayout                                                           */
  /* ------------------------------------------------------------------ */

  /** The legacy defaults: left and right 280, right mini 60, drawer speed
      0.25, opacity "0.7". */
  function ResolveLayout(l: Layout.LayoutPart): Layout.LayoutConfig
  {
    Layout.LayoutConfig(
      l.system.GetOr("0"), l.header.GetOr("56"), l.footer.GetOr("48"),
      l.left.GetOr("280"), l.right.GetOr("280"), l.leftMini.GetOr("64"), l.rightMini.GetOr("60"),
      l.drawerSpeed.GetOr("0.25"))
  }

  function ResolveOverlay(o: Layout.OverlayPart): Layout.OverlayConfig
  {
    Layout.OverlayConfig(o.opacity.GetOr("0.7"), o.color.GetOr("black"))
  }

  /** The ten declaration lines, in the engine's table order. */
  function DeclLines(vars: Layout.Vars): (r: seq<string>)
    ensures |r| == |Layout.CssVarMap|
    ensures forall i :: 0 <= i < |r| ==> r[i] == "    " + Css.Render(Layout.RootDecls(vars)[i])
  {
    var ds := Layout.RootDecls(vars);
    seq(|ds|, i requires 0 <= i < |ds| => "    " + Css.Render(ds[i]))
  }

  const OverlayLines: seq<string> :=
    ["uizy-overlay.full {", "    z-index: 100 !important;", "    top:0 !important;",
     "    bottom:0 !important;", "}", "  "]

  function LayoutLines(vars: Layout.Vars): seq<string>
  {
    ["", ":root {"] + DeclLines(vars) + ["}  "] + OverlayLines
  }

  /** `setLayout`. */
  function SetLayout(l: Layout.LayoutPart, o: Layout.OverlayPart): string
  {
    Join(LayoutLines(Layout.Vars(ResolveLayout(l), ResolveOverlay(o))), "\n")
  }

  /** With nothing given, the legacy template declares its own defaults. */
  lemma DefaultDecls()
    ensures Layout.RootDecls(Layout.Vars(ResolveLayout(Layout.NoLayout), ResolveOverlay(Layout.NoOverlay))) == [
      Css.Decl("--uizy-system-bar-height", "0px"),
      Css.Decl("--uizy-header-height", "56px"),
      Css.Decl("--uizy-footer-height", "48px"),
      Css.Decl("--uizy-left-width", "280px"),
      Css.Decl("--uizy-right-width", "280px"),
      Css.Decl("--uizy-left-mini-width", "64px"),
      Css.Decl("--uizy-right-mini-width", "60px"),
      Css.Decl("--uizy-drawer-speed", "0.25s"),
      Css.Decl("--uizy-overlay-color", "black"),
      Css.Decl("--uizy-overlay-opacity", "0.7")]
  {
    var v := Layout.Vars(ResolveLayout(Layout.NoLayout), ResolveOverlay(Layout.NoOverlay));
    var r := Layout.RootDecls(v);
    assert r[0].value == "0px";
    assert r[1].value == "56px";
    assert r[2].value == "48px";
    assert r[3].value == "280px";
    assert r[4].value == "280px";
    assert r[5].value == "64px";
    assert r[6].value == "60px";
    assert r[7].value == "0.25s";
    assert r[8].value == "black";
    assert r[9].value == "0.7";
  }

  lemma OverlayLinesFree()
    ensures forall k :: 0 <= k < |OverlayLines| ==> FreeOf(OverlayLines[k], {'\n'})
  {
  }

  lemma TableNamesFree()
    ensures forall i :: 0 <= i < |Layout.CssVarMap| ==>
      FreeOf(Layout.CssVarMap[i].name, {'\n'}) && FreeOf(Layout.CssVarMap[i].unit, {'\n'})
  {
    DimensionNamesFree();
    OtherNamesFree();
  }

  lemma DimensionNamesFree()
    ensures FreeOf("--uizy-system-bar-height", {'\n'})
    ensures FreeOf("--uizy-header-height", {'\n'})
    ensures FreeOf("--uizy-footer-height", {'\n'})
    ensures FreeOf("--uizy-left-width", {'\n'})
    ensures FreeOf("--uizy-right-width", {'\n'})
  {
  }

  lemma OtherNamesFree()
    ensures FreeOf("--uizy-left-mini-width", {'\n'})
    ensures FreeOf("--uizy-right-mini-width", {'\n'})
    ensures FreeOf("--uizy-drawer-speed", {'\n'})
    ensures FreeOf("--uizy-overlay-color", {'\n'})
    ensures FreeOf("--uizy-overlay-opacity", {'\n'})
    ensures FreeOf("px", {'\n'}) && FreeOf("s", {'\n'})
  {
  }

  lemma LayoutLinesFree(vars: Layout.Vars)
    requires forall i :: 0 <= i < |Layout.CssVarMap| ==>
      FreeOf(Layout.Lookup(vars, Layout.CssVarMap[i].key), {'\n'})
    ensures forall k :: 0 <= k < |LayoutLines(vars)| ==> FreeOf(LayoutLines(vars)[k], {'\n'})
  {
    var decls := DeclLines(vars);
    forall i | 0 <= i < |decls|
      ensures FreeOf(decls[i], {'\n'})
    {
      DeclLineFree(vars, i);
    }
    OverlayLinesFree();
    assert FreeOf(":root {", {'\n'}) && FreeOf("}  ", {'\n'});
  }

  /** Read line by line, the template is `:root {`, one line per table
      entry holding that entry's declaration, the closing brace, then the
      fixed full-height overlay rule. */
  lemma LayoutReadsBack(l: Layout.LayoutPart, o: Layout.OverlayPart)
    requires forall i :: 0 <= i < |Layout.CssVarMap| ==>
      FreeOf(Layout.Lookup(Layout.Vars(ResolveLayout(l), ResolveOverlay(o)), Layout.CssVarMap[i].key), {'\n'})
    ensures Split(SetLayout(l, o), '\n') ==
      ["", ":root {"] + DeclLines(Layout.Vars(ResolveLayout(l), ResolveOverlay(o))) + ["}  "] + OverlayLines
  {
    var vars := Layout.Vars(ResolveLayout(l), ResolveOverlay(o));
    LayoutLinesFree(vars);
    SplitJoin(LayoutLines(vars), '\n');
  }

  lemma DeclLineFree(vars: Layout.Vars, i: nat)
    requires i < |Layout.CssVarMap|
    requires FreeOf(Layout.Lookup(vars, Layout.CssVarMap[i].key), {'\n'})
    ensures FreeOf(DeclLines(vars)[i], {'\n'})
  {
    var spec := Layout.CssVarMap[i];
    var v := Layout.Lookup(vars, spec.key);
    TableNamesFree();
    FreeOfConcat(v, spec.unit, {'\n'});
    FreeOfConcat(spec.name, ": ", {'\n'});
    FreeOfConcat(spec.name + ": ", v + spec.unit, {'\n'});
    FreeOfConcat(spec.name + ": " + (v + spec.unit), ";", {'\n'});
    FreeOfConcat("    ", spec.name + ": " + (v + spec.unit) + ";", {'\n'});
    assert spec.name + ": " + (v + spec.unit) == spec.name + ": " + v + spec.unit;
  }
}
