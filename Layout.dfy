/**
 * The layout stylesheet: a `@media` block that frees the main area, the
 * header and the drawers below a breakpoint, followed by a `:root` block of
 * custom properties for the shell's dimensions and overlay.
 */
module Layout {
  import opened Text
  import opened Optional
  import Css
  import opened Dom
  import opened EngineUtils

  /* ------------------------------------------------------------------ */
  /* Configuration                                                       */
  /* ------------------------------------------------------------------ */

  /** The named breakpoints and their widths in pixels. */
  const Breakpoints: map<string, int> :=
    map["sm" := 576, "md" := 768, "lg" := 992, "xl" := 1200, "xxl" := 1400]

  datatype BreakpointConfig = BreakpointConfig(
    name: string, width: int,
    top: bool, bottom: bool, left: bool, right: bool,
    main: bool, header: bool)

  /** A partial breakpoint configuration; `None` is an omitted field. */
  datatype BreakpointInput = BreakpointInput(
    name: Option<string>, width: Option<int>,
    top: Option<bool>, bottom: Option<bool>, left: Option<bool>, right: Option<bool>,
    main: Option<bool>, header: Option<bool>)

  const DefaultBreakpoint := BreakpointConfig("", 0, false, false, false, false, true, true)

  /** `{...DEFAULT_BREAKPOINT, ...breakpoint}`. */
  function ResolveBreakpoint(b: BreakpointInput): BreakpointConfig
  {
    BreakpointConfig(
      b.name.GetOr(""), b.width.GetOr(0),
      b.top.GetOr(false), b.bottom.GetOr(false), b.left.GetOr(false), b.right.GetOr(false),
      b.main.GetOr(true), b.header.GetOr(true))
  }

  /** Shell dimensions and overlay settings, each already written as the
      text a template literal gives the number (or string). */
  datatype LayoutConfig = LayoutConfig(
    system: string, header: string, footer: string,
    left: string, right: string, leftMini: string, rightMini: string,
    drawerSpeed: string)

  datatype OverlayConfig = OverlayConfig(opacity: string, color: string)

  datatype LayoutPart = LayoutPart(
    system: Option<string>, header: Option<string>, footer: Option<string>,
    left: Option<string>, right: Option<string>, leftMini: Option<string>, rightMini: Option<string>,
    drawerSpeed: Option<string>)

  datatype OverlayPart = OverlayPart(opacity: Option<string>, color: Option<string>)

  const DefaultLayout := LayoutConfig("0", "56", "48", "240", "240", "64", "64", "0.2")

  const DefaultOverlay := OverlayConfig("0.45", "black")

  function ResolveLayout(l: LayoutPart): LayoutConfig
  {
    LayoutConfig(
      l.system.GetOr("0"), l.header.GetOr("56"), l.footer.GetOr("48"),
      l.left.GetOr("240"), l.right.GetOr("240"), l.leftMini.GetOr("64"), l.rightMini.GetOr("64"),
      l.drawerSpeed.GetOr("0.2"))
  }

  function ResolveOverlay(o: OverlayPart): OverlayConfig
  {
    OverlayConfig(o.opacity.GetOr("0.45"), o.color.GetOr("black"))
  }

  /** The argument of `layout()`; an omitted section is all `None`. */
  datatype LayoutInput = LayoutInput(breakpoint: BreakpointInput, layout: LayoutPart, overlay: OverlayPart)

  /* ------------------------------------------------------------------ */
  /* Breakpoint block                                                    */
  /* ------------------------------------------------------------------ */

  /** The strings whose flag is set, in table order. */
  function Selected(table: seq<(bool, string)>): (r: seq<string>)
    ensures |r| <= |table|
  {
    if |table| == 0 then []
    else (if table[0].0 then [table[0].1] else []) + Selected(table[1..])
  }

  lemma {:induction false} SelectedPair(a: bool, x: string, b: bool, y: string)
    ensures Selected([(a, x), (b, y)])
         == [] + (if a then [x] else []) + (if b then [y] else [])
  {
    assert [(a, x), (b, y)][1..] == [(b, y)];
    assert [(b, y)][1..] == [];
  }

  const MarginLeft := "margin-left: 0 !important;"
  const MarginRight := "margin-right: 0 !important;"
  const DrawerTop := "top: 0 !important;"
  const DrawerBottom := "bottom: 0 !important;"

  function MarginRules(bp: BreakpointConfig): seq<string>
  {
    Selected([(bp.left, MarginLeft), (bp.right, MarginRight)])
  }

  function DrawerRules(bp: BreakpointConfig): seq<string>
  {
    Selected([(bp.top, DrawerTop), (bp.bottom, DrawerBottom)])
  }

  /** The shared margin text of the main-area and header rules. */
  function MarginText(bp: BreakpointConfig): string
  {
    Join(MarginRules(bp), " ")
  }

  /** A rule `selector { body }`. */
  function Rule(selector: string, body: string): string
  {
    selector + " { " + body + " }"
  }

  function SelectorRules(bp: BreakpointConfig): seq<string>
  {
    Selected([(bp.main, Rule(".uizy-main", MarginText(bp))),
              (bp.header, Rule(".uizy-header", MarginText(bp)))])
  }

  /** The media width: a table entry for a non-empty name, the configured
      width for the empty name; a name missing from the table has no width
      (it is written as `undefined`). */
  datatype Width = Px(pixels: int) | NoEntry

  function MediaWidth(bp: BreakpointConfig): (w: Width)
    ensures bp.name == "" ==> w == Px(bp.width)
    ensures bp.name != "" && bp.name in Breakpoints ==> w == Px(Breakpoints[bp.name])
    ensures bp.name != "" && bp.name !in Breakpoints ==> w == NoEntry
  {
    if bp.name == "" then Px(bp.width)
    else if bp.name in Breakpoints then Px(Breakpoints[bp.name])
    else NoEntry
  }

  function WidthText(w: Width): string
  {
    match w
    case Px(n) => IntToString(n)
    case NoEntry => "undefined"
  }

  /** The media-block template. */
  function MediaBlock(width: string, rules: string, drawer: string): string
  {
    "@media (max-width: " + width + "px) {" + rules + Rule(".uizy-drawer", drawer) + "}"
  }

  /** The breakpoint block, assembled from its parts. */
  function BreakpointCss(bp: BreakpointConfig): string
  {
    MediaBlock(WidthText(MediaWidth(bp)), Join(SelectorRules(bp), " "), Join(DrawerRules(bp), ","))
  }

  /** `if (cond) rules.push(rule)`. */
  method PushIf(rules: seq<string>, cond: bool, rule: string) returns (r: seq<string>)
    ensures r == rules + (if cond then [rule] else [])
  {
    r := rules;
    if cond {
      r := r + [rule];
    }
  }

  /** `setBreakPoint`: collects the rules conditionally, then writes the
      block. */
  method SetBreakPoint(bp: BreakpointConfig) returns (css: string)
    ensures css == BreakpointCss(bp)
  {
    var marginRules: seq<string> := [];
    var drawerRules: seq<string> := [];
    var allRules: seq<string> := [];
    marginRules := PushIf(marginRules, bp.left, MarginLeft);
    marginRules := PushIf(marginRules, bp.right, MarginRight);
    drawerRules := PushIf(drawerRules, bp.top, DrawerTop);
    drawerRules := PushIf(drawerRules, bp.bottom, DrawerBottom);
    var width := Px(bp.width);
    if bp.name != "" {
      width := if bp.name in Breakpoints then Px(Breakpoints[bp.name]) else NoEntry;
    }
    var margin := Join(marginRules, " ");
    allRules := PushIf(allRules, bp.main, Rule(".uizy-main", margin));
    allRules := PushIf(allRules, bp.header, Rule(".uizy-header", margin));
    var rules := Join(allRules, " ");
    SelectedPair(bp.left, MarginLeft, bp.right, MarginRight);
    SelectedPair(bp.top, DrawerTop, bp.bottom, DrawerBottom);
    SelectedPair(bp.main, Rule(".uizy-main", margin), bp.header, Rule(".uizy-header", margin));
    css := MediaBlock(WidthText(width), rules, Join(drawerRules, ","));
  }

  /** The margin rules: margin-left exactly when `left`, margin-right
      exactly when `right`, left first. */
  lemma MarginRulesExact(bp: BreakpointConfig)
    ensures MarginLeft in MarginRules(bp) <==> bp.left
    ensures MarginRight in MarginRules(bp) <==> bp.right
    ensures MarginRules(bp) == (if bp.left then [MarginLeft] else []) + (if bp.right then [MarginRight] else [])
  {
    SelectedPair(bp.left, MarginLeft, bp.right, MarginRight);
  }

  /** The drawer rules: top exactly when `top`, bottom exactly when
      `bottom`, joined by a comma. */
  lemma DrawerRulesExact(bp: BreakpointConfig)
    ensures DrawerTop in DrawerRules(bp) <==> bp.top
    ensures DrawerBottom in DrawerRules(bp) <==> bp.bottom
    ensures bp.top && bp.bottom ==> Join(DrawerRules(bp), ",") == DrawerTop + "," + DrawerBottom
  {
    SelectedPair(bp.top, DrawerTop, bp.bottom, DrawerBottom);
  }

  /** A main-area rule exactly when `main`, a header rule exactly when
      `header`, both carrying the same margin text. */
  lemma SelectorRulesExact(bp: BreakpointConfig)
    ensures Rule(".uizy-main", MarginText(bp)) in SelectorRules(bp) <==> bp.main
    ensures Rule(".uizy-header", MarginText(bp)) in SelectorRules(bp) <==> bp.header
    ensures |SelectorRules(bp)| == (if bp.main then 1 else 0) + (if bp.header then 1 else 0)
  {
    var m := Rule(".uizy-main", MarginText(bp));
    var h := Rule(".uizy-header", MarginText(bp));
    SelectedPair(bp.main, m, bp.header, h);
    assert m[1] == 'u' && h[1] == 'u' && m[6] == 'm' && h[6] == 'h';
  }

  lemma NamedBreakpointWidths()
    ensures MediaWidth(DefaultBreakpoint.(name := "md")) == Px(768)
    ensures MediaWidth(DefaultBreakpoint.(name := "xxl")) == Px(1400)
    ensures MediaWidth(DefaultBreakpoint.(width := 900)) == Px(900)
    ensures MediaWidth(DefaultBreakpoint.(name := "huge")) == NoEntry
  {
  }

  /* ------------------------------------------------------------------ */
  /* Root block                                                          */
  /* ------------------------------------------------------------------ */

  /** An entry of the custom-property table. */
  datatype VarSpec = VarSpec(key: string, name: string, unit: string)

  const CssVarMap: seq<VarSpec> := [
    VarSpec("system", "--uizy-system-bar-height", "px"),
    VarSpec("header", "--uizy-header-height", "px"),
    VarSpec("footer", "--uizy-footer-height", "px"),
    VarSpec("left", "--uizy-left-width", "px"),
    VarSpec("right", "--uizy-right-width", "px"),
    VarSpec("leftMini", "--uizy-left-mini-width", "px"),
    VarSpec("rightMini", "--uizy-right-mini-width", "px"),
    VarSpec("drawerSpeed", "--uizy-drawer-speed", "s"),
    VarSpec("color", "--uizy-overlay-color", ""),
    VarSpec("opacity", "--uizy-overlay-opacity", "")
  ]

  /** `{...layout, ...overlay}`: the two records read as one object. */
  datatype Vars = Vars(layout: LayoutConfig, overlay: OverlayConfig)

  /** `vars[key]` written into a template: a key the object lacks is
      `undefined`. */
  function Lookup(vars: Vars, key: string): string
  {
    match key
    case "system" => vars.layout.system
    case "header" => vars.layout.header
    case "footer" => vars.layout.footer
    case "left" => vars.layout.left
    case "right" => vars.layout.right
    case "leftMini" => vars.layout.leftMini
    case "rightMini" => vars.layout.rightMini
    case "drawerSpeed" => vars.layout.drawerSpeed
    case "opacity" => vars.overlay.opacity
    case "color" => vars.overlay.color
    case _ => "undefined"
  }

  /** One declaration per table entry, in table order. */
  function RootDecls(vars: Vars): (r: seq<Css.Decl>)
    ensures |r| == |CssVarMap|
    ensures forall i :: 0 <= i < |CssVarMap| ==>
      r[i] == Css.Decl(CssVarMap[i].name, Lookup(vars, CssVarMap[i].key) + CssVarMap[i].unit)
  {
    seq(|CssVarMap|, i requires 0 <= i < |CssVarMap| =>
      Css.Decl(CssVarMap[i].name, Lookup(vars, CssVarMap[i].key) + CssVarMap[i].unit))
  }

  const OverlayFullRule :=
    "uizy-overlay.full { z-index: 100 !important; top: 0 !important; bottom: 0 !important; }"

  /** `setLayout`: the `:root` block, then the full-height overlay rule. */
  function SetLayout(vars: Vars): string
  {
    ":root { " + Css.Block(RootDecls(vars)) + " } " + OverlayFullRule
  }

  /** The value given for a table key in a partial configuration. */
  function Given(l: LayoutPart, o: OverlayPart, key: string): Option<string>
  {
    match key
    case "system" => l.system
    case "header" => l.header
    case "footer" => l.footer
    case "left" => l.left
    case "right" => l.right
    case "leftMini" => l.leftMini
    case "rightMini" => l.rightMini
    case "drawerSpeed" => l.drawerSpeed
    case "opacity" => o.opacity
    case "color" => o.color
    case _ => None
  }

  const NoLayout := LayoutPart(None, None, None, None, None, None, None, None)
  const NoOverlay := OverlayPart(None, None)

  /** With nothing given, the root block declares the defaults. */
  lemma DefaultRootDecls()
    ensures RootDecls(Vars(ResolveLayout(NoLayout), ResolveOverlay(NoOverlay))) == [
      Css.Decl("--uizy-system-bar-height", "0px"),
      Css.Decl("--uizy-header-height", "56px"),
      Css.Decl("--uizy-footer-height", "48px"),
      Css.Decl("--uizy-left-width", "240px"),
      Css.Decl("--uizy-right-width", "240px"),
      Css.Decl("--uizy-left-mini-width", "64px"),
      Css.Decl("--uizy-right-mini-width", "64px"),
      Css.Decl("--uizy-drawer-speed", "0.2s"),
      Css.Decl("--uizy-overlay-color", "black"),
      Css.Decl("--uizy-overlay-opacity", "0.45")]
  {
    var v := Vars(ResolveLayout(NoLayout), ResolveOverlay(NoOverlay));
    var r := RootDecls(v);
    assert r[0].value == "0px";
    assert r[1].value == "56px";
    assert r[2].value == "48px";
    assert r[3].value == "240px";
    assert r[4].value == "240px";
    assert r[5].value == "64px";
    assert r[6].value == "64px";
    assert r[7].value == "0.2s";
    assert r[8].value == "black";
    assert r[9].value == "0.45";
  }

  /** Each field is filled independently: a given value is used with the
      table's unit, an omitted one takes that field's default. */
  lemma FieldsIndependent(l: LayoutPart, o: OverlayPart, i: nat)
    requires i < |CssVarMap|
    ensures var d := RootDecls(Vars(ResolveLayout(l), ResolveOverlay(o)))[i];
            var key := CssVarMap[i].key;
            d.value == Given(l, o, key).GetOr(Lookup(Vars(DefaultLayout, DefaultOverlay), key)) + CssVarMap[i].unit
  {
  }

  /** No table name contains `:` or `;`, no unit contains `;`. */
  lemma TableIsPlain()
    ensures forall i :: 0 <= i < |CssVarMap| ==>
      FreeOf(CssVarMap[i].name, {':', ';'}) && FreeOf(CssVarMap[i].unit, {';'})
  {
    DimensionNamesPlain();
    OtherNamesPlain();
  }

  lemma DimensionNamesPlain()
    ensures FreeOf("--uizy-system-bar-height", {':', ';'})
    ensures FreeOf("--uizy-header-height", {':', ';'})
    ensures FreeOf("--uizy-footer-height", {':', ';'})
    ensures FreeOf("--uizy-left-width", {':', ';'})
    ensures FreeOf("--uizy-right-width", {':', ';'})
  {
  }

  lemma OtherNamesPlain()
    ensures FreeOf("--uizy-left-mini-width", {':', ';'})
    ensures FreeOf("--uizy-right-mini-width", {':', ';'})
    ensures FreeOf("--uizy-drawer-speed", {':', ';'})
    ensures FreeOf("--uizy-overlay-color", {':', ';'})
    ensures FreeOf("--uizy-overlay-opacity", {':', ';'})
  {
  }

  /** The root block reads back as exactly the table's declarations when
      no value contains a semicolon. */
  lemma RootBlockReadsBack(vars: Vars)
    requires forall i :: 0 <= i < |CssVarMap| ==> FreeOf(Lookup(vars, CssVarMap[i].key), {';'})
    ensures Css.ParseBlock(Css.Block(RootDecls(vars))) == Some(RootDecls(vars))
  {
    var ds := RootDecls(vars);
    TableIsPlain();
    forall i | 0 <= i < |ds|
      ensures Css.Plain(ds[i])
    {
      var spec := CssVarMap[i];
      var v := Lookup(vars, spec.key);
      assert FreeOf(v, {';'});
      assert ds[i].value == v + spec.unit;
    }
    Css.ParseBlockRender(ds);
  }

  /* ------------------------------------------------------------------ */
  /* layout()                                                            */
  /* ------------------------------------------------------------------ */

  /** The stylesheet `layout()` injects: breakpoint block, then root block. */
  function LayoutCss(input: LayoutInput): string
  {
    BreakpointCss(ResolveBreakpoint(input.breakpoint))
    + SetLayout(Vars(ResolveLayout(input.layout), ResolveOverlay(input.overlay)))
  }

  /** `layout()`: resolves the defaults and injects the stylesheet under the
      id "main". */
  method ApplyLayout(doc: Document, input: LayoutInput)
    modifies doc
    ensures doc.page == Injected(old(doc.page), "main", true, Minify(LayoutCss(input)))
  {
    var bp := ResolveBreakpoint(input.breakpoint);
    var ly := ResolveLayout(input.layout);
    var ov := ResolveOverlay(input.overlay);
    var media := SetBreakPoint(bp);
    var root := SetLayout(Vars(ly, ov));
    var css := media + root;
    assert css == LayoutCss(input);
    InjectCss(doc, css, None);
  }
}
