/**
 * The theme system of src/engine/theme.ts: three generators of CSS custom
 * properties (system colors, scrollbar, brand color sets) and the global
 * `Theme` accumulator that collects their output and renders it as one
 * string.
 */
module Themes {
  import opened Text
  import opened Optional
  import opened Css

  /* ---------------------------------------------------------------- */
  /* System colors                                                     */
  /* ---------------------------------------------------------------- */

  /** A `Record<string, string>` as `Object.entries` lists it. */
  type SystemColors = seq<(string, string)>

  /** One `--color-{name}: {value};` declaration per entry, in entry order. */
  function SystemDecls(props: SystemColors): (r: seq<Decl>)
    ensures |r| == |props|
    ensures forall i :: 0 <= i < |props| ==> r[i] == Decl("--color-" + props[i].0, props[i].1)
  {
    seq(|props|, i requires 0 <= i < |props| => Decl("--color-" + props[i].0, props[i].1))
  }

  /** `generateSystemCSS`. */
  function SystemCss(props: SystemColors): string
  {
    Block(SystemDecls(props))
  }

  /** An entry whose name has no `:` or `;` and whose value has no `;`. */
  predicate PlainEntry(e: (string, string))
  {
    FreeOf(e.0, {':', ';'}) && FreeOf(e.1, {';'})
  }

  lemma ColorPrefixPlain()
    ensures FreeOf("--color-", {':', ';'})
  {
  }

  /** The system CSS reads back as exactly one `--color-{name}` declaration
      per entry, with that entry's value, in entry order. */
  lemma SystemCssReadsBack(props: SystemColors)
    requires forall i :: 0 <= i < |props| ==> PlainEntry(props[i])
    ensures ParseBlock(SystemCss(props)) == Some(SystemDecls(props))
  {
    forall i | 0 <= i < |props|
      ensures Plain(SystemDecls(props)[i])
    {
      ColorPrefixPlain();
      FreeOfConcat("--color-", props[i].0, {':', ';'});
    }
    ParseBlockRender(SystemDecls(props));
  }

  /* ---------------------------------------------------------------- */
  /* Scrollbar                                                         */
  /* ---------------------------------------------------------------- */

  /** `ScrollbarOptions`: every field optional. */
  datatype ScrollbarOptions = ScrollbarOptions(size: Option<int>, color: Option<string>, hover: Option<string>)

  /** `Required<ScrollbarOptions>`. */
  datatype ScrollbarConfig = ScrollbarConfig(size: int, color: string, hover: string)

  /** `DEFAULT_SCROLLBAR`. */
  const DefaultScrollbar := ScrollbarConfig(22, "rgba(121, 121, 121, 0.4)", "rgba(121, 121, 121, 0.7)")

  /** Each missing option takes its default (`??`). */
  function ResolveScrollbar(o: ScrollbarOptions): ScrollbarConfig
  {
    ScrollbarConfig(
      o.size.GetOr(DefaultScrollbar.size),
      o.color.GetOr(DefaultScrollbar.color),
      o.hover.GetOr(DefaultScrollbar.hover))
  }

  function ScrollbarDecls(c: ScrollbarConfig): seq<Decl>
  {
    [Decl("--scrollbar-size", IntToString(c.size) + "px"),
     Decl("--scrollbar-thumb", c.color),
     Decl("--scrollbar-thumb-hover", c.hover)]
  }

  /** `generateScrollbarCSS`. */
  function ScrollbarCss(c: ScrollbarConfig): string
  {
    Block(ScrollbarDecls(c))
  }

  lemma ScrollbarNamesPlain()
    ensures FreeOf("--scrollbar-size", {':', ';'})
    ensures FreeOf("--scrollbar-thumb", {':', ';'})
    ensures FreeOf("--scrollbar-thumb-hover", {':', ';'})
  {
  }

  lemma {:induction false} NatTextPlain(n: nat)
    ensures FreeOf(NatToString(n), {';'})
  {
    if n >= 10 {
      NatTextPlain(n / 10);
      FreeOfConcat(NatToString(n / 10), [DigitChar(n % 10)], {';'});
    }
  }

  lemma SizeTextPlain(size: int)
    ensures FreeOf(IntToString(size) + "px", {';'})
  {
    NatTextPlain(if size < 0 then -size else size);
    if size < 0 {
      FreeOfConcat("-", NatToString(-size), {';'});
    }
    FreeOfConcat(IntToString(size), "px", {';'});
  }

  /** The scrollbar CSS reads back as the size (in px), the thumb color and
      the hover color, each option given or else its default. */
  lemma ScrollbarReadsBack(o: ScrollbarOptions)
    requires o.color.Some? ==> FreeOf(o.color.value, {';'})
    requires o.hover.Some? ==> FreeOf(o.hover.value, {';'})
    ensures ParseBlock(ScrollbarCss(ResolveScrollbar(o))) == Some([
      Decl("--scrollbar-size", IntToString(if o.size.Some? then o.size.value else 22) + "px"),
      Decl("--scrollbar-thumb", if o.color.Some? then o.color.value else "rgba(121, 121, 121, 0.4)"),
      Decl("--scrollbar-thumb-hover", if o.hover.Some? then o.hover.value else "rgba(121, 121, 121, 0.7)")])
  {
    var c := ResolveScrollbar(o);
    ScrollbarNamesPlain();
    SizeTextPlain(c.size);
    assert FreeOf(DefaultScrollbar.color, {';'}) && FreeOf(DefaultScrollbar.hover, {';'});
    ParseBlockRender(ScrollbarDecls(c));
  }

  /* ---------------------------------------------------------------- */
  /* Brand color sets                                                  */
  /* ---------------------------------------------------------------- */

  /** `BrandOptions`. */
  datatype BrandOptions = BrandOptions(name: string, back: Option<string>, text: Option<string>, line: Option<string>)

  /** A JavaScript truthiness test on an optional string. */
  predicate Truthy(o: Option<string>)
  {
    o.Some? && o.value != ""
  }

  /** `--color-{name}-{part}`. */
  function BrandVar(name: string, part: string): string
  {
    "--color-" + name + "-" + part
  }

  /** The declaration for one part of a brand, if that part is set. */
  function BrandPart(name: string, part: string, o: Option<string>): seq<Decl>
  {
    if Truthy(o) then [Decl(BrandVar(name, part), o.value)] else []
  }

  function BrandDecls(b: BrandOptions): seq<Decl>
  {
    BrandPart(b.name, "back", b.back) + BrandPart(b.name, "text", b.text) + BrandPart(b.name, "line", b.line)
  }

  /** `generateBrandCSS`, as a value. */
  function BrandCss(b: BrandOptions): string
  {
    Block(BrandDecls(b))
  }

  /** `generateBrandCSS`: push each set part's declaration, then join. */
  method GenerateBrandCss(b: BrandOptions) returns (css: string)
    ensures css == BrandCss(b)
  {
    var vars: seq<string> := [];
    if Truthy(b.back) {
      vars := vars + [Render(Decl(BrandVar(b.name, "back"), b.back.value))];
    }
    if Truthy(b.text) {
      vars := vars + [Render(Decl(BrandVar(b.name, "text"), b.text.value))];
    }
    if Truthy(b.line) {
      vars := vars + [Render(Decl(BrandVar(b.name, "line"), b.line.value))];
    }
    assert vars == RenderAll(BrandDecls(b));
    css := Join(vars, " ");
  }

  /** A brand yields no CSS exactly when none of its three colors is set. */
  lemma BrandCssEmpty(b: BrandOptions)
    ensures BrandCss(b) == "" <==> !Truthy(b.back) && !Truthy(b.text) && !Truthy(b.line)
  {
    BlockEmpty(BrandDecls(b));
  }

  lemma PartsDiffer(name: string)
    ensures BrandVar(name, "back") != BrandVar(name, "text")
    ensures BrandVar(name, "back") != BrandVar(name, "line")
    ensures BrandVar(name, "text") != BrandVar(name, "line")
  {
    var k := |name| + 9;
    assert BrandVar(name, "back")[k] == 'b';
    assert BrandVar(name, "text")[k] == 't';
    assert BrandVar(name, "line")[k] == 'l';
  }

  /** The brand's CSS declares `--color-{name}-back`, `-text` and `-line`,
      in that order, each exactly when that color is set and with that
      color as its value. */
  lemma BrandDeclares(b: BrandOptions, part: string, v: string)
    ensures Decl(BrandVar(b.name, part), v) in BrandDecls(b) <==>
      (part == "back" && Truthy(b.back) && v == b.back.value) ||
      (part == "text" && Truthy(b.text) && v == b.text.value) ||
      (part == "line" && Truthy(b.line) && v == b.line.value)
    ensures forall i, j :: 0 <= i < j < |BrandDecls(b)| ==>
      (BrandDecls(b)[i].name == BrandVar(b.name, "back") || BrandDecls(b)[j].name == BrandVar(b.name, "line"))
  {
    PartsDiffer(b.name);
    var tail := BrandPart(b.name, "text", b.text) + BrandPart(b.name, "line", b.line);
    assert BrandDecls(b) == BrandPart(b.name, "back", b.back) + tail;
    if Decl(BrandVar(b.name, part), v) in BrandDecls(b) {
      if part != "back" && part != "text" && part != "line" {
        assert BrandVar(b.name, part) != BrandVar(b.name, "back") by {
          PartSuffix(b.name, part, "back");
        }
        assert BrandVar(b.name, part) != BrandVar(b.name, "text") by {
          PartSuffix(b.name, part, "text");
        }
        assert BrandVar(b.name, part) != BrandVar(b.name, "line") by {
          PartSuffix(b.name, part, "line");
        }
      }
    }
  }

  /** Different part names give different variable names. */
  lemma PartSuffix(name: string, p: string, q: string)
    requires p != q
    ensures BrandVar(name, p) != BrandVar(name, q)
  {
    var pre := "--color-" + name + "-";
    assert BrandVar(name, p) == pre + p && BrandVar(name, q) == pre + q;
    assert (pre + p)[|pre|..] == p && (pre + q)[|pre|..] == q;
  }

  /** Brand CSS reads back as its declarations when every text is plain. */
  lemma BrandCssReadsBack(b: BrandOptions)
    requires FreeOf(b.name, {':', ';'})
    requires b.back.Some? ==> FreeOf(b.back.value, {';'})
    requires b.text.Some? ==> FreeOf(b.text.value, {';'})
    requires b.line.Some? ==> FreeOf(b.line.value, {';'})
    ensures ParseBlock(BrandCss(b)) == Some(BrandDecls(b))
  {
    ColorPrefixPlain();
    FreeOfConcat("--color-", b.name, {':', ';'});
    BrandVarPlain("--color-" + b.name, "back");
    BrandVarPlain("--color-" + b.name, "text");
    BrandVarPlain("--color-" + b.name, "line");
    ParseBlockRender(BrandDecls(b));
  }

  lemma BrandVarPlain(prefix: string, part: string)
    requires FreeOf(prefix, {':', ';'})
    requires part in {"back", "text", "line"}
    ensures FreeOf(prefix + "-" + part, {':', ';'})
  {
    FreeOfConcat(prefix, "-", {':', ';'});
    FreeOfConcat(prefix + "-", part, {':', ';'});
  }

  /* ---------------------------------------------------------------- */
  /* The accumulator                                                   */
  /* ---------------------------------------------------------------- */

  /** The sections `toCSS` emits: system, scrollbar, then the brands
      space-joined, each only when present. */
  function Sections(system: string, scrollbar: string, styles: seq<string>): seq<string>
  {
    (if system != "" then [system] else [])
      + (if scrollbar != "" then [scrollbar] else [])
      + (if |styles| > 0 then [Join(styles, " ")] else [])
  }

  /** `toCSS` as a value. */
  function Combined(system: string, scrollbar: string, styles: seq<string>): string
  {
    Join(Sections(system, scrollbar, styles), " ")
  }

  /** With no empty brand style stored, `toCSS` is every non-empty section
      and every brand style, in that order, joined by single spaces. */
  lemma CombinedFlat(system: string, scrollbar: string, styles: seq<string>)
    requires forall i :: 0 <= i < |styles| ==> styles[i] != ""
    ensures Combined(system, scrollbar, styles) == Join(NonEmpty([system, scrollbar]) + styles, " ")
  {
    var front := NonEmpty([system, scrollbar]);
    NonEmptyPair(system, scrollbar);
    if |styles| == 0 {
      assert Sections(system, scrollbar, styles) == front;
      assert front + styles == front;
    } else {
      var brands := Join(styles, " ");
      assert Sections(system, scrollbar, styles) == front + [brands];
      if |front| == 0 {
        assert front + [brands] == [brands];
        assert front + styles == styles;
      } else {
        JoinAppend(front, styles, " ");
        JoinAppend(front, [brands], " ");
      }
    }
  }

  lemma NonEmptyPair(a: string, b: string)
    ensures NonEmpty([a, b]) == (if a != "" then [a] else []) + (if b != "" then [b] else [])
  {
    assert [a, b][1..] == [b];
    assert [b][1..] == [];
  }

  /** With no empty brand style stored, `toCSS` is empty exactly when all
      three sections are. */
  lemma CombinedEmpty(system: string, scrollbar: string, styles: seq<string>)
    requires forall i :: 0 <= i < |styles| ==> styles[i] != ""
    ensures Combined(system, scrollbar, styles) == "" <==> system == "" && scrollbar == "" && styles == []
  {
    var s := Sections(system, scrollbar, styles);
    if |styles| > 0 {
      JoinNonEmptyHead(styles, " ");
    }
    if |s| > 0 {
      JoinNonEmptyHead(s, " ");
    }
  }

  /** The global `Theme` state. */
  class Theme {
    /** Collected brand style strings. */
    var styles: seq<string>
    /** Generated system color CSS. */
    var system: string
    /** Generated scrollbar CSS. */
    var scrollbar: string

    /** Only non-empty brand styles are ever stored. */
    ghost predicate Valid()
      reads this
    {
      forall i :: 0 <= i < |styles| ==> styles[i] != ""
    }

    constructor()
      ensures Valid()
      ensures styles == [] && system == "" && scrollbar == ""
    {
      styles := [];
      system := "";
      scrollbar := "";
    }

    /** `Theme.system`: the last call wins. */
    method System(props: SystemColors)
      requires Valid()
      modifies this
      ensures Valid()
      ensures system == SystemCss(props)
      ensures styles == old(styles) && scrollbar == old(scrollbar)
    {
      system := SystemCss(props);
    }

    /** `Theme.scrollbar`: the last call wins. */
    method Scrollbar(options: ScrollbarOptions)
      requires Valid()
      modifies this
      ensures Valid()
      ensures scrollbar == ScrollbarCss(ResolveScrollbar(options))
      ensures styles == old(styles) && system == old(system)
    {
      var config := ResolveScrollbar(options);
      scrollbar := ScrollbarCss(config);
    }

    /** `Theme.brand`: appends the brand's CSS when it is not empty; a
        repeated name adds a second entry. */
    method Brand(options: BrandOptions)
      requires Valid()
      modifies this
      ensures Valid()
      ensures styles == old(styles) + (if BrandCss(options) != "" then [BrandCss(options)] else [])
      ensures system == old(system) && scrollbar == old(scrollbar)
    {
      var style := GenerateBrandCss(options);
      if style != "" {
        styles := styles + [style];
      }
    }

    /** `Theme.reset`: forgets the brands only. */
    method Reset()
      modifies this
      ensures Valid()
      ensures styles == [] && system == old(system) && scrollbar == old(scrollbar)
    {
      styles := [];
    }

    /** `Theme.clear`: forgets everything, so `toCSS` is then empty. */
    method Clear()
      modifies this
      ensures Valid()
      ensures styles == [] && system == "" && scrollbar == ""
      ensures Combined(system, scrollbar, styles) == ""
    {
      styles := [];
      system := "";
      scrollbar := "";
    }

    /** `Theme.toCSS`. */
    method ToCss() returns (css: string)
      requires Valid()
      ensures css == Combined(system, scrollbar, styles)
      ensures css == "" <==> system == "" && scrollbar == "" && styles == []
    {
      var parts: seq<string> := [];
      if system != "" {
        parts := parts + [system];
      }
      if scrollbar != "" {
        parts := parts + [scrollbar];
      }
      if |styles| > 0 {
        parts := parts + [Join(styles, " ")];
      }
      assert parts == Sections(system, scrollbar, styles);
      css := Join(parts, " ");
      CombinedEmpty(system, scrollbar, styles);
    }
  }
}
