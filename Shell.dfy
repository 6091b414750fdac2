/**
 * The shell's custom elements and the app controller of src/engine/app.ts.
 * An element is an object with a fixed kind and attribute map, and a class
 * attribute and `display` style that its callbacks and the controller
 * rewrite; the document is the sequence of elements in document order.
 */
module Shell {
  import opened Text
  import opened Optional
  import opened ShellClasses

  /* ------------------------------------------------------------------ */
  /* Elements                                                            */
  /* ------------------------------------------------------------------ */

  /** The shell elements: `uizy-system-bar`, `uizy-header`, `uizy-footer`,
      `uizy-overlay`, `uizy-main` and `uizy-drawer`. */
  datatype Kind = SystemBar | Header | Footer | Overlay | Main | Drawer

  /** `getShadowLevel()` on an attribute map. */
  function LevelOf(attrs: map<string, string>): int
  {
    ShadowLevel(if "shadow" in attrs then Some(attrs["shadow"]) else None)
  }

  /** `clipClasses(this.clip)` on an attribute map. */
  function ClipOf(attrs: map<string, string>): string
  {
    ClipClasses(ParseClip(attrs.Keys))
  }

  /** A drawer is on the right exactly when it has the `right` attribute. */
  function Side(attrs: map<string, string>): string
  {
    if "right" in attrs then "right" else "left"
  }

  /** The arguments each element's `connectedCallback` gives `updateClass`. */
  function Computed(kind: Kind, attrs: map<string, string>): seq<CsxInput>
  {
    match kind
    case SystemBar => [Str("uizy-system-bar")]
    case Header => [Str("d-flex"), Str("dx-sb"), Str("uizy-header"), Str(ShadowClass('b', LevelOf(attrs)))]
    case Footer => [Str("uizy-footer"), Str(ShadowClass('t', LevelOf(attrs)))]
    case Overlay => [Str("uizy-overlay-mask"), Str(ClipOf(attrs))]
    case Main => [Str("uizy-main"), Str(ClipOf(attrs))]
    case Drawer =>
      Strs(DrawerHead(attrs) + [DrawerShadow(attrs)]) + [Obj(DrawerFlags(attrs)), Str(ClipOf(attrs))]
  }

  /** Plain string arguments. */
  function Strs(ss: seq<string>): (r: seq<CsxInput>)
    ensures |r| == |ss| && forall i :: 0 <= i < |ss| ==> r[i] == Str(ss[i])
  {
    seq(|ss|, i requires 0 <= i < |ss| => Str(ss[i]))
  }

  /** The fixed head of a drawer's classes: flex column, drawer, and its
      side twice. */
  function DrawerHead(attrs: map<string, string>): seq<string>
  {
    var side := Side(attrs);
    ["d-flex", "df-col", "uizy-drawer", "uizy-" + side, "uizy-drawer--" + side]
  }

  /** A drawer's shadow faces the content: `r` on the left, `l` on the right. */
  function DrawerShadow(attrs: map<string, string>): string
  {
    ShadowClass(if Side(attrs) == "left" then 'r' else 'l', LevelOf(attrs))
  }

  /** The mini and open flags of a drawer, as `csx` reads its object. */
  function DrawerFlags(attrs: map<string, string>): seq<(string, bool)>
  {
    [("uizy-" + Side(attrs) + "--mini", "mini" in attrs), ("uizy-drawer--open", "open" in attrs)]
  }

  /** The classes `connectedCallback` puts before the previous ones. */
  function ComputedTokens(kind: Kind, attrs: map<string, string>): seq<string>
  {
    TokensOfAll(Flat(Computed(kind, attrs)))
  }

  /** The shadow class, when there is one, as a class list. */
  function ShadowTokens(direction: char, level: int): seq<string>
  {
    if level > 0 then [ShadowClass(direction, level)] else []
  }

  class ShellElement {
    const kind: Kind
    const attributes: map<string, string>
    var className: string
    var display: string

    constructor(kind: Kind, attributes: map<string, string>, className: string, display: string)
      ensures this.kind == kind && this.attributes == attributes
      ensures this.className == className && this.display == display
    {
      this.kind := kind;
      this.attributes := attributes;
      this.className := className;
      this.display := display;
    }

    /** `updateClass(classes)`: the classes, then the previous `className`,
        through `csx`. */
    method UpdateClass(classes: seq<CsxInput>)
      modifies this
      ensures className == Csx(classes + [Str(old(className))])
      ensures display == old(display)
    {
      className := Csx(classes + [Str(className)]);
    }

    /** `connectedCallback`: sets the classes, and hides an overlay. */
    method ConnectedCallback()
      modifies this
      ensures className == Csx(Computed(kind, attributes) + [Str(old(className))])
      ensures display == (if kind == Overlay then "none" else old(display))
    {
      UpdateClass(Computed(kind, attributes));
      if kind == Overlay {
        display := "none";
      }
    }
  }

  /* ------------------------------------------------------------------ */
  /* The classes of each element                                         */
  /* ------------------------------------------------------------------ */

  lemma ShellTokens()
    ensures IsToken("uizy-system-bar") && IsToken("uizy-header") && IsToken("uizy-footer")
    ensures IsToken("uizy-overlay-mask") && IsToken("uizy-main")
  {
    LowerToken("uizy-system-bar");
    LowerToken("uizy-header");
    LowerToken("uizy-footer");
    LowerToken("uizy-overlay-mask");
    LowerToken("uizy-main");
  }

  lemma LayoutTokens()
    ensures IsToken("d-flex") && IsToken("dx-sb") && IsToken("df-col") && IsToken("uizy-drawer")
  {
    LowerToken("d-flex");
    LowerToken("dx-sb");
    LowerToken("df-col");
    LowerToken("uizy-drawer");
  }

  lemma SideTokens(side: string)
    requires side in {"left", "right"}
    ensures IsToken("uizy-" + side) && IsToken("uizy-drawer--" + side) && IsToken("uizy-" + side + "--mini")
    ensures IsToken("uizy-drawer--open")
  {
    LowerToken("uizy-" + side);
    LowerToken("uizy-drawer--" + side);
    LowerToken("uizy-" + side + "--mini");
    LowerToken("uizy-drawer--open");
  }

  lemma ClipTokens(attrs: map<string, string>)
    ensures ClassTokens(ClipOf(attrs)) == PresentClasses(ClipTable, attrs.Keys)
  {
    ClipClassesExact(attrs.Keys);
  }

  /** `csx` arguments that are all strings contribute those strings. */
  lemma {:induction false} FlatOfStrs(inputs: seq<CsxInput>, ss: seq<string>)
    requires |inputs| == |ss| && forall i :: 0 <= i < |ss| ==> inputs[i] == Str(ss[i])
    ensures Flat(inputs) == ss
  {
    if |ss| > 0 {
      FlatOfStrs(inputs[1..], ss[1..]);
      assert ss == [ss[0]] + ss[1..];
    }
  }

  lemma TokensOfOne(x: string)
    ensures TokensOfAll([x]) == ClassTokens(x)
  {
    assert [x][1..] == [];
  }

  /** The classes of fixed tokens followed by one more string. */
  lemma TokensThenOne(fixed: seq<string>, x: string)
    requires forall k :: 0 <= k < |fixed| ==> IsToken(fixed[k])
    ensures TokensOfAll(fixed + [x]) == fixed + ClassTokens(x)
  {
    TokensOfAllAppend(fixed, [x]);
    TokensOfAllOfTokens(fixed);
    TokensOfOne(x);
  }

  /** The system bar gets its one class and no shadow class, whatever its
      `shadow` attribute says. */
  lemma SystemBarClasses(attrs: map<string, string>)
    ensures ComputedTokens(SystemBar, attrs) == ["uizy-system-bar"]
  {
    ShellTokens();
    FlatOfStrs(Computed(SystemBar, attrs), ["uizy-system-bar"]);
    TokensOfAllOfTokens(["uizy-system-bar"]);
  }

  /** The header is a flex row with its class and the bottom shadow of its
      level. */
  lemma HeaderClasses(attrs: map<string, string>)
    ensures ComputedTokens(Header, attrs) == ["d-flex", "dx-sb", "uizy-header"] + ShadowTokens('b', LevelOf(attrs))
  {
    var shadow := ShadowClass('b', LevelOf(attrs));
    var fixed := ["d-flex", "dx-sb", "uizy-header"];
    ShellTokens();
    LayoutTokens();
    FlatOfStrs(Computed(Header, attrs), fixed + [shadow]);
    TokensThenOne(fixed, shadow);
    ShadowClassTokens('b', LevelOf(attrs));
  }

  /** The footer has its class and the top shadow of its level. */
  lemma FooterClasses(attrs: map<string, string>)
    ensures ComputedTokens(Footer, attrs) == ["uizy-footer"] + ShadowTokens('t', LevelOf(attrs))
  {
    var shadow := ShadowClass('t', LevelOf(attrs));
    ShellTokens();
    FlatOfStrs(Computed(Footer, attrs), ["uizy-footer"] + [shadow]);
    TokensThenOne(["uizy-footer"], shadow);
    ShadowClassTokens('t', LevelOf(attrs));
  }

  /** The main area has its class and its clip classes. */
  lemma MainClasses(attrs: map<string, string>)
    ensures ComputedTokens(Main, attrs) == ["uizy-main"] + PresentClasses(ClipTable, attrs.Keys)
  {
    ShellTokens();
    FlatOfStrs(Computed(Main, attrs), ["uizy-main"] + [ClipOf(attrs)]);
    TokensThenOne(["uizy-main"], ClipOf(attrs));
    ClipTokens(attrs);
  }

  /** The overlay has the mask class and its clip classes. */
  lemma OverlayClasses(attrs: map<string, string>)
    ensures ComputedTokens(Overlay, attrs) == ["uizy-overlay-mask"] + PresentClasses(ClipTable, attrs.Keys)
  {
    ShellTokens();
    FlatOfStrs(Computed(Overlay, attrs), ["uizy-overlay-mask"] + [ClipOf(attrs)]);
    TokensThenOne(["uizy-overlay-mask"], ClipOf(attrs));
    ClipTokens(attrs);
  }

  lemma DrawerInputs(attrs: map<string, string>)
    ensures Flat(Computed(Drawer, attrs)) ==
      DrawerHead(attrs) + [DrawerShadow(attrs)] + (TruthyKeys(DrawerFlags(attrs)) + [ClipOf(attrs)])
  {
    var strs := Strs(DrawerHead(attrs) + [DrawerShadow(attrs)]);
    var rest := [Obj(DrawerFlags(attrs)), Str(ClipOf(attrs))];
    FlatAppend(strs, rest);
    FlatOfStrs(strs, DrawerHead(attrs) + [DrawerShadow(attrs)]);
    assert rest[1..] == [Str(ClipOf(attrs))];
    assert rest[1..][1..] == [];
    assert Flat(rest[1..]) == [ClipOf(attrs)] + Flat([]);
    assert Flat(rest) == TruthyKeys(DrawerFlags(attrs)) + Flat(rest[1..]);
  }

  /** A drawer's classes: flex column, drawer, its side twice, the shadow
      facing the content (`r` for a left drawer, `l` for a right one), the
      mini class of its side when `mini`, the open class when `open`, then
      its clip classes. */
  lemma DrawerClasses(attrs: map<string, string>)
    ensures var side := Side(attrs);
      ComputedTokens(Drawer, attrs) ==
        ["d-flex", "df-col", "uizy-drawer", "uizy-" + side, "uizy-drawer--" + side]
        + ShadowTokens(if side == "left" then 'r' else 'l', LevelOf(attrs))
        + ((if "mini" in attrs then ["uizy-" + side + "--mini"] else [])
        + (if "open" in attrs then ["uizy-drawer--open"] else [])
        + PresentClasses(ClipTable, attrs.Keys))
  {
    var head := DrawerHead(attrs);
    var flags := DrawerFlags(attrs);
    DrawerInputs(attrs);
    TokensOfAllAppend(head + [DrawerShadow(attrs)], TruthyKeys(flags) + [ClipOf(attrs)]);
    DrawerHeadTokens(attrs);
    DrawerTailTokens(attrs);
  }

  lemma DrawerHeadTokens(attrs: map<string, string>)
    ensures TokensOfAll(DrawerHead(attrs) + [DrawerShadow(attrs)]) ==
      DrawerHead(attrs) + ShadowTokens(if Side(attrs) == "left" then 'r' else 'l', LevelOf(attrs))
  {
    LayoutTokens();
    SideTokens(Side(attrs));
    TokensThenOne(DrawerHead(attrs), DrawerShadow(attrs));
    ShadowClassTokens(if Side(attrs) == "left" then 'r' else 'l', LevelOf(attrs));
  }

  lemma DrawerTailTokens(attrs: map<string, string>)
    ensures TokensOfAll(TruthyKeys(DrawerFlags(attrs)) + [ClipOf(attrs)]) ==
      (if "mini" in attrs then ["uizy-" + Side(attrs) + "--mini"] else [])
      + (if "open" in attrs then ["uizy-drawer--open"] else [])
      + PresentClasses(ClipTable, attrs.Keys)
  {
    SideTokens(Side(attrs));
    TokensOfAllAppend(TruthyKeys(DrawerFlags(attrs)), [ClipOf(attrs)]);
    TokensOfOne(ClipOf(attrs));
    FlagTokens(DrawerFlags(attrs));
    ClipTokens(attrs);
  }

  lemma FlagTokens(flags: seq<(string, bool)>)
    requires |flags| == 2 && IsToken(flags[0].0) && IsToken(flags[1].0)
    ensures TokensOfAll(TruthyKeys(flags)) ==
      (if flags[0].1 then [flags[0].0] else []) + (if flags[1].1 then [flags[1].0] else [])
  {
    var rest := flags[1..];
    assert rest[1..] == [];
    assert TruthyKeys(rest) == (if flags[1].1 then [flags[1].0] else []) + TruthyKeys([]);
    var keys := TruthyKeys(flags);
    assert keys == (if flags[0].1 then [flags[0].0] else []) + TruthyKeys(rest);
    assert forall k :: 0 <= k < |keys| ==> IsToken(keys[k]);
    TokensOfAllOfTokens(keys);
  }

  /** No fixed class of a drawer is its open class. */
  lemma OpenNotFixed(attrs: map<string, string>)
    ensures "uizy-drawer--open" !in DrawerHead(attrs)
    ensures "uizy-drawer--open" != "uizy-" + Side(attrs) + "--mini"
    ensures "uizy-drawer--open" !in ShadowTokens(if Side(attrs) == "left" then 'r' else 'l', LevelOf(attrs))
  {
    var side := Side(attrs);
    var level := LevelOf(attrs);
    if level > 0 {
      assert ShadowClass(if side == "left" then 'r' else 'l', level)[0] == 's';
    }
    assert ("uizy-drawer--" + side)[13] == side[0];
    assert |"uizy-" + side + "--mini"| != 17;
  }

  /** The open class is among a drawer's computed classes exactly when it
      has the `open` attribute. */
  lemma DrawerOpenIff(attrs: map<string, string>)
    ensures "uizy-drawer--open" in ComputedTokens(Drawer, attrs) <==> "open" in attrs
  {
    var side := Side(attrs);
    var shadow := ShadowTokens(if side == "left" then 'r' else 'l', LevelOf(attrs));
    var mini: seq<string> := if "mini" in attrs then ["uizy-" + side + "--mini"] else [];
    var open: seq<string> := if "open" in attrs then ["uizy-drawer--open"] else [];
    var clips := PresentClasses(ClipTable, attrs.Keys);
    DrawerClasses(attrs);
    OpenNotFixed(attrs);
    ClipTableHasNoOpen();
    PresentFromTable(ClipTable, attrs.Keys, "uizy-drawer--open");
    assert ComputedTokens(Drawer, attrs) == DrawerHead(attrs) + shadow + (mini + open + clips);
    assert "uizy-drawer--open" !in mini;
  }

  /** No clip class is the open class. */
  lemma ClipTableHasNoOpen()
    ensures forall i :: 0 <= i < |ClipTable| ==> ClipTable[i].cls != "uizy-drawer--open"
  {
    forall i | 0 <= i < |ClipTable|
      ensures ClipTable[i].cls != "uizy-drawer--open"
    {
      assert ClipTable[i].cls[5] == 'c';
    }
  }

  /** Only table classes are present. */
  lemma {:induction false} PresentFromTable(table: seq<ClipSpec>, attrs: set<string>, t: string)
    requires forall i :: 0 <= i < |table| ==> table[i].cls != t
    ensures t !in PresentClasses(table, attrs)
  {
    if |table| > 0 {
      PresentFromTable(table[1..], attrs, t);
    }
  }

  /* ------------------------------------------------------------------ */
  /* The app controller                                                  */
  /* ------------------------------------------------------------------ */

  /** The keys of `SELECTORS`, in order. */
  const SelectorKeys: seq<string> :=
    ["system", "header", "footer", "overlay", "main", "left", "leftMini", "right", "rightMini"]

  /** Whether an element matches the selector of a key. */
  predicate Matches(key: string, e: ShellElement)
  {
    match key
    case "system" => e.kind == SystemBar
    case "header" => e.kind == Header
    case "footer" => e.kind == Footer
    case "overlay" => e.kind == Overlay
    case "main" => e.kind == Main
    case "left" => e.kind == Drawer && "right" !in e.attributes && "mini" !in e.attributes
    case "leftMini" => e.kind == Drawer && "right" !in e.attributes && "mini" in e.attributes
    case "right" => e.kind == Drawer && "right" in e.attributes && "mini" !in e.attributes
    case "rightMini" => e.kind == Drawer && "right" in e.attributes && "mini" in e.attributes
    case _ => false
  }

  /** `document.querySelector(SELECTORS[key])`: the first match in document
      order. */
  function Query(doc: seq<ShellElement>, key: string): (r: Option<ShellElement>)
    ensures r.Some? ==> r.value in doc && Matches(key, r.value)
    ensures r.None? ==> forall e :: e in doc ==> !Matches(key, e)
    ensures r.Some? ==> exists j :: 0 <= j < |doc| && doc[j] == r.value && forall i :: 0 <= i < j ==> !Matches(key, doc[i])
  {
    if |doc| == 0 then None
    else if Matches(key, doc[0]) then Some(doc[0])
    else
      var r := Query(doc[1..], key);
      if r.Some? then
        var j :| 0 <= j < |doc[1..]| && doc[1..][j] == r.value && forall i :: 0 <= i < j ==> !Matches(key, doc[1..][i]);
        assert doc[j + 1] == r.value;
        r
      else r
  }

  /** The element table a first `action` builds from the document. */
  function Table(doc: seq<ShellElement>): map<string, Option<ShellElement>>
  {
    map k | k in SelectorKeys :: Query(doc, k)
  }

  /** `capitalize`: the first character upper-cased. */
  function Capitalize(s: string): (r: string)
    ensures |r| == |s|
    ensures |s| > 0 ==> r[0] == UpperChar(s[0]) && r[1..] == s[1..]
  {
    if s == "" then "" else [UpperChar(s[0])] + s[1..]
  }

  /** The key `action` looks up: the first segment, followed by the second
      capitalized when there is a non-empty second one. */
  function ActionKey(section: string): string
  {
    var segments := Split(section, '.');
    if |segments| > 1 && segments[1] != "" then segments[0] + Capitalize(segments[1]) else segments[0]
  }

  /** What the callback receives: the `set` of an overlay or of a drawer,
      together with the element as `self`. */
  datatype Payload = OverlayUtils(self: ShellElement) | DrawerUtils(self: ShellElement)

  /** The keys that have a `set` helper. */
  function PayloadFor(key: string, el: ShellElement): Option<Payload>
  {
    match key
    case "overlay" => Some(OverlayUtils(el))
    case "left" => Some(DrawerUtils(el))
    case "right" => Some(DrawerUtils(el))
    case "leftMini" => Some(DrawerUtils(el))
    case "rightMini" => Some(DrawerUtils(el))
    case _ => None
  }

  /** The callback is invoked exactly when the key's element exists, the
      callback is a function and the key is one with a `set` helper. */
  function Dispatch(parts: map<string, Option<ShellElement>>, key: string, isFunction: bool): (r: Option<Payload>)
    ensures r.Some? <==>
      key in parts && parts[key].Some? && isFunction
      && key in {"overlay", "left", "right", "leftMini", "rightMini"}
    ensures r.Some? ==> r.value.self == parts[key].value
    ensures r.Some? ==> (r.value.OverlayUtils? <==> key == "overlay")
  {
    if key in parts && parts[key].Some? && isFunction then PayloadFor(key, parts[key].value) else None
  }

  /** The display `set(open)` gives the overlay: with no value, "block"
      when it was "none" and "none" otherwise; with a value, "block" for
      true and "none" for false. */
  function OverlayDisplay(display: string, open: Option<bool>): string
  {
    match open
    case None => if display == "none" then "block" else "none"
    case Some(b) => if b then "block" else "none"
  }

  class App {
    var initialized: bool
    var parts: map<string, Option<ShellElement>>

    /** `parts` always has exactly the selector keys. */
    ghost predicate Valid()
      reads this
    {
      forall k :: k in parts <==> k in SelectorKeys
    }

    constructor()
      ensures Valid() && !initialized
      ensures forall k :: k in parts ==> parts[k] == None
    {
      initialized := false;
      parts := map k | k in SelectorKeys :: None;
    }

    /** `ensureInitialized`: fills the table from the document once. */
    method EnsureInitialized(doc: seq<ShellElement>)
      requires Valid()
      modifies this
      ensures Valid() && initialized
      ensures parts == if old(initialized) then old(parts) else Table(doc)
    {
      if initialized {
        return;
      }
      var keys := SelectorKeys;
      for i := 0 to |keys|
        invariant forall k :: k in parts <==> k in keys
        invariant forall k :: k in keys[..i] ==> parts[k] == Query(doc, k)
      {
        assert keys[..i + 1] == keys[..i] + [keys[i]];
        parts := parts[keys[i] := Query(doc, keys[i])];
      }
      assert keys[..|keys|] == keys;
      initialized := true;
    }

    /** `action(section, callback)`: `invoked` is the payload the callback
        is called with, or `None` when it is not called. The document is the
        one present at this call; only the first call reads it. */
    method Action(section: string, callbackIsFunction: bool, doc: seq<ShellElement>) returns (invoked: Option<Payload>)
      requires Valid()
      modifies this
      ensures Valid() && initialized
      ensures parts == if old(initialized) then old(parts) else Table(doc)
      ensures invoked == Dispatch(parts, ActionKey(section), callbackIsFunction)
    {
      EnsureInitialized(doc);
      var key := ActionKey(section);
      var el := if key in parts then parts[key] else None;
      if el.None? || !callbackIsFunction {
        return None;
      }
      invoked := PayloadFor(key, el.value);
    }

    /** `setOverlayState(el, open, full)`. */
    method SetOverlayState(el: ShellElement?, open: Option<bool>, full: bool)
      modifies el
      ensures el != null ==> el.display == OverlayDisplay(old(el.display), open)
      ensures el != null ==> el.className == Toggle(old(el.className), "full", Some(full))
    {
      if el == null {
        return;
      }
      el.display := OverlayDisplay(el.display, open);
      el.className := Toggle(el.className, "full", Some(full));
    }

    /** `setDrawer(el, open = null)`. */
    method SetDrawer(el: ShellElement?, open: Option<bool>)
      modifies el
      ensures el != null ==> el.className == Toggle(old(el.className), "uizy-drawer--open", open)
      ensures el != null ==> el.display == old(el.display)
    {
      if el == null {
        return;
      }
      el.className := Toggle(el.className, "uizy-drawer--open", open);
    }
  }

  /* ------------------------------------------------------------------ */
  /* Properties of the controller                                        */
  /* ------------------------------------------------------------------ */

  /** A section without a dot is its own key. */
  lemma ActionKeyOfRoot(root: string)
    requires FreeOf(root, {'.'})
    ensures ActionKey(root) == root
  {
    SplitFreeOf(root, {'.'});
  }

  /** `root.part` selects `root` followed by the capitalized `part`. */
  lemma ActionKeyOfPart(root: string, part: string)
    requires FreeOf(root, {'.'}) && FreeOf(part, {'.'}) && part != ""
    ensures ActionKey(root + "." + part) == root + Capitalize(part)
  {
    SplitTwo(root, part);
  }

  /** An empty second segment is ignored. */
  lemma ActionKeyOfEmptyPart(root: string)
    requires FreeOf(root, {'.'})
    ensures ActionKey(root + ".") == root
  {
    SplitTwo(root, "");
    assert root + "." + "" == root + ".";
  }

  lemma SplitTwo(a: string, b: string)
    requires FreeOf(a, {'.'}) && FreeOf(b, {'.'})
    ensures Split(a + "." + b, '.') == [a, b]
  {
    SplitAround(a, '.', b, {'.'});
    SplitFreeOf(a, {'.'});
    SplitFreeOf(b, {'.'});
  }

  /** Segments after the second do not change the key. */
  lemma ActionKeyIgnoresRest(a: string, b: string, rest: string)
    requires FreeOf(a, {'.'}) && FreeOf(b, {'.'})
    ensures ActionKey(a + "." + b + "." + rest) == ActionKey(a + "." + b)
  {
    SplitTwo(a, b);
    SplitAround(a, '.', b + "." + rest, {'.'});
    SplitAround(b, '.', rest, {'.'});
    SplitFreeOf(a, {'.'});
    SplitFreeOf(b, {'.'});
    assert a + "." + b + "." + rest == a + "." + (b + "." + rest);
  }

  /** `set(open, full)` leaves `full` on the overlay exactly when `full` is
      truthy, and keeps every other class as it was. */
  lemma OverlayFullIff(className: string, full: bool)
    ensures "full" in ClassTokens(Toggle(className, "full", Some(full))) <==> full
    ensures forall t :: t != "full" ==>
      (t in ClassTokens(Toggle(className, "full", Some(full))) <==> t in ClassTokens(className))
  {
    LowerToken("full");
    ToggleEffect(className, "full", Some(full));
  }

  /** Without a value, the overlay's `set` swaps a shown overlay and a
      hidden one, so two calls restore the display. */
  lemma OverlayFlipTwice(display: string)
    requires display in {"none", "block"}
    ensures OverlayDisplay(display, None) != display
    ensures OverlayDisplay(OverlayDisplay(display, None), None) == display
  {
  }

  /** A drawer's `set()` flips the open class; `set(b)` makes it present
      exactly when `b`; other classes are kept. */
  lemma DrawerSetEffect(className: string, open: Option<bool>)
    ensures "uizy-drawer--open" in ClassTokens(Toggle(className, "uizy-drawer--open", open))
        <==> (if open.Some? then open.value else "uizy-drawer--open" !in ClassTokens(className))
    ensures forall t :: t != "uizy-drawer--open" ==>
      (t in ClassTokens(Toggle(className, "uizy-drawer--open", open)) <==> t in ClassTokens(className))
  {
    LowerToken("uizy-drawer--open");
    ToggleEffect(className, "uizy-drawer--open", open);
  }
}
