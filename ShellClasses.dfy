/**
 * Class-list building for the shell's custom elements (src/engine/app.ts):
 * `csx`, the clip tables and `clipClasses`/`parseClip`, `shadowClass` and
 * the shadow attribute's number, and the DOM's `classList.toggle`, which
 * the app controller uses.
 */
module ShellClasses {
  import opened Text
  import opened Optional

  /* ------------------------------------------------------------------ */
  /* csx                                                                 */
  /* ------------------------------------------------------------------ */

  /** An argument of `csx`: a string, an object (its entries, each value
      already reduced to its truthiness), or anything else. */
  datatype CsxInput = Str(s: string) | Obj(entries: seq<(string, bool)>) | Other

  /** The keys whose value is truthy, in entry order. */
  function TruthyKeys(entries: seq<(string, bool)>): (r: seq<string>)
    ensures |r| <= |entries|
  {
    if |entries| == 0 then []
    else (if entries[0].1 then [entries[0].0] else []) + TruthyKeys(entries[1..])
  }

  /** The strings one argument contributes. */
  function Expand(i: CsxInput): seq<string>
  {
    match i
    case Str(s) => [s]
    case Obj(es) => TruthyKeys(es)
    case Other => []
  }

  /** `inputs.flatMap(...)`. */
  function Flat(inputs: seq<CsxInput>): seq<string>
  {
    if |inputs| == 0 then [] else Expand(inputs[0]) + Flat(inputs[1..])
  }

  /** `csx(...inputs)`: the contributed strings, empty ones dropped,
      joined by single spaces. */
  function Csx(inputs: seq<CsxInput>): string
  {
    Join(NonEmpty(Flat(inputs)), " ")
  }

  lemma {:induction false} FlatAppend(a: seq<CsxInput>, b: seq<CsxInput>)
    ensures Flat(a + b) == Flat(a) + Flat(b)
  {
    if |a| > 0 {
      FlatAppend(a[1..], b);
      assert (a + b)[1..] == a[1..] + b;
    } else {
      assert a + b == b;
    }
  }

  lemma EmptyHasNoTokens()
    ensures ClassTokens("") == []
  {
  }

  lemma {:induction false} TokensOfNonEmpty(xs: seq<string>)
    ensures TokensOfAll(NonEmpty(xs)) == TokensOfAll(xs)
  {
    if |xs| > 0 {
      TokensOfNonEmpty(xs[1..]);
      EmptyHasNoTokens();
    }
  }

  /** The classes read off `csx`'s output are the classes of each
      contributed string, in argument order. */
  lemma CsxClasses(inputs: seq<CsxInput>)
    ensures ClassTokens(Csx(inputs)) == TokensOfAll(Flat(inputs))
  {
    ClassTokensOfJoin(NonEmpty(Flat(inputs)));
    TokensOfNonEmpty(Flat(inputs));
  }

  /** `updateClass(classes)` sets `className` to `csx(...classes,
      className)`: the computed classes come first and every class the
      element already had follows them. */
  lemma UpdateClassOrder(classes: seq<CsxInput>, previous: string)
    ensures ClassTokens(Csx(classes + [Str(previous)])) == TokensOfAll(Flat(classes)) + ClassTokens(previous)
  {
    CsxClasses(classes + [Str(previous)]);
    FlatAppend(classes, [Str(previous)]);
    assert Flat([Str(previous)]) == [previous];
    TokensOfAllAppend(Flat(classes), [previous]);
  }

  /* ------------------------------------------------------------------ */
  /* Clip classes                                                        */
  /* ------------------------------------------------------------------ */

  /** One row of `CLIP_ATTR_MAP` and `CLIP_CLASS_MAP`, which share their
      keys and their order. */
  datatype ClipSpec = ClipSpec(key: string, attr: string, cls: string)

  const ClipTable: seq<ClipSpec> := [
    ClipSpec("system", "clip-system", "uizy-clip-system-bar"),
    ClipSpec("top", "clip-top", "uizy-clip-top"),
    ClipSpec("bottom", "clip-bottom", "uizy-clip-bottom"),
    ClipSpec("left", "clip-left", "uizy-clip-left"),
    ClipSpec("right", "clip-right", "uizy-clip-right"),
    ClipSpec("leftMini", "clip-left-mini", "uizy-clip-left-mini"),
    ClipSpec("rightMini", "clip-right-mini", "uizy-clip-right-mini")
  ]

  /** `CLIP_CLASS_MAP[key]`. */
  function ClipClassOf(key: string): string
  {
    match key
    case "system" => "uizy-clip-system-bar"
    case "top" => "uizy-clip-top"
    case "bottom" => "uizy-clip-bottom"
    case "left" => "uizy-clip-left"
    case "right" => "uizy-clip-right"
    case "leftMini" => "uizy-clip-left-mini"
    case "rightMini" => "uizy-clip-right-mini"
    case _ => "undefined"
  }

  /** `ClipOptions` as `Object.entries` lists them. */
  type ClipOptions = seq<(string, bool)>

  /** `parseClip`: every key of the table, with whether the element has
      that key's attribute. */
  function ParseClip(attrs: set<string>): (r: ClipOptions)
    ensures |r| == |ClipTable|
    ensures forall i :: 0 <= i < |ClipTable| ==> r[i] == (ClipTable[i].key, ClipTable[i].attr in attrs)
  {
    seq(|ClipTable|, i requires 0 <= i < |ClipTable| => (ClipTable[i].key, ClipTable[i].attr in attrs))
  }

  /** The object `clipClasses` builds: each enabled key's class, set to
      true. */
  function EnabledClasses(options: ClipOptions): seq<(string, bool)>
  {
    if |options| == 0 then []
    else (if options[0].1 then [(ClipClassOf(options[0].0), true)] else []) + EnabledClasses(options[1..])
  }

  /** `clipClasses(options)`. */
  function ClipClasses(options: ClipOptions): string
  {
    Csx([Obj(EnabledClasses(options))])
  }

  /** The classes of the table rows whose attribute is present, in table
      order: the reference for what `clipClasses(parseClip(el))` gives. */
  function PresentClasses(table: seq<ClipSpec>, attrs: set<string>): seq<string>
  {
    if |table| == 0 then []
    else (if table[0].attr in attrs then [table[0].cls] else []) + PresentClasses(table[1..], attrs)
  }

  lemma {:induction false} TruthyKeysAppend(a: seq<(string, bool)>, b: seq<(string, bool)>)
    ensures TruthyKeys(a + b) == TruthyKeys(a) + TruthyKeys(b)
  {
    if |a| > 0 {
      TruthyKeysAppend(a[1..], b);
      assert (a + b)[1..] == a[1..] + b;
    } else {
      assert a + b == b;
    }
  }

  lemma {:induction false} EnabledMatchesPresent(table: seq<ClipSpec>, attrs: set<string>, opts: ClipOptions)
    requires forall i :: 0 <= i < |table| ==> ClipClassOf(table[i].key) == table[i].cls
    requires |opts| == |table|
    requires forall i :: 0 <= i < |table| ==> opts[i] == (table[i].key, table[i].attr in attrs)
    ensures TruthyKeys(EnabledClasses(opts)) == PresentClasses(table, attrs)
  {
    if |table| > 0 {
      EnabledMatchesPresent(table[1..], attrs, opts[1..]);
      var head := if opts[0].1 then [(ClipClassOf(opts[0].0), true)] else [];
      TruthyKeysAppend(head, EnabledClasses(opts[1..]));
    }
  }

  lemma ClipLookups()
    ensures forall i :: 0 <= i < |ClipTable| ==> ClipClassOf(ClipTable[i].key) == ClipTable[i].cls
  {
  }

  lemma {:induction false} PresentAreTokens(table: seq<ClipSpec>, attrs: set<string>)
    requires forall i :: 0 <= i < |table| ==> IsToken(table[i].cls)
    ensures forall k :: 0 <= k < |PresentClasses(table, attrs)| ==> IsToken(PresentClasses(table, attrs)[k])
  {
    if |table| > 0 {
      PresentAreTokens(table[1..], attrs);
    }
  }

  lemma ClipClassesAreTokens()
    ensures forall i :: 0 <= i < |ClipTable| ==> IsToken(ClipTable[i].cls)
  {
    forall i | 0 <= i < |ClipTable|
      ensures IsToken(ClipTable[i].cls)
    {
      LowerToken(ClipTable[i].cls);
    }
  }

  /** Lower-case letters and hyphens make a class token. */
  lemma LowerToken(s: string)
    requires s != "" && forall i :: 0 <= i < |s| ==> 'a' <= s[i] <= 'z' || s[i] == '-'
    ensures IsToken(s)
  {
  }

  /** An element's clip classes are exactly the `uizy-clip-*` classes whose
      `clip-*` attribute it has, in table order. */
  lemma ClipClassesExact(attrs: set<string>)
    ensures ClassTokens(ClipClasses(ParseClip(attrs))) == PresentClasses(ClipTable, attrs)
  {
    ClipLookups();
    EnabledMatchesPresent(ClipTable, attrs, ParseClip(attrs));
    var enabled := EnabledClasses(ParseClip(attrs));
    assert Flat([Obj(enabled)]) == TruthyKeys(enabled) + Flat([]);
    var present := PresentClasses(ClipTable, attrs);
    assert TruthyKeys(enabled) == present;
    ClipClassesAreTokens();
    PresentAreTokens(ClipTable, attrs);
    assert forall k :: 0 <= k < |present| ==> present[k] != "";
    NonEmptyOfFull(present);
    assert Flat([Obj(enabled)]) == present;
    assert ClipClasses(ParseClip(attrs)) == Join(present, " ");
    TokensRoundTrip(present);
  }

  /* ------------------------------------------------------------------ */
  /* Shadow                                                              */
  /* ------------------------------------------------------------------ */

  /** `shadowClass(direction, level)`: `s{direction}-{level}` for a positive
      level, otherwise the empty string. */
  function ShadowClass(direction: char, level: int): (r: string)
    ensures r == "" <==> level <= 0
  {
    if level > 0 then ['s', direction, '-'] + NatToString(level) else ""
  }

  /** A shadow class of a direction letter is a single class token. */
  lemma ShadowClassTokens(direction: char, level: int)
    requires direction in {'t', 'b', 'l', 'r'}
    ensures ClassTokens(ShadowClass(direction, level)) == (if level > 0 then [ShadowClass(direction, level)] else [])
  {
    if level > 0 {
      var c := ShadowClass(direction, level);
      forall i | 0 <= i < |c|
        ensures c[i] !in AsciiWhitespace
      {
        if i >= 3 {
          assert IsDigit(NatToString(level)[i - 3]);
        }
      }
      TokenIsOwnClassTokens(c);
    }
  }

  /** Decimal digits, at least one. */
  predicate IsDigits(s: string)
  {
    |s| > 0 && forall i :: 0 <= i < |s| ==> IsDigit(s[i])
  }

  /** `Number(text) || 0` for the decimal texts the attribute normally
      holds: surrounding whitespace is ignored, an optional sign is
      accepted, the empty text is 0, and the model reads any other text
      as 0. */
  function NumberOr0(text: string): int
  {
    var t := Trim(text);
    if t == "" then 0
    else if IsDigits(t) then DigitsValue(t)
    else if t[0] == '+' && IsDigits(t[1..]) then DigitsValue(t[1..])
    else if t[0] == '-' && IsDigits(t[1..]) then -(DigitsValue(t[1..]) as int)
    else 0
  }

  /** `getShadowLevel()`: a missing attribute (`Number(null)`) is 0. */
  function ShadowLevel(attr: Option<string>): int
  {
    match attr
    case None => 0
    case Some(text) => NumberOr0(text)
  }

  lemma DigitsNotSpace(s: string)
    requires IsDigits(s)
    ensures Trim(s) == s
  {
    assert !IsJsSpace(s[0]) && !IsJsSpace(s[|s| - 1]);
    TrimOfTrimmed(s);
  }

  /** The level written as decimal digits reads back as that level, so the
      shadow class of `shadow="N"` is `s{direction}-N`. */
  lemma ShadowLevelOfDigits(n: nat)
    ensures ShadowLevel(Some(NatToString(n))) == n
  {
    DigitsNotSpace(NatToString(n));
    DigitsValueOfNatToString(n);
  }

  /** Text that is not a number gives level 0 and so no shadow class. */
  lemma NonNumericHasNoShadow(direction: char)
    ensures ShadowLevel(Some("deep")) == 0
    ensures ShadowClass(direction, ShadowLevel(None)) == ""
  {
    NotNumberIsZero("deep");
  }

  /** Text that starts with neither a digit nor a sign, and has no `\s` at
      either end, is read by the model as 0. */
  lemma NotNumberIsZero(text: string)
    requires |text| > 0 && !IsJsSpace(text[0]) && !IsJsSpace(text[|text| - 1])
    requires !IsDigit(text[0]) && text[0] != '+' && text[0] != '-'
    ensures NumberOr0(text) == 0
  {
    TrimOfTrimmed(text);
  }

  /* ------------------------------------------------------------------ */
  /* classList.toggle                                                    */
  /* ------------------------------------------------------------------ */

  /** The class tokens without repeats, first occurrence kept: the DOM's
      ordered set of classes. */
  function Dedup(ts: seq<string>): (r: seq<string>)
    ensures forall t :: t in r <==> t in ts
    ensures forall i, j :: 0 <= i < j < |r| ==> r[i] != r[j]
  {
    if |ts| == 0 then []
    else
      var d := Dedup(ts[..|ts| - 1]);
      assert ts == ts[..|ts| - 1] + [ts[|ts| - 1]];
      if ts[|ts| - 1] in d then d else d + [ts[|ts| - 1]]
  }

  /** The list without any occurrence of `t`. */
  function Remove(ts: seq<string>, t: string): (r: seq<string>)
    ensures forall u :: u in r <==> u in ts && u != t
  {
    if |ts| == 0 then []
    else (if ts[0] == t then [] else [ts[0]]) + Remove(ts[1..], t)
  }

  /** `classList.toggle(token, force)` on an element whose class attribute
      is `className`: when the set of classes changes, the attribute is
      rewritten from the ordered set; otherwise it is left as it was. */
  function Toggle(className: string, token: string, force: Option<bool>): string
  {
    var ts := Dedup(ClassTokens(className));
    if token in ts then
      (if force == Some(true) then className else Join(Remove(ts, token), " "))
    else
      (if force == Some(false) then className else Join(ts + [token], " "))
  }

  /** After `toggle(token, force)`, the element has `token` exactly when
      `force` says so, or, without `force`, exactly when it did not have it
      before; every other class is kept or absent as before. */
  lemma ToggleEffect(className: string, token: string, force: Option<bool>)
    requires IsToken(token)
    ensures token in ClassTokens(Toggle(className, token, force))
        <==> (if force.Some? then force.value else token !in ClassTokens(className))
    ensures forall t :: t != token ==>
      (t in ClassTokens(Toggle(className, token, force)) <==> t in ClassTokens(className))
  {
    var old_ := ClassTokens(className);
    var ts := Dedup(old_);
    ClassTokensAreTokens(className);
    assert forall k :: 0 <= k < |ts| ==> IsToken(ts[k]) by {
      forall k | 0 <= k < |ts|
        ensures IsToken(ts[k])
      {
        assert ts[k] in old_;
      }
    }
    if token in ts && force != Some(true) {
      var r := Remove(ts, token);
      assert forall k :: 0 <= k < |r| ==> IsToken(r[k]) by {
        forall k | 0 <= k < |r|
          ensures IsToken(r[k])
        {
          assert r[k] in ts;
        }
      }
      TokensRoundTrip(r);
    } else if token !in ts && force != Some(false) {
      TokensRoundTrip(ts + [token]);
    }
  }

  /** Toggling twice without `force` restores whether the element has the
      class. */
  lemma ToggleTwice(className: string, token: string)
    requires IsToken(token)
    ensures token in ClassTokens(Toggle(Toggle(className, token, None), token, None))
        <==> token in ClassTokens(className)
  {
    ToggleEffect(className, token, None);
    ToggleEffect(Toggle(className, token, None), token, None);
  }
}
