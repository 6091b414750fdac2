/**
 * The slice of a browser document that style injection touches: the
 * elements of the head and of the body, in document order, each with its
 * tag, its `uizy-design` attribute and its text content.
 */
module Dom {
  import opened Optional

  datatype Element = Element(tag: string, design: Option<string>, text: string)

  /** The document's elements: the head's children, then the body's. */
  datatype Page = Page(head: seq<Element>, body: seq<Element>)

  function Nodes(p: Page): seq<Element>
  {
    p.head + p.body
  }

  /** Whether an element matches the attribute selector `[uizy-design="id"]`,
      narrowed to `style` elements when `styleOnly`. */
  predicate Tagged(e: Element, id: string, styleOnly: bool)
  {
    e.design == Some(id) && (styleOnly ==> e.tag == "style")
  }

  /** The position of the first matching element in document order. */
  function FirstTagged(nodes: seq<Element>, id: string, styleOnly: bool): (r: Option<nat>)
    ensures r.Some? ==> r.value < |nodes| && Tagged(nodes[r.value], id, styleOnly)
    ensures r.Some? ==> forall j :: 0 <= j < r.value ==> !Tagged(nodes[j], id, styleOnly)
    ensures r.None? ==> forall j :: 0 <= j < |nodes| ==> !Tagged(nodes[j], id, styleOnly)
  {
    if |nodes| == 0 then None
    else if Tagged(nodes[0], id, styleOnly) then Some(0)
    else
      match FirstTagged(nodes[1..], id, styleOnly)
      case None => None
      case Some(k) => Some(k + 1)
  }

  /** The matching elements, in document order. */
  function TaggedWith(nodes: seq<Element>, id: string, styleOnly: bool): (r: seq<Element>)
    ensures |r| <= |nodes|
  {
    if |nodes| == 0 then []
    else if Tagged(nodes[0], id, styleOnly) then [nodes[0]] + TaggedWith(nodes[1..], id, styleOnly)
    else TaggedWith(nodes[1..], id, styleOnly)
  }

  lemma {:induction false} TaggedWithAppend(a: seq<Element>, b: seq<Element>, id: string, styleOnly: bool)
    ensures TaggedWith(a + b, id, styleOnly) == TaggedWith(a, id, styleOnly) + TaggedWith(b, id, styleOnly)
  {
    if |a| > 0 {
      assert (a + b)[1..] == a[1..] + b;
      TaggedWithAppend(a[1..], b, id, styleOnly);
    } else {
      assert a + b == b;
    }
  }

  /** A fresh element created by `createElement(tag)` and tagged with `id`. */
  function Fresh(tag: string, id: string): Element
  {
    Element(tag, Some(id), "")
  }

  /** The page with the text of the element at position `k` replaced. */
  function SetTextAt(p: Page, k: nat, text: string): (r: Page)
    requires k < |Nodes(p)|
    ensures |r.head| == |p.head| && |r.body| == |p.body|
    ensures Nodes(r) == Nodes(p)[k := Nodes(p)[k].(text := text)]
  {
    if k < |p.head| then p.(head := p.head[k := p.head[k].(text := text)])
    else p.(body := p.body[k - |p.head| := p.body[k - |p.head|].(text := text)])
  }

  /** The document after looking up the element for `id`: unchanged when
      one matches, otherwise with a fresh tagged `style` element appended to
      the head. */
  function Upserted(p: Page, id: string, styleOnly: bool): Page
  {
    if FirstTagged(Nodes(p), id, styleOnly).Some? then p
    else p.(head := p.head + [Fresh("style", id)])
  }

  /** The position of the element the lookup returns. */
  function UpsertIndex(p: Page, id: string, styleOnly: bool): nat
  {
    match FirstTagged(Nodes(p), id, styleOnly)
    case Some(k) => k
    case None => |p.head|
  }

  /** The document after writing `text` into the element for `id`. */
  function Injected(p: Page, id: string, styleOnly: bool, text: string): Page
  {
    UpsertFinds(p, id, styleOnly);
    SetTextAt(Upserted(p, id, styleOnly), UpsertIndex(p, id, styleOnly), text)
  }

  lemma {:induction false} FirstTaggedAt(nodes: seq<Element>, k: nat, id: string, styleOnly: bool)
    requires k < |nodes| && Tagged(nodes[k], id, styleOnly)
    requires forall j :: 0 <= j < k ==> !Tagged(nodes[j], id, styleOnly)
    ensures FirstTagged(nodes, id, styleOnly) == Some(k)
  {
    if k > 0 {
      assert !Tagged(nodes[0], id, styleOnly);
      forall j | 0 <= j < k - 1
        ensures !Tagged(nodes[1..][j], id, styleOnly)
      {
        assert nodes[1..][j] == nodes[j + 1];
      }
      FirstTaggedAt(nodes[1..], k - 1, id, styleOnly);
    }
  }

  /** The lookup finds an element, and after the upsert it is the first
      match. */
  lemma UpsertFinds(p: Page, id: string, styleOnly: bool)
    ensures UpsertIndex(p, id, styleOnly) < |Nodes(Upserted(p, id, styleOnly))|
    ensures FirstTagged(Nodes(Upserted(p, id, styleOnly)), id, styleOnly) == Some(UpsertIndex(p, id, styleOnly))
  {
    if FirstTagged(Nodes(p), id, styleOnly).None? {
      var q := Upserted(p, id, styleOnly);
      assert Nodes(q) == p.head + [Fresh("style", id)] + p.body;
      forall j | 0 <= j < |p.head|
        ensures !Tagged(Nodes(q)[j], id, styleOnly)
      {
        assert Nodes(q)[j] == Nodes(p)[j];
      }
      FirstTaggedAt(Nodes(q), |p.head|, id, styleOnly);
    }
  }

  /** Rewriting an element's text changes no match of any selector. */
  lemma {:induction false} TaggedWithSetText(nodes: seq<Element>, k: nat, text: string, id: string, styleOnly: bool)
    requires k < |nodes|
    ensures |TaggedWith(nodes[k := nodes[k].(text := text)], id, styleOnly)| == |TaggedWith(nodes, id, styleOnly)|
    ensures !Tagged(nodes[k], id, styleOnly) ==>
      TaggedWith(nodes[k := nodes[k].(text := text)], id, styleOnly) == TaggedWith(nodes, id, styleOnly)
  {
    var m := nodes[k := nodes[k].(text := text)];
    if k > 0 {
      assert m[1..] == nodes[1..][k - 1 := nodes[k].(text := text)];
      TaggedWithSetText(nodes[1..], k - 1, text, id, styleOnly);
    } else {
      assert m[1..] == nodes[1..];
    }
  }

  /** After the injection the element for `id` is the first match and
      holds `text`. */
  lemma InjectedHolds(p: Page, id: string, styleOnly: bool, text: string)
    ensures FirstTagged(Nodes(Injected(p, id, styleOnly, text)), id, styleOnly).Some?
    ensures var k := FirstTagged(Nodes(Injected(p, id, styleOnly, text)), id, styleOnly).value;
            Nodes(Injected(p, id, styleOnly, text))[k].text == text
  {
    UpsertFinds(p, id, styleOnly);
    var q := Upserted(p, id, styleOnly);
    var k := UpsertIndex(p, id, styleOnly);
    var r := Nodes(Injected(p, id, styleOnly, text));
    assert r == Nodes(q)[k := Nodes(q)[k].(text := text)];
    forall j | 0 <= j < k
      ensures !Tagged(r[j], id, styleOnly)
    {
      assert r[j] == Nodes(q)[j];
    }
    FirstTaggedAt(r, k, id, styleOnly);
  }

  /** An injection never makes a second element for the same id: it adds
      one exactly when none matched. */
  lemma InjectedCount(p: Page, id: string, styleOnly: bool, text: string)
    ensures var before := |TaggedWith(Nodes(p), id, styleOnly)|;
            |TaggedWith(Nodes(Injected(p, id, styleOnly, text)), id, styleOnly)|
              == if before == 0 then 1 else before
  {
    UpsertFinds(p, id, styleOnly);
    var q := Upserted(p, id, styleOnly);
    var k := UpsertIndex(p, id, styleOnly);
    TaggedWithSetText(Nodes(q), k, text, id, styleOnly);
    if FirstTagged(Nodes(p), id, styleOnly).None? {
      NoneTagged(Nodes(p), id, styleOnly);
      UpsertAddsOne(p, id, styleOnly);
    } else {
      var j := FirstTagged(Nodes(p), id, styleOnly).value;
      SomeTagged(Nodes(p), j, id, styleOnly);
    }
  }

  lemma UpsertAddsOne(p: Page, id: string, styleOnly: bool)
    requires FirstTagged(Nodes(p), id, styleOnly).None?
    ensures |TaggedWith(Nodes(Upserted(p, id, styleOnly)), id, styleOnly)| == 1
  {
    var e := Fresh("style", id);
    NoneTagged(Nodes(p), id, styleOnly);
    TaggedWithAppend(p.head, p.body, id, styleOnly);
    var tail := [e] + p.body;
    assert tail[1..] == p.body;
    assert TaggedWith(tail, id, styleOnly) == [e] + TaggedWith(p.body, id, styleOnly);
    TaggedWithAppend(p.head, tail, id, styleOnly);
    assert Nodes(Upserted(p, id, styleOnly)) == p.head + tail;
  }

  lemma {:induction false} NoneTagged(nodes: seq<Element>, id: string, styleOnly: bool)
    requires FirstTagged(nodes, id, styleOnly).None?
    ensures TaggedWith(nodes, id, styleOnly) == []
  {
    if |nodes| > 0 {
      assert FirstTagged(nodes[1..], id, styleOnly).None?;
      NoneTagged(nodes[1..], id, styleOnly);
    }
  }

  lemma {:induction false} SomeTagged(nodes: seq<Element>, k: nat, id: string, styleOnly: bool)
    requires k < |nodes| && Tagged(nodes[k], id, styleOnly)
    ensures |TaggedWith(nodes, id, styleOnly)| > 0
  {
    if k > 0 && !Tagged(nodes[0], id, styleOnly) {
      assert nodes[1..][k - 1] == nodes[k];
      SomeTagged(nodes[1..], k - 1, id, styleOnly);
    }
  }

  /** Elements matching any other id are left exactly as they were. */
  lemma InjectedLeavesOthers(p: Page, id: string, styleOnly: bool, text: string, other: string, otherStyleOnly: bool)
    requires other != id
    ensures TaggedWith(Nodes(Injected(p, id, styleOnly, text)), other, otherStyleOnly)
         == TaggedWith(Nodes(p), other, otherStyleOnly)
  {
    UpsertFinds(p, id, styleOnly);
    var q := Upserted(p, id, styleOnly);
    var k := UpsertIndex(p, id, styleOnly);
    TaggedWithSetText(Nodes(q), k, text, other, otherStyleOnly);
    if FirstTagged(Nodes(p), id, styleOnly).None? {
      TaggedWithAppend(p.head, [Fresh("style", id)] + p.body, other, otherStyleOnly);
      TaggedWithAppend([Fresh("style", id)], p.body, other, otherStyleOnly);
      TaggedWithAppend(p.head, p.body, other, otherStyleOnly);
      assert Nodes(q) == p.head + ([Fresh("style", id)] + p.body);
    }
  }

  /** Injecting twice under one id is injecting the second text once. */
  lemma InjectedTwice(p: Page, id: string, styleOnly: bool, t1: string, t2: string)
    ensures Injected(Injected(p, id, styleOnly, t1), id, styleOnly, t2) == Injected(p, id, styleOnly, t2)
  {
    var p1 := Injected(p, id, styleOnly, t1);
    InjectedHolds(p, id, styleOnly, t1);
    UpsertFinds(p, id, styleOnly);
    var k := UpsertIndex(p, id, styleOnly);
    var r := Nodes(p1);
    forall j | 0 <= j < k
      ensures !Tagged(r[j], id, styleOnly)
    {
      assert r[j] == Nodes(Upserted(p, id, styleOnly))[j];
    }
    FirstTaggedAt(r, k, id, styleOnly);
    assert Upserted(p1, id, styleOnly) == p1;
    assert UpsertIndex(p1, id, styleOnly) == k;
  }

  /** The document, whose page the injection helpers update in place. */
  class Document {
    var page: Page

    constructor (page: Page)
      ensures this.page == page
    {
      this.page := page;
    }

    /** `document.head.append(e)`. */
    method AppendToHead(e: Element)
      modifies this
      ensures page == old(page).(head := old(page).head + [e])
    {
      page := page.(head := page.head + [e]);
    }

    /** `element.textContent = text` for the element at position `k`. */
    method SetText(k: nat, text: string)
      requires k < |Nodes(page)|
      modifies this
      ensures page == SetTextAt(old(page), k, text)
    {
      page := SetTextAt(page, k, text);
    }
  }
}
