/**
 * CSS declaration lists as the generators write them: `name: value;`
 * declarations joined by single spaces, and the reading that recovers the
 * declarations from that text.
 */
module Css {
  import opened Text
  import opened Optional

  datatype Decl = Decl(name: string, value: string)

  /** `name: value` without the terminating semicolon. */
  function Body(d: Decl): string
  {
    d.name + ": " + d.value
  }

  function Render(d: Decl): string
  {
    Body(d) + ";"
  }

  function RenderAll(ds: seq<Decl>): (r: seq<string>)
    ensures |r| == |ds|
    ensures forall i :: 0 <= i < |ds| ==> r[i] == Render(ds[i])
  {
    seq(|ds|, i requires 0 <= i < |ds| => Render(ds[i]))
  }

  /** The declarations joined by single spaces. */
  function Block(ds: seq<Decl>): string
  {
    Join(RenderAll(ds), " ")
  }

  /** A declaration list renders to the empty string only when it is empty. */
  lemma BlockEmpty(ds: seq<Decl>)
    ensures Block(ds) == "" <==> ds == []
  {
    if ds != [] {
      assert RenderAll(ds)[0] == Render(ds[0]);
      JoinNonEmptyHead(RenderAll(ds), " ");
    }
  }

  /** A declaration whose text can be read back: no `:` or `;` in its name
      and no `;` in its value. */
  predicate Plain(d: Decl)
  {
    FreeOf(d.name, {':', ';'}) && FreeOf(d.value, {';'})
  }

  /** The position of the first `c` in `s`. */
  function FirstIndex(s: string, c: char): (r: Option<nat>)
    ensures r.Some? ==> r.value < |s| && s[r.value] == c && FreeOf(s[..r.value], {c})
    ensures r.None? ==> FreeOf(s, {c})
  {
    if |s| == 0 then None
    else if s[0] == c then Some(0)
    else
      match FirstIndex(s[1..], c)
      case None => None
      case Some(k) =>
        assert s[..k + 1] == [s[0]] + s[1..][..k];
        Some(k + 1)
  }

  lemma {:induction false} FirstIndexAfter(a: string, c: char, b: string)
    requires FreeOf(a, {c})
    ensures FirstIndex(a + [c] + b, c) == Some(|a|)
  {
    if |a| > 0 {
      assert (a + [c] + b)[1..] == a[1..] + [c] + b;
      FirstIndexAfter(a[1..], c, b);
    }
  }

  /** Reads one `name: value` piece. */
  function ParseDecl(piece: string): Option<Decl>
  {
    match FirstIndex(piece, ':')
    case None => None
    case Some(k) =>
      if k + 1 < |piece| && piece[k + 1] == ' ' then Some(Decl(piece[..k], piece[k + 2..]))
      else None
  }

  /** Reads the pieces between semicolons; every piece after the first
      starts with the joining space. */
  function ParsePieces(ps: seq<string>, first: bool): Option<seq<Decl>>
  {
    if |ps| == 0 then Some([])
    else if !first && (|ps[0]| == 0 || ps[0][0] != ' ') then None
    else
      var d := ParseDecl(if first then ps[0] else ps[0][1..]);
      var rest := ParsePieces(ps[1..], false);
      if d.None? || rest.None? then None else Some([d.value] + rest.value)
  }

  /** Reads a declaration list: the text must end in `;` (or be empty). */
  function ParseBlock(text: string): Option<seq<Decl>>
  {
    var ps := Split(text, ';');
    if ps[|ps| - 1] != "" then None else ParsePieces(ps[..|ps| - 1], true)
  }

  /** The pieces of a rendered list between semicolons, the first one
      carrying `pre`. */
  function Pieces(pre: string, ds: seq<Decl>): (r: seq<string>)
    requires |ds| >= 1
    ensures |r| == |ds|
  {
    [pre + Body(ds[0])] + seq(|ds| - 1, i requires 0 <= i < |ds| - 1 => " " + Body(ds[i + 1]))
  }

  lemma {:induction false} BodyFree(d: Decl)
    requires Plain(d)
    ensures FreeOf(Body(d), {';'})
  {
    assert Body(d) == d.name + ": " + d.value;
  }

  lemma {:induction false} SplitBlock(pre: string, ds: seq<Decl>)
    requires |ds| >= 1 && FreeOf(pre, {';'})
    requires forall i :: 0 <= i < |ds| ==> Plain(ds[i])
    ensures Split(pre + Block(ds), ';') == Pieces(pre, ds) + [""]
    decreases |ds|
  {
    BodyFree(ds[0]);
    var head := pre + Body(ds[0]);
    assert FreeOf(head, {';'});
    SplitFreeOf(head, {';'});
    if |ds| == 1 {
      assert pre + Block(ds) == head + [';'] + "";
      SplitAround(head, ';', "", {';'});
    } else {
      var rest := ds[1..];
      assert RenderAll(ds)[1..] == RenderAll(rest);
      assert Block(ds) == Render(ds[0]) + " " + Block(rest);
      assert pre + Block(ds) == head + [';'] + (" " + Block(rest));
      SplitAround(head, ';', " " + Block(rest), {';'});
      SplitBlock(" ", rest);
      assert Pieces(pre, ds) == [head] + Pieces(" ", rest);
    }
  }

  lemma {:induction false} ParseDeclBody(d: Decl)
    requires Plain(d)
    ensures ParseDecl(Body(d)) == Some(d)
  {
    assert Body(d) == d.name + [':'] + (" " + d.value);
    FirstIndexAfter(d.name, ':', " " + d.value);
    assert Body(d)[..|d.name|] == d.name;
    assert Body(d)[|d.name| + 2..] == d.value;
  }

  /** The pieces of a rendered list as `ParsePieces` sees them. */
  function Spaced(ds: seq<Decl>, first: bool): (r: seq<string>)
    ensures |r| == |ds|
    ensures forall i :: 0 <= i < |ds| ==> r[i] == (if first && i == 0 then "" else " ") + Body(ds[i])
  {
    seq(|ds|, i requires 0 <= i < |ds| => (if first && i == 0 then "" else " ") + Body(ds[i]))
  }

  lemma {:induction false} ParsePiecesOf(ds: seq<Decl>, first: bool)
    requires forall i :: 0 <= i < |ds| ==> Plain(ds[i])
    ensures ParsePieces(Spaced(ds, first), first) == Some(ds)
  {
    var ps := Spaced(ds, first);
    if |ds| > 0 {
      ParseDeclBody(ds[0]);
      ParsePiecesOf(ds[1..], false);
      assert ps[1..] == Spaced(ds[1..], false);
      if first {
        assert ps[0] == Body(ds[0]);
      } else {
        assert ps[0] == " " + Body(ds[0]);
        assert ps[0][1..] == Body(ds[0]);
      }
      assert ParseDecl(if first then ps[0] else ps[0][1..]) == Some(ds[0]);
      assert [ds[0]] + ds[1..] == ds;
    }
  }

  /** Reading a rendered list gives back the declarations. */
  lemma ParseBlockRender(ds: seq<Decl>)
    requires forall i :: 0 <= i < |ds| ==> Plain(ds[i])
    ensures ParseBlock(Block(ds)) == Some(ds)
  {
    if |ds| > 0 {
      SplitBlock("", ds);
      assert "" + Block(ds) == Block(ds);
      var ps := Split(Block(ds), ';');
      assert ps == Pieces("", ds) + [""];
      assert ps[|ps| - 1] == "";
      assert ps[..|ps| - 1] == Pieces("", ds);
      ParsePiecesOf(ds, true);
      assert Pieces("", ds) == Spaced(ds, true);
    } else {
      assert Block(ds) == "";
    }
  }
}
