/**
 * CSS injection helpers of the engine: a whitespace minifier and the
 * per-id `<style uizy-design="id">` element that injected CSS replaces.
 */
module EngineUtils {
  import opened Text
  import opened Optional
  import opened Dom

  /* ------------------------------------------------------------------ */
  /* Minifier                                                            */
  /* ------------------------------------------------------------------ */

  /** `s.replace(/\s\s+/g, " ")`: every run of two or more `\s`
      characters becomes one space; a lone `\s` character stays. */
  function CollapseRuns(s: string): string
    decreases |s|
  {
    if |s| == 0 then ""
    else if |s| >= 2 && IsJsSpace(s[0]) && IsJsSpace(s[1]) then
      TrimStartShrinks(s);
      " " + CollapseRuns(TrimStart(s))
    else [s[0]] + CollapseRuns(s[1..])
  }

  lemma TrimStartShrinks(s: string)
    requires |s| > 0 && IsJsSpace(s[0])
    ensures |TrimStart(s)| < |s|
  {
  }

  predicate IsLineBreak(c: char)
  {
    c == '\n' || c == '\r'
  }

  /** `s.replace(/\r?\n|\r/g, "")`: every line feed and carriage return
      removed. */
  function StripLineBreaks(s: string): string
  {
    if |s| == 0 then ""
    else if IsLineBreak(s[0]) then StripLineBreaks(s[1..])
    else [s[0]] + StripLineBreaks(s[1..])
  }

  /** `minifyCSS`: collapse whitespace runs, drop line breaks, trim. */
  function Minify(css: string): string
  {
    Trim(StripLineBreaks(CollapseRuns(css)))
  }

  predicate NoLineBreaks(s: string)
  {
    forall i :: 0 <= i < |s| ==> !IsLineBreak(s[i])
  }

  predicate NoAdjacentSpaces(s: string)
  {
    forall i :: 0 <= i < |s| - 1 ==> !(IsJsSpace(s[i]) && IsJsSpace(s[i + 1]))
  }

  /** No `\s` character at either end. */
  predicate Trimmed(s: string)
  {
    |s| > 0 ==> !IsJsSpace(s[0]) && !IsJsSpace(s[|s| - 1])
  }

  lemma {:induction false} CollapseRunsSeparates(s: string)
    ensures NoAdjacentSpaces(CollapseRuns(s))
    ensures |CollapseRuns(s)| > 0 && IsJsSpace(CollapseRuns(s)[0]) ==> |s| > 0 && IsJsSpace(s[0])
    decreases |s|
  {
    if |s| >= 2 && IsJsSpace(s[0]) && IsJsSpace(s[1]) {
      TrimStartShrinks(s);
      CollapseRunsSeparates(TrimStart(s));
    } else if |s| > 0 {
      CollapseRunsSeparates(s[1..]);
    }
  }

  lemma {:induction false} CollapseRunsKeeps(s: string)
    requires NoAdjacentSpaces(s)
    ensures CollapseRuns(s) == s
    decreases |s|
  {
    if |s| > 0 {
      assert NoAdjacentSpaces(s[1..]) by {
        forall i | 0 <= i < |s[1..]| - 1
          ensures !(IsJsSpace(s[1..][i]) && IsJsSpace(s[1..][i + 1]))
        {
          assert s[1..][i] == s[i + 1] && s[1..][i + 1] == s[i + 2];
        }
      }
      CollapseRunsKeeps(s[1..]);
    }
  }

  lemma {:induction false} StripLineBreaksClean(s: string)
    ensures NoLineBreaks(StripLineBreaks(s))
    ensures NoAdjacentSpaces(s) ==> NoAdjacentSpaces(StripLineBreaks(s))
    ensures NoAdjacentSpaces(s) && |StripLineBreaks(s)| > 0 && IsJsSpace(StripLineBreaks(s)[0])
            ==> !IsLineBreak(s[0]) && IsJsSpace(s[0])
    decreases |s|
  {
    if |s| > 0 {
      StripLineBreaksClean(s[1..]);
      if NoAdjacentSpaces(s) {
        assert NoAdjacentSpaces(s[1..]) by {
          forall i | 0 <= i < |s[1..]| - 1
            ensures !(IsJsSpace(s[1..][i]) && IsJsSpace(s[1..][i + 1]))
          {
            assert s[1..][i] == s[i + 1] && s[1..][i + 1] == s[i + 2];
          }
        }
      }
    }
  }

  lemma {:induction false} StripLineBreaksKeeps(s: string)
    requires NoLineBreaks(s)
    ensures StripLineBreaks(s) == s
    decreases |s|
  {
    if |s| > 0 {
      StripLineBreaksKeeps(s[1..]);
    }
  }

  /** Trimming takes a slice, so it keeps both properties, and it leaves
      no `\s` at the ends. */
  lemma TrimClean(s: string)
    ensures Trimmed(Trim(s))
    ensures NoLineBreaks(s) ==> NoLineBreaks(Trim(s))
    ensures NoAdjacentSpaces(s) ==> NoAdjacentSpaces(Trim(s))
  {
    var t := TrimStart(s);
    var r := TrimEnd(t);
    var a := |s| - |t|;
    assert r == s[a..a + |r|];
    if |r| > 0 {
      assert r[0] == t[0];
    }
  }

  lemma TrimKeeps(s: string)
    requires Trimmed(s)
    ensures Trim(s) == s
  {
  }

  /** The minified text has no line break, no two adjacent `\s` characters
      and no `\s` at either end. */
  lemma MinifyClean(css: string)
    ensures NoLineBreaks(Minify(css))
    ensures NoAdjacentSpaces(Minify(css))
    ensures Trimmed(Minify(css))
  {
    var c := CollapseRuns(css);
    CollapseRunsSeparates(css);
    StripLineBreaksClean(c);
    TrimClean(StripLineBreaks(c));
  }

  lemma MinifyIdempotent(css: string)
    ensures Minify(Minify(css)) == Minify(css)
  {
    var m := Minify(css);
    MinifyClean(css);
    CollapseRunsKeeps(m);
    StripLineBreaksKeeps(m);
    TrimKeeps(m);
  }

  /* ------------------------------------------------------------------ */
  /* Style elements                                                      */
  /* ------------------------------------------------------------------ */

  /** The style id used when none is given. */
  const DefaultStyleId := "main"

  function StyleId(id: Option<string>): (r: string)
    ensures id.Some? ==> r == id.value
    ensures id.None? ==> r == "main"
  {
    if id.Some? then id.value else DefaultStyleId
  }

  /** `getOrCreateStyle(id)`: the first `style[uizy-design="id"]` of the
      document, or a fresh one appended to the head. */
  method GetOrCreateStyle(doc: Document, id: string) returns (k: nat)
    modifies doc
    ensures doc.page == Upserted(old(doc.page), id, true)
    ensures k == UpsertIndex(old(doc.page), id, true)
    ensures k < |Nodes(doc.page)| && FirstTagged(Nodes(doc.page), id, true) == Some(k)
  {
    UpsertFinds(doc.page, id, true);
    var existing := FirstTagged(Nodes(doc.page), id, true);
    if existing.Some? {
      return existing.value;
    }
    k := |doc.page.head|;
    doc.AppendToHead(Fresh("style", id));
  }

  /** `injectCSS(code, id = "main")`: the element for the id now holds the
      minified code. */
  method InjectCss(doc: Document, code: string, id: Option<string>)
    modifies doc
    ensures doc.page == Injected(old(doc.page), StyleId(id), true, Minify(code))
  {
    var k := GetOrCreateStyle(doc, StyleId(id));
    doc.SetText(k, Minify(code));
  }
}
