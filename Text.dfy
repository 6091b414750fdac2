/** String helpers shared by the whole model: JavaScript's `Array.prototype.join`
    and `String.prototype.split` with a one-character separator, the DOM's
    parsing of a class attribute into tokens, the whitespace class of the
    JavaScript `\s` escape and of `String.prototype.trim`, ASCII case mapping,
    `String.prototype.includes`, and the decimal text of an integer. */
module Text {

  /* ---------------------------------------------------------------- */
  /* Join and split                                                    */
  /* ---------------------------------------------------------------- */

  /** `xs.join(sep)`: the elements with `sep` between each adjacent pair. */
  function Join(xs: seq<string>, sep: string): string
  {
    if |xs| == 0 then ""
    else if |xs| == 1 then xs[0]
    else xs[0] + sep + Join(xs[1..], sep)
  }

  /** `s.split(c)` generalised to a set of separator characters: the pieces
      between separators, in order, empty pieces included. Never empty. */
  function SplitAt(s: string, seps: set<char>): (r: seq<string>)
    ensures |r| >= 1
  {
    if |s| == 0 then [""]
    else
      var rest := SplitAt(s[1..], seps);
      if s[0] in seps then [""] + rest
      else [[s[0]] + rest[0]] + rest[1..]
  }

  /** `s.split(c)` for a one-character separator. */
  function Split(s: string, c: char): (r: seq<string>)
    ensures |r| >= 1
  {
    SplitAt(s, {c})
  }

  /** True when no character of `s` is in `seps`. */
  predicate FreeOf(s: string, seps: set<char>)
  {
    forall i :: 0 <= i < |s| ==> s[i] !in seps
  }

  lemma FreeOfConcat(a: string, b: string, seps: set<char>)
    ensures FreeOf(a + b, seps) <==> FreeOf(a, seps) && FreeOf(b, seps)
  {
    if FreeOf(a, seps) && FreeOf(b, seps) {
      forall i | 0 <= i < |a + b|
        ensures (a + b)[i] !in seps
      {
        if i >= |a| {
          assert (a + b)[i] == b[i - |a|];
        }
      }
    }
    if FreeOf(a + b, seps) {
      forall i | 0 <= i < |a|
        ensures a[i] !in seps
      {
        assert (a + b)[i] == a[i];
      }
      forall i | 0 <= i < |b|
        ensures b[i] !in seps
      {
        assert (a + b)[|a| + i] == b[i];
      }
    }
  }

  /** A join of separator-free strings with a separator-free glue is
      separator-free. */
  lemma {:induction false} JoinFreeOf(xs: seq<string>, sep: string, seps: set<char>)
    requires forall k :: 0 <= k < |xs| ==> FreeOf(xs[k], seps)
    requires FreeOf(sep, seps)
    ensures FreeOf(Join(xs, sep), seps)
  {
    if |xs| > 1 {
      JoinFreeOf(xs[1..], sep, seps);
      FreeOfConcat(xs[0], sep, seps);
      FreeOfConcat(xs[0] + sep, Join(xs[1..], sep), seps);
    }
  }

  /** Every piece produced by a split is free of separators. */
  lemma {:induction false} SplitPiecesFreeOf(s: string, seps: set<char>)
    ensures forall t :: t in SplitAt(s, seps) ==> FreeOf(t, seps)
  {
    if |s| > 0 {
      SplitPiecesFreeOf(s[1..], seps);
      var rest := SplitAt(s[1..], seps);
      assert rest[0] in rest;
      assert forall t :: t in rest[1..] ==> t in rest;
    }
  }

  /** A string without separators splits into itself alone. */
  lemma {:induction false} SplitFreeOf(x: string, seps: set<char>)
    requires FreeOf(x, seps)
    ensures SplitAt(x, seps) == [x]
  {
    if |x| > 0 {
      SplitFreeOf(x[1..], seps);
      assert [x[0]] + x[1..] == x;
    }
  }

  /** Splitting at a separator character distributes over the two sides. */
  lemma {:induction false} SplitAround(a: string, c: char, b: string, seps: set<char>)
    requires c in seps
    ensures SplitAt(a + [c] + b, seps) == SplitAt(a, seps) + SplitAt(b, seps)
  {
    if |a| == 0 {
      assert a + [c] + b == [c] + b;
      assert ([c] + b)[1..] == b;
    } else {
      var s := a + [c] + b;
      assert s[0] == a[0];
      assert s[1..] == a[1..] + [c] + b;
      SplitAround(a[1..], c, b, seps);
      var ra := SplitAt(a[1..], seps);
      var rb := SplitAt(b, seps);
      if a[0] in seps {
        assert SplitAt(s, seps) == [""] + (ra + rb);
      } else {
        assert SplitAt(s, seps) == [[a[0]] + (ra + rb)[0]] + (ra + rb)[1..];
        assert (ra + rb)[0] == ra[0];
        assert (ra + rb)[1..] == ra[1..] + rb;
      }
    }
  }

  /** Joining the pieces of a split with the separator gives back the string. */
  lemma {:induction false} JoinSplit(s: string, c: char)
    ensures Join(Split(s, c), [c]) == s
  {
    if |s| > 0 {
      JoinSplit(s[1..], c);
      var rest := SplitAt(s[1..], {c});
      if s[0] == c {
        assert Split(s, c) == [""] + rest;
        assert ([""] + rest)[1..] == rest;
        assert [s[0]] + s[1..] == s;
      } else {
        assert Split(s, c) == [[s[0]] + rest[0]] + rest[1..];
        if |rest| == 1 {
          assert [s[0]] + s[1..] == s;
        } else {
          assert ([[s[0]] + rest[0]] + rest[1..])[1..] == rest[1..];
          assert Join(rest, [c]) == rest[0] + [c] + Join(rest[1..], [c]);
          assert [s[0]] + s[1..] == s;
        }
      }
    }
  }

  /** Splitting a join of separator-free pieces gives back the pieces. */
  lemma {:induction false} SplitJoin(xs: seq<string>, c: char)
    requires |xs| >= 1
    requires forall k :: 0 <= k < |xs| ==> FreeOf(xs[k], {c})
    ensures Split(Join(xs, [c]), c) == xs
  {
    if |xs| == 1 {
      SplitFreeOf(xs[0], {c});
    } else {
      SplitJoin(xs[1..], c);
      SplitFreeOf(xs[0], {c});
      SplitAround(xs[0], c, Join(xs[1..], [c]), {c});
      assert [xs[0]] + xs[1..] == xs;
    }
  }

  /* ---------------------------------------------------------------- */
  /* Class tokens                                                      */
  /* ---------------------------------------------------------------- */

  /** The ASCII whitespace at which the DOM splits a class attribute. */
  const AsciiWhitespace: set<char> := {' ', '\t', '\n', '\r', '\U{000C}'}

  /** The pieces that are not empty, in order. */
  function NonEmpty(xs: seq<string>): (r: seq<string>)
    ensures |r| <= |xs|
    ensures forall k :: 0 <= k < |r| ==> r[k] != ""
  {
    if |xs| == 0 then []
    else if xs[0] == "" then NonEmpty(xs[1..])
    else [xs[0]] + NonEmpty(xs[1..])
  }

  lemma {:induction false} NonEmptyAppend(a: seq<string>, b: seq<string>)
    ensures NonEmpty(a + b) == NonEmpty(a) + NonEmpty(b)
  {
    if |a| > 0 {
      NonEmptyAppend(a[1..], b);
      assert (a + b)[1..] == a[1..] + b;
    } else {
      assert a + b == b;
    }
  }

  /** A list with no empty element is its own `NonEmpty`. */
  lemma {:induction false} NonEmptyOfFull(xs: seq<string>)
    requires forall k :: 0 <= k < |xs| ==> xs[k] != ""
    ensures NonEmpty(xs) == xs
  {
    if |xs| > 0 {
      NonEmptyOfFull(xs[1..]);
      assert [xs[0]] + xs[1..] == xs;
    }
  }

  /** Joining two non-empty lists is joining each and putting one separator
      between the results. */
  lemma {:induction false} JoinAppend(a: seq<string>, b: seq<string>, sep: string)
    requires |a| > 0 && |b| > 0
    ensures Join(a + b, sep) == Join(a, sep) + sep + Join(b, sep)
  {
    if |a| == 1 {
      assert (a + b)[1..] == b;
    } else {
      JoinAppend(a[1..], b, sep);
      assert (a + b)[1..] == a[1..] + b;
    }
  }

  /** A join whose first element is non-empty is non-empty. */
  lemma {:induction false} JoinNonEmptyHead(xs: seq<string>, sep: string)
    requires |xs| > 0 && xs[0] != ""
    ensures Join(xs, sep) != ""
  {
    if |xs| > 1 {
      assert Join(xs, sep)[..|xs[0]|] == xs[0];
    }
  }

  /** The tokens of a class attribute, as the DOM's `classList` reads them
      before removing duplicates. */
  function ClassTokens(s: string): seq<string>
  {
    NonEmpty(SplitAt(s, AsciiWhitespace))
  }

  /** A class token: not empty and free of ASCII whitespace. */
  predicate IsToken(t: string)
  {
    t != "" && FreeOf(t, AsciiWhitespace)
  }

  lemma ClassTokensAreTokens(s: string)
    ensures forall k :: 0 <= k < |ClassTokens(s)| ==> IsToken(ClassTokens(s)[k])
  {
    SplitPiecesFreeOf(s, AsciiWhitespace);
    NonEmptySubset(SplitAt(s, AsciiWhitespace));
  }

  lemma {:induction false} NonEmptySubset(xs: seq<string>)
    ensures forall t :: t in NonEmpty(xs) ==> t in xs
  {
    if |xs| > 0 {
      NonEmptySubset(xs[1..]);
    }
  }

  lemma TokenIsOwnClassTokens(t: string)
    requires IsToken(t)
    ensures ClassTokens(t) == [t]
  {
    SplitFreeOf(t, AsciiWhitespace);
  }

  /** The tokens of every string of `xs`, concatenated in order. */
  function TokensOfAll(xs: seq<string>): seq<string>
  {
    if |xs| == 0 then [] else ClassTokens(xs[0]) + TokensOfAll(xs[1..])
  }

  /** Reading the classes of a space-joined list reads each element's
      classes in turn. */
  lemma {:induction false} ClassTokensOfJoin(xs: seq<string>)
    ensures ClassTokens(Join(xs, " ")) == TokensOfAll(xs)
  {
    if |xs| == 1 {
    } else if |xs| > 1 {
      ClassTokensOfJoin(xs[1..]);
      SplitAround(xs[0], ' ', Join(xs[1..], " "), AsciiWhitespace);
      NonEmptyAppend(SplitAt(xs[0], AsciiWhitespace), SplitAt(Join(xs[1..], " "), AsciiWhitespace));
    }
  }

  lemma {:induction false} TokensOfAllAppend(a: seq<string>, b: seq<string>)
    ensures TokensOfAll(a + b) == TokensOfAll(a) + TokensOfAll(b)
  {
    if |a| > 0 {
      TokensOfAllAppend(a[1..], b);
      assert (a + b)[1..] == a[1..] + b;
    } else {
      assert a + b == b;
    }
  }

  /** A list of tokens, space-joined, reads back as the same list. */
  lemma {:induction false} TokensRoundTrip(ts: seq<string>)
    requires forall k :: 0 <= k < |ts| ==> IsToken(ts[k])
    ensures ClassTokens(Join(ts, " ")) == ts
  {
    ClassTokensOfJoin(ts);
    TokensOfAllOfTokens(ts);
  }

  lemma {:induction false} TokensOfAllOfTokens(ts: seq<string>)
    requires forall k :: 0 <= k < |ts| ==> IsToken(ts[k])
    ensures TokensOfAll(ts) == ts
  {
    if |ts| > 0 {
      TokenIsOwnClassTokens(ts[0]);
      TokensOfAllOfTokens(ts[1..]);
      assert [ts[0]] + ts[1..] == ts;
    }
  }

  /* ---------------------------------------------------------------- */
  /* Whitespace and trimming                                           */
  /* ---------------------------------------------------------------- */

  /** The characters matched by the regular-expression escape `\s`, which are
      also the characters `String.prototype.trim` removes. */
  predicate IsJsSpace(c: char)
  {
    c == '\t' || c == '\n' || c == '\U{000B}' || c == '\U{000C}' || c == '\r'
    || c == ' ' || c == '\U{00A0}' || c == '\U{1680}'
    || ('\U{2000}' <= c <= '\U{200A}')
    || c == '\U{2028}' || c == '\U{2029}' || c == '\U{202F}' || c == '\U{205F}'
    || c == '\U{3000}' || c == '\U{FEFF}'
  }

  /** `s` with leading `\s` characters removed. */
  function TrimStart(s: string): (r: string)
    ensures |r| <= |s|
    ensures r == s[|s| - |r|..]
    ensures |r| > 0 ==> !IsJsSpace(r[0])
  {
    if |s| > 0 && IsJsSpace(s[0]) then TrimStart(s[1..]) else s
  }

  /** `s` with trailing `\s` characters removed. */
  function TrimEnd(s: string): (r: string)
    ensures |r| <= |s|
    ensures r == s[..|r|]
    ensures |r| > 0 ==> !IsJsSpace(r[|r| - 1])
  {
    if |s| > 0 && IsJsSpace(s[|s| - 1]) then TrimEnd(s[..|s| - 1]) else s
  }

  /** `s.trim()`. */
  function Trim(s: string): string
  {
    TrimEnd(TrimStart(s))
  }

  /** Text with no `\s` at either end is its own trim. */
  lemma TrimOfTrimmed(s: string)
    requires |s| > 0 ==> !IsJsSpace(s[0]) && !IsJsSpace(s[|s| - 1])
    ensures Trim(s) == s
  {
    assert TrimStart(s) == s;
  }

  /* ---------------------------------------------------------------- */
  /* Case mapping and search                                           */
  /* ---------------------------------------------------------------- */

  function LowerChar(c: char): char
  {
    if 'A' <= c <= 'Z' then (c as int + 32) as char else c
  }

  function UpperChar(c: char): char
  {
    if 'a' <= c <= 'z' then (c as int - 32) as char else c
  }

  /** `s.toLowerCase()` on the ASCII letters. */
  function ToLower(s: string): (r: string)
    ensures |r| == |s|
    ensures forall i :: 0 <= i < |s| ==> r[i] == LowerChar(s[i])
  {
    if |s| == 0 then "" else [LowerChar(s[0])] + ToLower(s[1..])
  }

  /** `sub` occurs in `s` starting at index `i`. */
  predicate OccursAt(s: string, sub: string, i: int)
  {
    0 <= i <= |s| - |sub| && s[i..i + |sub|] == sub
  }

  /** `s.includes(sub)`. */
  function Includes(s: string, sub: string): (b: bool)
    ensures b <==> exists i :: OccursAt(s, sub, i)
  {
    if |sub| <= |s| && s[..|sub|] == sub then
      assert OccursAt(s, sub, 0);
      true
    else if |s| <= |sub| then
      assert forall i :: !OccursAt(s, sub, i);
      false
    else
      ShiftOccurrence(s, sub);
      Includes(s[1..], sub)
  }

  /** Past a mismatch at the first index, `sub` occurs in `s` exactly when it
      occurs in the rest of `s`. */
  lemma ShiftOccurrence(s: string, sub: string)
    requires |s| > |sub| && s[..|sub|] != sub
    ensures (exists i :: OccursAt(s, sub, i)) <==> (exists j :: OccursAt(s[1..], sub, j))
  {
    if exists i :: OccursAt(s, sub, i) {
      var i :| OccursAt(s, sub, i);
      assert i != 0 by { assert s[0..|sub|] == s[..|sub|]; }
      var w := s[1..][i - 1..i - 1 + |sub|];
      assert forall k :: 0 <= k < |sub| ==> w[k] == s[i..i + |sub|][k];
      assert w == sub;
      assert OccursAt(s[1..], sub, i - 1);
    }
    if exists j :: OccursAt(s[1..], sub, j) {
      var j :| OccursAt(s[1..], sub, j);
      var w := s[j + 1..j + 1 + |sub|];
      assert forall k :: 0 <= k < |sub| ==> w[k] == s[1..][j..j + |sub|][k];
      assert w == sub;
      assert OccursAt(s, sub, j + 1);
    }
  }

  /* ---------------------------------------------------------------- */
  /* Numbers as text                                                   */
  /* ---------------------------------------------------------------- */

  predicate IsDigit(c: char)
  {
    '0' <= c <= '9'
  }

  function DigitChar(d: nat): char
    requires d < 10
  {
    ('0' as int + d) as char
  }

  /** The decimal digits of `n`, without leading zeros. */
  function NatToString(n: nat): (r: string)
    ensures |r| >= 1
    ensures forall i :: 0 <= i < |r| ==> IsDigit(r[i])
  {
    if n < 10 then [DigitChar(n)] else NatToString(n / 10) + [DigitChar(n % 10)]
  }

  /** `String(i)` for an integer. */
  function IntToString(i: int): string
  {
    if i < 0 then "-" + NatToString(-i) else NatToString(i)
  }

  /** The value of a string of decimal digits. */
  function DigitsValue(ds: string): nat
    requires forall i :: 0 <= i < |ds| ==> IsDigit(ds[i])
  {
    if |ds| == 0 then 0
    else
      assert IsDigit(ds[|ds| - 1]);
      DigitsValue(ds[..|ds| - 1]) * 10 + (ds[|ds| - 1] as int - '0' as int)
  }

  /** Reading back the digits `NatToString` writes gives the number. */
  lemma {:induction false} DigitsValueOfNatToString(n: nat)
    ensures DigitsValue(NatToString(n)) == n
  {
    if n >= 10 {
      DigitsValueOfNatToString(n / 10);
      var s := NatToString(n);
      assert s[..|s| - 1] == NatToString(n / 10);
    }
  }
}
