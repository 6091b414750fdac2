/**
 * The component registry of the engine: a tree of named functions looked up
 * by dot-separated paths ("drawer.left.open"), a caching caller built from
 * a snapshot of the tree, path enumeration, and the registry object that
 * merges trees, builds the caller lazily and clears everything.
 */
module Registry {
  import opened Text

  /** A value reachable in a component tree.  `Undefined` stands for both
      `undefined` and `null`; `Scalar` for any non-object, non-function value
      (string, number, boolean), kept as its text; `Fn` for a function, known
      only by an identity; `Branch` for a plain object, whose own enumerable
      properties are listed in insertion order. */
  datatype Node = Undefined | Scalar(text: string) | Fn(id: nat) | Branch(entries: seq<Entry>)

  datatype Entry = Entry(key: string, value: Node)

  /** The own properties of an object, in insertion order. */
  type Tree = seq<Entry>

  function Keys(t: Tree): (r: seq<string>)
    ensures |r| == |t|
    ensures forall i :: 0 <= i < |t| ==> r[i] == t[i].key
  {
    seq(|t|, i requires 0 <= i < |t| => t[i].key)
  }

  /** Object keys are unique. */
  predicate DistinctKeys(t: Tree)
  {
    forall i, j :: 0 <= i < j < |t| ==> t[i].key != t[j].key
  }

  /** Read of an own entry: the value stored under `key`, or `undefined`
      when the object has no such own property.  The language's `obj[key]`
      also reaches the methods every object inherits; `GetAsWritten` below
      models that. */
  function Get(t: Tree, key: string): (r: Node)
    ensures key !in Keys(t) ==> r == Undefined
  {
    if |t| == 0 then Undefined
    else if t[0].key == key then t[0].value
    else
      assert Keys(t) == [t[0].key] + Keys(t[1..]);
      Get(t[1..], key)
  }

  /** With distinct keys, reading a key gives the value stored with it. */
  lemma {:induction false} GetAt(t: Tree, i: nat)
    requires DistinctKeys(t) && i < |t|
    ensures Get(t, t[i].key) == t[i].value
  {
    if i > 0 {
      assert t[1..][i - 1] == t[i];
      assert DistinctKeys(t[1..]);
      GetAt(t[1..], i - 1);
    }
  }

  /* ------------------------------------------------------------------ */
  /* Path resolution                                                     */
  /* ------------------------------------------------------------------ */

  /** What a lookup reaches after descending through `segments`: a null or
      non-object value met before the segments run out gives `undefined`. */
  function Walk(current: Node, segments: seq<string>): Node
    decreases |segments|
  {
    if |segments| == 0 then current
    else if !current.Branch? then Undefined
    else Walk(Get(current.entries, segments[0]), segments[1..])
  }

  /** The value a dot-path names in the tree `root`. */
  function Resolved(root: Tree, path: string): Node
  {
    Walk(Branch(root), Split(path, '.'))
  }

  /** Resolves a dot-path segment by segment; never fails, a path that
      leaves the tree gives `undefined`. */
  method ResolvePath(root: Tree, path: string) returns (r: Node)
    ensures r == Resolved(root, path)
  {
    var segments := Split(path, '.');
    var current := Branch(root);
    var i := 0;
    while i < |segments|
      invariant 0 <= i <= |segments|
      invariant Walk(current, segments[i..]) == Resolved(root, path)
    {
      assert segments[i..][1..] == segments[i + 1..];
      if current.Undefined? {
        return Undefined;
      }
      if !current.Branch? {
        return Undefined;
      }
      current := Get(current.entries, segments[i]);
      i := i + 1;
    }
    return current;
  }

  /** Whether a dot-path leads to a function. */
  method HasComponent(tree: Tree, path: string) returns (b: bool)
    ensures b <==> Resolved(tree, path).Fn?
  {
    var segments := Split(path, '.');
    var current := Branch(tree);
    var i := 0;
    while i < |segments|
      invariant 0 <= i <= |segments|
      invariant Walk(current, segments[i..]) == Resolved(tree, path)
    {
      assert segments[i..][1..] == segments[i + 1..];
      if current.Undefined? {
        return false;
      }
      if !current.Branch? {
        return false;
      }
      current := Get(current.entries, segments[i]);
      i := i + 1;
    }
    return current.Fn?;
  }

  /* ------------------------------------------------------------------ */
  /* Path enumeration                                                    */
  /* ------------------------------------------------------------------ */

  /** A child path: the key alone under the empty (falsy) prefix. */
  function Dotted(prefix: string, key: string): string
  {
    if prefix == "" then key else prefix + "." + key
  }

  /** The paths of every function under `n`, depth first, in key order,
      each written below `prefix`. */
  function PathsOf(n: Node, prefix: string): seq<string>
    decreases n
  {
    match n
    case Fn(_) => [prefix]
    case Branch(es) => PathsOfEntries(es, prefix)
    case _ => []
  }

  function PathsOfEntries(es: Tree, prefix: string): seq<string>
    decreases es
  {
    if |es| == 0 then []
    else PathsOfEntries(es[..|es| - 1], prefix)
         + PathsOf(es[|es| - 1].value, Dotted(prefix, es[|es| - 1].key))
  }

  /** The depth-first walk: appends the paths of `current` to `acc`. */
  method WalkPaths(current: Node, prefix: string, acc: seq<string>) returns (result: seq<string>)
    ensures result == acc + PathsOf(current, prefix)
    decreases current, 1
  {
    if current.Undefined? {
      return acc;
    }
    if current.Fn? {
      return acc + [prefix];
    }
    if current.Branch? {
      result := WalkEntries(current, prefix, acc);
    } else {
      result := acc;
    }
  }

  /** The walk over the entries of an object, in key order. */
  method WalkEntries(parent: Node, prefix: string, acc: seq<string>) returns (result: seq<string>)
    requires parent.Branch?
    ensures result == acc + PathsOfEntries(parent.entries, prefix)
    decreases parent, 0
  {
    var es := parent.entries;
    result := acc;
    for i := 0 to |es|
      invariant result == acc + PathsOfEntries(es[..i], prefix)
    {
      PathsOfEntriesSnoc(es, i, prefix);
      var path := Dotted(prefix, es[i].key);
      ghost var before := result;
      result := WalkPaths(es[i].value, path, result);
      assert result == acc + (PathsOfEntries(es[..i], prefix) + PathsOf(es[i].value, path)) by {
        assert result == before + PathsOf(es[i].value, path);
      }
    }
    assert es[..|es|] == es;
  }

  lemma PathsOfEntriesSnoc(es: Tree, i: nat, prefix: string)
    requires i < |es|
    ensures PathsOfEntries(es[..i + 1], prefix) == PathsOfEntries(es[..i], prefix) + PathsOf(es[i].value, Dotted(prefix, es[i].key))
  {
    assert es[..i + 1][..i] == es[..i];
  }

  /** Every path that leads to a function, in depth-first key order. */
  method FlattenPaths(tree: Tree) returns (paths: seq<string>)
    ensures paths == PathsOf(Branch(tree), "")
  {
    paths := WalkPaths(Branch(tree), "", []);
  }

  /* The enumeration and the lookup agree.  The agreement is proved through
     a reference description of the function paths as segment lists. */

  /** A key that a dot-path can name: not empty and free of dots. */
  predicate PathKey(k: string)
  {
    k != "" && FreeOf(k, {'.'})
  }

  /** A tree in which each object has distinct keys that dot-paths can name. */
  predicate WellFormed(n: Node)
    decreases n
  {
    n.Branch? ==>
      DistinctKeys(n.entries)
      && forall i :: 0 <= i < |n.entries| ==> PathKey(n.entries[i].key) && WellFormed(n.entries[i].value)
  }

  function Prefixed(k: string, ss: seq<seq<string>>): (r: seq<seq<string>>)
    ensures |r| == |ss|
    ensures forall i :: 0 <= i < |ss| ==> r[i] == [k] + ss[i]
  {
    seq(|ss|, i requires 0 <= i < |ss| => [k] + ss[i])
  }

  /** The segment lists that lead from `n` to a function. */
  function SegPaths(n: Node): seq<seq<string>>
    decreases n
  {
    match n
    case Fn(_) => [[]]
    case Branch(es) => SegPathsOfEntries(es)
    case _ => []
  }

  function SegPathsOfEntries(es: Tree): seq<seq<string>>
    decreases es
  {
    if |es| == 0 then []
    else SegPathsOfEntries(es[..|es| - 1]) + Prefixed(es[|es| - 1].key, SegPaths(es[|es| - 1].value))
  }

  /** The written form of a segment list below a prefix. */
  function Extend(prefix: string, segs: seq<string>): string
    decreases |segs|
  {
    if |segs| == 0 then prefix else Extend(Dotted(prefix, segs[0]), segs[1..])
  }

  function ExtendAll(prefix: string, ss: seq<seq<string>>): (r: seq<string>)
    ensures |r| == |ss|
    ensures forall i :: 0 <= i < |ss| ==> r[i] == Extend(prefix, ss[i])
  {
    seq(|ss|, i requires 0 <= i < |ss| => Extend(prefix, ss[i]))
  }

  lemma {:induction false} PathsOfIsExtended(n: Node, prefix: string)
    ensures PathsOf(n, prefix) == ExtendAll(prefix, SegPaths(n))
    decreases n, 1
  {
    match n
    case Branch(es) =>
      PathsOfEntriesIsExtended(n, es, prefix);
    case _ =>
  }

  lemma {:induction false} PathsOfEntriesIsExtended(n: Node, es: Tree, prefix: string)
    requires n.Branch? && |es| <= |n.entries| && es == n.entries[..|es|]
    ensures PathsOfEntries(es, prefix) == ExtendAll(prefix, SegPathsOfEntries(es))
    decreases n, 0, |es|
  {
    if |es| > 0 {
      var init := es[..|es| - 1];
      var last := es[|es| - 1];
      assert last == n.entries[|es| - 1];
      assert init == n.entries[..|es| - 1];
      PathsOfEntriesIsExtended(n, init, prefix);
      PathsOfIsExtended(last.value, Dotted(prefix, last.key));
      var a := SegPathsOfEntries(init);
      var b := Prefixed(last.key, SegPaths(last.value));
      assert SegPathsOfEntries(es) == a + b;
      ExtendAllPrefixed(prefix, last.key, SegPaths(last.value));
      ExtendAllAppend(prefix, a, b);
    }
  }

  lemma ExtendAllPrefixed(prefix: string, key: string, ss: seq<seq<string>>)
    ensures ExtendAll(prefix, Prefixed(key, ss)) == ExtendAll(Dotted(prefix, key), ss)
  {
    var b := Prefixed(key, ss);
    forall i | 0 <= i < |b|
      ensures Extend(prefix, b[i]) == Extend(Dotted(prefix, key), ss[i])
    {
      assert b[i][1..] == ss[i];
    }
  }

  lemma ExtendAllAppend(prefix: string, a: seq<seq<string>>, b: seq<seq<string>>)
    ensures ExtendAll(prefix, a + b) == ExtendAll(prefix, a) + ExtendAll(prefix, b)
  {
  }

  lemma {:induction false} SegPathsLeadToFunctions(n: Node, segs: seq<string>)
    requires WellFormed(n)
    ensures segs in SegPaths(n) <==> Walk(n, segs).Fn?
    decreases n
  {
    if n.Branch? {
      var es := n.entries;
      assert es[..|es|] == es;
      if |segs| == 0 {
        EmptyNotInEntries(es, |es|);
      } else if segs[0] in Keys(es) {
        var i :| 0 <= i < |es| && es[i].key == segs[0];
        GetAt(es, i);
        MembershipAtKey(es, i, segs);
        SegPathsLeadToFunctions(es[i].value, segs[1..]);
      } else {
        SegPathsOfEntriesMembership(es, |es|, segs);
        assert Walk(n, segs) == Walk(Undefined, segs[1..]);
      }
    }
  }

  lemma SameKeySameIndex(t: Tree, i: nat, j: nat)
    requires DistinctKeys(t) && i < |t| && j < |t| && t[i].key == t[j].key
    ensures i == j
  {
  }

  lemma MembershipAtKey(es: Tree, i: nat, segs: seq<string>)
    requires DistinctKeys(es) && i < |es| && |segs| > 0 && es[i].key == segs[0]
    ensures segs in SegPathsOfEntries(es) <==> segs[1..] in SegPaths(es[i].value)
  {
    assert es[..|es|] == es;
    SegPathsOfEntriesMembership(es, |es|, segs);
    if segs in SegPathsOfEntries(es) {
      var j :| 0 <= j < |es| && es[j].key == segs[0] && segs[1..] in SegPaths(es[j].value);
      SameKeySameIndex(es, i, j);
    }
  }

  lemma {:induction false} EmptyNotInEntries(es: Tree, k: nat)
    requires k <= |es|
    ensures [] !in SegPathsOfEntries(es[..k])
  {
    if k > 0 {
      assert es[..k][..k - 1] == es[..k - 1];
      EmptyNotInEntries(es, k - 1);
    }
  }

  lemma {:induction false} SegPathsOfEntriesMembership(es: Tree, k: nat, segs: seq<string>)
    requires k <= |es| && |segs| > 0
    ensures segs in SegPathsOfEntries(es[..k])
            <==> exists i :: 0 <= i < k && es[i].key == segs[0] && segs[1..] in SegPaths(es[i].value)
  {
    if k > 0 {
      assert es[..k][..k - 1] == es[..k - 1];
      SegPathsOfEntriesMembership(es, k - 1, segs);
      var b := Prefixed(es[k - 1].key, SegPaths(es[k - 1].value));
      if segs in b {
        var j :| 0 <= j < |b| && b[j] == segs;
        assert segs[1..] == SegPaths(es[k - 1].value)[j];
      }
      if es[k - 1].key == segs[0] && segs[1..] in SegPaths(es[k - 1].value) {
        var j :| 0 <= j < |SegPaths(es[k - 1].value)| && SegPaths(es[k - 1].value)[j] == segs[1..];
        assert b[j] == segs;
      }
    }
  }

  /** Every segment of a function path is a nameable key, and under an
      object the path has at least one segment. */
  lemma {:induction false} SegPathsAreKeys(n: Node, segs: seq<string>)
    requires WellFormed(n) && segs in SegPaths(n)
    ensures forall k :: 0 <= k < |segs| ==> PathKey(segs[k])
    ensures n.Branch? ==> |segs| >= 1
    decreases n
  {
    if n.Branch? {
      var es := n.entries;
      assert es[..|es|] == es;
      EmptyNotInEntries(es, |es|);
      SegPathsOfEntriesMembership(es, |es|, segs);
      var i :| 0 <= i < |es| && es[i].key == segs[0] && segs[1..] in SegPaths(es[i].value);
      SegPathsAreKeys(es[i].value, segs[1..]);
      forall k | 1 <= k < |segs|
        ensures PathKey(segs[k])
      {
        assert segs[k] == segs[1..][k - 1];
      }
    }
  }

  /** Written below the empty prefix, a segment list is its dot-joined text. */
  lemma {:induction false} ExtendIsJoin(prefix: string, segs: seq<string>)
    requires |segs| >= 1 && forall k :: 0 <= k < |segs| ==> segs[k] != ""
    ensures Extend(prefix, segs) == Dotted(prefix, Join(segs, "."))
    decreases |segs|
  {
    if |segs| > 1 {
      ExtendIsJoin(Dotted(prefix, segs[0]), segs[1..]);
      assert Join(segs, ".") == segs[0] + "." + Join(segs[1..], ".");
      assert Join(segs[1..], ".") != "" by {
        JoinNonEmpty(segs[1..]);
      }
      if prefix != "" {
        assert Dotted(prefix, segs[0]) + "." + Join(segs[1..], ".")
            == prefix + "." + (segs[0] + "." + Join(segs[1..], "."));
      }
    }
  }

  lemma {:induction false} JoinNonEmpty(segs: seq<string>)
    requires |segs| >= 1 && segs[0] != ""
    ensures Join(segs, ".") != ""
  {
    if |segs| > 1 {
      assert Join(segs, ".") == segs[0] + "." + Join(segs[1..], ".");
    }
  }

  /** The enumerated paths are exactly the paths that lookup reports as
      functions, for a tree whose keys dot-paths can name. */
  lemma {:induction false} PathsMatchLookup(root: Tree, p: string)
    requires WellFormed(Branch(root))
    ensures p in PathsOf(Branch(root), "") <==> Resolved(root, p).Fn?
  {
    var n := Branch(root);
    PathsOfIsExtended(n, "");
    var segs := Split(p, '.');
    if p in PathsOf(n, "") {
      var i :| 0 <= i < |SegPaths(n)| && ExtendAll("", SegPaths(n))[i] == p;
      var s := SegPaths(n)[i];
      SegPathsAreKeys(n, s);
      ExtendIsJoin("", s);
      assert p == Join(s, ".");
      SplitJoin(s, '.');
      assert segs == s;
      SegPathsLeadToFunctions(n, s);
    }
    if Resolved(root, p).Fn? {
      SegPathsLeadToFunctions(n, segs);
      SegPathsAreKeys(n, segs);
      ExtendIsJoin("", segs);
      JoinSplit(p, '.');
      var i :| 0 <= i < |SegPaths(n)| && SegPaths(n)[i] == segs;
      assert ExtendAll("", SegPaths(n))[i] == p;
    }
  }

  /* ------------------------------------------------------------------ */
  /* Shallow merge                                                       */
  /* ------------------------------------------------------------------ */

  /** Property assignment `obj[key] = v`: an existing key keeps its
      position and takes the new value, a new key goes last. */
  function Assign(t: Tree, key: string, v: Node): (r: Tree)
    ensures key in Keys(t) ==> Keys(r) == Keys(t)
    ensures key !in Keys(t) ==> Keys(r) == Keys(t) + [key]
  {
    if |t| == 0 then [Entry(key, v)]
    else
      assert t == [t[0]] + t[1..];
      KeysCons(t[0], t[1..]);
      if t[0].key == key then
        KeysCons(Entry(key, v), t[1..]);
        [Entry(key, v)] + t[1..]
      else
        var rest := Assign(t[1..], key, v);
        assert key in Keys(t) <==> key in Keys(t[1..]);
        KeysCons(t[0], rest);
        [t[0]] + rest
  }

  lemma KeysCons(e: Entry, t: Tree)
    ensures Keys([e] + t) == [e.key] + Keys(t)
  {
    var a := [e] + t;
    forall i | 0 <= i < |a|
      ensures Keys(a)[i] == ([e.key] + Keys(t))[i]
    {
      if i > 0 {
        assert a[i] == t[i - 1];
      }
    }
  }

  lemma {:induction false} AssignGet(t: Tree, key: string, v: Node, k: string)
    requires DistinctKeys(t)
    ensures DistinctKeys(Assign(t, key, v))
    ensures Get(Assign(t, key, v), k) == if k == key then v else Get(t, k)
  {
    AssignKeepsDistinct(t, key, v);
    AssignReads(t, key, v, k);
  }

  lemma AssignKeepsDistinct(t: Tree, key: string, v: Node)
    requires DistinctKeys(t)
    ensures DistinctKeys(Assign(t, key, v))
  {
    var r := Assign(t, key, v);
    forall i, j | 0 <= i < j < |r|
      ensures r[i].key != r[j].key
    {
      assert r[i].key == Keys(r)[i] && r[j].key == Keys(r)[j];
      if j < |t| {
        assert Keys(t)[i] == t[i].key && Keys(t)[j] == t[j].key;
      } else {
        assert Keys(r)[j] == key && key !in Keys(t);
        assert Keys(t)[i] == t[i].key;
      }
    }
  }

  lemma {:induction false} AssignReads(t: Tree, key: string, v: Node, k: string)
    ensures Get(Assign(t, key, v), k) == if k == key then v else Get(t, k)
  {
    if |t| > 0 && t[0].key != key {
      AssignReads(t[1..], key, v, k);
      assert ([t[0]] + Assign(t[1..], key, v))[1..] == Assign(t[1..], key, v);
    } else if |t| > 0 {
      assert ([Entry(key, v)] + t[1..])[1..] == t[1..];
    }
  }

  /** The spread `{...a, ...b}`: the properties of `b` assigned in order
      over those of `a`. */
  function Merge(a: Tree, b: Tree): Tree
    decreases |b|
  {
    if |b| == 0 then a else Merge(Assign(a, b[0].key, b[0].value), b[1..])
  }

  /** A key of `b` takes `b`'s value, whole subtree included; other keys
      keep `a`'s. */
  lemma {:induction false} MergeGet(a: Tree, b: Tree, k: string)
    requires DistinctKeys(a) && DistinctKeys(b)
    ensures DistinctKeys(Merge(a, b))
    ensures Get(Merge(a, b), k) == if k in Keys(b) then Get(b, k) else Get(a, k)
    decreases |b|
  {
    if |b| > 0 {
      var a' := Assign(a, b[0].key, b[0].value);
      var rest := b[1..];
      AssignGet(a, b[0].key, b[0].value, k);
      assert DistinctKeys(rest);
      MergeGet(a', rest, k);
      assert b == [b[0]] + rest;
      KeysCons(b[0], rest);
      if k == b[0].key {
        forall j | 0 <= j < |rest|
          ensures Keys(rest)[j] != k
        {
          assert Keys(rest)[j] == b[j + 1].key;
        }
      }
    }
  }

  /** Keys already present keep their place; new keys follow in `b`'s order. */
  function NewKeys(existing: seq<string>, b: Tree): seq<string>
    decreases |b|
  {
    if |b| == 0 then []
    else if b[0].key in existing then NewKeys(existing, b[1..])
    else [b[0].key] + NewKeys(existing + [b[0].key], b[1..])
  }

  lemma {:induction false} MergeKeys(a: Tree, b: Tree)
    ensures Keys(Merge(a, b)) == Keys(a) + NewKeys(Keys(a), b)
    decreases |b|
  {
    if |b| > 0 {
      var a' := Assign(a, b[0].key, b[0].value);
      MergeKeys(a', b[1..]);
    }
  }

  lemma {:induction false} MergePreservesWellFormed(a: Tree, b: Tree)
    requires WellFormed(Branch(a)) && WellFormed(Branch(b))
    ensures WellFormed(Branch(Merge(a, b)))
    decreases |b|
  {
    if |b| > 0 {
      var a' := Assign(a, b[0].key, b[0].value);
      AssignPreservesWellFormed(a, b[0].key, b[0].value);
      assert WellFormed(Branch(b[1..])) by {
        forall i | 0 <= i < |b[1..]|
          ensures PathKey(b[1..][i].key) && WellFormed(b[1..][i].value)
        {
          assert b[1..][i] == b[i + 1];
        }
      }
      MergePreservesWellFormed(a', b[1..]);
    }
  }

  lemma {:induction false} AssignPreservesWellFormed(t: Tree, key: string, v: Node)
    requires WellFormed(Branch(t)) && PathKey(key) && WellFormed(v)
    ensures WellFormed(Branch(Assign(t, key, v)))
  {
    var r := Assign(t, key, v);
    AssignGet(t, key, v, key);
    forall i | 0 <= i < |r|
      ensures PathKey(r[i].key) && WellFormed(r[i].value)
    {
      AssignGet(t, key, v, r[i].key);
      GetAt(r, i);
      if r[i].key != key {
        assert r[i].key in Keys(r);
        var j :| 0 <= j < |t| && t[j].key == r[i].key;
        GetAt(t, j);
      }
    }
  }

  /** Adding `{a: {c}}` after `{a: {b}}` replaces the subtree: `a.b` is gone. */
  lemma ShallowMergeReplacesSubtrees()
    ensures var t := Merge(Merge([], [Entry("a", Branch([Entry("b", Fn(1))]))]),
                           [Entry("a", Branch([Entry("c", Fn(2))]))]);
            Resolved(t, "a.b") == Undefined && Resolved(t, "a.c") == Fn(2)
  {
    var t := Merge(Merge([], [Entry("a", Branch([Entry("b", Fn(1))]))]),
                   [Entry("a", Branch([Entry("c", Fn(2))]))]);
    var sub := Branch([Entry("c", Fn(2))]);
    assert t == [Entry("a", sub)];
    SplitTwo("a", "b");
    SplitTwo("a", "c");
    assert Walk(Branch(t), ["a", "b"]) == Walk(sub, ["b"]) == Walk(Undefined, []);
    assert Walk(Branch(t), ["a", "c"]) == Walk(sub, ["c"]) == Walk(Fn(2), []);
  }

  lemma SplitTwo(x: string, y: string)
    requires PathKey(x) && PathKey(y)
    ensures Split(x + "." + y, '.') == [x, y]
  {
    assert x + "." + y == x + ['.'] + y;
    SplitAround(x, '.', y, {'.'});
    SplitFreeOf(x, {'.'});
    SplitFreeOf(y, {'.'});
  }

  /* ------------------------------------------------------------------ */
  /* Calling                                                             */
  /* ------------------------------------------------------------------ */

  /** The error raised for a path that does not lead to a function. */
  datatype NotFoundError = NotFoundError(name: string, message: string, path: string)

  function ComponentNotFound(path: string): (e: NotFoundError)
    ensures e.path == path && e.name == "ComponentNotFoundError"
    ensures Includes(e.message, path)
  {
    var lead := "Component not found: \"";
    var message := lead + path + "\"";
    assert message[|lead|..|lead| + |path|] == path;
    assert OccursAt(message, path, |lead|);
    NotFoundError("ComponentNotFoundError", message, path)
  }

  /** The outcome of a call: the function applied to the arguments (what it
      returns is not modelled), `undefined` in silent mode, or the error. */
  datatype CallResult<A> = Invoked(fn: nat, args: A) | Silenced | Thrown(error: NotFoundError)

  function Outcome<A>(found: Node, path: string, args: A, silent: bool): CallResult<A>
  {
    if found.Fn? then Invoked(found.id, args)
    else if silent then Silenced
    else Thrown(ComponentNotFound(path))
  }

  /** A caller over a snapshot of the tree, remembering every path it has
      resolved (including paths that resolved to `undefined`). */
  class Caller {
    const root: Tree
    var cache: map<string, Node>

    /** Each remembered resolution is the resolution in the snapshot. */
    ghost predicate Coherent()
      reads this
    {
      forall p :: p in cache ==> cache[p] == Resolved(root, p)
    }

    constructor (root: Tree)
      ensures this.root == root && cache == map[]
      ensures Coherent()
    {
      this.root := root;
      cache := map[];
    }

    method Call<A>(path: string, args: A, silent: bool) returns (r: CallResult<A>)
      requires Coherent()
      modifies this
      ensures Coherent()
      ensures r == Outcome(Resolved(root, path), path, args, silent)
      ensures cache == old(cache)[path := Resolved(root, path)]
    {
      var m := if path in cache then cache[path] else Undefined;
      if m == Undefined && path !in cache {
        m := ResolvePath(root, path);
        cache := cache[path := m];
      }
      if m.Fn? {
        return Invoked(m.id, args);
      }
      if silent {
        return Silenced;
      }
      return Thrown(ComponentNotFound(path));
    }
  }

  /** The global registry. */
  class Components {
    var root: Tree
    var caller: Caller?
    var initialized: bool

    /** A built caller exists exactly when initialised, and it serves the
        current tree. */
    ghost predicate Valid()
      reads this, caller
    {
      DistinctKeys(root)
      && (initialized <==> caller != null)
      && (caller != null ==> caller.root == root && caller.Coherent())
    }

    constructor ()
      ensures Valid() && root == [] && !initialized
    {
      root := [];
      caller := null;
      initialized := false;
    }

    /** Shallow-merges `items` into the tree and drops the built caller. */
    method Add(items: Tree)
      requires Valid() && DistinctKeys(items)
      modifies this
      ensures Valid()
      ensures root == Merge(old(root), items)
      ensures forall k :: Get(root, k) == if k in Keys(items) then Get(items, k) else Get(old(root), k)
      ensures caller == null && !initialized
    {
      forall k
        ensures Get(Merge(root, items), k) == if k in Keys(items) then Get(items, k) else Get(root, k)
      {
        MergeGet(root, items, k);
      }
      MergeGet(root, items, "");
      root := Merge(root, items);
      caller := null;
      initialized := false;
    }

    /** Calls the function at `path`, building the caller first if needed. */
    method Call<A>(path: string, args: A, silent: bool) returns (r: CallResult<A>)
      requires Valid()
      modifies this, caller
      ensures Valid() && initialized && root == old(root)
      ensures old(initialized) ==> caller == old(caller)
      ensures !old(initialized) ==> fresh(caller)
      ensures caller.cache == (if old(initialized) then old(caller.cache) else map[])[path := Resolved(root, path)]
      ensures r == Outcome(Resolved(root, path), path, args, silent)
    {
      if !initialized {
        Build();
      }
      r := caller.Call(path, args, silent);
    }

    method Has(path: string) returns (b: bool)
      ensures b <==> Resolved(root, path).Fn?
    {
      b := HasComponent(root, path);
    }

    method Paths() returns (ps: seq<string>)
      ensures ps == PathsOf(Branch(root), "")
    {
      ps := FlattenPaths(root);
    }

    method Clear()
      modifies this
      ensures Valid() && root == [] && caller == null && !initialized
    {
      root := [];
      caller := null;
      initialized := false;
    }

    method GetTree() returns (t: Tree)
      ensures t == root
    {
      t := root;
    }

    method Build()
      requires DistinctKeys(root)
      modifies this
      ensures Valid() && initialized && root == old(root)
      ensures fresh(caller) && caller.cache == map[]
    {
      caller := new Caller(root);
      initialized := true;
    }
  }

  /** After clearing, no path names a function and none is enumerated. */
  lemma ClearedTreeIsEmpty(p: string)
    ensures !Resolved([], p).Fn?
    ensures PathsOf(Branch([]), "") == []
  {
    var segs := Split(p, '.');
    assert Walk(Branch([]), segs) == Walk(Undefined, segs[1..]);
  }

  /* ------------------------------------------------------------------ */
  /* Lookup through the prototype chain                                  */
  /* ------------------------------------------------------------------ */

  /** The function-valued properties every plain object inherits. */
  const ObjectPrototypeMethods: set<string> :=
    {"constructor", "toString", "toLocaleString", "valueOf", "hasOwnProperty",
     "isPrototypeOf", "propertyIsEnumerable", "__defineGetter__",
     "__defineSetter__", "__lookupGetter__", "__lookupSetter__"}

  /** The names a plain object reaches without owning them: the inherited
      methods and the `__proto__` accessor. */
  const InheritedKeys: set<string> := ObjectPrototypeMethods + {"__proto__"}

  /** A value reached by bracket access: a tree value, a method found on
      the prototype chain, or `Object.prototype` itself (through
      `__proto__`), which is an object but not a function. */
  datatype Reached = Own(node: Node) | Inherited(name: string) | Proto

  /** Bracket access `obj[key]` on a plain object as the language performs
      it: an own property first, then `__proto__`, then the inherited
      methods. */
  function GetAsWritten(t: Tree, key: string): Reached
  {
    if key in Keys(t) then Own(Get(t, key))
    else if key == "__proto__" then Proto
    else if key in ObjectPrototypeMethods then Inherited(key)
    else Own(Undefined)
  }

  /** Bracket access on `Object.prototype`: its methods, and `null` for its
      own `__proto__` and every other name. */
  function ProtoGet(key: string): Reached
  {
    if key in ObjectPrototypeMethods then Inherited(key) else Own(Undefined)
  }

  /** The lookup loop as written: it goes on through any object, and gives
      `undefined` at a value whose `typeof` is not "object" (a function
      included) before the segments run out. */
  function WalkAsWritten(current: Reached, segments: seq<string>): Reached
    decreases |segments|
  {
    if |segments| == 0 then current
    else
      match current
      case Proto => WalkAsWritten(ProtoGet(segments[0]), segments[1..])
      case Inherited(_) => Own(Undefined)
      case Own(n) =>
        if !n.Branch? then Own(Undefined)
        else WalkAsWritten(GetAsWritten(n.entries, segments[0]), segments[1..])
  }

  /** The existence test exactly as the lookup loop performs it: an
      inherited method is a function too. */
  function HasComponentAsWritten(tree: Tree, path: string): bool
  {
    match WalkAsWritten(Own(Branch(tree)), Split(path, '.'))
    case Inherited(_) => true
    case Proto => false
    case Own(n) => n.Fn?
  }

  /** On an empty registry the existence test reports "toString" as a
      component although no path is enumerated; own-property lookup does not. */
  lemma InheritedNameCounterexample()
    ensures HasComponentAsWritten([], "toString")
    ensures "toString" !in PathsOf(Branch([]), "")
    ensures !Resolved([], "toString").Fn?
  {
    ToStringSegment();
  }

  /** An inherited value survives the walk only when the last segment names
      an inherited method. */
  lemma {:induction false} WalkAsWrittenInherited(current: Reached, segments: seq<string>)
    requires |segments| > 0 && WalkAsWritten(current, segments).Inherited?
    ensures WalkAsWritten(current, segments).name == segments[|segments| - 1]
    ensures segments[|segments| - 1] in ObjectPrototypeMethods
    decreases |segments|
  {
    if |segments| > 1 {
      match current
      case Proto =>
        WalkAsWrittenInherited(ProtoGet(segments[0]), segments[1..]);
      case Own(n) =>
        WalkAsWrittenInherited(GetAsWritten(n.entries, segments[0]), segments[1..]);
      case Inherited(_) =>
    }
  }

  /** Away from the inherited names and `__proto__`, the lookup as written
      is own-entry lookup. */
  lemma {:induction false} WalkAsWrittenOwn(n: Node, segments: seq<string>)
    requires forall i :: 0 <= i < |segments| ==> segments[i] !in InheritedKeys
    ensures WalkAsWritten(Own(n), segments) == Own(Walk(n, segments))
    decreases |segments|
  {
    if |segments| > 0 && n.Branch? {
      WalkAsWrittenOwn(Get(n.entries, segments[0]), segments[1..]);
    }
  }

  /** `call` as the caller performs it: a path ending in an inherited method
      name reaches a function, which is invoked with the arguments. */
  datatype CalledAsWritten<A> = Plain(result: CallResult<A>) | InvokedInherited(name: string, args: A)

  function CallAsWritten<A>(root: Tree, path: string, args: A, silent: bool): (c: CalledAsWritten<A>)
    ensures c.InvokedInherited? ==>
      var segs := Split(path, '.');
      c.name == segs[|segs| - 1] && c.name in ObjectPrototypeMethods && c.args == args
  {
    var segs := Split(path, '.');
    match WalkAsWritten(Own(Branch(root)), segs)
    case Inherited(name) =>
      WalkAsWrittenInherited(Own(Branch(root)), segs);
      InvokedInherited(name, args)
    case Proto => Plain(Outcome(Undefined, path, args, silent))
    case Own(n) => Plain(Outcome(n, path, args, silent))
  }

  /** When no segment of the path names an inherited method or `__proto__`,
      the call as written has the own-entry outcome. */
  lemma CallAsWrittenAgrees<A>(root: Tree, path: string, args: A, silent: bool)
    requires forall s :: s in Split(path, '.') ==> s !in InheritedKeys
    ensures CallAsWritten(root, path, args, silent) == Plain(Outcome(Resolved(root, path), path, args, silent))
  {
    WalkAsWrittenOwn(Branch(root), Split(path, '.'));
  }

  /** On an empty registry, `call("toString")` invokes the inherited method
      where own-entry lookup throws the not-found error. */
  lemma CallInheritedNameCounterexample()
    ensures CallAsWritten([], "toString", 0, false) == InvokedInherited("toString", 0)
    ensures Outcome(Resolved([], "toString"), "toString", 0, false) == Thrown(ComponentNotFound("toString"))
  {
    ToStringSegment();
  }

  /** On an empty registry, `has("__proto__.toString")` is true and
      `call("__proto__.toString")` invokes the inherited method: the walk
      goes on through `Object.prototype`. */
  lemma ProtoPathCounterexample()
    ensures HasComponentAsWritten([], "__proto__.toString")
    ensures CallAsWritten([], "__proto__.toString", 0, false) == InvokedInherited("toString", 0)
    ensures Outcome(Resolved([], "__proto__.toString"), "__proto__.toString", 0, false)
            == Thrown(ComponentNotFound("__proto__.toString"))
  {
    ProtoPathSegments();
    var segs := Split("__proto__.toString", '.');
    assert WalkAsWritten(Own(Branch([])), segs) == WalkAsWritten(Proto, segs[1..]);
    assert WalkAsWritten(Proto, segs[1..]) == Inherited("toString");
    assert Walk(Branch([]), segs) == Walk(Undefined, segs[1..]);
  }

  lemma ProtoPathSegments()
    ensures Split("__proto__.toString", '.') == ["__proto__", "toString"]
  {
    assert "__proto__.toString" == "__proto__" + ['.'] + "toString";
    SplitAround("__proto__", '.', "toString", {'.'});
    ProtoSegment();
    ToStringSegment();
  }

  /** `toString` is one path segment. */
  lemma ToStringSegment()
    ensures Split("toString", '.') == ["toString"]
  {
    SplitFreeOf("toString", {'.'});
  }

  /** `__proto__` is one path segment. */
  lemma ProtoSegment()
    ensures Split("__proto__", '.') == ["__proto__"]
  {
    SplitFreeOf("__proto__", {'.'});
  }

  /** With own-entry lookup, a call that is not silent throws exactly when
      `paths()` does not list the path. */
  lemma CallThrowsOffPaths<A>(root: Tree, path: string, args: A)
    requires WellFormed(Branch(root))
    ensures Outcome(Resolved(root, path), path, args, false).Thrown? <==> path !in PathsOf(Branch(root), "")
  {
    PathsMatchLookup(root, path);
  }
}
