/**
 * The engine's public entry points of src/engine/index.ts: `use` over the
 * component registry, the plugin system (`installPlugin` and the
 * namespaced `registerPlugin`), and the order in which `start` applies a
 * configuration. The registries are the `Components` model; directives are
 * a name-to-handler map; plugin code and component functions are opaque
 * values whose effects are parameters.
 */
module Engine {
  import opened Text
  import opened Optional
  import opened Registry
  import Dom
  import EngineUtils
  import Layout
  import Themes
  import ShellClasses

  /* ------------------------------------------------------------------ */
  /* use                                                                 */
  /* ------------------------------------------------------------------ */

  /** What a component function returns: a string, an array of strings, an
      object of class flags, or anything else. */
  datatype Returned = StringResult(s: string) | ArrayResult(items: seq<string>)
                    | ObjectResult(entries: seq<(string, bool)>) | OtherResult

  /** `extractClasses`. */
  function ExtractClasses(r: Returned): seq<string>
  {
    match r
    case StringResult(s) => [s]
    case ArrayResult(items) => items
    case ObjectResult(entries) => ShellClasses.TruthyKeys(entries)
    case OtherResult => []
  }

  lemma {:induction false} TruthyKeysMembers(entries: seq<(string, bool)>, c: string)
    ensures c in ShellClasses.TruthyKeys(entries) <==> exists i :: 0 <= i < |entries| && entries[i] == (c, true)
  {
    if |entries| > 0 {
      TruthyKeysMembers(entries[1..], c);
      if c in ShellClasses.TruthyKeys(entries[1..]) {
        var i :| 0 <= i < |entries[1..]| && entries[1..][i] == (c, true);
        assert entries[i + 1] == (c, true);
      }
      if exists i :: 0 <= i < |entries| && entries[i] == (c, true) {
        var i :| 0 <= i < |entries| && entries[i] == (c, true);
        if i > 0 {
          assert entries[1..][i - 1] == (c, true);
        }
      }
    }
  }

  /** An object result contributes exactly its keys whose flag is true. */
  lemma ObjectClasses(entries: seq<(string, bool)>, c: string)
    ensures c in ExtractClasses(ObjectResult(entries)) <==> exists i :: 0 <= i < |entries| && entries[i] == (c, true)
  {
    TruthyKeysMembers(entries, c);
  }

  /** What `use` of one path gives: the joined classes, or the error. */
  datatype UseOutcome = Classes(text: string) | Failed(error: NotFoundError)

  /** `use(path, props)` for a single path, on the registry tree `root`;
      `run(id, props)` is what the function with identity `id` returns. */
  function UseOf<A>(root: Tree, path: string, props: A, run: (nat, A) -> Returned): (r: UseOutcome)
    ensures r.Failed? <==> !Resolved(root, path).Fn?
    ensures r.Failed? ==> r.error == ComponentNotFound(path)
  {
    var found := Resolved(root, path);
    if found.Fn? then Classes(Join(ExtractClasses(run(found.id, props)), " "))
    else Failed(ComponentNotFound(path))
  }

  /** The classes `use` collects for an array of paths: registered paths
      only, in array order. */
  function Used<A>(root: Tree, paths: seq<string>, props: A, run: (nat, A) -> Returned): seq<string>
  {
    if |paths| == 0 then []
    else
      var last := Resolved(root, paths[|paths| - 1]);
      Used(root, paths[..|paths| - 1], props, run)
        + (if last.Fn? then ExtractClasses(run(last.id, props)) else [])
  }

  /** `use(path, props)`: calls the component without `silent`, so a path
      that is not a function fails with the not-found error. */
  method UseOne<A>(registry: Components, path: string, props: Option<A>, empty: A, run: (nat, A) -> Returned)
    returns (r: UseOutcome)
    requires registry.Valid()
    modifies registry, registry.caller
    ensures registry.Valid() && registry.root == old(registry.root)
    ensures r == UseOf(registry.root, path, props.GetOr(empty), run)
  {
    var args := props.GetOr(empty);
    var result := registry.Call(path, args, false);
    match result
    case Invoked(id, a) =>
      r := Classes(Join(ExtractClasses(run(id, a)), " "));
    case Silenced =>
      r := Failed(ComponentNotFound(path));
    case Thrown(e) =>
      r := Failed(e);
  }

  /** `use(paths, props)`: the classes of every registered path, joined. */
  method UseAll<A>(registry: Components, paths: seq<string>, props: Option<A>, empty: A, run: (nat, A) -> Returned)
    returns (text: string)
    requires registry.Valid()
    modifies registry, registry.caller
    ensures registry.Valid() && registry.root == old(registry.root)
    ensures text == Join(Used(registry.root, paths, props.GetOr(empty), run), " ")
  {
    var args := props.GetOr(empty);
    var all: seq<string> := [];
    for i := 0 to |paths|
      invariant registry.Valid() && registry.root == old(registry.root)
      invariant registry.caller == null || registry.caller == old(registry.caller) || fresh(registry.caller)
      invariant all == Used(registry.root, paths[..i], args, run)
    {
      assert paths[..i + 1][..i] == paths[..i];
      var has := registry.Has(paths[i]);
      if !has {
        continue;
      }
      var result := registry.Call(paths[i], args, false);
      if result.Invoked? {
        all := all + ExtractClasses(run(result.fn, result.args));
      }
    }
    assert paths[..|paths|] == paths;
    text := Join(all, " ");
  }

  lemma {:induction false} UsedAppend<A>(root: Tree, a: seq<string>, b: seq<string>, props: A, run: (nat, A) -> Returned)
    ensures Used(root, a + b, props, run) == Used(root, a, props, run) + Used(root, b, props, run)
    decreases |b|
  {
    if |b| == 0 {
      assert a + b == a;
    } else {
      var b' := b[..|b| - 1];
      assert (a + b)[..|a + b| - 1] == a + b';
      assert (a + b)[|a + b| - 1] == b[|b| - 1];
      UsedAppend(root, a, b', props, run);
    }
  }

  /** The registered paths among `paths`, in order. */
  function Registered(root: Tree, paths: seq<string>): (r: seq<string>)
    ensures forall q :: q in r <==> q in paths && Resolved(root, q).Fn?
  {
    if |paths| == 0 then []
    else
      var last := paths[|paths| - 1];
      Registered(root, paths[..|paths| - 1]) + (if Resolved(root, last).Fn? then [last] else [])
  }

  /** Unregistered paths contribute nothing: the result is the same as for
      the registered paths alone, and for each of them it is what a single
      `use` of that path gives. */
  lemma {:induction false} UsedOnlyRegistered<A>(root: Tree, paths: seq<string>, props: A, run: (nat, A) -> Returned)
    ensures Used(root, paths, props, run) == Used(root, Registered(root, paths), props, run)
  {
    if |paths| > 0 {
      var init := paths[..|paths| - 1];
      var last := paths[|paths| - 1];
      UsedOnlyRegistered(root, init, props, run);
      assert paths[..|paths| - 1] == init;
      if Resolved(root, last).Fn? {
        var classes := ExtractClasses(run(Resolved(root, last).id, props));
        assert Registered(root, paths) == Registered(root, init) + [last];
        UsedAppend(root, Registered(root, init), [last], props, run);
        UsedSingle(root, last, props, run);
        assert Used(root, paths, props, run) == Used(root, init, props, run) + classes;
      } else {
        assert Registered(root, paths) == Registered(root, init);
        assert Used(root, paths, props, run) == Used(root, init, props, run);
      }
    }
  }

  /** One registered path in an array gives what `use` of that path alone
      gives. */
  lemma UseOneAgrees<A>(root: Tree, path: string, props: A, run: (nat, A) -> Returned)
    requires Resolved(root, path).Fn?
    ensures UseOf(root, path, props, run) == Classes(Join(Used(root, [path], props, run), " "))
  {
    UsedSingle(root, path, props, run);
  }

  lemma UsedSingle<A>(root: Tree, path: string, props: A, run: (nat, A) -> Returned)
    ensures Used(root, [path], props, run) ==
      if Resolved(root, path).Fn? then ExtractClasses(run(Resolved(root, path).id, props)) else []
  {
    assert [path][..0] == [];
    assert [path][0] == path;
  }

  /* ------------------------------------------------------------------ */
  /* Plugins                                                             */
  /* ------------------------------------------------------------------ */

  /** A plugin value, compared by identity: a function, or an object whose
      `install` may or may not be a function. */
  datatype Plugin = FunctionPlugin(id: nat) | ObjectPlugin(id: nat, installIsFunction: bool)

  /** A call of a plugin (or of its `install`) with the app and options. */
  datatype Invocation = Invocation(plugin: Plugin, options: Option<nat>)

  /** What installing a plugin that is not yet installed calls. */
  function Runs(plugin: Plugin, options: Option<nat>): seq<Invocation>
  {
    match plugin
    case FunctionPlugin(_) => [Invocation(plugin, options)]
    case ObjectPlugin(_, installIsFunction) => if installIsFunction then [Invocation(plugin, options)] else []
  }

  /** The plugins of a list of `[plugin, options]` entries. */
  function PluginsOf(entries: seq<(Plugin, Option<nat>)>): (r: set<Plugin>)
    ensures forall p :: p in r <==> exists i :: 0 <= i < |entries| && entries[i].0 == p
  {
    set i | 0 <= i < |entries| :: entries[i].0
  }

  lemma PluginsOfSnoc(entries: seq<(Plugin, Option<nat>)>)
    requires |entries| > 0
    ensures PluginsOf(entries) == PluginsOf(entries[..|entries| - 1]) + {entries[|entries| - 1].0}
  {
    var init := entries[..|entries| - 1];
    forall p | p in PluginsOf(init) ensures p in PluginsOf(entries)
    {
      var k :| 0 <= k < |init| && init[k].0 == p;
      assert entries[k].0 == p;
    }
  }

  /** The calls installing `entries` in order makes, starting from the
      installed set `installed`. */
  function InstallRuns(installed: set<Plugin>, entries: seq<(Plugin, Option<nat>)>): seq<Invocation>
  {
    if |entries| == 0 then []
    else
      var init := entries[..|entries| - 1];
      var last := entries[|entries| - 1];
      InstallRuns(installed, init)
        + (if last.0 in installed + PluginsOf(init) then [] else Runs(last.0, last.1))
  }

  /** No plugin is called twice, and none that was already installed is
      called at all. */
  ghost predicate OncePerPlugin(installed: set<Plugin>, calls: seq<Invocation>)
  {
    (forall i :: 0 <= i < |calls| ==> calls[i].plugin !in installed)
    && forall i, j :: 0 <= i < j < |calls| ==> calls[i].plugin != calls[j].plugin
  }

  /** Installing any list of plugins calls each at most once, never one
      that was installed before, and only plugins of the list. */
  lemma {:induction false} InstallRunsOnce(installed: set<Plugin>, entries: seq<(Plugin, Option<nat>)>)
    ensures OncePerPlugin(installed, InstallRuns(installed, entries))
    ensures forall i :: 0 <= i < |InstallRuns(installed, entries)| ==>
      InstallRuns(installed, entries)[i].plugin in PluginsOf(entries)
  {
    if |entries| > 0 {
      var init := entries[..|entries| - 1];
      var last := entries[|entries| - 1];
      InstallRunsOnce(installed, init);
      var before := InstallRuns(installed, init);
      var calls := InstallRuns(installed, entries);
      forall i | 0 <= i < |calls|
        ensures calls[i].plugin in PluginsOf(entries)
      {
        if i < |before| {
          var k :| 0 <= k < |init| && init[k].0 == calls[i].plugin;
          assert entries[k].0 == init[k].0;
        } else {
          assert calls[i].plugin == last.0;
        }
      }
      forall i, j | 0 <= i < j < |calls|
        ensures calls[i].plugin != calls[j].plugin
      {
        if j >= |before| {
          assert calls[j].plugin == last.0;
          assert calls[i].plugin in PluginsOf(init);
        }
      }
    }
  }

  /** An entry for a plugin that was installed before, or that an earlier
      entry names, calls nothing: only a plugin's first entry can run it. */
  lemma RepeatedPluginRunsOnce(installed: set<Plugin>, entries: seq<(Plugin, Option<nat>)>, p: Plugin, options: Option<nat>)
    requires p in installed + PluginsOf(entries)
    ensures InstallRuns(installed, entries + [(p, options)]) == InstallRuns(installed, entries)
  {
    var all := entries + [(p, options)];
    assert all[..|all| - 1] == entries;
  }

  /** The installed-plugin set and the calls made so far. */
  class PluginHost {
    var installed: set<Plugin>
    var calls: seq<Invocation>

    ghost predicate Valid()
      reads this
    {
      OncePerPlugin({}, calls) && forall i :: 0 <= i < |calls| ==> calls[i].plugin in installed
    }

    constructor()
      ensures Valid() && installed == {} && calls == []
    {
      installed := {};
      calls := [];
    }

    /** `installPlugin(plugin, options)`: skipped when the same value was
        installed before. */
    method Install(plugin: Plugin, options: Option<nat>)
      requires Valid()
      modifies this
      ensures Valid()
      ensures installed == old(installed) + {plugin}
      ensures calls == old(calls) + (if plugin in old(installed) then [] else Runs(plugin, options))
    {
      if plugin in installed {
        return;
      }
      installed := installed + {plugin};
      match plugin
      case FunctionPlugin(_) =>
        calls := calls + [Invocation(plugin, options)];
      case ObjectPlugin(_, installIsFunction) =>
        if installIsFunction {
          calls := calls + [Invocation(plugin, options)];
        }
    }

    /** The plugin step of `start`: each entry installed in order. */
    method InstallAll(entries: seq<(Plugin, Option<nat>)>)
      requires Valid()
      modifies this
      ensures Valid()
      ensures installed == old(installed) + PluginsOf(entries)
      ensures calls == old(calls) + InstallRuns(old(installed), entries)
    {
      for i := 0 to |entries|
        invariant Valid()
        invariant installed == old(installed) + PluginsOf(entries[..i])
        invariant calls == old(calls) + InstallRuns(old(installed), entries[..i])
      {
        PluginsOfSnoc(entries[..i + 1]);
        assert entries[..i + 1][..i] == entries[..i];
        Install(entries[i].0, entries[i].1);
      }
      assert entries[..|entries|] == entries;
    }
  }

  /* ------------------------------------------------------------------ */
  /* Directives                                                          */
  /* ------------------------------------------------------------------ */

  /** The map after adding each (name, handler) in order. */
  function AddedAll(m: map<string, nat>, entries: seq<(string, nat)>): map<string, nat>
  {
    if |entries| == 0 then m
    else
      var last := entries[|entries| - 1];
      AddedAll(m, entries[..|entries| - 1])[last.0 := last.1]
  }

  /** A name is registered after `addAll` exactly when it was before or is
      one of the added names. */
  lemma {:induction false} AddedAllKeys(m: map<string, nat>, entries: seq<(string, nat)>, k: string)
    ensures k in AddedAll(m, entries) <==> k in m || exists i :: 0 <= i < |entries| && entries[i].0 == k
  {
    if |entries| > 0 {
      var init := entries[..|entries| - 1];
      AddedAllKeys(m, init, k);
      if exists i :: 0 <= i < |entries| && entries[i].0 == k {
        var i :| 0 <= i < |entries| && entries[i].0 == k;
        if i < |init| {
          assert init[i].0 == k;
        }
      }
      if exists i :: 0 <= i < |init| && init[i].0 == k {
        var i :| 0 <= i < |init| && init[i].0 == k;
        assert entries[i].0 == k;
      }
    }
  }

  /** The registered directive handlers. */
  class Directives {
    var handlers: map<string, nat>

    constructor()
      ensures handlers == map[]
    {
      handlers := map[];
    }

    method Add(name: string, handler: nat)
      modifies this
      ensures handlers == old(handlers)[name := handler]
    {
      handlers := handlers[name := handler];
    }

    method AddAll(entries: seq<(string, nat)>)
      modifies this
      ensures handlers == AddedAll(old(handlers), entries)
    {
      for i := 0 to |entries|
        invariant handlers == AddedAll(old(handlers), entries[..i])
      {
        assert entries[..i + 1][..i] == entries[..i];
        Add(entries[i].0, entries[i].1);
      }
      assert entries[..|entries|] == entries;
    }

    /** The directive step of `registerPlugin`: each name prefixed with
        `{namespace}-`. */
    method AddPrefixed(namespace: string, entries: seq<(string, nat)>)
      modifies this
      ensures handlers == AddedAll(old(handlers), PrefixedDirectives(namespace, entries))
    {
      for i := 0 to |entries|
        invariant handlers == AddedAll(old(handlers), PrefixedDirectives(namespace, entries[..i]))
      {
        assert PrefixedDirectives(namespace, entries[..i + 1])[..i] == PrefixedDirectives(namespace, entries[..i]);
        Add(namespace + "-" + entries[i].0, entries[i].1);
      }
      assert entries[..|entries|] == entries;
    }
  }

  /** A plugin's directive names, each prefixed with `{namespace}-`. */
  function PrefixedDirectives(namespace: string, entries: seq<(string, nat)>): (r: seq<(string, nat)>)
    ensures |r| == |entries|
    ensures forall i :: 0 <= i < |entries| ==> r[i] == (namespace + "-" + entries[i].0, entries[i].1)
  {
    seq(|entries|, i requires 0 <= i < |entries| => (namespace + "-" + entries[i].0, entries[i].1))
  }

  /** After registering a plugin's directives, a name is registered exactly
      when it was before or is `{namespace}-{name}` for one of them. */
  lemma PluginDirectiveNames(m: map<string, nat>, namespace: string, entries: seq<(string, nat)>, k: string)
    ensures k in AddedAll(m, PrefixedDirectives(namespace, entries)) <==>
      k in m || exists i :: 0 <= i < |entries| && k == namespace + "-" + entries[i].0
  {
    var pre := PrefixedDirectives(namespace, entries);
    AddedAllKeys(m, pre, k);
    if exists i :: 0 <= i < |entries| && k == namespace + "-" + entries[i].0 {
      var i :| 0 <= i < |entries| && k == namespace + "-" + entries[i].0;
      assert pre[i].0 == k;
    }
  }

  /* ------------------------------------------------------------------ */
  /* registerPlugin                                                      */
  /* ------------------------------------------------------------------ */

  /** What a plugin registers; an absent part is `undefined`. */
  datatype PluginExports = PluginExports(components: Option<Tree>, actions: Option<Tree>,
                                         stores: Option<Tree>, directives: Option<seq<(string, nat)>>)

  /** The registry tree after adding `{[namespace]: tree}` when present. */
  function Namespaced(root: Tree, namespace: string, tree: Option<Tree>): Tree
  {
    if tree.Some? then Merge(root, [Entry(namespace, Branch(tree.value))]) else root
  }

  /** Adding a namespaced tree sets that namespace to the whole tree and
      leaves every other top-level key as it was. */
  lemma NamespacedGet(root: Tree, namespace: string, tree: Tree, k: string)
    requires DistinctKeys(root)
    ensures DistinctKeys(Namespaced(root, namespace, Some(tree)))
    ensures Get(Namespaced(root, namespace, Some(tree)), k) == if k == namespace then Branch(tree) else Get(root, k)
  {
    var items := [Entry(namespace, Branch(tree))];
    MergeGet(root, items, k);
    assert Keys(items) == [namespace];
    assert items[1..] == [];
    if k == namespace {
      assert Get(items, k) == Branch(tree);
    }
  }

  /** A second registration under the same namespace replaces the first
      subtree instead of merging into it. */
  lemma SecondRegistrationReplaces(root: Tree, namespace: string, first: Tree, second: Tree)
    requires DistinctKeys(root)
    ensures Get(Namespaced(Namespaced(root, namespace, Some(first)), namespace, Some(second)), namespace) == Branch(second)
  {
    NamespacedGet(root, namespace, first, namespace);
    NamespacedGet(Namespaced(root, namespace, Some(first)), namespace, second, namespace);
  }

  /** The engine's global state. */
  class Uizy {
    const doc: Dom.Document
    const theme: Themes.Theme
    const components: Components
    const actions: Components
    const stores: Components
    const directives: Directives
    const plugins: PluginHost
    /** Whether `window.$` and `window.$emit` were set. */
    var globals: bool
    /** The `onReady` callbacks `init` was given, in order. */
    var ready: seq<nat>
    /** The steps `start` has performed, in order. */
    var steps: seq<Step>

    ghost predicate Valid()
      reads theme, components, components.caller, actions, actions.caller, stores, stores.caller, plugins
    {
      components != actions && components != stores && actions != stores
      && theme.Valid() && components.Valid() && actions.Valid() && stores.Valid() && plugins.Valid()
    }

    constructor(doc: Dom.Document)
      ensures Valid() && this.doc == doc
      ensures components.root == [] && actions.root == [] && stores.root == []
      ensures fresh(theme) && fresh(components) && fresh(actions) && fresh(stores) && fresh(directives) && fresh(plugins)
      ensures !globals && ready == [] && steps == []
    {
      this.doc := doc;
      theme := new Themes.Theme();
      components := new Components();
      actions := new Components();
      stores := new Components();
      directives := new Directives();
      plugins := new PluginHost();
      globals := false;
      ready := [];
      steps := [];
    }

    /** `registerPlugin(namespace, exports)`. */
    method RegisterPlugin(namespace: string, exports: PluginExports)
      requires Valid()
      modifies components, actions, stores, directives
      ensures Valid()
      ensures components.root == Namespaced(old(components.root), namespace, exports.components)
      ensures actions.root == Namespaced(old(actions.root), namespace, exports.actions)
      ensures stores.root == Namespaced(old(stores.root), namespace, exports.stores)
      ensures directives.handlers ==
        if exports.directives.Some? then AddedAll(old(directives.handlers), PrefixedDirectives(namespace, exports.directives.value))
        else old(directives.handlers)
    {
      AddNamespaced(components, namespace, exports.components);
      AddNamespaced(actions, namespace, exports.actions);
      AddNamespaced(stores, namespace, exports.stores);
      if exports.directives.Some? {
        directives.AddPrefixed(namespace, exports.directives.value);
      }
    }

    /** `start(config)`. */
    method Start(config: StartConfig)
      requires Valid()
      requires config.components.Some? ==> DistinctKeys(config.components.value)
      requires config.actions.Some? ==> DistinctKeys(config.actions.value)
      requires config.stores.Some? ==> DistinctKeys(config.stores.value)
      modifies this, doc, theme, components, actions, stores, directives, plugins
      ensures Valid()
      ensures plugins.calls == old(plugins.calls) + InstallRuns(old(plugins.installed), config.plugins)
      ensures plugins.installed == old(plugins.installed) + PluginsOf(config.plugins)
      ensures theme.system == SystemAfter(old(theme.system), config)
      ensures theme.scrollbar == ScrollbarAfter(old(theme.scrollbar), config)
      ensures theme.styles == StylesAfter(old(theme.styles), config)
      ensures components.root == Added(old(components.root), config.components)
      ensures actions.root == Added(old(actions.root), config.actions)
      ensures stores.root == Added(old(stores.root), config.stores)
      ensures directives.handlers == if config.directives.Some? then AddedAll(old(directives.handlers), config.directives.value) else old(directives.handlers)
      ensures globals == (old(globals) || config.globals)
      ensures ready == old(ready) + (if config.onReady.Some? then [config.onReady.value] else [])
      ensures steps == old(steps) + StartSteps(config, Themes.Combined(theme.system, theme.scrollbar, theme.styles))
      ensures var laid := if config.layout.Some? then LaidOut(old(doc.page), config.layout.value) else old(doc.page);
        doc.page == if config.theme.Some? then ThemedPage(laid, Themes.Combined(theme.system, theme.scrollbar, theme.styles)) else laid
    {
      var done, css := Prepare(config);
      done := Register(config, css, done);
      Init(config.onReady);
      done := done + [Initialized];
      FinalStage(config, css);
      steps := steps + done;
    }

    /** The plugins and stages 1 to 3 of `start`: layout, theme, theme
        stylesheet. `css` is the theme text after the theme stage. */
    method Prepare(config: StartConfig) returns (done: seq<Step>, css: string)
      requires Valid()
      modifies doc, theme, plugins
      ensures Valid()
      ensures plugins.calls == old(plugins.calls) + InstallRuns(old(plugins.installed), config.plugins)
      ensures plugins.installed == old(plugins.installed) + PluginsOf(config.plugins)
      ensures theme.system == SystemAfter(old(theme.system), config)
      ensures theme.scrollbar == ScrollbarAfter(old(theme.scrollbar), config)
      ensures theme.styles == StylesAfter(old(theme.styles), config)
      ensures css == Themes.Combined(theme.system, theme.scrollbar, theme.styles)
      ensures done == Stages(config, css, 3)
      ensures var laid := if config.layout.Some? then LaidOut(old(doc.page), config.layout.value) else old(doc.page);
        doc.page == if config.theme.Some? then ThemedPage(laid, css) else laid
    {
      done := InstallAndLayout(plugins, doc, config);
      done, css := ThemeStage(theme, doc, config, done);
      FirstStages(config, css);
    }

    /** Stages 4 to 8 of `start`: the registries, the directives and the
        globals, extending the steps `done` of the stages before. */
    method Register(config: StartConfig, themeCss: string, before: seq<Step>) returns (done: seq<Step>)
      requires Valid()
      requires config.components.Some? ==> DistinctKeys(config.components.value)
      requires config.actions.Some? ==> DistinctKeys(config.actions.value)
      requires config.stores.Some? ==> DistinctKeys(config.stores.value)
      requires before == Stages(config, themeCss, 3)
      modifies this, components, actions, stores, directives
      ensures Valid()
      ensures components.root == Added(old(components.root), config.components)
      ensures actions.root == Added(old(actions.root), config.actions)
      ensures stores.root == Added(old(stores.root), config.stores)
      ensures directives.handlers == if config.directives.Some? then AddedAll(old(directives.handlers), config.directives.value) else old(directives.handlers)
      ensures globals == (old(globals) || config.globals)
      ensures ready == old(ready) && steps == old(steps)
      ensures done == Stages(config, themeCss, 8)
    {
      done := AddRegistries(components, actions, stores, config, before);
      if config.directives.Some? {
        directives.AddAll(config.directives.value);
      }
      if config.globals {
        globals := true;
      }
      done := done + When(config.directives.Some?, DirectivesAdded) + When(config.globals, GlobalsSet);
      LaterStages(config, themeCss);
    }

    /** `init(callback)`: custom element registration is outside the
        model; a given callback is recorded to run when the page is ready. */
    method Init(callback: Option<nat>)
      modifies this
      ensures ready == old(ready) + (if callback.Some? then [callback.value] else [])
      ensures globals == old(globals) && steps == old(steps)
    {
      if callback.Some? {
        ready := ready + [callback.value];
      }
    }
  }

  /** The plugin step and stage 1 (layout) of `start`. */
  method InstallAndLayout(plugins: PluginHost, doc: Dom.Document, config: StartConfig) returns (done: seq<Step>)
    requires plugins.Valid()
    modifies plugins, doc
    ensures plugins.Valid()
    ensures plugins.calls == old(plugins.calls) + InstallRuns(old(plugins.installed), config.plugins)
    ensures plugins.installed == old(plugins.installed) + PluginsOf(config.plugins)
    ensures doc.page == if config.layout.Some? then LaidOut(old(doc.page), config.layout.value) else old(doc.page)
    ensures done == PluginSteps(config.plugins) + When(config.layout.Some?, LayoutApplied)
  {
    plugins.InstallAll(config.plugins);
    done := PluginSteps(config.plugins);
    if config.layout.Some? {
      Layout.ApplyLayout(doc, config.layout.value);
      done := done + [LayoutApplied];
    }
  }

  /** Stages 2 and 3 (theme, theme stylesheet) of `start`, extending the
      steps `before`; `css` is the theme text afterwards. */
  method ThemeStage(theme: Themes.Theme, doc: Dom.Document, config: StartConfig, before: seq<Step>) returns (done: seq<Step>, css: string)
    requires theme.Valid()
    modifies theme, doc
    ensures theme.Valid()
    ensures theme.system == SystemAfter(old(theme.system), config)
    ensures theme.scrollbar == ScrollbarAfter(old(theme.scrollbar), config)
    ensures theme.styles == StylesAfter(old(theme.styles), config)
    ensures css == Themes.Combined(theme.system, theme.scrollbar, theme.styles)
    ensures doc.page == if config.theme.Some? then ThemedPage(old(doc.page), css) else old(doc.page)
    ensures done == before + When(config.theme.Some?, ThemeApplied) + When(config.theme.Some? && css != "", ThemeInjected)
  {
    if config.theme.Some? {
      ApplyTheme(theme, doc, config.theme.value);
    }
    css := theme.ToCss();
    done := before + When(config.theme.Some?, ThemeApplied) + When(config.theme.Some? && css != "", ThemeInjected);
  }

  /** Stages 4 to 6 of `start`: `add` on each registry whose tree is
      configured, extending the steps `before`. */
  method AddRegistries(components: Components, actions: Components, stores: Components, config: StartConfig, before: seq<Step>)
    returns (done: seq<Step>)
    requires components != actions && components != stores && actions != stores
    requires components.Valid() && actions.Valid() && stores.Valid()
    requires config.components.Some? ==> DistinctKeys(config.components.value)
    requires config.actions.Some? ==> DistinctKeys(config.actions.value)
    requires config.stores.Some? ==> DistinctKeys(config.stores.value)
    modifies components, actions, stores
    ensures components.Valid() && actions.Valid() && stores.Valid()
    ensures components.root == Added(old(components.root), config.components)
    ensures actions.root == Added(old(actions.root), config.actions)
    ensures stores.root == Added(old(stores.root), config.stores)
    ensures done == before + When(config.components.Some?, ComponentsAdded)
      + When(config.actions.Some?, ActionsAdded) + When(config.stores.Some?, StoresAdded)
  {
    AddIf(components, config.components);
    AddIf(actions, config.actions);
    AddIf(stores, config.stores);
    done := before + When(config.components.Some?, ComponentsAdded)
      + When(config.actions.Some?, ActionsAdded) + When(config.stores.Some?, StoresAdded);
  }

  /** The theme part of `start`: system colors, scrollbar and brands in
      that order, then the theme stylesheet when `toCSS` is not empty. */
  method ApplyTheme(theme: Themes.Theme, doc: Dom.Document, config: ThemeConfig)
    requires theme.Valid()
    modifies theme, doc
    ensures theme.Valid()
    ensures theme.system == if config.colors.Some? then Themes.SystemCss(config.colors.value) else old(theme.system)
    ensures theme.scrollbar == if config.scrollbar.Some? then Themes.ScrollbarCss(Themes.ResolveScrollbar(config.scrollbar.value)) else old(theme.scrollbar)
    ensures theme.styles == old(theme.styles) + BrandStyles(config.brands)
    ensures doc.page == ThemedPage(old(doc.page), Themes.Combined(theme.system, theme.scrollbar, theme.styles))
  {
    if config.colors.Some? {
      theme.System(config.colors.value);
    }
    if config.scrollbar.Some? {
      theme.Scrollbar(config.scrollbar.value);
    }
    AddBrands(theme, config.brands);
    var css := theme.ToCss();
    if css != "" {
      EngineUtils.InjectCss(doc, ":root { " + css + " }", Some("theme"));
    }
  }

  /** The brand loop of `start`. */
  method AddBrands(theme: Themes.Theme, brands: seq<Themes.BrandOptions>)
    requires theme.Valid()
    modifies theme
    ensures theme.Valid()
    ensures theme.system == old(theme.system) && theme.scrollbar == old(theme.scrollbar)
    ensures theme.styles == old(theme.styles) + BrandStyles(brands)
  {
    for i := 0 to |brands|
      invariant theme.Valid()
      invariant theme.system == old(theme.system) && theme.scrollbar == old(theme.scrollbar)
      invariant theme.styles == old(theme.styles) + BrandStyles(brands[..i])
    {
      assert brands[..i + 1][..i] == brands[..i];
      theme.Brand(brands[i]);
    }
    assert brands[..|brands|] == brands;
  }

  /** `Theme._system` after the theme stage of `start`: replaced exactly
      when the configuration has a theme with colors. */
  function SystemAfter(system: string, config: StartConfig): string
  {
    if config.theme.Some? && config.theme.value.colors.Some? then Themes.SystemCss(config.theme.value.colors.value)
    else system
  }

  /** `Theme._scrollbar` after the theme stage of `start`: replaced exactly
      when the configuration has a theme with scrollbar options. */
  function ScrollbarAfter(scrollbar: string, config: StartConfig): string
  {
    if config.theme.Some? && config.theme.value.scrollbar.Some?
    then Themes.ScrollbarCss(Themes.ResolveScrollbar(config.theme.value.scrollbar.value))
    else scrollbar
  }

  /** `Theme.styles` after the theme stage of `start`: the configured
      brands' non-empty styles appended. */
  function StylesAfter(styles: seq<string>, config: StartConfig): seq<string>
  {
    if config.theme.Some? then styles + BrandStyles(config.theme.value.brands) else styles
  }

  /** The registry tree after `add(tree)` when a tree is configured. */
  function Added(root: Tree, tree: Option<Tree>): Tree
  {
    if tree.Some? then Merge(root, tree.value) else root
  }

  /** `if (tree) registry.add(tree)`. */
  method AddIf(registry: Components, tree: Option<Tree>)
    requires registry.Valid() && (tree.Some? ==> DistinctKeys(tree.value))
    modifies registry
    ensures registry.Valid() && registry.root == Added(old(registry.root), tree)
  {
    if tree.Some? {
      registry.Add(tree.value);
    }
  }

  /** `if (tree) registry.add({ [namespace]: tree })`. */
  method AddNamespaced(registry: Components, namespace: string, tree: Option<Tree>)
    requires registry.Valid()
    modifies registry
    ensures registry.Valid() && registry.root == Namespaced(old(registry.root), namespace, tree)
  {
    if tree.Some? {
      registry.Add([Entry(namespace, Branch(tree.value))]);
    }
  }

  /** The page after the layout step of `start`. */
  function LaidOut(page: Dom.Page, input: Layout.LayoutInput): Dom.Page
  {
    Dom.Injected(page, "main", true, EngineUtils.Minify(Layout.LayoutCss(input)))
  }

  /** The page after the theme step of `start`, given the theme's final
      `toCSS` text: the text wrapped in a `:root` block under the id
      "theme", and nothing when the text is empty. */
  function ThemedPage(page: Dom.Page, css: string): Dom.Page
  {
    if css != "" then Dom.Injected(page, "theme", true, EngineUtils.Minify(":root { " + css + " }")) else page
  }

  /** The non-empty brand styles, in order. */
  function BrandStyles(brands: seq<Themes.BrandOptions>): seq<string>
  {
    if |brands| == 0 then []
    else
      var css := Themes.BrandCss(brands[|brands| - 1]);
      BrandStyles(brands[..|brands| - 1]) + (if css != "" then [css] else [])
  }

  /** The theme part of a configuration; a missing or empty `brands` list
      adds no brand. */
  datatype ThemeConfig = ThemeConfig(colors: Option<Themes.SystemColors>,
                                     scrollbar: Option<Themes.ScrollbarOptions>,
                                     brands: seq<Themes.BrandOptions>)

  /** `StartConfig`; plugin entries with no options carry `None`. */
  datatype StartConfig = StartConfig(
    layout: Option<Layout.LayoutInput>,
    theme: Option<ThemeConfig>,
    components: Option<Tree>,
    actions: Option<Tree>,
    stores: Option<Tree>,
    directives: Option<seq<(string, nat)>>,
    globals: bool,
    plugins: seq<(Plugin, Option<nat>)>,
    onReady: Option<nat>)

  /** The observable steps of `start`.  `PluginEntry` marks one entry of the
      plugin list being processed, whether it installs the plugin or skips a
      plugin installed before; `InstallRuns` says which entries run. */
  datatype Step = PluginEntry(plugin: Plugin) | LayoutApplied | ThemeApplied | ThemeInjected
                | ComponentsAdded | ActionsAdded | StoresAdded | DirectivesAdded | GlobalsSet | Initialized

  function PluginSteps(entries: seq<(Plugin, Option<nat>)>): (r: seq<Step>)
    ensures |r| == |entries|
    ensures forall i :: 0 <= i < |entries| ==> r[i] == PluginEntry(entries[i].0)
  {
    seq(|entries|, i requires 0 <= i < |entries| => PluginEntry(entries[i].0))
  }

  /** `[s]` when `c` holds, nothing otherwise. */
  function When(c: bool, s: Step): seq<Step>
  {
    if c then [s] else []
  }

  /** The stages of `start` after the plugins, numbered 1 to `LastStage`:
      layout, theme, theme stylesheet, components, actions, stores,
      directives, globals, `init`. */
  const LastStage: nat := 9

  function StageStep(k: nat): (s: Step)
    requires 1 <= k <= LastStage
    ensures Rank(s) == k
  {
    match k
    case 1 => LayoutApplied
    case 2 => ThemeApplied
    case 3 => ThemeInjected
    case 4 => ComponentsAdded
    case 5 => ActionsAdded
    case 6 => StoresAdded
    case 7 => DirectivesAdded
    case 8 => GlobalsSet
    case _ => Initialized
  }

  /** Whether stage `k` happens: when its part of the configuration is
      present, the stylesheet only when the theme text is not empty, and
      `init` always. */
  function StageTaken(config: StartConfig, themeCss: string, k: nat): bool
    requires 1 <= k <= LastStage
  {
    match k
    case 1 => config.layout.Some?
    case 2 => config.theme.Some?
    case 3 => config.theme.Some? && themeCss != ""
    case 4 => config.components.Some?
    case 5 => config.actions.Some?
    case 6 => config.stores.Some?
    case 7 => config.directives.Some?
    case 8 => config.globals
    case _ => true
  }

  /** The steps of the plugins and of the first `k` stages. */
  function Stages(config: StartConfig, themeCss: string, k: nat): seq<Step>
    requires k <= LastStage
  {
    if k == 0 then PluginSteps(config.plugins)
    else Stages(config, themeCss, k - 1) + When(StageTaken(config, themeCss, k), StageStep(k))
  }

  /** The plugins and stages 1 to 3, written out. */
  lemma FirstStages(config: StartConfig, themeCss: string)
    ensures Stages(config, themeCss, 3) == PluginSteps(config.plugins) + When(config.layout.Some?, LayoutApplied)
      + When(config.theme.Some?, ThemeApplied) + When(config.theme.Some? && themeCss != "", ThemeInjected)
  {
    assert Stages(config, themeCss, 1) == PluginSteps(config.plugins) + When(config.layout.Some?, LayoutApplied);
    assert Stages(config, themeCss, 2) == Stages(config, themeCss, 1) + When(config.theme.Some?, ThemeApplied);
  }

  /** Stages 4 to 8 after the first three, written out. */
  lemma LaterStages(config: StartConfig, themeCss: string)
    ensures Stages(config, themeCss, 8) == Stages(config, themeCss, 3) + When(config.components.Some?, ComponentsAdded)
      + When(config.actions.Some?, ActionsAdded) + When(config.stores.Some?, StoresAdded)
      + When(config.directives.Some?, DirectivesAdded) + When(config.globals, GlobalsSet)
  {
    var s3 := Stages(config, themeCss, 3);
    assert Stages(config, themeCss, 4) == s3 + When(config.components.Some?, ComponentsAdded);
    assert Stages(config, themeCss, 5) == Stages(config, themeCss, 4) + When(config.actions.Some?, ActionsAdded);
    assert Stages(config, themeCss, 6) == Stages(config, themeCss, 5) + When(config.stores.Some?, StoresAdded);
    assert Stages(config, themeCss, 7) == Stages(config, themeCss, 6) + When(config.directives.Some?, DirectivesAdded);
  }

  /** The steps `start` performs for a configuration, given the theme's
      `toCSS` text after the theme stage. */
  function StartSteps(config: StartConfig, themeCss: string): seq<Step>
  {
    Stages(config, themeCss, LastStage)
  }

  /** `init` after stage 8, written out. */
  lemma FinalStage(config: StartConfig, themeCss: string)
    ensures StartSteps(config, themeCss) == Stages(config, themeCss, 8) + [Initialized]
  {
  }

  /** The position of each kind of step in the fixed order. */
  function Rank(s: Step): nat
  {
    match s
    case PluginEntry(_) => 0
    case LayoutApplied => 1
    case ThemeApplied => 2
    case ThemeInjected => 3
    case ComponentsAdded => 4
    case ActionsAdded => 5
    case StoresAdded => 6
    case DirectivesAdded => 7
    case GlobalsSet => 8
    case Initialized => 9
  }

  lemma {:induction false} StagesOrdered(config: StartConfig, themeCss: string, k: nat)
    requires k <= LastStage
    ensures forall i, j :: 0 <= i < j < |Stages(config, themeCss, k)| ==>
      Rank(Stages(config, themeCss, k)[i]) <= Rank(Stages(config, themeCss, k)[j])
    ensures forall i :: 0 <= i < |Stages(config, themeCss, k)| ==> Rank(Stages(config, themeCss, k)[i]) <= k
  {
    if k > 0 {
      StagesOrdered(config, themeCss, k - 1);
    }
  }

  /** `start` installs every plugin before anything else, then applies the
      rest in the fixed order: layout, theme, the theme stylesheet, the
      three registries, directives, globals, and `init` last. */
  lemma StartOrdered(config: StartConfig, themeCss: string)
    ensures forall i, j :: 0 <= i < j < |StartSteps(config, themeCss)| ==>
      Rank(StartSteps(config, themeCss)[i]) <= Rank(StartSteps(config, themeCss)[j])
  {
    StagesOrdered(config, themeCss, LastStage);
  }

  lemma {:induction false} StagesShape(config: StartConfig, themeCss: string, k: nat)
    requires k <= LastStage
    ensures |config.plugins| <= |Stages(config, themeCss, k)|
    ensures forall i :: 0 <= i < |config.plugins| ==> Stages(config, themeCss, k)[i] == PluginEntry(config.plugins[i].0)
    ensures ThemeInjected in Stages(config, themeCss, k) <==> 3 <= k && config.theme.Some? && themeCss != ""
  {
    if k > 0 {
      StagesShape(config, themeCss, k - 1);
    } else {
      assert forall i :: 0 <= i < |config.plugins| ==> Stages(config, themeCss, 0)[i].PluginEntry?;
    }
  }

  /** The plugin steps come first, in list order; the theme stylesheet is
      injected exactly when a theme is configured and its text is not
      empty; `init` is the last step. */
  lemma StartShape(config: StartConfig, themeCss: string)
    ensures |config.plugins| < |StartSteps(config, themeCss)|
    ensures forall i :: 0 <= i < |config.plugins| ==> StartSteps(config, themeCss)[i] == PluginEntry(config.plugins[i].0)
    ensures ThemeInjected in StartSteps(config, themeCss) <==> config.theme.Some? && themeCss != ""
    ensures StartSteps(config, themeCss)[|StartSteps(config, themeCss)| - 1] == Initialized
  {
    StagesShape(config, themeCss, LastStage);
    StagesShape(config, themeCss, 8);
    FinalStage(config, themeCss);
  }
}
