# uizy in Dafny

uizy is a small layout system for web pages. This project models its engine and the documentation site's state.

- **Shell elements.** `uizy-system-bar`, `uizy-header`, `uizy-footer`, `uizy-overlay`, `uizy-main` and `uizy-drawer` compute their classes when attached. The `uizy-app` element opens and closes the overlay and the drawers through `action`.
- **Registries.** Components, actions and stores are trees of functions addressed by dot-paths. Directives are a flat map.
- **Theme.** The theme collects system colors, scrollbar settings and brand colors into one `:root` stylesheet.
- **Layout.** The layout writes the breakpoint block and the custom-property block into the page.
- **`start`.** It installs plugins and runs the configuration stages in a fixed order.
- **Legacy helpers.** These are the older CSS helpers in `src/components/utils.ts`.
- **Documentation site.** It covers the site's store (colour scheme, search filter, sidebar) and its routes (section pages, prerendered paths, previous/next links).

Modules follow the source files:

| module | file |
|---|---|
| `Registry` | `src/engine/components.ts` |
| `ShellClasses`, `Shell` | `src/engine/app.ts` |
| `Layout` | `src/engine/layout.ts` |
| `Themes` | `src/engine/theme.ts` |
| `EngineUtils` | `src/engine/utils.ts` |
| `Engine` | `src/engine/index.ts` |
| `LegacyUtils` | `src/components/utils.ts` |
| `DocsStore` | `docs/src/store.ts` |
| `Routes` | `docs-live/src/routes.ts` |

`Text` (joining, splitting, trimming, class tokens, number text), `Css` (declarations and reading them back) and `Dom` (the page's elements and the `uizy-design` style elements) model the platform behaviour these files rely on. `Optional` holds the `Option` type.

### How the model is built

**Registry objects** are ordered entry lists, because JavaScript objects keep insertion order. A function value is `Fn(id)` and carries only its identity. A call returns `Invoked(id, args)`. What a component returns is a parameter `run` of `use`.

**Classes with state.** Each of these is a Dafny `class` whose methods update its fields:

- the registries (`Registry.Components`)
- the caller's resolution cache (`Registry.Caller`)
- `Themes.Theme`
- the directive map and the installed-plugin set (`Engine.Directives`, `Engine.PluginHost`)
- the app element's part table (`Shell.App`)
- a shell element's `className` and `display` (`Shell.ShellElement`)
- the document (`Dom.Document`)
- the docs store's signals (`DocsStore.Store`)

Every method is proved against a specification function. Each of those functions is tied to a partner: a read-back, an iff, an idempotence or a reference definition.

**The module-level singletons** of `index.ts` (the registries, the theme and the plugin set) are fields of one `Engine.Uizy` object. `start` is `Engine.Uizy.Start`.

**The order of `start`** is modelled as a log of steps that records which stages ran, in order. The log is defined stage by stage, so `Engine.StartOrdered` follows from that definition. What each stage does to the state is stated by the other `ensures` of `Engine.Uizy.Start`.

## Model

| member | source | states |
|---|---|---|
| Registry.Get | src/engine/components.ts:74-89 | Reads own entries only: a key the object does not own gives `undefined`. Inherited methods are read by `GetAsWritten`. |
| Registry.GetAt | src/engine/components.ts:74-89 | With distinct keys, reading an entry's key gives that entry's value. |
| Registry.ResolvePath | src/engine/components.ts:74-89 | The segment loop reaches the node the dot-path names. A value met before the segments run out that is not an object gives `undefined`. It never fails. |
| Registry.HasComponent | src/engine/components.ts:189-203 | True exactly when the path resolves to a function. |
| Registry.WalkPaths | src/engine/components.ts:165-180 | The depth-first walk appends exactly the function paths below the node, in key order, to the accumulator. |
| Registry.FlattenPaths | src/engine/components.ts:160-184 | Gives the function paths of the tree in depth-first key order. |
| Registry.PathsOfIsExtended | src/engine/components.ts:160-184 | Each enumerated path is the prefixed dot-join of a segment list that leads to a function. |
| Registry.SegPathsLeadToFunctions | src/engine/components.ts:74-89 | In a well-formed tree, a segment list is enumerated exactly when walking it reaches a function. |
| Registry.SegPathsAreKeys | src/engine/components.ts:165-180 | Every segment of an enumerated path is a non-empty, dot-free key. |
| Registry.ExtendIsJoin | src/engine/components.ts:176 | Written below the empty prefix, a path is its segments joined by dots. |
| Registry.PathsMatchLookup | src/engine/components.ts:160-203 | In a tree whose keys dot-paths can name, `paths()` lists a path exactly when `has(path)` is true. |
| Registry.Assign | src/engine/components.ts:246 | An assigned key that exists keeps its place. A new key goes last. |
| Registry.AssignGet | src/engine/components.ts:246 | After assigning, the key reads the new value and every other key reads as before. Keys stay distinct. |
| Registry.AssignReads | src/engine/components.ts:246 | Assignment changes what the assigned key reads and nothing else, even when keys repeat. |
| Registry.AssignKeepsDistinct | src/engine/components.ts:246 | Assigning keeps the keys distinct. |
| Registry.MergeGet | src/engine/components.ts:246 | After the spread, a key of the added tree reads the added value, whole subtree included. Every other key reads the old value. |
| Registry.MergeKeys | src/engine/components.ts:246 | After the spread, old keys keep their order and new keys follow in the added tree's order. |
| Registry.MergePreservesWellFormed | src/engine/components.ts:245-251 | Merging two well-formed trees gives a well-formed tree. |
| Registry.AssignPreservesWellFormed | src/engine/components.ts:246 | Assigning a nameable key and a well-formed value keeps the tree well formed. |
| Registry.ShallowMergeReplacesSubtrees | src/engine/components.ts:245-251 | Adding `{a: {c}}` after `{a: {b}}` loses `a.b` and keeps `a.c`. |
| Registry.ComponentNotFound | src/engine/components.ts:136-144 | The error carries its name and the path, and its message contains the path. |
| Registry.Caller.constructor | src/engine/components.ts:102-104 | A new caller serves its tree snapshot with an empty cache. |
| Registry.Caller.Call | src/engine/components.ts:112-128 | Calls the function at the path, or gives `undefined` in silent mode, or throws the not-found error. The cache then holds the path's resolution. |
| Registry.Components.constructor | src/engine/components.ts:232-236 | The registry starts with an empty tree and no built caller. |
| Registry.Components.Add | src/engine/components.ts:245-251 | The tree becomes the shallow merge with the added items, key by key, and the built caller is dropped. |
| Registry.Components.Call | src/engine/components.ts:263-273 | Builds a fresh caller only when not initialised and otherwise keeps the built one. The cache is the previous cache, or an empty one after a build, with the path's resolution added. The tree is unchanged and the outcome is the call's outcome for the current tree. |
| Registry.Components.Has | src/engine/components.ts:281-283 | True exactly when the path resolves to a function in the current tree. |
| Registry.Components.Paths | src/engine/components.ts:291-293 | Gives the function paths of the current tree in depth-first key order. |
| Registry.Components.Clear | src/engine/components.ts:299-303 | Empties the tree and drops the caller. |
| Registry.Components.GetTree | src/engine/components.ts:309-311 | Gives the current tree. |
| Registry.Components.Build | src/engine/components.ts:314-317 | Makes a fresh caller with an empty cache over the current tree. |
| Registry.ClearedTreeIsEmpty | src/engine/components.ts:299-303 | After `clear`, no path names a function and none is enumerated. |
| Registry.InheritedNameCounterexample | src/engine/components.ts:189-203 | On an empty registry the lookup as written reports `toString` as a component, yet `paths()` does not list it. |
| Registry.WalkAsWrittenInherited | src/engine/components.ts:74-89 | Bracket access reaches an inherited method only when the last segment names one. The walk may pass through `__proto__`, which reaches `Object.prototype`. |
| Registry.WalkAsWrittenOwn | src/engine/components.ts:74-89 | When no segment is an inherited method name or `__proto__`, the lookup as written is own-entry lookup. |
| Registry.CallAsWritten | src/engine/components.ts:106-128 | `call` as written invokes an inherited method only for a path whose last segment names one, and passes the arguments through. |
| Registry.CallAsWrittenAgrees | src/engine/components.ts:74-128 | When no segment is an inherited method name or `__proto__`, `call` as written has the same outcome as the own-entry model. |
| Registry.CallInheritedNameCounterexample | src/engine/components.ts:106-128 | On an empty registry, `call("toString")` as written invokes the inherited method, where own-entry lookup throws the not-found error. |
| Registry.ProtoPathCounterexample | src/engine/components.ts:74-128 | On an empty registry, `has("__proto__.toString")` as written is true and `call("__proto__.toString")` invokes `toString`, where own-entry lookup throws the not-found error. |
| Registry.CallThrowsOffPaths | src/engine/components.ts:106-128 | With own-entry lookup, a call that is not silent throws exactly when `paths()` does not list the path. |
| ShellClasses.CsxClasses | src/engine/app.ts:68-80 | The classes read from `csx`'s output are each argument's classes in argument order. A string counts itself and an object counts its truthy keys. |
| ShellClasses.FlatAppend | src/engine/app.ts:68-78 | The strings contributed by two argument lists are those of each list in turn. |
| ShellClasses.TruthyKeysAppend | src/engine/app.ts:73-75 | The truthy keys of two entry lists are those of each list in turn. |
| ShellClasses.UpdateClassOrder | src/engine/app.ts:109-111 | After `updateClass`, the new classes come first and the previous classes follow. |
| ShellClasses.ParseClip | src/engine/app.ts:97-103 | Gives one entry per clip key, in table order, recording whether the element has that key's attribute. |
| ShellClasses.ClipLookups | src/engine/app.ts:33-51 | The class map and the attribute map agree key by key. |
| ShellClasses.ClipClassesExact | src/engine/app.ts:85-103 | An element's clip classes are exactly the `uizy-clip-*` classes whose attribute it has, in table order. |
| ShellClasses.ShadowClass | src/engine/app.ts:94-95 | The class is empty exactly when the level is not positive. |
| ShellClasses.ShadowClassTokens | src/engine/app.ts:94-95 | The class of a direction letter is one token when the level is positive and nothing otherwise. |
| ShellClasses.ShadowLevelOfDigits | src/engine/app.ts:117-119 | An attribute written as the digits of N reads back as level N. |
| ShellClasses.NonNumericHasNoShadow | src/engine/app.ts:117-119 | Text that is not a number, and a missing attribute, give level 0 and no shadow class. |
| ShellClasses.NotNumberIsZero | src/engine/app.ts:117-119 | Text with no whitespace at either end that starts with neither a digit nor a sign is read by the model as level 0. |
| ShellClasses.Dedup | src/engine/app.ts:228 | A class list holds each token once, first occurrence kept, with the same members. |
| ShellClasses.Remove | src/engine/app.ts:228 | Removing a token keeps every other member. |
| ShellClasses.ToggleEffect | src/engine/app.ts:228-245 | `classList.toggle` with a force makes the token present exactly when the force is true. Without a force it flips the token. Other classes are unchanged. |
| ShellClasses.ToggleTwice | src/engine/app.ts:241 | Toggling twice without a force restores whether the element has the class. |
| Shell.ShellElement.constructor | src/engine/app.ts:108 | An element starts with its kind, attributes, class attribute and display. |
| Shell.ShellElement.UpdateClass | src/engine/app.ts:109-111 | The class attribute becomes `csx` of the given classes followed by the previous attribute. Display is unchanged. |
| Shell.ShellElement.ConnectedCallback | src/engine/app.ts:125-183 | Sets the kind's classes ahead of the previous ones. Only an overlay is hidden. |
| Shell.SystemBarClasses | src/engine/app.ts:125-129 | The system bar gets only its own class. |
| Shell.HeaderClasses | src/engine/app.ts:131-140 | The header gets the flex row classes, its own class and the bottom shadow of its level. |
| Shell.FooterClasses | src/engine/app.ts:142-146 | The footer gets its own class and the top shadow of its level. |
| Shell.OverlayClasses | src/engine/app.ts:148-157 | The overlay gets the mask class and its clip classes. |
| Shell.MainClasses | src/engine/app.ts:159-163 | The main area gets its own class and its clip classes. |
| Shell.DrawerClasses | src/engine/app.ts:165-183 | A drawer gets flex column, drawer, its side twice, the shadow facing the content, the mini class when `mini`, the open class when `open`, and its clip classes, in that order. |
| Shell.DrawerOpenIff | src/engine/app.ts:169-179 | The open class is among a drawer's classes exactly when it has the `open` attribute. |
| Shell.Query | src/engine/app.ts:82-83 | Gives the first element in document order that matches the selector, or none when no element matches. |
| Shell.Capitalize | src/engine/app.ts:231-233 | Upper-cases the first character and keeps the rest and the length. |
| Shell.ActionKeyOfRoot | src/engine/app.ts:251-252 | A section without a dot is its own key. |
| Shell.ActionKeyOfPart | src/engine/app.ts:251-252 | `root.part` selects `root` followed by the capitalized `part`. |
| Shell.ActionKeyOfEmptyPart | src/engine/app.ts:251-252 | An empty second segment is ignored. |
| Shell.ActionKeyIgnoresRest | src/engine/app.ts:251 | Segments after the second do not change the key. |
| Shell.Dispatch | src/engine/app.ts:253-271 | The callback runs exactly when the key's element exists, the callback is a function and the key has a `set` helper. It receives that element as `self`, with the overlay helper only for the overlay. |
| Shell.App.constructor | src/engine/app.ts:186-198 | The app starts uninitialised with every part empty. |
| Shell.App.EnsureInitialized | src/engine/app.ts:202-210 | The first call fills every part from the document. Later calls change nothing. |
| Shell.App.Action | src/engine/app.ts:248-272 | Initialises once, then invokes the callback as `Dispatch` decides for the computed key. |
| Shell.App.SetOverlayState | src/engine/app.ts:212-229 | Without a value, `display` flips between `none` and `block`. With a value it follows the value. `full` is present exactly when asked. A null element changes nothing. |
| Shell.App.SetDrawer | src/engine/app.ts:235-246 | Toggles the open class, or sets it to the given value. Display is unchanged. |
| Shell.OverlayFullIff | src/engine/app.ts:228 | `full` is present exactly when asked and the other classes are kept. |
| Shell.OverlayFlipTwice | src/engine/app.ts:219-226 | Without a value, the display changes, and two calls restore it. |
| Shell.DrawerSetEffect | src/engine/app.ts:235-246 | `set()` flips the open class and `set(b)` makes it present exactly when `b`. Other classes are kept. |
| Layout.MediaWidth | src/engine/layout.ts:115-116 | An unnamed breakpoint uses its width. A named one uses the table width, or has no entry when the name is unknown. |
| Layout.NamedBreakpointWidths | src/engine/layout.ts:7-13 | `md` is 768, `xxl` is 1400, a plain width is kept and an unknown name has no entry. |
| Layout.PushIf | src/engine/layout.ts:110-113 | Appends the rule exactly when the condition holds. |
| Layout.SetBreakPoint | src/engine/layout.ts:105-123 | The pushed rules and the template give the breakpoint block. |
| Layout.SelectedPair | src/engine/layout.ts:110-113 | Two conditional pushes keep the selected rules in order. |
| Layout.MarginRulesExact | src/engine/layout.ts:110-111 | margin-left is present exactly when `left` and margin-right exactly when `right`, left first. |
| Layout.DrawerRulesExact | src/engine/layout.ts:112-113 | top is present exactly when `top` and bottom exactly when `bottom`, joined by a comma. |
| Layout.SelectorRulesExact | src/engine/layout.ts:119-120 | A main-area rule is present exactly when `main` and a header rule exactly when `header`. Both carry the same margins. |
| Layout.RootDecls | src/engine/layout.ts:129-148 | One custom-property declaration per table entry, in table order, with the entry's unit. |
| Layout.DefaultRootDecls | src/engine/layout.ts:56-81 | With nothing given, the root block declares the default dimensions, speed and overlay. |
| Layout.FieldsIndependent | src/engine/layout.ts:87-99 | Each field takes its given value, or its own default when omitted. |
| Layout.TableIsPlain | src/engine/layout.ts:129-140 | No table name contains `:` or `;`, and no unit contains `;`. |
| Layout.RootBlockReadsBack | src/engine/layout.ts:142-148 | The root block reads back as exactly the table's declarations. |
| Layout.ApplyLayout | src/engine/layout.ts:87-99 | The `main` style element then holds the minified breakpoint block followed by the root block. |
| EngineUtils.MinifyClean | src/engine/utils.ts:8-9 | Minified text has no line break, no two adjacent whitespace characters and no whitespace at either end. |
| EngineUtils.MinifyIdempotent | src/engine/utils.ts:8-9 | Minifying twice is minifying once. |
| EngineUtils.CollapseRunsSeparates | src/engine/utils.ts:8-9 | After collapsing, no two whitespace characters are adjacent. |
| EngineUtils.StripLineBreaksClean | src/engine/utils.ts:8-9 | Removing line breaks leaves none and creates no adjacent whitespace. |
| EngineUtils.TrimClean | src/engine/utils.ts:8-9 | Trimming leaves no whitespace at the ends and keeps the other two properties. |
| EngineUtils.StyleId | src/engine/utils.ts:23 | The style id is the given one, or `main`. |
| EngineUtils.GetOrCreateStyle | src/engine/utils.ts:12-20 | Gives the first `style` element tagged with the id, appending a fresh one to the head when there is none. |
| EngineUtils.InjectCss | src/engine/utils.ts:23-25 | The style element for the id then holds the minified code. |
| Dom.InjectedHolds | src/engine/utils.ts:12-25 | After an injection, the first element for the id exists and holds the text. |
| Dom.InjectedCount | src/engine/utils.ts:12-25 | An injection adds an element exactly when none matched, so it never duplicates one. |
| Dom.InjectedLeavesOthers | src/engine/utils.ts:12-25 | Elements tagged with any other id are unchanged. |
| Dom.InjectedTwice | src/engine/utils.ts:23-25 | Injecting twice under one id is injecting the second text once. |
| Dom.UpsertFinds | src/engine/utils.ts:12-20 | After the lookup or creation, the returned element is the first match. |
| Themes.SystemDecls | src/engine/theme.ts:55-59 | One `--color-{name}` declaration per entry, in entry order, with the entry's value. |
| Themes.SystemCssReadsBack | src/engine/theme.ts:55-59 | The system CSS reads back as exactly those declarations. |
| Themes.ScrollbarReadsBack | src/engine/theme.ts:62-88 | The scrollbar CSS reads back as size in px, thumb and hover. Each option is the given value or its default. |
| Themes.GenerateBrandCss | src/engine/theme.ts:71-77 | The pushed parts give the brand CSS. |
| Themes.BrandCssEmpty | src/engine/theme.ts:71-77 | A brand gives no CSS exactly when none of its three colors is set. |
| Themes.BrandDeclares | src/engine/theme.ts:71-77 | A part is declared exactly when it is set, with its value, in back, text, line order. |
| Themes.PartSuffix | src/engine/theme.ts:73-75 | Different parts give different variable names. |
| Themes.BrandCssReadsBack | src/engine/theme.ts:71-77 | The brand CSS reads back as its declarations. |
| Themes.CombinedFlat | src/engine/theme.ts:192-200 | `toCSS` gives the non-empty sections and the brand styles, in order, joined by single spaces. |
| Themes.CombinedEmpty | src/engine/theme.ts:192-200 | `toCSS` is empty exactly when all three sections are empty. |
| Themes.Theme.constructor | src/engine/theme.ts:122-130 | The theme starts with nothing set. |
| Themes.Theme.System | src/engine/theme.ts:137-139 | The system CSS is replaced. The other sections are unchanged. |
| Themes.Theme.Scrollbar | src/engine/theme.ts:146-154 | The scrollbar CSS is replaced with the resolved options. The other sections are unchanged. |
| Themes.Theme.Brand | src/engine/theme.ts:161-167 | A non-empty brand style is appended. A repeated name adds a second entry. |
| Themes.Theme.Reset | src/engine/theme.ts:173-175 | Only the brands are forgotten. |
| Themes.Theme.Clear | src/engine/theme.ts:180-184 | Everything is forgotten, so `toCSS` is then empty. |
| Themes.Theme.ToCss | src/engine/theme.ts:192-200 | Gives the combined CSS, which is empty exactly when nothing is set. |
| Engine.ObjectClasses | src/engine/index.ts:494-504 | An object result contributes exactly its keys whose flag is true. |
| Engine.UseOf | src/engine/index.ts:506-509 | A single path fails with the not-found error exactly when it does not lead to a function. |
| Engine.UseOne | src/engine/index.ts:490-509 | A call on the registry gives `UseOf` of the current tree and defaults the props to `{}`. The tree is unchanged. |
| Engine.UseAll | src/engine/index.ts:511-518 | Joins the classes of every registered path, in array order. The tree is unchanged. |
| Engine.UsedAppend | src/engine/index.ts:513-517 | The classes of two path lists are those of each list in turn. |
| Engine.Registered | src/engine/index.ts:514 | Keeps exactly the paths that lead to functions. |
| Engine.UsedOnlyRegistered | src/engine/index.ts:513-517 | Unregistered paths contribute nothing. |
| Engine.UseOneAgrees | src/engine/index.ts:506-518 | For a registered path, the array form with that one path gives the same text as the single form. |
| Engine.UsedSingle | src/engine/index.ts:513-517 | One path contributes its function's classes when registered and nothing otherwise. |
| Engine.PluginsOf | src/engine/index.ts:338-349 | The set of plugins named by the entries. |
| Engine.InstallRunsOnce | src/engine/index.ts:121-142 | Installing any list calls each plugin at most once, never one installed before, and only plugins of the list. |
| Engine.RepeatedPluginRunsOnce | src/engine/index.ts:130-135 | An entry for a plugin installed before, or named by an earlier entry, calls nothing. |
| Engine.PluginHost.constructor | src/engine/index.ts:121 | Nothing is installed at first. |
| Engine.PluginHost.Install | src/engine/index.ts:126-142 | Adds the plugin to the set. It is called, or its `install` is called, only when it was not installed before. |
| Engine.PluginHost.InstallAll | src/engine/index.ts:338-349 | Installs each entry in order. |
| Engine.AddedAllKeys | src/engine/index.ts:398-400 | After `addAll`, a name is registered exactly when it was before or is one of the added names. |
| Engine.Directives.Add | src/engine/index.ts:191 | Registers or replaces one handler. |
| Engine.Directives.AddAll | src/engine/index.ts:398-400 | Registers each entry in order. |
| Engine.Directives.AddPrefixed | src/engine/index.ts:188-193 | Registers each plugin directive under `{namespace}-{name}`. |
| Engine.PrefixedDirectives | src/engine/index.ts:189-191 | Each name is prefixed with the namespace and a hyphen, and the handler is kept. |
| Engine.PluginDirectiveNames | src/engine/index.ts:188-193 | After a plugin registers, a directive name exists exactly when it existed before or is `{namespace}-{name}` for one of the plugin's names. |
| Engine.NamespacedGet | src/engine/index.ts:173-185 | A namespaced add sets that key to the whole tree and leaves every other top-level key as it was. |
| Engine.SecondRegistrationReplaces | src/engine/index.ts:173-175 | A second registration under the same namespace replaces the first subtree. |
| Engine.AddNamespaced | src/engine/index.ts:173-185 | Adds `{[namespace]: tree}` when a tree is given. |
| Engine.Uizy.constructor | src/engine/index.ts:441-461 | The engine starts with empty registries, an empty theme and no plugins. |
| Engine.Uizy.RegisterPlugin | src/engine/index.ts:169-194 | Each present part is registered under the namespace. Directives are prefixed. Absent parts change nothing. |
| Engine.Uizy.Start | src/engine/index.ts:317-410 | Installs the plugins, so the installed set gains the listed plugins. Applies the layout. Applies the theme: the system and scrollbar CSS are replaced when configured and the brand styles appended. Adds the three registries and the directives, and sets the globals. The step log is `StartSteps`. |
| Engine.Uizy.Prepare | src/engine/index.ts:337-380 | The plugin, layout and theme stages, with the page laid out and then themed. The installed set gains the listed plugins. Each theme section is replaced or extended as configured and is otherwise unchanged. |
| Engine.Uizy.Register | src/engine/index.ts:382-406 | Stages 4 to 8 extend the log of stages 1 to 3. |
| Engine.Uizy.Init | src/engine/index.ts:213-226 | A given callback is recorded to run once the page is ready. |
| Engine.InstallAndLayout | src/engine/index.ts:337-354 | Installs the plugins, so the installed set gains the listed plugins and each is called at most once. Then applies the layout when configured. |
| Engine.ThemeStage | src/engine/index.ts:356-380 | Applies the theme when configured. The system CSS is replaced when colors are given, the scrollbar CSS when scrollbar options are given, and the brand styles are appended. Nothing changes without a theme. The stylesheet is injected only when `toCSS` is not empty. |
| Engine.ApplyTheme | src/engine/index.ts:357-379 | Applies colors, scrollbar and brands in that order, then writes `:root { toCSS }`. |
| Engine.AddBrands | src/engine/index.ts:369-373 | Each brand's non-empty style is appended in order. |
| Engine.AddRegistries | src/engine/index.ts:382-395 | Each configured tree is added to its registry. |
| Engine.AddIf | src/engine/index.ts:383-385 | Adds the tree when one is given. |
| Engine.PluginSteps | src/engine/index.ts:338-349 | One step per plugin entry, in order, including entries skipped as already installed. |
| Engine.FirstStages | src/engine/index.ts:337-380 | The first three stages, written out. |
| Engine.LaterStages | src/engine/index.ts:382-406 | Stages 4 to 8 follow the first three. |
| Engine.FinalStage | src/engine/index.ts:408-409 | Initialisation comes last. |
| Engine.StagesOrdered | src/engine/index.ts:337-409 | The steps of any prefix of the stages come in stage order. |
| Engine.StartOrdered | src/engine/index.ts:317-410 | `start` runs plugins, layout, theme, stylesheet, components, actions, stores, directives, globals and init in that order. |
| Engine.StagesShape | src/engine/index.ts:337-380 | The plugins come first. The theme stylesheet appears exactly when the theme stage ran with non-empty CSS. |
| Engine.StartShape | src/engine/index.ts:317-410 | The plugin entries come first and init comes last. The theme stylesheet is written exactly when a theme is given and its CSS is not empty. |
| LegacyUtils.RemoveSpace | src/components/utils.ts:47-52 | Gives the same text as the engine's minifier: no line break, no adjacent whitespace and trimmed. |
| LegacyUtils.GetStyle | src/components/utils.ts:30-40 | Gives the first element of any tag tagged with the id, or a new style element in the head. |
| LegacyUtils.AnyTagReused | src/components/utils.ts:30-40 | When the only elements tagged with an id are not `style` elements, the legacy lookup reuses one and leaves the page unchanged. The engine's lookup appends a new style element. |
| LegacyUtils.InjectCss | src/components/utils.ts:11-23 | The element for the id then holds the space-removed code. |
| LegacyUtils.SetBreakPoint | src/components/utils.ts:54-82 | The pushed rules and the template give the legacy breakpoint block. |
| LegacyUtils.ItemsExact | src/components/utils.ts:65-70 | Each margin and drawer rule is present exactly when its flag is set. |
| LegacyUtils.BreakpointReadsBack | src/components/utils.ts:71-81 | The block's lines are the fixed 1024px template with the joined margin and drawer rules in place. |
| LegacyUtils.DeclLines | src/components/utils.ts:107-119 | One declaration line per custom property, in the engine's table order. |
| LegacyUtils.DefaultDecls | src/components/utils.ts:84-126 | With nothing given, the legacy template declares its own defaults. |
| LegacyUtils.LayoutReadsBack | src/components/utils.ts:84-126 | The layout text's lines are the root block's declarations followed by the overlay rules. |
| DocsStore.DocSectionIdsDistinct | docs/src/store.ts:33-141 | There are eleven sections and no two share an id. |
| DocsStore.InitialTheme | docs/src/store.ts:8-15 | Without a window the scheme is light. A stored `dark` or `light` wins. Otherwise the scheme is dark exactly when the media query prefers dark. |
| DocsStore.StoredThemeRestored | docs/src/store.ts:8-25 | A scheme written to storage is the one read back on the next load. |
| DocsStore.Toggled | docs/src/store.ts:28-30 | Toggling always changes the scheme. |
| DocsStore.ToggleTwice | docs/src/store.ts:28-30 | Two toggles restore the scheme. |
| DocsStore.Kept | docs/src/store.ts:147-153 | Keeps exactly the matching sections, in their order. |
| DocsStore.FilteredSections | docs/src/store.ts:144-154 | An empty normalised query keeps every section. Otherwise it keeps exactly the matching sections, in order. |
| DocsStore.FilterIgnoresCaseAndPadding | docs/src/store.ts:144-146 | Filtering by a query and by its lower-cased, trimmed form give the same sections. |
| DocsStore.NormalisedIdempotent | docs/src/store.ts:145 | Normalising a normalised query changes nothing. |
| DocsStore.Store.constructor | docs/src/store.ts:4-17 | The search starts empty, the sidebar closed and the scheme as `InitialTheme` decides. |
| DocsStore.Store.Filtered | docs/src/store.ts:144-154 | The computed sections are a subsequence of the site's sections. |
| DocsStore.Store.ToggleTheme | docs/src/store.ts:28-30 | The scheme flips and nothing else changes. |
| DocsStore.Store.ToggleSidebar | docs/src/store.ts:157-159 | The sidebar flips and nothing else changes. |
| DocsStore.Store.CloseSidebar | docs/src/store.ts:162-164 | The sidebar is closed whatever it was. Nothing else changes. |
| Routes.ComponentOf | docs-live/src/routes.ts:8-20 | An id has a page exactly when the map has it. |
| Routes.EverySectionHasPage | docs-live/src/routes.ts:8-26 | Every section of the site has a page component. |
| Routes.PathOf | docs-live/src/routes.ts:24 | The path is a slash followed by the id. |
| Routes.PathOfInjective | docs-live/src/routes.ts:24 | Different ids give different paths. |
| Routes.DocRoutes | docs-live/src/routes.ts:23-26 | One route per section, in order, with its path and its component. |
| Routes.AllRoutes | docs-live/src/routes.ts:29 | The home route comes first, then the section routes. |
| Routes.PrerenderPaths | docs-live/src/routes.ts:32-36 | `/`, `/404`, then each section's path. |
| Routes.PrerenderCoversRoutes | docs-live/src/routes.ts:29-36 | Every route's path is prerendered. Apart from `/404`, the prerendered paths are the route paths in route order. |
| Routes.FirstIndex | docs-live/src/routes.ts:41-45 | Gives the first index with the key, or -1 exactly when no key matches. Sections are found by id and routes by path. |
| Routes.FindRoute | docs-live/src/routes.ts:45 | Gives none exactly when no route has the path. Otherwise it gives a route with that path. |
| Routes.RouteOfId | docs-live/src/routes.ts:40-46 | Finding the path of a section id gives the route of the first section with that id. |
| Routes.NextRoute | docs-live/src/routes.ts:40-46 | Gives none exactly for an unknown id or the last section. Otherwise it gives the route of the next section. |
| Routes.PreviousRoute | docs-live/src/routes.ts:48-54 | Gives none exactly for an unknown id or the first section. Otherwise it gives the route of the previous section. |
| Routes.NextOfSection | docs-live/src/routes.ts:40-46 | With distinct ids, a section's next route is the route of the section after it. |
| Routes.PreviousOfSection | docs-live/src/routes.ts:48-54 | With distinct ids, a section's previous route is the route of the section before it. |
| Routes.PreviousOfNext | docs-live/src/routes.ts:40-54 | Following next and then previous returns to the starting section's route. |
| Routes.EndsHaveNoLink | docs-live/src/routes.ts:40-54 | The first section has no previous link. With distinct ids, the last has no next link. |

## Left out

- Number formatting: layout values are kept as the text a template literal would write. `Number()` parsing of the shadow attribute covers an optional sign and decimal digits after trimming; the model reads any other text as 0. Text that `Number()` reads in other ways, such as `.5`, `1e2`, `0x10` or `Infinity`, is not modelled.
- Layout.MediaWidth: a breakpoint name that `BREAKPOINT` inherits from `Object.prototype` (for example `toString`) gives a function's text in JavaScript. Here it gives the same "no entry" as any unknown name.
- Shell.Dispatch: action keys that are inherited property names (for example `constructor`) are treated as absent. The route component map is treated the same way.
- Shell.ShellElement.ConnectedCallback: the overlay's inline `background` and `opacity` are not modelled. Only `display` is.
- Entry order: JavaScript lists integer-like keys first, in numeric order. The model keeps plain insertion order for every key. This holds for registry trees, for the directive maps that `addAll` and `Object.entries` walk, and for the class names that an object argument gives `use`, so it also sets the order in which `use` calls components.
- Module-level singletons (`Components`, `Actions`, `Stores`, `Directives`, `Theme`, the installed-plugin set) are fields of one `Engine.Uizy` object rather than global state.
- Custom element registration (`initialize`, `customElements.define`) and the DOMContentLoaded scheduling of `init` are platform calls. `Engine.Uizy.Init` records the callback instead.
- Case conversion: `toLowerCase` and `toUpperCase` are modelled on ASCII letters only.
- Explicit `undefined` inside a partial configuration is not distinguished from an omitted key.
- Plugin effects: a plugin function's body is outside the model, which records only the call and its options.
- Global shortcuts: the frozen `window.uizy` object and the values of `window.$` and `window.$emit` are not modelled. `globals` records that the shortcuts were set.
- The nanostores helpers (`store`, `$`, `$set`, `$key`, `$sub`, `$on`, `$computed`) in `src/engine/index.ts` wrap an external library and are not part of this model.
- Registry.Get: reads own entries only. A path whose last segment names an inherited method (`toString`, `constructor`, ...), or that walks through `__proto__`, reaches nothing here, while JavaScript's `obj[key]` reaches the method. `Registry.CallAsWritten` and `Registry.HasComponentAsWritten` model the lookup as written, and the Findings table records the difference.
- Registry.ResolvePath: follows `Registry.Get`, so an inherited method name resolves to `undefined`.
- Registry.HasComponent: follows `Registry.Get`, so an inherited method name is not a component.
- Registry.Caller.Call: follows `Registry.Get`, so an inherited method name throws or is silenced where JavaScript invokes the method.
- Registry.Components.Call: as `Registry.Caller.Call`.
- Engine.UseOf: follows `Registry.Get`, so `use` fails for an inherited method name where JavaScript calls the method.
- Engine.UseOne: as `Engine.UseOf`.
- Engine.UseAll: follows `Registry.Get`, so an inherited method name is skipped where JavaScript calls the method.
- Registry.WalkAsWritten: a walk that reaches an inherited method and has segments left gives `undefined`. JavaScript does the same, because a function's `typeof` is not `"object"` and the walk stops there.
- ShellClasses.NotNumberIsZero: states what the model gives, 0. `Number()` reads some such text as a number, for example `.5` gives `sb-0.5` and `Infinity` gives `sb-Infinity`.
- EngineUtils.GetOrCreateStyle: the attribute selector is built without escaping, so an id containing `"` makes `querySelector` throw a `SyntaxError` in JavaScript. The model always finds or creates the element.
- LegacyUtils.GetStyle: as `EngineUtils.GetOrCreateStyle`, for `querySelectorAll`.
- Registry.Caller.Call: the cache keeps the resolved function. In JavaScript a registered subtree mutated through another reference leaves the cache stale. The model's trees are values, so no alias exists.
- Engine.UseOf: what a component function returns is supplied by the parameter `run`. The component's own code is not modelled.
- The `Actions`, `Stores` and `Directives` registry definitions are not among the modelled files. Actions and stores are modelled as further `Registry.Components` instances, and directives as `Engine.Directives`, a name-to-handler map.
- The docs store's effect that writes the scheme to `localStorage` and to the document element is not modelled. `DocsStore.StoredThemeRestored` states the round trip it serves.
- `typeof window`, `localStorage.getItem` and `matchMedia` are parameters of `DocsStore.InitialTheme`.
- Preact signals' reactivity: the computed `filteredSections` is a function of the store's fields, `DocsStore.Store.Filtered`.

## Findings

| source | as written | input that shows it | evidently intended | confidence | as-written member | corrected member |
|---|---|---|---|---|---|---|
| src/engine/components.ts:189-203 | The path lookup reads `current[segment]`, which also finds methods every object inherits. | `has("toString")` on an empty registry is true, although `paths()` is empty and no component was added. | Only the registry's own entries count, so `has(p)` holds exactly when `p` is in `paths()`. | not executed | Registry.InheritedNameCounterexample | Registry.PathsMatchLookup |
| src/engine/components.ts:74-128 | `call` resolves the path with `current[segment]` and invokes whatever function it finds, inherited methods included. | `call("toString", x)` on an empty registry invokes `Object.prototype.toString` and does not throw `ComponentNotFoundError`. `call("__proto__.toString", x)` does the same through `Object.prototype`. | A path that names no registered component throws the not-found error, so a non-silent call throws exactly when `paths()` does not list the path. | not executed | Registry.CallInheritedNameCounterexample | Registry.CallThrowsOffPaths |
