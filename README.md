# uni-router-enhance, modelled in Dafny

uni-router-enhance is a router for uni-app mini-program projects. This project models:

- how route names come from page paths, and how the route registry is built from an already parsed `pages.json`;
- the state of a router made by `createRouter`: handlers, before-guards and after-guards, route metadata and the page cache;
- the `push` pipeline of `useRouter`. It checks the target, runs the before-guards (cancel, redirect or continue), then the handler and the after-guards. It writes the page cache, calls the page-stack primitive, and finally either calls `success` or rolls back and calls `fail`;
- the read-only `useRoute` hook;
- the build plugin that writes the union type of route names.

## Modules

- `Wrappers`: `Option`.
- `Text`: `split` on one character and `join`, with their round trip.
- `Uri`: `encodeURIComponent`, the percent-encoding of section 2.1 of RFC 3986 over UTF-8.
- `Types`: JavaScript values and records, and `CloseTypes`. It also has the parsed `pages.json`, `RouteMeta`, and a page on the page stack.
- `Utils`: `src/utils.ts`.
- `Create`: `src/create.ts`. The router is the class `Create.Router`, whose fields are the closure's maps and lists. `Create.RouterState` is the same state as a value.
- `UseRouter`: `src/useRouter.ts`.
  - `BasicPushRun` and `PushRun` define what a push does. The result is a `Run`: the outcome, the ordered trace of observable events, and the page cache afterwards.
  - The methods `BasicPush` and `Push` carry out the same steps on a `Router` and are proved equal to those functions.
  - Guards, handlers, the page-stack primitives and the user's callbacks are supplied by an `Env` as functions of their inputs.
- `UseRoute`: `src/useRoute.ts`.
- `Plugin`: `src/plugin.ts`.

## Model

| member | source | states |
|---|---|---|
| Utils.ExtractSecondPathSegment | src/utils.ts:11-14 | A path with fewer than three `/`-pieces names nothing (""). A name never contains `/`. |
| Utils.ExtractOfPieces | src/utils.ts:11-14 | The first and last pieces are dropped and the inner pieces are joined with `_`. One inner piece is returned as it is. |
| Utils.ExtractOneInnerPiece | src/utils.ts:11-14 | `a/b/index` is named `b`. |
| Utils.ExtractTwoInnerPieces | src/utils.ts:11-14 | `a/b/c/index` is named `b_c`. |
| Utils.ExtractNoInnerPiece | src/utils.ts:11-14 | `pages/index` is named "". |
| Utils.ResolveRouteName | src/utils.ts:16-31 | A function strategy's result is returned unchanged. `default` is `extractSecondPathSegment` of the path as given. A `package_page` name, when there is one, is non-empty and has no `/`. |
| Utils.DefaultKeepsLeadingSlash | src/utils.ts:16-31 | Under `default` a leading slash is not stripped, so `/pages/home/index` is named `pages_home`. |
| Utils.NonEmptySegments | src/utils.ts:23 | `filter(Boolean)` keeps only non-empty pieces, each taken from the input, and it changes nothing when no piece is empty. |
| Utils.NonEmptySegmentsSnoc | src/utils.ts:23 | The filter keeps the pieces in order: one more piece is kept exactly when it is non-empty. |
| Utils.PackageName | src/utils.ts:24-27 | After one final `index` is dropped, the remaining pieces are joined with `_`. A name is non-empty and has no `/`. |
| Utils.PackageNameDropsIndex | src/utils.ts:24-27 | Pieces ending in `index` are named by the pieces before it, joined with `_`. |
| Utils.PackageNameKeepsAll | src/utils.ts:24-27 | Pieces not ending in `index` are all joined with `_`. |
| Utils.PackageNameNone | src/utils.ts:24-27 | There is no name exactly when no piece is left after dropping one final `index`: no pieces, or the single piece `index`. |
| Utils.PackagePageName | src/utils.ts:21-27 | The `package_page` name of a path, when there is one, is non-empty and has no `/`. |
| Utils.PackagePageOfPieces | src/utils.ts:21-27 | After any number of leading slashes, and with no extension or a `.vue` extension in any case, the name is that of the path's non-empty pieces. |
| Utils.PackagePageOfSegments | src/utils.ts:21-28 | After any number of leading slashes, and with no extension or a `.vue` extension in any case, the pieces before a final `index` are joined with `_`. |
| Utils.PackagePageDropsEmptyPieces | src/utils.ts:21-27 | Empty pieces, as from `a//b`, do not change the name. |
| Utils.PackagePageNone | src/utils.ts:21-27 | A path has no `package_page` name exactly when its non-empty pieces are none or the single piece `index`. |
| Utils.PackagePageEmptyPieceExample | src/utils.ts:21-27 | `a//b` is named `a_b`. |
| Utils.PackagePageNoIndexExample | src/utils.ts:21-27 | `pages/home` is named `pages_home`. |
| Utils.PackagePageIndexOnlyExample | src/utils.ts:21-27 | `index.vue` has no name. |
| Utils.PackagePageEmptyExamples | src/utils.ts:21-27 | `/` and the empty path have no name. |
| Utils.PackagePageIgnoresLeadingSlash | src/utils.ts:21 | Under `package_page` a leading slash does not change the name. |
| Utils.StripSlashesPrefix | src/utils.ts:21 | `replace(/^\/+/, '')` removes exactly the leading run of slashes. |
| Utils.EnsureLeadingSlash | src/utils.ts:36 | The result starts with `/`. It is the input when the input already starts with `/`, and `/` + input otherwise. |
| Utils.EnsureLeadingSlashIdempotent | src/utils.ts:36 | `ensureLeadingSlash` is idempotent. |
| Utils.DefinedEntries | src/utils.ts:40 | Only entries whose value is not `undefined` are kept. None are left exactly when every value is `undefined`. |
| Utils.DefinedEntriesSnoc | src/utils.ts:40 | The filter keeps entries in order: one more entry is kept exactly when its value is not `undefined`, so `null` and every other value stay. |
| Utils.Serialize | src/utils.ts:47 | An object goes through `JSON.stringify` and any other value, `null` included, through `String`. Each value has a fixed text. |
| Utils.BuildUrlWithQuery | src/utils.ts:38-53 | With no defined entry the URL is exactly the slash-led path, with no `?`. The URL always starts with `/`. |
| Utils.QueryPairParts | src/utils.ts:45-50 | A query piece has no `&`, and it splits at its one `=` into the encoded key and the encoded serialised value. |
| Utils.QueryStringRoundTrip | src/utils.ts:38-53 | With defined entries the URL is the slash-led path, `?`, and a string that splits at `&` into exactly one `key=value` piece per defined entry, in order. |
| Utils.QueryExample | src/utils.ts:38-53 | `{a: 1}` on `pages/detail/index` gives `/pages/detail/index?a=1`. An `undefined` value adds nothing. |
| Utils.EncodedAvoids | src/utils.ts:48 | Percent-encoding never outputs `&` or `=`, so keys and values cannot break the query syntax. |
| Uri.AsciiRoundTrip | src/utils.ts:48 | For ASCII text, decoding the percent-encoded form gives the text back. |
| Utils.ResolveCloseType | src/utils.ts:54-59 | The result is `current` exactly for "current", `all` exactly for "all", and `default` for everything else, including a missing value. Each of `default`, `current` and `all` maps to the mode of that name. |
| Utils.ResolveCloseTypeIdempotent | src/utils.ts:54-59 | Resolving a resolved mode's name gives the same mode. |
| Utils.CloseTypeFinding | src/utils.ts:54-59 | The as-written check also accepts names inherited from `Object.prototype` and then yields no mode. For every other input the two versions agree. |
| Utils.PageEntries | src/utils.ts:77-89 | Each page is listed with its full path, in manifest order. |
| Utils.RouteFor | src/utils.ts:79-87 | A page is registered exactly when its name exists and is non-empty. The route keeps the page's fields and its path. It is a tab-bar route exactly when its path is in the tab-bar list or its `type` is `tabBar`. |
| Utils.AddPages | src/utils.ts:78-89 | The `forEach` over a page list adds exactly what the registry function adds for those pages. |
| Utils.AddSubPackages | src/utils.ts:92-107 | The `forEach` over sub-packages registers each page under the path `root/path`, as the registry function does. |
| Utils.ParseRoutesFromPagesJson | src/utils.ts:66-110 | The map built in place equals the registry of all manifest entries: main pages first, then every sub-package's pages. |
| Utils.RegistryKeys | src/utils.ts:66-110 | A name is a key exactly when some manifest page has that non-empty name. |
| Utils.RegistryLastWins | src/utils.ts:78-107 | When several pages share a name, the key holds the route of the last of them. |
| Utils.RegistrySource | src/utils.ts:66-110 | Every key holds the route made from some page that carries that name, and the route's name is the key. |
| Utils.ManifestRouteShape | src/utils.ts:66-110 | Every registered route carries its key as its name. It is a tab-bar route exactly when its URL is in the tab-bar list or its page's `type` is `tabBar`. Its URL and page fields come from one manifest entry. |
| Utils.DefaultNameOfUrl | src/utils.ts:16-110 | Under the default naming, the name a route's URL yields is the route's own key. |
| Utils.SubEntryPaths | src/utils.ts:92-98 | Every sub-package entry has the path `root/path` of a page of some sub-package. |
| Create.Stop | src/create.ts:210-229 | A guard result stops the chain exactly when it does not allow, and a stopping verdict is never "continue". |
| Create.BeforeChainStopsAtFirst | src/create.ts:201-232 | Guards are called in list order. The chain continues exactly when every guard allows, and then all of them were called. Otherwise the verdict is the one given by the first guard that does not allow, and no later guard is called. |
| Create.AfterChainCallsAll | src/create.ts:241-251 | Every after-guard is called in order, whatever it returns. Only an exception stops the run, and it is the exception of the last guard called. |
| Create.IndexOf | src/create.ts:187 | `indexOf` gives the first position of the guard, or -1 exactly when it is absent. |
| Create.BeforeChain | src/create.ts:201-232 | No more guards are called than the list holds, and exactly the whole list is called when the verdict is "continue". |
| Create.AfterChain | src/create.ts:241-251 | No more guards are called than the list holds, and exactly the whole list is called when none throws. |
| Create.RemoveFirst | src/create.ts:186-189 | When the guard is absent the list is unchanged. When it is present the list is one shorter. |
| Create.RemoveFirstSpec | src/create.ts:186-189 | The disposer removes exactly one copy of a present guard, the first one, and keeps the others in their order. |
| Create.DisposeTwiceIsHarmless | src/create.ts:184-190 | For a guard registered once, a second call of its disposer changes nothing. |
| Create.Router.constructor | src/create.ts:159-176 | The registry is the manifest's routes under the default naming, or empty without a manifest. Handlers, guards and the cache start empty. |
| Create.Router.Register | src/create.ts:258-264 | Afterwards `has(n)` holds and `getHandler(n)` is the handler. The disposer deletes `n` whatever was registered under it later. |
| Create.Router.Unregister | src/create.ts:266 | Returns true exactly when a handler was present. Afterwards none is, and other names keep theirs. |
| Create.Router.Has | src/create.ts:268 | `has` holds exactly when a handler is registered under the name. |
| Create.Router.GetHandler | src/create.ts:270 | A handler is found exactly when `has` holds. |
| Create.Router.BeforeEach | src/create.ts:184-190 | The guard goes to the end of the before list, and nothing else changes. |
| Create.Router.AfterEach | src/create.ts:184-190 | The guard goes to the end of the after list, and nothing else changes. |
| Create.Router.DefineRoute | src/create.ts:276-282 | Afterwards `getRouteMeta(n)` is the metadata. The disposer deletes `n`. |
| Create.Router.GetRouteMeta | src/create.ts:284 | Metadata is found exactly for a registered name. |
| Create.Router.ListRouteMeta | src/create.ts:286 | The snapshot holds every route as `getRouteMeta` returns it. It is a value, so later changes to the router do not reach it. |
| Create.Router.Dispose | src/create.ts:184-282 | Each disposer changes only its own map or list: it deletes the name, or removes the first occurrence of the guard. |
| Create.Router.RunBeforeInterceptors | src/create.ts:201-232 | The loop with early return yields the verdict and the calls of the decision rule. |
| Create.Router.RunAfterInterceptors | src/create.ts:241-251 | The loop over the after list yields the run of the after-guard rule. |
| Create.Router.SetPageCache | src/create.ts:292 | Set-then-get returns the entry, the last write wins, and other names keep theirs. |
| Create.Router.GetPageCache | src/create.ts:293 | An entry is found exactly for a cached name. |
| Create.Router.DeletePageCache | src/create.ts:294 | Only that name loses its entry. |
| UseRouter.CurrentRoute | src/useRouter.ts:51-53 | A route is reported exactly when the page stack is non-empty and the top page has a non-empty route, and it is the top page's route. |
| UseRouter.FromNameAsWritten | src/useRouter.ts:50-56 | As written, a page with a route makes the lookup throw, because the router has no `resolveNameByUrl`. Without one it returns "". |
| UseRouter.FromName | src/useRouter.ts:50-56 | The intended name is `extractSecondPathSegment` of the top page's route, or "" without one. |
| UseRouter.FromNameFinding | src/useRouter.ts:55 | The two lookups agree without a route. With one, the as-written lookup throws. |
| UseRouter.FromNameFindingExample | src/useRouter.ts:55 | From `pages/home/index` the written lookup throws, while the intended one gives `home`. |
| UseRouter.Failure | src/useRouter.ts:64-69 | The error goes to `fail` when there is one, and the push rejects only without one or when `fail` itself throws. The cache is unchanged. |
| UseRouter.ApiFor | src/useRouter.ts:7-36 | `performNavigation` never uses `switchTab`. |
| UseRouter.Dispatch | src/useRouter.ts:168-180 | `switchTab` is used exactly for tab-bar routes, and every URL starts with `/`. |
| UseRouter.DispatchTable | src/useRouter.ts:7-180 | A tab-bar route uses `switchTab` with the slash-led URL and no query. Otherwise the URL is `buildUrlWithQuery`, and default, current and all map to navigateTo, redirectTo and reLaunch. |
| UseRouter.Report | src/useRouter.ts:65-68 | The error path, step by step, is the error path of the pipeline. |
| UseRouter.SettleNavigation | src/useRouter.ts:172-189 | The page-stack call, then `success` or the rollback, is the pipeline's last stage. |
| UseRouter.CommitNavigation | src/useRouter.ts:161-189 | The cache write, the tab-bar warning and the settling are the pipeline's commit stage. |
| UseRouter.RunHandler | src/useRouter.ts:147-189 | The handler, the after-guards and the commit are the pipeline's later stages. |
| UseRouter.BasicPushRun | src/useRouter.ts:61-190 | The pipeline of `basicPush` as a function: target check, before-guards, redirect, handler, after-guards, cache write, navigation, and then `success` or rollback and `fail`. Its properties are the lemmas below. |
| UseRouter.PushRun | src/useRouter.ts:195-210 | `push` as a function: a missing argument rejects, the callbacks are merged, and the rest is `BasicPushRun`. |
| UseRouter.BasicPush | src/useRouter.ts:61-190 | `basicPush` on a router yields the outcome, the events and the cache of the pipeline function. |
| UseRouter.Push | src/useRouter.ts:195-210 | `push` on a router yields the outcome, the events and the cache of the `push` function. |
| UseRouter.BadTargetFailsFast | src/useRouter.ts:63-77 | An empty path or an unknown route goes to the error path. No guard, handler, cache write or navigation happens. |
| UseRouter.CancelIsSilent | src/useRouter.ts:110-118 | A denial, or a redirect to "", ends the push normally after the guards. No handler, cache write, navigation or callback happens. |
| UseRouter.GuardThrowFails | src/useRouter.ts:120-124 | A guard's exception goes to the error path after the guards, and no later stage runs. |
| UseRouter.RedirectReenters | src/useRouter.ts:127-144 | A redirect re-runs the pipeline with the target's path. A location target brings its query, or else the old query. The callbacks and `close` are kept. |
| UseRouter.HandlerFalseAborts | src/useRouter.ts:147-159 | A handler returning exactly `false` ends the push normally after the after-guards, with no cache write and no navigation. |
| UseRouter.CommitKeepsEntry | src/useRouter.ts:162-184 | When navigation succeeds, `{query, handlerResult}` stays cached under the route and `success` gets the handler's result. |
| UseRouter.RollbackOnNavigationError | src/useRouter.ts:162-189 | When navigation fails, the route's cache entry is deleted and the error goes to the error path. |
| UseRouter.EffectsAppend | src/useRouter.ts:61-190 | The cache and page-stack events of a sequence of events are those of its parts, in order. |
| UseRouter.BasicPushDisciplined | src/useRouter.ts:61-190 | Over any chain of redirects, a push either touches neither the cache nor the page stack, or writes one cache entry for a registered route and then navigates once. The entry stays when the push resolves, or is deleted when navigation fails. |
| UseRouter.FuelMonotone | src/useRouter.ts:127-144 | Once the redirects are followed to the end, a larger redirect bound changes nothing. |
| UseRouter.MissingDataRejects | src/useRouter.ts:196-200 | A missing argument calls `fail` when given and always rejects, with nothing else happening. |
| UseRouter.CallbacksOverride | src/useRouter.ts:202-209 | `success` and `fail` from the second argument override those in the first. A name stands for `{path}`, and the rest is `basicPush`. |
| UseRouter.PushDisciplined | src/useRouter.ts:195-210 | `push` has the same cache and navigation discipline as `basicPush`. |
| UseRoute.Put | src/useRoute.ts:60-63 | Assigning an existing key keeps every key in its place, and a new key goes last. |
| UseRoute.PutGet | src/useRoute.ts:60-63 | After an assignment, the key reads the new value and every other key reads its old one. |
| UseRoute.SpreadGet | src/useRoute.ts:60-63 | After a spread, a key of the source reads as in the source and any other key as before. The keys are the union. |
| UseRoute.MergedQueryGet | src/useRoute.ts:60-63 | The merged query has the keys of the cached query and of the page options. A page option wins over a cached value. |
| UseRoute.CreateRouteHook | src/useRoute.ts:34-71 | It warns exactly when there is no current route, and then returns the empty info. |
| UseRoute.RouteHookReads | src/useRoute.ts:34-71 | With a route it gives the default-naming name of the route, and the metadata and cache entry under that name. The merged query reads the page option, else the cached value. `handlerResult` is the cached one, or `undefined`. |
| UseRoute.LandingPageSeesPush | src/useRoute.ts:34-71 | After a push that completes, the landing page sees the route's metadata and the handler's result. It also sees the pushed query for every key its own options lack. |
| Plugin.NamesOfMembers | src/plugin.ts:13-40 | A name is collected exactly when it is the non-empty name of some page path, and no name appears twice. |
| Plugin.RouteNamesAreRegistryKeys | src/plugin.ts:13-40 | The collected names are exactly the keys of the registry under the default naming. |
| Plugin.AddPageNames | src/plugin.ts:18-24 | The `forEach` over a page list adds exactly the names the name function adds. |
| Plugin.ExtractRouteNamesFromPages | src/plugin.ts:13-40 | The set built in place is the names of the main pages, then those of each sub-package's `root/path` pages. |
| Plugin.Insert | src/plugin.ts:48 | Insertion adds exactly one copy of the element. |
| Plugin.SortNames | src/plugin.ts:48 | The sorted copy is a permutation of the names. |
| Plugin.SortNamesSorted | src/plugin.ts:48 | For a total, transitive order the sorted copy is in order and is a permutation of the names. The input is a value and is not changed. |
| Plugin.GenerateTypeDefinition | src/plugin.ts:47-50 | The header followed by one line per name of the sorted copy. Its lines are stated by the two lemmas below. |
| Plugin.TypeDefinitionLines | src/plugin.ts:47-50 | The text is the header, then one line `  \| '<name>'` per name in sorted order, separated by newlines. |
| Plugin.TypeDefinitionEmpty | src/plugin.ts:47-50 | With no names the text is the header and one empty line. |
| Plugin.GenerateRouteTypeFile | src/plugin.ts:67-81 | An attempt writes the type text of the manifest's names. When reading or writing fails, nothing is written. |
| Plugin.BuildsRetryUntilSuccess | src/plugin.ts:96-108 | While the flag is set, failed builds retry. The first success writes its text and clears the flag. |
| Plugin.BuildsAllFail | src/plugin.ts:96-108 | While every attempt fails, nothing is written and the flag stays set. |
| Plugin.BuildsAfterSuccess | src/plugin.ts:96-108 | Once the flag is clear, builds change nothing. |
| Plugin.RouteTypesPlugin.constructor | src/plugin.ts:88-94 | The plugin starts with the flag set and nothing written. |
| Plugin.RouteTypesPlugin.BuildStart | src/plugin.ts:96-108 | One build is one step of the flag logic, and it warns exactly when a first-build attempt fails. |
| Plugin.RouteTypesPlugin.HandleHotUpdate | src/plugin.ts:112-126 | It regenerates only when the file name ends with `pages.json`. A failed attempt keeps the previous text, and the flag is never touched. |

## Left out

- Promises and `await` are modelled as sequential steps. Overlapping `push` calls that interleave on the shared cache are not modelled.
- Guard bodies, handler bodies and the `success`/`fail` callbacks are user code. An `Env` gives each one's result, or the exception it throws, as a function of its inputs.
- `uni.navigateTo`, `redirectTo`, `reLaunch` and `switchTab` are reduced to a function from the call to an optional error.
- `getCurrentPages()` is an input: the page stack as a sequence of pages with `route` and `options`.
- `console.warn` and `console.log` are reduced to a `Warned` event, the `warned` flag of `useRoute`, and the `HotLog` of the plugin.
- `JSON.stringify` and `String(value)` are reduced to a fixed textual form of each `Value`.
- `Object.entries` enumerates integer-like keys first. The model keeps insertion order for every key.
- `encodeURIComponent` is modelled on strings of Unicode scalar values. The URIError it throws on a lone surrogate, which in a push means a rollback and `fail`, is not modelled. Only its inverse on ASCII text is proved.
- UseRouter.BasicPushRun: redirects have no bound in the source, while the model follows at most `fuel` of them and then ends with `OutOfFuel`. `FuelMonotone` shows the bound does not matter once a push ends.
- A missing `path` and the empty path are the same value. The source treats both the same way, as a falsy path.
- The `replace` option of a redirect location is ignored, as it is in the source.
- `fs.readFileSync`, `JSON.parse`, `fs.writeFileSync` and the `process.env` lookup of `getValidatedPaths` are reduced to `Io`. It records whether the input directory exists, the parsed manifest or a parse failure, and whether the write succeeds.
- The output path `dts` is stored but not used: the written text is the plugin's state.
- `localeCompare` is a parameter `leq`. Sortedness is proved for any total, transitive `leq`.
- Plugin.SortNames: `Array.prototype.sort` is stable, and the model's insertion sort is stable too. Stability itself is not proved.
- Create.Router.ListRouteMeta: the snapshot is a map value, so it cannot alias the router's map. Independence is therefore a property of the types rather than a stated ensures.
- Create.Router.Dispose: `splice` is modelled as `RemoveFirst` on the sequence, not as an in-place array update.
- `useRouter`/`useRoute` factories and the public object of `createRouter` (src/create.ts:298-311) only re-export members that are modelled.
- src/type.ts contributes only the datatypes. src/index.ts only re-exports.
- The registry key type `TName` is a string. The compile-time restriction of names to known routes is not modelled.

## Findings

| source | as written | input that shows it | evidently intended | confidence | as-written member | corrected member |
|---|---|---|---|---|---|---|
| src/useRouter.ts:55 | `router.resolveNameByUrl(currentPage.route)` calls a method that `RouterCore` does not have, so it throws a TypeError | a push made from a page with the route `pages/home/index` | the name `extractSecondPathSegment(route)`, here `home` | high; not executed | UseRouter.FromNameFindingExample | UseRouter.FromName |
| src/utils.ts:57 | `close in CloseTypes` is also true for names inherited from `Object.prototype` | `close: "toString"` | any name other than `current` or `all` resolves to `default` | high; not executed | Utils.CloseTypeFinding | Utils.ResolveCloseType |

In the `resolveCloseType` finding, `CloseTypes[close]` is an inherited member such as `Object.prototype.toString`, not a close mode. For a route that is not on the tab bar, `performNavigation` finds no navigation method under that key. The call throws inside the `try`, the cache entry is deleted and the error goes to `fail`, although the caller only passed an unknown `close`.

The code spreads the page options last (src/useRoute.ts:60-63), so a page option wins over a cached value of the same key.
