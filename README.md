# atomic-router, modelled in Dafny

atomic-router is a client-side router built on effector stores and events. A **route** is a
small state machine (`$isOpened`, `$params`, `$query`, driven by `opened`, `updated` and
`closed`). A **route table** binds path patterns to routes. A **history router** listens to a
`history` object. On every location change it reconciles the table: it splits the table into
matching and mismatching bindings, drops from the second list the routes that also match
through another pattern, and calls `opened`, `updated` or `closed` on each route. It also
drives a not-found route, fires `initialized` once, pushes the paths of route navigations and
keeps a query store in step with the URL. Around this core sit `chainRoute`, `querySync`,
`redirect`, `attachPaths` and `createNavigationBlocker`.

The repository keeps several generations of the router side by side. This model has one module
for each:

| module (file) | generation |
|---|---|
| `HistoryRouter` (history_router.dfy) | `src/methods/new-create-history-router.ts`: controls, `serialize`, navigate flag, splice dedup |
| `EffectRouter` (effect_router.dfy) | `src/methods/create-history-router.ts`: `recalculateFx`, `$isOpenedManually`, null-and-filter dedup |
| `ControlsRouter` (controls_router.dfy) | `src/new-create-history-router.ts`: controls-based, null-and-filter dedup |
| `LegacyRouter` (legacy_router.dfy) | `src/create-history-router.ts`: entered/left lists, guards per binding, no dedup |
| `PrototypeRouter` (prototype_router.dfy) | `src/history.ts`: the first prototype |
| `RouterDomain` (router_domain.dfy) | `src/methods/create-router-domain.ts`: the domain that routes register with |

The other modules each model one part:
- `RouterCore` holds what the routers share: the partition loop, both dedups, the lookups and the per-route guards.
- `RouterEvents` holds the router arguments, the outputs, the search parsing, the not-found route and navigate pushes.
- `RouteTable` and `AttachPaths` model route-table normalisation.
- `RouteLifecycle` and `LegacyRoute` model the two `createRoute` generations.
- `ChainParams` and `ChainEngine` model `chainRoute`.
- `QuerySync`, `Redirect` and `NavigationBlocker` model `querySync`, `redirect` and `createNavigationBlocker`.
- `Paths` models the path helpers.
- `Equality` models `equals` and `equalsFilter`.
- `Js` gives JavaScript values, records, truthiness, `??` and loose `==`.
- `Wrappers` gives `Option`.

**Modelling choices**
- Every store is a field.
  - Each router, route, chain, query sync, redirect and blocker is a `class`.
  - Each event is a method.
  - Each method's `ensures` ties the new fields and its outputs to a step function on a state value.
  - That step function is what the lemmas are about.
- Outputs are explicit: route calls, pushes, `routeNotFound`, `initialized` and history writes are a returned sequence.
- Loops of the source stay `while` loops with their invariants, each proved against a function: the partition, the null-and-filter dedup, the splice walk, `remapRouteObjects`, `attachPaths`, the query-sync push and the domain recheck.
- Object identity matters for `chainRoute` and for the `$params` update filter. There, objects are instances of the class `Js.Obj`, and `===` is reference equality.
- The external libraries are function values in the model: path-to-regexp `compile`/`match`, `new URL`, `URLSearchParams`, `qs` and the custom `serialize`. Each property therefore holds for every implementation of them.

**Effector scheduling.** Each `sample`/`.on` is one synchronous step, taken in this order:
1. The store writes an event causes directly land first.
2. The per-route guards then run in table order.
3. Each binding's guard sees the route calls made by earlier bindings. The V4, V3 and V2 routers reset their navigate flag, or the `$isOpenedManually` flags, through `routesMatched`/`routesOpened` before any guard reads them.
4. `opened` versus `updated` for one binding is decided from the state before the call.

The variant files of one helper are modelled by the same members:
- `src/utils/remap-route-objects.ts` is `RouteTable` with an empty message prefix.
- `src/utils/build-path.ts` is `Paths` without a serializer.
- `src/utils/redirect.ts` is `Redirect` with `withReplace` false.
- `src/operators/query-sync.ts` is `QuerySync` over the domain's `$query` instead of `controls.$query`. The two files differ only in that store.
- `src/operators/chain-route.ts` and `src/utils/chain-route.ts` are the `operators` and `utils` cases of `ChainParams` and `ChainEngine`.

**Where the written design and the code differ, the model follows the code.**
- The design says that a route reachable through several matching bindings gets one transition. In the code, each matching binding's guard runs:
  - a route matched twice gets `opened` and then `updated`;
  - `RouterCore.GateMatchedUpdates` and `RouterCore.GateMatchedOpens` state this.
- The design says a route's own navigation must not be re-triggered by the history change it causes. In the V4 and V2 routers, the flag meant for this is reset before it is read, so it never suppresses anything:
  - `HistoryRouter.NavigationFlagNeverSuppresses` shows this;
  - `ControlsRouter.HistoryQueryIsPushedBack` shows that a query from the history is even pushed back.
- The design promises that an alias is never closed while another of its patterns matches. The code breaks this in two generations: see Findings 1 and 6.
- `paramsEqual` is imported from `src/utils/equals.ts`, which exports only `equals`. Both names are `Equality.Equals`.

## Model

| member | source | states |
|---|---|---|
| Equality.EqualsIsRecordEquality | src/utils/equals.ts:1-11 | On records with no `undefined` value, `equals` holds exactly when the two records are equal, in both directions |
| Equality.EqualsSymmetricWhenDefined | src/utils/equals.ts:1-11 | On such records `equals` is symmetric |
| Equality.EqualsReflexive | src/utils/equals.ts:5-10 | Every record `equals` itself |
| Equality.EqualsNotSymmetricWithUndefined | src/utils/equals.ts:5-9 | Scanning only the keys of `a` makes `equals` asymmetric once a value is `undefined`: a concrete pair that is equal one way only |
| Equality.EqualsFilterOnStrings | src/lib/equals-filter.ts:1-14 | On string-valued records the filter rejects an update exactly when it is non-empty and equal to the current value |
| Equality.EqualsFilterEmptyAccepts | src/lib/equals-filter.ts:5-7 | An empty first argument makes the filter accept, whatever the second argument is (under `updateFilter(update, current)` the first argument is the update) |
| Equality.EqualsFilterLooseNumeric | src/lib/equals-filter.ts:8-12 | The comparison is loose: `{id: "1"}` does not replace `{id: 1}` |
| Equality.StrictEqualityIsFilteredOut | src/lib/equals-filter.ts:8-13 | An update that `equals` the non-empty current value is always rejected by the filter |
| Paths.AlnumRun | src/lib/build-path.ts:8 | The leading alphanumeric run of a string: every character before it is a letter or digit and the next one is not |
| Paths.SchemePrefixedIsRegex | src/lib/build-path.ts:8 | The scan-based scheme test agrees, in both directions, with the regular expression `^[a-z0-9]+://` read as an existential |
| Paths.GetComparablePath | src/lib/build-path.ts:7-13 | A scheme-prefixed path is compared as it is; any other path is reduced to the URL pathname followed by the hash |
| Paths.FindFirst | src/lib/build-path.ts:18 | The position found is an occurrence with none before it; no result means no occurrence at all |
| Paths.NormalizeWithoutScheme | src/lib/build-path.ts:17-19 | A pattern without `://` is left unchanged |
| Paths.NormalizeEscapesFirstOnly | src/lib/build-path.ts:17-19 | Only the first `://` receives a backslash; the text before and after it, later `://` included, is unchanged |
| Paths.BuildPath | src/lib/build-path.ts:27-38 | The built URL starts with the compiled pathname and has `?` plus the serialized query after it exactly when the query has a key; the custom serializer wins over the default codec |
| Paths.BuildPathSplits | src/lib/build-path.ts:33-37 | Splitting a built URL at its first `?` gives back the pathname and, exactly when the query has keys, the serialized query |
| Paths.MatchPath | src/lib/build-path.ts:44-53 | The match is a hit exactly when the matcher accepts the escaped pattern on the comparable path; a hit carries the matcher's params and a miss has no params |
| Paths.MatchPathLegacy | src/build-path.ts:27-37 | The earliest matcher tests the raw pattern on the raw path; a miss still carries empty params |
| Paths.MatchPathIgnoresSearch | src/lib/build-path.ts:7-13 | Two paths with the same pathname and hash match alike, so the search string never takes part |
| Paths.MatchPathMissShapes | src/build-path.ts:36 | On a miss the newer helper returns `{matches: false}` and the earliest one `{matches: false, params: {}}` |
| RouteTable.Prefixed | src/lib/remap-route-objects.ts:15-18 | Prefixing keeps the length, and binding i becomes `basePath + path` with its route unchanged |
| RouteTable.Messages | src/lib/remap-route-objects.ts:32-38 | One error message per derived binding, in order, naming its path |
| RouteTable.ExpandRouteObjects | src/lib/remap-route-objects.ts:4-13 | The expansion loop yields the expanded table: one binding per route of an array-valued object, the object itself otherwise |
| RouteTable.Remap | src/lib/remap-route-objects.ts:3-41 | The result is the non-derived prefixed bindings and the log holds one message per derived binding |
| RouteTable.PrefixPaths | src/lib/remap-route-objects.ts:15-18 | The prefixing loop yields every path prefixed with the base |
| RouteTable.SplitDerived | src/lib/remap-route-objects.ts:20-30 | The split loop puts each binding into the derived or the non-derived list, keeping order in both |
| RouteTable.LogDerived | src/lib/remap-route-objects.ts:32-38 | The logging loop writes one message per derived binding |
| RouteTable.ExpandBlocks | src/lib/remap-route-objects.ts:6-13 | The bindings of the i-th object form one block after those of all earlier objects and before those of all later ones |
| RouteTable.ExpandLength | src/lib/remap-route-objects.ts:6-13 | The expanded table has one binding per route of every array-valued object and one per other object |
| RouteTable.NonDerivedMembers | src/lib/remap-route-objects.ts:23-30 | A binding is kept exactly when it is in the input and its route is not derived, dropped exactly when it is derived, and none is lost |
| RouteTable.RemapContents | src/lib/remap-route-objects.ts:3-41 | The kept bindings are exactly the expanded non-derived bindings with the base prefixed, and kept plus logged counts to the expanded size |
| RouteTable.DefaultBaseKeepsPaths | src/lib/remap-route-objects.ts:3 | With the default base `""` every path is kept verbatim |
| RouteTable.SplitAppend | src/lib/remap-route-objects.ts:23-30 | Splitting commutes with concatenation: the kept (and the dropped) bindings of an earlier part precede those of a later part, so both lists keep the input order |
| RouteTable.PrefixedMembers | src/lib/remap-route-objects.ts:15-18 | A binding is in the prefixed table exactly when some input binding has its route and, after the base, its path |
| AttachPaths.RouteInternals.constructor | src/methods/create-route.ts:47-52 | A route's internals `__` start with the empty pattern and keep the parent and the `virtual` flag of the route's configuration |
| AttachPaths.Attach | src/methods/attach-paths.ts:7-25 | The loop writes each route's pattern in place as processing the pairs in order on the old patterns would, and logs one error per pair whose route was created virtual (the intended test, see Findings) |
| AttachPaths.UntouchedKeepPattern | src/methods/attach-paths.ts:10-14 | A route created virtual (under the intended test), or a route no pair names, keeps its pattern |
| AttachPaths.ChainedRouteGetsPatternAsWritten | src/methods/attach-paths.ts:10-23 | As written, a chained route created with `{virtual: true}` is given the attached path and nothing is logged, where the intended test keeps its empty pattern and logs the error |
| AttachPaths.LastPairWins | src/methods/attach-paths.ts:8-24 | The last pair naming a route decides its pattern: the parent's pattern at that moment, a `/`, then the path; a parentless route gets the path alone |
| AttachPaths.RunAppend | src/methods/attach-paths.ts:8 | Processing two lists of pairs one after the other is processing their concatenation |
| AttachPaths.ParentReadAtProcessingTime | src/methods/attach-paths.ts:6 | Pairs are not sorted parent-first: a child processed before its parent is prefixed with the parent's old pattern, after it with the new one |
| RouteLifecycle.Or | src/methods/create-route.ts:115 | `v \|\| d` keeps a truthy value and otherwise gives the default |
| RouteLifecycle.ParamsStoreNext | src/methods/create-route.ts:60-62 | A `$params` write takes the update exactly when it is the same object or `equalsFilter` accepts it, and otherwise keeps the current object |
| RouteLifecycle.OnEnter | src/methods/create-route.ts:132-134 | `opened`/`updated` open the route and store `params \|\| EMPTY_PARAMS` through the filter; only a virtual route takes the payload's query |
| RouteLifecycle.OnClose | src/methods/create-route.ts:136-138 | `closed` closes the route, resets params to the empty constant and, on a virtual route only, the query too |
| RouteLifecycle.VirtualNavigate | src/methods/create-route.ts:107-134 | A virtual route's `navigate` fires `updated` exactly when it is open and `opened` exactly when it is closed, with the payload and `replace \|\| false` |
| RouteLifecycle.OpenResetsQuery | src/methods/create-route.ts:83-89 | `open(params)` opens a virtual route with the empty query and `replace` false, whatever the query held |
| RouteLifecycle.CloseRestoresInitial | src/methods/create-route.ts:59-69 | Closing a virtual route from any state returns it to the state of a new route |
| RouteLifecycle.EqualParamsKeepIdentity | src/methods/create-route.ts:60-62 | Re-entering with non-empty params loosely equal to the current ones keeps the current params object |
| RouteLifecycle.ChangedParamsReplace | src/methods/create-route.ts:60-62 | String params that differ from the current ones always replace the current object |
| RouteLifecycle.DispatchOpenedByDomain | src/methods/create-route.ts:153-163 | `openedByDomain` becomes `updated` exactly when open and `opened` exactly when closed, with the domain's payload; the route ends open |
| RouteLifecycle.DispatchClosedByDomain | src/methods/create-route.ts:165-169 | `closedByDomain` fires `closed` exactly when the route is open; a closed route is left unchanged |
| RouteLifecycle.DomainRouteQuery | src/methods/create-route.ts:63-68 | A domain route's query is the domain's query while open and the empty constant while closed |
| RouteLifecycle.Route.constructor | src/methods/create-route.ts:59-69 | A new route is closed, with the empty params and query constants |
| RouteLifecycle.Route.Navigate | src/methods/create-route.ts:106-151 | A virtual route steps as `VirtualNavigate`; any other route forwards `{params, query, replace \|\| false}` to its domain and changes nothing |
| RouteLifecycle.Route.Open | src/methods/create-route.ts:83-89 | `open` is `navigate` with the empty query constant |
| RouteLifecycle.Route.Enter | src/methods/create-route.ts:132-134 | The `.on([opened, updated])` handlers update the stores as `OnEnter` |
| RouteLifecycle.Route.Close | src/methods/create-route.ts:136-138 | The `.on(closed)` handlers update the stores as `OnClose` |
| RouteLifecycle.Route.OpenedByDomain | src/methods/create-route.ts:153-172 | The domain's open request steps the route as `DispatchOpenedByDomain` |
| RouteLifecycle.Route.ClosedByDomain | src/methods/create-route.ts:165-176 | The domain's close request steps the route as `DispatchClosedByDomain` |
| LegacyRoute.Navigate | src/create-route.ts:25-32 | `navigate` normalises a missing params or query to a new `{}`, fires `updated` exactly when open and `opened` exactly when closed, and leaves the route open with that payload |
| LegacyRoute.Close | src/create-route.ts:52-60 | `closed` closes the route and leaves its params and query as they were |
| LegacyRoute.FilterChanged | src/create-route.ts:76-87 | A filter change to true fires `opened` and opens the route with its params and query kept; false fires `closed` |
| LegacyRoute.FilterCycleKeepsParams | src/create-route.ts:54-60 | Closing and reopening through the filter restores the params and query the route had |
| LegacyRoute.OpenReplacesQuery | src/create-route.ts:34-40 | `open(params)` leaves the route open with a new empty query |
| LegacyRoute.Route.constructor | src/create-route.ts:42-44 | A new route is closed with empty params and query |
| LegacyRoute.Route.NavigateTo | src/create-route.ts:62-69 | The route steps as `Navigate`, with fresh `{}` objects for a missing params or query |
| LegacyRoute.Route.Open | src/create-route.ts:34-40 | `open` leaves the route open with the given params and a fresh empty query, firing `opened` exactly when it was closed |
| LegacyRoute.Route.CloseRoute | src/create-route.ts:71-74 | `closed` is forwarded to `left`, which closes the route as `Close` |
| LegacyRoute.Route.FilterUpdated | src/create-route.ts:76-87 | A filter store change steps the route as `FilterChanged` |
| ChainParams.NormalizeMethods | src/methods/chain-route.ts:79-122 | The bare form gets a new route, a fresh `beforeOpen` event, `openOn` = source opened or closed and an unfired `cancelOn`; an `{effect, mapParams}` object is attached |
| ChainParams.NormalizeOperators | src/operators/chain-route.ts:111-162 | The bare form runs a no-op effect and opens on its `doneData`; a chained route not supplied is a new virtual route |
| ChainParams.NormalizeUtils | src/utils/chain-route.ts:61-93 | The bare form gets a new route, a fresh `beforeOpen` event, `openOn` = source opened or closed and an unfired `cancelOn` |
| ChainParams.BareCancelNeverFires | src/methods/chain-route.ts:91 | In all three bare forms nothing ever fires the cancel clock |
| ChainParams.BareOpenOnIsOpenedOrClosed | src/methods/chain-route.ts:90 | The bare forms of the first and last generation open exactly on the source's `opened` or `closed` |
| ChainParams.OperatorsBareOpenOn | src/operators/chain-route.ts:112-119 | The bare operators form opens exactly when its no-op effect settles |
| ChainParams.EffectDefaults | src/methods/chain-route.ts:103-112 | An effect `beforeOpen` without explicit clocks opens exactly on its success and cancels exactly on its failure |
| ChainParams.ExplicitClocksWin | src/operators/chain-route.ts:138-147 | Explicit `openOn`/`cancelOn` win over an effect's defaults |
| ChainParams.AttachFormWaitsForAttachedEffect | src/methods/chain-route.ts:99-112 | The `{effect, mapParams}` form waits for the attached effect, not the caller's |
| ChainParams.UtilsIgnoresExplicitClocks | src/utils/chain-route.ts:74-82 | In the earliest generation an effect `beforeOpen` discards explicit clocks: only its `doneData` opens the chain |
| ChainParams.UtilsAttachFormIsNotAUnit | src/utils/chain-route.ts:83-92 | In the earliest generation the `{effect, mapParams}` object is used verbatim, not as a unit |
| ChainParams.EventFormClocks | src/methods/chain-route.ts:114-121 | The event form fails in every generation exactly when `openOn` is missing, and a missing `cancelOn` never fires |
| ChainEngine.OnRouteOpened | src/methods/chain-route.ts:174-175 | The buffer takes the payload's params and query objects; an undefined one leaves its half unchanged |
| ChainEngine.OnOpenOn | src/methods/chain-route.ts:177-185 | `openOn` navigates the chained route with the buffered objects exactly when the source's current params and query are those very objects |
| ChainEngine.Chain.Private | src/methods/chain-route.ts:157-158 | The buffer starts as two private `{}` objects, which it is also reset to |
| ChainEngine.Chain.Shared | src/operators/chain-route.ts:215-216 | The buffer starts as the shared empty constants, which it is also reset to |
| ChainEngine.Chain.RouteOpened | src/methods/chain-route.ts:166-175 | The source's `opened`/`updated` calls `beforeOpen` with the payload and buffers it |
| ChainEngine.Chain.OpenOn | src/methods/chain-route.ts:159-185 | `openOn` emits a chained navigate with the buffer exactly when the source's `$params` and `$query` are `===` to the buffer |
| ChainEngine.Chain.Abort | src/methods/chain-route.ts:186-194 | The source's `closed` or `cancelOn` resets the buffer and closes the chained route |
| ChainEngine.OpenedThenOpenOnNavigates | src/methods/chain-route.ts:166-185 | After the source opens with params its store accepts, `openOn` navigates the chained route with exactly that payload |
| ChainEngine.FilteredUpdateBlocksOpenOn | src/methods/create-route.ts:60-62 | An update the source's `equalsFilter` rejects leaves the source holding its old object while the buffer takes the new one, so `openOn` no longer fires |
| ChainEngine.SharedBufferLateOpenOnPasses | src/operators/chain-route.ts:249-255 | As written in the operators generation: after the source closed and the chain aborted, both hold the empty constants, so a late `openOn` still opens the chained route |
| ChainEngine.SharedBufferOpenOnBeforeOpen | src/operators/chain-route.ts:215-223 | As written in the operators generation: an `openOn` before the source ever opened already passes the identity test |
| ChainEngine.PrivateBufferLateOpenOnBlocked | src/methods/chain-route.ts:186-194 | With a private reset buffer a late `openOn` after the source closed never opens the chained route |
| QuerySync.ResolveCleanup | src/methods/query-sync.ts:24-28 | An absent option gives the default strategy, `true` all, `false` none, and an object overrides the default key by key |
| QuerySync.StartQuery | src/methods/query-sync.ts:40-49 | The start query holds only the preserved keys present in the query under `irrelevant`, and a copy of the whole query otherwise |
| QuerySync.Overlay | src/methods/query-sync.ts:50-52 | Every field value is written over the start query |
| QuerySync.RemoveEmpty | src/methods/query-sync.ts:53-59 | Exactly the falsy, non-preserved field keys are deleted |
| QuerySync.Push | src/methods/query-sync.ts:39-61 | The push function computes the reference pushed query |
| QuerySync.PushWritesFields | src/methods/query-sync.ts:50-52 | Every field that survives cleanup is in the pushed query with its value |
| QuerySync.PushDropsEmptyFields | src/methods/query-sync.ts:53-59 | Under `empty`, a falsy field that is not preserved is absent from the pushed query |
| QuerySync.PushKeepsOtherKeys | src/methods/query-sync.ts:40-59 | A key that is not a field is in the pushed query exactly when it is in the current query and either `irrelevant` is off or the key is preserved, and it keeps its value |
| QuerySync.PullField | src/methods/query-sync.ts:68-70 | Pull gives `query[k]`, or the default state when that is null or undefined |
| QuerySync.Pull | src/methods/query-sync.ts:65-71 | Pull sets every field, and only the fields |
| QuerySync.PushThenPull | src/methods/query-sync.ts:35-71 | Pushing fields that are not null or undefined and not removed, then pulling, gives the fields back |
| QuerySync.RemovedFieldPullsDefault | src/methods/query-sync.ts:53-70 | A field removed as empty comes back as its default state |
| QuerySync.NoneOverlays | src/methods/query-sync.ts:85-89 | The `none` strategy keeps the whole query and writes the fields over it |
| QuerySync.Sync.constructor | src/methods/query-sync.ts:20-28 | A sync resolves its cleanup strategy once, and the fields start at their defaults |
| QuerySync.Sync.Clock | src/methods/query-sync.ts:35-63 | On the clock, while the guard route is open or there is none, the query becomes the pushed query, unless the target store drops it as `equals` to its value |
| QuerySync.Sync.QueryChanged | src/methods/query-sync.ts:30-33 | A query change is pulled into the fields while the guard is open, and ignored otherwise |
| Redirect.ReadObj | src/methods/redirect.ts:53-55 | A function-valued `params`/`query` is applied to the clock value; a store gives its current value and a plain value passes through |
| Redirect.ResolveReplace | src/methods/redirect.ts:48 | A missing or falsy plain `replace` becomes `false`; a store or function is kept as it is |
| Redirect.ReplaceAsWritten | src/methods/redirect.ts:56 | As written, a function-valued `replace` reaches the payload as the function itself |
| Redirect.ReplaceIntended | src/methods/redirect.ts:53-57 | Intended: a function-valued `replace` is called with the clock value, like `params` and `query`; other forms read as written |
| Redirect.ObjStore.constructor | src/methods/redirect.ts:63-65 | A store created from a plain object holds it |
| Redirect.ValueStore.constructor | src/methods/redirect.ts:63-65 | A store created from a plain value holds it |
| Redirect.Redirect.constructor | src/methods/redirect.ts:46-48 | Missing `params`/`query` become a store of a fresh `{}`, and `replace` is resolved |
| Redirect.Redirect.Payload | src/methods/redirect.ts:50-57 | The payload carries the resolved params and query, the `replace` reading selected, and no `replace` in the older version |
| Redirect.Redirect.Fire | src/methods/redirect.ts:50-59 | Each clock trigger calls the route's `navigate` once with the payload read before the call |
| Redirect.ReplaceFunctionNotCalled | src/methods/redirect.ts:48 | As written, `replace: () => false` still makes the navigation a replace, and the payload is never the function's result |
| Redirect.ReplaceFunctionCalled | src/methods/redirect.ts:53-57 | Intended: the navigation replaces exactly when the function's result is truthy |
| Redirect.PlainReplaceTruthiness | src/methods/redirect.ts:48 | With a plain value both readings agree, and the navigation replaces exactly when the value is given and truthy |
| Redirect.FixedParamsStable | src/methods/redirect.ts:46 | Plain `params` are the same object on every firing |
| NavigationBlocker.Block | src/methods/create-navigation-blocker.ts:62-79 | `block` is ignored while blocked; otherwise the message is stored, the history is asked to block, and the function it returns becomes the unblocker |
| NavigationBlocker.Unblock | src/methods/create-navigation-blocker.ts:70-74 | `unblock` is ignored unless blocked; otherwise the unblock function is called and the unblocker reset to null |
| NavigationBlocker.TransitionBlocked | src/methods/create-navigation-blocker.ts:39-60 | A blocked transition is stored and confirmation asked; only a `true` answer unblocks and retries it, anything else fails without a retry |
| NavigationBlocker.RetryOnlyAfterConfirm | src/methods/create-navigation-blocker.ts:87-92 | A transition is retried only when it is the one just reported, the user confirmed and the blocker was blocked |
| NavigationBlocker.BlockThenUnblock | src/methods/create-navigation-blocker.ts:62-98 | `block` then `unblock` ends unblocked, having called the function the history returned |
| NavigationBlocker.BlockIdempotent | src/methods/create-navigation-blocker.ts:62-68 | A second `block` while blocked changes nothing, not even the message |
| NavigationBlocker.ConfirmShowsBlockMessage | src/methods/create-navigation-blocker.ts:23-45 | The confirmation shows the message of the `block` call that blocked |
| NavigationBlocker.UnblockEndsUnblocked | src/methods/create-navigation-blocker.ts:94-98 | `unblock` always ends with the unblocker null and the message kept |
| NavigationBlocker.Blocker.constructor | src/methods/create-navigation-blocker.ts:21-23 | A new blocker is unblocked, without a transition, with the message "Are you sure?" |
| NavigationBlocker.Blocker.BlockRequested | src/methods/create-navigation-blocker.ts:62-79 | The stores step as `Block` |
| NavigationBlocker.Blocker.UnblockRequested | src/methods/create-navigation-blocker.ts:70-98 | The stores step as `Unblock` |
| NavigationBlocker.Blocker.NavigationBlocked | src/methods/create-navigation-blocker.ts:82-98 | The stores step as `TransitionBlocked` |
| RouterEvents.NotFoundStep | src/methods/new-create-history-router.ts:320-350 | With nothing matched the not-found route gets `updated` if open and `opened` if closed, with params `{}` and the router's query; with a match an open one is closed and a closed one left alone; without a not-found route nothing happens |
| RouterEvents.NavigatePushesPerBinding | src/methods/new-create-history-router.ts:211-246 | A route's `navigate` pushes once per binding of the route, each push going to a path that binding builds and carrying the payload and `replace`; there is a push exactly when the route has a binding |
| RouterCore.ActualPath | src/methods/new-create-history-router.ts:259-262 | A pattern containing `#` is matched against path plus hash, every other pattern against the path alone |
| RouterCore.Partition | src/methods/new-create-history-router.ts:255-274 | The loop over the table builds exactly the matching and mismatching lists |
| RouterCore.PartitionExact | src/methods/new-create-history-router.ts:258-274 | Every binding lands in exactly one list, the one its match result selects, with its params and the query, and the lists hold nothing else |
| RouterCore.PartitionIgnoresQuery | src/methods/new-create-history-router.ts:259-266 | Locations whose actual paths agree give the same lists up to the query: the query never takes part in matching |
| RouterCore.WithoutRoutes | src/new-create-history-router.ts:260-272 | Removing the entries of some routes never lengthens a list |
| RouterCore.WithoutRoutesMembers | src/new-create-history-router.ts:260-272 | The filter keeps exactly the entries whose route is not among the removed routes |
| RouterCore.AnyWithRoute | src/new-create-history-router.ts:264-266 | `some(obj => obj.routeObj.route === route)` holds exactly when the route has an entry in the list |
| RouterCore.NullAndFilter | src/new-create-history-router.ts:260-272 | Nulling every closed entry whose route is also opened, then filtering, leaves exactly the closed entries of routes that did not match |
| RouterCore.SpliceDedup | src/methods/new-create-history-router.ts:276-290 | The splice loop as written computes the splice walk, which steps over the element after each removed one |
| RouterCore.SpliceExactWhenIsolated | src/methods/new-create-history-router.ts:278-286 | Without two adjacent stale entries the splice walk removes exactly the stale ones |
| RouterCore.SpliceKeepsLive | src/methods/new-create-history-router.ts:278-286 | The splice walk never drops an entry of an unmatched route and adds nothing |
| RouterCore.FindRoute | src/methods/new-create-history-router.ts:442-455 | `find` by route gives the first entry of that route, and nothing exactly when the route has no entry |
| RouterCore.FindBinding | src/create-history-router.ts:189-193 | The lookup by binding gives an entry of that very binding, and nothing exactly when the binding has none |
| RouterCore.React | src/methods/create-route.ts:132-176 | A route opened or updated ends open and a closed one ends closed; a legacy route keeps params and query on close, and a domain route shows the domain query while open |
| RouterCore.Lookup | src/methods/new-create-history-router.ts:164-169 | A binding's guard finds an entry of its route, or of itself for binding lookup, exactly when the list has one |
| RouterCore.MatchedNotice | src/methods/new-create-history-router.ts:170-202 | `opened` exactly when the route is closed and opening is not blocked; `updated` exactly when it is open and the rule allows it (always, or when params or query differ under `paramsEqual`) |
| RouterCore.GateMatchedScope | src/methods/new-create-history-router.ts:163-209 | The matching pass calls only `opened` and `updated`, only on routes of the table, and leaves other routes alone |
| RouterCore.GateMatchedOpens | src/methods/new-create-history-router.ts:196-202 | `opened` reaches only routes closed before the pass, never while opening is blocked, and always with the params and query of a listed entry |
| RouterCore.GateMatchedPayloads | src/methods/new-create-history-router.ts:185-202 | Every call of the matching pass carries the params and query of a listed entry |
| RouterCore.GateMatchedUpdates | src/methods/new-create-history-router.ts:185-194 | `updated` reaches only routes open before the pass or opened earlier in it |
| RouterCore.GateMismatchedEdges | src/methods/new-create-history-router.ts:204-208 | `closed` reaches only routes of the table that were open, each at most once, and opens nothing |
| RouterCore.GateOnEmpty | src/methods/new-create-history-router.ts:304-314 | An empty list calls nothing and changes nothing |
| RouterCore.GateMatchedKeepsOpen | src/methods/new-create-history-router.ts:170-202 | The matching pass never closes a route |
| RouterCore.GateMatchedOnlyOpens | src/history.ts:104-114 | Without an `updated` guard the matching pass only calls `opened` |
| RouterCore.GateMatchedOpensFound | src/methods/new-create-history-router.ts:170-202 | Unblocked, the matching pass leaves open the route of every binding whose guard finds an entry |
| RouterCore.GateMatchedOpensAll | src/methods/new-create-history-router.ts:170-202 | Looked up by route and unblocked, the matching pass leaves every listed route of the table open |
| RouterCore.GateMatchedOnlyListed | src/methods/new-create-history-router.ts:164-166 | The matching pass calls and changes only the routes of its list |
| RouterCore.GateMismatchedOnlyListed | src/methods/new-create-history-router.ts:167-169 | The mismatching pass calls and changes only the routes of its list |
| RouterCore.GateMismatchedClosesFound | src/methods/new-create-history-router.ts:179-208 | The mismatching pass leaves closed the route of every binding whose guard finds an entry |
| RouterCore.ReconcileSyncsRoutes | src/new-create-history-router.ts:242-298 | With the filter form of the dedup and either lookup, after both passes a route of the table is open exactly when one of its bindings matched |
| RouterCore.RouteIds | src/methods/new-create-history-router.ts:316-318 | `$activeRoutes` lists the route of each matching entry, in order |
| HistoryRouter.ControlsPushPath | src/methods/new-create-history-router.ts:393-401 | Without a serializer the pushed path always carries `?` and the URLSearchParams text; with one it is the bare path exactly when the serializer writes the empty string, and `path?qs` otherwise |
| HistoryRouter.RouteNotFoundIffNothingMatched | src/methods/new-create-history-router.ts:321-325 | `routeNotFound` fires exactly when the matching list is empty |
| HistoryRouter.InitializedOnce | src/methods/new-create-history-router.ts:406-419 | After a recalculation the first check has passed; `initialized` fires exactly when it had not, carrying the active routes, path and query the stores hold afterwards |
| HistoryRouter.ActiveRoutesAreMatches | src/methods/new-create-history-router.ts:316-318 | `$activeRoutes` holds one route per matching binding, in table order, each the route of a binding whose pattern matched |
| HistoryRouter.NavigationFlagNeverSuppresses | src/methods/new-create-history-router.ts:248 | The route calls of a recalculation do not depend on the navigate flag, because `routesMatched`/`routesMismatched` reset it before any guard reads it |
| HistoryRouter.RereadIsQuiet | src/methods/new-create-history-router.ts:129-138 | Reading the same history location a second time fires nothing and changes no store |
| HistoryRouter.RecalculationClearsFlag | src/methods/new-create-history-router.ts:248 | With a non-empty table every recalculation ends with the navigate flag clear and `$query` unchanged |
| HistoryRouter.HistoryQueryIsNotEchoed | src/methods/new-create-history-router.ts:366-403 | A query read from a new history location reaches `controls.$query` in a form that does not push it back to the history |
| HistoryRouter.SpliceLeavesStaleAlias | src/methods/new-create-history-router.ts:276-286 | For one route bound three times whose first pattern alone matches, the splice loop leaves the third binding in the mismatching list |
| HistoryRouter.ReconcileClosesBothSided | src/methods/new-create-history-router.ts:163-209 | A route that is in both lists of a recalculation receives `closed` and ends closed |
| HistoryRouter.SpliceClosesMatchedRoute | src/methods/new-create-history-router.ts:276-293 | As written, the route of that three-binding table is closed although one of its patterns matched |
| HistoryRouter.IntendedReconcileSyncsRoutes | src/methods/new-create-history-router.ts:276-290 | With the dedup the comment describes, every route of the table ends open exactly when one of its bindings matched |
| HistoryRouter.Router.constructor | src/methods/new-create-history-router.ts:69-85 | The stores start empty and closed: `$path` is empty, the queries and active routes are empty and both flags are false |
| HistoryRouter.Router.Recalculated | src/methods/new-create-history-router.ts:302-350 | `recalculated` changes the stores and emits exactly what the recalculation step states |
| HistoryRouter.Router.HistoryUpdated | src/methods/new-create-history-router.ts:148-160 | A history change updates `$path` and `$query` and recalculates as the history step states, with the corrected dedup (see Findings) |
| HistoryRouter.Router.SetHistory | src/methods/new-create-history-router.ts:114-146 | `setHistory` resets the first-check flag and, unless hydrating, reads the new location |
| HistoryRouter.NavigatePushesEachBinding | src/methods/new-create-history-router.ts:211-246 | Every push of a navigation carries the payload and `replace` by truthiness and goes to `buildPath` of one of the route's bindings with no serializer; there is a push exactly when the route is in the table |
| HistoryRouter.NavigateSetsFlag | src/methods/new-create-history-router.ts:226 | A navigation sets `$isRouteNavigateInProgress` exactly when the route has a binding, and changes no other store |
| HistoryRouter.Router.RouteNavigated | src/methods/new-create-history-router.ts:211-246 | A route navigation steps as the navigate step: the navigate flag and one serializer-less built path per binding |
| HistoryRouter.Router.ControlsQueryChanged | src/methods/new-create-history-router.ts:375-403 | A new `controls.$query` is stored and pushed exactly when a navigation is in flight or it differs from the history's query or from `$query` |
| HistoryRouter.Router.QueryChanged | src/methods/new-create-history-router.ts:366-373 | A change of `$query` is copied to `controls.$query` when they differ |
| EffectRouter.RecalculationSyncsRoutes | src/methods/create-history-router.ts:171-210 | After a recalculation every route of the table is open exactly when one of its bindings matched the location |
| EffectRouter.NotFoundExactlyWhenNothingMatches | src/methods/create-history-router.ts:329-362 | `routeNotFound` fires exactly when nothing matched, and a configured not-found route ends open exactly then |
| EffectRouter.InitializedOnFirstCheck | src/methods/create-history-router.ts:415-423 | After a recalculation the first check has passed; `initialized` fires exactly when it had not, carrying the stores as they are afterwards |
| EffectRouter.TableRouteOpenIffMatched | src/methods/create-history-router.ts:216-218 | Read route by route: a route of the table is open exactly when it is among the matched routes |
| EffectRouter.RecheckIsStable | src/methods/create-history-router.ts:272-323 | Rechecking the same location a second time calls only `updated` on routes, never `opened` or `closed` |
| EffectRouter.NavigatePushesEachBinding | src/methods/create-history-router.ts:143-158 | Every push of a route navigation goes to a path one binding of the route builds, as `replace` exactly when the flag is truthy |
| EffectRouter.Router.constructor | src/methods/create-history-router.ts:114-124 | The stores start empty, with no route open and the first check not passed |
| EffectRouter.Router.Recalculated | src/methods/create-history-router.ts:212-323 | `recalculateFx.done` writes the stores and calls the routes exactly as the recalculation step states |
| EffectRouter.Router.Recheck | src/methods/create-history-router.ts:171-210 | A recheck splits the table against the location, deduplicates and recalculates as the recheck step states |
| EffectRouter.Router.SetHistory | src/methods/create-history-router.ts:401-415 | `setHistory` resets the first-check flag and, unless hydrating, rechecks the new location |
| EffectRouter.Router.RouteNavigated | src/methods/create-history-router.ts:240-255 | A route navigation flags its bindings as opened manually and pushes one built path per binding |
| ControlsRouter.ControlsPushPath | src/new-create-history-router.ts:360-368 | A `URLSearchParams` object is always truthy, so a controls push goes to the path, a `?` and the written query, whatever the query holds |
| ControlsRouter.RecalculationSyncsRoutes | src/new-create-history-router.ts:233-302 | After a recalculation every route of the table is open exactly when one of its bindings matched the location |
| ControlsRouter.NotFoundClosedWhenNothingMatches | src/new-create-history-router.ts:328-332 | As written, a recalculation that matches nothing still ends with `closed` on the not-found route, which is left closed although `routeNotFound` fired; this ending depends on the effector order assumed above |
| ControlsRouter.NotFoundExactlyWhenNothingMatches | src/new-create-history-router.ts:305-333 | With the close sample limited to a non-empty match, `routeNotFound` fires exactly when nothing matched and the not-found route ends open exactly then |
| ControlsRouter.InitializedOnFirstCheck | src/new-create-history-router.ts:373-386 | After a recalculation the first check has passed; `initialized` fires exactly when it had not, carrying the stores as they are afterwards |
| ControlsRouter.NavigateOpensAndPushes | src/new-create-history-router.ts:196-227 | A navigation leaves the route open with the given params and query, and every later output is a plain push of a path one binding of the route builds, there being one exactly when the route has a binding |
| ControlsRouter.HistoryQueryIsPushedBack | src/new-create-history-router.ts:349-370 | A query changed by the history is pushed back as `path?query`, because the navigate flag is clear after every recalculation over a non-empty table |
| ControlsRouter.Router.constructor | src/new-create-history-router.ts:71-81 | The stores start empty, with no route open and both flags false |
| ControlsRouter.Router.Recalculated | src/new-create-history-router.ts:284-333 | `recalculated` writes the stores and calls the routes as the corrected recalculation step states |
| ControlsRouter.Router.HistoryUpdated | src/new-create-history-router.ts:127-145 | A history change reads the location and recalculates as the history step states |
| ControlsRouter.Router.SetHistory | src/new-create-history-router.ts:111-125 | `setHistory` resets the first-check flag and, unless hydrating, reads the new location |
| ControlsRouter.Router.RouteNavigated | src/new-create-history-router.ts:196-229 | A route navigation opens or updates the route, sets the navigate flag and pushes each binding's path |
| ControlsRouter.Router.QueryChanged | src/new-create-history-router.ts:349-370 | A change of `$query` reaches `controls.$query` and is pushed when no route navigation is in flight |
| LegacyRouter.AliasClosedOnPartialMatch | src/create-history-router.ts:173-219 | As written, a route bound to two patterns of which only one matches is entered and then left: it ends closed although it is among the entered routes |
| LegacyRouter.RecalculationSyncsRoutes | src/create-history-router.ts:126-219 | With the left list cleared of entered routes, every route of the table ends open exactly when one of its patterns matched |
| LegacyRouter.ActiveRoutesAreHits | src/create-history-router.ts:152-154 | `$activeRoutes` holds exactly the routes of the bindings whose pattern matched the path |
| LegacyRouter.NotFoundExactlyWhenNothingMatches | src/create-history-router.ts:166-171 | `routeNotFound` fires exactly when no binding matched, and then before any route call |
| LegacyRouter.NavigateOpensAndPushes | src/create-history-router.ts:99-114 | A navigation leaves the route open with the given params and query, and the outputs after the route's own call are plain pushes of paths the route's bindings build, there being one exactly when the route has a binding |
| LegacyRouter.Router.constructor | src/create-history-router.ts:76-78 | The stores start empty with no route open |
| LegacyRouter.Router.Recalculated | src/create-history-router.ts:117-219 | `recalculateFx` and its reactions change the stores and call the routes as the corrected recalculation step states |
| LegacyRouter.Router.Recheck | src/create-history-router.ts:224-246 | A recheck reads the pathname and the `URLSearchParams` query, without the hash, and recalculates |
| LegacyRouter.Router.Pushed | src/create-history-router.ts:161-164 | A finished push recalculates against the pushed path and query |
| LegacyRouter.Router.SetHistory | src/create-history-router.ts:266-273 | `setHistory` rechecks the new location unless hydrating |
| LegacyRouter.Router.RouteNavigated | src/create-history-router.ts:176-186 | A route navigation opens or updates the route and pushes one built path per binding |
| PrototypeRouter.SearchBody | src/history.ts:127-131 | `search.slice(1)` is the search string without its first character, and the empty string stays empty |
| PrototypeRouter.RecheckFiresOnlyEdges | src/history.ts:104-124 | A recheck calls only `opened` and `left` on routes, never `updated` |
| PrototypeRouter.RecheckSyncsRoutes | src/history.ts:65-124 | With one binding per route, a recheck leaves every route of the table open exactly when its pattern matched the path |
| PrototypeRouter.HistoryRecheckSkipsMark | src/history.ts:127-133 | A recheck of the history parses the query from the search past its leading `?` and takes no hash |
| PrototypeRouter.NavigateOpensAndPushes | src/history.ts:56-62 | A navigation leaves the route open, and the outputs after its own call are plain pushes of paths the route's bindings build, there being one exactly when the route has a binding |
| PrototypeRouter.Router.constructor | src/history.ts:135-137 | Creating the router rechecks the history's current location once |
| PrototypeRouter.Router.Rechecked | src/history.ts:65-124 | `recheckFx` splits the table and calls the routes as the recheck step states |
| PrototypeRouter.Router.HistoryChanged | src/history.ts:127-135 | The history listener rechecks the current pathname and parsed query |
| PrototypeRouter.Router.Pushed | src/history.ts:83-91 | A finished push rechecks against the pushed path and query |
| PrototypeRouter.Router.RouteNavigated | src/history.ts:96-102 | A route navigation opens or updates the route and pushes one built path per binding |
| RouterDomain.InternalBase | src/methods/create-router-domain.ts:28 | The base the domain matches and builds with is the configured one, or the empty string |
| RouterDomain.ExposedBase | src/methods/create-router-domain.ts:239 | The `base` the domain exposes is the configured one, or `/` |
| RouterDomain.DefaultBasesDiffer | src/methods/create-router-domain.ts:28-239 | The base used and the base exposed agree exactly when a base is configured |
| RouterDomain.RouteCalls | src/methods/create-router-domain.ts:60-73 | `updateRoutesStates` tells every closed route first, in order, then every opened route with its params and the one query |
| RouterDomain.RecheckPartition | src/methods/create-router-domain.ts:194-206 | Every registered route lands in exactly one list; it is opened, with the matched params, exactly when `base + pathPattern` matches pathname plus hash |
| RouterDomain.RecheckIgnoresSearch | src/methods/create-router-domain.ts:195-199 | Locations with the same pathname and hash open and close the same routes: the search string only feeds the query |
| RouterDomain.RecheckCallsShape | src/methods/create-router-domain.ts:185-214 | A recheck makes one call per registered route, every close before every open, and every open carries the query read from the search string |
| RouterDomain.QueryPart | src/methods/create-router-domain.ts:174-175 | A navigate path ends in `?qs` exactly when the serialized query is non-empty, and in nothing otherwise |
| RouterDomain.CompileDataAsWritten | src/methods/create-router-domain.ts:173 | `compile(pattern)({ params })` hands the compiler an object whose only key is `params` |
| RouterDomain.NamedParameterIsUndefined | src/methods/create-router-domain.ts:173 | As written, a pattern's named parameter `:postId` reads `undefined` although the params hold `"1"`; the compiler is a parameter here, and path-to-regexp itself throws on a missing required parameter |
| RouterDomain.NavigatePath | src/methods/create-router-domain.ts:171-179 | With the params passed to the compiler directly, the path is the base, then the compiled pattern, then the query part |
| RouterDomain.NavigateDoublesBase | src/methods/create-router-domain.ts:77-81 | As written, every navigation's history write starts with the base twice, once from the path and once from `modifyHistory` |
| RouterDomain.NavigateWritesBaseOnce | src/methods/create-router-domain.ts:169-182 | With the base added once, a navigation writes base, compiled params and `?qs` exactly when the query is non-empty, replacing exactly when `replace` is truthy |
| RouterDomain.QueryWriteBack | src/methods/create-router-domain.ts:115-125 | A query write-back pushes pathname, `?` and the query, then the hash; the `?` is always present because a `URLSearchParams` object is truthy |
| RouterDomain.Domain.constructor | src/methods/create-router-domain.ts:28-47 | A new domain has its base, no routes, no history, the empty query and the stub unsubscribe callback |
| RouterDomain.Domain.Register | src/methods/create-route.ts:182 | A route appends a reference to its internals to the domain's routes when it is created, and nothing else changes |
| RouterDomain.Domain.Registry | src/methods/create-router-domain.ts:194-195 | The registered routes with the patterns their internals hold at the moment of reading |
| RouterDomain.CreateAttachRecheck | src/methods/create-router-domain.ts:194-206 | A route registered at creation with the pattern `""` and given a path by `attachPaths` afterwards is matched by the next recheck with the attached path |
| RouterDomain.Domain.Split | src/methods/create-router-domain.ts:189-206 | The recheck loop, reading each route's pattern from its internals at that moment, yields exactly the opened and closed lists of the partition |
| RouterDomain.Domain.UpdateRoutesStates | src/methods/create-router-domain.ts:49-75 | The two loops of `updateRoutesStates` make exactly the calls of the route-call list |
| RouterDomain.Domain.Recheck | src/methods/create-router-domain.ts:184-235 | A recheck makes the recheck calls, stores the read query, does not write it back and leaves routes, history and callback unchanged |
| RouterDomain.Domain.SetHistory | src/methods/create-router-domain.ts:127-166 | A new history unsubscribes the previous listener, keeps the new one, initializes and rechecks the new location |
| RouterDomain.Domain.HistoryChanged | src/methods/create-router-domain.ts:158-161 | A history change rechecks the new location and stores its query |
| RouterDomain.Domain.QueryWritten | src/methods/create-router-domain.ts:216-230 | A `$query` write stores the query and, with a history and outside a recheck, writes it back; nothing else changes |

## Left out

- Object identity in the routers: `HistoryRouter`, `EffectRouter`, `ControlsRouter`, `LegacyRouter`, `PrototypeRouter` and `RouterDomain` work on value records. Identity is modelled only where a property depends on it (`chainRoute`, `$params`'s update filter).
- The effector scheduler: queue priorities, `fork`/scope isolation and scope serialisation are framework behaviour. Each reaction is one synchronous step in the order described above.
- Hydration: the `hydrate` flag is modelled only as "skip the check when a history is set".
- History I/O is not modelled: `historyPushFx`, `historyBackFx`, `historyForwardFx`, `history.listen`, `scopeBind` and the subscription bookkeeping. A push is an output value. The "no history" error of the push effects is not modelled.
- `back`, `forward` and `go`: they are forwarded unchanged to the history, so they are left out.
- `RouterDomain`: the domain's `$activeRoutes` store is declared but never written in the source, so it is not a field.
- `RouterDomain.Domain.SetHistory`: `initialized` is placed before the route calls. In the source, `updateRoutesStates` is an effect whose calls may land later.
- `RouterDomain.Domain.QueryWritten`: treats every write of `$query` as a change, so it does not model effector skipping a write of the same object.
- `PrototypeRouter`:
  - it has no not-found route;
  - `qs.parse` is a parameter with no properties;
  - `routesEntered.watch(console.log)` is left out.
- `LegacyRouter.Router.Pushed`: the pushed path includes the query string, as in the source. The recheck that the history listener causes afterwards is a separate step, `LegacyRouter.Router.Recheck`.
- The not-found route may also appear in the table. The model keeps it as a separate view and does not relate the two.
- Missing `navigate` params and query are normalised to `{}` only by the first-generation route (src/create-route.ts:25-32, `LegacyRoute.Navigate`), whose routers take them normalised.
- HistoryRouter.NavigateStep and EffectRouter.NavigateStep: a route of src/methods/create-route.ts forwards its `navigate` payload unchanged (src/methods/create-route.ts:80-82), so a payload without `query` makes `buildPath` call `Object.keys(undefined)` (src/utils/build-path.ts:32) and throw a TypeError. The model's payload always holds a query record, so this error is not modelled.
- RouteTable.Remap: reads `route.settings.derived`. Only routes from src/create-route.ts (line 101) have `settings`; a route from src/methods/create-route.ts (object at lines 90-104), the factory src/index.ts exports, has none, so src/methods/create-history-router.ts:71 and src/lib/remap-route-objects.ts:25 throw a TypeError on it. The model gives every route a `derived` flag and does not model that throw.
- HistoryRouter.Router.HistoryUpdated, ControlsRouter.Router.HistoryUpdated, LegacyRouter.Router.Recalculated: the classes run the corrected definitions of the Findings rows on the splice dedup, the not-found route and the alias dedup, in that order, not the code as written; the as-written behaviour is stated by the as-written members of those rows.
- RouterDomain.Domain.Split: matches with the same `matcher` parameter as the routers; the `{decode: decodeURIComponent}` option it passes (src/methods/create-router-domain.ts:197-199) is not told apart.
- AttachPaths.Attach: the class follows the intended virtual test of the Findings row; the as-written reading is `AttachPaths.Write` alone, stated by `AttachPaths.ChainedRouteGetsPatternAsWritten`.
- `RouteLifecycle.DomainRouteQuery`: the root domain's `$query` is never written by the history routers, so a domain route's query while open is a configuration constant.
- Clock creation and the return values of `redirect` and `chainRoute` are wiring. The model starts from the created units.
- `console.error`/`console.log`: kept as a returned log sequence (`RouteTable.LogDerived`, `AttachPaths.Attach`) or left out (scope errors).
- `Equality.EqualsFilterLooseNumeric`: loose `==` has no floating point, hexadecimal or whitespace trimming. Numbers are integers written in decimal.
- The wiring files with no logic of their own are left out: `src/operators/history.ts`, `src/operators/block-navigation.ts`, `src/methods/create-router-controls.ts`, `src/create-router-controls.ts`, `src/methods/is-route.ts`, `src/misc/is-route.ts` and `src/index.ts`. `isRoute` is a flag (`hasNotFound`).
- Asynchronous preconditions, `window.confirm` and `history.block` are foreign. Their completions are incoming events (`ChainEngine.Chain.OpenOn`, `NavigationBlocker.Blocker.NavigationBlocked`).

## Findings

| source | as written | input that shows it | evidently intended | confidence | as-written member | corrected member |
|---|---|---|---|---|---|---|
| src/methods/new-create-history-router.ts:276-286 | `splice` inside `forEach` over the mismatching list skips the element after each removed one | a route bound to three patterns where only the first matches: the third binding stays in the mismatching list, so the route gets `closed` after `opened` | remove every mismatching binding whose route also matches, as the comment says | high, not executed | HistoryRouter.SpliceClosesMatchedRoute | HistoryRouter.IntendedReconcileSyncsRoutes |
| src/operators/chain-route.ts:215-216 | the chain's buffer starts and resets to the shared `EMPTY_PARAMS`/`EMPTY_QUERY`, which a closed source route also holds | source route closed or aborted, then `openOn` fires: the identity test passes and the chained route is navigated | never open the chained route through a stale or reset buffer, as the earlier generation ensures with private objects | high, not executed | ChainEngine.SharedBufferLateOpenOnPasses | ChainEngine.PrivateBufferLateOpenOnBlocked |
| src/methods/redirect.ts:48-57 | a function given as `replace` is put in a store and forwarded without being called | `replace: () => false` navigates with a truthy function, so the history entry is replaced; test/redirect.test.ts:238-257 expects `true` from `() => true` | call a function-valued `replace` with the clock value, as `params` and `query` are | high, not executed | Redirect.ReplaceFunctionNotCalled | Redirect.ReplaceFunctionCalled |
| src/methods/create-router-domain.ts:175 | the navigate path already starts with `base`, and `modifyHistory` (line 80) prefixes `base` again | base `/app`, pattern `/posts`: the history receives `/app/app/posts` | write the base once | high, not executed | RouterDomain.NavigateDoublesBase | RouterDomain.NavigateWritesBaseOnce |
| src/new-create-history-router.ts:328-332 | the not-found route's `closed` sample is clocked by every recalculation, `true` or `false`, and filtered only on `$isOpened` | a location nothing matches, with the not-found route open or just opened: it receives `closed` right after `opened`/`updated` | close it only when something matched, as the later generation does | high, not executed | ControlsRouter.NotFoundClosedWhenNothingMatches | ControlsRouter.NotFoundExactlyWhenNothingMatches |
| src/create-history-router.ts:188-219 | no alias dedup: a route bound to two patterns gets its `left` guard from the binding that missed | route bound to `/a` and `/b`, location `/a`: the route is opened by the first binding and closed by the second | a route stays open while any of its patterns matches | high, not executed | LegacyRouter.AliasClosedOnPartialMatch | LegacyRouter.RecalculationSyncsRoutes |
| src/methods/attach-paths.ts:10 | the skip test reads `route.virtual`, but `createRoute` keeps `virtual` only in `route.__.config` (src/methods/create-route.ts:43-52), so the test is never true | `chainRoute(route)` creates its chained route with `{virtual: true}`; `attachPaths([[chained, "/x"]])` gives it the pattern `/x` and logs nothing | skip and report routes created virtual, as the error message about chained routes says | high, not executed | AttachPaths.ChainedRouteGetsPatternAsWritten | AttachPaths.UntouchedKeepPattern |
| src/methods/create-router-domain.ts:173 | `compile(pattern)({ params })` wraps the params in an object under the key `params` | pattern `/posts/:postId` with params `{postId: "1"}`: the compiler reads `postId` as `undefined` | pass the params themselves: `compile(pattern)(params)` | medium, not executed | RouterDomain.NamedParameterIsUndefined | RouterDomain.NavigatePath |
