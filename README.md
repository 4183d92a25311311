# Sentinel middleware for gin: resource naming, entry protocol, rule upsert

This project models the logic a small gin web service adds around the
sentinel-golang rate limiter, and proves properties of it in Dafny. The limiter
itself (admission decisions, window counters, the rule store) lives in
sentinel-golang and is treated as an oracle.

The model has three parts.

- **Resource naming** (`naming.dfy`, module `ResourceNaming`). Two names are built:
  - `METHOD:FullPath`, falling back to `METHOD:URLPath` when no route matched. SentinelMiddleware and SentinelMiddlewareWithFallback use this one.
  - The parameter-keyed `METHOD:FullPath:value`. ParamBasedSentinelMiddleware takes the value from a POST/PUT JSON body, else from the query string; with no value it uses `METHOD:FullPath`.
- **Entry protocol** (`protocol.dfy`, module `EntryProtocol`).
  - A `Context` class stands for gin.Context: the handler chain, the key/value bag, the abort flag and the replies written.
  - A `Sentinel` class stands for api.Entry and entry.Exit. Its admit/block verdict is an oracle `admit(k, resource)` for the k-th Entry call. It logs every Entry and Exit call.
  - The middleware methods are proved equal to the spec functions `Run` and `Guard`. These follow the code: enter; on block, reply and abort; on admit, store the entry under `"sentinelEntry"`, run the rest of the chain, then exit whatever entry is stored under that key.
  - `ExitPolicy` picks which entry is exited after Next. `ExitStored` is the code as written. `ExitOwn` is the corrected variant, used in Findings.
- **The deployed order route** (`order_route.dfy`, module `OrderRoute`). POST /orders runs the global SentinelMiddleware, then SentinelMiddlewareWithFallback, then the handler. The module proves what happens in each of the three oracle outcomes.
  - gin.Default() also puts its Logger and Recovery middlewares in front of this chain. They only call Next and never touch the key bag or Sentinel, so the lemmas hold with them in place. Recovery is what lets a panicking handler still finish the request. That is the one case where WithFallback's deferred exit and the other middlewares' inline exit differ, and panics are not modelled.
- **Rule configuration** (`config.dfy`, module `FlowConfig`).
  - The one-rule default set, and InitSentinel's early error returns.
  - UpdateRule's read-modify-reload. It fetches the resource's rules, replaces the first with a fresh rule (or appends one if there are none), then copies each rule into its own pointer slot in a loop.
  - api.InitWithConfig and flow.LoadRules are passed in as functions that return the error.

Points about the code worth knowing:

- UpdateRule replaces the whole first rule of the resource. Strategy, behaviour and interval reset to Direct, Reject and 1000 ms. Any further rules of that resource are kept.
- UpdateRule validates nothing. Only updateFlowRule's binding tags check the resource and the threshold (testing.go:102-103).
- A parameter-keyed name can equal another route's plain name (`ParamNameCanCollideWithRouteName`).
- The comment above the default rule (config/sentinel.go:44) says the QPS limit is 100, but the rule sets Threshold 5 (line 49). The model follows the literal.

## Model

| member | source | states |
|---|---|---|
| `ResourceNaming.Join` | middleware/sentinel.go:24 | the "%s:%s" format: the two parts with one ':' between them |
| `ResourceNaming.Route` | middleware/sentinel.go:18-21 | the route part: FullPath, or URL.Path when FullPath is empty |
| `ResourceNaming.ResourceName` | middleware/sentinel.go:64-68 | the name of SentinelMiddleware and SentinelMiddlewareWithFallback: `METHOD:route` |
| `ResourceNaming.BodyParam` | middleware/sentinel.go:107-115 | the body value: only for POST/PUT whose body binds to a JSON object holding a non-empty string under paramName |
| `ResourceNaming.QueryParam` | middleware/sentinel.go:119 | c.Query: the query value, or "" when the parameter is absent |
| `ResourceNaming.ParamResourceName` | middleware/sentinel.go:105-128 | the name of ParamBasedSentinelMiddleware, with the "" marker between the body step, the query step and the default |
| `ResourceNaming.SplitAtColon` | middleware/sentinel.go:24 | splitting at the first ':' gives a colon-free head, and joining the two parts with ':' gives back the input; with no split, the input has no ':' |
| `ResourceNaming.SplitJoin` | middleware/sentinel.go:24 | the "%s:%s" format is undone by splitting at the first ':' when the left part has no ':' |
| `ResourceNaming.ResourceNameParts` | middleware/sentinel.go:18-24 | the name splits into exactly the method and FullPath, or the method and URL.Path when FullPath is empty |
| `ResourceNaming.ResourceNameInjective` | middleware/sentinel.go:18-24 | two requests get the same name if and only if they have the same method and the same route part |
| `ResourceNaming.RoutedNameIgnoresUrlPath` | middleware/sentinel.go:18-21 | once a route matched, the raw URL path does not affect the name |
| `ResourceNaming.ParamNameByValue` | middleware/sentinel.go:105-128 | the "" placeholder never hides a chosen name: the name is `METHOD:FullPath:v` for the chosen value v (body first, then a non-empty query), else `METHOD:FullPath` |
| `ResourceNaming.ParamNameFromBody` | middleware/sentinel.go:108-114 | a POST/PUT body that binds and holds a non-empty string under paramName gives `METHOD:FullPath:val`, whatever the query holds |
| `ResourceNaming.ParamNameFromQuery` | middleware/sentinel.go:117-122 | when the method is not POST/PUT or the body does not bind or its value is missing, non-string or empty, a non-empty query value gives `METHOD:FullPath:val` |
| `ResourceNaming.ParamNameDefault` | middleware/sentinel.go:125-128 | with neither value the name is `METHOD:FullPath`, with no URL-path fallback; it differs from the plain name when no route matched and URL.Path is non-empty, and equals it when a route matched |
| `ResourceNaming.ParamNameSeparatesValues` | middleware/sentinel.go:112-121 | on one method and route, two requests share a parameter-keyed name if and only if the chosen values are equal |
| `ResourceNaming.ParamNameCanCollideWithRouteName` | middleware/sentinel.go:121 | a keyed name on route "/orders/" with value "id" equals the plain name of route "/orders/:id" |
| `EntryProtocol.ResourceOf` | middleware/sentinel.go:130 | the resource a middleware enters: the parameter-keyed name for ParamBased, the plain name otherwise |
| `EntryProtocol.BlockedReply` | middleware/sentinel.go:72-84 | the block reply: the fallback's when one is given, else 429 with "busy" for WithFallback and 429 with "too frequent" for the other two |
| `EntryProtocol.ExitWhatIsStored` | middleware/sentinel.go:146-150 | exit the entry stored under "sentinelEntry" when there is one of entry type, else nothing |
| `EntryProtocol.Release` | middleware/sentinel.go:89-96 | the exit after Next: the stored entry (as written) or the middleware's own entry (corrected) |
| `EntryProtocol.Run` | middleware/sentinel.go:50 | c.Next from position i: a route handler replies and the chain goes on; a middleware runs as Guard and finishes the chain |
| `EntryProtocol.Guard` | middleware/sentinel.go:130-150 | one middleware: Entry; on block, reply and abort; on admit, store the entry, run the rest, release |
| `EntryProtocol.SameResourceForBothLayers` | middleware/sentinel.go:64-68 | SentinelMiddleware and SentinelMiddlewareWithFallback enter the same resource for the same request |
| `EntryProtocol.BlockedGuard` | middleware/sentinel.go:72-86 | a blocked middleware records one Entry call, writes its block reply (the fallback's when given, else 429 with the middleware's message), aborts, and stores and exits nothing |
| `EntryProtocol.EndpointsOnly` | middleware/sentinel.go:50 | running only route handlers after a middleware writes their replies and changes no key, entry or exit |
| `EntryProtocol.AdmittedGuardAlone` | middleware/sentinel.go:46-57 | an admitted middleware with no later middleware stores its entry under "sentinelEntry" and exits exactly that entry once |
| `EntryProtocol.OwnExitsEachAdmittedOnce` | middleware/sentinel.go:46-47 | on every chain, when each middleware exits the entry it entered, the Exit calls are a permutation of the admitted entries; the Entry and Exit logs are only appended to |
| `EntryProtocol.OwnGuardExitsEachAdmittedOnce` | middleware/sentinel.go:89-96 | the same as above for a single middleware and the chain behind it |
| `EntryProtocol.StoredExitCountMatchesAdmitted` | middleware/sentinel.go:53-57 | as written, on every chain the number of Exit calls equals the number of admitted entries, and the Entry and Exit logs are only appended to |
| `EntryProtocol.RunKeepsEntry` | middleware/sentinel.go:143-150 | once an entry is stored under "sentinelEntry", the rest of the chain leaves an entry there (its own or a later layer's), so the exit after Next always finds one |
| `EntryProtocol.StoredGuardExitCountMatchesAdmitted` | middleware/sentinel.go:89-96 | the same as above for a single middleware and the chain behind it |
| `EntryProtocol.Sentinel.Entry` | middleware/sentinel.go:27-31 | api.Entry logs the resource, and gives a new entry and the oracle's verdict |
| `EntryProtocol.Sentinel.Exit` | middleware/sentinel.go:55 | entry.Exit logs the entry being exited |
| `EntryProtocol.Context.Set` | middleware/sentinel.go:47 | c.Set overwrites the key's value |
| `EntryProtocol.Context.Get` | middleware/sentinel.go:53 | c.Get reports whether the key is present and, if it is, its value |
| `EntryProtocol.Context.Json` | middleware/sentinel.go:133-138 | c.JSON appends one reply and changes nothing else |
| `EntryProtocol.Context.Abort` | middleware/sentinel.go:139 | c.Abort sets the abort flag and changes nothing else |
| `EntryProtocol.Context.Next` | middleware/sentinel.go:50 | c.Next runs the rest of the chain as `Run` describes |
| `EntryProtocol.Context.ExitStoredEntry` | middleware/sentinel.go:53-57 | exits the entry stored under "sentinelEntry" if there is one of entry type, else does nothing |
| `EntryProtocol.Context.SentinelMiddleware` | middleware/sentinel.go:15-58 | the handler's effect on context and log is `Guard` with the exit-stored policy |
| `EntryProtocol.Context.SentinelMiddlewareWithFallback` | middleware/sentinel.go:62-99 | likewise, with the fallback or the "busy" 429 on block and the deferred exit |
| `EntryProtocol.Context.ParamBasedSentinelMiddleware` | middleware/sentinel.go:103-151 | likewise, on the parameter-keyed resource |
| `OrderRoute.OrderLayersShareDefaultRule` | testing.go:57-59 | both layers on POST /orders enter "POST:/orders", the resource of the default rule |
| `OrderRoute.OuterBlocked` | middleware/sentinel.go:33-43 | outer layer blocked: one Entry call, a 429 "too frequent" reply, abort, and nothing else changes |
| `OrderRoute.InnerBlocked` | middleware/sentinel.go:72-87 | inner layer blocked: the fallback replies, the handler does not run, and the outer entry is exited once |
| `OrderRoute.BothAdmitted` | middleware/sentinel.go:89-96 | both admitted: two Entry calls on one resource, two Exit calls both on the inner entry, and the outer entry is never exited |
| `OrderRoute.OuterEntryLeaks` | middleware/sentinel.go:46-57 | both admitted: the number of Exit calls matches the admissions, but they are not the admitted entries |
| `OrderRoute.BothAdmittedOwnExits` | middleware/sentinel.go:46-47 | with each layer exiting its own entry, the inner entry is exited and then the outer one |
| `FlowConfig.Prefixed` | config/sentinel.go:27 | fmt.Errorf with %v: a new error whose text is the prefix, ": " and the cause's text |
| `FlowConfig.PrefixKeepsCause` | config/sentinel.go:25-34 | a prefixed error ends with its cause's text, and an init failure never equals a load failure |
| `FlowConfig.DefaultRules` | config/sentinel.go:43-51 | exactly one rule: POST:/orders, Direct, Reject, threshold 5, interval 1000 ms |
| `FlowConfig.LoadDefaultRules` | config/sentinel.go:41-73 | hands exactly the default set to LoadRules and returns its error unchanged |
| `FlowConfig.InitSentinel` | config/sentinel.go:14-38 | configures app "gin-ecommerce" with a console logger; an init failure returns the prefixed init error and loads no rules; otherwise it loads the default rules and returns either the prefixed load error or nil |
| `FlowConfig.RulesOfResource` | config/sentinel.go:78 | the fetched rules are rules of the store for that resource, and every such rule is among them |
| `FlowConfig.NewRule` | config/sentinel.go:81-87 | the rule UpdateRule builds: the resource, Direct, Reject, the threshold and 1000 ms |
| `FlowConfig.Upserted` | config/sentinel.go:81-94 | the first rule is the new rule (resource, Direct, Reject, threshold, 1000 ms); the length is kept, or 1 when there were none; the rest is unchanged |
| `FlowConfig.PointersTo` | config/sentinel.go:96-101 | the conversion loop keeps length and order, and each slot holds its own fresh copy of the rule (all slots distinct) |
| `FlowConfig.UpdateRule` | config/sentinel.go:76-105 | the array handed to LoadRules holds, in order, distinct fresh pointers to the upserted rules, and the call returns LoadRules' error unchanged |
| `FlowConfig.UpdateLoadsOnlyThatResource` | config/sentinel.go:78-104 | every reloaded rule is for the resource, and no rule of another resource is in the list |
| `FlowConfig.UpdateOfManagedResource` | config/sentinel.go:90-91 | if the resource has a rule, the list keeps its length, element 0 is the new rule, and elements 1.. are the existing ones |
| `FlowConfig.UpdateOfUnmanagedResource` | config/sentinel.go:92-94 | if the resource has no rule, the list is exactly the new rule |
| `FlowConfig.UpsertLastWins` | config/sentinel.go:89-94 | upserting twice gives the same list as upserting only the second threshold |
| `FlowConfig.UpdateWithDefaultThresholdIsDefault` | config/sentinel.go:76-94 | updating POST:/orders to threshold 5 on the default set reloads exactly the default set |

## Findings

| source | as written | input that shows it | evidently intended | confidence | as-written member | corrected member |
|---|---|---|---|---|---|---|
| middleware/sentinel.go:53-57 | after `c.Next()` each middleware exits whatever entry is then stored under the shared key "sentinelEntry", which a nested Sentinel middleware has overwritten with its own | POST /orders through SentinelMiddleware then SentinelMiddlewareWithFallback (testing.go:30,57-59), both admitted: the inner entry gets two Exit calls, the outer entry none | each middleware exits the entry it acquired ("exit after the request", line 46), so every admitted entry is exited exactly once | high; not executed | `OrderRoute.OuterEntryLeaks` | `EntryProtocol.OwnExitsEachAdmittedOnce` |

The class methods model the code as written (`ExitStored`). The corrected variant (`ExitOwn`) differs only in `Release`: each middleware exits the entry it received.

## Left out

- The admission engine is left out: window counters, api.Entry's decision and what entry.Exit does internally. These live in sentinel-golang, which is not part of this model. The verdict is an oracle, and an Exit call is only logged. What the library does on a second Exit of one entry is not modelled.
- flow.LoadRules is an oracle that gives an error. What it does with the list is not modelled, including whether rules of other resources survive the reload.
- flow.GetRulesOfResource is modelled as an order-keeping filter of the loaded rules by resource name. Any aliasing between the slice it returns and the library's own storage is not modelled.
- The response bodies are reduced to `Reply` values. This leaves out the "data" and "timestamp" fields (time.Now()) and the HTTP status of the fallback's own response. The fallback handler is modelled as writing one reply; it calls neither Next nor Abort.
- gin's handler index is not modelled. The model relies on this: after a middleware returns, the chain is finished (its Next ran the rest, or it aborted), while a route handler lets the chain continue. Panics are not modelled, so the difference between WithFallback's deferred exit and the other two middlewares' inline exit does not appear.
- Sentinel.Entry drops the options SentinelMiddleware passes to api.Entry (inbound traffic type, web resource type, middleware/sentinel.go:27-31). The other two middlewares pass none. Each call's verdict is an oracle, so the options change nothing in the model.
- Context keys: c.ShouldBindBodyWith (middleware/sentinel.go:110) also caches the raw body in the same key bag, under gin's body-bytes key. The model's bag never gains that entry. So for ParamBased on POST/PUT, the `keys` of `Guard` and `BlockedGuard` describe only the rest of the bag, including "sentinelEntry".
- Logging (fmt.Println, log.Println) is left out, and so are config.NewDefaultConfig's settings other than the app name and the console logger.
- handler/order.go, the server bootstrap and routes in testing.go, and the benchmarks in test/order_test.go are left out. Their only content is I/O, sleeping and randomness. The unused second loadDefaultRules in test/order_test.go is not part of this model.
- Concurrency is left out. This includes the lost update when two UpdateRule calls read and reload at the same time, and the parallel benchmarks.
- FlowConfig.Rule: Threshold is a float64 but only copied, so it is modelled as a real; NaN and infinities are not modelled. flow.Rule fields that this code never sets are left out.
- FlowConfig.UpdateRule: the resource and threshold the HTTP endpoint validates with binding tags (testing.go:102-103) are not required, since UpdateRule itself checks neither.
