# Serverless caching plugin, modelled in Dafny

This Dafny project models the core of a Serverless Framework plugin (`index.js`) for API Gateway. The plugin does two jobs:

- **When the template is compiled,** it rewrites the CloudFormation template.
  - For every `AWS::ApiGateway::Method` on a referenced resource, it collects the method's cache key names. When there is at least one, it sets the integration's `CacheKeyParameters` to them and its `CacheNamespace` to the method's `ResourceId`, and adds the path and query-string names to the method's `RequestParameters`. The names are:
    - the request parameters the method already declares;
    - one `method.request.path.<name>` per `{name}` segment on the resource's path;
    - one `method.request.querystring.<name>` per query-string entry of the function's `http` event.
  - It marks every method as requiring an API key, unless the method already has an `ApiKeyRequired` property, whatever its value.
- **After a deploy,** it reconciles the deployed REST API with a usage plan. It looks up the API's id and finds the usage plan named by `custom.usagePlan` (default `General Usage Plan`). If that plan does not list the API's stage yet, it sends one `updateUsagePlan` request that adds `<apiId>:<stage>` to `/apiStages`.

Modules:

- `Wrappers`: `Option`.
- `JsObject`: a JavaScript object used as a dictionary.
  - It is modelled as the sequence of its entries in insertion order.
  - `Put` is `o[k] = v`: it replaces the value in place or appends a new key.
  - `PutAll` is `_.forEach(src, (v, k) => o[k] = v)`.
- `CfnTemplate`: the compiled template. It is a map from logical ids to `Node`s (`Type` plus the `Properties` the plugin reads or writes). An absent property is `None`.
- `PathParams`: `paramRegex` and the recursive walk `addPathParameter`.
  - The walk follows `ParentId.Ref` up to a resource without a parent `Ref`.
  - The precondition `WalkEnds` says this happens within `|Resources|` steps. `WalkEndsWithinSize` shows this asks no more than that the walk end at all.
  - The source has no cycle guard: `SelfParentNeverEnds` and `CycleNeverEnds` show that a walk on a cycle never ends.
- `CacheParams`: `addQueryStringParameters` and `getCacheParameters`, together with the specification functions `PathParameters`, `QueryStringParameters` and `CacheParametersOf`.
- `Plugin`: the class `Template`, whose `Resources` field the methods update in place.
  - `ConfigureCaching` and `MarkMethodsApiKeyRequired` each contain the loop of `forEachMethod` (index.js:121-129). The loop visits every key of the resource map and acts on the `AWS::ApiGateway::Method` entries.
  - Each method is proved against a specification function of the old map (`Configured`, `ApiKeysMarked`).
- `UsagePlans`: `getApiGatewayRestApi`, `getUsagePlanName`, `getUsagePlanId`, `setApiKey` and `ensureAPIKeys`.
  - The AWS replies are inputs.
  - The requests sent are the output, in order.

The model keeps the code's behaviour, including where it departs from a tidier reading of what the plugin is for:

- `allNames` is not de-duplicated. A declared request parameter that is also a path key is listed twice, within a single pass (`AllNamesMayRepeat`). Configuring an already configured template grows `CacheKeyParameters` again whenever the first pass added a key the method did not declare.
- Nothing guards against a `ParentId` cycle. `WalkEnds` is therefore a precondition.
- A failed API-id lookup resolves to `null`, and the chain still continues: the stage value patched is `null:<stage>` (`FailedLookupStillPatches`).
- A plan without `apiStages` makes `some` throw. The `catch` turns this into "no ids", and nothing is patched.
- A `Ref` to the empty string is falsy. It does not count as a reference, both in `getCacheParameters` and in the parent walk.

## Model

| member | source | states |
|---|---|---|
| CfnTemplate.RefOf | index.js:116 | a reference is followed exactly when it is a `Ref` to a non-empty logical id (the truthy `.Ref` test, also at index.js:83) |
| PathParams.ParamName | index.js:6 | a match means the segment is exactly `{name}` with a non-empty name free of line terminators |
| PathParams.ParamNameOfBraced | index.js:6 | conversely, every `{inner}` with a non-empty single-line `inner` matches and captures `inner` |
| PathParams.ParamNameRejects | index.js:6 | `users`, `foo{bar}`, `{bar}baz`, `{}` and a name containing a newline are not parameters; `{id}` captures `id` |
| PathParams.SelfParentNeverEnds | index.js:116-118 | a resource whose parent `Ref` is itself never reaches the end of the walk, for any bound (there is no cycle guard) |
| PathParams.Chain | index.js:116-118 | the resources the walk visits: starts at the method's resource, each next one is the `Ref`ed parent, the last has no parent `Ref`, at most `steps + 1` of them |
| PathParams.ChainEntries | index.js:110-115 | one `true` assignment per parameter segment on the chain, and a key is assigned iff some chain segment declares it |
| PathParams.AddPathParameter | index.js:109-119 | the recursive walk leaves `parameters` with exactly the chain's assignments applied, in chain order |
| PathParams.PathParameters | index.js:109-119 | the walk from `{}` yields distinct keys, exactly the `method.request.path.<name>` of the chain's parameter segments, each mapped to `true` |
| PathParams.WalkEndsWithinSize | index.js:116-118 | a walk that ends within any number of steps ends within as many steps as the template has resources, so the bound on the walk asks only that it end |
| PathParams.CycleNeverEnds | index.js:116-118 | a resource the walk from itself comes back to never ends its walk (there is no cycle guard) |
| PathParams.WalkFrame | index.js:116-117 | the walk depends only on `PathPart` and `ParentId`, so rewriting other properties of any entry does not change it |
| CacheParams.QueryKeyInjective | index.js:105 | different query-string names give different keys |
| CacheParams.PathAndQueryKeysDiffer | index.js:103-119 | no path key is a query-string key |
| CacheParams.CopyProperties | index.js:65-71 | the `_.forEach` copy loop leaves `target` with every entry of `src` assigned in order |
| CacheParams.AddQueryStringParameters | index.js:103-107 | the loop assigns `method.request.querystring.<name>` for every query-string entry, in order, with its value; an event without `querystring` adds nothing |
| CacheParams.QueryEntriesGet | index.js:105 | the key for `name` carries exactly the value the event gives `name` |
| CacheParams.QueryEntriesValid | index.js:105 | distinct query-string names give distinct keys |
| CacheParams.QueryKeysOfEvent | index.js:104-105 | a key is assigned iff some query-string entry of the event declares it |
| CacheParams.QueryStringParameters | index.js:103-107 | from `{}`: no `querystring` gives `{}`; otherwise one key per entry, keys distinct, each value unchanged |
| CacheParams.GetCacheParameters | index.js:78-101 | computes the request names, path and query-string objects and `allNames` of the specification `CacheParametersOf` |
| CacheParams.RootMethodHasNoCacheKey | index.js:94-100 | a method whose `ResourceId` is not a `Ref` gets empty path and query-string objects and no cache key names |
| CacheParams.AllNamesContents | index.js:91 | `allNames` starts with the declared request names; a name is in it iff it is declared, a chain path key, or a query-string key |
| CacheParams.CachingAppliesIff | index.js:64 | caching applies iff the `ResourceId` is a `Ref` and the method declares a request parameter, the chain has a parameter segment, or the event has a query-string entry |
| CacheParams.PathParametersNonEmpty | index.js:109-119 | the walk assigns something iff some chain segment is a parameter |
| CacheParams.QueryStringParametersNonEmpty | index.js:103-107 | the query-string object is non-empty iff the event has a non-empty `querystring` |
| CacheParams.AllNamesMayRepeat | index.js:91 | a declared request parameter that is also a path key appears twice in `allNames` (no de-duplication) |
| Plugin.CacheParametersFrame | index.js:62-63 | rewriting other methods during the iteration leaves a method's cache parameters unchanged |
| Plugin.PathKeysAreNotQueryKeys | index.js:65-71 | no key of the path object is a key of the query-string object |
| Plugin.MergeParameters | index.js:65-71 | the two assignment passes keep existing keys in place, give path keys `true` and query keys their value, keep other values, and keep keys distinct |
| Plugin.CachingMerge | index.js:64-74 | a method with cache key names gets the two passes applied to its `RequestParameters`, `CacheKeyParameters = allNames`, `CacheNamespace` = its own `Ref`, and nothing else changes |
| Plugin.CachingRequestParameters | index.js:65-71 | for such a method: declared keys kept, path keys `true`, query keys with their event value (overwriting a declared one), other keys unchanged, no key repeated |
| Plugin.CachingFrame | index.js:62-64 | non-method entries and methods without cache key names come out unchanged |
| Plugin.NamespaceFollowsResource | index.js:73 | two configured methods share a cache namespace iff they have the same `ResourceId` |
| Plugin.ConfigureMethod | index.js:63-74 | the callback leaves a method without cache key names unchanged and otherwise returns it with the rewrite `WithCaching` of its cache parameters |
| Plugin.Template.ConfigureCaching | index.js:60-76 | the template's resources become exactly `Configured(old resources)`, whatever order the entries are visited in |
| Plugin.ApiKeyFlag | index.js:48-58 | every method ends up with `ApiKeyRequired`; an existing value (even `false`) is kept, a missing one becomes `true`; non-methods and other properties are untouched |
| Plugin.ApiKeysMarkedIdempotent | index.js:48-58 | marking an already marked template changes nothing |
| Plugin.Template.MarkMethodsApiKeyRequired | index.js:48-58 | the template's resources become exactly `ApiKeysMarked(old resources)` |
| UsagePlans.GetApiGatewayRestApi | index.js:131-143 | returns a REST API entry of the template with its logical id and properties, and `None` iff the template has none |
| UsagePlans.GetUsagePlanName | index.js:145-147 | the plan name is never empty: a truthy `custom.usagePlan`, else `General Usage Plan` |
| UsagePlans.FindPlan | index.js:158 | finds the first plan whose name is the configured one, and `None` iff no plan has it |
| UsagePlans.SomeStage | index.js:160 | true iff some stage entry has both the API id and the stage (`===`, so never for `null`/`undefined`) |
| UsagePlans.GetUsagePlanId | index.js:149-182 | a failed request or a reply without `items` gives no ids, and ids carry the API id given; its full contract is the lemma `GetUsagePlanIdSpec` |
| UsagePlans.GetUsagePlanIdSpec | index.js:149-182 | ids are produced iff the plans were listed, the first plan with the name has `apiStages` and none lists the API's stage; they hold the given API id and that plan's id |
| UsagePlans.SetApiKey | index.js:211-229 | a request iff there are ids: `updateUsagePlan` on the plan id with one operation, `from` `STRING_VALUE`, `op` `add`, `path` `/apiStages`, value `<apiId>:<stage>` |
| UsagePlans.StageValue | index.js:226 | the patch value is the API id's text, a `:`, then the stage's text (`null` and `undefined` interpolate as words) |
| UsagePlans.Reconcile | index.js:28-46 | no request without deploying or without a REST API; otherwise `describeStackResources` for the stack's REST API, then `getUsagePlans`, then at most one `updateUsagePlan` |
| UsagePlans.EnsureApiKeys | index.js:28-46 | the requests sent are exactly those of `Reconcile` for the template, the options and the replies |
| UsagePlans.NothingForWorkers | index.js:28-37 | with `noDeploy`, or without a REST API in the template, no request is sent |
| UsagePlans.OneUpdateIffMissing | index.js:28-46 | exactly one `updateUsagePlan`, for the first plan with the name and adding `<apiId>:<stage>` to `/apiStages`, iff the plugin deploys, a REST API exists and that plan lacks the stage; otherwise none |
| UsagePlans.FailedLookupStillPatches | index.js:203-207 | an API-id lookup that failed (`null`) still leads to patching `null:<stage>` into a plan lacking it |
| UsagePlans.StageValueSplits | index.js:226 | the patch value splits at its first `:` back into the API id and the stage, when the id has no `:` |

## Left out

- The calls to AWS through `provider.request`, the promise chaining and its `catch` handlers. Replies are inputs (`apiId`, `PlansReply`). Requests are the output sequence of `EnsureApiKeys`. A rejected request is a value of the reply type.
- Every `serverless.cli.log` message. They do not change state or requests.
- `getApiId`'s parsing of `describeStackResources`. Its outcome (a string, `null` after a caught error, or `undefined` without `StackResources`) is the `apiId` input. Its request is emitted with the stack name as an input. The unused `api.Name` argument is not modelled.
- `createResourceToMethodLookup` (index.js:242-259), which depends on the provider's naming functions. The event map is an input to `ConfigureCaching`.
- The constructor, the hook table and `postCompileEvents`. They only call the modelled operations in order.
- `Plugin.Template.ConfigureCaching`, `Plugin.Template.MarkMethodsApiKeyRequired`: `for…in` visits keys in insertion order; the model visits them in any order. Order is proved irrelevant for both.
- `UsagePlans.GetApiGatewayRestApi`: returns some REST API entry, not necessarily the first in insertion order, for the same reason. The compiled template holds at most one.
- `PathParams.AddPathParameter`: terminates only under `WalkEnds`. A template with a `ParentId` cycle or a dangling `Ref` (on which the source loops or throws) is excluded by the precondition and not modelled further.
- `Plugin.Template.ConfigureCaching`: the template must be one on which the source does not throw (`CachingReady`). This means each method has `RequestParameters` and a `ResourceId`; a `Ref`ed method also has a resolvable walk and an event; a method with cache key names also has an `Integration`. Throwing is not modelled.
- JavaScript's ordering of integer-like object keys before other keys. Keys are kept in plain insertion order. The keys here (`method.request.…`) are never integer-like.
- Query-string values other than booleans, and `custom.usagePlan` values other than strings or absent.
- An `ApiKeyRequired` property that is present with the value `undefined` or a non-boolean value. `hasOwnProperty` keeps such a property, but `Option<bool>` cannot represent it: the model has only absent, `true` and `false`.
- The `path` and `method` fields of a function's `http` event. Only `querystring` is read by the modelled code; the others serve `createResourceToMethodLookup`.
- `Plugin.CachingMerge`, `Plugin.CachingRequestParameters`: require the event's `querystring` to have distinct keys, as every JavaScript object has.
