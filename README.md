# moleculer-elastic-apm, modelled in Dafny

A Moleculer service that listens for the Moleculer broker's `metrics.trace.span.start`
and `metrics.trace.span.finish` events and turns them into Elastic APM calls.
A start event stores its payload in `requests`, stores the span returned by
`apm.startSpan` in `spans`, and opens a transaction when the payload has no
`parent`. A finish event ends the stored span when there is one, removes it,
closes the transaction when the finish payload has no `parent`, and always
removes the stored payload. The span name, span type and transaction type
come from the helper methods `getSpanName`, `getSpanType` and `getType`.

Files:

- `wrappers.dfy`: `Option`.
- `events.dfy`: the metric payload. Fields tested for truthiness or with
  `hasOwnProperty` are `Option`s; flags are `bool`s.
- `naming.dfy`: `getSpanName`, `getSpanType` and `getType` as functions, with
  `Split` as the inverse of the separator join.
- `apm.dfy`: the agent as an append-only call log with a counter of fresh span
  handles, and `Count` over that log.
- `bookkeeping.dfy`: the handlers' state, the start and finish transitions as
  functions, the invariant they keep, runs of many events, and the lifecycle
  lemmas.
- `service.dfy`: the service object as a class whose `map` fields the two
  handlers update in place. Each handler is proved to follow its transition
  and to keep the invariant.

The agent's answer to `startSpan` comes in as the `granted` parameter. The
elastic-apm-node agent may answer null, for example when no transaction is
active, and the source guards against that with `if (this.spans[payload.id])`.
A null answer is stored as `None` and is falsy. The finish handler's `delete`
sits inside that `if`, so a null entry stays in `spans` after its finish. The
invariant covers this case: every key of `requests` is a key of `spans`, and a
key found only in `spans` holds `None`.

Two behaviours of the code worth noting:

- A finish with no live span is not a complete no-op. It still deletes
  `requests[id]`, and it still calls `endTransaction` when the finish payload
  has no `parent` (index.js:55-56).
- `getSpanName` returns `action.name` as it is whenever `action` exists, even
  when that name is undefined. The result type is `Option<string>`, and the
  `"unnamed"` fallback applies only when `action` itself is absent
  (index.js:86-88).

## Model

| member | source | states |
|---|---|---|
| Naming.SpanName | index.js:85-89 | a truthy `name` wins; otherwise `action.name` when `action` exists; otherwise exactly `"unnamed"`; the result is undefined exactly when `name` is falsy and `action` exists without a name |
| Naming.TransactionType | index.js:97-103 | a truthy `error` gives exactly `".error"` whatever the flags; otherwise `"request"`, then `".cache"` if `fromCache`, then `".remote"` if `remoteCall`, in that order |
| Naming.TransactionTypeDeterminesFlags | index.js:97-100 | without an error, equal transaction types mean equal `fromCache` and `remoteCall` |
| Naming.ErrorTypeDistinct | index.js:101 | the error type differs from every type the suffix rule builds |
| Naming.JoinSplit | index.js:76 | splitting at the separator and joining again gives back any string |
| Naming.SplitJoin | index.js:76 | joining one or more separator-free parts and splitting again gives back exactly those parts |
| Naming.JoinEmpty | index.js:76 | a join is the empty string exactly when it joins nothing or a single empty string |
| Naming.SpanType | index.js:71-77 | the span type is empty exactly when no node-path field is present or the only one present renders as `""`; `SpanTypeFields`, `SpanTypeNoFields` and `SpanTypeAllFields` give its full meaning |
| Naming.SpanTypeNoFields | index.js:71-77 | with `parentID`, `callerNodeID` and `nodeID` all absent the span type is `""` |
| Naming.SpanTypeAllFields | index.js:71-77 | with all three present the span type is `parentID⇄callerNodeID⇄nodeID` |
| Naming.SpanTypeFields | index.js:71-77 | the span type holds exactly the present fields, in the order `parentID`, `callerNodeID`, `nodeID`: splitting it at `⇄` returns them when none contains the separator |
| Apm.CountAppend | index.js:37-55 | counting agent calls of one kind is additive over concatenated call logs |
| Apm.Agent.StartSpan | index.js:37 | `startSpan` logs one call and answers a fresh handle (the counter, then incremented) when granted, null otherwise |
| Apm.Agent.EndSpan | index.js:52 | `span.end()` appends one end call for that handle |
| Apm.Agent.StartTransaction | index.js:39 | appends one transaction start with the given name and type |
| Apm.Agent.EndTransaction | index.js:55 | appends one transaction end |
| Apm.Agent.SetUserContext | index.js:40 | appends the `meta` object, uninterpreted |
| Apm.Agent.SetCustomContext | index.js:41 | appends the `params` object, uninterpreted |
| Bookkeeping.Initial | index.js:118-119 | the state after `created` satisfies the bookkeeping invariant, holds no payload and no live span for any id, and has opened or closed no transaction |
| Bookkeeping.StartCalls | index.js:37-41 | a start's calls begin with `startSpan(getSpanName, getSpanType)` carrying the agent's reply; there are further calls exactly when the payload is a root, and the second is then `startTransaction(getSpanName, getType)` |
| Bookkeeping.Start | index.js:35-43 | after a start, `requests[id]` is the payload and `spans[id]` is the agent's reply; every other key of both maps is unchanged; the log grows by exactly the start event's calls |
| Bookkeeping.FinishCalls | index.js:51-55 | a finish's calls are one span end when a live span is stored plus one transaction end when the payload is a root, and nothing else; a span end, when present, comes first and ends exactly the stored handle; `endTransaction` is among them exactly for a root |
| Bookkeeping.Finish | index.js:50-57 | after a finish, `id` is absent from `requests` in every case and absent from `spans` when it held a live span; every other entry is unchanged; the log grows by exactly the finish event's calls |
| Bookkeeping.StartCallsCount | index.js:37-41 | a start event's calls hold one span start carrying the reply and one transaction start exactly when the payload is a root, and no ends |
| Bookkeeping.StartCounts | index.js:35-43 | a start adds exactly one span start, with the fresh handle, when granted; it opens a transaction if and only if the payload has no truthy `parent`; it ends nothing |
| Bookkeeping.FinishCounts | index.js:50-56 | a finish ends exactly the stored span, once, when one is live and nothing otherwise; it closes a transaction if and only if the finish payload has no truthy `parent`; it starts nothing |
| Bookkeeping.StartPreservesInv | index.js:35-43 | a start keeps the invariant: no handle started twice or ended more than started, stored handles open and distinct, and `requests` keys within `spans` keys |
| Bookkeeping.FinishPreservesInv | index.js:50-57 | a finish keeps the same invariant |
| Bookkeeping.RunPreservesInv | index.js:35-57 | any sequence of start and finish events keeps the invariant |
| Bookkeeping.RunTransactionCounts | index.js:38-39 | over any run, transactions opened equal root start events and transactions closed equal root finish events |
| Bookkeeping.RunOtherIds | index.js:36-37 | events for other ids leave both table entries of an id unchanged |
| Bookkeeping.LiveThroughOtherIds | index.js:36-37 | while only other ids see events, a live span stays stored under its id, started once and never ended |
| Bookkeeping.SpanPairedOnce | index.js:35-57 | a granted start and its finish, with any other-id events interleaved, start that span once and end it once, and the id then leaves both tables |
| Bookkeeping.DuplicateFinishEndsNothing | index.js:51-54 | a second finish for the same id never ends a span again |
| Bookkeeping.DroppedStaysUnended | index.js:51-53 | a handle no id holds is never ended by later events |
| Bookkeeping.RestartLeaksSpan | index.js:36-37 | a repeated start for an id overwrites its live handle without ending it, and no later events end that span |
| Bookkeeping.RootRequestScenario | index.js:35-57 | when the agent grants the span on a fresh agent, a root `users.create` start and finish produce the calls `StartSpan("users.create", "node-1")`, `StartTransaction("users.create", "request")`, `EndSpan`, `EndTransaction`, in that order |
| Bookkeeping.RootRequestNullSpanScenario | index.js:35-57 | when the agent answers `startSpan` with null, the same request logs `StartSpan` with a null reply, `StartTransaction`, `EndTransaction` and no `EndSpan`; afterwards `requests` is empty and `spans` still holds a null entry for the id |
| Service.ElasticApmService.constructor | index.js:110-120 | `created` gives empty `requests` and `spans`, a fresh agent with an empty log, and the invariant |
| Service.ElasticApmService.OnSpanStart | index.js:35-43 | the start handler updates the maps in place and calls the agent exactly as `Start` says, keeping the invariant |
| Service.ElasticApmService.OnSpanFinish | index.js:50-57 | the finish handler updates the maps in place and calls the agent exactly as `Finish` says, keeping the invariant |

## Left out

- `APM.start(this.settings)` and its fallback to the module object when it throws (index.js:113-117) call into the agent library. Only their effect is kept: a connected agent with an empty call log.
- What the agent does inside `startSpan`, including when it answers null, is outside the model. That answer is the `granted` parameter.
- `setUserContext` and `setCustomContext` are logged with their argument as an uninterpreted `Blob`.
- Object-prototype keys are not modelled. In JavaScript, ids such as `"__proto__"` or `"toString"` behave differently on a plain `{}` used as a dictionary. The model's `map` treats every string id alike.
- Ids are `string`s. JavaScript's coercion of a non-string or missing `payload.id` to a property key is not modelled.
- Values that `Array.prototype.join` renders are given as strings. A present `null` or `undefined`, which renders as `""`, is `Some("")`. Numbers and objects are not rendered.
- The service definition's name, default settings and event/method registration (index.js:11-28) are framework configuration with no logic.
- Concurrency is not modelled. Events run one at a time on Node's event loop, here as a sequence given to `Run`.
- An identifier codec, tag flattening, a per-service tracer registry, error tags and span timestamps do not appear in index.js. They are not part of this model.
