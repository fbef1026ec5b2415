# mxd-new-assets, modelled in Dafny

The mxd-new-assets node is a Node-RED node. On a fixed interval it queries a
media catalog for newly licensed movies and seasons. It sends on only the
assets whose ids it did not see in its last successful poll. This project
models one poll (a "tick") and the one piece of state that outlives it: the
set `lastRunAssets` of ids seen in the last successful tick.

A tick has three parts, one module each, plus the node itself:

- `Queries` (`queries.dfy`): the query planner. The `content` setting
  (`all`, `movies`, `seasons`) and the `area` setting (`all`, `package`,
  `store`) become a list of query values. Each query is an ordered list of
  filters plus a sort order. `Plan` describes the result declaratively.
  `BuildQueries` follows the node's steps: push one builder per content
  type, append the area filter to each, then finish each.
- `Fetch` (`fetch.dfy`): fetching and merging. The catalog client is a
  parameter `fetch` from a query to a resolved response (`Assets(list)` or
  `Rejected`). `FetchAll` awaits every request. `MergeResponses` reduces the
  responses by concatenation with no starting value, so with no query there
  is nothing to reduce and the tick fails.
- `Novelty` (`novelty.dfy`): the novelty tracker. `Scan` is the
  classification loop. "First run" is decided once, from the old seen set.
  An asset is new when its id is not in that old set. Every id is collected
  for the next tick. `Observe` is the specification of this step.
- `Node` (`node.dfy`): the class `NewAssetsNode`. It has the two settings as
  constants and `lastRunAssets` as a mutable field. `Tick` runs one poll and
  returns its `Outcome`: `Failed(error)`, `Silent` (success with nothing to
  send), or `Sent(newAssets)`. `Cycle` is the specification of a tick,
  written as a function of the seen set before it.

The behaviour proved:

- A failed tick leaves `lastRunAssets` unchanged. A tick fails when a request
  is rejected, when no query is planned, or when the merged list is empty.
- The first run sends nothing, but it records the ids it fetched.
- After every successful tick, `lastRunAssets` is not empty. It is exactly
  the set of ids fetched in that tick: a replacement, not a union.
- Because the set is replaced, an id that drops out of one tick is reported
  as new again when it comes back.

This last behaviour may or may not be intended by the authors. The model
keeps it as the code has it.

Three points where one might expect other behaviour from a poller like this
one; the model does what the code does:

- With no query planned (an unknown `content` value), one might expect a
  configuration warning and no fetch. The code awaits an empty list of
  requests. It then reduces an empty array with no starting value, which
  throws. The model returns `Failed(NoResponses)`.
- One might expect an empty merged result to be a quiet no-op. The code
  throws. The model returns `Failed(NoAssets)`. Either way, nothing is sent
  and the seen set is kept.
- One might expect query order not to matter. The code creates the movies
  query before the seasons query, and concatenates responses in that order.
  New assets keep that order.

## Model

| member | source | states |
|---|---|---|
| Queries.PlanCount | src/mxd-new-assets.js:11-20 | `all` plans two queries, movies first and seasons second; `movies` or `seasons` plans one query of that type; any other `content` plans none |
| Queries.PlanAreaFilter | src/mxd-new-assets.js:22-27 | `all` adds no area filter. Any other area adds exactly one filter, right after the content filter: `hasPackageContent` for `package`, `availableWithoutPackage` for `store`, and the undefined lookup result otherwise |
| Queries.PlanSuffix | src/mxd-new-assets.js:29-34 | every planned query ends with the filters `new` then `notUnlisted`, and is sorted by `activeLicenseStart` descending |
| Queries.BuildQueries | src/mxd-new-assets.js:9-35 | the push, forEach and map steps produce exactly the declarative plan `Plan(content, area)` |
| Queries.AppendToEach | src/mxd-new-assets.js:23-26 | the forEach appends the area filter to every query and changes nothing else |
| Queries.FinishEach | src/mxd-new-assets.js:29-33 | every query gets `new` and `notUnlisted` after its filters, and the newest-first sort |
| Fetch.FetchAll | src/mxd-new-assets.js:29-36 | awaiting all requests yields nothing when any request is rejected; otherwise it yields every response, in query order |
| Fetch.MergeResponses | src/mxd-new-assets.js:37 | the reduce yields nothing for zero responses, and otherwise the concatenation of the responses in order |
| Fetch.FlattenLength | src/mxd-new-assets.js:37 | the merged list is as long as all responses together |
| Fetch.FlattenAppend | src/mxd-new-assets.js:37 | merging keeps query order: merging two runs of responses gives the first run's merge followed by the second's |
| Fetch.FlattenMembership | src/mxd-new-assets.js:37 | an asset is in the merged list exactly when some response holds it |
| Novelty.IdsMembership | src/mxd-new-assets.js:46-53 | an id is in the collected set exactly when some fetched asset carries it |
| Novelty.FreshMembership | src/mxd-new-assets.js:48-51 | an asset is kept as new exactly when it was fetched and its id is not in the old seen set |
| Novelty.FreshAppend | src/mxd-new-assets.js:47-53 | new assets keep the order in which they were fetched |
| Novelty.Observe | src/mxd-new-assets.js:42-59 | the seen set becomes exactly this tick's ids and is not empty. The first run sends nothing. Otherwise a message goes out exactly when some fetched id was not seen before. Its payload holds exactly the fetched assets with unseen ids |
| Novelty.Scan | src/mxd-new-assets.js:42-53 | the loop computes the new assets against the old seen set, which it only reads, and collects this tick's ids |
| Novelty.DroppedIdIsNewAgain | src/mxd-new-assets.js:46-54 | an id absent from one successful tick is reported again when a later tick fetches it, even if it was seen earlier |
| Novelty.RelistingScenario | src/mxd-new-assets.js:42-59 | the delisting example: seen {1,2}, fetching 1,2,3 sends 3 and sees {1,2,3}; fetching 2,3 sends nothing and sees {2,3}; fetching 1,2 sends 1 again |
| Node.Cycle | src/mxd-new-assets.js:8-59 | a failed tick keeps the seen set and a successful one leaves it non-empty; the first run never sends; a tick fails as rejected exactly when some planned request is rejected, and fails for want of responses exactly when no query is planned |
| Node.MergedAssets | src/mxd-new-assets.js:29-37 | when every request succeeds, the merged list holds exactly the assets the planned queries answered |
| Node.EmptyResultFails | src/mxd-new-assets.js:38-40 | successful requests that answer no asset make the tick fail with the seen set unchanged |
| Node.NoAssetsExactlyWhenAllEmpty | src/mxd-new-assets.js:36-40 | a tick fails for want of assets exactly when queries were planned and every one was answered with an empty list, so a tick whose requests all succeed with at least one asset does not fail |
| Node.SuccessReplacesSeen | src/mxd-new-assets.js:46-54 | after a successful tick, an id is seen exactly when some planned query of that tick answered an asset with it |
| Node.SuccessSendsExactlyNew | src/mxd-new-assets.js:48-59 | after a successful tick that is not the first run, an asset is sent exactly when the tick fetched it and its id was not in the old seen set |
| Node.DroppedIdIsReportedAgain | src/mxd-new-assets.js:46-54 | an id missing from one successful tick is sent when a later tick whose requests all succeed fetches it |
| Node.NewAssetsNode.constructor | src/mxd-new-assets.js:4-7 | the node keeps its `content` and `area` settings and starts with no seen ids |
| Node.NewAssetsNode.Tick | src/mxd-new-assets.js:8-59 | one tick's outcome and new seen set are those of `Cycle` on the old seen set; a failed tick leaves `lastRunAssets` unchanged, and a successful one leaves it non-empty |

## Left out

- The host runtime: creating the node, reading its settings, looking up the
  catalog service, scheduling ticks, setting the status and sending the
  message (src/mxd-new-assets.js:1-8, 56-58). The settings are constructor
  arguments. The message is the `Sent` outcome. A thrown error is a `Failed`
  outcome. The status texts are not modelled.
- The catalog client and its query builder class are library code. A query
  is a value. The builder's `filter` is assumed to append and its `sort` to
  set the sort order. The client is the `fetch` parameter, and what it
  returns is taken as already resolved.
- Concurrency of the requests: only the combined outcome is modelled. The
  rejection reason, and which rejection wins when several fail, are not
  modelled.
- An `area` name that the lookup table inherits from JavaScript's object
  prototype (`toString`, `constructor`, ...) yields a function rather than
  `undefined`. The model treats every unknown area name as `Undefined`.
- Responses that are not arrays: each response is taken to be a list of
  asset records. Fields other than `id` are an opaque `record` string.
- Distinct records: the new assets are collected in a JavaScript `Set` of
  record objects, modelled as a sequence in insertion order. This assumes
  that every fetched record is a distinct object. If the catalog client
  returned the same object twice, the code would send it once and the model
  twice.
- Cancellation and persistence across restarts: the node has neither; its
  state lives in memory only.
