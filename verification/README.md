# Verified model of the jqhtml runtime and compiler core

This project models the parts of jqhtml that carry its hardest promises, and proves those promises for every
input, every run or every reachable state. Code that works in place is modelled as a class or a loop and proved
equal to a specification function; protocols are event-loop systems whose steps are those functions, with any
interleaving of steps and arbitrary author code.

`dafny verify dfyconfig.toml` checks everything.

| files | what is modelled |
|---|---|
| `component_queue.dfy`, `lifecycle_runs.dfy`, `lifecycle_fields.dfy`, `lifecycle_ready.dfy`, `lifecycle_history.dfy`, `lifecycle_theorems.dfy`, `lifecycle_merging.dfy`, `lifecycle_firing.dfy`, `lifecycle_progress.dfy`, `lifecycle_awaits.dfy`, `lifecycle_rest.dfy` | the per-component lifecycle lock and queue: boot, queue entries, promotion into a running `on_ready()`, deferred release, the hand-off gap, the owed 'ready', and what failing executors do to it |
| `load_coordinator.dfy`, `load_runs.dfy`, `load_adoption.dfy` | deduplicated first loads: leaders, followers, the registry |
| `serializer.dfy`, `serializer_theorems.dfy`, `serializer_text.dfy`, `serializer_graph.dfy`, `serializer_foreign.dfy` | the class-aware cache serializer, on values and on object graphs |
| `cache_key.dfy`, `cache_key_theorems.dfy`, `cache_key_objects.dfy` | the cache-key serializer |
| `component_cache.dfy`, `cache_runs.dfy`, `cache_theorems.dfy`, `cache_hits.dfy`, `cache_order.dfy`, `cache_data_key.dfy`, `cache_callers.dfy` | the bookkeeping of which key cached data is filed under, with loads that overlap and results that wait for their turn |
| `boot.dfy`, `boot_runs.dfy`, `boot_steps.dfy`, `boot_bottom_up.dfy`, `boot_snapshot.dfy`, `boot_records.dfy`, `boot_theorems.dfy`, `boot_lost.dfy`, `boot_half.dfy` | boot of a tree of components, with render(), reload(), refresh() and load() called on them meanwhile and later |
| `component_events.dfy`, `event_runs.dfy`, `event_theorems.dfy`, `event_sticky.dfy` | re-entrant events and `once()` |
| `white_space.dfy`, `style_merge.dfy`, `style_merge_theorems.dfy`, `style_merge_text.dfy`, `style_important.dfy`, `style_parts.dfy` | inline style merging |
| `uid.dfy`, `rescoping.dfy` | component ids and the rescoping of cached HTML |
| `js_strings.dfy`, `js_literal.dfy` | the JavaScript literals the compiler emits |
| `html_attribute.dfy`, `html_references.dfy`, `inherited_names.dfy` | character references in attribute values, and the runtime's escaping |
| `codegen.dfy`, `codegen_theorems.dfy`, `codegen_outline.dfy`, `push_merging.dfy`, `push_complete.dfy`, `push_runs.dfy`, `push_bodies.dfy`, `push_theorems.dfy`, `push_parsing.dfy` | line-preserving code generation and the merging of pushes |

## What turned out not to hold

Each of these is a lemma with a concrete input or run, beside the exact condition under which the code does what
it promises.

- `PushTheorems.BracelessHeadDiffers`: merging pushes looks at one line only. After a line that ends in an open head -
  `<% if (this.data.c)` and on the next line `%><b>hi</b>` -, a false condition skips the first push of the next line,
  and the whole of it once merged. A generated line runs alike exactly if it does not begin as the body of such a head
  or begins with at most one push (`LineRunsAlikeExactly`, `AlikeExactly`).
- `PushTheorems.ThrowDiffers`: an argument that throws takes the pushes merged with it along, which shows if an
  author's `try` catches it. One run of pushes does the same merged exactly if none throws after something of the run
  was pushed (`PushRuns.RunMerges`).
- `PushParsing.EmptyPushBreaks`: a push an author writes with no arguments, right before another one, is merged into
  `_output.p(, "b");`, which does not parse. The merged line parses exactly if every push with another right after it has
  a list of arguments that is not empty and does not end in a comma (`LineParsesExactly`).
- `LifecycleAwaits.OverlapLosesOuterReady`: a call awaited in `on_ready()` is promoted exactly if the chain of hook runs
  has not been cut since one of the `on_ready()` runs that still run began (`AwaitedCallRuns`): a settling head whose
  predecessor has already settled cuts it (`ChainStepExactly`, `OnChainExactly`). When two promoted calls' `on_load()`
  runs overlap, the one that settles last does that, `_async_hook` is null while the outer `on_ready()` still runs,
  and a call awaited there afterwards is never promoted: `on_ready()` waits for it forever. Settling innermost first
  never cuts it (`InnermostFirst`).
- `LifecycleRest.FailedCycle`: a `render()` whose executor throws after rendering leaves a ready component without
  'ready'; a failing `reload()` or `refresh()` puts it back. At rest a component is ready exactly if, since 'ready' last
  fired, no executor that should have reached its 'ready' point ended without and left it not ready
  (`ReadyAtRestExactly`, `LostOnlyShort`).
- `BootLost.FailedRenderHangsParent`: for that reason a parent that waits for such a child waits forever.
  `BootLost.ThrowingStopHangsParent`: so does one whose child's `on_stop()` throws while it waits, which keeps 'stop' from
  firing. At rest every component is ready or stopped exactly when there is no such child
  (`BootTheorems.RestIsSettled`).
- `BootHalf.ReloadingChildPasses`: a parent skips a child in the ready state whose `reload()` has already taken the
  sticky 'ready' away, and runs its `on_ready()` while the child fetches. `BootHalf.RenderingChildPasses`: a child whose
  `render()`, queued behind a `refresh()`, has left the ready state still has the sticky 'ready' of the refresh, which
  releases the parent at once. A look passes over a child that is neither ready nor stopped exactly if it has just one of
  the two (`BootBottomUp.LookSkipsExactly`), which takes a call that runs or waits, or one that failed
  (`HalfReadyInCalls`); every other child found was ready or stopped since the look when `on_ready()` runs (`BottomUp`).
- `CacheCallers.MovedArgsMisfile`: `load()` recomputes its cache key when `on_load()` is over, so args that change
  meanwhile file the data under a key no load has produced it for. `CacheCallers.OvertakenReloadMisfiles`: so does a
  `reload()` whose result waits behind another's slow `on_loaded()` while a third begins for other args, because it
  writes under `_cache_key`, which is the third's by then. A result is written under its own key exactly if - of a
  `load()` - the args have that key when it ends, or - of boot's load or a `reload()` - the last of these begun when its
  turn comes has that key (`CacheTheorems.WrittenUnderOwnKey`). Everything is filed right if no result is written
  otherwise (`FiledUnderItsKey`), which callers ensure by leaving the args alone during `load()` and beginning no
  `reload()` under another key while a result waits (`CacheCallers.UndisturbedFilesWell`).
- `CacheCallers.ReturningDataIsUnfiled`: with the args left alone, a third `reload()` that brings back the data it began
  with, after the second's result has been applied in between, counts as unchanged, and `_data_cache_key` goes on naming
  the entry that holds the second's. All through a run the data key tells where the present data is filed exactly if no
  such result is applied (`CacheDataKey.DataKeyIsMeant`), and that is so if no load begins while a result waits
  (`InTurnIsMeant`).
- `SerializerTheorems.NanItemIsLost`: a Set of NaN and null is written `[null,null]` and restored with one item, so
  the text it was normalized through is not its serialized form. The fixpoint holds exactly when the restored keys
  of every Map and items of every Set are distinct (`NormalizeIsFixpoint`).
- `SerializerTheorems.SnapshotExact`: a snapshot gives `on_load()` back exactly what `on_create()` left only if that is
  expressible: negative zero, for one, comes back as zero.
- `InheritedNames.ConstructorIsRead`: the entity table is an object literal, so `title="&constructor"` finds
  `Object.prototype.constructor` and becomes the text of a function. A value is decoded as the table says exactly if no
  reference to an inherited name stands in it (`DecodesAsTheTable`).
- `HtmlAttribute.EscapeRoundTrip`: a value survives escaping and decoding exactly when it holds no NUL.

Of the load coordinator alone, `LoadRuns.NullResultStays` says that an entry is freed by its followers' collecting exactly
if its result is not null; `_load()` always completes with a text.

The comment at packages/core/src/style-merge.ts:18-19 says that property names compare ASCII case-insensitively;
the code uses `toLowerCase()`, which folds other letters too. The model follows the code: the folding is a parameter, and the
results hold for any.

## Model

| member | source | states |
|---|---|---|
| ComponentQueues.ComponentQueue.BeginBootNow | packages/core/src/component-queue.ts:60-63 | boot takes the lock; the whole new state |
| ComponentQueues.ComponentQueue.EndBootNow | packages/core/src/component-queue.ts:69-73 | boot's end releases the lock once; a second call changes nothing |
| ComponentQueues.EndBootOnce | packages/core/src/component-queue.ts:66-74 | ending boot again does nothing |
| ComponentQueues.ComponentQueue.EnqueueCall | packages/core/src/component-queue.ts:85-113 | an idle queue starts the call; a busy one merges it with the last pending entry of its key only, or appends an entry |
| ComponentQueues.ComponentQueue.PromoteEntry | packages/core/src/component-queue.ts:123-136 | promotes exactly the entries still pending, and takes them out of the queue |
| ComponentQueues.ComponentQueue.PromotedEntryEnded | packages/core/src/component-queue.ts:128-134 | the last promoted entry to end runs a deferred release |
| ComponentQueues.ComponentQueue.ReleaseNow | packages/core/src/component-queue.ts:171-199 | release is deferred behind promoted entries, idles an empty queue at once, and otherwise hands off on the next macrotask |
| ComponentQueues.ComponentQueue.HandoffTimer | packages/core/src/component-queue.ts:191-199 | the hand-off starts the oldest pending entry, or idles a queue that emptied meanwhile |
| LifecycleMethods.LifecycleFields.HookStarts | packages/core/src/component.ts:521-524 | a hook run becomes the innermost of the chain |
| LifecycleMethods.LifecycleFields.HookSettles | packages/core/src/component.ts:527-532 | a settling run leaves the chain only if it is its head |
| LifecycleMethods.LifecycleFields.BootReadyPoint | packages/core/src/component.ts:1843-1858 | at boot's ready point 'ready' fires or is owed, by whether calls are pending or promoted ones run |
| LifecycleMethods.LifecycleFields.EntryReadyPoint | packages/core/src/component.ts:1921-1927 | the same for a render, reload or refresh entry |
| LifecycleMethods.LifecycleFields.OnQueueIdle | packages/core/src/component.ts:1934-1938 | an idle queue fires exactly an owed 'ready' of a live component |
| LifecycleTheorems.MutualExclusion | packages/core/src/component-queue.ts:60-200 | in every reachable state at most one unpromoted executor; nothing, promoted entries included, beside a scheduled hand-off |
| LifecycleTheorems.PromotionIsNested | packages/core/src/component.ts:1992-2013 | promotion never happens in the hand-off gap: boot or an entry holds the lock past its work, or a promoted entry runs |
| LifecycleTheorems.BusyExactly | packages/core/src/component-queue.ts:60-200 | `_busy` holds exactly while boot, a running entry, a scheduled hand-off or a deferred release exists |
| LifecycleTheorems.HolderNeverOutdated | packages/core/src/component.ts:1116-1120 | no lock holder's render or load is outdated before its `on_ready()` |
| LifecycleTheorems.OwedReadyHasLock | packages/core/src/component.ts:1850-1856 | an owed 'ready' on a live component implies a busy queue |
| LifecycleTheorems.ReadyAtRest | packages/core/src/component.ts:1934-1938 | when the queue rests and no executor has thrown, 'ready' has fired since everything that invalidated it |
| LifecycleRest.ReadyAtRestExactly | packages/core/src/component.ts:2395-2424 | whatever threw: when the queue of a live component rests it is ready exactly if, since 'ready' last fired, no executor due at its 'ready' point ended without and left it not ready |
| LifecycleRest.LostOnlyShort | packages/core/src/component.ts:2409-2423 | only a throw that restores nothing, the return of an executor of a stopped component, or the stale return of a promoted one, loses 'ready' so |
| LifecycleRest.FailedCycle | packages/core/src/component.ts:1083-1134 | a render() that throws after rendering leaves a ready component not ready, a reload() or refresh() that does leaves it ready |
| LifecycleMethods.LifecycleFields.ReloadFails | packages/core/src/component.ts:2417-2421 | a failing reload puts 'ready' back exactly if it had found it on a component still alive |
| LifecycleTheorems.Conservation | packages/core/src/component-queue.ts:85-113 | every caller is in exactly one of pending, running (promoted or not) and settled |
| LifecycleTheorems.OnePlace | packages/core/src/component-queue.ts:96-112 | a caller stands on one entry, once |
| LifecycleTheorems.SettledFresh | packages/core/src/component-queue.ts:142-164 | callers are settled by an entry with their own key that started no earlier than the call |
| LifecycleTheorems.SettledOnce | packages/core/src/component-queue.ts:155-164 | no step settles a caller twice |
| LifecycleTheorems.StartsInTurn | packages/core/src/component-queue.ts:185-199 | unpromoted entries start oldest first, each after the callers of the one before were settled |
| LifecycleTheorems.EntriesInCallOrder | packages/core/src/component-queue.ts:96-112 | a later call is never on an earlier entry, promotions aside |
| LifecycleMerging.MergesExactly | packages/core/src/component-queue.ts:85-113 | in every reachable state a call is put on an earlier caller's entry exactly if the queue is busy and the last entry waiting has its key - then on that entry, and no other comes or begins -, and otherwise on one of its own, last in line or begun at once |
| LifecycleMerging.SettledTogether | packages/core/src/component-queue.ts:155-164 | calls put on one entry are settled at one moment, or none of them yet |
| LifecycleMerging.StaysOnEntry | packages/core/src/component-queue.ts:98-112 | no step moves a call to another entry |
| LifecycleFiring.FiresExactly | packages/core/src/component.ts:1843-1858 | at its ready point boot fires 'ready' exactly if nothing waits and nothing promoted runs, an entry exactly if nothing promoted runs and 'ready' is not owed; a promoted entry never does |
| LifecycleFiring.OwedFiresAtRest | packages/core/src/component.ts:1921-1938 | an owed 'ready' fires when the queue goes idle, or at boot's own ready point with nothing waiting or promoted |
| LifecycleFiring.StoppedExactly | packages/core/src/component.ts:2606-2661 | a component is stopped exactly if it was told to stop or its boot threw, and from then on no 'ready' fires on it |
| LifecycleProgress.NeverStuck | packages/core/src/component-queue.ts:60-200 | in every reachable state every executor in flight can go on, and as long as the queue is busy something can |
| LifecycleProgress.RunsDry | packages/core/src/component-queue.ts:60-200 | left alone - no new call, no throw, of hooks to begin only on_ready() - the lifecycle comes to rest within a number of steps linear in the entries, in any order |
| LifecycleProgress.RestIsDone | packages/core/src/component-queue.ts:142-199 | and at rest the queue is idle and every caller has been settled |
| LifecycleAwaits.OnChainExactly | packages/core/src/component.ts:521-532 | in every reachable state a running hook run is on the chain exactly if no step since it began has cut the chain |
| LifecycleAwaits.ChainStepExactly | packages/core/src/component.ts:527-532 | a step takes a running hook run off the chain exactly if it settles the head and the run before the head has already settled |
| LifecycleAwaits.AwaitedCallRuns | packages/core/src/component.ts:1976-2013 | while some `on_ready()` runs, awaiting a call made now starts it at once exactly if the chain has not been cut since one of the running `on_ready()` began |
| LifecycleAwaits.InnermostFirst | packages/core/src/component.ts:527-532 | if hook runs settle innermost first the chain is never cut |
| LifecycleAwaits.OverlapLosesOuterReady | packages/core/src/component.ts:527-532 | a concrete run that cuts it, after which an awaited call can never be promoted |
| LoadCoordinators.LoadCoordinator.ShouldExecuteOnLoad | packages/core/src/load-coordinator.ts:200-218 | a component follows exactly a 'loading' entry, and is put on its list |
| LoadCoordinators.LoadCoordinator.RegisterLeader | packages/core/src/load-coordinator.ts:226-256 | a fresh entry with a fresh promise replaces whatever the key had |
| LoadCoordinators.LoadCoordinator.GetCoordinationPromise | packages/core/src/load-coordinator.ts:262-270 | only a 'loading' entry has a promise to wait for |
| LoadCoordinators.LoadCoordinator.CompleteCoordination | packages/core/src/load-coordinator.ts:283-315 | completion stores the text, resolves the promise, and frees an entry nobody waits for |
| LoadCoordinators.LoadCoordinator.GetLeaderData | packages/core/src/load-coordinator.ts:324-360 | collecting gives the text, takes the follower off the list, and frees the entry with the last one |
| LoadCoordinators.LoadCoordinator.HandleLeaderError | packages/core/src/load-coordinator.ts:370-403 | failure rejects the promise and frees the entry |
| LoadRuns.SingleFlight | packages/core/src/load-coordinator.ts:200-256 | in every run each leader in progress owns the one 'loading' entry of its key, and every 'loading' entry has such a leader |
| LoadRuns.SettledExactlyOnce | packages/core/src/component.ts:1592-1650 | on success, throw, stop, supersession and failed apply alike, a leader settles its promise exactly once |
| LoadRuns.NoOrphans | packages/core/src/component.ts:1526-1575 | a waiting follower can wake, or is on the list of a leader in progress |
| LoadRuns.AdoptsOwnKey | packages/core/src/component.ts:1559-1571 | a follower adopts only the text of a finished leader of its own key |
| LoadAdoption.FollowerAdopts | packages/core/src/component.ts:1559-1590 | a follower that wakes after its leader completed adopts that leader's text as long as nobody has led under the key since, else a newer leader's, and loads on its own exactly if no completed entry is there |
| LoadAdoption.AdoptedWasSaid | packages/core/src/load-coordinator.ts:283-315 | whatever a follower adopts is the text the application of the load it names came to |
| LoadRuns.CollectedEntriesGo | packages/core/src/load-coordinator.ts:331-352 | once every follower of a key has collected, the key has no entry or one that is loading |
| LoadRuns.NullResultStays | packages/core/src/load-coordinator.ts:283-352 | of the coordinator alone: a completed entry is freed by its followers' collecting exactly if its result is not null |
| Serializer.MapOfExact | packages/core/src/local-storage.ts:220-223 | `new Map(entries)` is the entries exactly when no two keys are the same, and otherwise shorter |
| Serializer.SetOfExact | packages/core/src/local-storage.ts:224-227 | the same for `new Set(items)` |
| Serializer.CollectionsRestore | packages/core/src/local-storage.ts:694-713 | a stored Map or Set restores from null as an empty one, and to null from anything but a list - for a Map, of pairs |
| Serializer.InstanceRestores | packages/core/src/local-storage.ts:704-706 | an instance gets the own properties of what its stored form restores to |
| Serializer.SameKeyIs | packages/core/src/local-storage.ts:220-227 | a restored Map or Set takes two keys or items for one exactly if they are equal primitives |
| SerializerTheorems.WrittenWell | packages/core/src/local-storage.ts:338-548 | what is written for marker-free data of registered classes has markers only in class objects, and nothing that reads back as a DOM node, jQuery object, component or promise |
| SerializerTheorems.Rewritten | packages/core/src/local-storage.ts:662-722 | restoring such a wire and serializing again gives it back exactly when its Maps and Sets have distinct keys and items |
| SerializerTheorems.NormalizeIsFixpoint | packages/core/src/local-storage.ts:1102-1128 | the text a value was normalized through is the result's serialized form, and normalizing again changes nothing, under exactly that condition |
| SerializerTheorems.NanItemIsLost | packages/core/src/local-storage.ts:1102-1128 | a Set of NaN and null for which it is not |
| SerializerTheorems.SnapshotExact | packages/core/src/local-storage.ts:1130-1157 | a restored snapshot is the value itself, undefined properties included, exactly when the value is expressible, which -0 is not |
| SerializerForeign.DuckTypedAreDropped | packages/core/src/local-storage.ts:376-398 | of objects that carry their own properties exactly those are dropped that have a number as `nodeType`, a `jquery` that counts as true, a `_cid` beside a function `component_name`, or a function `then` |
| SerializerForeign.DroppedExactly | packages/core/src/local-storage.ts:376-506 | on a graph a reference is dropped exactly if it is to such an object, to an ancestor, or to an instance whose to_plain throws |
| SerializerText.KeyShows | packages/core/src/local-storage.ts:160-170 | a key anywhere in a value shows in its JSON text in quoted form |
| SerializerText.FastPathIsTheWalk | packages/core/src/local-storage.ts:638-660 | every text JSON.stringify prints, of whatever value, is read back as the walk would read it |
| SerializerGraph.Ancestors.Process | packages/core/src/local-storage.ts:400-469 | the walk of any finite graph ends, returns with the ancestor set as it found it, and computes `Walk` |
| SerializerGraph.Ancestors.ProcessItems | packages/core/src/local-storage.ts:418-428 | dropped array items are null, positions kept |
| SerializerGraph.Ancestors.ProcessOwnProperties | packages/core/src/local-storage.ts:527-548 | dropped properties are left out, order kept |
| SerializerGraph.WalkWritesUnfolding | packages/core/src/local-storage.ts:400-469 | on any graph the walk writes the unfolding in which only references to an ancestor are cut |
| SerializerGraph.AcyclicIsTree | packages/core/src/local-storage.ts:400-469 | on every acyclic graph, shared nodes included, it writes exactly the tree |
| SerializerGraph.FollowsWalk | packages/core/src/local-storage.ts:400-469 | whatever a path of distinct objects reaches is written at that path |
| SerializerGraph.OnlyBackEdgesDropped | packages/core/src/local-storage.ts:400-469 | a reference to a serializable object is dropped exactly when it points to one of its ancestors |
| CacheKey.WalkState.PushText | packages/core/src/cache-key-serializer.ts:57-63 | counts the text, and declines past 500 |
| CacheKey.WalkState.WalkValue | packages/core/src/cache-key-serializer.ts:73-140 | gives the outcome of `Walk`, reasons included, and leaves the ancestors as it found them |
| CacheKey.SerializeForCacheKey | packages/core/src/cache-key-serializer.ts:148-157 | the result of the whole walk |
| CacheKeyTheorems.SortIncreasing | packages/core/src/cache-key-serializer.ts:125 | sorting distinct keys keeps exactly them, in strictly increasing code-unit order |
| CacheKeyTheorems.WalkEncodes | packages/core/src/cache-key-serializer.ts:73-140 | the walk gives the encoding of the data exactly when the data is plain and fits, and otherwise declines |
| CacheKeyTheorems.EncodeInjective | packages/core/src/cache-key-serializer.ts:65-71 | the encoding is a prefix code: a text followed by a separator or bracket determines its data |
| CacheKeyTheorems.KeysAreExact | packages/core/src/cache-key-serializer.ts:1-23 | two keys are equal exactly when the arguments are the same data, key order aside |
| CacheKeyTheorems.KeyIsBounded | packages/core/src/cache-key-serializer.ts:33-38 | exactly the plain data of counted size at most 500 becomes a key, of at most 2*size-1 <= 999 units |
| CacheKeyTheorems.CycleDeclines | packages/core/src/cache-key-serializer.ts:93-94 | a value from which some object reaches itself is declined |
| CacheKeyTheorems.SharedIsFine | packages/core/src/cache-key-serializer.ts:40-41 | without a cycle nothing is declined as circular |
| CacheKeyObjects.ImpostorsDecline | packages/core/src/cache-key-serializer.ts:89-93 | what has a number as its own `nodeType` is declined as a DOM node, else what has a `jquery` that counts as true as a jQuery object, both before a cycle is looked for |
| CacheKeyObjects.ObjectIsItsProperties | packages/core/src/cache-key-serializer.ts:89-134 | an object is plain data exactly if it is neither of these nor an ancestor and all its values are, and then it is the map from each of its keys to that key's own value |
| ComponentCache.CacheFields.ReadCacheInCreate | packages/core/src/component-cache.ts:187-297 | the boot-time read in data mode: key, hydration and data key |
| ComponentCache.CacheFields.CheckCacheOnReload | packages/core/src/component-cache.ts:312-375 | the reload's key refresh and read |
| ComponentCache.CacheFields.WriteCacheOnLoaded | packages/core/src/component-cache.ts:439-488 | which loads are written, under which key, and what the data key becomes |
| ComponentCache.CacheFields.FinishLoad | packages/core/src/component.ts:1217-1232 | the same for `load()` |
| ComponentCache.CacheFields.StartLoad | packages/core/src/component.ts:2476-2488 | a load's number, the key and the data it begins with, and a reload's cache check |
| ComponentCache.CacheFields.OnLoadEnded | packages/core/src/component.ts:1947-1956 | only the newest load's result counts: `load()` applies it at once, boot and `reload()` queue it |
| ComponentCache.CacheFields.TakeTurn | packages/core/src/component.ts:1746-1809 | the oldest waiting result is applied and written, and holds the queue until its `on_loaded()` is over; a result that is no object changes nothing |
| CacheHits.AppearHydrates | packages/core/src/component-cache.ts:187-297 | a new component begins with what is stored under its key exactly if something is and it may look; it looks exactly if it has a key and may |
| CacheHits.ReloadHydrates | packages/core/src/component-cache.ts:312-375 | a reload() of a component that never failed begins with what is stored under its key, exactly if its args changed, it may look and more than "{}" is stored; its result is compared with that |
| CacheHits.LoadStores | packages/core/src/component-cache.ts:439-488 | in every run, exactly which results are stored, under which key, and that they become the data |
| CacheHits.StoredIsFound | packages/core/src/component-cache.ts:264-269 | what a load stored, not overwritten or evicted since, is what the next component with that key begins with |
| CacheOrder.TurnsInOrder | packages/core/src/component.ts:1746-1756 | in every run the results that wait have their turn once each, in the order they came in, which is the order their loads began in |
| CacheOrder.OneAtATime | packages/core/src/component.ts:1746-1809 | between the turns of two results applied to a component the `on_loaded()` of the first has ended |
| CacheOrder.ThrowRecovers | packages/core/src/component.ts:1665-1714 | a load whose on_load() throws may yet end with what on_load_error() returns, which does not count as produced by on_load() |
| CacheTheorems.FiledUnderItsKey | packages/core/src/component-cache.ts:422-488 | if no result is written after its key has moved, every stored entry, and all that a component ever wrote or was given, was produced by a load with that key |
| CacheTheorems.WrittenUnderOwnKey | packages/core/src/component.ts:1746-1790 | in every run: a result is written under its own key exactly if, for a `load()`, the args have that key when it ends, and otherwise the last boot load or `reload()` begun when its turn comes has it |
| CacheDataKey.DataKeyIsMeant | packages/core/src/component-cache.ts:432-433 | all through a run the data key tells under which key the component last wrote, offered or was given exactly its present data, if and only if no step applies a result equal to the data its load began with, when other data has come meanwhile and the key has not moved |
| CacheDataKey.InTurnIsMeant | packages/core/src/component.ts:1746-1756 | and that is so if no load begins while a result of its component waits for its turn |
| CacheTheorems.FailureEndsCaching | packages/core/src/component.ts:1690-1703 | after its first failed load a component never reads or writes an entry |
| CacheCallers.UndisturbedFilesWell | packages/core/src/component-cache.ts:303-306 | no key moves if args stand still during each `load()` and no `reload()` begins under another key than that of a waiting result |
| CacheCallers.MovedArgsMisfile | packages/core/src/component.ts:1211-1231 | args that change during `load()` file its data under another key |
| CacheCallers.OvertakenReloadMisfiles | packages/core/src/component.ts:1746-1790 | a run of three `reload()`s that files the second's data under the third's key |
| CacheCallers.ReturningDataIsUnfiled | packages/core/src/component-cache.ts:439-465 | a run of three `reload()`s with the same args after which the data key names an entry that holds other data |
| Boot.WaitForChildrenReady | packages/core/src/component.ts:2149-2188 | the wait is for exactly the children that are neither in the ready state nor stopped and have no sticky 'ready' |
| Boot.Booting.Stop | packages/core/src/component.ts:2606-2661 | stopping happens once; a throwing on_stop() fires no event |
| Boot.Booting.FinishRender | packages/core/src/lifecycle-manager.ts:67-99 | the segment of boot up to its load |
| Boot.Booting.FinishLoad | packages/core/src/lifecycle-manager.ts:103-199 | the segment after the load: re-render, or the end of the render chain |
| Boot.Booting.BeginReady | packages/core/src/component.ts:1820-1838 | the segment up to the wait for the children |
| Boot.Booting.FinishRenderWait | packages/core/src/component.ts:2202-2251 | the same once the children of a snapshotting component have rendered |
| Boot.Booting.FinishOnReady | packages/core/src/component.ts:1843-1858 | the segment after on_ready(): boot's, or a call's |
| Boot.Booting.CallOn | packages/core/src/component.ts:1083-1134 | render() invalidates 'ready' at once; a call starts, merges with an equal one waiting last, or waits |
| Boot.Booting.HandOff | packages/core/src/component-queue.ts:191-199 | the oldest waiting call starts, on a stopped component without effect |
| Boot.Booting.FinishFetch | packages/core/src/component.ts:2430-2555 | a reload after its load: render, wait, or 'ready' at once; a load() is over |
| Boot.Booting.FinishRerender | packages/core/src/component.ts:946-964 | a later render leaves the ready state, and a call's looks for the children at once |
| Boot.Booting.ExecutorThrows | packages/core/src/component.ts:2408-2424 | a failing reload() or refresh() puts back the 'ready' it had found; a failing render() does not |
| BootBottomUp.BottomUp | packages/core/src/component.ts:2149-2189 | whenever on_ready() runs, in boot or in a call, each child found at the last look was ready - state and sticky 'ready' - or stopped at some moment since that look, or was half ready at it |
| BootBottomUp.LookSkipsExactly | packages/core/src/component.ts:2166-2185 | a look does not wait for a child that is neither ready nor stopped exactly if that has just one of the ready state and the sticky 'ready' |
| BootBottomUp.HalfReadyInCalls | packages/core/src/component.ts:1086-1097 | a live component has just one of them only while a call runs or waits on it, or after an executor of it threw |
| BootHalf.ReloadingChildPasses | packages/core/src/component.ts:2168-2171 | a run in which the parent's on_ready() runs while its child reloads |
| BootHalf.RenderingChildPasses | packages/core/src/component.ts:2183 | a run in which it runs while its child re-renders, the child's own on_ready() still to come |
| BootTheorems.RunsEnd | packages/core/src/lifecycle-manager.ts:60-258 | a tree of n components on which c calls are made takes at most 18n+9c+17 steps, in any interleaving |
| BootSnapshot.SnapshotWaits | packages/core/src/component.ts:2202-2251 | before its ready phase a live snapshotting component waits, for exactly the children that have neither rendered nor stopped |
| BootSnapshot.SnapshotAfterChildren | packages/core/src/component.ts:2202-2251 | it goes on only when every child it had when the wait began has rendered or stopped |
| BootSnapshot.CallIsEnqueue | packages/core/src/component-queue.ts:85-113 | a call on a component of the tree starts, merges or waits exactly as in the lifecycle queue |
| BootSnapshot.HandOffIsTimer | packages/core/src/component-queue.ts:191-199 | and the hand-off starts the same call |
| BootRecords.StoppedGoesIdle | packages/core/src/component.ts:2608-2615 | whatever a stopped component was doing, its next step ends it, and fires no 'ready' |
| BootRecords.KidsExactly | packages/core/src/component.ts:706-745 | the children waited for are exactly those spawned since the last render began that have not left by stopping |
| BootRecords.InReadyStateExactly | packages/core/src/component.ts:946-964 | a component is in the ready state exactly if 'ready' has fired on it and since then no later render has ended, no reload() or refresh() has applied data or rendered from the cache, and no call has thrown after one of these |
| BootTheorems.RestIsSettled | packages/core/src/component.ts:2085-2189 | at rest all components are ready or stopped exactly when no child's on_stop() threw while its parent, still alive, waited for it, and no live component's executor threw with 'ready' gone and not come back |
| BootTheorems.NoDeadlock | packages/core/src/lifecycle-manager.ts:60-258 | without a throwing on_stop() or a throwing render(), every tree whose hooks end - by throwing too, in boot and in the other calls - settles completely, whatever is removed and whatever is called, calls awaited in an on_ready() aside |
| BootLost.ThrowingStopHangsParent | packages/core/src/component.ts:2641-2652 | a concrete run in which a throwing on_stop() leaves the parent waiting |
| BootLost.FailedRenderHangsParent | packages/core/src/component.ts:1083-1134 | a concrete run in which a child's throwing render() does |
| ComponentEvents.Events.EventOn | packages/core/src/component-events.ts:33-54 | registers, and fires at once exactly an event that has occurred, with its payload |
| ComponentEvents.Events.EventOnce | packages/core/src/component-events.ts:66-104 | fires at once or registers, never both |
| ComponentEvents.Events.EventTrigger | packages/core/src/component-events.ts:114-127 | records the payload and copies the callbacks |
| ComponentEvents.Events.CallEntry | packages/core/src/component-events.ts:84-94 | a wrapper runs its handler the first time only, and then removes itself alone |
| ComponentEvents.Events.SpliceOut | packages/core/src/component.ts:2236-2242 | splicing a handler out removes its first registration and no other |
| EventTheorems.OnceAtMostOnce | packages/core/src/component-events.ts:66-104 | under any nesting, removals in the middle of a dispatch included, a once() handler runs at most once, fires at once or is registered, and stays registered exactly until it runs |
| EventTheorems.DispatchReachesAll | packages/core/src/component-events.ts:114-136 | an ended dispatch called each plain handler present at its start exactly once, in order, also one removed meanwhile, and every once() handler among them has run |
| EventTheorems.DispatchStaysInSnapshot | packages/core/src/component-events.ts:118-127 | a dispatch calls only what was registered when it began, with its own payload |
| EventTheorems.StickyIsLast | packages/core/src/component-events.ts:114-116 | a late subscriber is given the payload of the last trigger |
| EventSticky.StickyExactly | packages/core/src/component-events.ts:114-167 | an event is sticky exactly if it has been triggered, and not invalidated since the last time |
| EventSticky.LateSubscriber | packages/core/src/component-events.ts:33-104 | who subscribes to it then is called at once with the payload of its last trigger, and otherwise not; on() registers either way, once() only if it was not called |
| EventTheorems.PlainStays | packages/core/src/component.ts:2091-2103 | a plain handler is registered in a later state exactly if it has not been spliced out since |
| StyleMerge.SplitTopLevel | packages/core/src/style-merge.ts:34-85 | the loop computes `Split` |
| StyleMerge.ParseStyleDeclarations | packages/core/src/style-merge.ts:90-102 | the loop computes `Parse` |
| StyleMerge.MergeStyle | packages/core/src/style-merge.ts:119-134 | the ordered-map loop computes the printed resolution of loser then winner |
| StyleMergeTheorems.ResolveIsCascade | packages/core/src/style-merge.ts:108-134 | the merge keeps, per property and in list order, the last important declaration if there is one and otherwise the last |
| StyleMergeTheorems.ResolveAssociative | packages/core/src/style-merge.ts:119-134 | three styles resolve alike in either grouping |
| StyleImportant.IsImportantExactly | packages/core/src/style-merge.ts:106 | a value is important exactly if it ends in "!", white space if any, and "important" in whatever case |
| StyleImportant.MergeTwo | packages/core/src/style-merge.ts:119-134 | of two declarations of one property the winner is left, unless the loser alone ends in `!important`; of different properties - custom ones compared as written, others folded - both are, the loser first |
| StyleMergeText.SplitRejoins | packages/core/src/style-merge.ts:34-85 | the parts rejoined with the separator are the text, and there are at most limit+1 |
| StyleParts.SplitsExactly | packages/core/src/style-merge.ts:34-85 | a text made of characters, escapes, strings up to their quote or a newline, comments and nested blocks, with separators between, is cut at those and nowhere else |
| StyleParts.RuleReads | packages/core/src/style-merge.ts:90-102 | a rule's name is what stands before its first top-level colon, comments dropped, its value what stands after, both trimmed; it declares nothing without a name, or without a value unless the name begins with "--" |
| StyleParts.NoColonReads | packages/core/src/style-merge.ts:94 | a rule without a top-level colon declares nothing |
| StyleParts.TrimIs | packages/core/src/style-merge.ts:95-96 | trimming takes white space from both ends and nothing else |
| WhiteSpace.SpacesAreThese | packages/core/src/style-merge.ts:95-96 | white space is the 25 characters ECMAScript calls white space or a line terminator |
| StyleMergeText.StringCloses | packages/core/src/style-merge.ts:45-52 | a quoted string hides every separator in it |
| StyleMergeText.CommentCloses | packages/core/src/style-merge.ts:54-58 | so does a comment, up to its first end |
| StyleMergeText.BlockCloses | packages/core/src/style-merge.ts:66-80 | so does a bracketed block of plain characters |
| StyleMergeText.ClosedConcat | packages/core/src/style-merge.ts:34-85 | closed values written in a row are closed |
| StyleMergeText.PrintThenParse | packages/core/src/style-merge.ts:90-134 | printing closed declarations with plain names and parsing the text gives the list |
| StyleMergeText.MergeAssociative | packages/core/src/style-merge.ts:119-134 | merging is associative on the texts of such styles, and is the cascade of all their declarations |
| JsLiterals.UnquoteStep | packages/parser/src/js_literal.ts:30-31 | un-escaping quotes after JSON escaping touches no other escape |
| JsLiterals.JsLiteralExact | packages/parser/src/js_literal.ts:20-23 | for every string of UTF-16 units the double-quoted literal evaluates to it and holds no raw line terminator |
| JsLiterals.JsLiteralSingleExact | packages/parser/src/js_literal.ts:25-39 | the same for the single-quoted literal |
| HtmlAttribute.DecodeAttributeText | packages/parser/src/html_attribute.ts:40-113 | loop and early return compute `Decode`, always advancing |
| HtmlAttribute.NothingToDecode | packages/parser/src/html_attribute.ts:41 | the early return agrees with the loop |
| HtmlAttribute.Longest | packages/parser/src/html_attribute.ts:83-92 | the name taken is the longest the lookup finds that the text starts with; what it finds beside the table is InheritedNames |
| HtmlAttribute.NumericExact | packages/parser/src/html_attribute.ts:73-77 | the cap on digits changes no numeric reference |
| HtmlReferences.NumericReads | packages/parser/src/html_attribute.ts:58-80 | any run of digits, decimal or hexadecimal, with its ';' or before what is neither digit nor ';', gives the character its place value stands for |
| HtmlReferences.NumberlessReads | packages/parser/src/html_attribute.ts:66-70 | "&#" without a digit is text |
| HtmlReferences.NamedReads | packages/parser/src/html_attribute.ts:81-107 | the longest name of the table at the front gives what it stands for, unless it has no ';' and "=", a letter or a digit comes next |
| HtmlReferences.TextReads | packages/parser/src/html_attribute.ts:40-113 | every other ampersand is text, and so is every other character but NUL |
| HtmlAttribute.EscapeRoundTrip | packages/core/src/instruction-processor.ts:258-264 | decoding an escaped value gives it back exactly when it holds no NUL |
| InheritedNames.DecodesAsTheTable | packages/parser/src/html_attribute.ts:83-107 | a lookup that also finds inherited names decodes a value as the table says exactly if no reference to one stands in it |
| InheritedNames.LookupIsTable | packages/parser/src/html_attribute.ts:86 | everything proved of the decoder for a table holds for such a lookup, the round trip included |
| InheritedNames.ConstructorIsRead | packages/parser/src/html_attribute.ts:86 | `&constructor` reads as the text of a function |
| Uids.CountUp | packages/core/src/instruction-processor.ts:64-89 | the carry loop counts, and never carries out |
| Uids.Uid.Take | packages/core/src/instruction-processor.ts:60-104 | call number n gives the n-th id |
| Uids.NextCounts | packages/core/src/instruction-processor.ts:60-104 | each id ranks one above the one before |
| Uids.NeverRepeats | packages/core/src/instruction-processor.ts:56-58 | ids of different calls differ, and each is a letter followed by letters or digits |
| Rescoping.Rescope | packages/core/src/component.ts:3177-3197 | every id keeps its name and every id and debug cid gets the cid of one injective map: the owner's becomes the component's own, others fresh ids, so none issued before is left but the own; text stays |
| Rescoping.NothingShared | packages/core/src/component.ts:3161-3165 | two components that replay one snapshot share no cid |
| CodePlacement.Generator.PlaceNode | packages/parser/src/codegen.ts:467-718 | placing a node in the line array computes `Place` |
| CodePlacement.GenerateBody | packages/parser/src/codegen.ts:440-464 | the body is as many lines as the template reaches |
| CodegenTheorems.EveryFragmentOnItsLine | packages/parser/src/codegen.ts:429-439 | for any template, line N holds exactly the fragments meant for source line N, in emission order |
| CodegenTheorems.BodyKeepsOrder | packages/parser/src/codegen.ts:429-439 | if no line goes back in document order, the lines in a row are the fragments in emission order |
| CodegenOutline.EmissionIsTheOutline | packages/parser/src/codegen.ts:467-718 | for any template what is emitted, plain text and slot separators included, is the document-order outline of it, in which a space push gives nothing exactly if the last push before it was one too with only code between |
| CodegenOutline.LinesAreTheOutline | packages/parser/src/codegen.ts:429-464 | so line N of the body is what that outline has for source line N |
| PushMerging.MergeOutputPushes | packages/parser/src/codegen.ts:888-942 | the scan of the line computes the text of `Merge` |
| PushMerging.ItemsAreTheLine | packages/parser/src/codegen.ts:908-938 | the items the scan finds are the line |
| PushMerging.NothingToMerge | packages/parser/src/codegen.ts:890-892 | a line without the text of a push is left alone, which is what the scan would come to |
| PushComplete.ItemsExactly | packages/parser/src/codegen.ts:908-938 | the items of a line are one white space character, else a complete push with nothing between its closing parenthesis and its semicolon, else a statement up to its end, and no others |
| PushComplete.MergedTextIs | packages/parser/src/codegen.ts:888-942 | a line is merged to its other statements as they stand, and between them one push of the arguments of all the pushes there, with the white space before the first and after the last |
| PushRuns.RunMerges | packages/parser/src/codegen.ts:868-875 | a run of pushes does the same merged exactly if none throws after something of the run was pushed; otherwise the same world and the same throw, but nothing of the run pushed |
| PushRuns.MergeKeepsMeaning | packages/parser/src/codegen.ts:868-887 | running the merged statements of a line does what running the separate ones did, under an open head at most one push |
| PushTheorems.MergedLineRunsAlike | packages/parser/src/codegen.ts:888-942 | the same for any line of text, whose items are the line |
| PushBodies.BodyRunsAlike | packages/parser/src/codegen.ts:785-808 | the same for a body of lines under any control, for however long it runs: blocks and loops that span lines, jumps, catches, heads left open from line to line |
| PushBodies.MergedBodyByUnits | packages/parser/src/codegen.ts:888-942 | the merged body consists of the same statements, and of the merged pushes between them |
| PushBodies.UnitsAreTheLine | packages/parser/src/codegen.ts:908-938 | a line cut at its statements is the line |
| PushParsing.RunParses | packages/parser/src/codegen.ts:898-903 | a merged run of pushes parses exactly if each but the last has a list of arguments, not empty and with no comma at its end |
| PushParsing.LineParsesExactly | packages/parser/src/codegen.ts:888-942 | the same for a line |
| PushParsing.EmptyPushBreaks | packages/parser/src/codegen.ts:898-903 | a line with an empty push that does not parse any more |
| PushTheorems.AlikeExactly | packages/parser/src/codegen.ts:888-942 | whatever its statements mean, a line runs alike exactly if no run of pushes in it stands under an open head with a second push |
| PushTheorems.LineRunsAlikeExactly | packages/parser/src/codegen.ts:888-942 | for a line whose inner statements are complete: exactly if no earlier line left a head open, or it begins with at most one push |
| PushTheorems.BracelessHeadDiffers | packages/parser/src/codegen.ts:888-942 | a template with a braceless `if` for which merging changes the output |
| PushTheorems.ThrowDiffers | packages/parser/src/codegen.ts:872-873 | a line whose second push throws, for which it changes what has been pushed |

## Left out

- The debug tool's reload without data, load gates, `_load_only` and `_load_render_only`, SSR preload and capture, and the ready marker.
- How many microtasks a settled caller waits (`async_hops`), and the once-only flag of `Lifecycle_Call_Promise`: awaiting is one step.
- LifecycleTheorems.MutualExclusion: the executors' DOM work, arguments and return values are not modelled.
- BootTheorems.RestIsSettled: promotion is modelled per component (`lifecycle_*.dfy`) and not in the tree, whose calls all wait for their turn; hooks that never settle are excluded; the stale-render exits are unreachable under the lock and not modelled.
- CacheTheorems.WrittenUnderOwnKey: which loads can overlap is not modelled here - any may, which covers what promotion allows; the fallback of a follower whose leader failed is applied without the check for a newer load, which cannot have begun during boot.
- `generate_invocation_key()`, `cache_id()` and hashing of args: keys are given.
- Serializer.MapOfExact: `new Map` and `new Set` on texts nobody wrote (entries that are not pairs, strings) throw or iterate differently; such texts restore to null or are not modelled.
- SerializerTheorems.SnapshotExact: an instance restored from a class object whose properties are not an object is modelled without properties.
- The prototype that assigning a `__proto__` key gives an object, the enumeration order of integer-like keys, getters that throw, and the development warnings about dropped values.
- CacheKey.SerializeForCacheKey: a throwing getter ('unserializable') is not modelled.
- Cache filing in html mode and the quota handling of storage: a write may be refused, an entry may vanish.
- StyleMerge.SplitTopLevel: texts are sequences of Unicode characters, so a lone surrogate is not modelled.
- HtmlAttribute.DecodeAttributeText: the entity table is a parameter, of names of at most 32 characters with ';' only at the end.
- JsLiterals.JsLiteralExact: evaluation covers the escapes the grammar gives single letters and four hex digits; the others count as errors.
- CodePlacement.Generator.PlaceNode: the code of attributes, expressions and marks is given, and the errors for misplaced content() and raw-tag children are not modelled.
- PushMerging.MergeOutputPushes: the JavaScript scanner is assumed to answer on the line; `js_scanner.ts` is not part of this model.
- PushTheorems.AlikeExactly: lines of code that begin inside a literal or comment.
- InheritedNames.DecodesAsTheTable: which names are inherited is given; that none begins or is begun by a name of the table is assumed.
- Reading marks out of finished lines (`finish_render`), sourcemaps, the lexer and the parser.
- The DOM, jQuery, viewport and attachment observation, the component registry, value printers, configuration and the SSR server.
