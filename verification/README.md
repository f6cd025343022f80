# Verified models of four WebKit components

This project models the hardest logic of four files of the repository in Dafny 4.11 and proves what that logic is
for. Results are for all inputs, all runs or all reachable states of the model; three further lemmas
(`EmptyNameExample`, `EmptyingCanFault`, `WorkerOutlivesStop`) give concrete cases in which an expected property fails.

`debian/jquery-1.9.1.js`

- **Selector matching** (`Dom`, `SelectorMatcher`). A document is a finite ordered tree and a node is its path. The
  compiled matchers search upwards and sideways through a cache that keeps one slot per node and direction, is
  overwritten by other combinators, and gives up early at a node that already failed in the same run. The class
  `Sizzle` performs those steps on a real cache; its answers are proved equal to the meaning of the selector.
- **Document order** (`DocumentOrder`). The comparator that works from ancestor paths and sibling scans is preorder
  position, and removing duplicates by reverse splicing keeps exactly the set of nodes.
- **`:nth-child`** (`NthChild`). The seek that starts from an index cached by an earlier test finds the true
  position; the arithmetic test is membership in the progression a*n + b, n >= 0.
- **Callback lists** (`Callbacks`, `CallbackOptions`, `CallbackMemory`, `CallbackList`). `Callbacks` splits the list
  at the firing index into skipped, called and pending parts and lets any operation happen while a callback runs,
  `empty` included, which leaves a pass with an index into a list that is gone. `CallbackOptions` says what the flags
  `unique` and `stopOnFalse` are for, and `CallbackMemory` which fire a list remembers and what `once`, `lock`,
  `disable` and `empty` leave of it. `CallbackList` is the index-based code, proved to take the same steps.
- **Deferreds, `when` and `then`** (`DeferredMachine`, `DeferredObject`, `WhenMachine`, `WhenProgress`, `WhenCall`,
  `ThenMachine`, `ThenProgress`). A deferred is three callback lists wired together. `when` counts down over a mix of
  values and deferreds; its master and its subordinates are such deferreds, and its own callbacks run when the lists
  of a subordinate call them. `then` makes a deferred that follows what a function answers to the outcome of another,
  or a promise the function returns.
- **The data cache** (`DataCache`). Ids are recycled through a free list, and cleaning an element can be overtaken
  by the removal of its own last event, which destroys the entry first. The class runs that recursion; a store value
  describes what each operation leaves behind.
- **Event handlers** (`EventHandlers`). Binding and unbinding splice one array with a boundary index; dispatch reads
  the queue of handlers off it.
- **Response conversion** (`AjaxConvert`). The loop inserts intermediate types into the list it is iterating over.

`Source/JavaScriptCore/KeywordLookupGenerator.py`

- `KeywordTrie` (tries and their lookups), `KeywordCompiler` (the emitted decision tree, with an interpreter that
  crashes on a read past the input), `KeywordLookup` and `KeywordBounds` (the whole generator against the keyword
  table) and `KeywordTrieNode` (the mutable trie objects, proved to build the same trie).

`Tools/DumpRenderTree/CyclicRedundancyCheck.cpp`

- `Crc32`: the table-driven checksum against the bit-serial register of RFC 2083, and what the checksum detects;
  `CrcDivision`: the register as the rest of a polynomial division.

`Tools/DumpRenderTree/JavaScriptThreading.cpp`

- `JavaScriptThreads`: the main thread and the respawning workers as a state machine whose steps are the stretches
  between lock operations, under every interleaving.

Where a class refines a value (`CallbackList`, `DeferredObject`, `WhenCall`, `DataCache`, `TrieNode`), its methods
carry the whole new state in their postconditions and the theorems are stated about the value.

## Model

| member | source | states |
|---|---|---|
| SelectorMatcher.SearchMeansRelated | debian/jquery-1.9.1.js:5096-5119 | the uncached walk in a direction finds a match exactly when some node stands in the CSS relation of the combinator and matches |
| SelectorMatcher.CombinatorMeaning | debian/jquery-1.9.1.js:4551-4556 | child, descendant, adjacent and sibling are the nearest ancestor element, any ancestor element, the nearest earlier sibling element and any earlier one; against the context the parent may be any node |
| SelectorMatcher.ScopeMeaning | debian/jquery-1.9.1.js:5277-5288 | a search in several nodes matches where a search in one of them does, one in a single node asks for the relation to it, and one in the document for any place below the document node |
| SelectorMatcher.Sizzle.constructor | debian/jquery-1.9.1.js:3719-3720 | an empty cache and counters at zero, as every run of the engine starts |
| SelectorMatcher.Sizzle.MatchFirst | debian/jquery-1.9.1.js:5096-5104 | child and adjacent-sibling combinators answer as the uncached search and keep the cache truthful |
| SelectorMatcher.Sizzle.MatchAny | debian/jquery-1.9.1.js:5107-5137 | the cached search with its early exits answers as the uncached search, writes only below the element, and keeps the early exits justified unless it succeeded |
| SelectorMatcher.Sizzle.TryNode | debian/jquery-1.9.1.js:5129-5130 | filling a slot around a nested run records the node's true answer although the nested run may overwrite other slots |
| SelectorMatcher.Sizzle.MatchElement | debian/jquery-1.9.1.js:5141-5153 | a compound with its combinator tested last answers as its uncached meaning |
| SelectorMatcher.CacheOkKept | debian/jquery-1.9.1.js:5123-5133 | writes under other combinator names never make a link's slots untruthful |
| SelectorMatcher.CacheOkNextRun | debian/jquery-1.9.1.js:5355-5358 | counting up the run number re-establishes the cache invariant after a success |
| SelectorMatcher.CacheOkFresh | debian/jquery-1.9.1.js:5337 | a new value of dirruns makes every old slot harmless |
| SelectorMatcher.FilterMeaning | debian/jquery-1.9.1.js:5293-5315 | pushing a filter adds one conjunct to the meaning |
| SelectorMatcher.RelativeMeaning | debian/jquery-1.9.1.js:5291-5292 | wrapping in a combinator steps to a related element |
| SelectorMatcher.ContextMeaning | debian/jquery-1.9.1.js:5277-5288 | the foundational matcher tests reachability from the context, and only where the source asks for it |
| SelectorMatcher.Sizzle.MatcherFromTokens | debian/jquery-1.9.1.js:5269-5319 | the compiled matcher means the token list on every tree and element, and its combinator names are new and distinct |
| SelectorMatcher.Sizzle.MatchGroups | debian/jquery-1.9.1.js:5348-5354 | one run over the groups accepts exactly when one of them matches |
| SelectorMatcher.Sizzle.SuperMatcher | debian/jquery-1.9.1.js:5326-5359 | the loop over the elements, sharing one cache, picks the elements some matcher accepts, in order |
| SelectorMatcher.Sizzle.Select | debian/jquery-1.9.1.js:5269-5359 | compiling and running a selector returns the elements that the CSS meaning of its groups selects, after any earlier selections with the same cache |
| DocumentOrder.PreorderAscends | debian/jquery-1.9.1.js:4299-4348 | a preorder traversal is strictly ascending in the path order |
| DocumentOrder.PreorderComplete | debian/jquery-1.9.1.js:4299-4348 | the traversal meets exactly the nodes of the tree |
| DocumentOrder.PrecedesIsPreorder | debian/jquery-1.9.1.js:4299-4348 | one node precedes another exactly when it has the smaller preorder position |
| DocumentOrder.PrecedesTotal | debian/jquery-1.9.1.js:4299-4348 | the order is irreflexive, asymmetric and total |
| DocumentOrder.PrecedesTransitive | debian/jquery-1.9.1.js:4299-4348 | the order is transitive |
| DocumentOrder.SiblingCheck | debian/jquery-1.9.1.js:4449-4468 | scanning forward from one sibling decides which is earlier; a missing node sorts first |
| DocumentOrder.Ancestors | debian/jquery-1.9.1.js:4326-4333 | the parent walk yields all ancestors from the document down |
| DocumentOrder.SortOrder | debian/jquery-1.9.1.js:4299-4348 | the comparator is zero only on equal nodes, negative exactly when the first precedes and positive exactly when the second does |
| DocumentOrder.CollectDuplicates | debian/jquery-1.9.1.js:4435-4440 | the collected indices are exactly those equal to their predecessor, in order |
| DocumentOrder.SpliceOut | debian/jquery-1.9.1.js:4441-4443 | splicing them out last first leaves exactly the elements that differ from their predecessor |
| DocumentOrder.RemoveDuplicates | debian/jquery-1.9.1.js:4435-4446 | a list that never descends becomes strictly ascending with the same set of nodes |
| NthChild.CycleTestMeans | debian/jquery-1.9.1.js:4763-4764 | the remainder and quotient test, with JavaScript's signs and a = 0, holds exactly for positions a*n + b with n >= 0 |
| NthChild.PositionCounts | debian/jquery-1.9.1.js:4716-4760 | the position of a node is the number of siblings that are elements, or have its name, up to it or from it on |
| NthChild.SeekForward | debian/jquery-1.9.1.js:4727-4737 | the seek from a cached index, with its restart from the first child, ends at the element's true position |
| NthChild.SeekPlain | debian/jquery-1.9.1.js:4746-4759 | the uncached seek finds the position counted from either end |
| NthChild.ChildFilter.constructor | debian/jquery-1.9.1.js:3719 | nothing is cached at first |
| NthChild.ChildFilter.NextRun | debian/jquery-1.9.1.js:5337 | a new value of dirruns makes every entry harmless, whatever tree it was made on |
| NthChild.ChildFilter.SeekCached | debian/jquery-1.9.1.js:4719-4737 | the position found is true and so is the index left in the cache of the parent |
| NthChild.ChildFilter.SeekLastCached | debian/jquery-1.9.1.js:4740-4760 | the position from the end is true, and so are the indices cached on the way |
| NthChild.ChildFilter.Test | debian/jquery-1.9.1.js:4716-4766 | after any earlier tests, the filter accepts exactly the elements with a parent whose position among the counted siblings is a*n + b |
| Callbacks.DoInv | debian/jquery-1.9.1.js:1029-1152 | every operation, also one made by a running callback and also `empty`, keeps the split into skipped, called and pending entries, the order of the calls and what the history says about them |
| Callbacks.RunInv | debian/jquery-1.9.1.js:1029-1152 | so does every run |
| Callbacks.OncePerPass | debian/jquery-1.9.1.js:1036-1041 | within a pass no entry is called twice, calls follow list order and all get the same arguments |
| Callbacks.PassComplete | debian/jquery-1.9.1.js:1036-1087 | when nothing is pending, every entry of the list that was not skipped has been called in the pass exactly once; the pass of a fire skips none and calls with the arguments of that fire |
| Callbacks.FireReaches | debian/jquery-1.9.1.js:1029-1152 | for the fire under way, a queued one or one yet to come: a callback in the list before its pass, or added during it, and not removed until it is over, has then been called in it exactly once, with the arguments of that fire |
| Callbacks.FirstInFirstOut | debian/jquery-1.9.1.js:1043-1047 | over any run, the fires served are the first ones taken on, each in a pass of its own and in that order, every call of the pass having its arguments; the others are waiting while the list is neither locked nor disabled |
| Callbacks.EveryFireTaken | debian/jquery-1.9.1.js:1141-1151 | a list that is not `once` takes on every fire until it is locked or disabled |
| Callbacks.FaultsExactly | debian/jquery-1.9.1.js:1036-1037 | a callback's return ends in an exception if and only if the list was emptied in the pass, nothing was added since, entries were still to come and the pass is not stopped |
| Callbacks.EmptiedPassEnds | debian/jquery-1.9.1.js:1036-1118 | when a callback empties its list and nothing is added before it returns, the pass ends normally if and only if nothing was pending, the list has been disabled, or the callback stops the pass |
| Callbacks.StuckForGood | debian/jquery-1.9.1.js:1035-1042 | after such an exception `firing` stays set: the list never calls anything again |
| Callbacks.EmptyingCanFault | debian/jquery-1.9.1.js:1115-1118 | two callbacks of which the first empties the list are enough |
| Callbacks.RemovedNeverCalled | debian/jquery-1.9.1.js:1089-1108 | a removed callback is never called again, in this pass or a later one, unless it is added again |
| CallbackOptions.UniqueList | debian/jquery-1.9.1.js:1066-1068 | over any run, a list created `unique` never holds two entries of one function |
| CallbackOptions.AddTakes | debian/jquery-1.9.1.js:1057-1087 | after `add` every function named is in the list, where it was or behind everything else; a list that remembers its last fire calls the first new entry at once, with those arguments, and keeps the others pending |
| CallbackOptions.AppendedEach | debian/jquery-1.9.1.js:1066-1068 | without `unique` each function named gets an entry of its own, in the order given |
| CallbackOptions.StoppedPass | debian/jquery-1.9.1.js:1036-1041 | after a callback returns false to a `stopOnFalse` list, no call in any continuation belongs to that pass |
| CallbackOptions.StoppedList | debian/jquery-1.9.1.js:1038-1053 | and if no other fire waits, nothing is called until the next fire, not even by adding callbacks |
| CallbackOptions.OnlyAddedCalled | debian/jquery-1.9.1.js:1057-1087 | over any run a list calls nothing but what was added to it |
| CallbackMemory.MemoryIsLastFire | debian/jquery-1.9.1.js:1030-1039 | over any run a list with `memory` remembers the arguments of the fire it served last, unless it was disabled or that pass was stopped since; a list without the flag remembers nothing |
| CallbackMemory.AddCallsWithLast | debian/jquery-1.9.1.js:1074-1083 | an addition between passes calls the first new entry at once with the arguments of the fire served last and keeps the others pending; a list that remembers nothing calls nothing |
| CallbackMemory.OnceFiresOnce | debian/jquery-1.9.1.js:1027-1053 | over any run a `once` list takes on one fire at most and holds no callback after its pass: it is disabled, or remembers the fire |
| CallbackMemory.LockedTakesNoFire | debian/jquery-1.9.1.js:1129-1135 | after `lock` no fire is taken on and no queued one is served, in any continuation |
| CallbackMemory.LockedStillCalls | debian/jquery-1.9.1.js:1129-1135 | a locked list that remembers still calls what is added between passes, with the remembered arguments |
| CallbackMemory.LockedEmptyHanded | debian/jquery-1.9.1.js:1129-1135 | a list locked when it remembers nothing makes no further call, also in the middle of a pass |
| CallbackMemory.DisabledCallsNothing | debian/jquery-1.9.1.js:1120-1123 | after `disable`, also in the middle of a pass, no call is made and no fire taken on in any continuation without `empty` |
| CallbackMemory.EmptiedCallsOnlyNew | debian/jquery-1.9.1.js:1115-1118 | after `empty` no callback added before is called again, in the pass under way or later |
| CallbackMemory.RemoveKeepsTurns | debian/jquery-1.9.1.js:1091-1105 | a removal in a pass, of an emptied list too, takes the functions named out of what is still to be called and leaves the others their turn |
| CallbackMemory.ReturnTakesTurn | debian/jquery-1.9.1.js:1036-1041 | a return calls the first entry still to be called, in the same pass, and leaves the others waiting |
| Callbacks.RemoveFilters | debian/jquery-1.9.1.js:1089-1108 | a removal takes out every entry of the functions named and no other, in a pass or not |
| Callbacks.WithoutAllConcat | debian/jquery-1.9.1.js:1089-1108 | removing from the whole list is removing from the called and the pending part alike |
| CallbackList.CallbackList.constructor | debian/jquery-1.9.1.js:1012-1027 | a new list is the initial state of the machine |
| CallbackList.CallbackList.Fire | debian/jquery-1.9.1.js:1029-1054 | starting a pass from firingStart is the machine's step |
| CallbackList.CallbackList.Continue | debian/jquery-1.9.1.js:1036-1037 | the loop test calls the next entry, ends the pass, or, in an emptied list, throws and leaves `firing` set |
| CallbackList.CallbackList.EndPass | debian/jquery-1.9.1.js:1042-1053 | the end of a pass serves the next request, empties a once-memory list or disables the list |
| CallbackList.CallbackList.Returned | debian/jquery-1.9.1.js:1036-1041 | the return of a callback, false or not, is the machine's step; it throws exactly when the machine is stuck |
| CallbackList.CallbackList.AddAll | debian/jquery-1.9.1.js:1058-1087 | adding extends the pending part of a running pass or fires from the old length with the remembered arguments |
| CallbackList.CallbackList.RemoveAll | debian/jquery-1.9.1.js:1089-1108 | splicing with index adjustment filters each part of the split |
| CallbackList.CallbackList.RemoveEach | debian/jquery-1.9.1.js:1091-1104 | the search-and-splice loop removes every occurrence of one callback from each part |
| CallbackList.CallbackList.SpliceAt | debian/jquery-1.9.1.js:1094-1103 | firing index and length follow one splice |
| CallbackList.InArray | debian/jquery-1.9.1.js:1093 | the index found is the first occurrence from the given start |
| CallbackList.CallbackList.FireWith | debian/jquery-1.9.1.js:1141-1152 | a fire is served at once, queued while firing, or ignored once spent or disabled |
| CallbackList.CallbackList.LockList | debian/jquery-1.9.1.js:1129-1135 | locking drops the queue and disables a list without memory |
| CallbackList.CallbackList.DisableList | debian/jquery-1.9.1.js:1120-1123 | disabling ends the list, also in the middle of a pass |
| CallbackList.CallbackList.EmptyList | debian/jquery-1.9.1.js:1115-1118 | emptying replaces the list and nothing else, also in the middle of a pass |
| DeferredMachine.SettleEffect | debian/jquery-1.9.1.js:1226-1240 | settling sets the state, disables the other list and locks progress before any user callback runs |
| DeferredMachine.FirstSettleDecides | debian/jquery-1.9.1.js:1168-1253 | after the first resolve or reject, in every continuation, the state stays, losing callbacks never run, and the winning list calls the internal callbacks and then exactly the functions given to it, before, during or after, once each, in order, with the first arguments |
| DeferredMachine.EveryListenerHeard | debian/jquery-1.9.1.js:1223 | in every state the calls made and the entries waiting are, in order, the functions the run gave to the list |
| DeferredMachine.SettledByFirst | debian/jquery-1.9.1.js:1226-1240 | a deferred is pending until the first resolve or reject of the run, and settled by that one ever after |
| DeferredMachine.ReactCalls | debian/jquery-1.9.1.js:1029-1054 | an event makes its list call internal callbacks and then at most one of a user, which then runs, and the other lists none |
| DeferredMachine.NotifiedInOrder | debian/jquery-1.9.1.js:1226-1240 | over any run, the progress list takes on exactly the notifications made before the first resolve or reject, serves them in that order, and has served all of them whenever the deferred is pending and no progress callback runs |
| DeferredMachine.LateProgress | debian/jquery-1.9.1.js:1223-1240 | a progress callback added between notifications is called at once with the last one served, even after the deferred was settled |
| DeferredMachine.ProgressGiven | debian/jquery-1.9.1.js:1223 | over any run every progress callback called was given to the progress list |
| DeferredMachine.NeverBoth | debian/jquery-1.9.1.js:1168-1253 | done and fail callbacks never both run |
| DeferredMachine.SettledIgnoresAll | debian/jquery-1.9.1.js:1226-1240 | resolve, reject and notify after settlement change nothing, so no notify starts a new progress pass |
| DeferredMachine.SettledStays | debian/jquery-1.9.1.js:1226-1240 | no event unsettles a settled deferred |
| DeferredMachine.UnsettledStays | debian/jquery-1.9.1.js:1226-1240 | only resolve and reject leave the pending state |
| DeferredObject.DeferredObject.constructor | debian/jquery-1.9.1.js:1169-1241 | wiring three callback lists yields the initial deferred |
| DeferredObject.DeferredObject.FireWith | debian/jquery-1.9.1.js:1235-1240 | resolveWith, rejectWith and notifyWith on the three lists are the deferred's step |
| DeferredObject.DeferredObject.Listen | debian/jquery-1.9.1.js:1223 | done, fail and progress are the deferred's step |
| DeferredObject.DeferredObject.Returned | debian/jquery-1.9.1.js:1036-1041 | the return of a user callback is the deferred's step |
| DeferredObject.DeferredObject.CallInternals | debian/jquery-1.9.1.js:1226-1233 | the state, disable and lock callbacks in front of a list run to completion first |
| WhenMachine.ReactInv | debian/jquery-1.9.1.js:1256-1305 | every step, of the loop, of a subordinate in any way or of the master, keeps the invariant that ties counter, values, rejections and master to what the deferreds have called |
| WhenMachine.DeliverInv | debian/jquery-1.9.1.js:1268-1292 | so does every event of a subordinate, whether or not it calls one of the functions of `when`; a deferred given twice has both its positions served |
| WhenMachine.RemainingCounts | debian/jquery-1.9.1.js:1274-1294 | `remaining` is the number of plain values not reached and of deferreds whose done list has not called the function of the position |
| WhenMachine.EachGivenOnce | debian/jquery-1.9.1.js:1286-1296 | once the loop is over each list of the deferred of a position has been given the function of the position exactly once, and no other deferred has |
| WhenMachine.ResolvedWhenAll | debian/jquery-1.9.1.js:1268-1302 | the master deferred is resolved only when every subordinate has been, once and for all with all the arguments each was first resolved with, several as a list and one as itself, in argument order; and it is resolved once the loop is over and the resolved subordinates have finished calling |
| WhenMachine.RejectedByFirst | debian/jquery-1.9.1.js:1291 | the master deferred is rejected exactly when some subordinate has called reject, with what the first such one was rejected with; a rejected subordinate has called it when it has finished calling |
| WhenMachine.ProgressPassedOn | debian/jquery-1.9.1.js:1268-1275 | when a subordinate calls the progress function of a position, that position of the progress values, and no other, becomes all that the call was given, several arguments as a list and one as itself, and the master, if pending, takes on a notification with a copy of the values; a settled master stays as it is |
| WhenProgress.ProgressFollows | debian/jquery-1.9.1.js:1268-1292 | over any run the progress value of a position is all that its deferred last called the function with, undefined before; the master is asked to notify once for each such call, the last time with the current values, and takes that on until it is settled |
| WhenMachine.AttachedIsAttach | debian/jquery-1.9.1.js:1288-1292 | a round of the loop does to the whole call what it does to the closure and one subordinate |
| WhenCall.WhenCall.constructor | debian/jquery-1.9.1.js:1256-1286 | the initial counter and values, and a new deferred as master |
| WhenCall.WhenCall.VisitPromise | debian/jquery-1.9.1.js:1288-1292 | the three functions of a position are added to the lists of the deferred object, and run at once where it has been fired |
| WhenCall.WhenCall.VisitPlain | debian/jquery-1.9.1.js:1293-1295 | a plain value is counted |
| WhenCall.WhenCall.FinishLoop | debian/jquery-1.9.1.js:1299-1302 | the test after the loop resolves the master object |
| WhenCall.WhenCall.Update | debian/jquery-1.9.1.js:1268-1278 | the done function of one position stores the value, counts, and resolves the master object at zero |
| WhenCall.WhenCall.Progressed | debian/jquery-1.9.1.js:1268-1278 | the progress function of one position stores the value and notifies the master object |
| WhenCall.WhenCall.Fails | debian/jquery-1.9.1.js:1291 | the fail function of one position rejects the master object |
| ThenMachine.ReactInv | debian/jquery-1.9.1.js:1184-1205 | every step of a call of `then`, with anything happening to the source, to the promises returned and to the new deferred in between, keeps the invariant that ties the new deferred to the answers and the promises |
| ThenMachine.FollowsSource | debian/jquery-1.9.1.js:1184-1205 | in every reachable state the new deferred is pending or settled once and for all, either in the way the source was with what the function for it returned (with the source's arguments if there is none), or exactly as a promise was that a function returned |
| ThenMachine.ForwardersAttached | debian/jquery-1.9.1.js:1187-1202 | once `then` has returned, each of the three lists of the source has been given its forwarding function exactly once |
| ThenMachine.FollowsExactly | debian/jquery-1.9.1.js:1184-1205 | it is settled as the source's outcome and the answer to it say, unless a promise that a progress function returned was settled first |
| ThenMachine.SourceSettles | debian/jquery-1.9.1.js:1191-1201 | once the source is settled and its callbacks have returned, an answer that is no promise has settled the new deferred and a promise has been hooked up |
| ThenMachine.HookSettles | debian/jquery-1.9.1.js:1193-1197 | a returned promise that is settled and whose callbacks have returned has settled the new deferred, whatever the source does |
| ThenMachine.NotifyPassedOn | debian/jquery-1.9.1.js:1191-1201 | a pending new deferred takes on what the progress function returned and what a returned promise notifies of; a settled one stays as it is |
| ThenProgress.EveryNoteAnswered | debian/jquery-1.9.1.js:1191-1201 | over any run each call of the progress forwarding function is answered, one at a time and in order; without a progress function the answer is what it was called with |
| ThenProgress.NotesForwarded | debian/jquery-1.9.1.js:1191-1201 | the new deferred is asked to notify of exactly the plain answers and of what the returned promises notify, and takes that on until it is settled |
| ThenProgress.PassedOnUnchanged | debian/jquery-1.9.1.js:1191-1201 | with no progress function and no promise returned, what the source notifies reaches the new deferred unchanged and in order, up to its settlement and except the call being answered |
| DataCache.DoValid | debian/jquery-1.9.1.js:1578-1591 | every operation keeps: different live nodes have different ids with an entry each, the free list has no duplicate and no live id, every id is below the counter |
| DataCache.After | debian/jquery-1.9.1.js:1551-1720 | the same after any sequence of writes, event removals, data removals, cleanings and other draws from the counter |
| DataCache.IssuedIsPeak | debian/jquery-1.9.1.js:1578-1591 | no id is lost and none is handed out needlessly: there are as many ids, live or free, as nodes had data at the busiest moment of the run |
| DataCache.CounterAccounts | debian/jquery-1.9.1.js:1578-1591 | the counter has moved once for every such id and once for every other draw from it |
| DataCache.CleanFrees | debian/jquery-1.9.1.js:6564-6614 | cleaning a list takes the data of exactly the listed nodes, leaves all others theirs, and frees exactly the ids the listed nodes had |
| DataCache.EventsRemovedCases | debian/jquery-1.9.1.js:2828-2899 | removing events rewrites one entry or frees its id, and nothing else |
| DataCache.DataRemovedCases | debian/jquery-1.9.1.js:1645-1730 | removing data rewrites one entry or frees its id, and nothing else |
| DataCache.KeysDeleted | debian/jquery-1.9.1.js:1695-1697 | deleting a list of keys from an entry removes exactly those and leaves the rest as it was |
| DataCache.PrivateRemovalMeans | debian/jquery-1.9.1.js:1657-1720 | removing private keys gives up the id exactly when at most an empty data object would be left |
| DataCache.PublicRemovalMeans | debian/jquery-1.9.1.js:1657-1720 | removing public data gives up the id exactly when no public key is left and nothing private was there |
| DataCache.PublicKeysRemoved | debian/jquery-1.9.1.js:1660-1711 | removing public data that leaves the id takes exactly the named public keys, or all, and the data object with the last of them; events, handle, other keys and other entries stay |
| DataCache.PrivateKeysRemoved | debian/jquery-1.9.1.js:1660-1701 | removing private keys that leaves the id takes exactly those keys and changes no other entry |
| DataCache.EventsRemovedMeans | debian/jquery-1.9.1.js:2849-2898 | removing events by type leaves no handler bound as it in its list, keeps the others in order, drops a list with its last handler and the shared handle with the last list |
| DataCache.EventsRemovedFrees | debian/jquery-1.9.1.js:2891-2898 | it gives up the id exactly when every list is emptied by it and no key or public data is left |
| DataCache.WithoutPicks | debian/jquery-1.9.1.js:2861-2878 | the handlers kept are all those not bound as the type, in order |
| DataCache.RecycledFirst | debian/jquery-1.9.1.js:1578-1589 | the id freed last is given out first, with an empty entry; without a free id the counter is drawn |
| DataCache.EventRemovedOrFreed | debian/jquery-1.9.1.js:6580-6591 | an event removal in the middle of cleaning leaves the entry to the cleaner or has completed the cleaning |
| DataCache.DataCache.constructor | debian/jquery-1.9.1.js:1578-1591 | the empty store |
| DataCache.DataCache.EnsureEntry | debian/jquery-1.9.1.js:1578-1591 | a node without an id takes the last freed one, or a new one from the counter |
| DataCache.DataCache.Write | debian/jquery-1.9.1.js:1551-1640 | writing creates the entry when needed and touches no other |
| DataCache.DataCache.CleanOne | debian/jquery-1.9.1.js:6572-6612 | cleaning one element frees its id exactly once, also when an event removal on the way has already destroyed the entry; the mutual recursion ends |
| DataCache.DataCache.EventRemove | debian/jquery-1.9.1.js:2828-2899 | removing all handlers of a type empties the list and, with the last event, the entry when nothing else is in it |
| DataCache.DataCache.InternalRemoveData | debian/jquery-1.9.1.js:1645-1730 | removing keys keeps what is left or cleans the element, for public and private data |
| DataCache.DataCache.CleanData | debian/jquery-1.9.1.js:6564-6614 | a list of nodes, repetitions allowed, is cleaned one after the other |
| DataCache.RemoveHandlers | debian/jquery-1.9.1.js:2860-2878 | splicing from the end leaves exactly the handlers bound as another type, in order |
| EventHandlers.BoundIsLive | debian/jquery-1.9.1.js:2787-2888 | what is bound after a history is what was bound and matched by no later unbind, in bind order |
| EventHandlers.UnbindAll | debian/jquery-1.9.1.js:2860-2878 | unbinding without restrictions leaves nothing, and with the selector `**` exactly the direct handlers in order |
| EventHandlers.UnbindEach | debian/jquery-1.9.1.js:2865-2868 | a handler is unbound exactly when each restriction on its own would unbind it |
| EventHandlers.UnbindOne | debian/jquery-1.9.1.js:2865-2868 | one restriction takes exactly the handlers of the type, the function, a passing namespace or the selector it names |
| EventHandlers.HandlerList.constructor | debian/jquery-1.9.1.js:2788-2790 | a new list holds nothing |
| EventHandlers.HandlerList.Add | debian/jquery-1.9.1.js:2812-2817 | after any history, binding leaves the delegated handlers in bind order followed by the direct ones in bind order, with delegateCount at the boundary |
| EventHandlers.HandlerList.Remove | debian/jquery-1.9.1.js:2860-2888 | so does unbinding, for every combination of type, handler, namespace and selector |
| EventHandlers.HandlerList.RemoveMatching | debian/jquery-1.9.1.js:2860-2878 | splicing from the back leaves exactly the handlers that do not match, in order, with delegateCount the number of delegated ones left |
| EventHandlers.HandlerList.MatchesOf | debian/jquery-1.9.1.js:3110-3125 | remembering the answer per selector yields the delegated handlers whose selector matches the node, in bind order |
| EventHandlers.BubbleVisits | debian/jquery-1.9.1.js:3105 | the walk visits target, parent and so on, exactly the nodes strictly below the bound element, or all up to the document when the target lies outside |
| EventHandlers.HandlerList.DelegateMatches | debian/jquery-1.9.1.js:3098-3131 | the queue lists, innermost node first, the delegated handlers that apply at each node |
| EventHandlers.HandlerList.Handlers | debian/jquery-1.9.1.js:3094-3139 | after any history of binds and unbinds the queue is the delegated matches from the inside out, then exactly the direct handlers |
| EventHandlers.QueueMeans | debian/jquery-1.9.1.js:3094-3139 | a handler runs for a node exactly when it is bound and is direct and the node is the element itself, or is delegated, the node lies on the way up, is an element that is not a disabled one being clicked, and is selected, and the event is not a click with another button |
| EventHandlers.QueueInOrder | debian/jquery-1.9.1.js:3094-3139 | the queue runs from the innermost node outwards, the handlers of one node in bind order, and ends with the direct handlers in bind order |
| AjaxConvert.Seek | debian/jquery-1.9.1.js:8207-8236 | a way on is found exactly when one entry or a pair of entries leads to the wanted type; the converter chosen does what that leg does, or is its first half; of the pairs of entries, the one whose second half is listed first is taken |
| AjaxConvert.TwoHops | debian/jquery-1.9.1.js:8222-8230 | a pair with an equivalence in it may be condensed to the other converter |
| AjaxConvert.Convert | debian/jquery-1.9.1.js:8178-8260 | the loop ends although it lengthens its list, which at most doubles; on success the data went leg by leg through the requested types, each leg one entry if there is one and otherwise the pair whose second entry is listed first; "no conversion" is reported exactly at the first pair of types that nothing connects; otherwise a converter of the next leg threw |
| AjaxConvert.CompleteUnlessEmpty | debian/jquery-1.9.1.js:8199-8257 | a success has gone through every requested type if and only if the table takes no two consecutive ones through a type with an empty name; then the loop ends early |
| AjaxConvert.EmptyNameExample | debian/jquery-1.9.1.js:8212-8230 | two entries with an empty part are enough for that: every success then leaves the data as the first converter made it, short of the type asked for |
| KeywordTrie.InsertFind | Source/JavaScriptCore/KeywordLookupGenerator.py:103-109 | insertion changes the answer for its own word and no other |
| KeywordTrie.InsertKeepsShape | Source/JavaScriptCore/KeywordLookupGenerator.py:103-109 | children keep distinct first letters |
| KeywordTrie.CoalesceFind | Source/JavaScriptCore/KeywordLookupGenerator.py:111-126 | merging chains keeps every answer |
| KeywordTrie.CoalesceKeepsShape | Source/JavaScriptCore/KeywordLookupGenerator.py:111-126 | and keeps first letters distinct |
| KeywordTrie.SortSorts | Source/JavaScriptCore/KeywordLookupGenerator.py:137 | the children are a permutation ordered by falling weight |
| KeywordTrie.SortFind | Source/JavaScriptCore/KeywordLookupGenerator.py:137 | sorting leaves the child for each first letter the same |
| KeywordTrie.FillOutFind | Source/JavaScriptCore/KeywordLookupGenerator.py:128-138 | weights cannot change an answer |
| KeywordTrie.FillOutSpells | Source/JavaScriptCore/KeywordLookupGenerator.py:128-138 | every full prefix spells the path to its node |
| KeywordTrie.FillOutWeighs | Source/JavaScriptCore/KeywordLookupGenerator.py:128-138 | every node weighs the sum of the weights of the full prefixes at and below it, and its heavier branches come first |
| KeywordTrie.SortStable | Source/JavaScriptCore/KeywordLookupGenerator.py:137 | branches of the same weight keep the order they had |
| KeywordCompiler.Compare2Exact | Source/JavaScriptCore/KeywordLookupGenerator.py:248-263 | the packed two-character compare is exact for 8- and 16-bit characters |
| KeywordCompiler.Compare4Exact | Source/JavaScriptCore/KeywordLookupGenerator.py:250-277 | so is the four-character compare, packed or in halves |
| KeywordCompiler.CompareExact | Source/JavaScriptCore/KeywordLookupGenerator.py:283-302 | every macro from two to eight characters, the overlapping seven included, compares character by character |
| KeywordCompiler.TestExact | Source/JavaScriptCore/KeywordLookupGenerator.py:150-164 | the emitted test of an edge, the widened three-character one included, holds exactly when the edge's characters come next |
| KeywordCompiler.ArmsRun | Source/JavaScriptCore/KeywordLookupGenerator.py:152-174 | the cascade runs the one branch that applies, whatever the order |
| KeywordCompiler.EmitCorrect | Source/JavaScriptCore/KeywordLookupGenerator.py:140-174 | running the code of a node finds the shortest keyword below it that ends at a non-identifier position, and never reads past the input |
| KeywordLookup.FinishedFind | Source/JavaScriptCore/KeywordLookupGenerator.py:214-219 | the finished trie answers as the keyword table |
| KeywordLookup.GeneratedLookup | Source/JavaScriptCore/KeywordLookupGenerator.py:140-219 | the generated matcher returns token and length of the shortest table word that prefixes the input and ends at a non-identifier position, and IDENT exactly when there is none |
| KeywordLookup.GeneratedLookupUnique | Source/JavaScriptCore/KeywordLookupGenerator.py:140-219 | when keyword characters are identifier parts, that word is the only one there |
| KeywordBounds.MaxTokenLengthIsTight | Source/JavaScriptCore/KeywordLookupGenerator.py:176-190 | maxTokenLength is exactly the longest keyword plus one |
| KeywordBounds.EmitCompiles | Source/JavaScriptCore/KeywordLookupGenerator.py:157-164 | every macro the code names exists exactly when no edge is longer than eight |
| KeywordBounds.ShortRunsMeans | Source/JavaScriptCore/KeywordLookupGenerator.py:111-126 | chains merge to more than eight characters exactly where the words leave no choice for nine in a row |
| KeywordBounds.CompilesIffNoLongStretch | Source/JavaScriptCore/KeywordLookupGenerator.py:157-164 | the generated code compiles if and only if no keyword has such a stretch |
| KeywordBounds.TableLookup | Source/JavaScriptCore/KeywordLookupGenerator.py:140-302 | for every table without such a stretch, all weights, platforms and inputs longer than the longest keyword, the generated code is the table lookup |
| KeywordTrieNode.TrieNode.Insert | Source/JavaScriptCore/KeywordLookupGenerator.py:103-109 | the recursive update of trie objects builds the inserted trie |
| KeywordTrieNode.TrieNode.Coalesce | Source/JavaScriptCore/KeywordLookupGenerator.py:111-126 | returns the merged trie and leaves the node with compressed children |
| KeywordTrieNode.TrieNode.FillOut | Source/JavaScriptCore/KeywordLookupGenerator.py:128-138 | sets prefixes and weights and sorts the children |
| KeywordTrieNode.TrieNode.SortNodes | Source/JavaScriptCore/KeywordLookupGenerator.py:137 | a stable sort of the child objects by falling weight |
| KeywordTrieNode.BuildTrie | Source/JavaScriptCore/KeywordLookupGenerator.py:214-219 | inserting all entries, compressing and filling out, discarding what coalesce returns for the root, builds the finished trie |
| Crc32.EightSteps | Tools/DumpRenderTree/CyclicRedundancyCheck.cpp:40-46 | eight bit-steps of any register are one table entry and a shift |
| Crc32.ByteSteps | Tools/DumpRenderTree/CyclicRedundancyCheck.cpp:59-62 | adding a byte and stepping eight times feeds its bits one at a time |
| Crc32.TableUpdate | Tools/DumpRenderTree/CyclicRedundancyCheck.cpp:60-61 | the table update feeds one byte |
| Crc32.MakeCrcTable | Tools/DumpRenderTree/CyclicRedundancyCheck.cpp:36-48 | the table holds eight steps of every byte |
| Crc32.CrcComputer.constructor | Tools/DumpRenderTree/CyclicRedundancyCheck.cpp:52-53 | the table starts out not computed |
| Crc32.CrcComputer.Update | Tools/DumpRenderTree/CyclicRedundancyCheck.cpp:61 | one round of the loop feeds one byte |
| Crc32.CrcComputer.ComputeCrc | Tools/DumpRenderTree/CyclicRedundancyCheck.cpp:50-63 | on the first and every later call the result is the bit-serial CRC of the buffer, and a computed table is never written again |
| CrcDivision.PolynomialIsGenerator | Tools/DumpRenderTree/CyclicRedundancyCheck.cpp:42 | the constant has exactly the coefficients of the generator of RFC 2083 below x^32 |
| CrcDivision.RegisterIsRest | Tools/DumpRenderTree/CyclicRedundancyCheck.cpp:59-61 | whatever the register starts with, after the message it is what division by the generator leaves of the message times x^32 with the register added in front |
| CrcDivision.OneRest | Tools/DumpRenderTree/CyclicRedundancyCheck.cpp:59-61 | that division leaves one quotient and one rest of degree below 32 |
| CrcDivision.CrcIsRemainder | Tools/DumpRenderTree/CyclicRedundancyCheck.cpp:50-63 | the checksum is the inverse of that rest, and of no other polynomial, for a register of ones |
| Crc32.FeedInjective | Tools/DumpRenderTree/CyclicRedundancyCheck.cpp:40-46 | the bit-step loses nothing: different registers stay different under equal input |
| Crc32.BurstDetected | Tools/DumpRenderTree/CyclicRedundancyCheck.cpp:40-46 | different strings of at most 32 bits lead to different registers |
| Crc32.CrcDetectsBurst | Tools/DumpRenderTree/CyclicRedundancyCheck.cpp:50-63 | every error burst of at most 32 bits, at any bit position, changes the CRC |
| Crc32.CrcDetectsFourBytes | Tools/DumpRenderTree/CyclicRedundancyCheck.cpp:50-63 | different buffers that differ only within four consecutive bytes have different CRCs |
| Crc32.LongerBurstMissed | Tools/DumpRenderTree/CyclicRedundancyCheck.cpp:40-46 | the bound is exact: from every register two strings of 33 bits lead to the same one |
| Crc32.CrcMissesBurst | Tools/DumpRenderTree/CyclicRedundancyCheck.cpp:50-63 | between any two messages five bytes can be put in two ways that differ within 33 consecutive bits and give the same CRC |
| Crc32.BitsDetermineBuffer | Tools/DumpRenderTree/CyclicRedundancyCheck.cpp:59-62 | the bit string determines the buffer |
| JavaScriptThreads.StepKeepsInv | Tools/DumpRenderTree/JavaScriptThreading.cpp:64-157 | every step of every thread keeps the pool invariant |
| JavaScriptThreads.RunKeepsInv | Tools/DumpRenderTree/JavaScriptThreading.cpp:64-157 | so does every interleaving |
| JavaScriptThreads.PoolSafety | Tools/DumpRenderTree/JavaScriptThreading.cpp:110-146 | from the return of start until the clear in stop the set has exactly four members whenever the lock is free, namely the threads that have not respawned, and the size assertion never fails |
| JavaScriptThreads.FewLateThreads | Tools/DumpRenderTree/JavaScriptThreading.cpp:100-115 | once the flag is set at most four more threads are created, and none of those respawns |
| JavaScriptThreads.ClearedForGood | Tools/DumpRenderTree/JavaScriptThreading.cpp:151-154 | from the clear on, under every interleaving, the set holds exactly the threads created since and entered by the worker that respawned |
| JavaScriptThreads.NoDeadlock | Tools/DumpRenderTree/JavaScriptThreading.cpp:64-157 | some thread can go on until stop has returned and all workers are finished, even if main waits for every thread of its snapshot to finish |
| JavaScriptThreads.StepUsesWork | Tools/DumpRenderTree/JavaScriptThreading.cpp:84-122 | with the flag set every step of any thread uses up work |
| JavaScriptThreads.StopTerminates | Tools/DumpRenderTree/JavaScriptThreading.cpp:134-157 | every run after the flag is set is bounded, and one that cannot go on without going past an unfinished thread has returned from stop with all workers finished |
| JavaScriptThreads.StopWaitsForAll | Tools/DumpRenderTree/JavaScriptThreading.cpp:134-157 | from the snapshot on, stop returns only after every worker has finished, under every schedule, if and only if at the snapshot no worker is past the flag check and every worker that has respawned is finished |
| JavaScriptThreads.WorkerOutlivesStop | Tools/DumpRenderTree/JavaScriptThreading.cpp:106-157 | a run from the start in which stop returns while a worker that had respawned before the snapshot is unfinished |
| JavaScriptThreads.WorkerBounded | Tools/DumpRenderTree/JavaScriptThreading.cpp:64-122 | after the flag is set a worker takes at most twelve more steps of its own, however the others are scheduled |

## Left out

- Selector text: tokenising rests on regular expressions, so selectors start as token lists whose simple filters are arbitrary predicates of the element.
- SelectorMatcher.Sizzle.MatcherFromTokens: nested `:has` and `:not`, positional selectors and `setMatcher` are not modelled.
- Native `querySelectorAll`, `compareDocumentPosition` and `sourceIndex`: answers of the browser.
- DocumentOrder.SortOrder: nodes of one document only; disconnected nodes have no order to compare with.
- DocumentOrder.RemoveDuplicates: starts from a sorted list; the engine's sort, and its skipping of the step when no comparison returned zero, are not modelled.
- Callbacks.DoInv: exceptions thrown by callbacks themselves are not modelled; arguments to `add` are already flattened.
- `always` of deferreds, the contexts callbacks run in, and functions that throw.
- ThenMachine.ReactInv: modelled on values; a function that returns the promise of the very deferred `then` is making is not modelled.
- WhenMachine.ResolvedWhenAll: not for a single deferred, which the source returns as it is; subordinates are deferreds, not other objects with a promise function.
- NthChild.ChildFilter.Test: the first-, last- and only-child forms, plain scans for a sibling, are not modelled.
- The data cache for plain objects and for elements that refuse data, the mapping of a name to its spellings, and the values stored: an entry records which keys are present.
- DataCache.DataCache.Write: which key is written, and reading it back, are not modelled.
- DataCache.RemoveHandlers: matches on the type a handler was bound as alone, as cleaning does.
- DataCache.DataCache.EventRemove: removes by type alone, as cleaning does; the other criteria are in EventHandlers.
- The `special` event hooks (setup, teardown, add, remove) and the browser's own listener tables.
- EventHandlers.HandlerList.Handlers: the answer of the selector engine for one element is a parameter; running the queue with stopped propagation is not modelled.
- AjaxConvert.Convert: table keys are lower-case and have two parts, and entries are truthy. The data filter is applied by the caller.
- Parsing of the keyword file, and the text layout of the generated C++; the floating-point weights are reals.
- The big-endian packing of KeywordLookupGenerator.py, whose four-character macro refers to itself.
- KeywordLookup.GeneratedLookup: needs edges of at most eight characters; KeywordBounds.CompilesIffNoLongStretch says for which tables that holds.
- The JavaScriptCore calls made under the lock in JavaScriptThreading.cpp, and thread identifiers being reused by the operating system. What waiting for a thread that has detached itself does is left open: main may go past it at once or wait for it, and no result depends on the choice.
- The rest of jQuery and of the repository (styles, animation, transports, bindings, test harness glue): foreign calls, or easy members.
