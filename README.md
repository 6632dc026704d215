# hot_redis, modelled in Dafny

hot_redis gives Python programs `List`, `Set` and `Dict` objects whose
contents live in Redis. Each object is a handle: a key, plus (for lists and
sets) a remembered element type. Every method becomes one or more Redis
calls. Each call is routed through `_proxy`, which works as follows:

- a method the redis-py client has is called on `client()`, which is
  `_pipeline or redis`: the open `pipeline()` only when it already holds a
  command, which as written never happens, so every call runs at once (see
  Findings);
- any other name is looked up among the Lua scripts loaded from
  `atoms.lua`;
- what comes back is converted to the handle's element type by `_set_type`.

This project models that core. Its modules are:

- `Values`: the Python values a handle stores. It defines their `str()`
  and `int()` encodings, `list.index` and `list.count` (`IndexOf`,
  `CountOf`), and the order the model uses wherever Python or Redis
  order is arbitrary.
- `Loader`: the loop that splits `atoms.lua` into named scripts.
- `Redis`: the store as a map from keys to list, set and hash entries.
  - `Prepare` turns a redis-py method name and its arguments into a
    command, failing with AttributeError for a name the client does not
    have.
  - `Apply` gives the server's answer and the new store.
  - The store invariant is that no entry is empty.
- `Typing`: the type tag.
  - `_check_type` is specified by the tags of the leaves it visits
    (`Leaves`) and the fold over them (`CheckLeaves`).
  - `_set_type` is the conversion of a reply to an answer (`SetType`,
    `Wrap`).
- `Router`: name resolution in `_proxy`, the command queue of
  `pipeline()` and its execution (`Exec`).
- `Handles`: the `Server` class (the connection state: store plus open
  queue) and the `Iterable` class. An `Iterable` holds the key, the kind
  and the mutable tag, and provides `_proxy` and `_check_type` as methods.
- `ListOps`, `SetOps`, `DictOps`: each method of `List`, `Set` and
  `Dict` as a function from the connection and the tag to the new
  connection, the new tag and the answer. The lemmas state what each
  method does to the store.
- `HotRedis`: the classes `List`, `Set` and `Dict`. Each method updates
  the shared `Server` and its handle's tag in place, and its `ensures`
  ties the new state to the `ListOps`, `SetOps` or `DictOps` function.

The Lua scripts (`list_insert`, `list_pop`, `list_reverse`,
`list_multiply`, `set_intersection_update`, `set_difference_update`) are
not part of this model. `atoms.lua` is not part of this model either. The
scripts' effect is a parameter of the environment (`Env.run`): a function
from code, keys, arguments and store to a new store and a reply.

## Model

| member | source | states |
|---|---|---|
| Values.IndexOf | hot_redis.py:200-201 | the first position holding a value equal to v; ValueError exactly when no element equals v |
| Values.CountOf | hot_redis.py:203-204 | the count is at most the length, and is zero exactly when no element equals v |
| Values.CountSnoc | hot_redis.py:203-204 | one more element adds one to the count exactly when it equals v |
| Values.CountIsMatches | hot_redis.py:203-204 | `list.count(v)` is the number of positions whose element equals v |
| Values.Strip | hot_redis.py:23 | the stripped text is no longer than the input and neither starts nor ends with whitespace |
| Values.StripTrims | hot_redis.py:23 | the stripped text is a slice of the input with only whitespace before and after it, so with Strip's own contract it is exactly the input without its whitespace ends |
| Values.DecimalRoundTrip | hot_redis.py:94 | `int()` of the text `str()` sends to Redis for an int gives back the same int |
| Values.Sorted | hot_redis.py:378-379 | the model's stand-in for an arbitrary member order lists exactly the members of the set, each once |
| Loader.Find | hot_redis.py:26 | the first position of the separator (`split("\n", 1)`), or that there is none |
| Loader.FindLast | hot_redis.py:28 | the last position of `end` (`rsplit("end", 1)`), or that there is none |
| Loader.SplitJoin | hot_redis.py:23 | the fragments from `split("function ")`, joined back with the separator, give the text again |
| Loader.LoadedAdd | hot_redis.py:24-29 | one loop step over a fragment with a newline keeps the table invariant: every entry is the code of the last fragment declaring its name |
| Loader.LoadedSkip | hot_redis.py:24-25 | an empty fragment is skipped without breaking the table invariant |
| Loader.LoadFails | hot_redis.py:26 | a non-empty fragment without a newline makes the load fail with ValueError |
| Loader.LoadScripts | hot_redis.py:21-29 | fails with ValueError exactly when some non-empty fragment has no newline; otherwise every declared name is in the table, holding the code of its last declaration |
| Redis.Prepare | hot_redis.py:42-46 | a method name the client does not have is an AttributeError |
| Redis.ApplyCanonical | hot_redis.py:40-53 | every command keeps the store free of empty entries (Redis deletes a key whose collection becomes empty) |
| Redis.SetThenIndex | hot_redis.py:168-173 | LSET succeeds exactly when the key holds a list and the index is in range; LINDEX then returns the value and the other items stay; on failure the store is unchanged and the error is a ResponseError |
| Redis.PushThenRange | hot_redis.py:178-180 | RPUSH appends the values in order and answers the new length |
| Redis.PopEnds | hot_redis.py:189-195 | LPOP and RPOP return the first or last item and remove exactly it |
| Redis.RemoveCount | hot_redis.py:247-250 | SREM answers how many of the values were members, which is zero exactly when none was |
| Redis.RemoveThenAbsent | hot_redis.py:247-250 | after SREM the set is the old one minus the values, and SISMEMBER is false for each of them |
| Redis.PopMember | hot_redis.py:241-242 | SPOP on a non-empty set returns a member and removes exactly it |
| Redis.SetIfAbsent | hot_redis.py:387-389 | HSETNX writes and answers 1 only when the field is absent; otherwise it answers 0 and changes nothing; a second HSETNX on the field is refused |
| Redis.InterCommutes | hot_redis.py:271-282 | SINTER of two sets does not depend on their order and answers their intersection |
| Redis.InterStoreAgrees | hot_redis.py:284-287 | SINTERSTORE stores what SINTER answers and returns its size |
| Typing.CheckKeepsFixed | hot_redis.py:97-105 | once a handle's type is set, `_check_type` never changes it |
| Typing.CheckFromUnset | hot_redis.py:100-103 | with no type yet, the first leaf's type becomes the handle's type; no leaves leave it unset |
| Typing.CheckPassesIff | hot_redis.py:97-105 | the check passes exactly when every leaf has the expected type (the fixed one, or the first leaf's) |
| Typing.CheckAppend | hot_redis.py:98-99 | checking a concatenation is checking the first part, then the second from the tag it left, stopping at the first failure |
| Typing.EmptyKeepsUnset | hot_redis.py:98-99 | an empty list or set (even nested empty lists) visits no leaf and sets no type |
| Typing.CheckUniform | hot_redis.py:97-105 | many leaves of one type check like a single leaf of that type |
| Typing.ListRebuilt | hot_redis.py:87-92 | a list reply to a typed list handle is rebuilt item by item with the type's conversion, in order, and fails exactly when some item does not convert |
| Typing.StrUnchanged | hot_redis.py:85-86 | with type str (or no type) a reply comes back unconverted |
| Typing.IntListRoundTrip | hot_redis.py:84-95 | ints stored as their decimal text come back as the same ints from an int-typed list |
| Typing.BoolNotPreserved | hot_redis.py:93-94 | a stored False comes back as True: `bool("False")` is true |
| Typing.NoneOnlyFromNil | hot_redis.py:70-74 | a call answers None exactly when Redis answered nil |
| Typing.SetType | hot_redis.py:84-95 | a hash reply to a Dict handle is returned as the dict it is; every other reply is converted as written |
| Typing.Wrap | hot_redis.py:68-74 | a nil reply gives None; every reply except a Dict's hash is wrapped as written |
| Typing.QueuedCallFails | hot_redis.py:68-74 | a queued call's answer (the pipeline object) raises TypeError exactly on a handle typed int, list or set, and is returned as it is with the str tag or no tag |
| Typing.DictValueFails | hot_redis.py:371-373 | as written, `value` of a Dict holding `{"a": "1"}` raises ValueError; with the correction it is that dict |
| Router.Resolve | hot_redis.py:40-53 | a client method wins; otherwise a loaded script of that name; otherwise nothing, and the call is an AttributeError |
| Router.NativeWins | hot_redis.py:41-46 | the script table plays no part in a call of a client method |
| Router.MissingName | hot_redis.py:47-53 | a name that is neither a client method nor a script raises AttributeError and changes nothing |
| Router.NativeRunsAtOnce | hot_redis.py:11 | outside `pipeline()` a client call runs at once on the store |
| Router.EmptyPipelineRunsAtOnce | hot_redis.py:11 | inside a freshly opened `pipeline()` a call does what it does with no pipeline open, and the pipeline stays empty: the empty pipeline is false |
| Router.BatchedCallQueues | hot_redis.py:11 | with `client()` corrected to pick any open pipeline, a client call inside `pipeline()` changes nothing; it is queued and answers the pipeline object |
| Router.ScriptRunsAtOnce | hot_redis.py:47-52 | a script runs at once with the handle's key as its only key, even inside `pipeline()` |
| Router.Exec | hot_redis.py:18 | a queue holding a malformed command runs nothing and raises a ResponseError |
| Router.RunAllAppend | hot_redis.py:18 | executing a queue is executing its first part, then its second, keeping the first error |
| Router.BatchIsSequential | hot_redis.py:11-19 | with the corrected `client()`, two calls batched in `pipeline()` leave the store as the same two calls made one after the other, and succeed exactly when both do |
| Router.BatchedAppends | hot_redis.py:11-19 | with the corrected `client()`, two RPUSHes in `pipeline()` change nothing until the exit, which appends both values in order and closes the pipeline |
| Router.PipelinedAppendsRunAtOnce | hot_redis.py:11-19 | as written, two RPUSHes in `pipeline()` each run at once, the pipeline stays empty, and the exit runs nothing |
| Router.Exit | hot_redis.py:18-19 | in the corrected batching, leaving `pipeline()` always clears the open pipeline |
| Router.Abort | hot_redis.py:17-19 | in the corrected batching, leaving `pipeline()` on an exception clears the pipeline and keeps the store |
| Router.NestedPipeline | hot_redis.py:13-19 | a nested `pipeline()` replaces the outer one and drops its queue unexecuted, leaving the store unchanged; the outer exit then fails with AttributeError on None |
| Router.AbortLeavesPipelineOpen | hot_redis.py:11-19 | as written, an exception in the body leaves the empty pipeline set and later calls still run at once; with the corrected `client()` they would be queued and never run unless the exit clears the pipeline |
| Router.FailedExecLeavesPipelineSet | hot_redis.py:18-19 | a failing execute (possible only with a non-empty queue) leaves an empty pipeline set; the corrected exit clears it |
| Handles.Server.Call | hot_redis.py:40-53 | the new connection and reply are those of the routed call |
| Handles.Server.OpenPipeline | hot_redis.py:14-16 | opens an empty queue and keeps the store |
| Handles.Server.ClosePipeline | hot_redis.py:17-19 | executes the queue, then clears the pipeline unless execute raised; a pipeline opened and left empty closes without running anything |
| Handles.Server.AbandonPipeline | hot_redis.py:17 | an exception in the body leaves the connection and `_pipeline` as they are |
| Handles.Iterable.constructor | hot_redis.py:64-66 | a new handle has its key and no type |
| Handles.Iterable.Proxy | hot_redis.py:68-74 | the new connection and answer are the routed call's reply after the type conversion |
| Handles.Iterable.CheckType | hot_redis.py:97-105 | the new tag and the verdict are the fold of the check over the value's leaves |
| Handles.ProxiedAt | hot_redis.py:68-74 | outside a pipeline a proxied client call is the store's answer after the type conversion |
| Handles.TextArgsSent | hot_redis.py:46 | texts passed as arguments reach Redis unchanged |
| Handles.SpreadMembers | hot_redis.py:239 | the texts `*value` sends for a set are exactly the texts of its members |
| Handles.CountAnswer | hot_redis.py:249 | an integer reply converts, and equals 0 exactly when the count is 0 |
| ListOps.SliceAgrees | hot_redis.py:158-162 | with the corrected bounds, LRANGE returns exactly the Python slice `l[start:stop]`, and an empty slice when the stop is 0 |
| ListOps.SliceStopZero | hot_redis.py:161-162 | as written, `l[0:0]` asks LRANGE for the whole list rather than nothing |
| ListOps.GetItemIndexError | hot_redis.py:163-166 | `l[i]` raises IndexError exactly when i is out of range, and changes nothing |
| ListOps.ValueIsWholeList | hot_redis.py:137-139 | `value` is the whole stored list, in order, and changes nothing |
| ListOps.CheckedBeforeWrite | hot_redis.py:168-187 | `__setitem__`, `extend` and `insert` with a value of the wrong type raise TypeError before anything is sent, and keep a fixed type |
| ListOps.SetItemIndexError | hot_redis.py:168-173 | `l[i] = v` raises IndexError exactly when the key holds no list or i is out of range; on success `l[i]` then holds v, on failure the store is unchanged |
| ListOps.ExtendAppends | hot_redis.py:178-180 | `extend` of a non-empty list of the right type appends its items in order and fixes the handle's type |
| ListOps.ExtendNothing | hot_redis.py:178-180 | `extend([])` sends an RPUSH with no values, which Redis refuses |
| ListOps.ExtendInPipeline | hot_redis.py:178-180 | inside a freshly opened `pipeline()`, `extend` runs its RPUSH at once, as outside one, and queues nothing |
| ListOps.AppendThenValue | hot_redis.py:182-183 | appending an int to an int list makes `value` the old ints followed by the new one |
| ListOps.PopDispatch | hot_redis.py:189-195 | `pop()` takes the last item, `pop(0)` the first, and any other index runs the `list_pop` script |
| ListOps.LenIsLength | hot_redis.py:155-156 | `len` is the length of the stored list |
| ListOps.IndexFindsFirst | hot_redis.py:200-201 | `index(v)` is the first position of v in the stored list; ValueError exactly when v is absent |
| ListOps.CountCounts | hot_redis.py:203-204 | `count(v)` is the number of positions of the stored list whose item equals v |
| ListOps.AddConcatenates | hot_redis.py:141-142 | `l + other` is a new List initialised with the stored items followed by the other's |
| ListOps.MulRepeats | hot_redis.py:148-149 | `l * n` is a new List initialised with the stored items repeated n times |
| ListOps.RepeatAt | hot_redis.py:149 | in the repetition, position q times the length plus j holds item j |
| ListOps.EqualsIff | hot_redis.py:107-108 | two List handles are equal exactly when their stored lists are equal |
| SetOps.Combine | hot_redis.py:3 | union, intersection and difference have their set meaning (`ior`, `iand`, `isub`) |
| SetOps.RemoveKeyError | hot_redis.py:247-250 | `remove(v)` raises KeyError exactly when v is not a member, succeeds exactly when it is, and leaves the set without v |
| SetOps.DiscardOnlyKeyError | hot_redis.py:252-256 | `discard(v)` lets a TypeError through but not a KeyError, and leaves the set without v |
| SetOps.ContainsIff | hot_redis.py:261-262 | `v in s` is true exactly when v is a member |
| SetOps.EqualsIff | hot_redis.py:107-108 | `s == o` is true exactly when the stored set equals the other Set handle's stored set, or the plain set o |
| SetOps.LenCounts | hot_redis.py:258-259 | `len` is the number of members |
| SetOps.PopTakesMember | hot_redis.py:241-242 | `pop()` returns None for an empty set; otherwise it returns some member and removes exactly it |
| SetOps.ClearEmpties | hot_redis.py:244-245 | `clear()` deletes the key |
| SetOps.AddStores | hot_redis.py:235-236 | `add(v)` adds v to the stored set and fixes the handle's type |
| SetOps.AddIsOneSAdd | hot_redis.py:235-239 | `add(v)` is `update([v])`: one SADD of v |
| SetOps.UpdateLocalStrings | hot_redis.py:229-239 | `update(b)` (and so `Set(b)`) with a non-empty local set of strings, on a handle of type unset or str, leaves the stored set as its old members plus b and fixes the handle's type to str |
| SetOps.UpdateWritesFirstHandle | hot_redis.py:229-239 | `update(other, [w])` with a Set handle first also adds w to that other handle's set, because `ior` on a Set updates it in place |
| SetOps.NoOperandsAnswerOwnSet | hot_redis.py:277-282 | `intersection()`, `union()` or `difference()` with no operands answers the set's own members |
| SetOps.AskStore | hot_redis.py:277-331 | with a Set handle as operand, the combination is computed by Redis and is the set combination of the two stored sets |
| SetOps.ReduceLocally | hot_redis.py:229-233 | with a local set as operand, the combination is the set combination of the members and that set |
| SetOps.StoreAgreesWithLocal | hot_redis.py:277-331 | the store path and the local path give the same answer for the same members |
| SetOps.UpdateInStore | hot_redis.py:284-291 | `intersection_update` and `difference_update` with Set handles leave the set as the combination would answer it |
| SetOps.InPlaceStore | hot_redis.py:284-287 | with only Set handles, the in-place update is one SINTERSTORE or SDIFFSTORE into the handle's own key |
| SetOps.CombinationStore | hot_redis.py:277-280 | with only Set handles, the combination is one SINTER, SUNION or SDIFF over the keys |
| SetOps.ReflectedCommutes | hot_redis.py:271-304 | with a Set handle o on the left, intersection and union answer as the same operation with the handles swapped |
| SetOps.IsDisjointIff | hot_redis.py:355-356 | `isdisjoint` is true exactly when the two stored sets have no common member |
| SetOps.PrecheckStops | hot_redis.py:230-231 | the type check over the operands stops at the first failure |
| SetOps.TwoKeys | hot_redis.py:277-331 | the store's combination of two keys is the set combination of their sets |
| SetOps.StoreThenMembers | hot_redis.py:287 | SINTERSTORE and SDIFFSTORE store what SINTER and SDIFF answer and return its size |
| SetOps.ReduceSplit | hot_redis.py:229-233 | `_reduce` is the type check over every operand followed by the fold of the operation |
| DictOps.ValueIsHash | hot_redis.py:371-373 | with the corrected conversion, `value` is the stored hash |
| DictOps.KeysListed | hot_redis.py:378-379 | `keys()` lists every field once |
| DictOps.ItemsListed | hot_redis.py:384-385 | `items()` lists exactly the stored field and value pairs, each once |
| DictOps.UpdateMerges | hot_redis.py:375-376 | `update(m)` writes every field of m over the stored hash |
| DictOps.UpdateEmptyRefused | hot_redis.py:375-376 | `update({})` is refused with a DataError by the client |
| DictOps.SetdefaultIff | hot_redis.py:387-389 | `setdefault(f, v)` on an absent field stores v and returns it; on a present field it returns None and changes nothing |
| DictOps.GetOrDefault | hot_redis.py:391-392 | `get(f, d)` is the stored value, or d when the field is absent or its value is empty |
| DictOps.GetItemNeverValue | hot_redis.py:394-397 | `d[f]` raises KeyError exactly when `get(f)` is None, and otherwise returns None, never the value |
| DictOps.SetItemRaises | hot_redis.py:399-400 | `d[f] = v` always raises TypeError, because HSET gets no value, and changes nothing |
| DictOps.DelItemRemoves | hot_redis.py:402-403 | `del d[f]` removes the field, whether or not it was there |
| DictOps.EqualsIff | hot_redis.py:107-108 | two Dict handles are equal exactly when their stored hashes are equal |
| DictOps.EqualsLocal | hot_redis.py:107-108 | a Dict handle equals the dict of its own fields and never equals a scalar |
| DictOps.InitIgnoresScalars | hot_redis.py:363-367 | `Dict(5)` or `Dict(True)` is an empty handle: `dict()` refuses them and the value is dropped |
| DictOps.PairsKeys | hot_redis.py:365 | `dict(pairs)` has exactly the first items of the pairs as keys |
| DictOps.PairsLastWins | hot_redis.py:365 | in `dict(pairs)` a key holds the value of its last pair |
| HotRedis.List.Create | hot_redis.py:127-135 | a new List handle on the given key whose store and type are those of `List(value, key)`: an iterable value is extended in, anything else is ignored |
| HotRedis.List.Value | hot_redis.py:137-139 | reads the list through `l[:]`, as ListOps.ValueOf, which ValueIsWholeList relates to the stored list |
| HotRedis.List.GetItem | hot_redis.py:158-166 | the store, reply and IndexError of `l[i]` and `l[a:b]`, as ListOps.GetItem, with the slice ends as written |
| HotRedis.List.SetItem | hot_redis.py:168-173 | the new type and store of `l[i] = v`, as ListOps.SetItem (SetItemIndexError, CheckedBeforeWrite) |
| HotRedis.List.DelItem | hot_redis.py:175-176 | `del l[i]` is `pop(i)`: LPOP, RPOP or the `list_pop` script |
| HotRedis.List.ExtendBy | hot_redis.py:178-180 | the new type and store of `extend`, as ListOps.Extend (ExtendAppends, ExtendInPipeline) |
| HotRedis.List.Append | hot_redis.py:182-183 | `append(v)` is `extend([v])` |
| HotRedis.List.Insert | hot_redis.py:185-187 | type check, then the `list_insert` script |
| HotRedis.List.Pop | hot_redis.py:189-195 | the new store and reply of `pop(i)`, as ListOps.Pop (PopDispatch) |
| HotRedis.List.Reverse | hot_redis.py:197-198 | runs the `list_reverse` script |
| HotRedis.List.IMul | hot_redis.py:151-153 | runs the `list_multiply` script with the factor |
| HotRedis.List.Len | hot_redis.py:155-156 | LLEN, as ListOps.Len (LenIsLength) |
| HotRedis.List.Index | hot_redis.py:200-201 | `index(v)` over the list's value, as ListOps.IndexIn (IndexFindsFirst) |
| HotRedis.List.Count | hot_redis.py:203-204 | `count(v)` over the list's value, as ListOps.CountIn (CountCounts) |
| HotRedis.List.ToValue | hot_redis.py:76-79 | another List handle stands for its value, anything else for itself |
| HotRedis.List.Equals | hot_redis.py:107-108 | `==` compares the values, as ListOps.Equals (EqualsIff) |
| HotRedis.List.IAdd | hot_redis.py:144-146 | `+=` extends the list in place with the other's value |
| HotRedis.List.Add | hot_redis.py:141-142 | `+` makes a new List on a fresh key, as ListOps.Add (AddConcatenates) |
| HotRedis.List.Mul | hot_redis.py:148-149 | `*` makes a new List on a fresh key, as ListOps.Mul (MulRepeats) |
| HotRedis.Set.Create | hot_redis.py:212-221 | a new Set handle whose store and type are those of `Set(value, key)`: a truthy iterable is added with `update`, anything else is ignored |
| HotRedis.Set.Precheck | hot_redis.py:229-231 | the loop over the operands, as SetOps.Precheck: each is made a set and checked, and the first failure ends it (PrecheckStops) |
| HotRedis.Set.Reduce | hot_redis.py:229-233 | the check followed by the fold, as SetOps.Reduce (ReduceSplit) |
| HotRedis.Set.Fold | hot_redis.py:233 | the loop of `reduce(op, values)`, as SetOps.Fold: a Set handle on the left is updated in place |
| HotRedis.Set.Value | hot_redis.py:222-224 | SMEMBERS, as SetOps.Members |
| HotRedis.Set.Add | hot_redis.py:235-236 | as SetOps.Add (AddStores, AddIsOneSAdd) |
| HotRedis.Set.Update | hot_redis.py:238-239 | the reduction by union, then one SADD (UpdateWritesFirstHandle) |
| HotRedis.Set.IntersectionUpdate | hot_redis.py:284-291 | SINTERSTORE into its own key when every operand is a Set handle, otherwise the reduction and then the `set_intersection_update` script (UpdateInStore) |
| HotRedis.Set.DifferenceUpdate | hot_redis.py:333-340 | SDIFFSTORE into its own key when every operand is a Set handle, otherwise the reduction and then the `set_difference_update` script (UpdateInStore) |
| HotRedis.Set.Combine | hot_redis.py:277-331 | `intersection`, `union`, `difference` and their operators, as SetOps.Combination (AskStore, ReduceLocally, StoreAgreesWithLocal) |
| HotRedis.Set.Reflected | hot_redis.py:271-324 | `__rand__`, `__ror__` and `__rsub__`, as SetOps.Reflected (ReflectedCommutes) |
| HotRedis.Set.IsDisjoint | hot_redis.py:355-356 | the negated truth of the intersection, as SetOps.IsDisjoint (IsDisjointIff) |
| HotRedis.Set.Remove | hot_redis.py:247-250 | as SetOps.Remove (RemoveKeyError) |
| HotRedis.Set.Discard | hot_redis.py:252-256 | as SetOps.Discard (DiscardOnlyKeyError) |
| HotRedis.Set.Pop | hot_redis.py:241-242 | SPOP (PopTakesMember) |
| HotRedis.Set.Clear | hot_redis.py:244-245 | DEL of the key (ClearEmpties) |
| HotRedis.Set.Len | hot_redis.py:258-259 | SCARD (LenCounts) |
| HotRedis.Set.Contains | hot_redis.py:261-262 | SISMEMBER (ContainsIff) |
| HotRedis.Set.Equals | hot_redis.py:107-108 | `==` compares the members with the other's value, as SetOps.Equals |
| HotRedis.Dict.Create | hot_redis.py:361-369 | a new Dict handle on the given key; a non-empty mapping, or pairs `dict()` accepts, is written with `update`; a value `dict()` refuses with TypeError is ignored, and its ValueError on malformed pairs is raised |
| HotRedis.Dict.Value | hot_redis.py:371-373 | HGETALL with the corrected conversion (ValueIsHash) |
| HotRedis.Dict.Update | hot_redis.py:375-376 | HMSET, as DictOps.Update (UpdateMerges, UpdateEmptyRefused) |
| HotRedis.Dict.Keys | hot_redis.py:378-379 | HKEYS (KeysListed) |
| HotRedis.Dict.Values | hot_redis.py:381-382 | `values()` calls itself forever and ends in a RecursionError, changing nothing |
| HotRedis.Dict.Items | hot_redis.py:384-385 | the pairs of the value (ItemsListed) |
| HotRedis.Dict.Setdefault | hot_redis.py:387-389 | HSETNX, answering the value only when it was written (SetdefaultIff) |
| HotRedis.Dict.Get | hot_redis.py:391-392 | HGET or the default (GetOrDefault) |
| HotRedis.Dict.GetItem | hot_redis.py:394-397 | KeyError or None (GetItemNeverValue) |
| HotRedis.Dict.SetItem | hot_redis.py:399-400 | always a TypeError (SetItemRaises) |
| HotRedis.Dict.DelItem | hot_redis.py:402-403 | HDEL of the field (DelItemRemoves) |
| HotRedis.Dict.Equals | hot_redis.py:107-108 | `==` compares the value with the other's (EqualsIff, EqualsLocal) |

## Left out

- Reading `atoms.lua` and `register_script`: file I/O and the server's script cache. The loader takes the file's text as a parameter and keeps each script's code.
- The Lua scripts: their code is not part of this model. Their effect on the store is the `Env.run` parameter, so `insert`, `pop(i)` for other indexes, `reverse`, `*=` and the local-operand path of `intersection_update` and `difference_update` are proved to call the right script with the right arguments, and no more.
- The network, the Redis server process and redis-py's connection handling: the store is a value, and each command is applied to it atomically.
- `uuid4()`: a new key is a parameter of the methods that make a new handle (`__add__`, `__mul__`, the constructors).
- `Base.__del__`: it runs when the garbage collector frees a handle, which the model does not have.
- `Base.__repr__`: formatting only.
- `List.sort`: Redis SORT's numeric and ALPHA ordering is not part of the store model.
- `__lt__`, `__le__`, `__gt__`, `__ge__`, `issubset` and `issuperset`: they rely on Python 2's ordering of values, including values of mixed types.
- `__iter__`: it only iterates over `value`, whose contents are proved.
- `__xor__`, `symmetric_difference` and `symmetric_difference_update`: they raise at once and touch nothing.
- Floats, `None` as a stored value, and other Python types: values are ints, strs, bools, lists and sets of them.
- Slice steps: a slice is modelled by its start and stop.
- Order: where Python or Redis order is arbitrary (set members sent as arguments, HKEYS, the member SPOP picks in `Values.Least`), the model uses lexicographic order. `_check_type` on a set visits its members grouped by type in a fixed order of the types (`Typing.TagsPresent`) instead of Python's hash order; only which type a mixed set leaves on an unset handle before its TypeError can differ.
- Client methods: only the 26 redis-py methods the collection handles call (`Redis.Natives`) are modelled. Any other method the client has (`ltrim`, `hlen`, `exists`, ...) is treated as absent, so `self.ltrim(...)` resolves to a script or an AttributeError here where the source would run LTRIM.
- Redis.Prepare: a name outside `Natives` is an AttributeError here even when redis-py has such a method (see Client methods).
- Router.Resolve: a redis-py method outside `Natives` resolves to a script or to nothing here, where the source finds it on the client (see Client methods).
- Router.MissingName: stated for names outside `Natives`, which includes redis-py methods the source would run (see Client methods).
- Batching: the connection state follows `client()` as written, so `pipeline()` never queues (Findings, hot_redis.py:11). The batching that was evidently meant is `Router.BatchedCall` with `Router.Exit` and `Router.Abort`, and only the Router lemmas about it use it; no handle method is modelled on it.
- Python's `1 == True` is not used when members are collapsed into a set. An int and a bool are kept apart.
- Operands are passed to the Set methods by key and type. A type that a reduction fixes on an operand handle is not carried back to the caller's object.
- An operand that is a local Python set is not updated in place by `ior` or `iand`; the model works on its value.
- `Dict` field names are kept as their texts. For a `Dict` built from a set of pairs, the pairs are visited in the model's order.
- `Dict.setdefault` with the default `None` is not modelled. The value is always a Python value.
- Dict reconstruction: as written, `_set_type` on a Dict's HGETALL reply raises ValueError unless every field name is two characters long (Findings, hot_redis.py:84-95). The handles use the corrected `Typing.SetType`, which returns the hash, so the members below state the evidently intended result, not the source's ValueError.
- Proxy: `Handles.Iterable.Proxy` returns a Dict's HGETALL reply as the hash, where the source raises ValueError (Dict reconstruction).
- ProxiedAt: `Handles.ProxiedAt` states the corrected reconstruction for a Dict's hash reply (Dict reconstruction); every other reply is converted as written.
- ValueIsHash: `DictOps.ValueIsHash` states that `d.value` is the stored hash, where the source raises ValueError (Dict reconstruction).
- ItemsListed: `DictOps.ItemsListed` states the items of the stored hash, where the source's `self.value.items()` raises ValueError (Dict reconstruction).
- DictOps.EqualsIff: compares the stored hashes, where the source raises ValueError materialising them (Dict reconstruction).
- EqualsLocal: `DictOps.EqualsLocal` compares the stored hash with a plain dict, where the source raises ValueError (Dict reconstruction).
- Value: `HotRedis.Dict.Value` returns the stored hash, where the source raises ValueError (Dict reconstruction).
- Items: `HotRedis.Dict.Items` returns the stored items, where the source raises ValueError (Dict reconstruction).
- Equals: `HotRedis.Dict.Equals` compares the stored hash, where the source raises ValueError (Dict reconstruction).
- SetOps.ContainsIff: stated only for a handle typed str or without a type; other types also convert the reply, which is covered by Typing.
- SetOps.LenCounts: stated only for a handle typed str or without a type, for the same reason.
- SetOps.PopTakesMember: stated only for a handle typed str or without a type, for the same reason.
- SetOps.AskStore: stated only for a handle typed str or without a type; other tags also convert the reply, which is covered by Typing.
- SetOps.ReduceLocally: stated only for a handle typed str or without a type and a plain set of strings, for the same reason.
- SetOps.StoreAgreesWithLocal: stated only for a handle typed str or without a type, for the same reason.
- SetOps.ReflectedCommutes: stated only for a handle typed str or without a type, for the same reason.
- SetOps.IsDisjointIff: stated only for a handle typed str or without a type, for the same reason.
- SetOps.EqualsIff: stated only for handles typed str or without a type, for the same reason.
- SetOps.RemoveKeyError: stated only when the tag after the check is int, str or bool. With a list or set tag (`s.remove([1])` on a handle of lists) the source sends SREM and then raises TypeError converting the count, which the operational model does compute but this lemma does not state.
- SetOps.ClearEmpties: stated only for a handle typed int, str or bool, under which the integer reply of DEL converts.
- ListOps.ExtendAppends: stated only when the tag after the check is int, str or bool. For a list of lists or sets the source appends the texts and then raises TypeError converting RPUSH's count, which the operational model does compute but this lemma does not state.
- ListOps.SetItemIndexError: stated only when the tag after the check is int, str or bool, for the same reason: with a list or set tag LSET runs and its reply then fails to convert.
- ListOps.LenIsLength: stated only for a handle typed str or without a type; for other types the length is converted with the type.
- ListOps.IndexFindsFirst: stated only for a handle typed str or without a type; other types compare the converted items.
- ListOps.CountCounts: stated only for a handle typed str or without a type, for the same reason.
- ListOps.EqualsIff: stated only for handles typed str or without a type, for the same reason.
- ListOps.AddConcatenates: stated only for a handle typed str or without a type and a local list operand.
- ListOps.MulRepeats: stated only for a handle typed str or without a type.
- ListOps.ValueIsWholeList: stated only for a handle typed str or without a type; AppendThenValue covers an int-typed list.

## Findings

| source | as written | input that shows it | evidently intended | confidence | as-written member | corrected member |
|---|---|---|---|---|---|---|
| hot_redis.py:11 | `client()` is `_pipeline or redis`, and a pipeline is false while its queue is empty (redis-py's pipeline defines `__len__` as its queue's length and no `__nonzero__`, so Python 2 takes the length as its truth), so inside `pipeline()` every call goes to the connection and the queue never grows | `with pipeline(): l.append("a"); l.append("b")` runs two RPUSHes at once, in two round trips, and the exit executes nothing | `client()` is the open pipeline (`_pipeline if _pipeline is not None else redis`): the calls are queued and run as one MULTI/EXEC on exit, and `_pipeline` is cleared however the block ends | not executed | Router.PipelinedAppendsRunAtOnce | Router.BatchedAppends |
| hot_redis.py:84-95 | for a Dict handle, `_set_type` maps over the HGETALL dict's keys and rebuilds it with `dict(keys)` | a Dict holding `{"a": "1"}`: `dict(["a"])` raises ValueError | `value` is the stored hash | not executed | Typing.DictValueFails | Typing.SetType |
| hot_redis.py:160-162 | a missing stop becomes 0, and the stop sent to LRANGE is stop - 1, so an explicit stop of 0 also becomes -1 | `l[0:0]` on `["a", "b"]` returns the whole list | `l[a:0]` is empty | not executed | ListOps.SliceStopZero | ListOps.SliceAgrees |
