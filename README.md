# OpenIM project template: the cache-aside user store

This project models the user store of the OpenIM project template. The store
reads users through a Redis/rockscache cache and falls back to the database on a
miss. It defers cache invalidation: a handle collects the keys to drop and a
later flush tags them as deleted, one batch per Redis Cluster hash slot. Above
the cache sit a storage controller, which checks that a batch read found every
requested user, and the user RPC service, which validates a registration
request before handing the users to the database.

Redis, rockscache, the JSON codec and the database are not modelled. What they
answer is passed in as a parameter:

- the `CLUSTER KEYSLOT` pipeline and the per-batch `TagAsDeletedBatch2` reply are `BatchHandler.Env`;
- what `Fetch2` did for a key is `ReadThrough.FetchOutcome`;
- the codec is `ReadThrough.Codec`;
- the loader and the database create are functions.

Modules:

- `Errs`: `Option`, `Result`, and the error kinds the code distinguishes.
- `Model`: the stored user and the database handle.
- `Sequences`: de-duplication in first-occurrence order, duplicate-freedom and subsequences.
- `CacheKey`: the two user key families.
- `BatchHandler`: `BatchDeleterRedis` as a class whose `keys` field the methods update, slot grouping, and the flush.
- `ReadThrough`: `getCache` and `batchGetCache`.
- `RedisUser`: the user cache of `pkg/common/storage/cache/redis`.
- `DbCacheUser`: the older user cache of `pkg/common/db/cache`.
- `Controller`: the storage controller.
- `RpcUser`: registration and the designated-users lookup.
- `GoSliceDeleter`: the deleter's key list stored the way Go stores a slice, used for the finding below.

Two behaviours of the code are easy to miss:

- A chained flush does not clear the pending keys, so a second flush tags the same keys again.
- A batch read returns the found values in the order the keys were asked for.

## Model

| member | source | states |
|---|---|---|
| BatchHandler.GetRocksCacheOptions | pkg/common/storage/cache/redis/batch_handler.go:95-101 | the default options are strongly consistent |
| BatchHandler.GroupKeysBySlot | pkg/common/storage/cache/redis/batch_handler.go:104-132 | on a cluster, a failed pipeline gives a slot-lookup error; otherwise the result is the slot grouping `Groups` (one group per resolved slot on a cluster, a single slot-0 group of all keys otherwise) |
| BatchHandler.SlotKeysMembership | pkg/common/storage/cache/redis/batch_handler.go:118-125 | a key is in a slot's group exactly when it was asked for and its lookup answered that slot |
| BatchHandler.SlotKeysInOrder | pkg/common/storage/cache/redis/batch_handler.go:118-125 | each slot's group keeps the input order (it is a subsequence of the keys) |
| BatchHandler.SlotKeysOfUnusedSlot | pkg/common/storage/cache/redis/batch_handler.go:118-125 | a slot no key resolved to gets no keys |
| BatchHandler.SlotKeysNoDuplicates | pkg/common/storage/cache/redis/batch_handler.go:50-51 | de-duplicated keys give duplicate-free groups |
| BatchHandler.GroupsPartitionKeys | pkg/common/storage/cache/redis/batch_handler.go:104-132 | every key whose lookup succeeded lands in exactly its own slot's group (slot 0 without a cluster); a key whose lookup failed lands in none |
| BatchHandler.SlotsBound | pkg/common/storage/cache/redis/batch_handler.go:104-132 | there are never more slot groups, and so tag calls, than keys |
| BatchHandler.ResolvedSlotsAreSlots | pkg/common/storage/cache/redis/batch_handler.go:118-125 | on a cluster, the slots met while scanning the keys are exactly the grouped slots |
| BatchHandler.ResolvedSlotsStandalone | pkg/common/storage/cache/redis/batch_handler.go:126-129 | without a cluster every key is grouped under slot 0 |
| BatchHandler.SlotOrderEnumeratesGroups | pkg/common/storage/cache/redis/batch_handler.go:69 | the order in which the flush visits the slot map names every group exactly once |
| BatchHandler.TagEachGroup | pkg/common/storage/cache/redis/batch_handler.go:69-74 | every group is tagged exactly once with its own keys, and a failed tag call does not stop the rest |
| BatchHandler.BatchDeleter.constructor | pkg/common/storage/cache/redis/batch_handler.go:32-37 | the struct holds the given client, keys, rockscache client and topics |
| BatchHandler.BatchDeleter.ExecDel | pkg/common/storage/cache/redis/batch_handler.go:61-77 | no keys: no error and no tag call; a failed slot pipeline: that error and no tag call; otherwise no error after exactly one tag call per slot group, whatever those calls answered |
| BatchHandler.BatchDeleter.ExecDelWithKeys | pkg/common/storage/cache/redis/batch_handler.go:49-52 | flushes the de-duplicated explicit keys; the pending list plays no part and is unchanged |
| BatchHandler.BatchDeleter.ChainExecDel | pkg/common/storage/cache/redis/batch_handler.go:55-58 | flushes the de-duplicated pending keys and leaves the list as it was |
| BatchHandler.BatchDeleter.Clone | pkg/common/storage/cache/redis/batch_handler.go:80-87 | a new deleter with the same client, rockscache client, topics and pending keys, owning its own copy of the keys |
| BatchHandler.BatchDeleter.AddKeys | pkg/common/storage/cache/redis/batch_handler.go:90-92 | the new pending list is the old one followed by the arguments, in order |
| BatchHandler.NewBatchDeleterRedis | pkg/common/storage/cache/redis/batch_handler.go:40-46 | an empty pending list over a rockscache client built on the given Redis client and options |
| BatchHandler.SiblingClonesIsolated | pkg/common/storage/cache/redis/batch_handler.go:79-92 | two clones of one deleter that each add keys see only their own additions, and the original is unchanged |
| ReadThrough.GetCache | pkg/common/storage/cache/redis/batch_handler.go:134-166 | a Fetch2 error is returned; a loader that ran and encoded returns its value without decoding; a loader error or encoding failure is returned; an empty stored string is not-found; an undecodable one is an unmarshal error naming the key, value and expiry; the write flag is set exactly when the loader ran and its value encoded |
| ReadThrough.ReadAfterWrite | pkg/common/storage/cache/redis/batch_handler.go:137-159 | a value that was loaded and stored reads back as the same value on a later hit, without the loader, when the codec round-trips it |
| ReadThrough.HitIgnoresLoader | pkg/common/storage/cache/redis/batch_handler.go:153-165 | on a hit the result does not depend on the loader |
| ReadThrough.NotFoundSources | pkg/common/storage/cache/redis/batch_handler.go:150-162 | not-found comes only from an empty stored string or a not-found error from Fetch2 or the loader; a corrupt value is never reported as not found |
| ReadThrough.BatchGetCache | pkg/common/storage/cache/redis/batch_handler.go:168-194 | for any sequence of Fetch2 answers, one per call, the result is the left-to-right collection of the per-key getCache results: not-found skipped, any other error stops the batch |
| ReadThrough.CollectKeepsFirstError | pkg/common/storage/cache/redis/batch_handler.go:184-188 | once an error has stopped a prefix of the batch, later keys do not change the result |
| ReadThrough.CollectMeaning | pkg/common/storage/cache/redis/batch_handler.go:176-194 | with no hard error, the batch returns exactly the found values, in key order; otherwise it returns the first hard error and no values |
| ReadThrough.FoundInOrder | pkg/common/storage/cache/redis/batch_handler.go:179-190 | the found values keep the key order (a subsequence of the per-key results) and number at most the keys |
| ReadThrough.FoundAll | pkg/common/storage/cache/redis/batch_handler.go:179-190 | as many values as keys come back exactly when every key was found, and the values then line up with the keys |
| ReadThrough.RepeatedKeyStoredThenRead | pkg/common/storage/cache/redis/batch_handler.go:137-190 | a key asked for twice in one batch that misses, is loaded and stored, then hits, returns the loaded value both times when the codec round-trips it |
| CacheKey.UserInfoKeys | pkg/common/storage/cache/redis/user.go:59-61 | one user-info key per user ID, in order, duplicates kept |
| CacheKey.UserGlobalRecvMsgOptKeys | pkg/common/db/cache/user.go:83-85 | one global-receive-option key per user ID, in order, duplicates kept |
| CacheKey.UserInfoKeyInjective | pkg/common/db/cache/user.go:79-81 | distinct users never share a user-info key |
| CacheKey.UserGlobalRecvMsgOptKeyInjective | pkg/common/db/cache/user.go:83-85 | distinct users never share a global-receive-option key |
| CacheKey.KeyFamiliesDisjoint | pkg/common/db/cache/user.go:79-85 | no user-info key is a global-receive-option key |
| RedisUser.User.constructor | pkg/common/storage/cache/redis/user.go:33-38 | the struct holds the given deleter, rockscache client, database and expiry |
| RedisUser.NewUser | pkg/common/storage/cache/redis/user.go:29-48 | a twelve-hour (43200 s) cache whose deleter starts empty and has no publish topics |
| RedisUser.User.CloneUserCache | pkg/common/storage/cache/redis/user.go:50-57 | same expiry, database and rockscache client over a fresh clone of the deleter with the same keys |
| RedisUser.User.GetUsersInfo | pkg/common/storage/cache/redis/user.go:67-73 | exactly batchGetCache over the user-info keys, loading misses from the database |
| RedisUser.User.DelUsersInfo | pkg/common/storage/cache/redis/user.go:75-84 | returns a fresh clone whose keys are the receiver's followed by one user-info key per ID, in order; the receiver's keys are unchanged |
| DbCacheUser.ExpiryConstants | pkg/common/db/cache/user.go:29-34 | users are cached for twelve hours and online status for twenty-four |
| DbCacheUser.MetaCache.constructor | pkg/common/db/cache/user.go:62 | a meta cache over the given rockscache client holding the given pending keys (`NewMetaCacheRedis(rcClient)` with none) |
| DbCacheUser.MetaCache.Copy | pkg/common/db/cache/user.go:72 | the copy has the same client and its own copy of the keys |
| DbCacheUser.MetaCache.AddKeys | pkg/common/db/cache/user.go:107 | appends the keys, in order |
| DbCacheUser.UserCacheRedis.constructor | pkg/common/db/cache/user.go:60-76 | the struct literal of NewUserCacheRedis and NewCache: it holds the given Redis client, meta cache, database, expiry and rockscache client |
| DbCacheUser.UserCacheRedis.NewCache | pkg/common/db/cache/user.go:69-77 | same Redis client, database, expiry and rockscache client over a fresh copy of the meta cache |
| DbCacheUser.UserCacheRedis.DelUsersInfo | pkg/common/db/cache/user.go:101-110 | a fresh copy whose keys are the receiver's followed by one user-info key per ID, in order; the receiver is unchanged |
| DbCacheUser.UserCacheRedis.DelUsersGlobalRecvMsgOpt | pkg/common/db/cache/user.go:124-133 | the same with the global-receive-option keys |
| DbCacheUser.NewUserCacheRedis | pkg/common/db/cache/user.go:53-67 | a twelve-hour cache over an empty meta cache and a rockscache client built on the given Redis client |
| DbCacheUser.RemoveRepeatedElementsInList | pkg/common/db/cache/user.go:139-150 | the result is the first occurrence of each element, in order (`Dedup`) |
| Sequences.Dedup | pkg/common/db/cache/user.go:139-150 | no duplicates, no longer than the input, and holding exactly the input's elements |
| Sequences.FirstIndex | pkg/common/db/cache/user.go:143-146 | the index of an element's first occurrence |
| Sequences.DedupSubseq | pkg/common/db/cache/user.go:143-146 | the de-duplicated list is a subsequence of the input |
| Sequences.DedupFirstOccurrenceOrder | pkg/common/db/cache/user.go:143-146 | the kept elements appear in the order of their first occurrences |
| Sequences.DedupOfNoDuplicates | pkg/common/db/cache/user.go:139-150 | a duplicate-free list is returned unchanged |
| Sequences.DedupFixpoint | pkg/common/db/cache/user.go:139-150 | de-duplication leaves a list unchanged exactly when the list has no duplicates |
| Sequences.DedupIdempotent | pkg/common/db/cache/user.go:139-150 | de-duplicating twice equals de-duplicating once |
| Sequences.SubseqExtend | pkg/common/db/cache/user.go:145 | appending to a list keeps every subsequence of it a subsequence |
| Controller.FindWithError | pkg/common/storage/controller/user.go:45-54 | a cache error is returned; a count other than the number of IDs is record-not-found; otherwise the cache's list is returned unchanged |
| Controller.Create | pkg/common/storage/controller/user.go:57-59 | the database's answer for exactly the given users, with no invalidation queued |
| Controller.FindWithErrorOverCache | pkg/common/storage/controller/user.go:45-54 | over the batch read, success exactly when every ID was found, with the users in ID order; a hard error is passed on; otherwise a missing user is record-not-found; an empty ID list succeeds |
| RpcUser.UserIDs | internal/rpc/user/user.go:86 | the request's user IDs, in order |
| RpcUser.ToModels | internal/rpc/user/user.go:99-105 | one stored user per request user, in order, copying only the ID and the nickname |
| RpcUser.ValidateAccepts | internal/rpc/user/user.go:82-98 | a request is accepted exactly when it is non-empty, repeats no ID, and no ID is empty or contains ':' |
| RpcUser.FirstBadUserNone | internal/rpc/user/user.go:90-98 | the per-user scan reports nothing exactly when every ID passes both checks |
| RpcUser.FirstBadUserSkip | internal/rpc/user/user.go:90-98 | after a run of passing users, the first failure is the first failure of the rest |
| RpcUser.UserRegister | internal/rpc/user/user.go:80-113 | errors in the order empty list, repeated ID, then the first empty or ':'-holding ID; on any of them Create is not called and nothing is counted; otherwise Create gets the converted users and its error is returned as is; the counter moves exactly on success |
| RpcUser.GetDesignateUsers | internal/rpc/user/user.go:69-78 | fails exactly when FindWithError does, with its error; otherwise one reply user per requested ID, converting back to the stored user |
| GoSliceDeleter.SliceDeleter.constructor | pkg/common/storage/cache/redis/batch_handler.go:41-45 | the nil `keys` slice NewBatchDeleterRedis leaves: no keys and no capacity |
| GoSliceDeleter.SliceDeleter.Clone | pkg/common/storage/cache/redis/batch_handler.go:80-87 | as written: the clone gets the same backing array and length |
| GoSliceDeleter.SliceDeleter.AddKeys | pkg/common/storage/cache/redis/batch_handler.go:90-92 | Go's append: the visible keys gain the arguments; with room, they are written into the shared array in place and nothing else in it changes; without room, a fresh array at least as long as needed is used, the old shared array is left untouched, and up to 16 elements its capacity is Go's doubling rule |
| GoSliceDeleter.ChainOfThree | pkg/common/storage/cache/redis/user.go:75-84 | three clone-then-add steps leave three keys in an array of capacity four; the handle before the last step, whose array was outgrown, still holds two |
| GoSliceDeleter.SiblingClonesCollide | pkg/common/storage/cache/redis/batch_handler.go:80-92 | two clones of that list, adding "p" and "q", both end with "q" as their fourth key |

## Left out

- Contexts, cancellation, logging, the Prometheus counter itself (only whether it would move is modelled) and concurrency.
- rockscache internals: `Fetch2`'s single-flight and locking, the internals of `TagAsDeletedBatch2`, and what strong consistency means. Their answers are parameters.
- The 0.2 random expiry adjustment set by `GetRocksCacheOptions`, because it is a float.
- JSON encoding and decoding, because they are an abstract codec; the round trip is a hypothesis (`RoundTrips`), not proved.
- The Redis Cluster hash slot computation (`CLUSTER KEYSLOT`), because it runs on the server. It is a partial function.
- Publishing to `redisPubTopics`, because the code only logs the topics.
- The cachekey package is not part of this model. The key prefixes `USER_INFO:` and `USER_GLOBAL_RECV_MSG_OPT_KEY:` are OpenIM's layout, and only injectivity and disjointness are used.
- The meta cache of `pkg/common/db/cache` is not part of this model. It is taken to be a key accumulator whose `Copy` copies the keys. The topic `NewUserCacheRedis` sets on a meta cache it then discards is not modelled, since it never reaches the returned handle.
- `UserCacheRedis.GetUserInfo`, `GetUsersInfo` and `GetUserGlobalRecvMsgOpt` of `pkg/common/db/cache`, because their `getCache` and `batchGetCache2` helpers are not part of this model.
- `datautil.Distinct` and `datautil.DuplicateAny` are not part of this model. They are taken to be first-occurrence de-duplication (`Dedup`) and "has a repeated element" (`!NoDuplicates`).
- `convert.UsersDB2Pb` is not part of this model. It is taken to copy the user ID and nickname field by field.
- `Start`, the service wiring, the API router, the webhooks, configuration loading, service discovery and the deployment and tooling programs, because they are I/O and wiring around the core.
- `RemoveRepeatedElementsInList` on floats: Go's map treats NaN as never equal to itself, whereas the model uses Dafny equality.
- The `userIDs` slice `UserRegister` builds and never uses.
- The `ExecDel` member stands for Go's unexported `execDel`.
- BatchHandler.BatchDeleter.ExecDel: Go ranges over the slot map in an unspecified order; the model tags the groups in one of those orders, the order in which each slot's first key appears.
- BatchHandler.GroupKeysBySlot: go-redis's `Exec` reports an error whenever any command in the pipeline fails; the model keeps the pipeline error and the per-key lookup failures independent, so it also covers a successful pipeline with failed single lookups.
- Controller.FindWithError: on a count mismatch Go also returns the partial user list beside the error; the model returns only the error, and every caller discards the list on error.
- ReadThrough.GetCache: on a Fetch2 error Go also returns whatever value the loader may have set; the model returns only the error, and `written` reports no write when Fetch2 itself failed.
- GoSliceDeleter.SliceDeleter.AddKeys: when the array grows past 16 elements, only a lower bound on the new capacity is stated, because Go then rounds up to its allocator's size classes (17 strings get capacity 18).
- BatchHandler.BatchDeleter.Clone: the model gives the clone its own copy of the keys, which is what the comments at batch_handler.go:54 and :79 ask for. Go copies the slice header instead; `GoSliceDeleter` models that as written (see Findings).

## Findings

| source | as written | input that shows it | evidently intended | confidence | as-written member | corrected member |
|---|---|---|---|---|---|---|
| pkg/common/storage/cache/redis/batch_handler.go:83 | `Clone` copies the slice header, so a clone shares its backing array with the original, and `AddKeys`' append writes into that array in place while capacity lasts | three clone-then-AddKeys steps (what DelUsersInfo does), adding "a", "b", "c", leave three keys in an array of capacity four; two more clone-then-AddKeys steps from that third handle then add "p" and "q"; the handle returned for "p" holds "a", "b", "c", "q" | each clone owns its keys, so that handle holds "a", "b", "c", "p", as the comments at :54 and :79 ("prevent memory pollution") say | not executed | GoSliceDeleter.SiblingClonesCollide | BatchHandler.SiblingClonesIsolated |
