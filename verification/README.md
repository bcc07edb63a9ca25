# framego: verified models of its pool, id generator, caches and health runner

This project models the four parts of framego whose correctness is not visible from reading one
function: the connection pool, the unique-id generator, the two self-refreshing caches and the
health check runner. `dafny verify dfyconfig.toml` checks everything.

## How the model is laid out

**Connection pool** (`Pool*.dfy`, `IdleList.dfy`). `PoolModel` holds the shared fields as a value and
one function for each stretch of code between Lock and Unlock. `PoolSteps` interleaves these
functions: any number of goroutines, each with a phase and possibly a connection in transit, because
the mutex is dropped around every Close, TestOnBorrow and Dial. `PoolProofs` has the invariant and
`PoolTheorems` what callers get from it. `IdleList` and `PoolHeap` are the objects themselves, with
real `next`/`prev` pointers; `PoolCalls` states what one uninterrupted Get, Put or Close amounts to,
the heap methods are proved equal to it, and `PoolRefinement` shows every such call to be a run of
the step system, so the theorems about runs hold of the objects. Dial, TestOnBorrow and the clock
are inputs: Dial returns a connection never dialed before, or fails; clocks do not run backwards.

**Unique ids** (`Words`, `Cipher`, `Snowflake`, `Generator`, `HexId`). Words are naturals with the
64-bit wrap-around, shifts and bitwise or written out. The history of a generator is its sequence of
clock readings. xtea is not in the repository: the cipher is any network of half rounds of xtea's
shape, with arbitrary round functions, and its injectivity is proved.

**Caches** (`DataCache*.dfy`, `CacheMap*.dfy`). Step systems over Gets, GetManys, evictions and
background loads, with a log of load starts, stores, finished loads and returned values. In CacheMap
a GetMany holds the map's lock over its whole second pass, and a Get that claims an update holds the
item's lock from its check to its write; whoever needs that lock meanwhile is blocked. And the
objects with their fields (`DataCacheImpl`, `CacheItemImpl`, `CacheMapImpl`), whose methods perform
the same locked stretches and whole uninterrupted calls. The `*Runs` modules show that uninterrupted
calls, an eviction and the end of a load are runs of the step systems with the outcome the objects
have; `HoldsLastLoad` in `DataCache` and `CacheMapContents` says what a cache holds in any run, from
its log of starts and stores alone. What the source returns (a value, whether it failed, the clock
afterwards) is an input. Times are nanoseconds.

**Health runner** (`HealthCheck`, `HealthRunner`). The composite check twice: with each merge as one
step, and with the unlocked reads and writes of the shared status as separate steps. The runner as a
step system of concurrent cycles, and as an object.

## Where the code falls short of its documentation or of the obvious claim

- `ParseIDSafe` is documented (`uniqueid/uniqueid.go:25`, `docs/uniqueid.md:34`) to turn any malformed
  input into zero. It does not for hex strings beyond 64 bits: the parser's error is dropped but not
  the value that comes with it. `HexId.ParseIDSafeIs` gives the exact condition, `HexId.OverlongExample`
  a string.
- The time field has 42 bits: two calls 2^42 milliseconds apart repeat a plain id
  (`Snowflake.PlainRepeats`). `Snowflake.PlainEqualIff` says exactly when two histories do, in terms of
  their readings: on one node, when their counters differ by a multiple of 2^52. Ids of different nodes
  differ whatever the clocks do; for ids of one generator the theorems ask that its readings leave
  room in the field.
- `Put` of a connection the pool did not hand out dereferences nil exactly if the pool is still open
  when put takes the mutex (`PoolTheorems.ForeignPut`).
- A negative `MaxIdle` behaves like zero (`IdleBound` in `PoolModel`).
- The composite check reports the worst status under every schedule exactly when the checkers do not
  return both an Unknown and an Unhealthy; otherwise some schedule hides the Unhealthy
  (`HealthCheck.AlwaysWorstIff`).
- "Only one goroutine will try to load the data during one RetryInterval"
  (`datacache/datacachemap.go:55`) holds of an item exactly as long as every claim, at the moment it
  writes the next update time, finds the item due or stored since its last start
  (`CacheMapLoads.LoadsAreSpacedIff`). Runs of Get alone and runs of GetMany alone always do
  (`CacheMapLoads.ItemLoadsAreSpaced`); a Get and a GetMany together may not, because GetMany checks
  and writes without the item's lock (`CacheMapRaces.GetManyBreaksSpacing`). Of a key it holds exactly
  as long as every creation of an item meets such a guard too (`CacheMapKeys.KeysAreSpacedIff`): with
  an EvictTimeout below RetryInterval a key evicted and asked for again is loaded twice
  (`CacheMapMisses.EvictionBreaksSpacing`).
- "All Get requests will wait for first data until WaitTimeout" (`datacache/datacachemap.go:56`):
  for GetMany a batch load that ends late raises the cut-off; `CacheMapWaits.LateBatchOverruns` says
  exactly when the wait gets longer for it, `CacheMapOverrun.GetManyOverruns` gives the runs. Without
  LoadDataBatch GetMany always waits the whole timeout for a new key, even when its data has arrived
  (`CacheMapWaits.WithoutBatchWaitsOut`).
- GetMany waits exactly if it made an item itself (`CacheMapAnswers.GetManyWaitsIff`), so never for a
  key whose first load another call has started, however long WaitTimeout is.
- GetMany may leave out a key it was asked for: exactly when its first pass missed the key and its
  second found an item that was not due, made by another call in between
  (`CacheMapAnswers.GetManyAnswers`, and `CacheMapMisses.GetManyMissesKey` for a run).
- Eviction may remove a key accessed a moment ago, because it scans and deletes in two locked
  stretches (`CacheMapRaces.EvictsTouchedKey`); `CacheMapTimes.EvictsOnlyIdle` says exactly when the
  item removed is within its limit.

## Model

| member | source | states |
|---|---|---|
| PoolTheorems.ActiveWithinLimit | pool/pool.go:280-347 | in every interleaving of Get, Put and Close `active` is exactly idle plus checked out plus in transit, so it is never negative, and never exceeds MaxActive, with Wait as without |
| PoolTheorems.TokensConserved | pool/pool.go:242-271 | while the pool is open, buffered tokens plus checked-out connections plus token-holding calls are MaxActive; no send under the mutex blocks or meets a closed channel and the channel is closed once, even against lazyInit |
| PoolTheorems.OnePlaceEach | pool/pool.go:231-375 | each connection ever dialed is idle, checked out, with one goroutine, or closed once, and in only one of these places; no other connection is anywhere |
| PoolTheorems.SoleHolder | pool/pool.go:294-347 | a connection one goroutine is testing, handing out, evicting or closing is nowhere else and not yet closed |
| PoolTheorems.CloseTakesHold | pool/pool.go:231-245 | once Close has been called, in every later state the pool is closed or that call is still before its mutex; from its locked stretch on the pool is closed for good |
| PoolTheorems.ClosedPoolDrains | pool/pool.go:231-250 | after a call of Close, when all calls have returned and all borrowers have put back, the pool is closed, every dialed connection was closed exactly once and `active` is 0 |
| PoolTheorems.OpenPoolRefills | pool/pool.go:350-375 | an open pool at rest has all tokens back and counts exactly its idle connections |
| PoolTheorems.BlockedGetHasSupplier | pool/pool.go:281-292 | a get blocked on the channel means the pool is open and some connection is checked out or some call holds a token |
| PoolTheorems.IdleListOrdered | pool/pool.go:350-361 | the idle list is always ordered by time of return, newest first, within MaxIdle, and empty once closed |
| PoolTheorems.BehavedRunsNeverFault | pool/pool.go:184-190 | if every Put is of a connection checked out at that moment, no run dies or hangs under the mutex |
| PoolTheorems.ForeignPut | pool/pool.go:350-375 | a Put of an unknown connection dies if and only if the pool is open when put takes the mutex, whatever happens in between, and does nothing otherwise |
| PoolProofs.StepKeeps | pool/pool.go:275-375 | every step of every goroutine keeps accounting, conservation, token balance, the limit and the order of the list |
| PoolProofs.AdvanceBalanced | pool/pool.go:294-375 | one step changes `active` by what the goroutine's slot changes, and moves each connection from one place to another without losing or copying it |
| IdleLists.IdleList.PushFront | pool/pool.go:389-400 | exactly prepends a node, keeping the links mutually inverse |
| IdleLists.IdleList.PopFront | pool/pool.go:402-412 | exactly drops the first node and clears its links |
| IdleLists.IdleList.PopBack | pool/pool.go:414-424 | exactly drops the last node and clears its links |
| IdleLists.IdleList.Detach | pool/pool.go:239-241 | empties the list and leaves the chain of former nodes linked |
| IdleLists.Walk | pool/pool.go:246-248 | the walk along `next` closes each former idle connection once, in order |
| PoolCalls.PruneRunMeans | pool/pool.go:296-307 | on an ordered list, pruning at the back closes exactly the stale connections |
| PoolCalls.BorrowFromMeans | pool/pool.go:309-321 | the second loop closes the candidates that fail a check and stops at the first that passes |
| PoolCalls.GetMeans | pool/pool.go:275-348 | an uninterrupted get returns the most recently returned connection that passes, closes exactly the stale ones and those skipped, and refuses or dials only if none is left |
| PoolCalls.PutMeans | pool/pool.go:184-190 | an uninterrupted Put lists the connection first with its new return time, gives up the last of the list exactly if that holds more than MaxIdle, closes nothing else, and returns a token exactly to an open channel; a closed pool gives up the connection itself |
| PoolCalls.PutClosesOldest | pool/pool.go:350-369 | on an ordered list it keeps the newest MaxIdle, and if it closes one that is the one returned longest ago, the one just returned when MaxIdle is not positive |
| PoolCalls.CloseMeans | pool/pool.go:231-250 | an uninterrupted Close leaves the pool closed with an empty list and a closed channel, `active` less by what was idle, and each idle connection closed once, in order; on a closed pool it does nothing |
| PoolHeap.Pool.Get | pool/pool.go:169-181 | on the linked structure, Get leaves exactly the state, close calls and result of the call GetMeans is about |
| PoolHeap.Pool.Put | pool/pool.go:184-190 | Put of a checked-out connection leaves those of the call PutMeans and PutClosesOldest are about |
| PoolHeap.Pool.Close | pool/pool.go:231-250 | Close, with its walk over the detached chain, closes each idle connection once and leaves what CloseMeans says, stated on the object |
| PoolHeap.Pool.PruneLoop | pool/pool.go:297-307 | the pruning loop, with Unlock and Lock around each Close, equals its specification |
| PoolHeap.Pool.BorrowLoop | pool/pool.go:310-321 | the borrowing loop equals its specification |
| PoolRefinement.GetIsARun | pool/pool.go:275-348 | an uninterrupted Get on a pool at rest is a run of the step system with the same state and close calls |
| PoolRefinement.PutIsARun | pool/pool.go:350-375 | so is a Put of a checked-out connection, with what it keeps and closes spelled out |
| PoolRefinement.CloseIsARun | pool/pool.go:231-250 | so is a Close, likewise |
| PoolRefinement.GetProceedsIff | pool/pool.go:281-292 | on a pool at rest a Get blocks exactly if Wait limits it, it is open, and MaxActive connections are checked out |
| PoolRefinement.PutThenGet | pool/pool.go:309-317 | a Get after a Put returns that connection if it has not expired and passes its checks |
| Cipher.ScrambleInvertible | uniqueid/generator.go:101-104 | encrypting the big-endian bytes of a 64-bit word can be undone, for every key and round function |
| Cipher.ScrambleInjective | uniqueid/generator.go:101-104 | so two words never encrypt to one |
| Cipher.ScrambleHalves | uniqueid/generator.go:101-104 | through the byte buffer the cipher works on the two big-endian halves of the word |
| Snowflake.ComposeIs | uniqueid/generator.go:124 | the shifted fields do not overlap: the packed word is a sum of fields, the time reduced to 42 bits |
| Snowflake.ComposeEqualIff | uniqueid/generator.go:112-125 | two packed words are equal if and only if the nodes are and the counter values 1024*lastTime + step differ by a multiple of 2^52 |
| Snowflake.PlainEqualIff | uniqueid/generator.go:112-125 | in terms of the readings, while a 64-bit time has room: two histories end in the same plain id if and only if their nodes are equal and their counters, the maxima of calls and readings, differ by a multiple of 2^52 |
| Snowflake.TickIsMax | uniqueid/generator.go:113-123 | one call takes the counter to max(V + 1, 1024 * now) |
| Snowflake.CounterFormula | uniqueid/generator.go:113-123 | after k calls the counter is the maximum of k and 1024 * now_i + k - i over the readings |
| Snowflake.RunsAheadAtMost | uniqueid/generator.go:113-123 | lastTime is ahead of the largest reading by at most k/1024 ms, however the clock jumps |
| Snowflake.CounterGrows | uniqueid/generator.go:112-125 | every call raises the counter |
| Snowflake.PlainDistinct | uniqueid/generator.go:112-125 | plain ids of different nodes never coincide; those of one node neither while its readings leave room in the time field |
| Snowflake.PlainRepeats | uniqueid/generator.go:124 | without that room they do: two calls 2^42 ms apart |
| Snowflake.FirstPlain | uniqueid/generator.go:112-125 | in digits: a first call t ms after the start of 2020 (1577836800000 in Unix time) gives 2^22 t + 1024 node |
| Generator.NodeIdOf | uniqueid/generator.go:65-91 | accepts exactly service and instance in 0..63, gives 64 * service + instance, and otherwise says which is out of range, service first |
| Generator.NodeIdsBijective | uniqueid/generator.go:91 | different (service, instance) pairs get different node ids and every node id is some pair's |
| Generator.OwnIdsDistinct | uniqueid/generator.go:96-109 | one generator never returns an id twice, nor a reserved one |
| Generator.FleetIdsDistinct | uniqueid/generator.go:43-125 | all ids returned by any fleet sharing a key with distinct pairs are distinct: for arbitrary clock sequences across generators, and within one generator while its readings leave room in the time field |
| Generator.RetryUsesUp | uniqueid/generator.go:99-108 | every retry meets a reserved value not met before |
| Generator.RetriesAtMost | uniqueid/generator.go:99-108 | every call of snowflakeID lets an id through or meets a new reserved value, so calls and returned ids differ by at most 2^32 in a generator's life |
| Generator.GeneratorImpl.NewGenerator | uniqueid/generator.go:43-60 | succeeds exactly for a node id in 0..4095 and an accepted key, and otherwise says which failed, node id first |
| Generator.GeneratorImpl.SnowflakeID | uniqueid/generator.go:112-125 | on the fields, with 64-bit wrap-around, gives the plain id of the history |
| Generator.GeneratorImpl.NewID | uniqueid/generator.go:96-109 | the retry loop ends, appends exactly one id above 0xffffffff to those returned, and uses one unit of a budget that retries do not touch |
| Generator.ReturnedIdRenders | uniqueid/uniqueid.go:36-42 | a returned id is never rendered as "" and survives the optional round trip |
| HexId.RoundTrip | uniqueid/uniqueid.go:12-42 | parsing a rendered id gives it back, in the plain, optional and safe forms; the rendering has 16 characters |
| HexId.OptionalIs | uniqueid/uniqueid.go:17-42 | "" and the zero id stand for each other; every other string is parsed, errors included, and every other id rendered, as in the required form |
| HexId.HexDigitsAre | uniqueid/uniqueid.go:12-15 | the digits accepted are 0-9, a-f and A-F with their values, and no other character |
| HexId.StringInjective | uniqueid/uniqueid.go:31-42 | different ids render differently, in both forms |
| HexId.ParseIDIs | uniqueid/uniqueid.go:12-15 | ParseID accepts exactly non-empty all-hex strings below 2^64 and returns what they denote; otherwise which of two errors |
| HexId.ParseIDSafeIs | uniqueid/uniqueid.go:26-29 | agrees with ParseID where that succeeds; where it fails the result is zero if and only if the leading hex digits stay below 2^64 |
| HexId.OverlongIsLargest | uniqueid/uniqueid.go:26-29 | on an overlong hex string ParseIDSafe returns the largest id |
| HexId.OverlongExample | uniqueid/uniqueid.go:25-29 | such a string |
| HexId.Canonical | uniqueid/uniqueid.go:12-34 | rendering a parsed string gives it back if and only if it is 16 lower-case hex digits |
| FirstLoadWait.Await | datacache/datacache.go:119-128 | the wait loop ends under any lowering of the cut-off, after at most (cut-off - now)/1ms + 1 sleeps, exactly that many if nobody lowers it |
| DataCache.CutoffIsSet | datacache/datacache.go:83-93 | a non-zero next update time implies a non-zero cut-off, which then never rises |
| DataCache.WaitIsBounded | datacache/datacache.go:119-130 | in every interleaving a Get goes on exactly once its clock is past the cut-off, after at most that many sleeps, and then returns the value it finds |
| DataCache.LoadsAreSpaced | datacache/datacache.go:83-95 | two load starts without a completed store between them are at least retryInterval apart |
| DataCache.FailingSourceIsThrottled | datacache/datacache.go:96-105 | a source that always fails, uncached, is called at most (b-a)/retryInterval + 1 times for captured times in [a,b] |
| DataCache.ReturnedAreGenuine | datacache/datacache.go:96-115 | every value returned is the one the cache held at some moment, the initial one or that of the last stored load, of a failed one only if failures are cached; later Gets never go back to an older value |
| DataCache.HoldsLastLoad | datacache/datacache.go:83-130 | in every interleaving the data is the value of the last store in the log, initially the initial value; a Get past its wait returns that, and a claiming Get starts a load exactly from the last start plus retryInterval, or the last store plus expiration (expirationOnErr after a failure), on |
| DataCache.StoresEndTheWait | datacache/datacache.go:107-113 | once a load is stored, the cut-off of the first wait is no later than the clock it read |
| DataCache.Configure | datacache/datacache.go:53-68 | milliseconds become nanoseconds; a retry interval that is not positive becomes one second, a negative wait none |
| DataCache.DataCacheImpl.CheckUpdate | datacache/datacache.go:83-94 | tells the caller to load exactly when due, moves the update time by retryInterval and sets an unset cut-off then and only then, and tells nobody else for the retry interval |
| DataCache.DataCacheImpl.FinishLoad | datacache/datacache.go:99-114 | sets the value, the next update time (clock plus expiration, expirationOnErr after a failure) and the lowered cut-off, or nothing after an uncached failure |
| DataCache.DataCacheImpl.Get | datacache/datacache.go:78-131 | an undisturbed Get returns the old value after exactly the computed number of sleeps |
| DataCacheRuns.GetIsARun | datacache/datacache.go:78-131 | an uninterrupted Get is a run of the step system with the outcome of the object's Get |
| DataCacheRuns.LoadIsARun | datacache/datacache.go:96-115 | the end of a load is a run, with value, next update time and cut-off spelled out |
| DataCacheRuns.LoadThenGet | datacache/datacache.go:78-131 | the next undisturbed Get after a kept load returns its value and starts another exactly from its clock plus expiration (expirationOnErr) on; after an uncached failure it returns the old value, due as before |
| CacheMap.Configure | datacache/datacachemap.go:59-78 | milliseconds become nanoseconds; a retry interval that is not positive becomes one second, a negative wait none, and an evict timeout not above expiration twice that |
| CacheMapProofs.ReturnedAreGenuine | datacache/datacachemap.go:136-201 | whatever Get and GetMany return for a key is zero or what a finished load returned for that same key, and not a failed load unless failures are cached, in every run with eviction and batch loads |
| CacheMapProofs.PureSource | datacache/datacachemap.go:253-344 | with a source that does not change, it is zero or the source's value |
| CacheMapProofs.StepKeeps | datacache/datacachemap.go:92-344 | every step keeps the provenance of every value stored, in flight or returned |
| CacheMapContents.HoldsLastLoad | datacache/datacachemap.go:92-110 | in every run an item holds the value of its last store; it is due beyond that store's clock plus expiration (expirationOnErr after a failure), or beyond a later start's plus retryInterval; its cut-off is its creation plus waitTimeout or the earliest store's clock |
| CacheMapContents.ActsOnLastLoad | datacache/datacachemap.go:164-201 | so in every run a Get claims a load under the item's lock, and GetMany under the map's, exactly beyond that due time; a Get leaves its wait exactly beyond that cut-off; both answer with the last stored value |
| CacheMapContents.RereadsLastLoad | datacache/datacachemap.go:331-341 | in every run GetMany reads the keys it loaded again at its end, and answers with what was stored last |
| CacheMapTimes.TimesMoveOneWay | datacache/datacachemap.go:210-217 | in every run no item's evict time falls and no item's cut-off rises |
| CacheMapTimes.EvictTimeIsLatestAccess | datacache/datacachemap.go:191-217 | an item's evict time is the latest of its creation and completed accesses plus evictTimeout |
| CacheMapTimes.GetWaitIsBounded | datacache/datacachemap.go:178-188 | a Get goes on exactly once its clock is past its item's cut-off, after at most (cut-off - now)/1ms + 1 sleeps, never past waitTimeout after its item's creation |
| CacheMapTimes.EvictsOnlyIdle | datacache/datacachemap.go:114-131 | a key leaves the map only if the item scanned under it was past its limit; the item removed is within its limit if and only if an access the scan did not see (one after the scan, or any of an item put there since) lies within evictTimeout of evictKeys' clock |
| CacheMapWaits.GetManyWaitIsBounded | datacache/datacachemap.go:316-328 | GetMany sleeps no longer than until waitTimeout or the latest clock a batch load read |
| CacheMapWaits.LateBatchOverruns | datacache/datacachemap.go:245-247 | left alone after a batch's store GetMany leaves at an exact count of sleeps, which exceeds its bound if and only if the batch read a clock beyond its last regular tick |
| CacheMapOverrun.GetManyOverruns | datacache/datacachemap.go:245-247 | for every such clock a run, from an empty map, in which a GetMany of a new key sleeps more often than its timeout takes |
| CacheMapWaits.WithoutBatchWaitsOut | datacache/datacachemap.go:305-328 | without LoadDataBatch a GetMany whose next step ends its wait for a new key has slept as often as the whole timeout takes |
| CacheMapLoads.LoadsAreSpacedIff | datacache/datacachemap.go:285-302 | over every run of Gets, GetManys, evictions and loads: load starts of one item without a completed store between them are at least retryInterval apart if and only if every claim, when it writes the next update time, finds the item due or stored since its last start |
| CacheMapLoads.ItemLoadsAreSpaced | datacache/datacachemap.go:145-176 | runs that use Get only, and runs that use GetMany only, are spaced, with any loads and evictions |
| CacheMapLoads.FailingItemIsThrottled | datacache/datacachemap.go:96-102 | an always failing source, uncached, is called for one item at most (b-a)/retryInterval + 1 times for captured times in [a,b], in runs of one kind of call and in every other run whose claims met their guards |
| CacheMapKeys.KeysAreSpacedIff | datacache/datacachemap.go:136-176 | over every run, evictions included: load starts of one key without a completed store between them are at least retryInterval apart if and only if every creation and every claiming write finds the item that last started or stored the key due, or stored, or finds none |
| CacheMapKeys.KeysAreSpaced | datacache/datacachemap.go:53-58 | while nothing is evicted, runs of Get alone and of GetMany alone are spaced key by key |
| CacheMapKeys.FailingKeyIsThrottled | datacache/datacachemap.go:96-102 | in runs that meet these guards an always failing source, uncached, is called for one key at most (b-a)/retryInterval + 1 times for captured times in [a,b] |
| CacheMapMisses.EvictionBreaksSpacing | datacache/datacachemap.go:145-162 | a run in which a key evicted and asked for again is loaded twice within a retry interval |
| CacheMapAnswers.GetManyAnswers | datacache/datacachemap.go:253-344 | over every run the keys GetMany returns are among those asked for, and a key is left out if and only if its first pass missed it and its second found an item that was not due, and nowhere else found or loaded it |
| CacheMapAnswers.GetManyWaitsIff | datacache/datacachemap.go:304-329 | over every run, once its loads are started, GetMany enters its wait if and only if it created an item itself |
| CacheMapMisses.GetManyMissesKey | datacache/datacachemap.go:276-301 | a run in which a GetMany of one key returns no key |
| CacheMapRaces.GetManyBreaksSpacing | datacache/datacachemap.go:297-300 | a run in which a Get and a GetMany start two loads of one item at the same clock |
| CacheMapRaces.EvictsTouchedKey | datacache/datacachemap.go:125-130 | a run in which a key accessed at the evicting clock is deleted |
| CacheMapCalls.GetManyMeans | datacache/datacachemap.go:253-344 | an undisturbed GetMany answers exactly the keys asked for with what was there before, loads exactly those missing or due, touches nothing else, and waits only if a key was missing |
| CacheMapCalls.LoadedOnce | datacache/datacachemap.go:219-248 | once a kept batch load has ended, GetMany returns its values (zero for a key it lacks) and does not wait, and loads a key again if and only if its clock is beyond the load's plus expiration, or expirationOnErr after a cached failure |
| CacheMapCalls.RetriedLater | datacache/datacachemap.go:226-233 | after an uncached failure a key is due again exactly when more than retryInterval has passed since the first call, and keeps its old value |
| CacheMapHeap.CacheMapImpl.GetMany | datacache/datacachemap.go:253-344 | the loops over the mutable items equal that specification |
| CacheMapHeap.CacheMapImpl.EvictKeys | datacache/datacachemap.go:114-131 | uninterrupted, eviction keeps exactly the keys that are not past their limit |
| CacheMapHeap.CacheMapImpl.ScanPast | datacache/datacachemap.go:116-125 | the scan finds exactly the keys past their limit |
| CacheMapHeap.CacheMapImpl.Get | datacache/datacachemap.go:136-201 | an undisturbed Get creates a missing item, starts a load exactly if missing or due, returns the old value, and counts the end of its wait as access |
| CacheMapHeap.CacheMapImpl.FinishBatch | datacache/datacachemap.go:227-247 | each item gets its own key's value, or zero if the batch lacks the key, the next update time and the lowered cut-off, and the waiting call the batch's clock; nothing after an uncached failure |
| CacheMapHeap.CacheItemImpl.FinishLoad | datacache/datacachemap.go:96-110 | one item's value, next update time (clock plus expiration, expirationOnErr after a failure) and lowered cut-off, or nothing after an uncached failure; accesses stay |
| CacheMapHeap.CacheItemImpl.UpdateEvictTime | datacache/datacachemap.go:210-217 | the evict time moves to the later of itself and the access plus evictTimeout |
| CacheMapRuns.GetIsARun | datacache/datacachemap.go:136-201 | an uninterrupted Get is a run: missing item created and loading, due one postponed and loading, end of the wait as access time, old value returned |
| CacheMapManyRuns.GetManyIsARun | datacache/datacachemap.go:253-344 | an uninterrupted GetMany is a run that leaves the items, starts the loads (one batch, or one per key), sets the cut-off waitTimeout from its clock if it loads anything, and returns the values of the specified call |
| CacheMapStoreRuns.EvictIsARun | datacache/datacachemap.go:114-131 | an uninterrupted eviction is a run that removes exactly the keys past their limit and nothing else |
| CacheMapStoreRuns.BatchIsARun | datacache/datacachemap.go:219-248 | so is the end of a batch load: every item it was started for, evicted or replaced meanwhile or not, gets its own key's value and is due from the batch's clock plus expiration (expirationOnErr) on, no other item changes, and the waiting call gets the clock; an uncached failure changes nothing |
| CacheMapStoreRuns.LoadIsARun | datacache/datacachemap.go:92-111 | so is the end of a load of one item, with the item's new fields spelled out |
| CacheMapStoreRuns.LoadThenGet | datacache/datacachemap.go:136-201 | the next undisturbed Get of the key after a kept load returns its value and starts another exactly beyond its clock plus expiration (expirationOnErr); after an uncached failure it returns the old value, due as before |
| HealthCheck.AnyOrderIsWorst | health/runner.go:186-194 | with atomic merges every completion order gives the worst state, in a status some checker returned |
| HealthCheck.HealthyIffAllHealthy | health/runner.go:186-197 | at read/write granularity the outcome is Healthy if and only if every checker was, and otherwise a status one returned |
| HealthCheck.AlwaysWorstIff | health/runner.go:188-193 | it is the worst under every schedule if and only if the checkers do not return both an Unknown and an Unhealthy |
| HealthCheck.LateUnknownWins | health/runner.go:189-192 | the schedule on which an Unknown overwrites everything else |
| HealthCheck.CheckInOrder | health/runner.go:179-198 | checkers finishing one after another give the worst status: the last Unhealthy, else the first Unknown, else Healthy |
| HealthCheck.MergeAllReports | health/runner.go:188-193 | so do atomic merges, for any order of arrival |
| HealthCheck.TurnsReport | health/runner.go:179-198 | and so does the read/write system, whenever the checkers finish one after another, in any order |
| HealthRunner.CyclesNeverOverlap | health/runner.go:328-333 | in every interleaving of Start and ticks at most one call is inside a cycle |
| HealthRunner.StoredStatusesChange | health/runner.go:338-365 | in every interleaving the stored statuses are exactly the changes among the results of Check, in order, and lastStatus is the latest result, but for one a running cycle has still to compare or store |
| HealthRunner.EveryChangeIsReported | health/runner.go:339-371 | a comparison kills the process if and only if the latest result is a new Unhealthy with panicOnError, the only way it dies; a send finds the latest result stored and puts it on an empty channel |
| HealthRunner.DeliveredInOrder | health/runner.go:365-371 | delivered statuses are an in-order subsequence of the stored ones, and all of them if no send found the channel full |
| HealthRunner.NeverStoresUnhealthy | health/runner.go:355-365 | with panicOnError no Unhealthy status is ever stored |
| HealthRunner.RunnerImpl.RunHealthCheck | health/runner.go:328-372 | one uninterrupted cycle that wins the flag panics exactly on a new Unhealthy with panicOnError, and otherwise leaves the result stored and, if it is new, on a channel that was empty; a losing call changes nothing |
| HealthRunner.CycleIsARun | health/runner.go:328-372 | that is a run of the step system, with the same outcome spelled out |

## Left out

- Cipher.ScrambleInvertible: states the permutation for a generic network; xtea's own rounds and key schedule are in another repository.
- PoolHeap.Pool.Get: covers calls nothing interrupts, with a token to receive; blocking and interleaving are in the step system.
- CacheMapHeap.CacheMapImpl.GetMany: covers calls nothing interrupts; the step system has the interleaved ones.
- CacheMapLoads.ItemLoadsAreSpaced: speaks of one item; what holds of a key, over all items it ever had, is in CacheMapKeys.
- CacheMapLoads.FailingItemIsThrottled: likewise per item; in runs that mix Get and GetMany without their guards the bound is false.
- HexId.ParseIDIs: strconv.ParseUint and fmt's %016x belong to Go's library and are modelled digit by digit.
- Generator.NodeIdOf: takes the instance index already parsed; hostname lookup and strconv.Atoi are not modelled.
- The variant of get with a context, and put with forceClose: nothing in the repository calls them.
- Pool.Stats, ActiveCount and IdleCount: single reads of fields the model has.
- CacheMap's read locks: that Lock of the map waits for readers, and that readers of an item wait for its lock, is not modelled, which only adds interleavings; the runs in CacheMapRaces and CacheMapOverrun respect them.
- The inside of a store: one step per item, under its lock; an unlocked access of GetMany that falls inside it concerns only the next update time and has the effect of one before or after the step.
- The clock in the caches: readings are arbitrary inputs, except that DataCache's are positive; sleeping is counted, not timed.
- Overflow of int64 times, torn writes of struct values, panics inside Dial, TestOnBorrow, loaders and check functions.
- Tickers and their rejection of a non-positive interval, contexts and timeouts, logging.
- GetCopy: copies by reflection.
- unaryChecker.Check: a select between a result and a timeout, both of which are inputs to the merge.
- health/service.go, errors, appmgr, client, config, ginex, grpcex, log, copy, crypto, encoding: wiring and thin dispatch.
