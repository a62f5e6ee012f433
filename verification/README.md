# A verified model of the transparent caching proxy

The proxy redirects client connections in the kernel (`proxy.c`), recovers each client's original
destination, and answers object requests from a cache while forwarding everything else. This project
models its three stateful cores and the arithmetic and string handling they rest on, and proves
properties of every run of each.

**The redirect protocol.** `Hooks` has the three eBPF programs in the form of the C text: a class
`Kernel` with the three maps, whose methods overwrite the context fields and the `sockaddr_in` buffer.
`Redirect` takes the same programs apart at their map operations: any number of calls are in flight, each
with its locals, and every step of one may fall between two steps of another. `RedirectHistory` proves
what the recorded history of a run means, `RedirectTheorems` what holds in every reachable state, and that
an undisturbed call in `Redirect` does exactly what the method in `Hooks` does. `RedirectWitness` builds
the runs that show why the two hypotheses are needed.
`Wire` is the byte order: words as bit-vectors, memory as bytes, on either kind of host.

**The caching proxy.** `ProxyRuns` is the interleaved system: handlers of `handleHttpInternal` as threads,
the shared store, the multiset of puts that spawned goroutines have still to make, evictions, and an
origin that answers each exchange as it likes. `ProxyTheorems` proves transparency, provenance, when the
process crashes, and how much is fetched. `CachingProxy` has the code in its own sequential form and proves
that one undisturbed handler is a run of `ProxyRuns`. `Fetch` and `Rendezvous` are the sequential fetch and
the two-goroutine fetch that refines it. `DummyCache` and `Memcached` are the other caches against the
uncached specification; `Adapter` and `Text` are cache keys and the intercept test.

**The worker pool.** `WorkerPool` is the accept loop, the job and token channels, the workers, the
receivers and the counter as a transition system, and the accept loop and the worker loop as methods that
are shown to be runs of it whatever the other goroutines do in between.

## What the results say

* **Redirect.** Whatever the interleaving, an answered query returns what the socket found under the
  source port last had recorded, and that socket is the client itself exactly when the client's insert into
  `map_socks` was accepted (`RedirectTheorems.Transparency`). An insert is refused only when 100000 records
  are unconsumed; a run that never gets there loses nothing, however long it is. Once one is refused a client
  can be sent another's destination: `RedirectWitness.Misdirected` is the run. The same happens with two
  records in the map when a socket with a record left over shares its source port number with a waiting
  client (`RedirectWitness.SharedPort`), which socket pairs do not exclude.
* **Cache.** For an origin that answers each request always the same, the process never crashes and every
  response equals plain forwarding, in every run, *if and only if* every complete 200 response has a
  non-empty body and is also the response to every other intercepted request with the same key
  (`ProxyTheorems.TransparentExactly`). Both parts of the condition are properties the code does not check:
  an object with an empty body loses its data pointer in gob and the next hit dereferences nil
  (objectStorage/minioObjectStorageAdapter.go:27), and the key of an ordinary request contains neither its host nor
  the address it was sent to.
  For requests without an escaped `?` in the path and servers that all answer by host, path and query of
  the URL only, the keys never clash and only the body condition remains.
* **Pool.** The counter equals what is in the pool, handlers start in order and once each, nothing
  deadlocks while handlers return, and every connection costs exactly eight steps.

## Assumptions about the environment

* Kernel: socket cookies are unique; `connect` runs on a socket that has not established and is not
  connecting; a socket establishes once; two connections to the proxy do not use one source port at a time
  (a connection is named by its socket pair, section 2.7 of RFC 793, and all redirected connections share
  the proxy's end); the proxy queries a connection once, after the client's established program has run.
  `Redirect.Possible` states these.
* Beyond socket pairs: a socket that has a record left over and now connects elsewhere does not establish from
  a source port that a connection to the proxy holds. The kernel does not promise this. `Redirect.Enabled`
  adds it, every theorem about reachable states assumes it, and `RedirectWitness.SharedPort` shows what
  happens without it. A stale binding of a port that nobody holds may exist.
* `map_config` is an array map with one entry: it holds zeros until main.go:295 publishes the config.
  `proxy.c` ignores the results of its map updates, and so does the model.
* The cookie that proxy.c:184 reads through a pointer into the entry deleted one line before is taken to be
  the value read at proxy.c:160.
* `Hooks` and `Redirect` are for a little-endian host. `Wire.ChainExact` shows that on a big-endian host
  the recorded port is lost (only port 0 survives), so the protocol works there for no real port.
* gob omits empty values also behind pointers (`Objects.ThroughGob`); otherwise encoding and decoding are
  inverse. bigcache may drop a put and lose an entry at any time; a lookup and a set are atomic.
* Outcomes of network exchanges, of writes to clients and of calls to the memcached server are parameters.

The repository's README speaks of port 8000; the code intercepts port 9000 only (proxy.c:71), and the model
follows the code.

## Model

| member | source | states |
|---|---|---|
| `Wire.SwapsCancel` | bpf-utils.h:10-19 | on either host ntohs/htons and ntohl/htonl undo each other, for every word |
| `Wire.ShiftedPortIsHtons` | proxy.c:99 | widening a port by htonl of the shifted value agrees with htons exactly on little-endian hosts or for port 0 |
| `Wire.ExtractedPort` | proxy.c:86 | the shifted ntohl yields the low half of any field in host order on a little-endian host, and 0 on a big-endian one for every field that holds a 16-bit port |
| `Wire.DestinationOfUserFields` | proxy.c:82-86 | the two context fields of a connect name the address and port asked for |
| `Wire.Returned` | main.go:97-98 | the Go side decodes from the filled buffer the recorded port and address, for every record |
| `Wire.ChainExact` | proxy.c:84-86 | recording, filling the sockaddr_in and decoding in Go give back every address and port, exactly when the host is little-endian or the port is 0 |
| `Wire.ChainOnFields` | proxy.c:176-177 | the same chain on arbitrary field contents returns the destination those fields name |
| `Wire.RedirectTarget` | proxy.c:98-99 | the overwritten fields name 127.0.0.1 and the proxy port |
| `BpfMap.Update` | proxy.c:95 | an update with flag 0 adds one entry exactly for an absent key with room, and the key is missing afterwards exactly when an absent key met a full map |
| `BpfMap.UpdateThenDelete` | proxy.c:95-184 | an accepted update is found with its value, a refused one changes nothing, other entries are kept, and a delete leaves exactly the rest |
| `BpfMap.Delete` | proxy.c:183-184 | a delete takes away one key, and nothing when the key is absent |
| `Hooks.ReplyOfRecord` | proxy.c:91-95 | what is decoded from the record of a connect is what that connect asked for |
| `Hooks.OverwrittenGoesToProxy` | proxy.c:97-99 | a redirected connect goes to 127.0.0.1 and the configured port |
| `Hooks.AnsweredReply` | proxy.c:173-178 | an answered query fills in the recorded destination and leaves the rest of the buffer alone |
| `Hooks.PortsMeet` | proxy.c:125-157 | the port number bound for a client is the one under which the proxy's query looks, for every port |
| `Hooks.ThreadsOfProcess` | proxy.c:79 | the upper half of the id names the process, for every thread of every process |
| `Hooks.EligibleMeans` | proxy.c:65-72 | the filters in plain numbers: family 2, protocol 6, and a field that holds nothing but port 9000 |
| `Hooks.ConnectFilters` | proxy.c:65-80 | failing any one filter, or being any thread of the proxy's process, leaves maps and context alone |
| `Hooks.ConnectPasses` | proxy.c:82-99 | passing them all, the connect goes to the proxy and its record, if there is room, decodes to what it asked for; nothing else changes |
| `Hooks.SockOpsFilters` | proxy.c:112-128 | any other callback or family changes nothing; the established one binds the port exactly when the socket has a record |
| `Hooks.QueryFilters` | proxy.c:146-171 | failing any one filter or lookup, or a too small buffer, leaves maps and query alone |
| `Hooks.QueryPasses` | proxy.c:173-184 | passing them all, the buffer holds family, address and port of the record, length and return value are set, and exactly the two entries are gone |
| `Hooks.Kernel.PublishConfig` | main.go:290-295 | publishing replaces the config entry and nothing else |
| `Hooks.Kernel.CgConnect4` | proxy.c:62-104 | the new maps and context; unchanged when family, protocol or port fail their filter, or any thread of the proxy connects |
| `Hooks.Kernel.CgSockOps` | proxy.c:109-133 | the new maps; unchanged for another family or callback |
| `Hooks.Kernel.CgSockOpt` | proxy.c:140-187 | the new maps and query: answered and both entries deleted, or everything unchanged, as for another option, family or protocol or a small buffer |
| `Hooks.FillSockaddr` | proxy.c:169-177 | the first eight bytes are the family, port and address in network order; the rest is unchanged |
| `Redirect.PortsHaveRoom` | proxy.c:51-57 | map_ports never fills: 16-bit keys are fewer than MAX_CONNECTIONS |
| `Redirect.CoreKept` | proxy.c:62-187 | every step of every call, in any interleaving, keeps the invariant on the maps, the calls in flight and the connections |
| `Redirect.ObservedKept` | proxy.c:140-187 | every step keeps the record of answers and finished connects right |
| `Redirect.CountedKept` | proxy.c:95-184 | every step keeps the sizes: records held plus consumed equal records inserted |
| `Redirect.ReachableInv` | proxy.c:62-187 | the invariant holds in every state of every run |
| `RedirectHistory.RunTraced` | proxy.c:62-187 | in every run map_socks holds what each socket last had recorded, answers are such records, and each finished connect was redirected exactly when the filters and the config read at its time say so |
| `RedirectTheorems.Transparency` | proxy.c:62-187 | in every run an answered query returns what the socket found under the port asked for, which is the client exactly when its record was accepted and another socket of the same port otherwise; an accepted client is answered exactly when there is room, with what it last passed to connect; a too small buffer is filled for nobody |
| `RedirectTheorems.LostOnlyWhenFull` | proxy.c:95 | a record is refused exactly when the socket has none and MAX_CONNECTIONS records are unconsumed |
| `RedirectTheorems.RunLosesNothing` | proxy.c:19-95 | in a run that never holds MAX_CONNECTIONS unconsumed records no record is ever refused |
| `RedirectTheorems.NobodyLost` | proxy.c:19-187 | in such a run, of any length, every query with room is answered with what its client last passed to connect |
| `RedirectTheorems.MapsAgree` | proxy.c:122-184 | map_ports is injective, each cookie in it has a record, map_socks holds inserts minus deletes, and neither overflows |
| `RedirectTheorems.DeletesOnlyItsOwn` | proxy.c:182-184 | the second delete removes a record to which no port refers, and the client's own when it was stored |
| `RedirectTheorems.NoLoop` | proxy.c:64-99 | once the config is published a connect goes to the proxy exactly when it is eligible and another process's, and otherwise where it asked |
| `RedirectTheorems.BeforePublication` | main.go:248-295 | a connect that read the config before publication goes where it asked, or, if eligible, to port 0 of the local host or to the proxy when publication fell inside the call |
| `RedirectTheorems.ProxyTouchesNothing` | proxy.c:74-80 | a connect by the proxy's own process after publication ends at its first step and changes neither map |
| `RedirectTheorems.SoloConnect` | proxy.c:62-104 | the steps of one undisturbed connect do to the maps what the program does, and the recorded hop is the destination the program leaves in the context |
| `RedirectTheorems.SoloEstablished` | proxy.c:109-133 | the same for the established program |
| `RedirectTheorems.SoloQuery` | proxy.c:140-187 | the same for the query program: the maps, and the recorded answer is exactly what the program fills into the buffer, or nothing and the query unchanged |
| `RedirectWitness.Misdirected` | proxy.c:95-126 | with the config published, a reachable state in which a redirected client whose insert was refused was answered with another client's destination |
| `RedirectWitness.SharedPort` | proxy.c:122-127 | from every reachable state, a leftover socket establishing on a waiting client's port makes the proxy be told the leftover's destination, right exactly when both asked for the same |
| `RedirectWitness.SharedPortReachable` | proxy.c:122-127 | such a state is reachable with the config published and two records in the map |
| `Text.ContainsMeans` | objectStorage/minioObjectStorageAdapter.go:39-48 | strings.Contains is the existence of an occurrence |
| `Text.JoinOfSplit` | objectStorage/minioObjectStorageAdapter.go:55-59 | splitting and rejoining restores every text |
| `Text.SplitOfJoin` | objectStorage/minioObjectStorageAdapter.go:46-59 | separator-free parts come back from their join, so Split is the inverse of Join |
| `Adapter.FindAdapter` | proxy/httpCachingProxy.go:80-88 | the loop returns the first adapter that wants the request, or -1 exactly when none does |
| `Adapter.ObjectPathIsSuffix` | objectStorage/minioObjectStorageAdapter.go:54-60 | the object part of a URL is exactly what follows its second slash |
| `Adapter.ObjectClause` | objectStorage/minioObjectStorageAdapter.go:34-49 | the object clause of the intercept test holds exactly when some text follows the second slash of the full URL |
| `Adapter.InterceptTest` | objectStorage/minioObjectStorageAdapter.go:38-52 | a request is intercepted exactly when it is a GET, its Host contains the adapter's, no "location" occurs in the query, the path names a bucket between its first two slashes, and text follows the second slash of the URL |
| `Adapter.ListingsAreIntercepted` | objectStorage/minioObjectStorageAdapter.go:38-52 | a listing of any valid bucket counts as an object request, for every query without "location" |
| `Adapter.KeyDetermines` | objectStorage/minioObjectStorageAdapter.go:17-19 | for plain requests the key determines host, path and query |
| `Adapter.KeyAmbiguity` | objectStorage/minioObjectStorageAdapter.go:17-19 | without a URL host, a key stands for two different requests exactly when a question mark occurs in the decoded path or the query |
| `Fetch.RetrieveTimed` | proxy/httpCachingTimedProxy.go:122-183 | the object or the error text of the sequential fetch for every behaviour of the network |
| `Fetch.ForwardRelays` | proxy/httpCachingProxy.go:151-170 | forwarding delivers the server's own status, headers and body whatever the status and the write, cuts a broken body short, and gives a bare 503 without a connection or a reply |
| `Fetch.FetchMeetsForward` | proxy/httpCachingProxy.go:90-170 | a fetch succeeds exactly when the request was written and forwarding would deliver a complete 200 response, and holds that response |
| `Rendezvous.EveryRun` | proxy/httpCachingProxy.go:90-149 | every interleaving has at most nine steps, is stuck only when both goroutines are done, sends one error value and an object exactly when that was nil, closes the connection, and returns the sequential result with the error prefix |
| `Rendezvous.NoDeadlock` | proxy/httpCachingProxy.go:94-148 | in every reachable state some turn is possible exactly until both goroutines are done |
| `Rendezvous.Completes` | proxy/httpCachingProxy.go:94-148 | every partial run can be completed |
| `DummyCache.DummyPrinterCache.Get` | cache/dummyPrinterCache.go:31-85 | the new store and the result as a function of the old store, key and initializer |
| `DummyCache.SameResults` | cache/dummyPrinterCache.go:31-85 | from any store that agrees with the origin, a sequence of Gets returns what the pass-through returns |
| `DummyCache.CacheIsTransparent` | cache/fakePasstroughCache.go:16-57 | for every sequence of Gets the cache equals the pass-through, exactly when each returned object is what the origin returns for the object's own key |
| `DummyCache.FetchedOnce` | cache/dummyPrinterCache.go:67-85 | a stored key is never fetched, a known one once however often it is requested, and an unknown one at every request |
| `DummyCache.NilInitializer` | cache/fakePasstroughCache.go:16-57 | the pass-through calls every initializer and returns its result; without one, each cache returns what it has or not found |
| `Memcached.MemcachedClient.Get` | cache/memcachedClient.go:32-42 | the new store and the result for every outcome of the server calls |
| `Memcached.MemcachedClient.Initialize` | cache/memcachedClient.go:130-155 | nil check, second lookup, initializer, checked write, with the source's errors |
| `Memcached.MemcachedClient.Set` | cache/memcachedClient.go:86-108 | it succeeds exactly for an object with key and data when the server accepts the write, and stores it under its own key; otherwise the error, and the store unchanged |
| `Memcached.MemcachedClient.Delete` | cache/memcachedClient.go:63-76 | short keys are refused, absent keys are a miss, others are removed |
| `Memcached.LongKeyMeans` | cache/memcachedClient.go:112 | a key can be looked up exactly when it contains two slashes |
| `Memcached.GetOutcomes` | cache/memcachedClient.go:32-155 | every outcome of a Get: a hit in either lookup, or a call whose object is returned and stored exactly when it is storable and the server accepts the write; any other call is an error with the old store |
| `Memcached.DeleteMatchesLookup` | cache/memcachedClient.go:63-76 | a key can be deleted exactly when it can be looked up, with the same errors otherwise, and is then a miss |
| `Memcached.RunSound` | cache/memcachedClient.go:86-108 | in every run every stored object carries its key and decodes as it was stored |
| `Memcached.StaysReadable` | cache/memcachedClient.go:130-155 | in every run without removals, the object of a successful Get under its own long key is what every later Get finds without fetching, until that key is written again |
| `Memcached.ReadableAfter` | cache/memcachedClient.go:130-155 | after a Get of an absent long key, a lookup of it succeeds exactly when the fetched object carries that key |
| `Memcached.ShortKeyPassesThrough` | cache/memcachedClient.go:110-114 | in every state a Get of a short key is the uncached Get and a checked write, and nothing but a flush or another write removes what it stored |
| `Memcached.CacheIsTransparent` | cache/memcachedClient.go:32-155 | against an origin that labels its objects, every sequence of Gets equals the uncached one exactly when no object under a long key has an empty body |
| `Memcached.FetchCount` | cache/memcachedClient.go:32-155 | a stored long key is never fetched, another known long key once, a short or unknown key at every request |
| `ProxyRuns.StepKeeps` | proxy/httpCachingProxy.go:21-74 | every step of every handler, put and eviction keeps the provenance invariant |
| `ProxyRuns.RunProvenance` | cache/bigcacheWrapper.go:72-147 | in every run, with any origin, each object stored or pending under a key has that key and came from a completed 200 fetch under it, and so did every response not obtained by forwarding |
| `ProxyRuns.OnlyFetchesFill` | proxy/httpCachingProxy.go:112-142 | puts arise only from a 200 response with exactly its body, the store changes only by a landing put, and a failed or non-200 fetch changes neither |
| `ProxyCounts.RunCounts` | cache/bigcacheWrapper.go:102-121 | in every run each handler fetches at most once, after exactly two failed lookups, and has finished exactly when its client was answered, once |
| `ProxyTheorems.AnswerHasSource` | proxy/httpCachingProxy.go:21-74 | with an origin that may change at will, every response was delivered in the handler's own exchange or in an earlier completed fetch under the same key |
| `ProxyTheorems.CrashNeedsEmptyBody` | objectStorage/minioObjectStorageAdapter.go:21-32 | whatever the origin does, the nil dereference happens only after a fetch that returned an empty body |
| `ProxyTheorems.TransparentExactly` | proxy/httpCachingProxy.go:21-74 | no run crashes and every response of every run equals plain forwarding, if and only if complete 200 responses have bodies and depend on the key alone |
| `ProxyTheorems.TransparentForPlainRequests` | objectStorage/minioObjectStorageAdapter.go:17-19 | for plain requests and servers that all answer by host, path and query of the URL only, that is exactly the absence of empty 200 bodies |
| `ProxyTheorems.SecondRequestCrashes` | objectStorage/minioObjectStorageAdapter.go:27-29 | a run in which the second request for an object with an empty body crashes the process |
| `ProxyTheorems.SecondRequestMisled` | objectStorage/minioObjectStorageAdapter.go:17-19 | a run in which a request is answered with the response to another request that has the same key |
| `ProxyTheorems.NoNewMisses` | cache/bigcacheWrapper.go:72-80 | while an entry is stored and not evicted, no further handler misses its key |
| `ProxyTheorems.FetchesBounded` | cache/bigcacheWrapper.go:72-121 | the fetches of a key in a whole run are no more than the handlers that had missed it twice when its put landed, if it is not evicted after |
| `ProxyTheorems.HandlerBounded` | proxy/httpCachingProxy.go:21-74 | a handler takes at most seven steps whatever the others do |
| `ProxyTheorems.HandlerCanStep` | proxy/httpCachingProxy.go:21-74 | an unfinished handler can always take its next step |
| `CachingProxy.BigcacheWrapper.Initialize` | cache/bigcacheWrapper.go:102-121 | nil check, second lookup, initializer, and a pending put of exactly the fetched object |
| `CachingProxy.BigcacheWrapper.Get` | cache/bigcacheWrapper.go:72-81 | the result and the pending puts as a function of store, key and initializer |
| `CachingProxy.BigcacheWrapper.Put` | cache/bigcacheWrapper.go:123-133 | the store gains the encoded object under its own key, or refuses it |
| `CachingProxy.HandleHttp` | proxy/httpCachingProxy.go:21-74 | what the client receives and which put is spawned, for every behaviour of network and client; plainly forwarded without a put when not intercepted or neither stored nor fetched |
| `CachingProxy.Outcomes` | proxy/httpCachingProxy.go:21-74 | all outcomes of the handler in terms of the stored object and the replies' own status, headers and bodies |
| `CachingProxy.HandlerIsARun` | proxy/httpCachingProxy.go:21-74 | what the code does for one request is a run of the interleaved system in which only that handler moves, and the fetch log grows exactly by the call of the initializer |
| `WorkerPool.RunCounting` | main.go:368-396 | in every interleaving the counter equals the connections in the pool, stage by stage, and there is or will be a receiver for every token |
| `WorkerPool.RunOnce` | main.go:173-183 | handlers begin in the order of acceptance, and each job that began is in exactly one handler or has finished exactly once |
| `WorkerPool.NoDeadlock` | main.go:361-396 | something can move, other than an accept, exactly while there is work |
| `WorkerPool.OnlyHandlersBlock` | main.go:361-396 | the pool waits for handlers alone exactly when no token or receiver is under way and a full or non-empty queue faces workers that are all in handlers |
| `WorkerPool.RunWork` | main.go:368-396 | every run takes exactly eight steps for each connection, counting the work that remains |
| `WorkerPool.Drains` | main.go:173-396 | once accepting stops, a run ends only with counter zero and empty channels, after exactly the remaining work, with the jobs 1 to jobIndex handled once each |
| `WorkerPool.DrainRun` | main.go:173-396 | the pool can be drained from every reachable state |
| `WorkerPool.Pool.AcceptLoop` | main.go:370-396 | with the other goroutines running in between, the loop is a run of the pool that pushes one job and leaves one receiver per accepted connection, skips errors, and stops early only at a full job channel |
| `WorkerPool.Pool.ProxyWorker` | main.go:173-183 | with the other goroutines running in between, a run of the pool in which every round takes the head of the queue exactly when there is one, ends it, and repeats none; it stops early only at a full token channel; undisturbed, its jobs are the front of the queue |
| `WorkerPool.Pool.HandleOne` | main.go:176-179 | the worker takes the oldest job, which was not handled before, and ends it; it is then free, or blocked with its token |

## Left out

- Sockets, dialling, HTTP parsing and writing, the internals of gob, bigcache and memcached: their outcomes are parameters of the model.
- Failed `SO_ORIGINAL_DST` queries: main.go:88-103 then returns 0.0.0.0:0 without an error; the theorems are about answered queries and say which queries stay unanswered.
- Reuse of a kernel map slot between proxy.c:183 and proxy.c:184: the cookie is the value read earlier.
- Redirect.Enabled: excludes the shared source port of `RedirectWitness.SharedPort` from the reachable states; port exhaustion is not modelled.
- Request headers, and methods other than what the intercept test looks at: an origin in `ProxyTheorems` sees the target address, verb, Host header and URL, so an answer that depends on a Range header counts as an origin that does not always answer the same.
- ProxyTheorems.TransparentExactly: says what is written to the client; after a failed write the client may already hold part of a response (the record's `clean` flag), which the code ignores too.
- TTLs and expiry of memcached entries: a lookup that fails although the entry is there is a failing server call.
- Times, statistics, CSV output, `displayConnections` and the timed variants that differ from the modelled ones only by them, including `collectedStats` in main.go:344.
- `forwardConnection` in bypass mode and proxy/httpPrintingProxy.go: stream copying and debug output.
- objectStorage/dummyObjectStorageAdapter.go, test/main.go, the JSON configuration and start-up and signal handling: plumbing.
- The bad-request replies of proxy/httpCachingTimedProxy.go:34-45: requests in the model have been read.
- WorkerPool.Pool.AcceptLoop: is given a finite list of listener results and a finite schedule of the other goroutines, and returns where the code would go on waiting for room in the channel.
- WorkerPool.Pool.ProxyWorker: is given a number of rounds, and returns where the code would go on waiting for room for its token.
