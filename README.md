# Recyclable AMQP envelopes: reset, acquire and release

This project models the envelope-recycling layer of an AMQP 0-9-1 client written in Go
(`sync_pools.go`). Three records are recycled: `Publishing` (the outgoing message an
application fills in), `basicPublish` (the basic.publish frame built from it) and
`Delivery` (a received message with its acknowledgement handle). Each record has a
`Reset` that sets every field to a constant zero value. Each one also has an
acquire/release pair over a package-level `sync.Pool`:

- acquire takes a retained pointer, or allocates the Go zero value when the pool misses;
- release resets a non-nil instance and then puts the pointer back. Release of a nil
  pointer skips the reset, but Put still receives a non-nil interface value that holds
  the nil pointer, so the pool retains that nil.

The model proves the safety argument for reuse. Every non-nil instance a pool retains
has been reset. Release keeps that true because it resets before `Put`. Acquire keeps it
true because it only takes pointers out. So every non-nil result of acquire is clean:
every field is zero, there is no acknowledgement handle, the delivery tag is 0, and the
body has length 0. Acquire returns nil only when the pool retained a nil pointer, and
that happens only after a release of nil (see "## Findings").

Layout:

- `go_values.dfy` (module `GoValues`): Go integer widths as newtypes, nil-able values as
  `Option`, `[]byte` as `Option<seq<uint8>>` (nil and empty-but-present stay distinct),
  Go's `len`, and an abstract `time.Time` with its zero value.
- `sync_pool.dfy` (module `SyncPool`): `sync.Pool` seen by one caller at a time. `Store<T>`
  holds the retained values as a sequence. `Get` either misses (the store is unchanged;
  a miss is allowed even when the store is not empty) or removes one retained value.
  `Put(None)` (Go's `Put` of the nil interface) changes nothing, and any other `Put` adds
  the value. The functions `AfterTake` and `AfterPut` give the new store. The lemma
  `TakeMultiset` proves that taking loses exactly one occurrence, and `TakeThenPut`
  proves that taking a value and putting it back restores the store as a bag.
- `envelopes.dfy` (module `Envelopes`): the three records as classes. Their fields are
  the ones the Reset bodies assign. Each class has three predicates. `IsClean` holds when
  every field is at its zero value and the body has length 0. `IsNew` is the Go zero value
  (`&T{}`): clean, with a nil body. `IsReset` is the state Reset leaves: clean, with an
  empty non-nil body. The unnamed constructor is `&T{}`. `Reset` assigns in place.
  `IsReset` pins every field to a constant, so the state after Reset does not depend on
  the state before. Reset also states that resetting a reset instance changes nothing.
  That is idempotence.
  For `Publishing` and `Delivery`, Reset is written as calls to small helper methods. Each
  helper makes a run of Reset's assignments. This keeps each proof small. The helpers make
  the same assignments as the Go body, and no assignment reads a field. In
  `Delivery.Reset`, the assignments to the handle and to the body share a helper with the
  delivery metadata, so they run before the property fields, not first and last as in
  the Go body. Because the fields are distinct and nothing is read, the final state is
  the same.
- `pools.dfy` (module `Pools`): the three acquire/release pairs. They take the store as a
  parameter instead of using a package-level variable. A store holds nullable pointers
  (`Store<Publishing?>` and so on), because release can make it retain nil. The
  predicate `<Kind>PoolClean` is the store invariant: every retained non-nil pointer
  satisfies `IsReset`. Acquire and release both require it and preserve it. Only a
  caller that uses an instance after releasing it (which the Go comments forbid) can
  break it. It can write to the instance, or release it a second time, so that the
  store still holds the instance after a later acquire and that new owner's writes
  reach the store. Beside each release, `<Release>NonNil` is the corrected release of
  "## Findings".
- `scenarios.dfy` (module `Scenarios`): callers. The first shows that a message filled and
  released leaks nothing into the next acquire. The second shows that a delivery's
  handle and tag do not survive its release. The third shows that releasing the same
  instance twice is not detected and leaves it in the store twice. The rest show, for
  each kind, that release of nil can make the next acquire return nil, and that the
  corrected release cannot. `RecycleRoundTrip` shows that an acquire that hits,
  followed by the release of its result, leaves the store holding the same pointers.

A pool miss returns `&Publishing{}` (and likewise for the other two records), whose Body
is nil. A hit returns a retained pointer. That is either a reset instance, whose Body is
`[]byte{}`, or a nil left there by a release of nil. The fresh and the reset instance
both have a body of length 0, and all their other fields are equal. The acquire
contracts state every case.

## Model

| member | source | states |
|---|---|---|
| `SyncPool.AfterTake` | sync_pools.go:37 | the store after Get takes value i: one shorter, the values before i in place, the ones after i shifted down by one |
| `SyncPool.TakeMultiset` | sync_pools.go:37 | taking value i loses exactly that one occurrence: the new store plus {s[i]} is the old store as a bag, and every value still held was held before |
| `SyncPool.AfterPut` | sync_pools.go:51 | the store after Put: Put of the nil interface leaves it as it was, and any other Put adds exactly one occurrence of the value |
| `SyncPool.TakeThenPut` | sync_pools.go:37-51 | an acquire that takes value i followed by a release that puts it back appends it to the rest of the store, which then holds the same values as the original store, as a bag |
| `SyncPool.Store.constructor` | sync_pools.go:8-12 | a zero sync.Pool retains nothing |
| `SyncPool.Store.Get` | sync_pools.go:37 | Get misses and leaves the store unchanged, or returns the value at some index i of the store and leaves `AfterTake` of the store at i, so exactly one occurrence leaves; it never invents a value; a miss is possible even when the store is not empty |
| `SyncPool.Store.Put` | sync_pools.go:51 | Put adds the value; Put of the nil interface is ignored |
| `Envelopes.Publishing.constructor` | sync_pools.go:39 | &Publishing{} is the Go zero value: every field zero, nil headers, nil body |
| `Envelopes.Publishing.Reset` | sync_pools.go:14-29 | afterwards Headers is nil, every string is "", DeliveryMode and Priority are 0, Timestamp is the zero time and Body is empty but not nil; resetting a reset instance changes nothing |
| `Envelopes.Publishing.ResetContent` | sync_pools.go:15-19 | Headers is nil, ContentType and ContentEncoding are "", DeliveryMode and Priority are 0; no other field changes |
| `Envelopes.Publishing.ResetIdentity` | sync_pools.go:20-27 | CorrelationId through AppId are "" and Timestamp is the zero time; no other field changes |
| `Envelopes.BasicPublish.constructor` | sync_pools.go:71 | &basicPublish{} is the Go zero value: empty routing fields, both flags false, zero properties, nil body |
| `Envelopes.BasicPublish.Reset` | sync_pools.go:54-61 | afterwards Exchange and RoutingKey are "", Mandatory and Immediate are false, Properties is properties{} and Body is empty but not nil; resetting a reset instance changes nothing |
| `Envelopes.Delivery.constructor` | sync_pools.go:118 | &Delivery{} is the Go zero value: no acknowledgement handle, every field zero, nil body |
| `Envelopes.Delivery.Reset` | sync_pools.go:86-108 | afterwards there is no acknowledgement handle, DeliveryTag and MessageCount are 0, Redelivered is false, every string is "", Headers is nil, Timestamp is the zero time and Body is empty but not nil; resetting a reset instance changes none of the 21 fields |
| `Envelopes.Delivery.ResetDelivery` | sync_pools.go:101-107 | ConsumerTag through RoutingKey are zero, Body is empty but not nil, and the acknowledgement handle is dropped, as on line 87; no other field changes |
| `Envelopes.Delivery.ResetContent` | sync_pools.go:88-92 | Headers is nil, ContentType and ContentEncoding are "", DeliveryMode and Priority are 0; no other field changes |
| `Envelopes.Delivery.ResetIdentity` | sync_pools.go:93-100 | CorrelationId through AppId are "" and Timestamp is the zero time; no other field changes |
| `Pools.AcquirePublishing` | sync_pools.go:36-42 | on a miss (always the case on an empty store) the result is freshly allocated, is the zero value with a nil body, is not in the store, and the store is unchanged; on a hit the result is a pointer the store held, one occurrence of it leaves the store, and it is either a reset instance with an empty non-nil body or nil; nil is returned only if the store held nil, and a store without nil stays without nil; every non-nil result is clean; the store stays clean |
| `Pools.ReleasePublishing` | sync_pools.go:47-52 | a non-nil instance is reset; the pointer, nil or not, is appended to the store, so a nil pointer becomes retained; the store stays clean; nothing checks whether the instance is already stored |
| `Pools.AcquireBasicPublish` | sync_pools.go:68-74 | as for AcquirePublishing, for basicPublish |
| `Pools.ReleaseBasicPublishing` | sync_pools.go:79-84 | as for ReleasePublishing, for basicPublish |
| `Pools.AcquireDelivery` | sync_pools.go:115-121 | as for AcquirePublishing, for Delivery: in particular no acknowledgement handle and a zero delivery tag on every non-nil result, whether fresh or recycled |
| `Pools.ReleaseDelivery` | sync_pools.go:126-131 | as for ReleasePublishing, for Delivery: the handle is dropped before the instance goes back to the store |
| `Pools.ReleasePublishingNonNil` | sync_pools.go:47-52 | the corrected release: a non-nil instance is reset and appended; nil leaves the store unchanged, so a store without nil stays without nil |
| `Pools.ReleaseBasicPublishingNonNil` | sync_pools.go:79-84 | as ReleasePublishingNonNil, for basicPublish |
| `Pools.ReleaseDeliveryNonNil` | sync_pools.go:126-131 | as ReleasePublishingNonNil, for Delivery |
| `Scenarios.PublishingDoesNotCarryOver` | sync_pools.go:36-52 | a Publishing given headers, a correlation id and a body and then released: a non-nil result of the next acquire has nil headers, an empty correlation id and a body of length 0; the result is nil only if the store already held nil |
| `Scenarios.DeliveryDoesNotLeakAcknowledger` | sync_pools.go:115-131 | a Delivery given handle h and tag 42 and then released: a non-nil result of the next acquire has neither h nor 42; the result is nil only if the store already held nil |
| `Scenarios.DoubleRelease` | sync_pools.go:79-84 | releasing the same instance twice is accepted and leaves it in the store twice, so two owners can later acquire it |
| `Scenarios.RecycleRoundTrip` | sync_pools.go:36-52 | acquire then release of its result: after a hit the store holds the same pointers as a bag; after a miss it holds one more, the fresh instance; the store stays clean |
| `Scenarios.NilPublishingReturned` | sync_pools.go:36-52 | on an empty store, release of nil then acquire: any non-nil result is freshly allocated, so every hit hands nil to the caller |
| `Scenarios.NilPublishingDropped` | sync_pools.go:36-52 | with the corrected release, release of nil then acquire on a clean store without nil returns a clean non-nil instance |
| `Scenarios.NilBasicPublishReturned` | sync_pools.go:68-84 | as NilPublishingReturned, for basicPublish |
| `Scenarios.NilBasicPublishDropped` | sync_pools.go:68-84 | as NilPublishingDropped, for basicPublish |
| `Scenarios.NilDeliveryReturned` | sync_pools.go:115-131 | as NilPublishingReturned, for Delivery |
| `Scenarios.NilDeliveryDropped` | sync_pools.go:115-131 | as NilPublishingDropped, for Delivery |

## Findings

| source | as written | input that shows it | evidently intended | confidence | as-written member | corrected member |
|---|---|---|---|---|---|---|
| sync_pools.go:47-52 | `poolPublishing.Put(pub)` runs for a nil `pub` too; the nil `*Publishing` becomes a non-nil `any`, so the pool retains it, and `AcquirePublishing` returns it through `v.(*Publishing)` on line 41 | an empty pool, `ReleasePublishing(nil)`, then `AcquirePublishing()` whose Get hits | release of nil does nothing, so acquire always returns an instance, as its comment on line 31 says | medium, not executed | `Pools.ReleasePublishing`, `Scenarios.NilPublishingReturned` | `Pools.ReleasePublishingNonNil`, `Scenarios.NilPublishingDropped` |
| sync_pools.go:79-84 | `poolBasicPublishing.Put(bPub)` runs for a nil `bPub` too, so the pool retains a nil `*basicPublish` and line 73 can return it | an empty pool, `releaseBasicPublishing(nil)`, then `acquireBasicPublish()` whose Get hits | release of nil does nothing, so acquire always returns an instance, as its comment on line 63 says | medium, not executed | `Pools.ReleaseBasicPublishing`, `Scenarios.NilBasicPublishReturned` | `Pools.ReleaseBasicPublishingNonNil`, `Scenarios.NilBasicPublishDropped` |
| sync_pools.go:126-131 | `poolDelivery.Put(del)` runs for a nil `del` too, so the pool retains a nil `*Delivery` and line 120 can return it | an empty pool, `ReleaseDelivery(nil)`, then `AcquireDelivery()` whose Get hits | release of nil does nothing, so acquire always returns an instance, as its comment on line 110 says | medium, not executed | `Pools.ReleaseDelivery`, `Scenarios.NilDeliveryReturned` | `Pools.ReleaseDeliveryNonNil`, `Scenarios.NilDeliveryDropped` |

The acquire and release members in the "## Model" table follow the code as written. The
corrected releases sit beside them. Every acquire contract states that a store without
nil never yields nil. Together with the corrected release's guarantee that a store
without nil stays without nil, this proves the intended property.

## Left out

- The internals of `sync.Pool` are not modelled: per-processor caches, lock-free
  access and eviction at garbage collection. Concurrency and race-freedom are left out
  too. The store is used by one caller at a time. A miss with a non-empty store stands
  in for eviction. Because of this, the model cannot say which retained value a hit
  returns. The Go implementation usually returns the value just Put by the same
  goroutine, so in the findings above the hit on the retained nil is the likely outcome,
  not just a possible one.
- The runtime type assertions `v.(*Publishing)`, `v.(*basicPublish)` and `v.(*Delivery)`
  are not modelled as checks. A `Store<T?>` holds only pointers of its own kind. The
  assertion succeeds on every such value, and on the typed nil it yields nil.
- `time.Time` is reduced to the instant it denotes (seconds and nanoseconds). Its
  location and monotonic reading are not modelled.
- The `Acknowledger` interface is only an identity; its Ack, Nack and Reject are not
  modelled. Header field values are only a small datatype; their wire encoding is not
  modelled.
- The `properties` struct is defined elsewhere in the Go package and is not modelled.
  It is seen only as a map of set properties, and only its zero value `properties{}`
  is used.
- The struct definitions of `Publishing`, `basicPublish` and `Delivery` live elsewhere in
  the Go package and are not modelled. Fields that no `Reset` assigns are not modelled.
- Use-after-release and double release are not detected, because the Go code does not
  detect them either. The store invariant is a precondition of acquire and release. Two kinds of
  caller break it and can then no longer call them: one that writes to a released
  instance, and the later owner of a twice-released instance that writes to it while the
  store still holds it.
- Maps and byte slices are values here. The sharing of their backing storage is not
  modelled. For example, Reset drops the reference to the old header map, and the model
  does not track who else still holds that map.
