/** Callers of the pools: what the acquire and release contracts let a caller prove about
    reuse, and what they let a careless caller do. */
module Scenarios {
  import opened GoValues
  import opened Envelopes
  import opened SyncPool
  import opened Pools

  /** An outgoing message filled with a header, a correlation id and a body and then
      released: the next acquire sees none of them, whether it gets the same instance
      back or another one. It gets nil only if the pool already retained a nil. */
  method PublishingDoesNotCarryOver(pool: Store<Publishing?>, p: Publishing)
    returns (q: Publishing?)
    requires PublishingPoolClean(pool) && p !in pool.items
    modifies pool, p
    ensures PublishingPoolClean(pool)
    ensures q != null ==> q.Headers == None && q.CorrelationId == "" && Len(q.Body) == 0
    ensures q == null ==> null in old(pool.items)
  {
    p.Headers := Some(map["k" := Text("v")]);
    p.CorrelationId := "x";
    p.Body := Some([1, 2, 3]);
    ReleasePublishing(pool, p);
    q := AcquirePublishing(pool);
  }

  /** A delivery carrying acknowledgement handle h and delivery tag 42 and then
      released: no later acquire exposes h or the tag. */
  method DeliveryDoesNotLeakAcknowledger(pool: Store<Delivery?>, d: Delivery, h: Acknowledger)
    returns (e: Delivery?)
    requires DeliveryPoolClean(pool) && d !in pool.items
    modifies pool, d
    ensures DeliveryPoolClean(pool)
    ensures e != null ==> e.Acknowledger != h && e.DeliveryTag != 42
    ensures e == null ==> null in old(pool.items)
  {
    d.Acknowledger := h;
    d.DeliveryTag := 42;
    ReleaseDelivery(pool, d);
    e := AcquireDelivery(pool);
  }

  /** Releasing the same instance twice is not detected: the store then holds it twice,
      so two later acquires may hand it to two owners. */
  method DoubleRelease(pool: Store<BasicPublish?>, b: BasicPublish)
    requires BasicPublishPoolClean(pool) && b !in pool.items
    modifies pool, b
    ensures BasicPublishPoolClean(pool)
    ensures multiset(pool.items)[b] == 2
  {
    ReleaseBasicPublishing(pool, b);
    ReleaseBasicPublishing(pool, b);
  }

  /** Acquire followed by the release of what it returned: after a hit the store holds
      the same pointers as before, as a bag (only their order may change); after a miss
      it holds one more, the freshly allocated instance. */
  method RecycleRoundTrip(pool: Store<Publishing?>) returns (q: Publishing?)
    requires PublishingPoolClean(pool)
    modifies pool, pool.items
    ensures PublishingPoolClean(pool)
    ensures q != null && fresh(q) ==> pool.items == old(pool.items) + [q]
    ensures q == null || !fresh(q) ==> multiset(pool.items) == multiset(old(pool.items))
  {
    q := AcquirePublishing(pool);
    ReleasePublishing(pool, q);
  }

  /** Release of nil on an empty pool, then acquire: the pool retains only the nil
      pointer, so the acquire either misses and allocates, or hands the nil to its caller. */
  method NilPublishingReturned(pool: Store<Publishing?>) returns (q: Publishing?)
    requires pool.items == []
    modifies pool
    ensures q != null ==> fresh(q) && q.IsNew()
    ensures q == null ==> pool.items == []
  {
    ReleasePublishing(pool, null);
    assert pool.items == [null];
    q := AcquirePublishing(pool);
  }

  /** With the corrected release, release of nil leaves a pool without nil as it was, and
      the next acquire returns a clean, non-nil instance. */
  method NilPublishingDropped(pool: Store<Publishing?>) returns (q: Publishing?)
    requires PublishingPoolClean(pool) && null !in pool.items
    modifies pool
    ensures PublishingPoolClean(pool) && null !in pool.items
    ensures q != null && q.IsClean()
  {
    ReleasePublishingNonNil(pool, null);
    q := AcquirePublishing(pool);
  }

  /** As NilPublishingReturned, for basicPublish. */
  method NilBasicPublishReturned(pool: Store<BasicPublish?>) returns (q: BasicPublish?)
    requires pool.items == []
    modifies pool
    ensures q != null ==> fresh(q) && q.IsNew()
    ensures q == null ==> pool.items == []
  {
    ReleaseBasicPublishing(pool, null);
    assert pool.items == [null];
    q := AcquireBasicPublish(pool);
  }

  /** As NilPublishingDropped, for basicPublish. */
  method NilBasicPublishDropped(pool: Store<BasicPublish?>) returns (q: BasicPublish?)
    requires BasicPublishPoolClean(pool) && null !in pool.items
    modifies pool
    ensures BasicPublishPoolClean(pool) && null !in pool.items
    ensures q != null && q.IsClean()
  {
    ReleaseBasicPublishingNonNil(pool, null);
    q := AcquireBasicPublish(pool);
  }

  /** As NilPublishingReturned, for Delivery. */
  method NilDeliveryReturned(pool: Store<Delivery?>) returns (q: Delivery?)
    requires pool.items == []
    modifies pool
    ensures q != null ==> fresh(q) && q.IsNew()
    ensures q == null ==> pool.items == []
  {
    ReleaseDelivery(pool, null);
    assert pool.items == [null];
    q := AcquireDelivery(pool);
  }

  /** As NilPublishingDropped, for Delivery. */
  method NilDeliveryDropped(pool: Store<Delivery?>) returns (q: Delivery?)
    requires DeliveryPoolClean(pool) && null !in pool.items
    modifies pool
    ensures DeliveryPoolClean(pool) && null !in pool.items
    ensures q != null && q.IsClean()
  {
    ReleaseDeliveryNonNil(pool, null);
    q := AcquireDelivery(pool);
  }
}
